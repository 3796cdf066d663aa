/** When a session can come back to a period it has left. */
module Calendar {
  import opened Ledger
  import opened Accounting

  const DAY := 86400

  predicate InTable(t: Tables, i: nat, j: nat)
    requires ValidTables(t)
  {
    i < SEG_MAX && j < |t[i]|
  }

  /** Some period covers the hour. */
  ghost predicate Served(t: Tables, hour: nat)
    requires ValidTables(t)
  {
    exists i: nat, j: nat :: InTable(t, i, j) && Covers(t[i][j], hour)
  }

  /** Every hour of the day lies in exactly one period, and periods end by midnight. */
  ghost predicate Partition(t: Tables)
    requires ValidTables(t)
  {
    && (forall i: nat, j: nat :: InTable(t, i, j) ==> t[i][j].end <= 24)
    && (forall i: nat, j: nat, k: nat, l: nat, hour: nat ::
          (InTable(t, i, j) && InTable(t, k, l) && Covers(t[i][j], hour) && Covers(t[k][l], hour)) ==> i == k && j == l)
    && (forall hour: nat :: hour < 24 ==> Served(t, hour))
  }

  predicate InTables(t: Tables, s: Slot)
    requires ValidTables(t)
  {
    s.seg < SEG_MAX && s.pos < |t[s.seg]|
  }

  /** The moment lies in the period, said of the seconds of its day. */
  predicate HoldsAt(h: Hours, tz: int, now: int) { 3600 * h.start <= (now + tz) % DAY < 3600 * h.end }

  lemma CoversInSeconds(h: Hours, tz: int, now: int)
    ensures Covers(h, HourOf(now, tz)) <==> HoldsAt(h, tz, now)
  {
    var x := now + tz;
    var d := x % DAY;
    assert x == DAY * (x / DAY) + d;
    assert x / 3600 == 24 * (x / DAY) + d / 3600;
    assert HourOf(now, tz) == d / 3600;
  }

  lemma {:induction false} FirstFrom(t: Tables, hour: nat, i: nat)
    requires ValidTables(t) && i <= SEG_MAX
    ensures var s := SlotFrom(t, hour, i);
            || (InTables(t, s) && Covers(t[s.seg][s.pos], hour) && s.seg >= i &&
                forall k: nat, l: nat :: InTable(t, k, l) && k >= i && (k < s.seg || (k == s.seg && l < s.pos)) ==>
                  !Covers(t[k][l], hour))
            || (s == Slot(4, 0) && forall k: nat, l: nat :: InTable(t, k, l) && k >= i ==> !Covers(t[k][l], hour))
    decreases SEG_MAX - i
  {
    hide Covers;
    if i < SEG_MAX { FirstFrom(t, hour, i + 1); }
  }

  /** For any tables, JudgeSegState finds the first slot, by segment and then by position, whose period holds the
      moment; the first of the default segment when none does. */
  lemma FirstSlotFound(t: Tables, tz: int, now: int)
    requires ValidTables(t)
    ensures var s := SlotOf(t, tz, now);
            || (InTables(t, s) && HoldsAt(t[s.seg][s.pos], tz, now) &&
                forall i: nat, j: nat :: InTable(t, i, j) && (i < s.seg || (i == s.seg && j < s.pos)) ==>
                  !HoldsAt(t[i][j], tz, now))
            || (s == Slot(4, 0) && forall i: nat, j: nat :: InTable(t, i, j) ==> !HoldsAt(t[i][j], tz, now))
  {
    forall h: Hours ensures Covers(h, HourOf(now, tz)) <==> HoldsAt(h, tz, now) { CoversInSeconds(h, tz, now); }
    hide HourOf, HoldsAt, Covers;
    FirstFrom(t, HourOf(now, tz), 0);
  }

  /** With a partition, JudgeSegState finds the one period that covers the hour. */
  lemma SlotCovers(t: Tables, tz: int, now: int)
    requires ValidTables(t) && Partition(t)
    ensures InTables(t, SlotOf(t, tz, now))
    ensures Covers(t[SlotOf(t, tz, now).seg][SlotOf(t, tz, now).pos], HourOf(now, tz))
  {
    FirstFrom(t, HourOf(now, tz), 0);
    assert Served(t, HourOf(now, tz));
  }

  function DayOf(now: int, tz: int): int { (now + tz) / DAY }

  /** A moment is its day, its hour and the rest. */
  lemma DayAndHour(now: int, tz: int)
    ensures var d := DayOf(now, tz); var h := HourOf(now, tz);
            h < 24 && DAY * d + 3600 * h <= now + tz < DAY * d + 3600 * h + 3600
  {
    var x := now + tz;
    var q := x / 3600;
    assert q == 24 * (q / 24) + q % 24;
    assert x / DAY == q / 24;
  }

  /** Moments are ordered by day, then by hour. */
  lemma LaterHour(tz: int, a: int, b: int)
    requires a <= b
    ensures DayOf(a, tz) < DayOf(b, tz) || (DayOf(a, tz) == DayOf(b, tz) && HourOf(a, tz) <= HourOf(b, tz))
  {
    hide DayOf, HourOf;
    DayAndHour(a, tz);
    DayAndHour(b, tz);
  }

  /** Two moments in the same hours of the day with another hour between them are on different days. */
  lemma AwayLong(h: Hours, tz: int, a: int, b: int, c: int)
    requires a <= b <= c && h.end <= 24
    requires Covers(h, HourOf(a, tz)) && !Covers(h, HourOf(b, tz)) && Covers(h, HourOf(c, tz))
    ensures c - a > DAY - 3600 * (h.end - h.start)
  {
    hide DayOf, HourOf;
    LaterHour(tz, a, b);
    LaterHour(tz, b, c);
    assert DayOf(a, tz) + 1 <= DayOf(c, tz);
    DayAndHour(a, tz);
    DayAndHour(c, tz);
  }

  /** A period that has started was the current one at some earlier call. */
  lemma {:induction false} StartedAt(t: Tables, tz: int, calls: seq<Call>, orders: seq<Order>, s: Slot, n: nat)
    returns (m: nat)
    requires IsSession(t, tz, calls, orders) && n < |calls|
    requires ValidSlot(s) && At(orders[n].cells, s).tStart > 0
    ensures m <= n && SlotOf(t, tz, calls[m].now) == s
  {
    hide SlotOf, Put, At;
    m := n;
    if n == 0 { MakeBlank(t, tz, calls[0].now); }
    else {
      assert UpdateAt(t, tz, calls, orders, n);
      var o := orders[n - 1];
      var e := Finished(Entry(KindAt(t, tz, calls, orders, n), At(o.cells, o.cur), calls[n]), calls[n]);
      AtPut(o.cells, o.cur, e, s);
      if At(o.cells, s).tStart > 0 { m := StartedAt(t, tz, calls, orders, s, n - 1); }
    }
  }

  lemma CurrentSlot(t: Tables, tz: int, calls: seq<Call>, orders: seq<Order>, n: nat)
    requires IsSession(t, tz, calls, orders) && n < |calls|
    ensures orders[n].cur == SlotOf(t, tz, calls[n].now)
  {
    hide SlotOf;
    if n > 0 { assert UpdateAt(t, tz, calls, orders, n); }
  }

  ghost predicate ClockRises(calls: seq<Call>) {
    forall j, k :: 0 <= j <= k < |calls| ==> calls[j].now <= calls[k].now
  }

  /** The session is no longer than a day less its longest period. */
  predicate ShortSession(t: Tables, calls: seq<Call>)
    requires ValidTables(t) && |calls| > 0
  {
    forall i, j :: 0 <= i < SEG_MAX && 0 <= j < |t[i]| ==>
      calls[|calls| - 1].now - calls[0].now <= DAY - 3600 * (t[i][j].end - t[i][j].start)
  }

  /** A call that re-enters a period looks back on a first visit and on a moment outside it. */
  lemma ReentryLooksBack(t: Tables, tz: int, calls: seq<Call>, orders: seq<Order>, k: nat) returns (m: nat)
    requires IsSession(t, tz, calls, orders) && 0 < k < |calls| && Reenters(t, tz, calls, orders, k)
    ensures m < k
    ensures SlotOf(t, tz, calls[m].now) == SlotOf(t, tz, calls[k].now) != SlotOf(t, tz, calls[k - 1].now)
  {
    hide SlotOf, Put, At;
    assert UpdateAt(t, tz, calls, orders, k);
    CurrentSlot(t, tz, calls, orders, k - 1);
    var o := orders[k - 1];
    var s := orders[k].cur;
    AtPut(o.cells, o.cur, Finished(Entry(Switch, At(o.cells, o.cur), calls[k]), calls[k]), s);
    m := StartedAt(t, tz, calls, orders, s, k - 1);
  }

  lemma LeftAndBack(t: Tables, tz: int, a: int, b: int, c: int)
    requires ValidTables(t) && Partition(t) && a <= b <= c
    requires SlotOf(t, tz, a) == SlotOf(t, tz, c) != SlotOf(t, tz, b)
    ensures InTables(t, SlotOf(t, tz, a))
    ensures var h := t[SlotOf(t, tz, a).seg][SlotOf(t, tz, a).pos];
            c - a > DAY - 3600 * (h.end - h.start)
  {
    hide SlotOf, HourOf;
    SlotCovers(t, tz, a);
    SlotCovers(t, tz, b);
    SlotCovers(t, tz, c);
    var s := SlotOf(t, tz, a);
    AwayLong(t[s.seg][s.pos], tz, a, b, c);
  }

  /** With tables that partition the day, a session no longer than a day less its longest period re-enters nothing. */
  lemma ShortSessionsDoNotReenter(t: Tables, tz: int, calls: seq<Call>, orders: seq<Order>)
    requires IsSession(t, tz, calls, orders) && Partition(t) && ClockRises(calls) && ShortSession(t, calls)
    ensures NoReentry(t, tz, calls, orders)
  {
    hide SlotOf, Reenters, HourOf, Update, Make, Partition;
    forall k: nat | 0 < k < |calls| ensures !Reenters(t, tz, calls, orders, k) {
      if Reenters(t, tz, calls, orders, k) {
        var m := ReentryLooksBack(t, tz, calls, orders, k);
        LeftAndBack(t, tz, calls[m].now, calls[k - 1].now, calls[k].now);
      }
    }
  }

  // ----- what the totals see -------------------------------------------------

  /** The periods outside the tables stay blank. */
  ghost predicate OnlyTables(t: Tables, c: Cells)
    requires ValidTables(t) && ValidCells(c)
  {
    forall s: Slot :: ValidSlot(s) && !InTables(t, s) ==> At(c, s) == BLANK
  }

  lemma {:induction false} StaysInTables(t: Tables, tz: int, calls: seq<Call>, orders: seq<Order>, n: nat)
    requires IsSession(t, tz, calls, orders) && n < |calls| && Partition(t)
    ensures OnlyTables(t, orders[n].cells)
  {
    hide SlotOf, Put, At, HourOf, Partition;
    if n == 0 { MakeBlank(t, tz, calls[0].now); }
    else {
      StaysInTables(t, tz, calls, orders, n - 1);
      assert UpdateAt(t, tz, calls, orders, n);
      CurrentSlot(t, tz, calls, orders, n - 1);
      SlotCovers(t, tz, calls[n - 1].now);
      var o := orders[n - 1];
      var e := Finished(Entry(KindAt(t, tz, calls, orders, n), At(o.cells, o.cur), calls[n]), calls[n]);
      forall s: Slot | ValidSlot(s) && !InTables(t, s) ensures At(orders[n].cells, s) == BLANK {
        AtPut(o.cells, o.cur, e, s);
      }
    }
  }

  /** The energy of the first n segments as the totals count it: the periods of the tables only. */
  function TabledEnergy(t: Tables, c: Cells, n: nat): real
    requires ValidTables(t) && ValidCells(c) && n <= SEG_MAX
  {
    if n == 0 then 0.0 else TabledEnergy(t, c, n - 1) + SegEnergy(t, c, n - 1)
  }

  lemma {:induction false} RestBlank(row: seq<Period>, a: nat, b: nat)
    requires a <= b <= |row| && forall j :: a <= j < b ==> row[j] == BLANK
    ensures SumEnergy(row, b) == SumEnergy(row, a) && SumTime(row, b) == SumTime(row, a)
  {
    if a < b { RestBlank(row, a, b - 1); }
  }

  lemma RowRest(t: Tables, c: Cells, i: nat)
    requires ValidTables(t) && ValidCells(c) && i < SEG_MAX && OnlyTables(t, c)
    ensures SumEnergy(c[i], PERIOD_MAX) == SegEnergy(t, c, i)
    ensures SumTime(c[i], PERIOD_MAX) == SumTime(c[i], |t[i]|)
  {
    var row := c[i];
    forall j: nat | |t[i]| <= j < |row| ensures row[j] == BLANK { assert At(c, Slot(i, j)) == BLANK; }
    RestBlank(row, |t[i]|, PERIOD_MAX);
  }

  lemma {:induction false} TabledIsAll(t: Tables, c: Cells, n: nat)
    requires ValidTables(t) && ValidCells(c) && n <= SEG_MAX && OnlyTables(t, c)
    ensures TabledEnergy(t, c, n) == Grid(c, n)
  {
    if n > 0 {
      TabledIsAll(t, c, n - 1);
      RowRest(t, c, n - 1);
    }
  }

  /** So in a short session on tables that partition the day the billed energy, before truncation, is exactly the
      meter increments over the steady calls. */
  lemma BilledEnergyExact(t: Tables, tz: int, calls: seq<Call>, orders: seq<Order>, n: nat)
    requires IsSession(t, tz, calls, orders) && n < |calls|
    requires Partition(t) && ClockRises(calls) && ShortSession(t, calls)
    ensures TabledEnergy(t, orders[n].cells, SEG_MAX) == Increments(t, tz, calls, orders, Steady, n)
    ensures MeterRises(calls) ==> TabledEnergy(t, orders[n].cells, SEG_MAX) <= calls[n].meter - calls[0].meter
  {
    hide Partition, Update, Make, TabledEnergy, Grid, Increments;
    ShortSessionsDoNotReenter(t, tz, calls, orders);
    EnergyConserved(t, tz, calls, orders, n);
    StaysInTables(t, tz, calls, orders, n);
    TabledIsAll(t, orders[n].cells, SEG_MAX);
  }

  /** And so is that of each segment: the increments over the steady calls made in it. */
  lemma SegmentEnergyExact(t: Tables, tz: int, calls: seq<Call>, orders: seq<Order>, i: nat, n: nat)
    requires IsSession(t, tz, calls, orders) && n < |calls| && i < SEG_MAX
    requires Partition(t) && ClockRises(calls) && ShortSession(t, calls)
    ensures SegEnergy(t, orders[n].cells, i) == SegIncrements(t, tz, calls, orders, i, n)
  {
    hide Partition, Update, Make, SegEnergy, SegIncrements;
    ShortSessionsDoNotReenter(t, tz, calls, orders);
    SegmentAccounting(t, tz, calls, orders, i, n);
    StaysInTables(t, tz, calls, orders, n);
    RowRest(t, orders[n].cells, i);
  }
}
