/** What the recorded charging times add up to when the order is finished. */
module Timekeeping {
  import opened Ledger
  import opened Accounting
  import opened Calendar

  // ----- sums over the ledger ------------------------------------------------

  function SumBy(f: Period -> int, row: seq<Period>, n: nat): int
    requires n <= |row|
  {
    if n == 0 then 0 else SumBy(f, row, n - 1) + f(row[n - 1])
  }

  function GridBy(f: Period -> int, c: Cells, n: nat): int
    requires ValidCells(c) && n <= SEG_MAX
  {
    if n == 0 then 0 else GridBy(f, c, n - 1) + SumBy(f, c[n - 1], PERIOD_MAX)
  }

  lemma {:induction false} SumByPut(f: Period -> int, row: seq<Period>, j: nat, p: Period, n: nat)
    requires j < |row| && n <= |row|
    ensures SumBy(f, row[j := p], n) == SumBy(f, row, n) + if j < n then f(p) - f(row[j]) else 0
  {
    if n > 0 { SumByPut(f, row, j, p, n - 1); }
  }

  lemma {:induction false} GridByPut(f: Period -> int, c: Cells, s: Slot, p: Period, n: nat)
    requires ValidCells(c) && ValidSlot(s) && n <= SEG_MAX
    ensures GridBy(f, Put(c, s, p), n) == GridBy(f, c, n) + if s.seg < n then f(p) - f(At(c, s)) else 0
  {
    if n > 0 {
      GridByPut(f, c, s, p, n - 1);
      SumByPut(f, c[s.seg], s.pos, p, PERIOD_MAX);
    }
  }

  lemma {:induction false} SumByZero(f: Period -> int, row: seq<Period>, n: nat)
    requires n <= |row| && forall j :: 0 <= j < n ==> f(row[j]) == 0
    ensures SumBy(f, row, n) == 0
  {
    if n > 0 { SumByZero(f, row, n - 1); }
  }

  lemma {:induction false} GridByZero(f: Period -> int, c: Cells, n: nat)
    requires ValidCells(c) && n <= SEG_MAX && forall s: Slot :: ValidSlot(s) ==> f(At(c, s)) == 0
    ensures GridBy(f, c, n) == 0
  {
    if n > 0 {
      GridByZero(f, c, n - 1);
      var row := c[n - 1];
      forall j: nat | j < |row| ensures f(row[j]) == 0 { assert f(At(c, Slot(n - 1, j))) == 0; }
      SumByZero(f, row, PERIOD_MAX);
    }
  }

  /** The closed time of a period that was visited, and the end of one that never was: together ClosedTime. */
  function VisitedTime(p: Period): int { if p.tStart != 0 then ClosedTime(p) else 0 }

  function EpochTime(p: Period): int { if p.tStart == 0 then p.tEnd else 0 }

  lemma {:induction false} SumBySplit(row: seq<Period>, n: nat)
    requires n <= |row|
    ensures SumTime(row, n) == SumBy(ClosedTime, row, n) == SumBy(VisitedTime, row, n) + SumBy(EpochTime, row, n)
  {
    if n > 0 { SumBySplit(row, n - 1); }
  }

  lemma {:induction false} GridBySplit(c: Cells, n: nat)
    requires ValidCells(c) && n <= SEG_MAX
    ensures GridBy(ClosedTime, c, n) == GridBy(VisitedTime, c, n) + GridBy(EpochTime, c, n)
  {
    if n > 0 {
      GridBySplit(c, n - 1);
      SumBySplit(c[n - 1], PERIOD_MAX);
    }
  }

  // ----- where the time goes -------------------------------------------------

  function Elapsed(calls: seq<Call>, k: nat): int
    requires 0 < k < |calls|
  {
    calls[k].now - calls[k - 1].now
  }

  /** The time elapsed at first visits, up to call n. */
  ghost function FirstElapsed(t: Tables, tz: int, calls: seq<Call>, orders: seq<Order>, n: nat): int
    requires IsSession(t, tz, calls, orders) && n < |calls|
  {
    if n == 0 then 0
    else
      FirstElapsed(t, tz, calls, orders, n - 1) +
      if KindAt(t, tz, calls, orders, n) == First then Elapsed(calls, n) else 0
  }

  /** Call k leaves a period that was entered and never visited. */
  ghost predicate Skips(t: Tables, tz: int, calls: seq<Call>, orders: seq<Order>, k: nat)
    requires IsSession(t, tz, calls, orders) && 0 < k < |calls|
  {
    KindAt(t, tz, calls, orders, k) == Switch && At(orders[k - 1].cells, orders[k - 1].cur).tStart == 0
  }

  /** The time elapsed in such periods. */
  ghost function SkippedElapsed(t: Tables, tz: int, calls: seq<Call>, orders: seq<Order>, n: nat): int
    requires IsSession(t, tz, calls, orders) && n < |calls|
  {
    if n == 0 then 0
    else
      SkippedElapsed(t, tz, calls, orders, n - 1) + if Skips(t, tz, calls, orders, n) then Elapsed(calls, n) else 0
  }

  /** The time that periods re-entered up to call n had been away. */
  ghost function AwayTime(t: Tables, tz: int, calls: seq<Call>, orders: seq<Order>, n: nat): int
    requires IsSession(t, tz, calls, orders) && n < |calls|
  {
    if n == 0 then 0
    else
      AwayTime(t, tz, calls, orders, n - 1) +
      if Reenters(t, tz, calls, orders, n) then calls[n].now - At(orders[n].cells, orders[n].cur).tEnd else 0
  }

  /** A period that started and is not the current one has been left. */
  ghost predicate LeftClosed(o: Order)
    requires ValidOrder(o)
  {
    forall s: Slot :: ValidSlot(s) && s != o.cur && At(o.cells, s).tStart > 0 ==> At(o.cells, s).tEnd > 0
  }

  lemma {:induction false} StaysLeftClosed(t: Tables, tz: int, calls: seq<Call>, orders: seq<Order>, n: nat)
    requires IsSession(t, tz, calls, orders) && n < |calls|
    ensures LeftClosed(orders[n])
  {
    hide SlotOf, Put, At;
    if n == 0 { MakeBlank(t, tz, calls[0].now); }
    else {
      StaysLeftClosed(t, tz, calls, orders, n - 1);
      assert UpdateAt(t, tz, calls, orders, n);
      var o := orders[n - 1];
      var e := Finished(Entry(KindAt(t, tz, calls, orders, n), At(o.cells, o.cur), calls[n]), calls[n]);
      forall s: Slot | ValidSlot(s) && s != orders[n].cur && At(orders[n].cells, s).tStart > 0
        ensures At(orders[n].cells, s).tEnd > 0
      {
        AtPut(o.cells, o.cur, e, s);
      }
    }
  }

  /** What closing the current period now would record. */
  function OpenTime(p: Period, now: int): int { if p.tStart == 0 then 0 else now - p.tStart }

  /** The time of the session so far: recorded in the periods left, open in the current one, elapsed at first visits
      and in skipped periods, less the time re-entered periods had been away. */
  lemma {:induction false} TimeSoFar(t: Tables, tz: int, calls: seq<Call>, orders: seq<Order>, n: nat)
    requires IsSession(t, tz, calls, orders) && n < |calls|
    ensures var p := At(orders[n].cells, orders[n].cur);
            GridBy(VisitedTime, orders[n].cells, SEG_MAX) - VisitedTime(p) + OpenTime(p, calls[n].now) ==
              calls[n].now - calls[0].now - FirstElapsed(t, tz, calls, orders, n)
              - SkippedElapsed(t, tz, calls, orders, n) + AwayTime(t, tz, calls, orders, n)
  {
    hide SlotOf, Put, At, GridBy;
    if n == 0 {
      MakeBlank(t, tz, calls[0].now);
      GridByZero(VisitedTime, orders[0].cells, SEG_MAX);
    } else {
      TimeSoFar(t, tz, calls, orders, n - 1);
      StaysLeftClosed(t, tz, calls, orders, n - 1);
      assert UpdateAt(t, tz, calls, orders, n);
      var o := orders[n - 1];
      var e := Finished(Entry(KindAt(t, tz, calls, orders, n), At(o.cells, o.cur), calls[n]), calls[n]);
      GridByPut(VisitedTime, o.cells, o.cur, e, SEG_MAX);
      AtPut(o.cells, o.cur, e, orders[n].cur);
    }
  }

  /** Exact time accounting over any session: at the FINISH call the recorded times of all periods add up to the length
      of the session, less the time elapsed at first visits and in skipped periods, plus the time that periods
      re-entered before that call had been away, plus the whole time since the epoch for every period still skipped. */
  lemma TimeAccounting(t: Tables, tz: int, calls: seq<Call>, orders: seq<Order>)
    requires IsSession(t, tz, calls, orders) && |calls| > 1 && calls[|calls| - 1].finish
    ensures var n := |calls| - 1;
            GridBy(ClosedTime, orders[n].cells, SEG_MAX) ==
              calls[n].now - calls[0].now - FirstElapsed(t, tz, calls, orders, n)
              - SkippedElapsed(t, tz, calls, orders, n) + AwayTime(t, tz, calls, orders, n - 1)
              + GridBy(EpochTime, orders[n].cells, SEG_MAX)
  {
    hide SlotOf, Put, At, GridBy, FirstElapsed, SkippedElapsed;
    var n := |calls| - 1;
    TimeSoFar(t, tz, calls, orders, n);
    GridBySplit(orders[n].cells, SEG_MAX);
    StaysLeftClosed(t, tz, calls, orders, n - 1);
    assert UpdateAt(t, tz, calls, orders, n);
    var o := orders[n - 1];
    var e := Finished(Entry(KindAt(t, tz, calls, orders, n), At(o.cells, o.cur), calls[n]), calls[n]);
    AtPut(o.cells, o.cur, e, orders[n].cur);
  }

  // ----- when nothing is skipped or re-entered -------------------------------

  /** Every entered period gets a further call before the next switch. */
  ghost predicate VisitsFollowed(t: Tables, tz: int, calls: seq<Call>, orders: seq<Order>)
    requires IsSession(t, tz, calls, orders)
  {
    forall k: nat :: 0 < k < |calls| ==> !Skips(t, tz, calls, orders, k)
  }

  /** Periods are blank until they start, and end after they start. */
  ghost predicate Orderly(c: Cells, now: int)
    requires ValidCells(c)
  {
    forall s: Slot :: ValidSlot(s) ==>
      var p := At(c, s);
      (p.tStart == 0 ==> p == BLANK) && p.tStart <= now && (p.tEnd == 0 || p.tStart <= p.tEnd)
  }

  lemma {:induction false} StaysOrderly(t: Tables, tz: int, calls: seq<Call>, orders: seq<Order>, n: nat)
    requires IsSession(t, tz, calls, orders) && n < |calls|
    requires VisitsFollowed(t, tz, calls, orders) && ClockRises(calls)
    ensures Orderly(orders[n].cells, calls[n].now)
  {
    hide SlotOf, Put, At;
    if n == 0 { MakeBlank(t, tz, calls[0].now); }
    else {
      StaysOrderly(t, tz, calls, orders, n - 1);
      assert UpdateAt(t, tz, calls, orders, n);
      assert !Skips(t, tz, calls, orders, n);
      var o := orders[n - 1];
      var e := Finished(Entry(KindAt(t, tz, calls, orders, n), At(o.cells, o.cur), calls[n]), calls[n]);
      forall s: Slot | ValidSlot(s)
        ensures var p := At(orders[n].cells, s);
                (p.tStart == 0 ==> p == BLANK) && p.tStart <= calls[n].now && (p.tEnd == 0 || p.tStart <= p.tEnd)
      {
        AtPut(o.cells, o.cur, e, s);
      }
    }
  }

  lemma {:induction false} NothingAway(t: Tables, tz: int, calls: seq<Call>, orders: seq<Order>, n: nat)
    requires IsSession(t, tz, calls, orders) && n < |calls| && NoReentry(t, tz, calls, orders)
    ensures AwayTime(t, tz, calls, orders, n) == 0
  {
    hide Reenters;
    if n > 0 { NothingAway(t, tz, calls, orders, n - 1); }
  }

  lemma {:induction false} NothingSkipped(t: Tables, tz: int, calls: seq<Call>, orders: seq<Order>, n: nat)
    requires IsSession(t, tz, calls, orders) && n < |calls| && VisitsFollowed(t, tz, calls, orders)
    ensures SkippedElapsed(t, tz, calls, orders, n) == 0
  {
    hide Skips;
    if n > 0 { NothingSkipped(t, tz, calls, orders, n - 1); }
  }

  function SumNat(xs: seq<nat>, n: nat): nat
    requires n <= |xs|
  {
    if n == 0 then 0 else SumNat(xs, n - 1) + xs[n - 1]
  }

  lemma {:induction false} RowTimePositive(row: seq<Period>, n: nat)
    requires n <= |row| && forall j :: 0 <= j < |row| ==> row[j].tEnd == 0 || row[j].tStart <= row[j].tEnd
    ensures SumTime(row, n) >= 0
  {
    if n > 0 { RowTimePositive(row, n - 1); }
  }

  /** No segment's total wraps around when the whole fits in 32 bits, and then they add up to the whole. */
  lemma {:induction false} SegTimesAddUp(t: Tables, c: Cells, now: int, n: nat)
    requires ValidTables(t) && ValidCells(c) && n <= SEG_MAX && OnlyTables(t, c) && Orderly(c, now)
    requires GridBy(ClosedTime, c, n) < U32
    ensures SumNat(SegTimes(t, c), n) == GridBy(ClosedTime, c, n) >= 0
  {
    hide SumBy;
    if n > 0 {
      RowRest(t, c, n - 1);
      var row := c[n - 1];
      SumBySplit(row, PERIOD_MAX);
      forall j: nat | j < |row| ensures row[j].tEnd == 0 || row[j].tStart <= row[j].tEnd {
        assert At(c, Slot(n - 1, j)) == row[j];
      }
      RowTimePositive(row, PERIOD_MAX);
      SegTimesAddUp(t, c, now, n - 1);
    }
  }

  lemma {:induction false} ElapsedPositive(t: Tables, tz: int, calls: seq<Call>, orders: seq<Order>, n: nat)
    requires IsSession(t, tz, calls, orders) && n < |calls| && ClockRises(calls)
    ensures FirstElapsed(t, tz, calls, orders, n) >= 0
  {
    hide KindOf;
    if n > 0 { ElapsedPositive(t, tz, calls, orders, n - 1); }
  }

  /** On tables that partition the day, in a short session that fits in 32 bits and skips no period, the five
      ulSegTotalTime add up to tStopTime - tStartTime less the time elapsed at first visits. */
  lemma SegTimesExact(t: Tables, tz: int, calls: seq<Call>, orders: seq<Order>)
    requires IsSession(t, tz, calls, orders) && |calls| > 1 && calls[|calls| - 1].finish
    requires Partition(t) && ShortSession(t, calls) && ClockRises(calls) && VisitsFollowed(t, tz, calls, orders)
    requires calls[|calls| - 1].now < U32
    ensures var n := |calls| - 1;
            SumNat(SegTimes(t, orders[n].cells), SEG_MAX) ==
              calls[n].now - calls[0].now - FirstElapsed(t, tz, calls, orders, n)
  {
    hide Partition, Update, Make, GridBy, FirstElapsed, SkippedElapsed, AwayTime, SegTimes, KindOf, At;
    var n := |calls| - 1;
    ShortSessionsDoNotReenter(t, tz, calls, orders);
    TimeAccounting(t, tz, calls, orders);
    NothingSkipped(t, tz, calls, orders, n);
    NothingAway(t, tz, calls, orders, n - 1);
    StaysInTables(t, tz, calls, orders, n);
    StaysOrderly(t, tz, calls, orders, n);
    GridByZero(EpochTime, orders[n].cells, SEG_MAX);
    ElapsedPositive(t, tz, calls, orders, n);
    SegTimesAddUp(t, orders[n].cells, calls[n].now, SEG_MAX);
  }

  /** A period left before its first visit is recorded with all the time since the epoch. */
  lemma SkippedVisitCountsEpoch(t: Tables, tz: int, calls: seq<Call>, orders: seq<Order>, k: nat)
    requires IsSession(t, tz, calls, orders) && 0 < k < |calls| && Skips(t, tz, calls, orders, k)
    ensures ClosedTime(At(orders[k].cells, orders[k - 1].cur)) == calls[k].now
  {
    hide SlotOf, Put, At;
    assert UpdateAt(t, tz, calls, orders, k);
    var o := orders[k - 1];
    AtPut(o.cells, o.cur, Finished(Entry(Switch, At(o.cells, o.cur), calls[k]), calls[k]), o.cur);
  }
}
