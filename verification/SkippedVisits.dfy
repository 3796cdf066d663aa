/** Periods entered and left before their first visit: exactly when they spoil the recorded times. */
module SkippedVisits {
  import opened Ledger
  import opened Accounting
  import opened Calendar
  import opened Readings
  import opened Timekeeping
  import opened Reentry

  // ----- no skipped period is entered again ----------------------------------

  /** A period closed without a visit was current at some call and not at the next. */
  lemma {:induction false} ClosedUnvisited(t: Tables, tz: int, calls: seq<Call>, orders: seq<Order>, s: Slot, n: nat)
    returns (m: nat)
    requires IsSession(t, tz, calls, orders) && n < |calls| && ValidSlot(s)
    requires At(orders[n].cells, s).tStart == 0 && At(orders[n].cells, s).tEnd > 0
    ensures m < n && SlotOf(t, tz, calls[m].now) == s != SlotOf(t, tz, calls[m + 1].now)
  {
    hide SlotOf, Put, At;
    m := n;
    if n == 0 { MakeBlank(t, tz, calls[0].now); }
    else {
      assert UpdateAt(t, tz, calls, orders, n);
      CurrentSlot(t, tz, calls, orders, n - 1);
      var o := orders[n - 1];
      var e := Finished(Entry(KindAt(t, tz, calls, orders, n), At(o.cells, o.cur), calls[n]), calls[n]);
      AtPut(o.cells, o.cur, e, s);
      if s == o.cur && KindAt(t, tz, calls, orders, n) == Switch { m := n - 1; }
      else { m := ClosedUnvisited(t, tz, calls, orders, s, n - 1); }
    }
  }

  /** In a short session the current period is blank until its first visit. */
  lemma CurrentBlank(t: Tables, tz: int, calls: seq<Call>, orders: seq<Order>, n: nat)
    requires IsSession(t, tz, calls, orders) && n < |calls|
    requires Partition(t) && ClockRises(calls) && ShortSession(t, calls)
    ensures var p := At(orders[n].cells, orders[n].cur); p.tStart == 0 ==> p.tEnd == 0
  {
    hide SlotOf, Put, At, Partition, Update, Make;
    var s := orders[n].cur;
    var p := At(orders[n].cells, s);
    if p.tStart == 0 && p.tEnd > 0 {
      CurrentSlot(t, tz, calls, orders, n);
      var m := ClosedUnvisited(t, tz, calls, orders, s, n);
      LeftAndBack(t, tz, calls[m].now, calls[m + 1].now, calls[n].now);
    }
  }

  // ----- what skipped periods record -----------------------------------------

  /** The times at which the periods skipped up to call n were entered. */
  ghost function SkippedEntries(t: Tables, tz: int, calls: seq<Call>, orders: seq<Order>, n: nat): int
    requires IsSession(t, tz, calls, orders) && n < |calls|
  {
    if n == 0 then 0
    else SkippedEntries(t, tz, calls, orders, n - 1) + if Skips(t, tz, calls, orders, n) then calls[n - 1].now else 0
  }

  /** Each skipped period records the time of its entry besides the time spent in it. */
  lemma {:induction false} EpochsRecorded(t: Tables, tz: int, calls: seq<Call>, orders: seq<Order>, n: nat)
    requires IsSession(t, tz, calls, orders) && n < |calls|
    requires Partition(t) && ClockRises(calls) && ShortSession(t, calls)
    ensures GridBy(EpochTime, orders[n].cells, SEG_MAX) ==
              SkippedElapsed(t, tz, calls, orders, n) + SkippedEntries(t, tz, calls, orders, n)
  {
    hide SlotOf, Put, At, GridBy, Partition;
    if n == 0 {
      MakeBlank(t, tz, calls[0].now);
      GridByZero(EpochTime, orders[0].cells, SEG_MAX);
    } else {
      EpochsRecorded(t, tz, calls, orders, n - 1);
      CurrentBlank(t, tz, calls, orders, n - 1);
      assert UpdateAt(t, tz, calls, orders, n);
      var o := orders[n - 1];
      var e := Finished(Entry(KindAt(t, tz, calls, orders, n), At(o.cells, o.cur), calls[n]), calls[n]);
      GridByPut(EpochTime, o.cells, o.cur, e, SEG_MAX);
    }
  }

  lemma {:induction false} EntriesCount(t: Tables, tz: int, calls: seq<Call>, orders: seq<Order>, n: nat)
    requires IsSession(t, tz, calls, orders) && n < |calls|
    ensures SkippedEntries(t, tz, calls, orders, n) >= 0
    ensures SkippedEntries(t, tz, calls, orders, n) == 0 <==>
              forall k: nat :: 0 < k <= n ==> !Skips(t, tz, calls, orders, k)
  {
    hide Skips, Update, Make;
    if n > 0 { EntriesCount(t, tz, calls, orders, n - 1); }
  }

  /** Where nothing is re-entered, a period is skipped exactly when two calls in a row are no visits. */
  lemma SkipsIffUnvisited(t: Tables, tz: int, calls: seq<Call>, orders: seq<Order>, k: nat)
    requires IsSession(t, tz, calls, orders) && 0 < k < |calls| && NoReentry(t, tz, calls, orders)
    ensures Skips(t, tz, calls, orders, k) <==> !Visit(t, tz, calls, k) && !Visit(t, tz, calls, k - 1)
  {
    hide SlotOf, Update, Make, At;
    VisitsDoNotSwitch(t, tz, calls, orders, k);
    CurrentSlot(t, tz, calls, orders, k - 1);
    var s := orders[k - 1].cur;
    if Visit(t, tz, calls, k - 1) {
      VisitStarts(t, tz, calls, orders, k - 1, k - 1);
    } else if At(orders[k - 1].cells, s).tStart > 0 {
      if k == 1 { MakeBlank(t, tz, calls[0].now); }
      else {
        var m := BilledAtLastVisit(t, tz, calls, orders, s, k - 1);
        assert SameSlot(t, tz, calls, m, k - 1);
        ReentersIffVisited(t, tz, calls, orders, k - 1);
      }
    }
  }

  /** Of two calls in a row one at least finds the period of the call before it. */
  ghost predicate EveryStayVisited(t: Tables, tz: int, calls: seq<Call>)
    requires ValidTables(t)
  {
    forall k: nat :: 0 < k < |calls| ==> Visit(t, tz, calls, k) || Visit(t, tz, calls, k - 1)
  }

  lemma SkipsNoStay(t: Tables, tz: int, calls: seq<Call>, orders: seq<Order>)
    requires IsSession(t, tz, calls, orders) && NoReentry(t, tz, calls, orders)
    ensures VisitsFollowed(t, tz, calls, orders) <==> EveryStayVisited(t, tz, calls)
  {
    hide Visit, Skips, Update, Make, Reenters;
    if EveryStayVisited(t, tz, calls) {
      forall k: nat | 0 < k < |calls| ensures !Skips(t, tz, calls, orders, k) {
        SkipsIffUnvisited(t, tz, calls, orders, k);
      }
    } else {
      var k: nat :| 0 < k < |calls| && !Visit(t, tz, calls, k) && !Visit(t, tz, calls, k - 1);
      SkipsIffUnvisited(t, tz, calls, orders, k);
    }
  }

  /** The length of the session less the time elapsed at first visits: what the recorded times should add up to. */
  ghost function ChargedTime(t: Tables, tz: int, calls: seq<Call>, orders: seq<Order>): int
    requires IsSession(t, tz, calls, orders)
  {
    calls[|calls| - 1].now - calls[0].now - FirstElapsed(t, tz, calls, orders, |calls| - 1)
  }

  /** On tables that partition the day, in a short session: the recorded times add up to what they should if and only
      if every period entered was visited before it was left, which the clock alone decides; each one that was not adds
      the whole time since the epoch at which it was entered. */
  lemma TimesRightIffVisited(t: Tables, tz: int, calls: seq<Call>, orders: seq<Order>)
    requires IsSession(t, tz, calls, orders) && |calls| > 1 && calls[|calls| - 1].finish
    requires Partition(t) && ClockRises(calls) && ShortSession(t, calls)
    ensures var n := |calls| - 1;
            var recorded, charged := GridBy(ClosedTime, orders[n].cells, SEG_MAX), ChargedTime(t, tz, calls, orders);
            && recorded == charged + SkippedEntries(t, tz, calls, orders, n)
            && (recorded == charged <==> EveryStayVisited(t, tz, calls))
            && (VisitsFollowed(t, tz, calls, orders) <==> EveryStayVisited(t, tz, calls))
  {
    hide Partition, Update, Make, GridBy, FirstElapsed, SkippedElapsed, SkippedEntries, AwayTime, KindOf, At, Skips;
    hide Visit, ShortSession, ClockRises, Reenters;
    var n := |calls| - 1;
    ShortSessionsDoNotReenter(t, tz, calls, orders);
    TimeAccounting(t, tz, calls, orders);
    NothingAway(t, tz, calls, orders, n - 1);
    EpochsRecorded(t, tz, calls, orders, n);
    EntriesCount(t, tz, calls, orders, n);
    assert SkippedEntries(t, tz, calls, orders, n) == 0 <==> VisitsFollowed(t, tz, calls, orders);
    assert GridBy(ClosedTime, orders[n].cells, SEG_MAX) ==
           ChargedTime(t, tz, calls, orders) + SkippedEntries(t, tz, calls, orders, n);
    SkipsNoStay(t, tz, calls, orders);
  }

  // ----- the totals of 32 bits -----------------------------------------------

  /** How often the totals of the first n segments have wrapped around. */
  function Wraps(t: Tables, c: Cells, n: nat): int
    requires ValidTables(t) && ValidCells(c) && n <= SEG_MAX
  {
    if n == 0 then 0 else Wraps(t, c, n - 1) + SumTime(c[n - 1], |t[n - 1]|) / U32
  }

  lemma {:induction false} SegTimesWrapped(t: Tables, c: Cells, n: nat)
    requires ValidTables(t) && ValidCells(c) && n <= SEG_MAX && OnlyTables(t, c)
    ensures SumNat(SegTimes(t, c), n) == GridBy(ClosedTime, c, n) - U32 * Wraps(t, c, n)
  {
    if n > 0 {
      SegTimesWrapped(t, c, n - 1);
      RowRest(t, c, n - 1);
      SumBySplit(c[n - 1], PERIOD_MAX);
      hide SumTime, SumBy, OnlyTables;
      var x := SumTime(c[n - 1], |t[n - 1]|);
      assert SegTimes(t, c)[n - 1] == x % U32 == x - U32 * (x / U32);
    }
  }

  /** No segment's total needs more than 32 bits. */
  predicate TotalsFit(t: Tables, c: Cells)
    requires ValidTables(t) && ValidCells(c)
  {
    forall i :: 0 <= i < SEG_MAX ==> 0 <= SumTime(c[i], |t[i]|) < U32
  }

  lemma {:induction false} NoWraps(t: Tables, c: Cells, n: nat)
    requires ValidTables(t) && ValidCells(c) && n <= SEG_MAX && TotalsFit(t, c)
    ensures Wraps(t, c, n) == 0
  {
    hide SumTime;
    if n > 0 { NoWraps(t, c, n - 1); }
  }

  /** The same of the five ulSegTotalTime: they add up to what they should, plus the entries of skipped periods, less
      2^32 for every wrap; so they are right whenever every stay was visited, and, as long as none of them wraps, only
      then. */
  lemma SegTimesRightIffVisited(t: Tables, tz: int, calls: seq<Call>, orders: seq<Order>)
    requires IsSession(t, tz, calls, orders) && |calls| > 1 && calls[|calls| - 1].finish
    requires Partition(t) && ClockRises(calls) && ShortSession(t, calls) && calls[|calls| - 1].now < U32
    ensures var n := |calls| - 1; var c := orders[n].cells;
            var shown, charged := SumNat(SegTimes(t, c), SEG_MAX), ChargedTime(t, tz, calls, orders);
            && shown == charged + SkippedEntries(t, tz, calls, orders, n) - U32 * Wraps(t, c, SEG_MAX)
            && (EveryStayVisited(t, tz, calls) ==> shown == charged)
            && (TotalsFit(t, c) ==> (shown == charged <==> EveryStayVisited(t, tz, calls)))
  {
    hide Partition, Update, Make, GridBy, SkippedEntries, At, Visit, SegTimes, SumNat, ShortSession;
    hide TotalsFit, Wraps, EveryStayVisited, VisitsFollowed, ClockRises;
    var n := |calls| - 1;
    TimesRightIffVisited(t, tz, calls, orders);
    StaysInTables(t, tz, calls, orders, n);
    SegTimesWrapped(t, orders[n].cells, SEG_MAX);
    if EveryStayVisited(t, tz, calls) { SegTimesExact(t, tz, calls, orders); }
    if TotalsFit(t, orders[n].cells) { NoWraps(t, orders[n].cells, SEG_MAX); }
  }

  // ----- a session that skips a period ---------------------------------------

  /** Made in the last second of an hour, at which the period ends. */
  const LAST_SECOND: seq<Call> := [
    Call(89999, 0.0, false),
    Call(90001, 1.0, false), // the next hour
    Call(90011, 2.0, false), Call(90021, 3.0, true)]

  lemma LastSecondRises()
    ensures ClockRises(LAST_SECOND) && ShortSession(NIGHT, LAST_SECOND)
  {
  }

  lemma SecondCallSkips(o: seq<Order>)
    requires IsSession(NIGHT, 0, LAST_SECOND, o)
    ensures Skips(NIGHT, 0, LAST_SECOND, o, 1)
  {
    hide SlotOf, Put, At, Update;
    MakeBlank(NIGHT, 0, 89999);
    NightSlots(89999);
    NightSlots(90001);
    assert HourOf(89999, 0) == 0 && HourOf(90001, 0) == 1;
  }

  lemma RecordsADay(o: seq<Order>)
    requires IsSession(NIGHT, 0, LAST_SECOND, o) && Skips(NIGHT, 0, LAST_SECOND, o, 1)
    ensures 22 - FirstElapsed(NIGHT, 0, LAST_SECOND, o, 3) + SkippedEntries(NIGHT, 0, LAST_SECOND, o, 3) > DAY
  {
    hide Update, Make, KindOf, Skips, SlotOf;
    assert FirstElapsed(NIGHT, 0, LAST_SECOND, o, 1) <= 2 && SkippedEntries(NIGHT, 0, LAST_SECOND, o, 1) == 89999;
    assert FirstElapsed(NIGHT, 0, LAST_SECOND, o, 2) <= 12 && SkippedEntries(NIGHT, 0, LAST_SECOND, o, 2) >= 89999;
    assert FirstElapsed(NIGHT, 0, LAST_SECOND, o, 3) <= 22 && SkippedEntries(NIGHT, 0, LAST_SECOND, o, 3) >= 89999;
  }

  /** A session of 22 seconds that skips its first period, and records more than a day. */
  lemma SkipsFirstPeriod() returns (orders: seq<Order>)
    ensures Partition(NIGHT) && IsSession(NIGHT, 0, LAST_SECOND, orders) && Skips(NIGHT, 0, LAST_SECOND, orders, 1)
    ensures ClockRises(LAST_SECOND) && ShortSession(NIGHT, LAST_SECOND) && LAST_SECOND[3].now - LAST_SECOND[0].now == 22
    ensures GridBy(ClosedTime, orders[3].cells, SEG_MAX) > DAY
  {
    hide Session, Partition, ClockRises, ShortSession, IsSession, GridBy, Skips;
    NightPartitions();
    LastSecondRises();
    orders := Session(NIGHT, 0, LAST_SECOND);
    SessionExists(NIGHT, 0, LAST_SECOND);
    SecondCallSkips(orders);
    TimesRightIffVisited(NIGHT, 0, LAST_SECOND, orders);
    RecordsADay(orders);
  }
}
