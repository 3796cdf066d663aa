/** A session within the firmware's time limit that comes back to a period and is billed more than it metered. */
module Reentry {
  import opened Ledger
  import opened Accounting
  import opened Calendar

  /** The longest session the order task lets run, in seconds. */
  const LONGEST := 85800

  /** One hour of the first segment, the rest of the day in the second. */
  const NIGHT: Tables := [[Hours(0, 1)], [Hours(1, 24)], [], [], []]
  const A := Slot(0, 0)
  const B := Slot(1, 0)

  lemma NightSlots(now: nat)
    ensures SlotOf(NIGHT, 0, now) == if HourOf(now, 0) == 0 then A else B
  {
    var hour := HourOf(now, 0);
    DayAndHour(now, 0);
    hide HourOf;
    assert FirstPeriod(NIGHT[0], hour, 1) == 1;
    assert FirstPeriod(NIGHT[0], hour, 0) == if hour == 0 then 0 else 1;
    assert hour != 0 ==> FirstPeriod(NIGHT[1], hour, 0) == 0;
    assert SlotFrom(NIGHT, hour, 0) == if hour == 0 then A else SlotFrom(NIGHT, hour, 1);
  }

  lemma NightPartitions()
    ensures Partition(NIGHT)
  {
    forall hour: nat | hour < 24 ensures Served(NIGHT, hour) {
      if hour == 0 { assert InTable(NIGHT, 0, 0) && Covers(NIGHT[0][0], hour); }
      else { assert InTable(NIGHT, 1, 0) && Covers(NIGHT[1][0], hour); }
    }
  }

  /** The current slot, the two periods and the sum of the ledger. */
  ghost predicate Stands(o: Order, cur: Slot, a: Period, b: Period, sum: real) {
    ValidOrder(o) && o.cur == cur && At(o.cells, A) == a && At(o.cells, B) == b && Grid(o.cells, SEG_MAX) == sum
  }

  /** One update in that view. */
  lemma Moves(o: Order, c: Call, cur: Slot, a: Period, b: Period, sum: real)
    requires Stands(o, cur, a, b, sum) && (cur == A || cur == B) && !c.finish
    ensures var now := if HourOf(c.now, 0) == 0 then A else B;
            var was := if cur == A then a else b;
            var e := Entry(if now != cur then Switch else if was.tStart > 0 then Steady else First, was, c);
            Stands(Update(NIGHT, 0, o, c), now, if cur == A then e else a, if cur == B then e else b,
                   sum + e.energy - was.energy)
  {
    hide SlotOf, Put, At, HourOf, Grid;
    NightSlots(c.now);
    var e := Finished(Entry(KindOf(NIGHT, 0, o, c), At(o.cells, o.cur), c), c);
    AtPut(o.cells, o.cur, e, A);
    AtPut(o.cells, o.cur, e, B);
    GridPut(o.cells, o.cur, e, SEG_MAX);
  }

  const DAY_AND_BACK: seq<Call> := [
    Call(89400, 0.0, false),  // half past midnight
    Call(89410, 1.0, false), Call(89420, 2.0, false),
    Call(90000, 3.0, false),  // one o'clock
    Call(90010, 4.0, false), Call(90020, 10.0, false),
    Call(172810, 11.0, false), // midnight again
    Call(172820, 12.0, false)]

  lemma Begins(o: Order)
    requires o == Make(NIGHT, 0, 89400)
    ensures Stands(o, A, BLANK, BLANK, 0.0)
  {
    hide At, Grid;
    MakeBlank(NIGHT, 0, 89400);
    NightSlots(89400);
    hide SlotOf;
  }

  lemma FirstNight(o: Order, p: Order, q: Order, r: Order)
    requires Stands(o, A, BLANK, BLANK, 0.0) && ValidOrder(p) && ValidOrder(q)
    requires p == Update(NIGHT, 0, o, DAY_AND_BACK[1]) && q == Update(NIGHT, 0, p, DAY_AND_BACK[2])
    requires r == Update(NIGHT, 0, q, DAY_AND_BACK[3])
    ensures Stands(r, B, Period(89410, 90000, 1.0, 1.0), BLANK, 1.0)
  {
    hide Update, Stands;
    Moves(o, DAY_AND_BACK[1], A, BLANK, BLANK, 0.0);
    Moves(p, DAY_AND_BACK[2], A, Period(89410, 0, 1.0, 0.0), BLANK, 0.0);
    Moves(q, DAY_AND_BACK[3], A, Period(89410, 0, 1.0, 1.0), BLANK, 1.0);
  }

  lemma Daytime(o: Order, p: Order, q: Order, r: Order)
    requires Stands(o, B, Period(89410, 90000, 1.0, 1.0), BLANK, 1.0) && ValidOrder(p) && ValidOrder(q)
    requires p == Update(NIGHT, 0, o, DAY_AND_BACK[4]) && q == Update(NIGHT, 0, p, DAY_AND_BACK[5])
    requires r == Update(NIGHT, 0, q, DAY_AND_BACK[6])
    ensures Stands(r, A, Period(89410, 90000, 1.0, 1.0), Period(90010, 172810, 4.0, 6.0), 7.0)
  {
    hide Update, Stands;
    var a := Period(89410, 90000, 1.0, 1.0);
    Moves(o, DAY_AND_BACK[4], B, a, BLANK, 1.0);
    Moves(p, DAY_AND_BACK[5], B, a, Period(90010, 0, 4.0, 0.0), 1.0);
    Moves(q, DAY_AND_BACK[6], B, a, Period(90010, 0, 4.0, 6.0), 7.0);
  }

  lemma SecondNight(o: Order, p: Order)
    requires Stands(o, A, Period(89410, 90000, 1.0, 1.0), Period(90010, 172810, 4.0, 6.0), 7.0)
    requires p == Update(NIGHT, 0, o, DAY_AND_BACK[7])
    ensures ValidOrder(p) && Grid(p.cells, SEG_MAX) == 17.0
  {
    hide Update, Grid;
    Moves(o, DAY_AND_BACK[7], A, Period(89410, 90000, 1.0, 1.0), Period(90010, 172810, 4.0, 6.0), 7.0);
  }

  lemma Rises()
    ensures ClockRises(DAY_AND_BACK) && MeterRises(DAY_AND_BACK)
  {
  }

  lemma Sums(o: seq<Order>)
    requires IsSession(NIGHT, 0, DAY_AND_BACK, o)
    ensures Grid(o[7].cells, SEG_MAX) == 17.0
  {
    hide Update, SlotOf, Make, Grid, At, Stands;
    assert Stands(o[0], A, BLANK, BLANK, 0.0) by { Begins(o[0]); }
    assert UpdateAt(NIGHT, 0, DAY_AND_BACK, o, 1) && UpdateAt(NIGHT, 0, DAY_AND_BACK, o, 2);
    assert UpdateAt(NIGHT, 0, DAY_AND_BACK, o, 3) && UpdateAt(NIGHT, 0, DAY_AND_BACK, o, 4);
    assert UpdateAt(NIGHT, 0, DAY_AND_BACK, o, 5) && UpdateAt(NIGHT, 0, DAY_AND_BACK, o, 6);
    assert UpdateAt(NIGHT, 0, DAY_AND_BACK, o, 7);
    FirstNight(o[0], o[1], o[2], o[3]);
    Daytime(o[3], o[4], o[5], o[6]);
    SecondNight(o[6], o[7]);
  }

  /** On tables that partition the day, with a clock and a meter that never run back, a session shorter than the limit
      bills 17 units of energy where the meter counted 12. */
  lemma LongSessionOverbills() returns (orders: seq<Order>)
    ensures var calls := DAY_AND_BACK;
            && Partition(NIGHT) && IsSession(NIGHT, 0, calls, orders) && ClockRises(calls) && MeterRises(calls)
            && calls[7].now - calls[0].now <= LONGEST
            && Grid(orders[7].cells, SEG_MAX) == 17.0 && calls[7].meter - calls[0].meter == 12.0
  {
    hide Session, Partition, ClockRises, MeterRises, Grid, IsSession;
    NightPartitions();
    Rises();
    orders := Session(NIGHT, 0, DAY_AND_BACK);
    SessionExists(NIGHT, 0, DAY_AND_BACK);
    Sums(orders);
  }
}
