/** What the ledger adds up to over a whole session. */
module Accounting {
  import opened Ledger

  ghost predicate UpdateAt(t: Tables, tz: int, calls: seq<Call>, orders: seq<Order>, k: nat)
    requires ValidTables(t) && 0 < k < |calls| == |orders| && ValidOrder(orders[k - 1])
  {
    orders[k] == Update(t, tz, orders[k - 1], calls[k])
  }

  /** A session: the MAKE call, then updates; orders are the states after each call. */
  ghost predicate IsSession(t: Tables, tz: int, calls: seq<Call>, orders: seq<Order>) {
    && ValidTables(t) && |orders| == |calls| && |calls| > 0
    && orders[0] == Make(t, tz, calls[0].now)
    && (forall k :: 0 <= k < |calls| ==> calls[k].now > 0)
    && (forall k: nat :: k < |orders| ==> ValidOrder(orders[k]))
    && (forall k: nat :: 0 < k < |calls| ==> UpdateAt(t, tz, calls, orders, k))
  }

  /** Every session has its states. */
  function Session(t: Tables, tz: int, calls: seq<Call>): (orders: seq<Order>)
    requires ValidTables(t) && |calls| > 0
    ensures |orders| == |calls| && forall k: nat :: k < |orders| ==> ValidOrder(orders[k])
  {
    var n := |calls| - 1;
    if n == 0 then [Make(t, tz, calls[0].now)]
    else
      var front := Session(t, tz, calls[..n]);
      front + [Update(t, tz, front[n - 1], calls[n])]
  }

  lemma Extends(t: Tables, tz: int, calls: seq<Call>, front: seq<Order>)
    requires |calls| > 1 && IsSession(t, tz, calls[..|calls| - 1], front) && calls[|calls| - 1].now > 0
    ensures IsSession(t, tz, calls, front + [Update(t, tz, front[|front| - 1], calls[|calls| - 1])])
  {
    var n := |calls| - 1;
    var orders := front + [Update(t, tz, front[n - 1], calls[n])];
    hide Update, Make, SlotOf;
    forall k: nat | k < |orders| ensures ValidOrder(orders[k]) {}
    forall k: nat | 0 < k < |calls| ensures UpdateAt(t, tz, calls, orders, k) {
      if k < n { assert UpdateAt(t, tz, calls[..n], front, k); }
    }
  }

  lemma {:induction false} SessionExists(t: Tables, tz: int, calls: seq<Call>)
    requires ValidTables(t) && |calls| > 0 && forall k :: 0 <= k < |calls| ==> calls[k].now > 0
    ensures IsSession(t, tz, calls, Session(t, tz, calls))
  {
    hide Update, Make, SlotOf;
    var n := |calls| - 1;
    if n > 0 {
      SessionExists(t, tz, calls[..n]);
      Extends(t, tz, calls, Session(t, tz, calls[..n]));
    }
  }

  // ----- sums over the ledger ------------------------------------------------

  /** The energy of the first n segments, every period counted. */
  function Grid(c: Cells, n: nat): real
    requires ValidCells(c) && n <= SEG_MAX
  {
    if n == 0 then 0.0 else Grid(c, n - 1) + SumEnergy(c[n - 1], PERIOD_MAX)
  }

  lemma {:induction false} RowPut(row: seq<Period>, j: nat, p: Period, n: nat)
    requires j < |row| && n <= |row|
    ensures SumEnergy(row[j := p], n) == SumEnergy(row, n) + if j < n then p.energy - row[j].energy else 0.0
  {
    if n > 0 { RowPut(row, j, p, n - 1); }
  }

  lemma {:induction false} GridPut(c: Cells, s: Slot, p: Period, n: nat)
    requires ValidCells(c) && ValidSlot(s) && n <= SEG_MAX
    ensures Grid(Put(c, s, p), n) == Grid(c, n) + if s.seg < n then p.energy - At(c, s).energy else 0.0
  {
    if n > 0 {
      GridPut(c, s, p, n - 1);
      RowPut(c[s.seg], s.pos, p, PERIOD_MAX);
    }
  }

  // ----- energy --------------------------------------------------------------

  /** The meter reading up to which a period has been billed. */
  function Billed(p: Period): real { p.startEnergy + p.energy }

  function KindAt(t: Tables, tz: int, calls: seq<Call>, orders: seq<Order>, k: nat): Kind
    requires ValidTables(t) && 0 < k < |calls| == |orders| && ValidOrder(orders[k - 1])
  {
    KindOf(t, tz, orders[k - 1], calls[k])
  }

  /** The meter increments over the calls of one kind, up to call n. */
  ghost function Increments(t: Tables, tz: int, calls: seq<Call>, orders: seq<Order>, kind: Kind, n: nat): real
    requires IsSession(t, tz, calls, orders) && n < |calls|
  {
    if n == 0 then 0.0
    else
      Increments(t, tz, calls, orders, kind, n - 1) +
      if KindAt(t, tz, calls, orders, n) == kind then calls[n].meter - calls[n - 1].meter else 0.0
  }

  /** Call k switches to a period that was visited before. */
  ghost predicate Reenters(t: Tables, tz: int, calls: seq<Call>, orders: seq<Order>, k: nat)
    requires IsSession(t, tz, calls, orders) && 0 < k < |calls|
  {
    KindAt(t, tz, calls, orders, k) == Switch && At(orders[k].cells, orders[k].cur).tStart > 0
  }

  /** What the meter counted while a period re-entered at call k was away. */
  ghost function Gap(t: Tables, tz: int, calls: seq<Call>, orders: seq<Order>, k: nat): real
    requires IsSession(t, tz, calls, orders) && 0 < k < |calls|
  {
    if Reenters(t, tz, calls, orders, k) then calls[k].meter - Billed(At(orders[k].cells, orders[k].cur)) else 0.0
  }

  /** The gaps that a steady call has billed: those of re-entries at calls before n that such a call followed. */
  ghost function BilledGaps(t: Tables, tz: int, calls: seq<Call>, orders: seq<Order>, n: nat): real
    requires IsSession(t, tz, calls, orders) && n < |calls|
  {
    if n <= 1 then 0.0
    else
      BilledGaps(t, tz, calls, orders, n - 1) +
      if KindAt(t, tz, calls, orders, n) == Steady then Gap(t, tz, calls, orders, n - 1) else 0.0
  }

  /** A period without a start has nothing in it. */
  ghost predicate Fresh(c: Cells)
    requires ValidCells(c)
  {
    forall s: Slot :: ValidSlot(s) && At(c, s).tStart == 0 ==> At(c, s).energy == 0.0 && At(c, s).startEnergy == 0.0
  }

  /** After a first or further visit the current period is billed up to the reading of that call. */
  lemma BilledToDate(t: Tables, tz: int, calls: seq<Call>, orders: seq<Order>, k: nat)
    requires IsSession(t, tz, calls, orders) && 0 < k < |calls|
    requires KindAt(t, tz, calls, orders, k) != Switch
    requires Fresh(orders[k - 1].cells)
    ensures orders[k].cur == orders[k - 1].cur
    ensures Billed(At(orders[k].cells, orders[k].cur)) == calls[k].meter
  {
    assert UpdateAt(t, tz, calls, orders, k);
    hide SlotOf;
  }

  lemma AtPut(c: Cells, s: Slot, p: Period, r: Slot)
    requires ValidCells(c) && ValidSlot(s) && ValidSlot(r)
    ensures At(Put(c, s, p), r) == if r == s then p else At(c, r)
  {
  }

  lemma {:induction false} BlankRow(row: seq<Period>, n: nat)
    requires n <= |row| && forall j :: 0 <= j < n ==> row[j].energy == 0.0
    ensures SumEnergy(row, n) == 0.0
  {
    if n > 0 { BlankRow(row, n - 1); }
  }

  lemma {:induction false} BlankGrid(c: Cells, n: nat)
    requires ValidCells(c) && n <= SEG_MAX
    requires forall i, j :: 0 <= i < SEG_MAX && 0 <= j < PERIOD_MAX ==> c[i][j] == BLANK
    ensures Grid(c, n) == 0.0
  {
    if n > 0 {
      BlankGrid(c, n - 1);
      BlankRow(c[n - 1], PERIOD_MAX);
    }
  }

  lemma MakeBlank(t: Tables, tz: int, now: nat)
    requires ValidTables(t)
    ensures forall s: Slot :: ValidSlot(s) ==> At(Make(t, tz, now).cells, s) == BLANK
    ensures Grid(Make(t, tz, now).cells, SEG_MAX) == 0.0
  {
    var c := Make(t, tz, now).cells;
    forall n: nat | n <= SEG_MAX ensures Grid(c, n) == 0.0 { BlankGrid(c, n); }
  }

  lemma {:induction false} FreshKept(t: Tables, tz: int, calls: seq<Call>, orders: seq<Order>, n: nat)
    requires IsSession(t, tz, calls, orders) && n < |calls|
    ensures Fresh(orders[n].cells)
  {
    hide SlotOf, Put, At;
    if n == 0 { MakeBlank(t, tz, calls[0].now); }
    else {
      FreshKept(t, tz, calls, orders, n - 1);
      assert UpdateAt(t, tz, calls, orders, n);
      var o := orders[n - 1];
      var e := Finished(Entry(KindAt(t, tz, calls, orders, n), At(o.cells, o.cur), calls[n]), calls[n]);
      forall s: Slot | ValidSlot(s) && At(orders[n].cells, s).tStart == 0
        ensures At(orders[n].cells, s).energy == 0.0 && At(orders[n].cells, s).startEnergy == 0.0
      {
        AtPut(o.cells, o.cur, e, s);
      }
    }
  }

  /** What call n adds to the ledger. */
  lemma GridStep(t: Tables, tz: int, calls: seq<Call>, orders: seq<Order>, n: nat)
    requires IsSession(t, tz, calls, orders) && 0 < n < |calls|
    ensures Grid(orders[n].cells, SEG_MAX) == Grid(orders[n - 1].cells, SEG_MAX) +
              if KindAt(t, tz, calls, orders, n) == Steady
              then calls[n].meter - Billed(At(orders[n - 1].cells, orders[n - 1].cur)) else 0.0
  {
    hide SlotOf, Put, At, Grid;
    assert UpdateAt(t, tz, calls, orders, n);
    var o := orders[n - 1];
    var e := Finished(Entry(KindAt(t, tz, calls, orders, n), At(o.cells, o.cur), calls[n]), calls[n]);
    GridPut(o.cells, o.cur, e, SEG_MAX);
  }

  /** A steady call bills its increment, and what a re-entry just before it had left out. */
  lemma SteadyBills(t: Tables, tz: int, calls: seq<Call>, orders: seq<Order>, n: nat)
    requires IsSession(t, tz, calls, orders) && 0 < n < |calls|
    requires KindAt(t, tz, calls, orders, n) == Steady
    ensures n >= 2
    ensures calls[n - 1].meter - Billed(At(orders[n - 1].cells, orders[n - 1].cur)) == Gap(t, tz, calls, orders, n - 1)
  {
    hide SlotOf, Put, Update;
    if n == 1 {
      MakeBlank(t, tz, calls[0].now);
    } else if KindAt(t, tz, calls, orders, n - 1) != Switch {
      FreshKept(t, tz, calls, orders, n - 2);
      BilledToDate(t, tz, calls, orders, n - 1);
    }
  }

  /** Exact accounting over any session: the energy in the ledger is the meter increments over the steady calls, plus
      what the meter counted while a re-entered period was away. */
  lemma {:induction false} EnergyAccounting(t: Tables, tz: int, calls: seq<Call>, orders: seq<Order>, n: nat)
    requires IsSession(t, tz, calls, orders) && n < |calls|
    ensures Grid(orders[n].cells, SEG_MAX) ==
              Increments(t, tz, calls, orders, Steady, n) + BilledGaps(t, tz, calls, orders, n)
  {
    hide Grid, SlotOf, Put, At, Update, KindOf, Gap, Make;
    if n == 0 { MakeBlank(t, tz, calls[0].now); }
    else {
      EnergyAccounting(t, tz, calls, orders, n - 1);
      GridStep(t, tz, calls, orders, n);
      if KindAt(t, tz, calls, orders, n) == Steady { SteadyBills(t, tz, calls, orders, n); }
    }
  }

  /** The increments of the three kinds of calls make up what the meter counted. */
  lemma {:induction false} IncrementsSplit(t: Tables, tz: int, calls: seq<Call>, orders: seq<Order>, n: nat)
    requires IsSession(t, tz, calls, orders) && n < |calls|
    ensures calls[n].meter - calls[0].meter ==
              Increments(t, tz, calls, orders, Steady, n) + Increments(t, tz, calls, orders, Switch, n) +
              Increments(t, tz, calls, orders, First, n)
  {
    hide KindOf;
    if n > 0 { IncrementsSplit(t, tz, calls, orders, n - 1); }
  }

  ghost predicate NoReentry(t: Tables, tz: int, calls: seq<Call>, orders: seq<Order>)
    requires IsSession(t, tz, calls, orders)
  {
    forall k: nat :: 0 < k < |calls| ==> !Reenters(t, tz, calls, orders, k)
  }

  ghost predicate MeterRises(calls: seq<Call>) {
    forall j, k :: 0 <= j <= k < |calls| ==> calls[j].meter <= calls[k].meter
  }

  lemma {:induction false} NoGaps(t: Tables, tz: int, calls: seq<Call>, orders: seq<Order>, n: nat)
    requires IsSession(t, tz, calls, orders) && n < |calls| && NoReentry(t, tz, calls, orders)
    ensures BilledGaps(t, tz, calls, orders, n) == 0.0
  {
    hide KindOf, Reenters;
    if n > 1 { NoGaps(t, tz, calls, orders, n - 1); }
  }

  lemma {:induction false} IncrementsPositive(
      t: Tables, tz: int, calls: seq<Call>, orders: seq<Order>, kind: Kind, n: nat)
    requires IsSession(t, tz, calls, orders) && n < |calls| && MeterRises(calls)
    ensures Increments(t, tz, calls, orders, kind, n) >= 0.0
  {
    hide KindOf;
    if n > 0 { IncrementsPositive(t, tz, calls, orders, kind, n - 1); }
  }

  /** Without re-entry the ledger holds exactly the steady increments; with a meter that never runs back it never
      exceeds what the meter counted, and falls short by exactly the increments at switch calls and first visits. */
  lemma EnergyConserved(t: Tables, tz: int, calls: seq<Call>, orders: seq<Order>, n: nat)
    requires IsSession(t, tz, calls, orders) && n < |calls| && NoReentry(t, tz, calls, orders)
    ensures Grid(orders[n].cells, SEG_MAX) == Increments(t, tz, calls, orders, Steady, n)
    ensures calls[n].meter - calls[0].meter - Grid(orders[n].cells, SEG_MAX) ==
              Increments(t, tz, calls, orders, Switch, n) + Increments(t, tz, calls, orders, First, n)
    ensures MeterRises(calls) ==> Grid(orders[n].cells, SEG_MAX) <= calls[n].meter - calls[0].meter
  {
    hide Grid, Increments, BilledGaps, Reenters, Update, Make;
    EnergyAccounting(t, tz, calls, orders, n);
    NoGaps(t, tz, calls, orders, n);
    IncrementsSplit(t, tz, calls, orders, n);
    if MeterRises(calls) {
      IncrementsPositive(t, tz, calls, orders, Switch, n);
      IncrementsPositive(t, tz, calls, orders, First, n);
    }
  }

  /** The meter increments over the steady calls in one segment, up to call n. */
  ghost function SegIncrements(t: Tables, tz: int, calls: seq<Call>, orders: seq<Order>, i: nat, n: nat): real
    requires IsSession(t, tz, calls, orders) && n < |calls|
  {
    if n == 0 then 0.0
    else
      SegIncrements(t, tz, calls, orders, i, n - 1) +
      if KindAt(t, tz, calls, orders, n) == Steady && SlotOf(t, tz, calls[n].now).seg == i
      then calls[n].meter - calls[n - 1].meter else 0.0
  }

  lemma PutRow(c: Cells, s: Slot, p: Period, i: nat)
    requires ValidCells(c) && ValidSlot(s) && i < SEG_MAX
    ensures SumEnergy(Put(c, s, p)[i], PERIOD_MAX) ==
            SumEnergy(c[i], PERIOD_MAX) + if s.seg == i then p.energy - At(c, s).energy else 0.0
  {
    RowPut(c[s.seg], s.pos, p, PERIOD_MAX);
  }

  lemma RowStep(t: Tables, tz: int, calls: seq<Call>, orders: seq<Order>, i: nat, n: nat)
    requires IsSession(t, tz, calls, orders) && 0 < n < |calls| && i < SEG_MAX
    ensures SumEnergy(orders[n].cells[i], PERIOD_MAX) == SumEnergy(orders[n - 1].cells[i], PERIOD_MAX) +
              if KindAt(t, tz, calls, orders, n) == Steady && SlotOf(t, tz, calls[n].now).seg == i
              then calls[n].meter - Billed(At(orders[n - 1].cells, orders[n - 1].cur)) else 0.0
  {
    hide SlotOf, Put, At, SumEnergy;
    assert UpdateAt(t, tz, calls, orders, n);
    var o := orders[n - 1];
    var e := Finished(Entry(KindAt(t, tz, calls, orders, n), At(o.cells, o.cur), calls[n]), calls[n]);
    PutRow(o.cells, o.cur, e, i);
  }

  /** And each segment holds exactly the steady increments made in it. */
  lemma {:induction false} SegmentAccounting(
      t: Tables, tz: int, calls: seq<Call>, orders: seq<Order>, i: nat, n: nat)
    requires IsSession(t, tz, calls, orders) && n < |calls| && i < SEG_MAX && NoReentry(t, tz, calls, orders)
    ensures SumEnergy(orders[n].cells[i], PERIOD_MAX) == SegIncrements(t, tz, calls, orders, i, n)
  {
    if n == 0 {
      BlankRow(orders[0].cells[i], PERIOD_MAX);
    } else {
      hide SlotOf, Put, At, Update, KindOf, Make, SumEnergy, Reenters;
      SegmentAccounting(t, tz, calls, orders, i, n - 1);
      RowStep(t, tz, calls, orders, i, n);
      if KindAt(t, tz, calls, orders, n) == Steady { SteadyBills(t, tz, calls, orders, n); }
    }
  }

  /** No period is billed beyond the meter. */
  ghost predicate WithinMeter(c: Cells, meter: real)
    requires ValidCells(c)
  {
    forall s: Slot :: ValidSlot(s) && At(c, s).tStart > 0 ==> Billed(At(c, s)) <= meter
  }

  lemma {:induction false} StaysWithinMeter(t: Tables, tz: int, calls: seq<Call>, orders: seq<Order>, n: nat)
    requires IsSession(t, tz, calls, orders) && n < |calls| && MeterRises(calls)
    ensures WithinMeter(orders[n].cells, calls[n].meter)
  {
    hide SlotOf, Put, At;
    if n == 0 { MakeBlank(t, tz, calls[0].now); }
    else {
      StaysWithinMeter(t, tz, calls, orders, n - 1);
      FreshKept(t, tz, calls, orders, n - 1);
      assert UpdateAt(t, tz, calls, orders, n);
      var o := orders[n - 1];
      var e := Finished(Entry(KindAt(t, tz, calls, orders, n), At(o.cells, o.cur), calls[n]), calls[n]);
      forall s: Slot | ValidSlot(s) && At(orders[n].cells, s).tStart > 0
        ensures Billed(At(orders[n].cells, s)) <= calls[n].meter
      {
        AtPut(o.cells, o.cur, e, s);
      }
    }
  }

  lemma GapPositive(t: Tables, tz: int, calls: seq<Call>, orders: seq<Order>, k: nat)
    requires IsSession(t, tz, calls, orders) && 0 < k < |calls| && MeterRises(calls)
    ensures Gap(t, tz, calls, orders, k) >= 0.0
  {
    hide Update;
    StaysWithinMeter(t, tz, calls, orders, k);
  }

  /** The gaps add up to nothing exactly when each is nothing. */
  lemma {:induction false} GapsVanish(t: Tables, tz: int, calls: seq<Call>, orders: seq<Order>, n: nat)
    requires IsSession(t, tz, calls, orders) && n < |calls| && MeterRises(calls)
    ensures BilledGaps(t, tz, calls, orders, n) >= 0.0
    ensures BilledGaps(t, tz, calls, orders, n) == 0.0 <==>
              forall k: nat :: 0 < k < n && KindAt(t, tz, calls, orders, k + 1) == Steady ==>
                Gap(t, tz, calls, orders, k) == 0.0
  {
    hide Gap, Update, Make, KindOf;
    if n > 1 {
      GapsVanish(t, tz, calls, orders, n - 1);
      GapPositive(t, tz, calls, orders, n - 1);
    }
  }

  /** With a meter that never runs back, the ledger holds exactly the steady increments if and only if the meter stood
      still whenever a period that was visited again had been away. */
  lemma EnergyConservedExactly(t: Tables, tz: int, calls: seq<Call>, orders: seq<Order>, n: nat)
    requires IsSession(t, tz, calls, orders) && n < |calls| && MeterRises(calls)
    ensures Grid(orders[n].cells, SEG_MAX) == Increments(t, tz, calls, orders, Steady, n) <==>
              forall k: nat :: 0 < k < n && KindAt(t, tz, calls, orders, k + 1) == Steady ==>
                Gap(t, tz, calls, orders, k) == 0.0
  {
    hide Grid, Increments, BilledGaps, Gap, KindOf, Update, Make;
    EnergyAccounting(t, tz, calls, orders, n);
    GapsVanish(t, tz, calls, orders, n);
  }
}
