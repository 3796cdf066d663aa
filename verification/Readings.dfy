/** When the ledger is right, said of the clock and the meter only. */
module Readings {
  import opened Ledger
  import opened Accounting
  import opened Calendar

  predicate SameSlot(t: Tables, tz: int, calls: seq<Call>, j: nat, k: nat)
    requires ValidTables(t) && j < |calls| && k < |calls|
  {
    SlotOf(t, tz, calls[j].now) == SlotOf(t, tz, calls[k].now)
  }

  /** Call k finds the period of the call before it. */
  predicate Visit(t: Tables, tz: int, calls: seq<Call>, k: nat)
    requires ValidTables(t) && k < |calls|
  {
    k > 0 && SameSlot(t, tz, calls, k - 1, k)
  }

  /** Call k comes to a period after some time away, m was the last visit there, and the next call is a visit too. */
  ghost predicate AwaySince(t: Tables, tz: int, calls: seq<Call>, m: nat, k: nat)
    requires ValidTables(t) && m < k && k + 1 < |calls|
  {
    && Visit(t, tz, calls, m) && SameSlot(t, tz, calls, m, k)
    && (forall j: nat :: m < j <= k && SameSlot(t, tz, calls, j, k) ==> !Visit(t, tz, calls, j))
    && Visit(t, tz, calls, k + 1)
  }

  lemma VisitsDoNotSwitch(t: Tables, tz: int, calls: seq<Call>, orders: seq<Order>, k: nat)
    requires IsSession(t, tz, calls, orders) && 0 < k < |calls|
    ensures KindAt(t, tz, calls, orders, k) != Switch <==> Visit(t, tz, calls, k)
  {
    hide SlotOf, Update, Make;
    CurrentSlot(t, tz, calls, orders, k - 1);
  }

  /** A period that has started holds the reading of its last visit. */
  lemma {:induction false} BilledAtLastVisit(t: Tables, tz: int, calls: seq<Call>, orders: seq<Order>, s: Slot, n: nat)
    returns (m: nat)
    requires IsSession(t, tz, calls, orders) && n < |calls| && ValidSlot(s) && At(orders[n].cells, s).tStart > 0
    ensures 0 < m <= n && Visit(t, tz, calls, m) && SlotOf(t, tz, calls[m].now) == s
    ensures forall j: nat :: m < j <= n && SlotOf(t, tz, calls[j].now) == s ==> !Visit(t, tz, calls, j)
    ensures Billed(At(orders[n].cells, s)) == calls[m].meter
  {
    hide SlotOf, Put, At;
    m := n;
    if n == 0 { MakeBlank(t, tz, calls[0].now); }
    else {
      assert UpdateAt(t, tz, calls, orders, n);
      CurrentSlot(t, tz, calls, orders, n - 1);
      VisitsDoNotSwitch(t, tz, calls, orders, n);
      FreshKept(t, tz, calls, orders, n - 1);
      var o := orders[n - 1];
      var e := Finished(Entry(KindAt(t, tz, calls, orders, n), At(o.cells, o.cur), calls[n]), calls[n]);
      AtPut(o.cells, o.cur, e, s);
      if !(s == o.cur && Visit(t, tz, calls, n)) { m := BilledAtLastVisit(t, tz, calls, orders, s, n - 1); }
    }
  }

  /** A visited period has started. */
  lemma {:induction false} VisitStarts(t: Tables, tz: int, calls: seq<Call>, orders: seq<Order>, m: nat, n: nat)
    requires IsSession(t, tz, calls, orders) && m <= n < |calls| && Visit(t, tz, calls, m)
    ensures ValidSlot(SlotOf(t, tz, calls[m].now)) && At(orders[n].cells, SlotOf(t, tz, calls[m].now)).tStart > 0
    decreases n - m
  {
    var s := SlotOf(t, tz, calls[m].now);
    hide SlotOf, Put, At;
    assert UpdateAt(t, tz, calls, orders, n);
    CurrentSlot(t, tz, calls, orders, n - 1);
    VisitsDoNotSwitch(t, tz, calls, orders, n);
    var o := orders[n - 1];
    var e := Finished(Entry(KindAt(t, tz, calls, orders, n), At(o.cells, o.cur), calls[n]), calls[n]);
    AtPut(o.cells, o.cur, e, s);
    if m < n { VisitStarts(t, tz, calls, orders, m, n - 1); }
  }

  /** A call re-enters a period exactly when it is no visit itself and some earlier call was one there. */
  lemma ReentersIffVisited(t: Tables, tz: int, calls: seq<Call>, orders: seq<Order>, k: nat)
    requires IsSession(t, tz, calls, orders) && 0 < k < |calls|
    ensures Reenters(t, tz, calls, orders, k) <==>
              !Visit(t, tz, calls, k) &&
              exists m: nat :: m < k && Visit(t, tz, calls, m) && SameSlot(t, tz, calls, m, k)
  {
    hide SlotOf, Update, Make, At;
    VisitsDoNotSwitch(t, tz, calls, orders, k);
    CurrentSlot(t, tz, calls, orders, k);
    if Reenters(t, tz, calls, orders, k) {
      var m := BilledAtLastVisit(t, tz, calls, orders, orders[k].cur, k);
      assert m < k && SameSlot(t, tz, calls, m, k);
    }
    if m: nat :| m < k && Visit(t, tz, calls, m) && SameSlot(t, tz, calls, m, k) {
      VisitStarts(t, tz, calls, orders, m, k);
    }
  }

  /** The gap a steady call bills is what the meter counted since the last visit. */
  lemma GapIsAway(t: Tables, tz: int, calls: seq<Call>, orders: seq<Order>, m: nat, k: nat)
    requires IsSession(t, tz, calls, orders) && m < k && k + 1 < |calls| && AwaySince(t, tz, calls, m, k)
    ensures KindAt(t, tz, calls, orders, k + 1) == Steady
    ensures Gap(t, tz, calls, orders, k) == calls[k].meter - calls[m].meter
  {
    hide SlotOf, Update, Make, At;
    assert SameSlot(t, tz, calls, k, k);
    ReentersIffVisited(t, tz, calls, orders, k);
    CurrentSlot(t, tz, calls, orders, k);
    VisitsDoNotSwitch(t, tz, calls, orders, k + 1);
    VisitStarts(t, tz, calls, orders, m, k);
    var l := BilledAtLastVisit(t, tz, calls, orders, orders[k].cur, k);
    assert SameSlot(t, tz, calls, l, k);
    assert l == m;
  }

  lemma GapHasVisit(t: Tables, tz: int, calls: seq<Call>, orders: seq<Order>, k: nat) returns (m: nat)
    requires IsSession(t, tz, calls, orders) && 0 < k && k + 1 < |calls|
    requires KindAt(t, tz, calls, orders, k + 1) == Steady && Gap(t, tz, calls, orders, k) != 0.0
    ensures m < k && AwaySince(t, tz, calls, m, k)
  {
    hide SlotOf, Update, Make, At;
    VisitsDoNotSwitch(t, tz, calls, orders, k);
    VisitsDoNotSwitch(t, tz, calls, orders, k + 1);
    CurrentSlot(t, tz, calls, orders, k);
    m := BilledAtLastVisit(t, tz, calls, orders, orders[k].cur, k);
  }

  /** With a meter that never runs back the ledger holds exactly the steady increments if and only if the meter stood
      still whenever the session was away from a period and came back to stay for a call. */
  lemma EnergyConservedByReadings(t: Tables, tz: int, calls: seq<Call>, orders: seq<Order>, n: nat)
    requires IsSession(t, tz, calls, orders) && n < |calls| && MeterRises(calls)
    ensures Grid(orders[n].cells, SEG_MAX) == Increments(t, tz, calls, orders, Steady, n) <==>
              forall m: nat, k: nat :: m < k < n && AwaySince(t, tz, calls, m, k) ==> calls[m].meter == calls[k].meter
  {
    hide Grid, Increments, Gap, KindOf, Update, Make, AwaySince;
    EnergyConservedExactly(t, tz, calls, orders, n);
    if forall k: nat :: 0 < k < n && KindAt(t, tz, calls, orders, k + 1) == Steady ==>
         Gap(t, tz, calls, orders, k) == 0.0 {
      forall m: nat, k: nat | m < k < n && AwaySince(t, tz, calls, m, k) ensures calls[m].meter == calls[k].meter {
        GapIsAway(t, tz, calls, orders, m, k);
      }
    } else {
      var k: nat :| 0 < k < n && KindAt(t, tz, calls, orders, k + 1) == Steady && Gap(t, tz, calls, orders, k) != 0.0;
      var m := GapHasVisit(t, tz, calls, orders, k);
      GapIsAway(t, tz, calls, orders, m, k);
    }
  }
}
