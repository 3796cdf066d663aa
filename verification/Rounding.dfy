/** How far the shown totals are from the exact ones, and that they never fall. */
module Rounding {
  import opened Ledger
  import opened Accounting
  import opened Calendar

  /** The range in which the conversion to uint32_t is the plain one. */
  predicate Fits(x: real) { 0.0 <= x && x * 100.0 < U32 as real }

  lemma CentsClose(x: real)
    requires Fits(x)
    ensures 0.0 <= x - Cents(x) < 0.01
  {
  }

  lemma CentsMonotone(x: real, y: real)
    requires x <= y
    ensures Cents(x) <= Cents(y)
  {
    var a, b := x * 100.0, y * 100.0;
    assert a <= b;
    assert ToU32(a) <= ToU32(b);
  }

  lemma {:induction false} SegCentsClose(t: Tables, c: Cells, n: nat)
    requires ValidTables(t) && ValidCells(c) && n <= SEG_MAX
    requires forall i: nat :: i < SEG_MAX ==> Fits(SegEnergy(t, c, i))
    ensures 0.0 <= TabledEnergy(t, c, n) - Sum(SegEnergies(t, c), n) <= 0.01 * n as real
    ensures n > 0 ==> TabledEnergy(t, c, n) - Sum(SegEnergies(t, c), n) < 0.01 * n as real
  {
    hide SegEnergy, Fits, Cents;
    if n > 0 {
      SegCentsClose(t, c, n - 1);
      CentsClose(SegEnergy(t, c, n - 1));
    }
  }

  // ----- fees ----------------------------------------------------------------

  /** The sum of the five segments, each at its own price. */
  function Priced(t: Tables, price: seq<real>, c: Cells): real
    requires ValidTables(t) && ValidCells(c) && |price| == SEG_MAX
  {
    SegEnergy(t, c, 0) * price[0] + SegEnergy(t, c, 1) * price[1] + SegEnergy(t, c, 2) * price[2] +
    SegEnergy(t, c, 3) * price[3] + SegEnergy(t, c, 4) * price[4]
  }

  function ExactFee(t: Tables, price: seq<real>, c: Cells): real
    requires ValidTables(t) && ValidCells(c) && |price| == SEG_MAX
  {
    Sum(SegFees(t, price, c), SEG_MAX)
  }

  lemma SumOfFive(xs: seq<real>)
    requires |xs| == SEG_MAX
    ensures Sum(xs, SEG_MAX) == xs[0] + xs[1] + xs[2] + xs[3] + xs[4]
  {
    assert Sum(xs, 1) == xs[0];
    assert Sum(xs, 2) == Sum(xs, 1) + xs[1];
    assert Sum(xs, 3) == Sum(xs, 2) + xs[2];
    assert Sum(xs, 4) == Sum(xs, 3) + xs[3];
    assert Sum(xs, 5) == Sum(xs, 4) + xs[4];
  }

  lemma FeeIsPriced(t: Tables, price: seq<real>, c: Cells)
    requires ValidTables(t) && ValidCells(c) && |price| == SEG_MAX
    ensures |SegFees(t, price, c)| == SEG_MAX
    ensures forall i: nat :: i < SEG_MAX ==> SegFees(t, price, c)[i] == SegEnergy(t, c, i) * price[i]
    ensures ExactFee(t, price, c) == Priced(t, price, c)
  {
    hide SegEnergy, Sum;
    SumOfFive(SegFees(t, price, c));
  }

  /** The fee of a segment is its energy at the price of that segment, for energy and for service; the shown energy is
      that of the five segments, and the whole fee that for energy and that for service. */
  lemma SegmentFeesByPrice(t: Tables, p: Prices, c: Cells)
    requires ValidTables(t) && ValidCells(c) && ValidPrices(p)
    ensures var s := TotalsOf(t, p, c);
            && |s.segEnergyFee| == |s.segServFee| == SEG_MAX
            && (forall i: nat :: i < SEG_MAX ==> s.segEnergyFee[i] == SegEnergy(t, c, i) * p.energy[i])
            && (forall i: nat :: i < SEG_MAX ==> s.segServFee[i] == SegEnergy(t, c, i) * p.serv[i])
            && |s.segEnergy| == SEG_MAX
            && s.energy == s.segEnergy[0] + s.segEnergy[1] + s.segEnergy[2] + s.segEnergy[3] + s.segEnergy[4]
            && s.fee == s.energyFee + s.servFee
  {
    hide SegTimes, Cents, Sum;
    SumOfFive(SegEnergies(t, c));
    FeeIsPriced(t, p.energy, c);
    FeeIsPriced(t, p.serv, c);
    hide SegEnergy, SegFees, Priced, ExactFee;
  }

  /** In exact arithmetic and within 32 bits: each segment's shown energy is below the exact one by less than 0.01 and
      the shown energy below the exact sum by less than 0.05; each shown fee is below the energies at their prices by
      less than 0.01, and the shown total fee by less than 0.02. */
  lemma TotalsClose(t: Tables, p: Prices, c: Cells)
    requires ValidTables(t) && ValidCells(c) && ValidPrices(p)
    requires forall i: nat :: i < SEG_MAX ==> Fits(SegEnergy(t, c, i))
    requires Fits(Priced(t, p.energy, c)) && Fits(Priced(t, p.serv, c))
    ensures var s := TotalsOf(t, p, c);
            && |s.segEnergy| == SEG_MAX
            && (forall i: nat :: i < SEG_MAX ==> 0.0 <= SegEnergy(t, c, i) - s.segEnergy[i] < 0.01)
            && 0.0 <= TabledEnergy(t, c, SEG_MAX) - s.energy < 0.05
            && 0.0 <= Priced(t, p.energy, c) - s.energyFee < 0.01
            && 0.0 <= Priced(t, p.serv, c) - s.servFee < 0.01
            && 0.0 <= Priced(t, p.energy, c) + Priced(t, p.serv, c) - s.fee < 0.02
  {
    FeeIsPriced(t, p.energy, c);
    FeeIsPriced(t, p.serv, c);
    hide SegEnergy, Fits, Cents, TabledEnergy, Sum, Priced;
    SegCentsClose(t, c, SEG_MAX);
    CentsClose(Priced(t, p.energy, c));
    CentsClose(Priced(t, p.serv, c));
    forall i: nat | i < SEG_MAX ensures 0.0 <= SegEnergy(t, c, i) - SegEnergies(t, c)[i] < 0.01 {
      CentsClose(SegEnergy(t, c, i));
    }
  }

  /** A whole number of hundredths. */
  predicate Hundredfold(x: real) { (x * 100.0).Floor as real == x * 100.0 }

  lemma CentsWhole(x: real)
    ensures Hundredfold(Cents(x))
  {
    var n := ToU32(x * 100.0);
    assert Cents(x) * 100.0 == n as real;
  }

  /** Energies and fees are shown in whole hundredths; with TotalsClose that makes them the exact values truncated. */
  lemma ShownInHundredths(t: Tables, p: Prices, c: Cells)
    requires ValidTables(t) && ValidCells(c) && ValidPrices(p)
    ensures var s := TotalsOf(t, p, c);
            && |s.segEnergy| == SEG_MAX && (forall i: nat :: i < SEG_MAX ==> Hundredfold(s.segEnergy[i]))
            && Hundredfold(s.energyFee) && Hundredfold(s.servFee)
  {
    var s := TotalsOf(t, p, c);
    hide Cents, Hundredfold, SegEnergy, Sum, SegFees;
    forall i: nat | i < SEG_MAX ensures Hundredfold(s.segEnergy[i]) { CentsWhole(SegEnergy(t, c, i)); }
    CentsWhole(Sum(SegFees(t, p.energy, c), SEG_MAX));
    CentsWhole(Sum(SegFees(t, p.serv, c), SEG_MAX));
  }

  // ----- what a session costs ------------------------------------------------

  /** The meter increments over the steady calls, each at the price of the segment it was made in. */
  ghost function Metered(t: Tables, tz: int, price: seq<real>, calls: seq<Call>, orders: seq<Order>, n: nat): real
    requires IsSession(t, tz, calls, orders) && n < |calls| && |price| == SEG_MAX
  {
    if n == 0 then 0.0
    else
      Metered(t, tz, price, calls, orders, n - 1) +
      if KindAt(t, tz, calls, orders, n) == Steady
      then (calls[n].meter - calls[n - 1].meter) * price[SlotOf(t, tz, calls[n].now).seg] else 0.0
  }

  /** The increments made in each of the five segments. */
  ghost function Five(t: Tables, tz: int, calls: seq<Call>, orders: seq<Order>, n: nat): (r: seq<real>)
    requires IsSession(t, tz, calls, orders) && n < |calls|
    ensures |r| == SEG_MAX && forall i: nat :: i < SEG_MAX ==> r[i] == SegIncrements(t, tz, calls, orders, i, n)
  {
    seq(SEG_MAX, i requires 0 <= i < SEG_MAX => SegIncrements(t, tz, calls, orders, i, n))
  }

  function Weighed(x: seq<real>, price: seq<real>): real
    requires |x| == |price| == SEG_MAX
  {
    x[0] * price[0] + x[1] * price[1] + x[2] * price[2] + x[3] * price[3] + x[4] * price[4]
  }

  lemma WeighedMore(x: seq<real>, price: seq<real>, g: nat, d: real)
    requires |x| == |price| == SEG_MAX && g < SEG_MAX
    ensures Weighed(x[g := x[g] + d], price) == Weighed(x, price) + d * price[g]
  {
    assert (x[g] + d) * price[g] == x[g] * price[g] + d * price[g];
  }

  lemma WeighedNothing(x: seq<real>, price: seq<real>)
    requires |x| == |price| == SEG_MAX && forall i: nat :: i < SEG_MAX ==> x[i] == 0.0
    ensures Weighed(x, price) == 0.0
  {
  }

  lemma FiveNext(t: Tables, tz: int, calls: seq<Call>, orders: seq<Order>, n: nat)
    requires IsSession(t, tz, calls, orders) && 0 < n < |calls|
    ensures var x := Five(t, tz, calls, orders, n - 1);
            var (g, d) := (SlotOf(t, tz, calls[n].now).seg, calls[n].meter - calls[n - 1].meter);
            Five(t, tz, calls, orders, n) ==
              if KindAt(t, tz, calls, orders, n) == Steady then x[g := x[g] + d] else x
  {
    hide KindOf, SlotOf, Update, Make;
  }

  lemma {:induction false} MeteredIsWeighed(
      t: Tables, tz: int, price: seq<real>, calls: seq<Call>, orders: seq<Order>, n: nat)
    requires IsSession(t, tz, calls, orders) && n < |calls| && |price| == SEG_MAX
    ensures Metered(t, tz, price, calls, orders, n) == Weighed(Five(t, tz, calls, orders, n), price)
  {
    hide KindOf, SlotOf, Update, Make, Weighed, Five;
    if n == 0 {
      WeighedNothing(Five(t, tz, calls, orders, 0), price);
    } else {
      hide SegIncrements;
      var (x, g) := (Five(t, tz, calls, orders, n - 1), SlotOf(t, tz, calls[n].now).seg);
      var d := calls[n].meter - calls[n - 1].meter;
      MeteredIsWeighed(t, tz, price, calls, orders, n - 1);
      FiveNext(t, tz, calls, orders, n);
      WeighedMore(x, price, g, d);
    }
  }

  lemma MeteredIsPriced(t: Tables, tz: int, price: seq<real>, calls: seq<Call>, orders: seq<Order>, n: nat)
    requires IsSession(t, tz, calls, orders) && n < |calls| && |price| == SEG_MAX
    requires Partition(t) && ClockRises(calls) && ShortSession(t, calls)
    ensures Priced(t, price, orders[n].cells) == Metered(t, tz, price, calls, orders, n)
  {
    hide Partition, Update, Make, SegEnergy, Metered, ShortSession, SegIncrements;
    MeteredIsWeighed(t, tz, price, calls, orders, n);
    var (c, x) := (orders[n].cells, Five(t, tz, calls, orders, n));
    forall i: nat | i < SEG_MAX ensures SegEnergy(t, c, i) == x[i] {
      SegmentEnergyExact(t, tz, calls, orders, i, n);
    }
    hide IsSession;
    assert SegEnergy(t, c, 0) == x[0] && SegEnergy(t, c, 1) == x[1] && SegEnergy(t, c, 2) == x[2];
    assert SegEnergy(t, c, 3) == x[3] && SegEnergy(t, c, 4) == x[4];
  }

  /** In a short session on tables that partition the day, the shown fees are the meter increments over the steady
      calls, each at the price of the segment it was made in, truncated. */
  lemma FeesByTariff(t: Tables, tz: int, p: Prices, calls: seq<Call>, orders: seq<Order>, n: nat)
    requires IsSession(t, tz, calls, orders) && n < |calls| && ValidPrices(p)
    requires Partition(t) && ClockRises(calls) && ShortSession(t, calls)
    requires Fits(Metered(t, tz, p.energy, calls, orders, n)) && Fits(Metered(t, tz, p.serv, calls, orders, n))
    ensures var s := TotalsOf(t, p, orders[n].cells);
            var energy := Metered(t, tz, p.energy, calls, orders, n);
            var serv := Metered(t, tz, p.serv, calls, orders, n);
            && 0.0 <= energy - s.energyFee < 0.01 && 0.0 <= serv - s.servFee < 0.01
            && 0.0 <= energy + serv - s.fee < 0.02
  {
    hide Partition, Update, Make, Metered, Priced, Cents, Fits, SegFees, Sum, ShortSession;
    MeteredIsPriced(t, tz, p.energy, calls, orders, n);
    MeteredIsPriced(t, tz, p.serv, calls, orders, n);
    FeeIsPriced(t, p.energy, orders[n].cells);
    FeeIsPriced(t, p.serv, orders[n].cells);
    CentsClose(Priced(t, p.energy, orders[n].cells));
    CentsClose(Priced(t, p.serv, orders[n].cells));
  }

  lemma {:induction false} OnePrice(
      t: Tables, tz: int, price: seq<real>, calls: seq<Call>, orders: seq<Order>, n: nat, q: real)
    requires IsSession(t, tz, calls, orders) && n < |calls| && |price| == SEG_MAX
    requires forall i: nat :: i < SEG_MAX ==> price[i] == q
    ensures Metered(t, tz, price, calls, orders, n) == Increments(t, tz, calls, orders, Steady, n) * q
  {
    hide KindOf, SlotOf, Update, Make;
    if n > 0 {
      OnePrice(t, tz, price, calls, orders, n - 1, q);
      var (x, d) := (Increments(t, tz, calls, orders, Steady, n - 1), calls[n].meter - calls[n - 1].meter);
      assert (x + d) * q == x * q + d * q;
    }
  }

  /** At one price in all segments it is the meter increments over the steady calls at that price, truncated. */
  lemma UniformTariff(t: Tables, tz: int, p: Prices, calls: seq<Call>, orders: seq<Order>, n: nat, q: real)
    requires IsSession(t, tz, calls, orders) && n < |calls| && ValidPrices(p)
    requires Partition(t) && ClockRises(calls) && ShortSession(t, calls)
    requires forall i: nat :: i < SEG_MAX ==> p.energy[i] == p.serv[i] == q
    requires Fits(Increments(t, tz, calls, orders, Steady, n) * q)
    ensures var billed := Increments(t, tz, calls, orders, Steady, n) * q;
            var s := TotalsOf(t, p, orders[n].cells);
            && TabledEnergy(t, orders[n].cells, SEG_MAX) * q == billed
            && 0.0 <= billed - s.energyFee < 0.01 && 0.0 <= billed - s.servFee < 0.01
  {
    hide Partition, Update, Make, TabledEnergy, Metered, Fits, Increments, ShortSession, TotalsOf;
    BilledEnergyExact(t, tz, calls, orders, n);
    OnePrice(t, tz, p.energy, calls, orders, n, q);
    OnePrice(t, tz, p.serv, calls, orders, n, q);
    FeesByTariff(t, tz, p, calls, orders, n);
  }

  // ----- no total falls ------------------------------------------------------

  ghost predicate NoLess(c: Cells, d: Cells)
    requires ValidCells(c) && ValidCells(d)
  {
    forall s: Slot :: ValidSlot(s) ==> At(c, s).energy <= At(d, s).energy
  }

  lemma UpdateNoLess(t: Tables, tz: int, calls: seq<Call>, orders: seq<Order>, n: nat)
    requires IsSession(t, tz, calls, orders) && 0 < n < |calls| && MeterRises(calls)
    ensures NoLess(orders[n - 1].cells, orders[n].cells)
  {
    hide SlotOf, Put, At;
    StaysWithinMeter(t, tz, calls, orders, n - 1);
    assert UpdateAt(t, tz, calls, orders, n);
    var o := orders[n - 1];
    var e := Finished(Entry(KindAt(t, tz, calls, orders, n), At(o.cells, o.cur), calls[n]), calls[n]);
    forall s: Slot | ValidSlot(s) ensures At(o.cells, s).energy <= At(orders[n].cells, s).energy {
      AtPut(o.cells, o.cur, e, s);
    }
  }

  lemma {:induction false} SessionNoLess(t: Tables, tz: int, calls: seq<Call>, orders: seq<Order>, m: nat, n: nat)
    requires IsSession(t, tz, calls, orders) && m <= n < |calls| && MeterRises(calls)
    ensures NoLess(orders[m].cells, orders[n].cells)
  {
    hide At, Update, Make;
    if m < n {
      SessionNoLess(t, tz, calls, orders, m, n - 1);
      UpdateNoLess(t, tz, calls, orders, n);
    }
  }

  lemma {:induction false} RowNoLess(a: seq<Period>, b: seq<Period>, n: nat)
    requires n <= |a| == |b| && forall j :: 0 <= j < |a| ==> a[j].energy <= b[j].energy
    ensures SumEnergy(a, n) <= SumEnergy(b, n)
  {
    if n > 0 { RowNoLess(a, b, n - 1); }
  }

  lemma SegNoLess(t: Tables, c: Cells, d: Cells, i: nat)
    requires ValidTables(t) && ValidCells(c) && ValidCells(d) && NoLess(c, d) && i < SEG_MAX
    ensures SegEnergy(t, c, i) <= SegEnergy(t, d, i)
  {
    var a, b := c[i], d[i];
    forall j: nat | j < |a| ensures a[j].energy <= b[j].energy {
      assert At(c, Slot(i, j)).energy <= At(d, Slot(i, j)).energy;
    }
    RowNoLess(a, b, |t[i]|);
  }

  lemma {:induction false} SumNoLess(a: seq<real>, b: seq<real>, n: nat)
    requires n <= |a| == |b| && forall j :: 0 <= j < n ==> a[j] <= b[j]
    ensures Sum(a, n) <= Sum(b, n)
  {
    if n > 0 { SumNoLess(a, b, n - 1); }
  }

  lemma FeesNoLess(t: Tables, price: seq<real>, c: Cells, d: Cells)
    requires ValidTables(t) && ValidCells(c) && ValidCells(d) && NoLess(c, d)
    requires |price| == SEG_MAX && forall i :: 0 <= i < SEG_MAX ==> price[i] >= 0.0
    ensures forall i :: 0 <= i < SEG_MAX ==> SegFees(t, price, c)[i] <= SegFees(t, price, d)[i]
    ensures ExactFee(t, price, c) <= ExactFee(t, price, d)
  {
    hide SegEnergy, At;
    forall i: nat | i < SEG_MAX ensures SegFees(t, price, c)[i] <= SegFees(t, price, d)[i] {
      SegNoLess(t, c, d, i);
    }
    SumNoLess(SegFees(t, price, c), SegFees(t, price, d), SEG_MAX);
  }

  lemma EnergiesNoLess(t: Tables, c: Cells, d: Cells)
    requires ValidTables(t) && ValidCells(c) && ValidCells(d) && NoLess(c, d)
    ensures forall i :: 0 <= i < SEG_MAX ==> SegEnergies(t, c)[i] <= SegEnergies(t, d)[i]
    ensures Sum(SegEnergies(t, c), SEG_MAX) <= Sum(SegEnergies(t, d), SEG_MAX)
  {
    hide SegEnergy, Cents, At;
    forall i: nat | i < SEG_MAX ensures SegEnergies(t, c)[i] <= SegEnergies(t, d)[i] {
      SegNoLess(t, c, d, i);
      CentsMonotone(SegEnergy(t, c, i), SegEnergy(t, d, i));
    }
    SumNoLess(SegEnergies(t, c), SegEnergies(t, d), SEG_MAX);
  }

  ghost predicate NoTotalFell(a: Totals, b: Totals)
    requires |a.segEnergy| == |b.segEnergy| == SEG_MAX
    requires |a.segEnergyFee| == |b.segEnergyFee| == SEG_MAX && |a.segServFee| == |b.segServFee| == SEG_MAX
  {
    && (forall i :: 0 <= i < SEG_MAX ==> a.segEnergy[i] <= b.segEnergy[i])
    && (forall i :: 0 <= i < SEG_MAX ==> a.segEnergyFee[i] <= b.segEnergyFee[i])
    && (forall i :: 0 <= i < SEG_MAX ==> a.segServFee[i] <= b.segServFee[i])
    && a.energy <= b.energy && a.energyFee <= b.energyFee && a.servFee <= b.servFee && a.fee <= b.fee
  }

  /** With a meter that never runs back and fixed prices that are not negative, no energy or fee shown at a call is
      ever higher than what is shown later in the session. */
  lemma TotalsNeverFall(t: Tables, tz: int, p: Prices, calls: seq<Call>, orders: seq<Order>, m: nat, n: nat)
    requires IsSession(t, tz, calls, orders) && m <= n < |calls| && MeterRises(calls) && ValidPrices(p)
    requires forall i :: 0 <= i < SEG_MAX ==> p.energy[i] >= 0.0 && p.serv[i] >= 0.0
    ensures NoTotalFell(TotalsOf(t, p, orders[m].cells), TotalsOf(t, p, orders[n].cells))
  {
    hide SegEnergies, SegFees, Cents, Update, Make, At, Sum;
    var c, d := orders[m].cells, orders[n].cells;
    SessionNoLess(t, tz, calls, orders, m, n);
    EnergiesNoLess(t, c, d);
    FeesNoLess(t, p.energy, c, d);
    FeesNoLess(t, p.serv, c, d);
    CentsMonotone(ExactFee(t, p.energy, c), ExactFee(t, p.energy, d));
    CentsMonotone(ExactFee(t, p.serv, c), ExactFee(t, p.serv, d));
  }
}
