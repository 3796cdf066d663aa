/** The order of one connector, updated in place as order.c does, proved against Ledger. */
module Billing {
  import opened Ledger

  predicate IsTimeInclude(now: int, tz: int, h: Hours) {
    h.start <= HourOf(now, tz) < h.end
  }

  method IsSegInclude(now: int, tz: int, periods: seq<Hours>) returns (found: bool, pos: nat)
    ensures found <==> FirstPeriod(periods, HourOf(now, tz), 0) < |periods|
    ensures found ==> pos == FirstPeriod(periods, HourOf(now, tz), 0)
  {
    var i := 0;
    while i < |periods|
      invariant 0 <= i <= |periods|
      invariant FirstPeriod(periods, HourOf(now, tz), 0) == FirstPeriod(periods, HourOf(now, tz), i)
    {
      if IsTimeInclude(now, tz, periods[i]) { return true, i; }
      i := i + 1;
    }
    found, pos := false, 0;
  }

  method JudgeSegState(now: int, tz: int, t: Tables) returns (seg: nat, pos: nat)
    requires ValidTables(t)
    ensures Slot(seg, pos) == SlotOf(t, tz, now)
  {
    var i := 0;
    while i < SEG_MAX
      invariant 0 <= i <= SEG_MAX
      invariant SlotOf(t, tz, now) == SlotFrom(t, HourOf(now, tz), i)
    {
      var found, p := IsSegInclude(now, tz, t[i]);
      if found { return i, p; }
      i := i + 1;
    }
    seg, pos := SEG_DEFAULT, 0;
  }

  /** STATE_ORDER_MAKE, UPDATE and FINISH. */
  datatype OrderStat = NewOrder | UpdateOrder | FinishOrder

  /** Arrays filled entry by entry with the segment totals hold the segment totals. */
  lemma SegmentViews(t: Tables, p: Prices, c: Ledger.Cells, e: seq<real>, ef: seq<real>, sf: seq<real>, tm: seq<nat>)
    requires ValidTables(t) && ValidPrices(p) && ValidCells(c)
    requires |e| == |ef| == |sf| == |tm| == SEG_MAX
    requires forall k :: 0 <= k < SEG_MAX ==> e[k] == Cents(SegEnergy(t, c, k))
    requires forall k :: 0 <= k < SEG_MAX ==> ef[k] == Fee(SegEnergy(t, c, k), p.energy[k])
    requires forall k :: 0 <= k < SEG_MAX ==> sf[k] == Fee(SegEnergy(t, c, k), p.serv[k])
    requires forall k :: 0 <= k < SEG_MAX ==> tm[k] == SumTime(c[k], |t[k]|) % U32
    ensures e == SegEnergies(t, c) && ef == SegFees(t, p.energy, c) && sf == SegFees(t, p.serv, c)
    ensures tm == SegTimes(t, c)
  {
    hide Cents, Fee, SegEnergy, SumTime;
  }

  lemma PutTwice(c: Ledger.Cells, s: Slot, p: Period, now: nat)
    requires ValidCells(c) && ValidSlot(s)
    ensures At(Put(c, s, p), s) == p
    ensures Put(Put(c, s, p), s, p.(tEnd := now)) == Put(c, s, p.(tEnd := now))
  {
    var q := p.(tEnd := now);
    assert c[s.seg][s.pos := p][s.pos := q] == c[s.seg][s.pos := q];
    assert Put(Put(c, s, p), s, q) == Put(c, s, q);
  }

  class OrderData {
    var seg: nat
    var pos: nat
    const periods: array2<Period>
    const segEnergy: array<real>
    const segEnergyFee: array<real>
    const segServFee: array<real>
    const segTime: array<nat>
    var totalEnergy: real
    var totalEnergyFee: real
    var totalServFee: real
    var totalFee: real
    var tStartTime: nat
    var tStopTime: nat
    var startEnergy: real

    ghost predicate Shape() {
      && periods.Length0 == SEG_MAX && periods.Length1 == PERIOD_MAX
      && segEnergy.Length == segEnergyFee.Length == segServFee.Length == segTime.Length == SEG_MAX
      && segEnergy != segEnergyFee && segEnergy != segServFee && segEnergyFee != segServFee
    }

    ghost predicate Valid()
      reads this
    {
      Shape() && pos < PERIOD_MAX && seg <= SEG_IDLE
    }

    ghost function Row(i: nat): (r: seq<Period>)
      requires Shape() && i < SEG_MAX
      reads periods
      ensures |r| == PERIOD_MAX && forall j :: 0 <= j < PERIOD_MAX ==> r[j] == periods[i, j]
    {
      seq(PERIOD_MAX, j requires 0 <= j < PERIOD_MAX reads periods => periods[i, j])
    }

    ghost function Cells(): (c: Ledger.Cells)
      requires Shape()
      reads periods
      ensures ValidCells(c)
      ensures forall i :: 0 <= i < SEG_MAX ==> c[i] == Row(i)
    {
      seq(SEG_MAX, i requires 0 <= i < SEG_MAX reads periods => Row(i))
    }

    /** The order as the ledger sees it, once MAKE has placed it in a segment. */
    ghost function View(): Order
      requires Valid() && seg < SEG_MAX
      reads this, periods
    {
      Order(Slot(seg, pos), Cells())
    }

    ghost function Shown(): Totals
      requires Shape()
      reads this, segEnergy, segEnergyFee, segServFee, segTime
    {
      Totals(segEnergy[..], segEnergyFee[..], segServFee[..], segTime[..],
             totalEnergy, totalEnergyFee, totalServFee, totalFee)
    }

    /** OrderInit. */
    constructor ()
      ensures Valid() && seg == SEG_IDLE
      ensures forall i :: 0 <= i < SEG_MAX ==> Cells()[i] == seq(PERIOD_MAX, j => BLANK)
      ensures fresh(periods) && fresh(segEnergy) && fresh(segEnergyFee) && fresh(segServFee) && fresh(segTime)
    {
      seg, pos := SEG_IDLE, 0;
      periods := new Period[SEG_MAX, PERIOD_MAX]((i, j) => BLANK);
      segEnergy := new real[SEG_MAX](i => 0.0);
      segEnergyFee := new real[SEG_MAX](i => 0.0);
      segServFee := new real[SEG_MAX](i => 0.0);
      segTime := new nat[SEG_MAX](i => 0);
      totalEnergy, totalEnergyFee, totalServFee, totalFee := 0.0, 0.0, 0.0, 0.0;
      tStartTime, tStopTime, startEnergy := 0, 0, 0.0;
    }

    method Store(i: nat, j: nat, p: Period)
      requires Shape() && i < SEG_MAX && j < PERIOD_MAX
      modifies periods
      ensures Cells() == Put(old(Cells()), Slot(i, j), p)
    {
      periods[i, j] := p;
      forall k | 0 <= k < SEG_MAX ensures Cells()[k] == Put(old(Cells()), Slot(i, j), p)[k] {
        assert Row(k) == if k == i then old(Row(k))[j := p] else old(Row(k));
      }
    }

    /** PeriodUpdate, which hands back the period it worked on. */
    method PeriodUpdate(now: nat, meter: real, tz: int, t: Tables) returns (i: nat, j: nat)
      requires Valid() && seg < SEG_MAX && ValidTables(t)
      modifies this`seg, this`pos, periods
      ensures Valid() && seg < SEG_MAX
      ensures i == old(seg) && j == old(pos)
      ensures View() == Update(t, tz, old(View()), Call(now, meter, false))
    {
      var segNow, posNow := JudgeSegState(now, tz, t);
      i, j := seg, pos;
      var p := periods[i, j];
      assert p == At(old(Cells()), Slot(i, j));
      if seg != segNow || pos != posNow {
        Store(i, j, p.(tEnd := now));
        seg, pos := segNow, posNow;
        return;
      }
      if p.tStart > 0 {
        Store(i, j, p.(energy := meter - p.startEnergy));
      } else {
        Store(i, j, p.(tStart := now, startEnergy := meter));
      }
    }

    /** The energy and closed time of one segment, summed over its periods. */
    method SumSegment(i: nat, count: nat) returns (energy: real, time: nat)
      requires Shape() && i < SEG_MAX && count <= PERIOD_MAX
      ensures energy == SumEnergy(Row(i), count)
      ensures time == SumTime(Row(i), count) % U32
    {
      energy, time := 0.0, 0;
      var j := 0;
      while j < count
        invariant 0 <= j <= count
        invariant energy == SumEnergy(Row(i), j)
        invariant time == SumTime(Row(i), j) % U32
      {
        energy := energy + periods[i, j].energy;
        if periods[i, j].tEnd != 0 {
          time := (time + (periods[i, j].tEnd - periods[i, j].tStart)) % U32;
        }
        j := j + 1;
      }
    }

    /** The segment totals. */
    method SumSegments(t: Tables, p: Prices)
      requires Shape() && ValidTables(t) && ValidPrices(p)
      modifies segEnergy, segEnergyFee, segServFee, segTime
      ensures segEnergy[..] == SegEnergies(t, Cells())
      ensures segEnergyFee[..] == SegFees(t, p.energy, Cells())
      ensures segServFee[..] == SegFees(t, p.serv, Cells())
      ensures segTime[..] == SegTimes(t, Cells())
    {
      hide Cents, Fee, SegEnergies, SegFees, SegTimes, SumEnergy, SumTime;
      ghost var c := Cells();
      var i := 0;
      while i < SEG_MAX
        invariant 0 <= i <= SEG_MAX && Cells() == c
        invariant forall k :: 0 <= k < i ==> segEnergy[k] == Cents(SegEnergy(t, c, k))
        invariant forall k :: 0 <= k < i ==> segEnergyFee[k] == Fee(SegEnergy(t, c, k), p.energy[k])
        invariant forall k :: 0 <= k < i ==> segServFee[k] == Fee(SegEnergy(t, c, k), p.serv[k])
        invariant forall k :: 0 <= k < i ==> segTime[k] == SumTime(c[k], |t[k]|) % U32
      {
        var energy, time := SumSegment(i, |t[i]|);
        assert energy == SegEnergy(t, c, i) && time == SumTime(c[i], |t[i]|) % U32;
        hide SegEnergy;
        segEnergy[i] := Cents(energy);
        segEnergyFee[i] := Fee(energy, p.energy[i]);
        segServFee[i] := Fee(energy, p.serv[i]);
        segTime[i] := time;
        i := i + 1;
      }
      SegmentViews(t, p, c, segEnergy[..], segEnergyFee[..], segServFee[..], segTime[..]);
    }

    /** The grand totals. */
    method SumAll(t: Tables, p: Prices)
      requires Shape() && ValidTables(t) && ValidPrices(p)
      modifies this`totalEnergy, this`totalEnergyFee, this`totalServFee, this`totalFee
      modifies segEnergy, segEnergyFee, segServFee, segTime
      ensures Shown() == TotalsOf(t, p, Cells())
    {
      hide Cents, SegEnergies, SegFees, SegTimes;
      SumSegments(t, p);
      var energy, energyFee, servFee := 0.0, 0.0, 0.0;
      var i := 0;
      while i < SEG_MAX
        invariant 0 <= i <= SEG_MAX
        invariant energy == Sum(segEnergy[..], i)
        invariant energyFee == Sum(segEnergyFee[..], i)
        invariant servFee == Sum(segServFee[..], i)
      {
        energy := energy + segEnergy[i];
        energyFee := energyFee + segEnergyFee[i];
        servFee := servFee + segServFee[i];
        i := i + 1;
      }
      totalEnergy := energy;
      totalEnergyFee := Cents(energyFee);
      totalServFee := Cents(servFee);
      totalFee := totalEnergyFee + totalServFee;
    }

    method Close(i: nat, j: nat, now: nat)
      requires Shape() && i < SEG_MAX && j < PERIOD_MAX
      modifies periods
      ensures Cells() == Put(old(Cells()), Slot(i, j), At(old(Cells()), Slot(i, j)).(tEnd := now))
    {
      Store(i, j, periods[i, j].(tEnd := now));
    }

    /** SegmentUpdate. In the idle segment only the slot is found, and no period is there to close: a FINISH call
        needs the MAKE call before it. */
    method SegmentUpdate(now: nat, meter: real, finish: bool, tz: int, t: Tables, p: Prices)
      requires Valid() && ValidTables(t) && ValidPrices(p)
      requires seg == SEG_IDLE ==> !finish
      modifies this`seg, this`pos, this`totalEnergy, this`totalEnergyFee, this`totalServFee, this`totalFee
      modifies periods, segEnergy, segEnergyFee, segServFee, segTime
      ensures Valid() && seg < SEG_MAX
      ensures if old(seg) == SEG_IDLE
              then Slot(seg, pos) == SlotOf(t, tz, now) && Cells() == old(Cells())
              else View() == Update(t, tz, old(View()), Call(now, meter, finish))
      ensures Shown() == TotalsOf(t, p, Cells())
    {
      hide FirstPeriod, SlotFrom, HourOf, TotalsOf;
      if seg == SEG_IDLE {
        seg, pos := JudgeSegState(now, tz, t);
      } else {
        ghost var o := View();
        var i, j := PeriodUpdate(now, meter, tz, t);
        if finish {
          Close(i, j, now);
          ghost var c := Call(now, meter, false);
          PutTwice(o.cells, o.cur, Entry(KindOf(t, tz, o, c), At(o.cells, o.cur), c), now);
        }
      }
      SumAll(t, p);
    }

    /** makeOrder, in the three states that bill. */
    method MakeOrder(stat: OrderStat, now: nat, meter: real, tz: int, t: Tables, p: Prices)
      requires Valid() && ValidTables(t) && ValidPrices(p)
      requires stat == FinishOrder ==> seg != SEG_IDLE
      modifies this, periods, segEnergy, segEnergyFee, segServFee, segTime
      ensures Valid() && seg < SEG_MAX
      ensures if old(seg) == SEG_IDLE
              then Slot(seg, pos) == SlotOf(t, tz, now) && Cells() == old(Cells())
              else View() == Update(t, tz, old(View()), Call(now, meter, stat == FinishOrder))
      ensures Shown() == TotalsOf(t, p, Cells())
      ensures (tStartTime, startEnergy) == if stat == NewOrder then (now, meter) else old((tStartTime, startEnergy))
      ensures tStopTime == if stat == FinishOrder then now else old(tStopTime)
    {
      hide TotalsOf, Update, SlotOf;
      if stat == NewOrder { tStartTime, startEnergy := now, meter; }
      if stat == FinishOrder { tStopTime := now; }
      SegmentUpdate(now, meter, stat == FinishOrder, tz, t, p);
    }
  }
}
