/** Time-of-use billing as functions: which period a moment falls in, what one update does to the ledger of periods,
    and the totals drawn from it. */
module Ledger {

  const SEG_MAX := 5
  const PERIOD_MAX := 5
  const SEG_DEFAULT := 4
  const SEG_IDLE := 5
  const U32 := 0x1_0000_0000

  /** A period of the day, from hour start up to, and not including, hour end. */
  datatype Hours = Hours(start: nat, end: nat)

  /** SegTime: for each of the five segments its periods. */
  type Tables = seq<seq<Hours>>

  predicate ValidTables(t: Tables) {
    |t| == SEG_MAX && forall i :: 0 <= i < SEG_MAX ==> |t[i]| <= PERIOD_MAX
  }

  /** The hour of the day localtime gives for a moment, in a zone tz seconds east of the epoch's. */
  function HourOf(now: int, tz: int): nat { ((now + tz) / 3600) % 24 }

  predicate Covers(h: Hours, hour: nat) { h.start <= hour < h.end }

  /** The first period from j on that covers the hour, or the number of periods. */
  function FirstPeriod(p: seq<Hours>, hour: nat, j: nat): (r: nat)
    requires j <= |p|
    ensures j <= r <= |p| && (r < |p| ==> Covers(p[r], hour))
    ensures forall k :: j <= k < r ==> !Covers(p[k], hour)
    decreases |p| - j
  {
    if j == |p| || Covers(p[j], hour) then j else FirstPeriod(p, hour, j + 1)
  }

  /** A place in the ledger. */
  datatype Slot = Slot(seg: nat, pos: nat)

  /** The first slot from segment i on whose period covers the hour, else the first slot of the default segment. */
  function SlotFrom(t: Tables, hour: nat, i: nat): (s: Slot)
    requires ValidTables(t) && i <= SEG_MAX
    ensures s.seg < SEG_MAX && s.pos < PERIOD_MAX
    decreases SEG_MAX - i
  {
    if i == SEG_MAX then Slot(SEG_DEFAULT, 0)
    else
      var j := FirstPeriod(t[i], hour, 0);
      if j < |t[i]| then Slot(i, j) else SlotFrom(t, hour, i + 1)
  }

  function SlotOf(t: Tables, tz: int, now: int): (s: Slot)
    requires ValidTables(t)
    ensures s.seg < SEG_MAX && s.pos < PERIOD_MAX
  {
    SlotFrom(t, HourOf(now, tz), 0)
  }

  // ----- the ledger ----------------------------------------------------------

  /** ChargePeriodStatus_t. */
  datatype Period = Period(tStart: nat, tEnd: nat, startEnergy: real, energy: real)
  const BLANK := Period(0, 0, 0.0, 0.0)

  type Cells = seq<seq<Period>>

  predicate ValidCells(c: Cells) {
    |c| == SEG_MAX && forall i :: 0 <= i < SEG_MAX ==> |c[i]| == PERIOD_MAX
  }

  /** The segment state and position of an order, and its ledger. */
  datatype Order = Order(cur: Slot, cells: Cells)

  predicate ValidSlot(s: Slot) { s.seg < SEG_MAX && s.pos < PERIOD_MAX }
  predicate ValidOrder(o: Order) { ValidSlot(o.cur) && ValidCells(o.cells) }

  function At(c: Cells, s: Slot): Period
    requires ValidCells(c) && ValidSlot(s)
  {
    c[s.seg][s.pos]
  }

  function Put(c: Cells, s: Slot, p: Period): (r: Cells)
    requires ValidCells(c) && ValidSlot(s)
    ensures ValidCells(r)
  {
    c[s.seg := c[s.seg][s.pos := p]]
  }

  /** One call of the order task: the time, the meter reading, whether it is the FINISH call. */
  datatype Call = Call(now: nat, meter: real, finish: bool)

  /** The three things an update can be: leaving a period, the first visit of a period, a further visit. */
  datatype Kind = Switch | First | Steady

  function KindOf(t: Tables, tz: int, o: Order, c: Call): Kind
    requires ValidTables(t) && ValidOrder(o)
  {
    if SlotOf(t, tz, c.now) != o.cur then Switch else if At(o.cells, o.cur).tStart > 0 then Steady else First
  }

  /** What the update writes to the slot it worked on, which is the one the order was in before. */
  function Entry(k: Kind, p: Period, c: Call): Period {
    match k
    case Switch => p.(tEnd := c.now)
    case First => p.(tStart := c.now, startEnergy := c.meter)
    case Steady => p.(energy := c.meter - p.startEnergy)
  }

  function Finished(p: Period, c: Call): Period { if c.finish then p.(tEnd := c.now) else p }

  /** PeriodUpdate and, on the FINISH call, the closing of the period it returns. */
  function Update(t: Tables, tz: int, o: Order, c: Call): (r: Order)
    requires ValidTables(t) && ValidOrder(o)
    ensures ValidOrder(r) && r.cur == SlotOf(t, tz, c.now)
  {
    Order(SlotOf(t, tz, c.now),
          Put(o.cells, o.cur, Finished(Entry(KindOf(t, tz, o, c), At(o.cells, o.cur), c), c)))
  }

  /** The MAKE call on a fresh order only finds the slot. */
  function Make(t: Tables, tz: int, now: nat): (o: Order)
    requires ValidTables(t)
    ensures ValidOrder(o)
  {
    Order(SlotOf(t, tz, now), seq(SEG_MAX, i => seq(PERIOD_MAX, j => BLANK)))
  }

  // ----- totals --------------------------------------------------------------

  function SumEnergy(row: seq<Period>, n: nat): real
    requires n <= |row|
  {
    if n == 0 then 0.0 else SumEnergy(row, n - 1) + row[n - 1].energy
  }

  /** Closed time of a period: none while its end is unset. */
  function ClosedTime(p: Period): int { if p.tEnd != 0 then p.tEnd - p.tStart else 0 }

  function SumTime(row: seq<Period>, n: nat): int
    requires n <= |row|
  {
    if n == 0 then 0 else SumTime(row, n - 1) + ClosedTime(row[n - 1])
  }

  function Sum(xs: seq<real>, n: nat): real
    requires n <= |xs|
  {
    if n == 0 then 0.0 else Sum(xs, n - 1) + xs[n - 1]
  }

  /** Conversion of a double to uint32_t: the fraction is dropped; out of range the value is held at the bounds. */
  function ToU32(x: real): nat {
    if x < 0.0 then 0 else if x >= U32 as real then U32 - 1 else x.Floor
  }

  /** Truncation to two decimals. */
  function Cents(x: real): real { ToU32(x * 100.0) as real / 100.0 }

  function Fee(energy: real, price: real): real { energy * price }

  datatype Prices = Prices(energy: seq<real>, serv: seq<real>)

  predicate ValidPrices(p: Prices) { |p.energy| == SEG_MAX && |p.serv| == SEG_MAX }

  datatype Totals = Totals(
    segEnergy: seq<real>, segEnergyFee: seq<real>, segServFee: seq<real>, segTime: seq<nat>,
    energy: real, energyFee: real, servFee: real, fee: real)

  function SegEnergy(t: Tables, c: Cells, i: nat): real
    requires ValidTables(t) && ValidCells(c) && i < SEG_MAX
  {
    SumEnergy(c[i], |t[i]|)
  }

  function SegEnergies(t: Tables, c: Cells): seq<real>
    requires ValidTables(t) && ValidCells(c)
  {
    seq(SEG_MAX, i requires 0 <= i < SEG_MAX => Cents(SegEnergy(t, c, i)))
  }

  function SegFees(t: Tables, price: seq<real>, c: Cells): seq<real>
    requires ValidTables(t) && ValidCells(c) && |price| == SEG_MAX
  {
    seq(SEG_MAX, i requires 0 <= i < SEG_MAX => Fee(SegEnergy(t, c, i), price[i]))
  }

  function SegTimes(t: Tables, c: Cells): seq<nat>
    requires ValidTables(t) && ValidCells(c)
  {
    seq(SEG_MAX, i requires 0 <= i < SEG_MAX => SumTime(c[i], |t[i]|) % U32)
  }

  function TotalsOf(t: Tables, p: Prices, c: Cells): Totals
    requires ValidTables(t) && ValidCells(c) && ValidPrices(p)
  {
    var energyFee := Cents(Sum(SegFees(t, p.energy, c), SEG_MAX));
    var servFee := Cents(Sum(SegFees(t, p.serv, c), SEG_MAX));
    Totals(SegEnergies(t, c), SegFees(t, p.energy, c), SegFees(t, p.serv, c), SegTimes(t, c),
           Sum(SegEnergies(t, c), SEG_MAX), energyFee, servFee, energyFee + servFee)
  }
}
