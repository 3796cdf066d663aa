/** The debounced voltage and frequency machines against the history of samples and the clock. */
module DebounceHistory {
  import opened Signals
  import opened ChargeSpec
  import opened Runs
  import opened Frames
  import opened Limits
  import opened TimerHistory

  /** The step is a diagnosis call on channel ch. */
  predicate IsDiag(step: Step, ch: Channel) { if ch == VoltCh then step.Volt? else step.Freq? }

  function SampleOf(step: Step, ch: Channel): real
    requires IsDiag(step, ch)
  {
    if ch == VoltCh then step.volt else step.freq
  }

  predicate DueSet(s: Con, ch: Channel) { DueBit(ch) in s.exc }

  // ----- one step ------------------------------------------------------------

  /** What a diagnosis call on the channel does to it. */
  ghost predicate DiagRule(s: Con, x: real, ch: Channel, t: Con) {
    var v := Judge(ch, Stat(s, ch), DueSet(s, ch), Wide(s.cfg, ch, x), Narrow(s.cfg, ch, x));
    && Stat(t, ch) == v.stat
    && TimerOf(t, ch) == Operate(v.timer, TimerOf(s, ch), s.clock)
    && (DueSet(t, ch) <==> DueSet(s, ch) && !v.taken)
    && (OkBit(ch) in t.charge <==> v.ok == SetBit || (v.ok == KeepBit && OkBit(ch) in s.charge))
  }

  /** What every other step may do: let time pass, or run the callback of an expired timer. */
  ghost predicate QuietRule(s: Con, ch: Channel, t: Con) {
    && Stat(t, ch) == Stat(s, ch)
    && (OkBit(ch) in t.charge <==> OkBit(ch) in s.charge)
    && LeftOrFired(TimerOf(s, ch), DueSet(s, ch), s.clock, TimerOf(t, ch), DueSet(t, ch))
  }

  ghost predicate StepRule(s: Con, step: Step, ch: Channel, t: Con) {
    && t.cfg == s.cfg && t.clock >= s.clock
    && if IsDiag(step, ch) then DiagRule(s, SampleOf(step, ch), ch, t) else QuietRule(s, ch, t)
  }

  lemma VoltRule(s: Con, x: real, relayOn: bool, latched: bool)
    ensures DiagRule(s, x, VoltCh, DiagVoltage(s, x, relayOn, latched))
  {
    hide VoltAlarm, Wide, Narrow, Judge;
  }

  lemma FreqRule(s: Con, x: real)
    ensures DiagRule(s, x, FreqCh, DiagFreq(s, x))
  {
    hide FreqAlarm, Wide, Narrow, Judge;
  }

  lemma StepDebounce(s: Con, step: Step, ch: Channel)
    ensures StepRule(s, step, ch, Apply(s, step))
  {
    hide ChargePass, DiagVoltage, DiagFreq, DiagCurrent, SamplePlug, DiagPlug, DiagLock, StationWrites;
    hide Judge;
    if step.Charge? { PassFramed(s, step.inp); }
    else if step.Volt? {
      VoltFramed(s, step.volt, step.relayOn, step.latched);
      VoltRule(s, step.volt, step.relayOn, step.latched);
    }
    else if step.Freq? { FreqFramed(s, step.freq); FreqRule(s, step.freq); }
    else if step.Current? { CurrentFramed(s, step.amps); }
    else if step.Poll? { PollFramed(s, step.pilot, step.cc); }
    else { PlainFramed(s, step); }
  }

  lemma RunDebounce(trace: seq<Con>, steps: seq<Step>, ch: Channel, k: nat)
    requires IsPath(trace, steps) && k < |steps|
    ensures StepRule(trace[k], steps[k], ch, trace[k + 1])
  {
    hide Apply;
    assert StepAt(trace, steps, k);
    StepDebounce(trace[k], steps[k], ch);
  }

  // ----- the history behind a status -----------------------------------------

  /** A call at m with the wide (or narrowed) band finds the sample on the given side. */
  ghost predicate SampledAt(trace: seq<Con>, steps: seq<Step>, ch: Channel, k: nat, narrow: bool, side: Side)
    requires k < |steps| < |trace|
  {
    IsDiag(steps[k], ch) ==>
      side == if narrow then Narrow(trace[k].cfg, ch, SampleOf(steps[k], ch))
              else Wide(trace[k].cfg, ch, SampleOf(steps[k], ch))
  }

  /** The timer was started by the call at m for cyc milliseconds; from m on every call sampled the given side and
      the status has not moved; the timer is still running, or it ran its full time and its due bit waits. */
  ghost predicate Since(
      trace: seq<Con>, steps: seq<Step>, ch: Channel, m: nat, n: nat, narrow: bool, side: Side, cyc: nat)
    requires n <= |steps| < |trace|
  {
    && m < n && IsDiag(steps[m], ch)
    && (forall k: nat :: m <= k < n ==> SampledAt(trace, steps, ch, k, narrow, side))
    && (forall k: nat :: m < k <= n ==> Stat(trace[k], ch) == Stat(trace[n], ch))
    && Ran(TimerOf(trace[n], ch), DueSet(trace[n], ch), trace[m].clock, cyc, trace[n].clock)
  }

  ghost predicate History(trace: seq<Con>, steps: seq<Step>, ch: Channel, n: nat)
    requires n <= |steps| < |trace|
  {
    match Stat(trace[n], ch)
    case Ok | Lower | Upper => TimerOf(trace[n], ch) == Stopped && !DueSet(trace[n], ch)
    case LowerDummy => exists m: nat :: Since(trace, steps, ch, m, n, false, Below, TripCyc(ch))
    case UpperDummy => exists m: nat :: Since(trace, steps, ch, m, n, false, Above, TripCyc(ch))
    case OkDummy => exists m: nat :: Since(trace, steps, ch, m, n, true, InBand, RecoverCyc(ch))
  }

  /** An unmoved status carries its history over one more step. */
  lemma Carry(trace: seq<Con>, steps: seq<Step>, ch: Channel, m: nat, n: nat, narrow: bool, side: Side, cyc: nat)
    requires n < |steps| < |trace| && StepRule(trace[n], steps[n], ch, trace[n + 1])
    requires Since(trace, steps, ch, m, n, narrow, side, cyc)
    requires Stat(trace[n + 1], ch) == Stat(trace[n], ch)
    requires SampledAt(trace, steps, ch, n, narrow, side)
    requires IsDiag(steps[n], ch) ==>
               TimerOf(trace[n + 1], ch) == TimerOf(trace[n], ch) &&
               (DueSet(trace[n + 1], ch) <==> DueSet(trace[n], ch))
    ensures Since(trace, steps, ch, m, n + 1, narrow, side, cyc)
  {
    var s, t := trace[n], trace[n + 1];
    assert LeftOrFired(TimerOf(s, ch), DueSet(s, ch), s.clock, TimerOf(t, ch), DueSet(t, ch));
    RunsOn(TimerOf(s, ch), DueSet(s, ch), trace[m].clock, cyc, s.clock, TimerOf(t, ch), DueSet(t, ch), t.clock);
    hide Judge, Wide, Narrow, Ran, LeftOrFired;
  }

  lemma QuietHistory(trace: seq<Con>, steps: seq<Step>, ch: Channel, n: nat)
    requires n < |steps| < |trace| && StepRule(trace[n], steps[n], ch, trace[n + 1])
    requires History(trace, steps, ch, n) && !IsDiag(steps[n], ch)
    ensures History(trace, steps, ch, n + 1)
  {
    hide Judge, Wide, Narrow;
    match Stat(trace[n], ch)
    case Ok | Lower | Upper =>
    case LowerDummy =>
      var m: nat :| Since(trace, steps, ch, m, n, false, Below, TripCyc(ch));
      Carry(trace, steps, ch, m, n, false, Below, TripCyc(ch));
    case UpperDummy =>
      var m: nat :| Since(trace, steps, ch, m, n, false, Above, TripCyc(ch));
      Carry(trace, steps, ch, m, n, false, Above, TripCyc(ch));
    case OkDummy =>
      var m: nat :| Since(trace, steps, ch, m, n, true, InBand, RecoverCyc(ch));
      Carry(trace, steps, ch, m, n, true, InBand, RecoverCyc(ch));
  }

  lemma DiagHistory(trace: seq<Con>, steps: seq<Step>, ch: Channel, n: nat)
    requires n < |steps| < |trace| && StepRule(trace[n], steps[n], ch, trace[n + 1])
    requires History(trace, steps, ch, n) && IsDiag(steps[n], ch)
    ensures History(trace, steps, ch, n + 1)
  {
    hide Wide, Narrow, TripCyc, RecoverCyc;
    var s, t := trace[n], trace[n + 1];
    var wide := Wide(s.cfg, ch, SampleOf(steps[n], ch));
    match Stat(s, ch)
    case Ok =>
      if wide != InBand { assert Since(trace, steps, ch, n, n + 1, false, wide, TripCyc(ch)); }
    case LowerDummy =>
      var m: nat :| Since(trace, steps, ch, m, n, false, Below, TripCyc(ch));
      if !DueSet(s, ch) && wide == Below { Carry(trace, steps, ch, m, n, false, Below, TripCyc(ch)); }
      if !DueSet(s, ch) && wide == Above { assert Since(trace, steps, ch, n, n + 1, false, Above, TripCyc(ch)); }
    case UpperDummy =>
      var m: nat :| Since(trace, steps, ch, m, n, false, Above, TripCyc(ch));
      if !DueSet(s, ch) && wide == Above { Carry(trace, steps, ch, m, n, false, Above, TripCyc(ch)); }
      if !DueSet(s, ch) && wide == Below { assert Since(trace, steps, ch, n, n + 1, false, Below, TripCyc(ch)); }
    case Lower | Upper =>
      if Stat(t, ch) == OkDummy { assert Since(trace, steps, ch, n, n + 1, true, InBand, RecoverCyc(ch)); }
    case OkDummy =>
      var m: nat :| Since(trace, steps, ch, m, n, true, InBand, RecoverCyc(ch));
      if Stat(t, ch) == OkDummy { Carry(trace, steps, ch, m, n, true, InBand, RecoverCyc(ch)); }
  }

  lemma {:induction false} HistoryHolds(trace: seq<Con>, steps: seq<Step>, ch: Channel, n: nat)
    requires IsRun(trace, steps) && n < |trace|
    ensures History(trace, steps, ch, n)
  {
    hide Apply, Judge, Wide, Narrow;
    if n > 0 {
      HistoryHolds(trace, steps, ch, n - 1);
      RunDebounce(trace, steps, ch, n - 1);
      if IsDiag(steps[n - 1], ch) { DiagHistory(trace, steps, ch, n - 1); }
      else { QuietHistory(trace, steps, ch, n - 1); }
    }
  }

  // ----- trips and recoveries ------------------------------------------------

  /** The OK bit of a channel is cleared only by a trip; every trip clears it. */
  lemma ClearedByTrip(trace: seq<Con>, steps: seq<Step>, ch: Channel, n: nat)
    requires IsRun(trace, steps) && n < |steps|
    ensures OkBit(ch) in trace[n].charge && OkBit(ch) !in trace[n + 1].charge ==>
              IsDiag(steps[n], ch) && Trips(trace[n], ch)
    ensures IsDiag(steps[n], ch) && Trips(trace[n], ch) ==>
              OkBit(ch) !in trace[n + 1].charge && IsTripped(Stat(trace[n + 1], ch))
  {
    hide Apply, Wide, Narrow;
    RunDebounce(trace, steps, ch, n);
  }

  /** What SampledAt means in numbers. */
  lemma SampledInNumbers(trace: seq<Con>, steps: seq<Step>, ch: Channel, k: nat)
    requires k < |steps| < |trace| && IsDiag(steps[k], ch)
    ensures forall side: Side :: side != InBand && SampledAt(trace, steps, ch, k, false, side) ==>
              Beyond(trace[k].cfg, ch, SampleOf(steps[k], ch), side)
    ensures SampledAt(trace, steps, ch, k, true, InBand) ==> WellInside(trace[k].cfg, ch, SampleOf(steps[k], ch))
  {
    WideInNumbers(trace[k].cfg, ch, SampleOf(steps[k], ch));
    NarrowInNumbers(trace[k].cfg, ch, SampleOf(steps[k], ch));
    hide Wide, Narrow;
  }

  /** A trip looks back on a full delay, 3 s for the voltage and 1 s for the frequency, in which every call, the
      expiring one excepted, sampled beyond the limit on one side; it leaves the machine on that side. */
  lemma TripHistory(trace: seq<Con>, steps: seq<Step>, ch: Channel, n: nat) returns (m: nat, side: Side)
    requires IsRun(trace, steps) && n < |steps|
    requires IsDiag(steps[n], ch) && Trips(trace[n], ch)
    ensures m < n && IsDiag(steps[m], ch) && side != InBand
    ensures forall k: nat :: m <= k < n ==> SampledAt(trace, steps, ch, k, false, side)
    ensures forall k: nat :: m < k <= n ==> IsDummy(Stat(trace[k], ch))
    ensures forall k: nat :: m <= k < n && IsDiag(steps[k], ch) ==>
              Beyond(trace[k].cfg, ch, SampleOf(steps[k], ch), side)
    ensures trace[n].clock >= trace[m].clock + TripCyc(ch)
    ensures TripCyc(ch) == if ch == VoltCh then 3000 else 1000
    ensures Stat(trace[n + 1], ch) == if side == Above then Upper else Lower
  {
    hide Apply, Wide, Narrow, RecoverCyc;
    HistoryHolds(trace, steps, ch, n);
    RunDebounce(trace, steps, ch, n);
    side := SideOf(Stat(trace[n], ch));
    m :| Since(trace, steps, ch, m, n, false, side, TripCyc(ch));
    hide SampledAt, Beyond;
    forall k: nat | m <= k < n && IsDiag(steps[k], ch)
      ensures Beyond(trace[k].cfg, ch, SampleOf(steps[k], ch), side)
    {
      SampledInNumbers(trace, steps, ch, k);
    }
  }

  /** A recovery looks back on a full delay, 5 s for the voltage and 1 s for the frequency, in which every call, the
      expiring one excepted, sampled inside the band narrowed at both ends. */
  lemma RecoverHistory(trace: seq<Con>, steps: seq<Step>, ch: Channel, n: nat) returns (m: nat)
    requires IsRun(trace, steps) && n < |steps|
    requires IsDiag(steps[n], ch) && Recovers(trace[n], ch)
    ensures m < n && IsDiag(steps[m], ch)
    ensures forall k: nat :: m <= k < n ==> SampledAt(trace, steps, ch, k, true, InBand)
    ensures forall k: nat :: m < k <= n ==> Stat(trace[k], ch) == OkDummy
    ensures forall k: nat :: m <= k < n && IsDiag(steps[k], ch) ==>
              WellInside(trace[k].cfg, ch, SampleOf(steps[k], ch))
    ensures trace[n].clock >= trace[m].clock + RecoverCyc(ch)
    ensures RecoverCyc(ch) == if ch == VoltCh then 5000 else 1000
    ensures Stat(trace[n + 1], ch) == Ok && OkBit(ch) in trace[n + 1].charge
  {
    hide Apply, Wide, Narrow, TripCyc;
    HistoryHolds(trace, steps, ch, n);
    RunDebounce(trace, steps, ch, n);
    m :| Since(trace, steps, ch, m, n, true, InBand, RecoverCyc(ch));
    hide SampledAt, WellInside;
    forall k: nat | m <= k < n && IsDiag(steps[k], ch)
      ensures WellInside(trace[k].cfg, ch, SampleOf(steps[k], ch))
    {
      SampledInNumbers(trace, steps, ch, k);
    }
  }

  predicate Out(s: Con, ch: Channel) { IsTripped(Stat(s, ch)) || Stat(s, ch) == OkDummy }

  lemma {:induction false} OutHasNoBit(trace: seq<Con>, steps: seq<Step>, ch: Channel, n: nat)
    requires IsRun(trace, steps) && n < |trace|
    ensures Out(trace[n], ch) ==> OkBit(ch) !in trace[n].charge
  {
    hide Apply, Wide, Narrow;
    if n > 0 {
      OutHasNoBit(trace, steps, ch, n - 1);
      RunDebounce(trace, steps, ch, n - 1);
    }
  }

  /** After a trip at t the channel is back in order only through a recovery. */
  lemma RecoveredBetween(trace: seq<Con>, steps: seq<Step>, ch: Channel, t: nat, n: nat) returns (r: nat)
    requires IsRun(trace, steps) && t < n < |trace|
    requires IsDiag(steps[t], ch) && Trips(trace[t], ch) && !Out(trace[n], ch)
    ensures t < r < n && IsDiag(steps[r], ch) && Recovers(trace[r], ch)
  {
    hide Apply, Wide, Narrow;
    ClearedByTrip(trace, steps, ch, t);
    r := Crossing((s: Con) => !Out(s, ch), trace, t + 1, n);
    RunDebounce(trace, steps, ch, r);
  }

  /** After a trip at t the OK bit is set again only after a recovery. */
  lemma RestoredByRecovery(trace: seq<Con>, steps: seq<Step>, ch: Channel, t: nat, n: nat) returns (r: nat)
    requires IsRun(trace, steps) && t < n < |trace|
    requires IsDiag(steps[t], ch) && Trips(trace[t], ch) && OkBit(ch) in trace[n].charge
    ensures t < r < n && IsDiag(steps[r], ch) && Recovers(trace[r], ch)
  {
    hide Apply;
    OutHasNoBit(trace, steps, ch, n);
    r := RecoveredBetween(trace, steps, ch, t, n);
  }

  lemma {:induction false} ClockMonotone(trace: seq<Con>, steps: seq<Step>, a: nat, b: nat)
    requires IsPath(trace, steps) && a <= b < |trace|
    ensures trace[a].clock <= trace[b].clock
  {
    hide Apply, Judge, Wide, Narrow;
    if a < b {
      ClockMonotone(trace, steps, a, b - 1);
      RunDebounce(trace, steps, VoltCh, b - 1);
    }
  }

  /** Two trips of a channel are at least one recovery delay and one trip delay apart. */
  lemma TripsApart(trace: seq<Con>, steps: seq<Step>, ch: Channel, t: nat, u: nat)
    requires IsRun(trace, steps) && t < u < |steps|
    requires IsDiag(steps[t], ch) && Trips(trace[t], ch)
    requires IsDiag(steps[u], ch) && Trips(trace[u], ch)
    ensures trace[u].clock >= trace[t].clock + RecoverCyc(ch) + TripCyc(ch)
  {
    hide Apply, Wide, Narrow, TripCyc, RecoverCyc, Judge;
    ClearedByTrip(trace, steps, ch, t);
    var r := RecoveredBetween(trace, steps, ch, t, u);
    var m := RecoverHistory(trace, steps, ch, r);
    var p, side := TripHistory(trace, steps, ch, u);
    assert m > t;
    assert p > r;
    ClockMonotone(trace, steps, t, m);
    ClockMonotone(trace, steps, r, p);
  }

  /** Two voltage trips are at least eight seconds apart. */
  lemma VoltageTripsApart(trace: seq<Con>, steps: seq<Step>, t: nat, u: nat)
    requires IsRun(trace, steps) && t < u < |steps|
    requires steps[t].Volt? && Trips(trace[t], VoltCh) && steps[u].Volt? && Trips(trace[u], VoltCh)
    ensures trace[u].clock - trace[t].clock >= 8000
  {
    hide Apply;
    TripsApart(trace, steps, VoltCh, t, u);
  }
}
