/** Delays of voltage and frequency do their work: what stays out of limits trips, what stays inside recovers. */
module Delays {
  import opened Signals
  import opened ChargeSpec
  import opened Runs
  import opened TimerHistory
  import opened Limits
  import opened DebounceHistory

  function KindOf(ch: Channel): TimerKind { if ch == VoltCh then VoltT else FreqT }

  /** A call in step k of a run, in numbers. */
  lemma CallAt(trace: seq<Con>, steps: seq<Step>, ch: Channel, k: nat)
    requires IsPath(trace, steps) && k < |steps| && IsDiag(steps[k], ch)
    ensures var s, t := trace[k], trace[k + 1];
            CallInNumbers(ch, s.cfg, s.clock, SampleOf(steps[k], ch),
                          Stat(s, ch), DueSet(s, ch), OkBit(ch) in s.charge, TimerOf(s, ch),
                          Stat(t, ch), DueSet(t, ch), OkBit(ch) in t.charge, TimerOf(t, ch))
  {
    hide DiagVoltage, DiagFreq, ChargePass, DiagCurrent, DiagPlug, DiagLock, SamplePlug, FireTimer, CallInNumbers;
    assert StepAt(trace, steps, k);
    if ch == VoltCh { VoltageCall(trace[k], steps[k].volt, steps[k].relayOn, steps[k].latched); }
    else { FrequencyCall(trace[k], steps[k].freq); }
  }

  /** The timer task finds an expired timer and sets its due bit. */
  lemma FireSets(trace: seq<Con>, steps: seq<Step>, ch: Channel, f: nat)
    requires IsPath(trace, steps) && f < |steps| && steps[f] == Fire(KindOf(ch))
    ensures TimerOf(trace[f], ch).Running? && TimerOf(trace[f], ch).due <= trace[f].clock ==> DueSet(trace[f + 1], ch)
    ensures DueSet(trace[f], ch) ==> DueSet(trace[f + 1], ch)
  {
    hide DiagVoltage, DiagFreq, ChargePass, DiagCurrent, DiagPlug, DiagLock, SamplePlug;
    assert StepAt(trace, steps, f);
  }

  /** The calls among steps a..b all sample what keeps the channel waiting in status d. */
  ghost predicate KeepsWaiting(trace: seq<Con>, steps: seq<Step>, ch: Channel, d: DebState, a: nat, b: nat)
    requires b <= |steps| < |trace|
  {
    forall k: nat :: a <= k < b && IsDiag(steps[k], ch) ==>
      Sampled(trace[k].cfg, ch, d, SampleOf(steps[k], ch)) == d
  }

  /** A delay under way at a that samples keep up: at the latest the first call after the timer task has found the timer
      expired ends it. */
  lemma {:induction false} DelayEnds(
      trace: seq<Con>, steps: seq<Step>, ch: Channel, d: DebState, start: nat, cyc: nat, a: nat, f: nat, n: nat)
    returns (e: nat)
    requires IsPath(trace, steps) && a <= n < |steps| && Waiting(d) && Stat(trace[a], ch) == d
    requires Ran(TimerOf(trace[a], ch), DueSet(trace[a], ch), start, cyc, trace[a].clock)
    requires KeepsWaiting(trace, steps, ch, d, a, n)
    requires IsDiag(steps[n], ch) && f < n && (f < a ==> DueSet(trace[a], ch))
    requires steps[f] == Fire(KindOf(ch)) && trace[f].clock >= start + cyc
    ensures a <= e <= n && IsDiag(steps[e], ch) && Stat(trace[e], ch) == d && DueSet(trace[e], ch)
    ensures Stat(trace[e + 1], ch) == Expired(d)
    ensures OkBit(ch) in trace[e + 1].charge <==> d == OkDummy
    decreases n - a
  {
    hide Apply, Sampled, Judge, Wide, Narrow;
    RunDebounce(trace, steps, ch, a);
    if IsDiag(steps[a], ch) && DueSet(trace[a], ch) {
      CallAt(trace, steps, ch, a);
      e := a;
    } else {
      if IsDiag(steps[a], ch) {
        CallAt(trace, steps, ch, a);
      } else {
        RunsOn(TimerOf(trace[a], ch), DueSet(trace[a], ch), start, cyc, trace[a].clock,
               TimerOf(trace[a + 1], ch), DueSet(trace[a + 1], ch), trace[a + 1].clock);
        if f == a { FireSets(trace, steps, ch, f); }
      }
      e := DelayEnds(trace, steps, ch, d, start, cyc, a + 1, f, n);
    }
  }

  /** What a trip or a recovery of the voltage does to the output of a charging connector. */
  lemma OutputFollows(trace: seq<Con>, steps: seq<Step>, e: nat)
    requires IsPath(trace, steps) && e < |steps| && steps[e].Volt? && trace[e].state == Charging
    requires Waiting(trace[e].diag.volt) && VoltTimer in trace[e].exc
    ensures trace[e + 1].state == Charging
    ensures trace[e + 1].out.relay <==> trace[e].diag.volt == OkDummy
    ensures trace[e].cfg.socket == TypeB ==> (trace[e + 1].out.latch <==> trace[e].diag.volt == OkDummy)
  {
    hide DiagVoltage, DiagFreq, ChargePass, DiagCurrent, DiagPlug, DiagLock, SamplePlug, FireTimer;
    assert StepAt(trace, steps, e);
    VoltageOutput(trace[e], steps[e].volt, steps[e].relayOn, steps[e].latched);
  }

  /** A sample beyond the limit of one side, and not beyond both. */
  predicate Outside(cfg: Config, ch: Channel, x: real, side: Side) {
    Beyond(cfg, ch, x, side) && (side == Below ==> !TooHigh(cfg, ch, x))
  }

  lemma OutsideWaits(cfg: Config, ch: Channel, x: real, side: Side)
    requires Outside(cfg, ch, x, side)
    ensures side == Above || side == Below
    ensures var d := if side == Above then UpperDummy else LowerDummy;
            Sampled(cfg, ch, Ok, x) == d && Sampled(cfg, ch, d, x) == d
  {
  }

  /** A channel in order whose samples go beyond a limit and stay there trips: once the timer task has come by when the
      delay, 3 s for the voltage and 1 s for the frequency, was over, at the latest the next call clears its bit; and
      the relay of a charging connector is commanded open when it is the voltage. */
  lemma OutOfLimitsTrips(trace: seq<Con>, steps: seq<Step>, ch: Channel, side: Side, m: nat, f: nat, n: nat)
    returns (e: nat)
    requires IsRun(trace, steps) && m < f < n < |steps| && IsDiag(steps[m], ch) && IsDiag(steps[n], ch)
    requires Stat(trace[m], ch) == Ok
    requires forall k: nat :: m <= k < n && IsDiag(steps[k], ch) ==>
               Outside(trace[k].cfg, ch, SampleOf(steps[k], ch), side)
    requires steps[f] == Fire(KindOf(ch)) && trace[f].clock >= trace[m].clock + if ch == VoltCh then 3000 else 1000
    ensures m < e <= n && IsDiag(steps[e], ch) && OkBit(ch) !in trace[e + 1].charge
    ensures Stat(trace[e + 1], ch) == if side == Above then Upper else Lower
    ensures ch == VoltCh && trace[e].state == Charging ==> !trace[e + 1].out.relay
  {
    hide Apply, Judge, Wide, Narrow, Outside, TooHigh, TooLow;
    HistoryHolds(trace, steps, ch, m);
    CallAt(trace, steps, ch, m);
    OutsideWaits(trace[m].cfg, ch, SampleOf(steps[m], ch), side);
    var d := if side == Above then UpperDummy else LowerDummy;
    forall k: nat | m + 1 <= k < n && IsDiag(steps[k], ch)
      ensures Sampled(trace[k].cfg, ch, d, SampleOf(steps[k], ch)) == d
    {
      OutsideWaits(trace[k].cfg, ch, SampleOf(steps[k], ch), side);
    }
    var cyc := if ch == VoltCh then 3000 else 1000;
    ClockMonotone(trace, steps, m, m + 1);
    e := DelayEnds(trace, steps, ch, d, trace[m].clock, cyc, m + 1, f, n);
    if ch == VoltCh && trace[e].state == Charging { OutputFollows(trace, steps, e); }
  }

  /** A tripped channel whose samples come well inside the limits and stay there recovers in the same way, after 5 s for
      the voltage and 1 s for the frequency; and the relay of a charging connector is commanded closed again. */
  lemma WellInsideRecovers(trace: seq<Con>, steps: seq<Step>, ch: Channel, m: nat, f: nat, n: nat) returns (e: nat)
    requires IsRun(trace, steps) && m < f < n < |steps| && IsDiag(steps[m], ch) && IsDiag(steps[n], ch)
    requires Stat(trace[m], ch) == Upper || Stat(trace[m], ch) == Lower
    requires forall k: nat :: m <= k < n && IsDiag(steps[k], ch) ==>
               WellInside(trace[k].cfg, ch, SampleOf(steps[k], ch))
    requires steps[f] == Fire(KindOf(ch)) && trace[f].clock >= trace[m].clock + if ch == VoltCh then 5000 else 1000
    ensures m < e <= n && IsDiag(steps[e], ch) && OkBit(ch) in trace[e + 1].charge && Stat(trace[e + 1], ch) == Ok
    ensures ch == VoltCh && trace[e].state == Charging ==> trace[e + 1].out.relay
  {
    hide Apply, Judge, Wide, Narrow, WellInside;
    HistoryHolds(trace, steps, ch, m);
    CallAt(trace, steps, ch, m);
    var cyc := if ch == VoltCh then 5000 else 1000;
    ClockMonotone(trace, steps, m, m + 1);
    e := DelayEnds(trace, steps, ch, OkDummy, trace[m].clock, cyc, m + 1, f, n);
    if ch == VoltCh && trace[e].state == Charging { OutputFollows(trace, steps, e); }
  }
}
