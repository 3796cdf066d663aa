/** The overcurrent lock-out: what must have happened, in order, before a connector charges again after it. */
module LockOut {
  import opened Signals
  import opened ChargeSpec
  import opened Runs
  import opened Frames
  import opened Authorisation

  /** The current is more than 1.1 times the rated one. */
  predicate SeesOver(s: Con, step: Step) { step.Current? && step.amps > s.cfg.ratedCurrent * 1.1 }

  lemma OverInNumbers(s: Con, a: real)
    ensures OverCurrent(s.cfg, a) <==> SeesOver(s, Current(a))
  {
  }

  /** The call that finds the current still over limit after both delays and locks the connector out. */
  predicate LocksOut(s: Con, step: Step) {
    step.Current? && s.diag.curr == CurrUpperFix && CurrTimer in s.exc
  }

  /** A call that sees the plug gone and the current not over limit, in the error state or on reaching it. */
  predicate Releases(s: Con, step: Step) {
    && step.Current? && (s.diag.curr == CurrError || LocksOut(s, step))
    && PlugOK !in s.charge && !SeesOver(s, step)
  }

  predicate StartsDelay(s: Con, step: Step) { step.Current? && s.diag.curr == CurrInit }
  predicate EndsDelay(s: Con, step: Step) { step.Current? && s.diag.curr == CurrDelay && CurrTimer in s.exc }
  predicate Accepts(s: Con, step: Step) { step.Current? && s.diag.curr == CurrNormal && !SeesOver(s, step) }

  predicate Barred(s: Con) { s.diag.curr == CurrError || s.diag.curr == CurrInit || s.diag.curr == CurrDelay }

  /** What a step can do to the current machine and to CurrOK. */
  predicate CurrRule(s: Con, step: Step, t: Con) {
    && (CurrOK in t.charge && CurrOK !in s.charge ==> Accepts(s, step))
    && (LocksOut(s, step) ==>
          CurrOK !in t.charge && t.diag.curr == if Releases(s, step) then CurrInit else CurrError)
    && (s.diag.curr == CurrError && t.diag.curr != CurrError ==> Releases(s, step) && t.diag.curr == CurrInit)
    && (s.diag.curr == CurrInit && t.diag.curr != CurrInit ==> StartsDelay(s, step) && t.diag.curr == CurrDelay)
    && (s.diag.curr == CurrDelay && t.diag.curr != CurrDelay ==> EndsDelay(s, step) && t.diag.curr == CurrNormal)
    && (Barred(t) && !Barred(s) ==> LocksOut(s, step))
  }

  lemma MachineRule(s: Con, a: real)
    ensures CurrRule(s, Current(a), DiagCurrent(s, a))
  {
    OverInNumbers(s, a);
    hide OverCurrent, SeesOver;
  }

  lemma RunCurr(trace: seq<Con>, steps: seq<Step>, k: nat)
    requires IsPath(trace, steps) && k < |steps|
    ensures CurrRule(trace[k], steps[k], trace[k + 1])
  {
    assert StepAt(trace, steps, k);
    var (s, step) := (trace[k], steps[k]);
    hide IsPath;
    hide ChargePass, DiagVoltage, DiagFreq, DiagCurrent, SamplePlug, DiagPlug, DiagLock, FireTimer, StationWrites;
    if step.Charge? { PassFramed(s, step.inp); }
    else if step.Volt? { VoltFramed(s, step.volt, step.relayOn, step.latched); }
    else if step.Freq? { FreqFramed(s, step.freq); }
    else if step.Current? { MachineRule(s, step.amps); }
    else if step.Poll? { PollFramed(s, step.pilot, step.cc); }
    else { PlainFramed(s, step); }
  }

  /** The order of events after a lock-out at step t, up to the next start of a session at step n: a call that sees
      the plug gone with the current not over limit, the start of the init delay, its end, then a call that samples
      the current in limits; up to there CurrOK stays clear. */
  lemma OvercurrentLockOut(trace: seq<Con>, steps: seq<Step>, t: nat, n: nat)
    returns (release: nat, start: nat, end: nat, accept: nat)
    requires IsPath(trace, steps) && t < n < |steps|
    requires LocksOut(trace[t], steps[t]) && Enters(trace[n], trace[n + 1])
    ensures t <= release < start < end < accept < n
    ensures Releases(trace[release], steps[release])
    ensures StartsDelay(trace[start], steps[start])
    ensures EndsDelay(trace[end], steps[end])
    ensures Accepts(trace[accept], steps[accept])
    ensures forall m :: t < m <= accept ==> CurrOK !in trace[m].charge
  {
    hide Apply, DiagCurrent, OverCurrent;
    RunAuth(trace, steps, n);
    assert CurrOK in CHARGE_CONDITION;
    RunCurr(trace, steps, t);
    accept := Crossing((s: Con) => CurrOK in s.charge, trace, t + 1, n);
    RunCurr(trace, steps, accept);
    end := Crossing((s: Con) => !Barred(s), trace, t + 1, accept);
    RunCurr(trace, steps, end);
    start := Crossing((s: Con) => s.diag.curr == CurrDelay, trace, t + 1, end);
    RunCurr(trace, steps, start);
    assert trace[start].diag.curr == CurrInit;
    if trace[t + 1].diag.curr == CurrInit {
      release := t;
    } else {
      release := Crossing((s: Con) => s.diag.curr != CurrError, trace, t + 1, start);
      RunCurr(trace, steps, release);
    }
  }
}
