/** What every step of every interleaving keeps: relay against voltage, relay against state, retries, the StartOK
    bit. */
module Session {
  import opened Signals
  import opened ChargeSpec
  import opened Runs
  import opened Frames

  predicate PreStop(s: ConState) {
    s == Idle || s == Pluged || s == Precontract || s == LosePlug || s == Starting || s == Charging
  }

  predicate PostStop(s: ConState) { s == Unlocking || s == Faulted || s == DevFaulted }

  predicate VoltNormal(s: Con) { s.diag.volt == Ok || IsDummy(s.diag.volt) }

  /** While charging, the commanded relay, the voltage bit and the voltage machine say the same. */
  predicate VoltAgrees(s: Con) {
    s.state == Charging ==> (s.out.relay <==> VoltOK in s.charge) && (VoltOK in s.charge <==> VoltNormal(s))
  }

  predicate TriesFit(s: Con) {
    if PreStop(s.state) then s.tries.stop == 0 && s.tries.unlock == 0 && !s.tries.dev
    else if s.state == Stopping then s.tries.stop < 5 && s.tries.unlock == 0
    else
      && (s.tries.stop == 0 || s.tries.stop == 5) && s.tries.unlock <= 5
      && (s.state == Unlocking ==> s.tries.unlock < 5)
      && (s.cfg.socket == TypeC ==> s.tries.unlock == 0)
      && (s.state == Returning ==> !s.tries.dev)
      && (s.state == DevFaulted ==> s.tries.dev)
  }

  /** The order task keeps the bill open while StartOK is set; this says when that is. */
  predicate StartOkFits(s: Con) {
    StartOK in s.charge <==>
      s.state == Charging || s.state == Stopping || ((PostStop(s.state) || s.state == Returning) && s.tries.stop == 5)
  }

  /** Where the relay may be commanded closed. */
  predicate Confined(s: Con) {
    s.out.relay ==> s.state == Charging || s.state == Stopping || (PostStop(s.state) && s.tries.stop == 5)
  }

  predicate Sound(s: Con) {
    && VoltAgrees(s) && TriesFit(s) && StartOkFits(s)
    && (VoltOK in s.charge ==> VoltNormal(s))
  }

  // ----- one step ------------------------------------------------------------

  lemma StoppingSound(s: Con, i: PassInput)
    requires Sound(s) && s.state == Stopping
    ensures Sound(PassStopping(s, i))
  {
  }

  lemma UnlockingSound(s: Con, i: PassInput)
    requires Sound(s) && s.state == Unlocking
    ensures Sound(PassUnlocking(s, i))
  {
  }

  lemma FaultedSound(s: Con, i: PassInput)
    requires Sound(s)
    ensures s.state == Faulted ==> Sound(PassFaulted(s, i))
    ensures s.state == DevFaulted ==> Sound(PassDevFaulted(s, i))
  {
    hide FaultsRaised, FaultsCleared;
  }

  lemma VoltSound(s: Con, x: real, relayOn: bool, latched: bool)
    requires Sound(s)
    ensures Sound(DiagVoltage(s, x, relayOn, latched))
  {
    hide VoltAlarm, Wide, Narrow;
  }

  /** What the steps outside the charging task and the voltage diagnosis leave alone. */
  predicate SameSession(s: Con, t: Con) {
    && t.cfg == s.cfg && t.state == s.state && t.tries == s.tries && t.out.relay == s.out.relay
    && t.diag.volt == s.diag.volt
    && (VoltOK in t.charge <==> VoltOK in s.charge)
    && (StartOK in t.charge <==> StartOK in s.charge)
  }

  lemma OtherSame(s: Con, step: Step)
    requires !step.Charge? && !step.Volt?
    ensures SameSession(s, Apply(s, step))
  {
    hide ChargePass, DiagVoltage, DiagFreq, DiagCurrent, SamplePlug, DiagPlug, DiagLock, FireTimer;
    if step.Freq? { FreqFramed(s, step.freq); }
    else if step.Current? { CurrentFramed(s, step.amps); }
    else if step.Poll? { PollFramed(s, step.pilot, step.cc); }
    else { PlainFramed(s, step); }
  }

  lemma VoltSame(s: Con, step: Step)
    requires step.Volt?
    ensures Apply(s, step).cfg == s.cfg && Apply(s, step).state == s.state && Apply(s, step).tries == s.tries
    ensures s.state != Charging ==> Apply(s, step).out.relay == s.out.relay
  {
    hide DiagVoltage;
    VoltFramed(s, step.volt, step.relayOn, step.latched);
  }

  lemma PassSound(s: Con, i: PassInput)
    requires Sound(s)
    ensures Sound(ChargePass(s, i)) && ChargePass(s, i).cfg == s.cfg
  {
    hide CauseOf, FaultsRaised, FaultsCleared, FaultLeft, StopSucceeds, PilotReleased, AfterUnlock, MayStart;
    FaultedSound(s, i);
    if s.state == Stopping { StoppingSound(s, i); }
    if s.state == Unlocking { UnlockingSound(s, i); }
  }

  lemma StepSound(s: Con, step: Step)
    requires Sound(s)
    ensures Sound(Apply(s, step)) && Apply(s, step).cfg == s.cfg
  {
    hide ChargePass, DiagVoltage, DiagFreq, DiagCurrent, DiagPlug, DiagLock, SamplePlug, FireTimer;
    if step.Charge? { PassSound(s, step.inp); }
    else if step.Volt? { VoltSound(s, step.volt, step.relayOn, step.latched); VoltSame(s, step); }
    else { OtherSame(s, step); }
  }

  // ----- whole runs ----------------------------------------------------------

  lemma {:induction false} RunSound(trace: seq<Con>, steps: seq<Step>, n: nat)
    requires IsRun(trace, steps) && n < |trace|
    ensures Sound(trace[n]) && trace[n].cfg == trace[0].cfg
  {
    hide Apply;
    if n > 0 {
      RunSound(trace, steps, n - 1);
      assert StepAt(trace, steps, n - 1);
      StepSound(trace[n - 1], steps[n - 1]);
    }
  }

  /** In every interleaving of charging passes and diagnosis calls: while charging, the relay is commanded closed
      exactly when VoltOK is set, and exactly when the voltage machine has not tripped. */
  lemma VoltageRelayAgreement(trace: seq<Con>, steps: seq<Step>, n: nat)
    requires IsRun(trace, steps) && n < |trace|
    requires trace[n].state == Charging
    ensures trace[n].out.relay <==> VoltOK in trace[n].charge
    ensures VoltOK in trace[n].charge <==> trace[n].diag.volt in {Ok, LowerDummy, UpperDummy}
  {
    RunSound(trace, steps, n);
  }

  /** stop_try is 0 before a stop, below 5 while stopping, and afterwards 0 or 5; unlock_try never passes 5. */
  lemma RetriesBounded(trace: seq<Con>, steps: seq<Step>, n: nat)
    requires IsRun(trace, steps) && n < |trace|
    ensures PreStop(trace[n].state) ==> trace[n].tries == Tries(0, 0, false)
    ensures trace[n].tries.stop <= 5 && trace[n].tries.unlock <= 5
    ensures 0 < trace[n].tries.stop < 5 ==> trace[n].state == Stopping
    ensures trace[n].tries.unlock > 0 ==> trace[n].cfg.socket == TypeB
  {
    RunSound(trace, steps, n);
  }

  /** StartOK, on which the order task waits, is set from the closing of the relay until a stop that succeeded,
      or until the pass after RETURN when the stop gave up. */
  lemma StartOkSpansSession(trace: seq<Con>, steps: seq<Step>, n: nat)
    requires IsRun(trace, steps) && n < |trace|
    ensures StartOK in trace[n].charge <==>
              || trace[n].state == Charging || trace[n].state == Stopping
              || (trace[n].state in {Unlocking, Faulted, DevFaulted, Returning} && trace[n].tries.stop == 5)
  {
    RunSound(trace, steps, n);
  }

  // ----- where the relay can be closed ---------------------------------------

  /** An ERROR pass that lets the connector go while its relay is commanded closed. */
  predicate LetsGoClosed(s: Con, step: Step) {
    && step.Charge? && s.state == Faulted && s.out.relay && !s.tries.dev
    && (!step.inp.relayOn || (s.cfg.socket == TypeB && !step.inp.latched))
  }

  lemma PassConfines(s: Con, i: PassInput)
    requires Sound(s) && Confined(s)
    ensures Confined(ChargePass(s, i)) <==> !LetsGoClosed(s, Charge(i))
  {
    hide CauseOf, FaultsRaised, FaultsCleared, MayStart;
  }

  lemma StepConfines(s: Con, step: Step)
    requires Sound(s) && Confined(s)
    ensures Confined(Apply(s, step)) <==> !LetsGoClosed(s, step)
  {
    hide ChargePass, DiagVoltage, DiagFreq, DiagCurrent, DiagPlug, DiagLock, SamplePlug, FireTimer;
    if step.Charge? { PassConfines(s, step.inp); }
    else if step.Volt? { VoltSame(s, step); }
    else { OtherSame(s, step); }
  }

  lemma {:induction false} ConfinedUpTo(trace: seq<Con>, steps: seq<Step>, n: nat)
    requires IsRun(trace, steps) && n < |trace|
    requires forall k: nat :: k < n ==> !LetsGoClosed(trace[k], steps[k])
    ensures Confined(trace[n])
  {
    hide Apply;
    if n > 0 {
      ConfinedUpTo(trace, steps, n - 1);
      RunSound(trace, steps, n - 1);
      assert StepAt(trace, steps, n - 1);
      StepConfines(trace[n - 1], steps[n - 1]);
    }
  }

  /** For any socket: the relay is commanded closed only in CHARGING, STOPCHARGE, or UNLOCK/ERROR/DEV_ERROR after
      five failed stops, throughout a run, if and only if no ERROR pass lets a connector go with it closed. */
  lemma RelayConfinedExactly(trace: seq<Con>, steps: seq<Step>)
    requires IsRun(trace, steps)
    ensures (forall n: nat :: n < |trace| ==> Confined(trace[n])) <==>
            (forall k: nat :: k < |steps| ==> !LetsGoClosed(trace[k], steps[k]))
  {
    hide Apply;
    if forall k: nat :: k < |steps| ==> !LetsGoClosed(trace[k], steps[k]) {
      forall n: nat | n < |trace| ensures Confined(trace[n]) { ConfinedUpTo(trace, steps, n); }
    }
    if forall n: nat :: n < |trace| ==> Confined(trace[n]) {
      forall k: nat | k < |steps| ensures !LetsGoClosed(trace[k], steps[k]) {
        RunSound(trace, steps, k);
        assert StepAt(trace, steps, k);
        StepConfines(trace[k], steps[k]);
        assert Confined(trace[k + 1]);
      }
    }
  }

  /** A relay that may weld shut but never reads open while commanded closed. */
  predicate Honest(s: Con, step: Step) {
    step.Charge? && s.out.relay ==> step.inp.relayOn
  }

  /** A type C connector whose relay never reads open while commanded closed keeps it commanded open in every
      other state: before a start, in RETURN, and after a stop that succeeded. */
  lemma RelayConfined(trace: seq<Con>, steps: seq<Step>, n: nat)
    requires IsRun(trace, steps) && n < |trace| && trace[0].cfg.socket == TypeC
    requires forall k: nat :: k < |steps| && trace[k].state == Faulted ==> Honest(trace[k], steps[k])
    ensures trace[n].out.relay ==>
              || trace[n].state in {Charging, Stopping}
              || (trace[n].state in {Unlocking, Faulted, DevFaulted} && trace[n].tries.stop == 5)
  {
    hide Apply;
    forall k: nat | k < n ensures !LetsGoClosed(trace[k], steps[k]) { RunSound(trace, steps, k); }
    ConfinedUpTo(trace, steps, n);
  }

  // ----- a relay given up on -------------------------------------------------

  /** A type C connector that has given up stopping with its relay commanded closed. */
  predicate GivenUpClosed(s: Con) {
    s.cfg.socket == TypeC && PostStop(s.state) && s.tries.stop == 5 && s.out.relay
  }

  lemma PassGivenUp(s: Con, i: PassInput)
    requires GivenUpClosed(s)
    ensures GivenUpClosed(ChargePass(s, i)) <==> !LetsGoClosed(s, Charge(i))
  {
    hide FaultsRaised, FaultsCleared, Work, RelaySignal;
  }

  lemma StepGivenUp(s: Con, step: Step)
    requires GivenUpClosed(s)
    ensures GivenUpClosed(Apply(s, step)) <==> !LetsGoClosed(s, step)
  {
    hide ChargePass, DiagVoltage, DiagFreq, DiagCurrent, DiagPlug, DiagLock, SamplePlug, FireTimer;
    if step.Charge? { PassGivenUp(s, step.inp); }
    else if step.Volt? { VoltSame(s, step); }
    else { OtherSame(s, step); }
  }

  /** It stays so, the relay commanded closed and no session possible, exactly as long as no ERROR pass reads the relay
      open and lets it go. */
  lemma {:induction false} GivenUpLasts(trace: seq<Con>, steps: seq<Step>, a: nat, b: nat)
    requires IsPath(trace, steps) && a <= b < |trace| && GivenUpClosed(trace[a])
    ensures (forall m: nat :: a <= m <= b ==> GivenUpClosed(trace[m])) <==>
            (forall k: nat :: a <= k < b ==> !LetsGoClosed(trace[k], steps[k]))
    decreases b - a
  {
    hide Apply, GivenUpClosed, LetsGoClosed;
    if a < b {
      assert StepAt(trace, steps, a);
      StepGivenUp(trace[a], steps[a]);
      if GivenUpClosed(trace[a + 1]) {
        GivenUpLasts(trace, steps, a + 1, b);
      } else {
        assert !(forall m: nat :: a <= m <= b ==> GivenUpClosed(trace[m]));
      }
    }
  }

  /** So it keeps the relay commanded closed for ever, and never charges again, if no ERROR pass reads the closed relay
      open. */
  lemma {:induction false} GivenUpForGood(trace: seq<Con>, steps: seq<Step>, a: nat, b: nat)
    requires IsPath(trace, steps) && a <= b < |trace| && GivenUpClosed(trace[a])
    requires forall k: nat :: a <= k < b && trace[k].state == Faulted ==> Honest(trace[k], steps[k])
    ensures GivenUpClosed(trace[b])
  {
    hide Apply;
    if a < b {
      GivenUpForGood(trace, steps, a, b - 1);
      assert !LetsGoClosed(trace[b - 1], steps[b - 1]);
      assert StepAt(trace, steps, b - 1);
      hide GivenUpClosed, LetsGoClosed;
      StepGivenUp(trace[b - 1], steps[b - 1]);
    }
  }

  /** Such a pass takes it to RETURN with the relay still commanded closed. */
  lemma LetGoClosed(trace: seq<Con>, steps: seq<Step>, k: nat)
    requires IsPath(trace, steps) && k < |steps| && GivenUpClosed(trace[k]) && LetsGoClosed(trace[k], steps[k])
    ensures trace[k + 1].state == Returning && trace[k + 1].out.relay
  {
    hide FaultsRaised, FaultsCleared, Work, RelaySignal;
    assert StepAt(trace, steps, k);
  }
}
