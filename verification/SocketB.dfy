/** What the connectors of a type B socket do that those of type C do not: their latch decides where a stop ends. */
module SocketB {
  import opened Signals
  import opened ChargeSpec
  import opened Runs
  import opened Frames
  import opened Session
  import opened StopPhase
  import opened PowerUp

  // ----- UNLOCK waits for the latch ------------------------------------------

  /** What a step can do to the lock bit, and to a connector in UNLOCK without it. */
  predicate LockRule(s: Con, step: Step, t: Con) {
    && t.cfg == s.cfg
    && (Locked in t.charge && Locked !in s.charge ==> step.LockDiag? && s.out.lock == Lock)
    && (s.state == Unlocking && Locked !in s.charge ==>
          t.state == Unlocking && (t.out.lock == Lock ==> s.out.lock == Lock || step == PollLatch(true)))
  }

  lemma PassLock(s: Con, i: PassInput)
    requires s.cfg.socket == TypeB
    ensures LockRule(s, Charge(i), ChargePass(s, i))
  {
    hide CauseOf, FaultsRaised, FaultsCleared, FaultLeft, PilotReleased;
  }

  lemma StepLock(s: Con, step: Step)
    requires s.cfg.socket == TypeB
    ensures LockRule(s, step, Apply(s, step))
  {
    hide ChargePass, DiagVoltage, DiagFreq, DiagCurrent, SamplePlug, StationWrites;
    if step.Charge? { PassLock(s, step.inp); }
    else if step.Volt? { VoltFramed(s, step.volt, step.relayOn, step.latched); }
    else if step.Freq? { FreqFramed(s, step.freq); }
    else if step.Current? { CurrentFramed(s, step.amps); }
    else if step.Poll? { PollFramed(s, step.pilot, step.cc); }
    else {
      PlainFramed(s, step);
      if step.Station? { StationFramed(s, step.ready); }
    }
  }

  lemma RunLock(trace: seq<Con>, steps: seq<Step>, k: nat)
    requires IsPath(trace, steps) && k < |steps| && trace[k].cfg.socket == TypeB
    ensures LockRule(trace[k], steps[k], trace[k + 1])
  {
    hide Apply;
    assert StepAt(trace, steps, k);
    StepLock(trace[k], steps[k]);
  }

  /** A type B connector in UNLOCK with the lock bit clear leaves it only after a diagnosis call that reads the latch
      closed. */
  lemma {:induction false} UnlockWaits(trace: seq<Con>, steps: seq<Step>, a: nat, b: nat) returns (k: nat)
    requires IsPath(trace, steps) && a <= b < |trace| && trace[a].cfg.socket == TypeB
    requires trace[a].state == Unlocking && Locked !in trace[a].charge && trace[b].state != Unlocking
    ensures a <= k < b && steps[k].LockDiag? && trace[k].out.lock == Lock
    decreases b - a
  {
    hide Apply;
    RunLock(trace, steps, a);
    if Locked in trace[a + 1].charge { k := a; } else { k := UnlockWaits(trace, steps, a + 1, b); }
  }

  /** With the lock bit clear and the latch not read closed, UNLOCK lasts until some reading finds the latch closed:
      an open latch, which is what UNLOCK is for, keeps the connector there. */
  lemma {:induction false} OpenLatchHangs(trace: seq<Con>, steps: seq<Step>, a: nat, b: nat)
    requires IsPath(trace, steps) && a <= b < |trace| && trace[a].cfg.socket == TypeB
    requires trace[a].state == Unlocking && Locked !in trace[a].charge && trace[a].out.lock != Lock
    requires forall k :: a <= k < b ==> steps[k] != PollLatch(true)
    ensures trace[b].state == Unlocking && Locked !in trace[b].charge
    decreases b - a
  {
    hide Apply;
    if a < b {
      RunLock(trace, steps, a);
      OpenLatchHangs(trace, steps, a + 1, b);
    }
  }

  // ----- how long UNLOCK lasts, and where it ends ----------------------------

  /** Step k is a charging pass that finds the lock bit set, and so works the latch. */
  ghost predicate WorksLatch(trace: seq<Con>, steps: seq<Step>, k: nat)
    requires k < |steps| < |trace|
  {
    steps[k].Charge? && Locked in trace[k].charge
  }

  /** Such passes among steps a..b. */
  ghost function LatchPasses(trace: seq<Con>, steps: seq<Step>, a: nat, b: nat): nat
    requires a <= b <= |steps| < |trace|
    decreases b - a
  {
    if a == b then 0 else (if WorksLatch(trace, steps, a) then 1 else 0) + LatchPasses(trace, steps, a + 1, b)
  }

  /** Step k is no pass that ends UNLOCK at once: one that reads the latch open, or finds a device error. */
  ghost predicate Retries(trace: seq<Con>, steps: seq<Step>, k: nat)
    requires k < |steps| < |trace|
  {
    WorksLatch(trace, steps, k) ==> steps[k].inp.latched && !trace[k].tries.dev
  }

  ghost predicate InUnlock(trace: seq<Con>, a: nat, b: nat)
    requires b < |trace|
  {
    forall m: nat :: a <= m <= b ==> trace[m].state == Unlocking
  }

  lemma LatchPass(trace: seq<Con>, steps: seq<Step>, k: nat)
    requires IsPath(trace, steps) && k < |steps| && trace[k].cfg.socket == TypeB && trace[k].state == Unlocking
    ensures var s, t := trace[k], trace[k + 1];
            && t.cfg == s.cfg
            && if !WorksLatch(trace, steps, k) then t.state == Unlocking && t.tries == s.tries
               else if !steps[k].inp.latched then t.state == AfterUnlock(s.tries)
               else t.tries == s.tries.(unlock := s.tries.unlock + 1) &&
                    t.state == if s.tries.unlock + 1 >= 5 || s.tries.dev then Faulted else Unlocking
  {
    hide AfterUnlock;
    if !steps[k].Charge? { OutsideSame(trace, steps, k); }
    else { assert StepAt(trace, steps, k); }
    hide Apply;
  }

  lemma LeavesFor(t: Tries)
    ensures AfterUnlock(t) != Unlocking
  {
  }

  /** A type B connector stays in UNLOCK exactly as long as fewer than five passes in all have worked the latch, none of
      them with a device error and none reading it open. */
  lemma {:induction false} UnlockLasts(trace: seq<Con>, steps: seq<Step>, a: nat, b: nat)
    requires IsPath(trace, steps) && a <= b < |trace| && trace[a].cfg.socket == TypeB
    requires trace[a].state == Unlocking && trace[a].tries.unlock < 5
    ensures InUnlock(trace, a, b) <==>
              && LatchPasses(trace, steps, a, b) < 5 - trace[a].tries.unlock
              && forall k: nat :: a <= k < b ==> Retries(trace, steps, k)
    decreases b - a
  {
    hide Apply, AfterUnlock;
    if a < b {
      LatchPass(trace, steps, a);
      LeavesFor(trace[a].tries);
      if trace[a + 1].state == Unlocking {
        UnlockLasts(trace, steps, a + 1, b);
        assert InUnlock(trace, a, b) <==> InUnlock(trace, a + 1, b);
      } else {
        assert !InUnlock(trace, a, b);
        assert LatchPasses(trace, steps, a, b) >= 1;
        assert Retries(trace, steps, a) ==> trace[a].tries.unlock + 1 >= 5;
      }
    }
  }

  lemma {:induction false} StillUnlocking(trace: seq<Con>, steps: seq<Step>, u: nat, c: nat)
    requires IsPath(trace, steps) && u <= c < |trace| && InUnlock(trace, u, c) && trace[u].cfg.socket == TypeB
    ensures trace[c].cfg == trace[u].cfg
    ensures trace[c].tries == trace[u].tries.(unlock := trace[c].tries.unlock)
    decreases c - u
  {
    hide Apply, WorksLatch;
    if u < c {
      LatchPass(trace, steps, u);
      LeavesFor(trace[u].tries);
      hide AfterUnlock;
      StillUnlocking(trace, steps, u + 1, c);
    }
  }

  /** The stop phase of a type B connector: within five passes of StopCharge it is in UNLOCK; it stays there exactly as
      long as UnlockLasts says, which may be for ever; and it is left for RETURN exactly when the pass read the latch
      open, some StopCharge had returned ERR_NO and the stop was not for a device fault, else for ERROR. */
  lemma StopPhaseEndsB(trace: seq<Con>, steps: seq<Step>, a: nat, b: nat) returns (u: nat)
    requires IsRun(trace, steps) && 0 < a <= b <= |steps| && trace[0].cfg.socket == TypeB
    requires trace[a].state == Stopping && trace[a - 1].state != Stopping
    requires Passes(steps, a, b) >= 5
    ensures a < u <= b && 1 <= Passes(steps, a, u) <= 5 && trace[u].state == Unlocking
    ensures forall m :: a <= m < u ==> trace[m].state == Stopping
    ensures forall c: nat :: u <= c < |trace| ==>
              (InUnlock(trace, u, c) <==>
                 LatchPasses(trace, steps, u, c) < 5 && forall k: nat :: u <= k < c ==> Retries(trace, steps, k))
    ensures forall c: nat :: u <= c < |steps| && InUnlock(trace, u, c) && trace[c + 1].state != Unlocking ==>
              && WorksLatch(trace, steps, c)
              && trace[c + 1].state ==
                   if !steps[c].inp.latched && !trace[a].tries.dev &&
                      exists m: nat :: a <= m < u && SucceedsAt(trace, steps, m)
                   then Returning else Faulted
  {
    hide Apply, StopSucceeds, Retries;
    RunSound(trace, steps, a);
    RunSound(trace, steps, a - 1);
    EntersWithNoTries(trace, steps, a - 1);
    u := StopPassesEnd(trace, steps, a, b);
    forall c: nat | u <= c < |trace|
      ensures InUnlock(trace, u, c) <==>
                LatchPasses(trace, steps, u, c) < 5 && forall k: nat :: u <= k < c ==> Retries(trace, steps, k)
    {
      UnlockLasts(trace, steps, u, c);
    }
    forall c: nat | u <= c < |steps| && InUnlock(trace, u, c) && trace[c + 1].state != Unlocking
      ensures WorksLatch(trace, steps, c)
      ensures trace[c + 1].state ==
                if !steps[c].inp.latched && !trace[a].tries.dev &&
                      exists m: nat :: a <= m < u && SucceedsAt(trace, steps, m)
                then Returning else Faulted
    {
      StillUnlocking(trace, steps, u, c);
      LatchPass(trace, steps, c);
    }
  }

  // ----- runs that go wrong --------------------------------------------------

  /** The three passes that follow, on an open latch. */
  lemma LatchOpens(s: Con)
    requires s.cfg == Cfg(TypeB) && s.state == Unlocking && s.tries == Tries(5, 0, false)
    requires Locked in s.charge && s.out.relay
    ensures var t := ChargePass(s, WELDED);
            t.cfg == Cfg(TypeB) && t.state == Faulted && t.tries == Tries(5, 0, false) && t.out.relay
  {
  }

  lemma FaultLetsGo(s: Con)
    requires s.cfg == Cfg(TypeB) && s.state == Faulted && s.tries == Tries(5, 0, false) && s.out.relay
    ensures var t := ChargePass(s, WELDED); t.state == Returning && t.out.relay
  {
    hide FaultsRaised, FaultsCleared, Work;
  }

  lemma ReturnsIdle(s: Con)
    requires s.state == Returning && s.out.relay
    ensures var t := ChargePass(s, WELDED); t.state == Idle && t.out.relay
  {
  }

  /** Of a type B connector the claim of RelayConfined is false: a run in which every stop fails, no pass reads the
      relay open while it is commanded closed and only the latch opens brings it back to IDLE with the relay commanded
      closed. */
  lemma IdleWithRelayClosed() returns (trace: seq<Con>, steps: seq<Step>)
    ensures IsRun(trace, steps) && trace[0].cfg.socket == TypeB
    ensures forall k: nat :: k < |steps| ==> Honest(trace[k], steps[k])
    ensures trace[|trace| - 1].state == Idle && trace[|trace| - 1].out.relay
  {
    hide ChargePass;
    var s := StopsFailed(TypeB, 5);
    Extend(TypeB, s, Charge(WELDED));
    LatchOpens(s);
    s := Apply(s, Charge(WELDED));
    Extend(TypeB, s, Charge(WELDED));
    FaultLetsGo(s);
    s := Apply(s, Charge(WELDED));
    Extend(TypeB, s, Charge(WELDED));
    ReturnsIdle(s);
    s := Apply(s, Charge(WELDED));
    hide Apply;
    trace, steps :| EndsIn(trace, steps, TypeB, s);
  }

  /** While charging the voltage stays low for its whole delay. */
  lemma TripsSoon() returns (s: Con)
    ensures Reachable(TypeB, s) && s.words.fault == {} && s == Start(TypeB).(
              clock := 3500, state := Charging, charge := CHARGE_CONDITION + {StartOK}, words := s.words,
              exc := {VoltTimer}, pilot := Pilot(Cp6Pwm, 0, Plug, 100), diag := Diag(LowerDummy, CurrNormal, Ok),
              out := Outputs(true, true, true, Lock, true))
  {
    hide ChargePass, DiagFreq, DiagCurrent, SamplePlug, DiagPlug, DiagLock, StationWrites;
    var p := Closes(TypeB);
    Extend(TypeB, p, Volt(180.0, true, true));
    s := Apply(p, Volt(180.0, true, true));
    assert s == p.(words := s.words, diag := Diag(LowerDummy, CurrNormal, Ok),
                   timers := p.timers.(volt := Running(3500)));
    assert s.words.fault == {};
    hide DiagVoltage;
    Extend(TypeB, s, Tick(3000));
    s := Apply(s, Tick(3000));
    Extend(TypeB, s, Fire(VoltT));
    s := Apply(s, Fire(VoltT));
  }

  /** The trip opens the relay and the latch. */
  lemma TripOpens() returns (s: Con)
    ensures Reachable(TypeB, s) && s.words.fault == {} && s.cfg == Cfg(TypeB) && s.state == Charging && s.exc == {}
    ensures s.tries == Tries(0, 0, false) && s.pilot == Pilot(Cp6Pwm, 0, Plug, 100)
    ensures s.out == Outputs(false, false, false, Unlock, true)
  {
    hide ChargePass, DiagFreq, DiagCurrent, SamplePlug, DiagPlug, DiagLock, StationWrites, VoltAlarm, FireTimer;
    var p := TripsSoon();
    Extend(TypeB, p, Volt(180.0, false, false));
    s := Apply(p, Volt(180.0, false, false));
  }

  /** The lock diagnosis clears the lock bit, and the platform asks for a stop. */
  lemma AskedUnlocked() returns (s: Con)
    ensures Reachable(TypeB, s) && s.words.fault == {} && s.cfg == Cfg(TypeB)
    ensures s.state == Charging && s.exc == {RemoteStop}
    ensures s.tries == Tries(0, 0, false) && s.pilot == Pilot(Cp6Pwm, 0, Plug, 100)
    ensures s.out == Outputs(false, false, false, Unlock, true) && Locked !in s.charge
  {
    hide ChargePass, DiagVoltage, DiagFreq, DiagCurrent, SamplePlug, DiagPlug, StationWrites, FireTimer;
    var p := TripOpens();
    Extend(TypeB, p, LockDiag);
    s := Apply(p, LockDiag);
    hide DiagLock;
    Extend(TypeB, s, Demand(RemoteStop));
    s := Apply(s, Demand(RemoteStop));
  }

  /** A pass that finds the demand and no device fault. */
  lemma StopStarts(s: Con)
    requires s.state == Charging && s.words.fault == {} && s.exc == {RemoteStop}
    ensures var t := ChargePass(s, QUIET);
            && t.state == Stopping && t.cfg == s.cfg && t.tries == s.tries && t.out == s.out && t.pilot == s.pilot
            && t.charge == s.charge
  {
    hide ConditionCause;
  }

  lemma StopFirst(s: Con)
    requires s.state == Stopping && s.pilot.cp == Cp6Pwm && s.tries == Tries(0, 0, false)
    ensures var t := ChargePass(s, QUIET);
            && t.state == Stopping && t.cfg == s.cfg && t.tries == Tries(1, 0, false) && t.pilot == s.pilot
            && t.out == s.out.(pwm := false) && (Locked in t.charge <==> Locked in s.charge)
  {
    hide SetRelay;
  }

  lemma PilotLeavesPwm(s: Con)
    requires s.cfg.socket == TypeB && !s.out.pwm
    ensures SamplePlug(s, 6.0, true) ==
            s.(words := SamplePlug(s, 6.0, true).words, pilot := s.pilot.(cp := Cp6, errCont := 0, plug := Plug))
  {
  }

  lemma StopSecond(s: Con)
    requires s.state == Stopping && s.pilot.cp == Cp6 && s.tries == Tries(1, 0, false)
    ensures var t := ChargePass(s, QUIET);
            && t.state == Unlocking && t.tries == Tries(0, 0, false) && !t.out.relay
            && t.out.lock == s.out.lock && t.cfg == s.cfg && (Locked in t.charge <==> Locked in s.charge)
  {
  }

  /** A run with an open latch that reaches UNLOCK after a stop that succeeded, and hangs there: however it goes on, it
      stays in UNLOCK until a reading finds the latch closed. */
  lemma HangsInUnlock() returns (trace: seq<Con>, steps: seq<Step>)
    ensures IsRun(trace, steps) && trace[0].cfg.socket == TypeB && |steps| > 0
    ensures forall k: nat :: k < |steps| ==> Honest(trace[k], steps[k])
    ensures var s := trace[|trace| - 1];
            && s.state == Unlocking && Locked !in s.charge && s.out.lock == Unlock
            && !s.out.relay && s.tries == Tries(0, 0, false)
    ensures forall on: seq<Con>, more: seq<Step> ::
              IsPath(on, more) && on[0] == trace[|trace| - 1] && PollLatch(true) !in more ==>
                on[|on| - 1].state == Unlocking
  {
    hide ChargePass, SamplePlug;
    var s := AskedUnlocked();
    Extend(TypeB, s, Charge(QUIET));
    StopStarts(s);
    s := Apply(s, Charge(QUIET));
    Extend(TypeB, s, Charge(QUIET));
    StopFirst(s);
    s := Apply(s, Charge(QUIET));
    Extend(TypeB, s, Poll(6.0, true));
    PilotLeavesPwm(s);
    s := Apply(s, Poll(6.0, true));
    Extend(TypeB, s, Charge(QUIET));
    StopSecond(s);
    s := Apply(s, Charge(QUIET));
    hide Apply;
    trace, steps :| EndsIn(trace, steps, TypeB, s);
    assert |steps| > 0;
    forall on: seq<Con>, more: seq<Step> | IsPath(on, more) && on[0] == s && PollLatch(true) !in more
      ensures on[|on| - 1].state == Unlocking
    {
      OpenLatchHangs(on, more, 0, |more|);
    }
  }
}
