/** The stop phase of a type C connector: how many passes it takes and where it ends. */
module StopPhase {
  import opened Signals
  import opened ChargeSpec
  import opened Runs
  import opened Frames
  import opened Session

  /** Charging passes among steps a..b. */
  function Passes(steps: seq<Step>, a: nat, b: nat): nat
    requires a <= b <= |steps|
    decreases b - a
  {
    if a == b then 0 else (if steps[a].Charge? then 1 else 0) + Passes(steps, a + 1, b)
  }

  /** Step k is a charging pass whose StopCharge returns ERR_NO. */
  ghost predicate SucceedsAt(trace: seq<Con>, steps: seq<Step>, k: nat)
    requires k < |steps| < |trace|
  {
    trace[k].state == Stopping && steps[k].Charge? && StopSucceeds(trace[k], steps[k].inp)
  }

  lemma OutsideSame(trace: seq<Con>, steps: seq<Step>, k: nat)
    requires IsPath(trace, steps) && k < |steps| && !steps[k].Charge?
    ensures trace[k + 1].state == trace[k].state && trace[k + 1].tries == trace[k].tries
    ensures trace[k + 1].cfg == trace[k].cfg
  {
    hide Apply;
    assert StepAt(trace, steps, k);
    if steps[k].Volt? { VoltSame(trace[k], steps[k]); } else { OtherSame(trace[k], steps[k]); }
  }

  lemma StopPass(trace: seq<Con>, steps: seq<Step>, k: nat)
    requires IsPath(trace, steps) && k < |steps| && steps[k].Charge? && trace[k].state == Stopping
    ensures var s, t := trace[k], trace[k + 1];
            && t.cfg == s.cfg
            && t.tries == s.tries.(stop := if SucceedsAt(trace, steps, k) then 0 else s.tries.stop + 1)
            && t.state == if SucceedsAt(trace, steps, k) || s.tries.stop + 1 >= 5 then Unlocking else Stopping
  {
    assert StepAt(trace, steps, k);
    hide StopSucceeds, PilotReleased;
  }

  lemma UnlockPass(trace: seq<Con>, steps: seq<Step>, k: nat)
    requires IsPath(trace, steps) && k < |steps| && steps[k].Charge? && trace[k].state == Unlocking
    requires trace[k].cfg.socket == TypeC
    ensures trace[k + 1].state == AfterUnlock(trace[k].tries)
  {
    assert StepAt(trace, steps, k);
  }

  /** From UNLOCK one pass is enough. */
  lemma {:induction false} UnlockEnds(trace: seq<Con>, steps: seq<Step>, j: nat, b: nat) returns (k: nat)
    requires IsPath(trace, steps) && j <= b <= |steps| && Passes(steps, j, b) >= 1
    requires trace[j].state == Unlocking && trace[j].cfg.socket == TypeC
    ensures j < k <= b && Passes(steps, j, k) == 1
    ensures forall m :: j <= m < k ==> trace[m].state == Unlocking
    ensures trace[k].state == AfterUnlock(trace[j].tries)
    decreases b - j
  {
    hide Apply;
    if steps[j].Charge? {
      UnlockPass(trace, steps, j);
      k := j + 1;
    } else {
      OutsideSame(trace, steps, j);
      k := UnlockEnds(trace, steps, j + 1, b);
    }
  }

  /** From STOPCHARGE the passes of StopCharge lead to UNLOCK, whatever the socket. */
  lemma {:induction false} StopPassesEnd(trace: seq<Con>, steps: seq<Step>, j: nat, b: nat) returns (u: nat)
    requires IsPath(trace, steps) && j <= b <= |steps| && trace[j].state == Stopping && trace[j].tries.stop < 5
    requires Passes(steps, j, b) >= 5 - trace[j].tries.stop
    ensures j < u <= b && 1 <= Passes(steps, j, u) <= 5 - trace[j].tries.stop
    ensures trace[u].state == Unlocking && forall m :: j <= m < u ==> trace[m].state == Stopping
    ensures trace[u].cfg == trace[j].cfg && trace[u].tries == trace[j].tries.(stop := trace[u].tries.stop)
    ensures trace[u].tries.stop == 0 <==> exists m: nat :: j <= m < u && SucceedsAt(trace, steps, m)
    decreases b - j
  {
    hide Apply, StopSucceeds;
    if !steps[j].Charge? {
      OutsideSame(trace, steps, j);
      u := StopPassesEnd(trace, steps, j + 1, b);
    } else {
      StopPass(trace, steps, j);
      if trace[j + 1].state == Unlocking {
        u := j + 1;
      } else {
        u := StopPassesEnd(trace, steps, j + 1, b);
      }
    }
  }

  lemma {:induction false} StopEnds(trace: seq<Con>, steps: seq<Step>, j: nat, b: nat) returns (k: nat)
    requires IsPath(trace, steps) && j <= b <= |steps|
    requires trace[j].state == Stopping && trace[j].cfg.socket == TypeC && trace[j].tries.stop < 5
    requires Passes(steps, j, b) >= 6 - trace[j].tries.stop
    ensures j < k <= b && 2 <= Passes(steps, j, k) <= 6 - trace[j].tries.stop
    ensures forall m :: j <= m < k ==> trace[m].state == Stopping || trace[m].state == Unlocking
    ensures trace[k].state == Returning || trace[k].state == Faulted
    ensures trace[k].state == Returning <==>
              !trace[j].tries.dev && exists m: nat :: j <= m < k && SucceedsAt(trace, steps, m)
    decreases b - j
  {
    hide Apply, StopSucceeds;
    if !steps[j].Charge? {
      OutsideSame(trace, steps, j);
      k := StopEnds(trace, steps, j + 1, b);
    } else {
      StopPass(trace, steps, j);
      if trace[j + 1].state == Unlocking {
        k := UnlockEnds(trace, steps, j + 1, b);
      } else {
        k := StopEnds(trace, steps, j + 1, b);
      }
    }
  }

  lemma EntersWithNoTries(trace: seq<Con>, steps: seq<Step>, k: nat)
    requires IsPath(trace, steps) && k < |steps| && Sound(trace[k])
    requires trace[k].state != Stopping && trace[k + 1].state == Stopping
    ensures trace[k + 1].tries.stop == 0
  {
    hide CauseOf, FaultsRaised, FaultsCleared, FaultLeft;
    assert StepAt(trace, steps, k);
    if !steps[k].Charge? { OutsideSame(trace, steps, k); }
    hide Apply;
  }

  /** A type C connector that enters STOPCHARGE leaves the stop phase within six charging passes, five of StopCharge
      and one of UNLOCK, whatever else runs between them. It ends in RETURN exactly when one StopCharge returned
      ERR_NO and the stop was not for a device fault, and in ERROR otherwise. */
  lemma StopPhaseEnds(trace: seq<Con>, steps: seq<Step>, a: nat, b: nat) returns (k: nat)
    requires IsRun(trace, steps) && 0 < a <= b <= |steps| && trace[0].cfg.socket == TypeC
    requires trace[a].state == Stopping && trace[a - 1].state != Stopping
    requires Passes(steps, a, b) >= 6
    ensures a < k <= b && 2 <= Passes(steps, a, k) <= 6
    ensures forall m :: a <= m < k ==> trace[m].state == Stopping || trace[m].state == Unlocking
    ensures trace[k].state == Returning || trace[k].state == Faulted
    ensures trace[k].state == Returning <==>
              !trace[a].tries.dev && exists m: nat :: a <= m < k && SucceedsAt(trace, steps, m)
  {
    hide Apply, StopSucceeds;
    RunSound(trace, steps, a);
    RunSound(trace, steps, a - 1);
    EntersWithNoTries(trace, steps, a - 1);
    k := StopEnds(trace, steps, a, b);
  }

  // ----- giving up with the relay closed -------------------------------------

  /** Step k is a charging pass that finds the pilot out of PWM, or in error. */
  ghost predicate ReleasesPilot(trace: seq<Con>, steps: seq<Step>, k: nat)
    requires k < |steps| < |trace|
  {
    steps[k].Charge? && PilotReleased(trace[k].pilot.cp)
  }

  lemma StoppingRelay(trace: seq<Con>, steps: seq<Step>, k: nat)
    requires IsPath(trace, steps) && k < |steps| && trace[k].state == Stopping
    ensures trace[k + 1].out.relay <==> trace[k].out.relay && !ReleasesPilot(trace, steps, k)
  {
    assert StepAt(trace, steps, k);
    if steps[k].Volt? { VoltSame(trace[k], steps[k]); }
    else if !steps[k].Charge? { OtherSame(trace[k], steps[k]); }
    hide DiagVoltage, DiagFreq, DiagCurrent, SamplePlug, DiagPlug, DiagLock, FireTimer, StationWrites, PilotReleased;
  }

  /** Through STOPCHARGE, for any socket, the relay stays commanded closed exactly when it was and no pass finds the
      pilot out of PWM. */
  lemma {:induction false} RelayThroughStop(trace: seq<Con>, steps: seq<Step>, j: nat, u: nat)
    requires IsPath(trace, steps) && j <= u < |trace| && forall m :: j <= m < u ==> trace[m].state == Stopping
    ensures trace[u].out.relay <==>
              trace[j].out.relay && forall k: nat :: j <= k < u ==> !ReleasesPilot(trace, steps, k)
    decreases u - j
  {
    hide Apply, ReleasesPilot;
    if j < u {
      StoppingRelay(trace, steps, j);
      RelayThroughStop(trace, steps, j + 1, u);
    }
  }

  /** When a stop phase gives up with the relay commanded closed: a connector of any socket that enters STOPCHARGE is in
      UNLOCK within five passes, and then it has five failed stops and the relay commanded closed exactly when the relay
      was commanded closed on entry and no pass found the pilot out of PWM. */
  lemma GivesUpClosedExactly(trace: seq<Con>, steps: seq<Step>, a: nat, b: nat) returns (u: nat)
    requires IsRun(trace, steps) && 0 < a <= b <= |steps|
    requires trace[a].state == Stopping && trace[a - 1].state != Stopping
    requires Passes(steps, a, b) >= 5
    ensures a < u <= b && Passes(steps, a, u) <= 5 && trace[u].state == Unlocking
    ensures forall m :: a <= m < u ==> trace[m].state == Stopping
    ensures trace[u].tries.stop == 5 && trace[u].out.relay <==>
              trace[a].out.relay && forall k: nat :: a <= k < u ==> !ReleasesPilot(trace, steps, k)
    ensures trace[0].cfg.socket == TypeC ==>
              (GivenUpClosed(trace[u]) <==>
                 trace[a].out.relay && forall k: nat :: a <= k < u ==> !ReleasesPilot(trace, steps, k))
  {
    hide Apply;
    RunSound(trace, steps, a);
    RunSound(trace, steps, a - 1);
    EntersWithNoTries(trace, steps, a - 1);
    u := StopPassesEnd(trace, steps, a, b);
    RunSound(trace, steps, u);
    RelayThroughStop(trace, steps, a, u);
    if forall k: nat :: a <= k < u ==> !ReleasesPilot(trace, steps, k) {
      forall m: nat | a <= m < u ensures !SucceedsAt(trace, steps, m) { assert !ReleasesPilot(trace, steps, m); }
    }
  }
}
