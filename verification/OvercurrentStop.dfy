/** What ends a charge under overcurrent: not the lock-out's alarm before the lock-out. */
module OvercurrentStop {
  import opened Signals
  import opened ChargeSpec
  import opened Runs
  import opened Frames
  import opened Session
  import opened LockOut
  import opened PassLaws
  import opened CurrentHistory
  import opened PowerUp

  predicate Delaying(c: CurrState) { c == CurrUpperDummy || c == CurrUpperFix }

  /** The critical alarm is off while a delay runs. */
  predicate AlarmWaits(s: Con) { Delaying(s.diag.curr) ==> CurrUpCri !in s.words.alarm }

  lemma CallAlarm(s: Con, a: real)
    requires AlarmWaits(s)
    ensures AlarmWaits(DiagCurrent(s, a))
    ensures LocksOut(s, Current(a)) ==> CurrUpCri in DiagCurrent(s, a).words.alarm
  {
    hide OverCurrent;
  }

  lemma StepAlarm(s: Con, step: Step)
    requires AlarmWaits(s)
    ensures AlarmWaits(Apply(s, step))
    ensures LocksOut(s, step) ==> CurrUpCri in Apply(s, step).words.alarm
  {
    hide ChargePass, DiagVoltage, DiagFreq, DiagCurrent, SamplePlug, DiagPlug, DiagLock, FireTimer, StationWrites;
    if step.Charge? { PassFramed(s, step.inp); }
    else if step.Volt? { VoltFramed(s, step.volt, step.relayOn, step.latched); }
    else if step.Freq? { FreqFramed(s, step.freq); }
    else if step.Current? { CallAlarm(s, step.amps); }
    else if step.Poll? { PollFramed(s, step.pilot, step.cc); }
    else { PlainFramed(s, step); }
  }

  lemma {:induction false} RunAlarm(trace: seq<Con>, steps: seq<Step>, n: nat)
    requires IsRun(trace, steps) && n < |trace|
    ensures AlarmWaits(trace[n])
  {
    hide Apply;
    if n > 0 {
      RunAlarm(trace, steps, n - 1);
      assert StepAt(trace, steps, n - 1);
      StepAlarm(trace[n - 1], steps[n - 1]);
    }
  }

  /** In the delays no pass of CHARGING stops for the overcurrent or records it. */
  lemma WaitingAlarmStopsNothing(s: Con, i: PassInput)
    requires Delaying(s.diag.curr) && AlarmWaits(s)
    ensures CauseOf(s, i) != ByAlarm(StopCurr)
    ensures s.state == Charging ==> (StopCurr in ChargePass(s, i).stops <==> StopCurr in s.stops)
  {
    hide DeviceFaulty;
  }

  // ----- charging through the delays -----------------------------------------

  /** Every pass among steps a..b finds what a charge needs to go on. */
  ghost predicate NothingStops(trace: seq<Con>, steps: seq<Step>, a: nat, b: nat)
    requires b <= |steps| < |trace|
  {
    forall k: nat :: a <= k < b && steps[k].Charge? ==> GoesOn(trace[k], steps[k].inp)
  }

  ghost predicate ChargesAll(trace: seq<Con>, a: nat, b: nat)
    requires b < |trace|
  {
    forall k: nat :: a <= k <= b ==> trace[k].state == Charging
  }

  lemma ChargingStep(trace: seq<Con>, steps: seq<Step>, k: nat)
    requires IsPath(trace, steps) && k < |steps| && trace[k].state == Charging
    ensures trace[k + 1].state == Charging <==> (steps[k].Charge? ==> GoesOn(trace[k], steps[k].inp))
  {
    hide ChargePass, GoesOn;
    assert StepAt(trace, steps, k);
    if steps[k].Charge? { ChargingGoesOn(trace[k], steps[k].inp); }
    else if steps[k].Volt? { VoltSame(trace[k], steps[k]); }
    else { OtherSame(trace[k], steps[k]); }
    hide DiagVoltage, DiagFreq, DiagCurrent, SamplePlug, DiagPlug, DiagLock, FireTimer, StationWrites;
  }

  lemma {:induction false} ChargesWhile(trace: seq<Con>, steps: seq<Step>, a: nat, b: nat)
    requires IsPath(trace, steps) && a <= b < |trace| && trace[a].state == Charging
    ensures ChargesAll(trace, a, b) <==> NothingStops(trace, steps, a, b)
    decreases b - a
  {
    hide Apply, GoesOn;
    if a < b {
      ChargingStep(trace, steps, a);
      if trace[a + 1].state == Charging {
        ChargesWhile(trace, steps, a + 1, b);
        assert ChargesAll(trace, a, b) <==> ChargesAll(trace, a + 1, b);
        assert NothingStops(trace, steps, a, b) <==> NothingStops(trace, steps, a + 1, b);
      } else {
        assert !ChargesAll(trace, a, b);
      }
    }
  }

  /** Before a lock-out, in both its delays, no pass stops for the overcurrent. A connector that charges when the delays
      begin therefore charges until the lock-out, unless a pass finds another cause; only then the alarm is raised that
      makes a pass stop for the overcurrent. */
  lemma ChargesUntilLockOut(trace: seq<Con>, steps: seq<Step>, n: nat) returns (l: nat)
    requires IsRun(trace, steps) && n < |steps| && LocksOut(trace[n], steps[n])
    ensures l < n && trace[n].clock >= trace[l].clock + 4000
    ensures forall k: nat, i: PassInput :: l < k <= n ==> CauseOf(trace[k], i) != ByAlarm(StopCurr)
    ensures forall k: nat, i: PassInput :: l < k <= n && trace[k].state == Charging ==>
              (StopCurr in ChargePass(trace[k], i).stops <==> StopCurr in trace[k].stops)
    ensures trace[l].state == Charging ==> (ChargesAll(trace, l, n) <==> NothingStops(trace, steps, l, n))
    ensures CurrUpCri !in trace[n].words.alarm && CurrUpCri in trace[n + 1].words.alarm
  {
    hide Apply, CauseOf, OverAt, LocksOut, ChargePass, GoesOn;
    var m;
    l, m := LockOutHistory(trace, steps, n);
    forall k: nat, i: PassInput | l < k <= n
      ensures CauseOf(trace[k], i) != ByAlarm(StopCurr)
      ensures trace[k].state == Charging ==> (StopCurr in ChargePass(trace[k], i).stops <==> StopCurr in trace[k].stops)
    {
      RunAlarm(trace, steps, k);
      WaitingAlarmStopsNothing(trace[k], i);
    }
    if trace[l].state == Charging { ChargesWhile(trace, steps, l, n); }
    RunAlarm(trace, steps, n);
    assert StepAt(trace, steps, n);
    StepAlarm(trace[n], steps[n]);
  }

  // ----- a run that charges in the error state -------------------------------

  lemma DelayRuns(s: Con, ms: nat)
    requires s.timers == Timers(Stopped, Running(s.clock + ms), Stopped, Stopped) && s.exc == {}
    ensures Apply(Apply(s, Tick(ms)), Fire(CurrT)) ==
            s.(clock := s.clock + ms, exc := {CurrTimer}, timers := Timers(Stopped, Stopped, Stopped, Stopped))
  {
    hide ChargePass, DiagVoltage, DiagFreq, DiagCurrent, SamplePlug, DiagPlug, DiagLock, StationWrites;
  }

  /** A sample finds the current over limit. */
  lemma OverLimit(k: Socket) returns (s: Con)
    ensures Reachable(k, s) && s == Start(k).(
              clock := 500, state := Charging, charge := CHARGE_CONDITION + {StartOK}, words := s.words,
              timers := Timers(Stopped, Running(2500), Stopped, Stopped), pilot := Pilot(Cp6Pwm, 0, Plug, 100),
              diag := Diag(Ok, CurrUpperDummy, Ok), out := ClosedLatch(k, true))
  {
    hide ChargePass, DiagVoltage, DiagFreq, SamplePlug, DiagPlug, DiagLock, StationWrites, FireTimer;
    var p := Closes(k);
    assert ClosedLatch(k, true).pwm && OverCurrent(p.cfg, 50.0);
    hide ClosedLatch, OverCurrent;
    Extend(k, p, Current(50.0));
    s := Apply(p, Current(50.0));
  }

  /** The current stays over limit for the first delay. */
  lemma FirstDelayRuns(k: Socket) returns (s: Con)
    ensures Reachable(k, s) && s == Start(k).(
              clock := 2500, state := Charging, charge := CHARGE_CONDITION + {StartOK}, words := s.words,
              exc := {CurrTimer}, pilot := Pilot(Cp6Pwm, 0, Plug, 100), diag := Diag(Ok, CurrUpperDummy, Ok),
              out := ClosedLatch(k, true))
  {
    hide ChargePass, DiagVoltage, DiagFreq, DiagCurrent, SamplePlug, DiagPlug, DiagLock, StationWrites, ClosedLatch;
    var p := OverLimit(k);
    hide Apply;
    Extend(k, p, Tick(2000));
    Extend(k, Apply(p, Tick(2000)), Fire(CurrT));
    DelayRuns(p, 2000);
    s := Apply(Apply(p, Tick(2000)), Fire(CurrT));
  }

  /** And for the second. */
  lemma SecondDelayRuns(k: Socket) returns (s: Con)
    ensures Reachable(k, s) && s == Start(k).(
              clock := 4500, state := Charging, charge := CHARGE_CONDITION + {StartOK}, words := s.words,
              exc := {CurrTimer}, pilot := Pilot(Cp6Pwm, 0, Plug, 100), diag := Diag(Ok, CurrUpperFix, Ok),
              out := ClosedLatch(k, true))
  {
    hide ChargePass, DiagVoltage, DiagFreq, SamplePlug, DiagPlug, DiagLock, StationWrites, ClosedLatch, OverCurrent;
    var p := FirstDelayRuns(k);
    Extend(k, p, Current(50.0));
    s := Apply(p, Current(50.0));
    assert s == p.(words := s.words, exc := {}, diag := Diag(Ok, CurrUpperFix, Ok),
                   timers := Timers(Stopped, Running(4500), Stopped, Stopped));
    hide DiagCurrent, Apply;
    DelayRuns(s, 2000);
    Extend(k, s, Tick(2000));
    s := Apply(s, Tick(2000));
    Extend(k, s, Fire(CurrT));
    s := Apply(s, Fire(CurrT));
  }

  /** For either socket a run that reaches the error state of the current machine while charging, its relay closed. */
  lemma ChargesInErrorState(k: Socket) returns (trace: seq<Con>, steps: seq<Step>)
    ensures IsRun(trace, steps) && trace[0].cfg.socket == k
    ensures var s := trace[|trace| - 1]; s.state == Charging && s.diag.curr == CurrError && s.out.relay
  {
    hide ChargePass, DiagVoltage, DiagFreq, SamplePlug, DiagPlug, DiagLock, StationWrites, FireTimer;
    var p := SecondDelayRuns(k);
    Extend(k, p, Current(50.0));
    var s := Apply(p, Current(50.0));
    assert s.state == Charging && s.diag.curr == CurrError && s.out.relay;
    hide Apply;
    trace, steps :| EndsIn(trace, steps, k, s);
  }
}
