/** The control-pilot filter against the history of samples. */
module PilotHistory {
  import opened Signals
  import opened ChargeSpec
  import opened Runs
  import opened Frames

  /** The three windows of the pilot, in volts. */
  predicate At12(v: real) { 11.2 < v < 12.8 }
  predicate At9(v: real) { 7.8 < v < 9.8 }
  predicate At6(v: real) { 5.2 < v < 6.8 }

  predicate GoodPoll(step: Step) { step.Poll? && (At12(step.pilot) || At9(step.pilot) || At6(step.pilot)) }
  predicate BadPoll(step: Step) { step.Poll? && !GoodPoll(step) }

  /** The state a good sample stands for, with the PWM setting it is taken under. */
  function SeenAs(v: real, pwm: bool): CpState {
    if At12(v) then (if pwm then Cp12Pwm else Cp12)
    else if At9(v) then (if pwm then Cp9Pwm else Cp9)
    else if pwm then Cp6Pwm else Cp6
  }

  lemma WindowsInNumbers(v: real, cc: bool, pwm: bool)
    ensures ClassOf(v) != Bad <==> GoodPoll(Poll(v, cc))
    ensures GoodPoll(Poll(v, cc)) ==> StateOf(ClassOf(v), pwm) == SeenAs(v, pwm)
  {
  }

  /** Consecutive bad samples at the end of the first n steps. */
  function BadStreak(steps: seq<Step>, n: nat): nat
    requires n <= |steps|
  {
    if n == 0 || GoodPoll(steps[n - 1]) then 0
    else BadStreak(steps, n - 1) + if BadPoll(steps[n - 1]) then 1 else 0
  }

  /** One past the last good sample among the first n steps, 0 when there was none. */
  function LastGood(steps: seq<Step>, n: nat): (g: nat)
    requires n <= |steps|
    ensures g <= n && (g > 0 ==> GoodPoll(steps[g - 1]))
    ensures forall k :: g <= k < n ==> !GoodPoll(steps[k])
  {
    if n == 0 then 0 else if GoodPoll(steps[n - 1]) then n else LastGood(steps, n - 1)
  }

  predicate Polled(steps: seq<Step>, n: nat)
    requires n <= |steps|
  {
    exists k :: 0 <= k < n && steps[k].Poll?
  }

  /** The contact as the last poll among the first n steps found it. */
  function Contact(steps: seq<Step>, n: nat): bool
    requires n <= |steps|
  {
    n > 0 && if steps[n - 1].Poll? then steps[n - 1].cc else Contact(steps, n - 1)
  }

  /** The pilot state the history stands for: an error from the third bad sample in a row, else the class of the last
      good sample with the PWM setting it was taken under. */
  function PilotOf(trace: seq<Con>, steps: seq<Step>, n: nat): CpState
    requires n <= |steps| < |trace|
  {
    var g := LastGood(steps, n);
    if BadStreak(steps, n) >= 3 then CpErr
    else if g == 0 then CpNone
    else SeenAs(steps[g - 1].pilot, trace[g - 1].out.pwm)
  }

  // ----- one step ------------------------------------------------------------

  /** The states a vehicle is seen in: all but 12 V and the error. */
  predicate Seen(cp: CpState) { cp in {CpNone, Cp9, Cp9Pwm, Cp6, Cp6Pwm} }

  predicate PilotRule(s: Con, step: Step, t: Con) {
    && t.cfg == s.cfg
    && if !step.Poll? then
         && t.pilot == s.pilot.(loadPercent := t.pilot.loadPercent)
         && (CPFault in t.words.fault <==> CPFault in s.words.fault)
       else
         var good := GoodPoll(step);
         var third := s.pilot.errCont + 1 >= 3;
         && t.pilot.cp == (if good then SeenAs(step.pilot, s.out.pwm) else if third then CpErr else s.pilot.cp)
         && t.pilot.errCont == (if good || third then 0 else s.pilot.errCont + 1)
         && (CPFault in t.words.fault <==> !good && (third || CPFault in s.words.fault))
         && t.out.pwm == (s.out.pwm && (good || !third))
         && t.pilot.plug == if Seen(t.pilot.cp) && (s.cfg.socket == TypeC || step.cc) then Plug else Unplug
  }

  /** GetPlugState on a pilot of v volts, in numbers. */
  lemma PollRule(s: Con, v: real, cc: bool)
    ensures PilotRule(s, Poll(v, cc), SamplePlug(s, v, cc))
  {
    WindowsInNumbers(v, cc, s.out.pwm);
    hide ClassOf, StateOf, SeenAs, GoodPoll;
  }

  lemma StepPilot(s: Con, step: Step)
    ensures PilotRule(s, step, Apply(s, step))
  {
    hide ChargePass, DiagVoltage, DiagFreq, DiagCurrent, SamplePlug, DiagPlug, DiagLock, FireTimer, StationWrites;
    hide ClassOf, StateOf, Live, SeenAs, GoodPoll, Seen;
    if step.Charge? { PassFramed(s, step.inp); }
    else if step.Volt? { VoltFramed(s, step.volt, step.relayOn, step.latched); }
    else if step.Freq? { FreqFramed(s, step.freq); }
    else if step.Current? { CurrentFramed(s, step.amps); }
    else if step.Poll? { PollRule(s, step.pilot, step.cc); }
    else { PlainFramed(s, step); }
  }

  // ----- whole runs ----------------------------------------------------------

  /** The filter refines the history: with b bad samples since the last good one, xCPState is CP_ERR and the CP fault
      is set iff b >= 3, else xCPState is the class of the last good sample; the counter is b modulo 3. */
  lemma {:induction false} PilotFilter(trace: seq<Con>, steps: seq<Step>, n: nat)
    requires IsRun(trace, steps) && n < |trace|
    ensures trace[n].pilot.cp == PilotOf(trace, steps, n)
    ensures trace[n].pilot.errCont == BadStreak(steps, n) % 3
    ensures CPFault in trace[n].words.fault <==> BadStreak(steps, n) >= 3
    ensures trace[n].cfg == trace[0].cfg
    ensures Polled(steps, n) ==>
              trace[n].pilot.plug ==
                if Seen(trace[n].pilot.cp) && (trace[n].cfg.socket == TypeC || Contact(steps, n)) then Plug else Unplug
    ensures !Polled(steps, n) ==> BadStreak(steps, n) == 0 && LastGood(steps, n) == 0
  {
    hide Apply, SeenAs, Seen;
    if n > 0 {
      PilotFilter(trace, steps, n - 1);
      assert StepAt(trace, steps, n - 1);
      StepPilot(trace[n - 1], steps[n - 1]);
      if steps[n - 1].Poll? { assert Polled(steps, n); }
      else { assert Polled(steps, n) <==> Polled(steps, n - 1); }
    }
  }

  /** Once a good sample exists, a type C connector reads PLUG iff fewer than three bad samples followed it and it was
      in the 9 V or the 6 V window; type B asks besides for the contact, as the last sample found it. */
  lemma PlugByPilot(trace: seq<Con>, steps: seq<Step>, n: nat)
    requires IsRun(trace, steps) && n < |trace| && LastGood(steps, n) > 0
    ensures var v := steps[LastGood(steps, n) - 1].pilot;
            trace[n].pilot.plug == Plug <==>
              && BadStreak(steps, n) < 3 && (7.8 < v < 9.8 || 5.2 < v < 6.8)
              && (trace[0].cfg.socket == TypeB ==> Contact(steps, n))
  {
    hide Apply;
    PilotFilter(trace, steps, n);
    assert Polled(steps, n) by { assert steps[LastGood(steps, n) - 1].Poll?; }
  }

  lemma {:induction false} PolledBad(steps: seq<Step>, n: nat)
    requires n <= |steps| && LastGood(steps, n) == 0
    ensures Polled(steps, n) <==> BadStreak(steps, n) >= 1
  {
    hide ClassOf;
    if n > 0 {
      PolledBad(steps, n - 1);
      if steps[n - 1].Poll? { assert Polled(steps, n); }
      else { assert Polled(steps, n) <==> Polled(steps, n - 1); }
    }
  }

  lemma {:induction false} PlugUnreadFirst(trace: seq<Con>, steps: seq<Step>, n: nat)
    requires IsRun(trace, steps) && n < |trace|
    ensures !Polled(steps, n) ==> trace[n].pilot.plug == PlugUnread
  {
    hide Apply, ClassOf, StateOf, Live;
    if n > 0 {
      PlugUnreadFirst(trace, steps, n - 1);
      assert StepAt(trace, steps, n - 1);
      StepPilot(trace[n - 1], steps[n - 1]);
      if steps[n - 1].Poll? { assert Polled(steps, n); }
      else { assert Polled(steps, n) <==> Polled(steps, n - 1); }
    }
  }

  /** Before the first good sample a type C connector reads PLUG from its first one or two bad samples, and type B too
      where the contact is closed. */
  lemma PlugBeforeGood(trace: seq<Con>, steps: seq<Step>, n: nat)
    requires IsRun(trace, steps) && n < |trace| && LastGood(steps, n) == 0
    ensures trace[n].pilot.plug == Plug <==>
              1 <= BadStreak(steps, n) < 3 && (trace[0].cfg.socket == TypeB ==> Contact(steps, n))
  {
    hide Apply, ClassOf;
    PilotFilter(trace, steps, n);
    PolledBad(steps, n);
    PlugUnreadFirst(trace, steps, n);
  }
}
