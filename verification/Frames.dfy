/** What each kind of step leaves alone. */
module Frames {
  import opened Signals
  import opened ChargeSpec
  import opened Runs

  predicate SameBut<T(!new, ==)>(a: set<T>, b: set<T>, except: set<T>) {
    && (forall x: T :: x in a ==> x in except || x in b)
    && (forall x: T :: x in b ==> x in except || x in a)
  }

  /** The charging task never writes the diagnosis machines, their timers or their bits. */
  predicate PassFrame(s: Con, t: Con) {
    && t.cfg == s.cfg && t.clock == s.clock && t.diag == s.diag
    && t.timers == s.timers.(charge := t.timers.charge)
    && t.pilot == s.pilot.(loadPercent := t.pilot.loadPercent)
    && SameBut(s.charge, t.charge, {StartOK, Authed, Locked})
    && (VoltTimer in t.exc <==> VoltTimer in s.exc)
    && (CurrTimer in t.exc <==> CurrTimer in s.exc)
    && (FreqTimer in t.exc <==> FreqTimer in s.exc)
    && (CPFault in t.words.fault <==> CPFault in s.words.fault)
    && t.words.alarm == s.words.alarm
  }

  lemma ChargingFramed(s: Con, i: PassInput)
    ensures PassFrame(s, PassCharging(s, i))
  {
    hide DeviceFaulty;
  }

  lemma FaultedFramed(s: Con, i: PassInput)
    ensures PassFrame(s, PassFaulted(s, i))
  {
    hide FaultLeft;
  }

  lemma PassFramed(s: Con, i: PassInput)
    ensures PassFrame(s, ChargePass(s, i))
  {
    hide FaultLeft, StopSucceeds, PilotReleased, AfterUnlock, MayStart;
    if s.state == Charging { ChargingFramed(s, i); }
    if s.state == Faulted { FaultedFramed(s, i); }
    hide PassCharging, PassFaulted;
  }

  /** Everything but the machine, timer and bits of the voltage channel, the alarms and the outputs. */
  lemma VoltFramed(s: Con, x: real, relayOn: bool, latched: bool)
    ensures var t := DiagVoltage(s, x, relayOn, latched);
            && t.cfg == s.cfg && t.clock == s.clock && t.state == s.state && t.tries == s.tries && t.pilot == s.pilot
            && t.diag == s.diag.(volt := t.diag.volt) && t.timers == s.timers.(volt := t.timers.volt)
            && SameBut(s.charge, t.charge, {VoltOK}) && SameBut(s.exc, t.exc, {VoltTimer})
            && t.words.fault == s.words.fault && t.out.pwm == s.out.pwm
            && (s.state != Charging ==> t.out == s.out)
            && SameBut(s.words.alarm, t.words.alarm, {VoltUp, VoltLow})
  {
    hide Wide, Narrow, Judge, LockOf;
  }

  lemma FreqFramed(s: Con, x: real)
    ensures var t := DiagFreq(s, x);
            && t.cfg == s.cfg && t.clock == s.clock && t.state == s.state && t.tries == s.tries && t.pilot == s.pilot
            && t.diag == s.diag.(freq := t.diag.freq) && t.timers == s.timers.(freq := t.timers.freq)
            && SameBut(s.charge, t.charge, {FreqOK}) && SameBut(s.exc, t.exc, {FreqTimer})
            && t.words.fault == s.words.fault && t.out == s.out
            && SameBut(s.words.alarm, t.words.alarm, {FreqCri})
  {
    hide Wide, Narrow, Judge;
  }

  predicate CurrentFrame(s: Con, t: Con) {
    && t.cfg == s.cfg && t.clock == s.clock && t.state == s.state && t.tries == s.tries && t.pilot == s.pilot
    && t.diag == s.diag.(curr := t.diag.curr) && t.timers == s.timers.(curr := t.timers.curr)
    && SameBut(s.charge, t.charge, {CurrOK}) && SameBut(s.exc, t.exc, {CurrTimer})
    && t.words.fault == s.words.fault && t.out == s.out.(pwm := t.out.pwm)
  }

  lemma MachineFramed(s: Con, over: bool)
    ensures CurrentFrame(s, CurrMachine(s, over))
  {
  }

  lemma CurrentFramed(s: Con, a: real)
    ensures CurrentFrame(s, DiagCurrent(s, a))
  {
    hide OverCurrent, CurrMachine;
    MachineFramed(s, OverCurrent(s.cfg, a));
  }

  lemma PollFramed(s: Con, v: real, cc: bool)
    ensures var t := SamplePlug(s, v, cc);
            && t == s.(words := t.words, pilot := t.pilot, out := s.out.(pwm := t.out.pwm))
            && t.pilot.loadPercent == s.pilot.loadPercent && t.words.alarm == s.words.alarm
  {
    hide ClassOf, StateOf, Live;
  }

  /** The steps that are neither a charging pass nor one of the four sampled diagnoses. */
  predicate IsPlain(step: Step) {
    !step.Charge? && !step.Volt? && !step.Freq? && !step.Current? && !step.Poll?
  }

  predicate PlainFrame(s: Con, step: Step, t: Con) {
    && t.cfg == s.cfg && t.state == s.state && t.tries == s.tries && t.diag == s.diag
    && t.pilot == s.pilot.(loadPercent := t.pilot.loadPercent)
    && t.out.relay == s.out.relay
    && t.clock == s.clock + (if step.Tick? then step.ms else 0)
    && (VoltOK in t.charge <==> VoltOK in s.charge)
    && (CurrOK in t.charge <==> CurrOK in s.charge)
    && (FreqOK in t.charge <==> FreqOK in s.charge)
    && (StartOK in t.charge <==> StartOK in s.charge)
    && (!step.Grant? && !step.Revoke? ==> (Authed in t.charge <==> Authed in s.charge))
    && (!step.Fire? ==>
          && t.timers == s.timers
          && (VoltTimer in t.exc <==> VoltTimer in s.exc)
          && (CurrTimer in t.exc <==> CurrTimer in s.exc)
          && (FreqTimer in t.exc <==> FreqTimer in s.exc))
    && (CPFault in t.words.fault <==> CPFault in s.words.fault)
    && t.words.alarm == s.words.alarm
  }

  lemma StationFramed(s: Con, ready: set<ChargeBit>)
    ensures SameBut(s.charge, StationWrites(s.charge, ready), STATION_BITS)
    ensures STATION_BITS !! {VoltOK, CurrOK, FreqOK, StartOK, Authed, PlugOK}
  {
  }

  lemma PlainFramed(s: Con, step: Step)
    requires IsPlain(step)
    ensures PlainFrame(s, step, Apply(s, step))
  {
    hide ChargePass, DiagVoltage, DiagFreq, DiagCurrent, SamplePlug, StationWrites;
    if step.Station? { StationFramed(s, step.ready); }
  }
}
