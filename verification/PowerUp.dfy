/** A run of either socket from power-up until it charges, for the runs that go wrong after that. */
module PowerUp {
  import opened Signals
  import opened ChargeSpec
  import opened Runs
  import opened Session

  function Cfg(k: Socket): Config { Config(k, 200.0, 240.0, 32.0) }

  const QUIET := PassInput(false, false, {}, false, false)
  const WELDED := PassInput(true, false, {}, false, false)
  const LATCHED := PassInput(false, true, {}, false, false)

  function Start(k: Socket): Con {
    Con(Cfg(k), 0, Idle, {}, {}, {}, Words({}, {}, {}), Diag(Ok, CurrInit, Ok),
        Timers(Stopped, Stopped, Stopped, Stopped), Tries(0, 0, false),
        Outputs(false, false, false, LockUnread, false), Pilot(CpNone, 0, PlugUnread, 100))
  }

  /** A run of a connector of this kind that ends in s, its relay never read open in a pass while commanded closed. */
  ghost predicate EndsIn(trace: seq<Con>, steps: seq<Step>, k: Socket, s: Con) {
    && IsRun(trace, steps) && trace[0].cfg == Cfg(k) && trace[|trace| - 1] == s
    && forall j: nat :: j < |steps| ==> Honest(trace[j], steps[j])
  }

  ghost predicate Reachable(k: Socket, s: Con) {
    exists trace: seq<Con>, steps: seq<Step> :: EndsIn(trace, steps, k, s)
  }

  lemma Extend(k: Socket, s: Con, step: Step)
    requires Reachable(k, s) && Honest(s, step)
    ensures Reachable(k, Apply(s, step))
  {
    hide Apply, Honest;
    var trace: seq<Con>, steps: seq<Step> :| EndsIn(trace, steps, k, s);
    var more, on := trace + [Apply(s, step)], steps + [step];
    forall j: nat | j < |on| ensures StepAt(more, on, j) && Honest(more[j], on[j]) {
      if j < |steps| { assert StepAt(trace, steps, j) && Honest(trace[j], steps[j]); }
    }
    assert EndsIn(more, on, k, Apply(s, step));
  }

  lemma StartReachable(k: Socket)
    ensures Reachable(k, Start(k))
  {
    assert EndsIn([Start(k)], [], k, Start(k));
  }

  /** No fault and no alarm is shown. */
  predicate Clear(s: Con) { s.words.fault == {} && s.words.alarm == {} }

  /** A pilot of 9 V and a closed contact: a vehicle is plugged in. */
  lemma Plugs(k: Socket) returns (s: Con)
    ensures Reachable(k, s) && Clear(s)
    ensures s == Start(k).(charge := {PlugOK, S2Opened}, words := s.words, pilot := Pilot(Cp9, 0, Plug, 100))
  {
    hide ChargePass, DiagVoltage, DiagFreq, DiagCurrent, DiagLock, FireTimer, StationWrites;
    StartReachable(k);
    var p := Start(k);
    Extend(k, p, Poll(9.0, true));
    s := Apply(p, Poll(9.0, true));
    assert s == p.(words := s.words, pilot := Pilot(Cp9, 0, Plug, 100)) && Clear(s);
    Extend(k, s, PlugDiag);
    s := Apply(s, PlugDiag);
  }

  /** The supply is found in order. */
  lemma Supplied(k: Socket) returns (s: Con)
    ensures Reachable(k, s) && Clear(s)
    ensures s == Start(k).(
                   charge := {PlugOK, S2Opened, VoltOK, FreqOK}, words := s.words, pilot := Pilot(Cp9, 0, Plug, 100))
  {
    hide ChargePass, SamplePlug, DiagPlug, DiagLock, StationWrites, DiagCurrent, FireTimer;
    var p := Plugs(k);
    Extend(k, p, Volt(220.0, false, false));
    s := Apply(p, Volt(220.0, false, false));
    assert s == p.(charge := {PlugOK, S2Opened, VoltOK});
    Extend(k, s, Freq(50.0));
    s := Apply(s, Freq(50.0));
  }

  /** The init delay of the current diagnosis runs out. */
  lemma Delayed(k: Socket) returns (s: Con)
    ensures Reachable(k, s) && Clear(s)
    ensures s == Start(k).(
                   clock := 500, charge := {PlugOK, S2Opened, VoltOK, FreqOK}, words := s.words,
                   pilot := Pilot(Cp9, 0, Plug, 100), exc := {CurrTimer}, diag := Diag(Ok, CurrDelay, Ok))
  {
    hide ChargePass, SamplePlug, DiagPlug, DiagLock, StationWrites, DiagVoltage, DiagFreq;
    var p := Supplied(k);
    Extend(k, p, Current(0.0));
    s := Apply(p, Current(0.0));
    assert s == p.(diag := Diag(Ok, CurrDelay, Ok), timers := p.timers.(curr := Running(500)));
    Extend(k, s, Tick(500));
    s := Apply(s, Tick(500));
    Extend(k, s, Fire(CurrT));
    s := Apply(s, Fire(CurrT));
  }

  const READY: set<ChargeBit> := CP_SWITCH_CONDITION

  /** A first sample of the current is in limits. */
  lemma Sampled(k: Socket) returns (s: Con)
    ensures Reachable(k, s) && Clear(s)
    ensures s == Start(k).(
                   clock := 500, charge := {PlugOK, S2Opened, VoltOK, FreqOK, CurrOK}, words := s.words,
                   pilot := Pilot(Cp9, 0, Plug, 100), diag := Diag(Ok, CurrNormal, Ok))
  {
    hide ChargePass, SamplePlug, DiagPlug, DiagLock, DiagVoltage, DiagFreq, FireTimer, StationWrites;
    var p := Delayed(k);
    Extend(k, p, Current(0.0));
    s := Apply(p, Current(0.0));
    assert s == p.(exc := {}, diag := Diag(Ok, CurrNormal, Ok));
    Extend(k, s, Current(0.0));
    s := Apply(s, Current(0.0));
  }

  lemma Ready(k: Socket) returns (s: Con)
    ensures Reachable(k, s) && Clear(s)
    ensures s == Start(k).(
                   clock := 500, charge := READY + {S2Opened}, words := s.words,
                   pilot := Pilot(Cp9, 0, Plug, 100), diag := Diag(Ok, CurrNormal, Ok))
  {
    hide ChargePass, SamplePlug, DiagPlug, DiagLock, DiagVoltage, DiagFreq, DiagCurrent, FireTimer;
    var p := Sampled(k);
    Extend(k, p, Station(STATION_BITS));
    s := Apply(p, Station(STATION_BITS));
    assert s.charge == READY + {S2Opened};
  }

  /** Two passes switch the pilot to PWM. */
  lemma Switched(k: Socket) returns (s: Con)
    ensures Reachable(k, s) && Clear(s)
    ensures s == Start(k).(
                   clock := 500, state := Pluged, charge := READY + {S2Opened}, words := s.words,
                   pilot := Pilot(Cp9, 0, Plug, 100), diag := Diag(Ok, CurrNormal, Ok),
                   out := Start(k).out.(pwm := true))
  {
    hide DiagVoltage, DiagFreq, DiagCurrent, DiagPlug, DiagLock, FireTimer, StationWrites, SamplePlug;
    var p := Ready(k);
    Extend(k, p, Charge(QUIET));
    s := Apply(p, Charge(QUIET));
    assert s == p.(state := Pluged, words := s.words) && Clear(s);
    Extend(k, s, Charge(QUIET));
    s := Apply(s, Charge(QUIET));
  }

  /** The vehicle answers with 6 V. */
  lemma Answered(k: Socket) returns (s: Con)
    ensures Reachable(k, s) && Clear(s)
    ensures s == Start(k).(
                   clock := 500, state := Pluged, charge := READY + {S2Closed}, words := s.words,
                   pilot := Pilot(Cp6Pwm, 0, Plug, 100), diag := Diag(Ok, CurrNormal, Ok),
                   out := Start(k).out.(pwm := true))
  {
    hide DiagVoltage, DiagFreq, DiagCurrent, DiagLock, FireTimer, StationWrites, ChargePass;
    var p := Switched(k);
    Extend(k, p, Poll(6.0, true));
    s := Apply(p, Poll(6.0, true));
    assert s == p.(words := s.words, pilot := Pilot(Cp6Pwm, 0, Plug, 100)) && Clear(s);
    hide SamplePlug;
    Extend(k, s, PlugDiag);
    s := Apply(s, PlugDiag);
    assert s.charge == READY + {S2Closed};
  }

  lemma Contracted(k: Socket) returns (s: Con)
    ensures Reachable(k, s) && Clear(s)
    ensures s == Start(k).(
                   clock := 500, state := Starting, charge := READY + {S2Closed}, words := s.words,
                   pilot := Pilot(Cp6Pwm, 0, Plug, 100), diag := Diag(Ok, CurrNormal, Ok),
                   out := Start(k).out.(pwm := true))
  {
    hide DiagVoltage, DiagFreq, DiagCurrent, FireTimer, StationWrites, SamplePlug, DiagPlug, DiagLock;
    var p := Answered(k);
    Extend(k, p, Charge(QUIET));
    s := Apply(p, Charge(QUIET));
    assert s == p.(state := Precontract);
    Extend(k, s, Charge(QUIET));
    s := Apply(s, Charge(QUIET));
  }

  /** The latch of a type B socket is closed; type C has none. */
  function ClosedLatch(k: Socket, relay: bool): Outputs {
    if k == TypeB then Outputs(relay, relay, true, Lock, true) else Outputs(relay, relay, false, LockUnread, true)
  }

  /** Authorised, and latched by a pass where there is a latch. */
  lemma Authorised(k: Socket) returns (s: Con)
    ensures Reachable(k, s) && Clear(s)
    ensures s == Start(k).(
                   clock := 500, state := Starting, charge := CHARGE_CONDITION, words := s.words,
                   pilot := Pilot(Cp6Pwm, 0, Plug, 100), diag := Diag(Ok, CurrNormal, Ok), out := ClosedLatch(k, false))
  {
    hide DiagVoltage, DiagFreq, DiagCurrent, FireTimer, StationWrites, SamplePlug, DiagPlug;
    var p := Contracted(k);
    Extend(k, p, Grant);
    s := Apply(p, Grant);
    assert s.charge == CHARGE_CONDITION - {Locked};
    Extend(k, s, Charge(LATCHED));
    s := Apply(s, Charge(LATCHED));
    assert s == p.(charge := CHARGE_CONDITION - {Locked}, out := ClosedLatch(k, false));
    hide ChargePass;
    Extend(k, s, LockDiag);
    s := Apply(s, LockDiag);
    assert s.charge == CHARGE_CONDITION;
  }

  /** The relay closes. */
  lemma Closes(k: Socket) returns (s: Con)
    ensures Reachable(k, s) && Clear(s)
    ensures s == Start(k).(
                   clock := 500, state := Charging, charge := CHARGE_CONDITION + {StartOK}, words := s.words,
                   pilot := Pilot(Cp6Pwm, 0, Plug, 100), diag := Diag(Ok, CurrNormal, Ok), out := ClosedLatch(k, true))
  {
    hide DiagVoltage, DiagFreq, DiagCurrent, FireTimer, StationWrites, SamplePlug, DiagPlug, DiagLock;
    var p := Authorised(k);
    Extend(k, p, Charge(WELDED));
    s := Apply(p, Charge(WELDED));
  }

  // ----- stops that fail -----------------------------------------------------

  /** The platform asks for a stop. */
  lemma AskedToStop(k: Socket) returns (s: Con)
    ensures Reachable(k, s) && s.words.fault == {} && s.state == Stopping && s.cfg == Cfg(k)
    ensures s.tries == Tries(0, 0, false) && s.out.relay && s.pilot.cp == Cp6Pwm && Locked in s.charge
  {
    hide DiagVoltage, DiagFreq, DiagCurrent, FireTimer, StationWrites, SamplePlug, DiagPlug, DiagLock, ConditionCause;
    var p := Closes(k);
    Extend(k, p, Demand(RemoteStop));
    s := Apply(p, Demand(RemoteStop));
    assert s == p.(exc := {RemoteStop});
    Extend(k, s, Charge(WELDED));
    s := Apply(s, Charge(WELDED));
  }

  /** n such passes. */
  lemma {:induction false} StopsFailed(k: Socket, n: nat) returns (s: Con)
    requires n <= 5
    ensures Reachable(k, s) && s.words.fault == {} && s.cfg == Cfg(k) && s.out.relay && s.pilot.cp == Cp6Pwm
    ensures s.tries == Tries(n, 0, false) && Locked in s.charge && s.state == if n < 5 then Stopping else Unlocking
  {
    if n == 0 {
      s := AskedToStop(k);
    } else {
      hide ChargePass;
      var p := StopsFailed(k, n - 1);
      Extend(k, p, Charge(WELDED));
      s := Apply(p, Charge(WELDED));
    }
  }

  /** A run of a type C connector, no pass of which reads the relay open while it is commanded closed, that gives up
      stopping with the relay commanded closed. */
  lemma GivesUpClosed() returns (trace: seq<Con>, steps: seq<Step>)
    ensures IsRun(trace, steps) && trace[0].cfg.socket == TypeC && GivenUpClosed(trace[|trace| - 1])
    ensures forall k: nat :: k < |steps| ==> Honest(trace[k], steps[k])
  {
    var s := StopsFailed(TypeC, 5);
    hide Apply;
    trace, steps :| EndsIn(trace, steps, TypeC, s);
  }
}
