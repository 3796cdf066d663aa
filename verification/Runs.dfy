/** Runs of one connector: every interleaving of charging passes, diagnosis calls, samples, timers and other tasks. */
module Runs {
  import opened Signals
  import opened ChargeSpec

  datatype TimerKind = VoltT | CurrT | FreqT | ChargeT

  datatype Step =
    | Charge(inp: PassInput)
    | Volt(volt: real, relayOn: bool, latched: bool)
    | Freq(freq: real)
    | Current(amps: real)
    | PlugDiag
    | LockDiag
    | Poll(pilot: real, cc: bool)
    | PollLatch(isLatched: bool)
    | Grant                          // another task sets CONAuthed
    | Revoke                         // another task clears CONAuthed
    | Station(ready: set<ChargeBit>) // temperature and station diagnosis set their own bits
    | Demand(reason: ExcBit)         // another task asks for a stop
    | MeterOrTemp(bit: FaultBit, on: bool)
    | Load(percent: nat)             // SetLoadPercent
    | TakeReasons                    // the order task consumes the stop reasons
    | Tick(ms: nat)
    | Fire(kind: TimerKind)          // the timer task runs an expired timer's callback

  const STATION_BITS: set<ChargeBit> := EVSE_READY + {SocketTempOK, ACTempOK}

  function StationWrites(charge: set<ChargeBit>, ready: set<ChargeBit>): set<ChargeBit> {
    charge - STATION_BITS + ready * STATION_BITS
  }

  predicate Due(s: Con, t: Timer) { t.Running? && t.due <= s.clock }

  function FireTimer(s: Con, k: TimerKind): Con {
    match k
    case VoltT =>
      if Due(s, s.timers.volt) then s.(exc := s.exc + {VoltTimer}, timers := s.timers.(volt := Stopped)) else s
    case CurrT =>
      if Due(s, s.timers.curr) then s.(exc := s.exc + {CurrTimer}, timers := s.timers.(curr := Stopped)) else s
    case FreqT =>
      if Due(s, s.timers.freq) then s.(exc := s.exc + {FreqTimer}, timers := s.timers.(freq := Stopped)) else s
    case ChargeT =>
      if Due(s, s.timers.charge) then s.(exc := s.exc + {ChargeTimer}, timers := s.timers.(charge := Stopped)) else s
  }

  predicate IsTimerBit(b: ExcBit) { b == VoltTimer || b == CurrTimer || b == ChargeTimer || b == FreqTimer }

  function Apply(s: Con, step: Step): Con {
    match step
    case Charge(i) => ChargePass(s, i)
    case Volt(x, r, l) => DiagVoltage(s, x, r, l)
    case Freq(x) => DiagFreq(s, x)
    case Current(a) => DiagCurrent(s, a)
    case PlugDiag => DiagPlug(s)
    case LockDiag => DiagLock(s)
    case Poll(v, cc) => SamplePlug(s, v, cc)
    case PollLatch(l) => s.(out := s.out.(lock := LockOf(l)))
    case Grant => s.(charge := s.charge + {Authed})
    case Revoke => s.(charge := s.charge - {Authed})
    case Station(ready) => s.(charge := StationWrites(s.charge, ready))
    case Demand(b) => if IsTimerBit(b) then s else s.(exc := s.exc + {b})
    case MeterOrTemp(b, on) =>
      if b == RelayPaste || b == SocketLockFault || b == CPFault then s
      else s.(words := s.words.(fault := if on then s.words.fault + {b} else s.words.fault - {b}))
    case Load(p) => if p == s.pilot.loadPercent then s
                    else s.(out := s.out.(pwm := true), pilot := s.pilot.(loadPercent := p))
    case TakeReasons => s.(stops := {})
    case Tick(d) => s.(clock := s.clock + d)
    case Fire(k) => FireTimer(s, k)
  }

  ghost predicate StepAt(trace: seq<Con>, steps: seq<Step>, k: nat)
    requires k < |steps| && |trace| == |steps| + 1
  {
    trace[k + 1] == Apply(trace[k], steps[k])
  }

  /** trace is the sequence of states that steps lead through, from any state. */
  ghost predicate IsPath(trace: seq<Con>, steps: seq<Step>) {
    |trace| == |steps| + 1 && forall k: nat :: k < |steps| ==> StepAt(trace, steps, k)
  }

  /** A path from power-up. */
  ghost predicate IsRun(trace: seq<Con>, steps: seq<Step>) {
    IsPath(trace, steps) && Initial(trace[0])
  }

  function Path(s: Con, steps: seq<Step>): (trace: seq<Con>)
    ensures |trace| == |steps| + 1 && trace[0] == s
    decreases |steps|
  {
    if steps == [] then [s] else [s] + Path(Apply(s, steps[0]), steps[1..])
  }

  /** From every state every sequence of steps has a path, and only one. */
  lemma {:induction false} PathExists(s: Con, steps: seq<Step>)
    ensures IsPath(Path(s, steps), steps)
    decreases |steps|
  {
    hide Apply;
    if steps != [] {
      var rest := Path(Apply(s, steps[0]), steps[1..]);
      PathExists(Apply(s, steps[0]), steps[1..]);
      forall k: nat | k < |steps| ensures StepAt(Path(s, steps), steps, k) {
        if k > 0 { assert StepAt(rest, steps[1..], k - 1); }
      }
    }
  }

  /** A condition false at one point of a trace and true at a later one first becomes true in some step between. */
  lemma {:induction false} Crossing(p: Con -> bool, trace: seq<Con>, a: nat, b: nat) returns (k: nat)
    requires a <= b < |trace| && !p(trace[a]) && p(trace[b])
    ensures a <= k < b && p(trace[k + 1])
    ensures forall j :: a <= j <= k ==> !p(trace[j])
    decreases b - a
  {
    if p(trace[a + 1]) { k := a; } else { k := Crossing(p, trace, a + 1, b); }
  }
}
