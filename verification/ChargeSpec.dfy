/** What one pass of the charging task and one call of each diagnosis function do to a connector, as functions. */
module ChargeSpec {
  import opened Signals

  /** What a charging pass reads from outside: relay and latch feedback, station faults, the start type. */
  datatype PassInput = PassInput(
    relayOn: bool, latched: bool, evseFault: set<EvseFault>, scram: bool, remoteStart: bool)

  // ----- outputs and readings ------------------------------------------------

  /** SetCONSignalWorkState: one of the four work bits replaces the others. */
  function Work(w: Words, b: SignalBit): Words {
    w.(signal := w.signal - {Standby, Working, Ending, FaultState} + {b})
  }

  function RelaySignal(w: Words, on: bool): Words {
    w.(signal := if on then w.signal + {RelayL, RelayN} else w.signal - {RelayL, RelayN})
  }

  /** SetRelay: command, then read back. */
  function SetRelay(s: Con, cmd: bool, on: bool): Con {
    s.(out := s.out.(relay := cmd, relayRead := on), words := RelaySignal(s.words, on))
  }

  function LockOf(latched: bool): LockState { if latched then Lock else Unlock }

  /** SetBTypeSocketLock: command, then read back. */
  function SetLatch(s: Con, cmd: bool, latched: bool): Con {
    s.(out := s.out.(latch := cmd, lock := LockOf(latched)))
  }

  // ----- the charging task, one function a state -----------------------------

  function PassIdle(s: Con): Con {
    s.(words := Work(s.words, Standby), state := if PlugOK in s.charge then Pluged else Idle)
  }

  function PassPluged(s: Con): Con {
    if PlugOK !in s.charge then s.(state := Returning)
    else if !(CP_SWITCH_CONDITION <= s.charge) then s
    else s.(out := s.out.(pwm := true),
            state := if s.pilot.cp == Cp9Pwm || s.pilot.cp == Cp6Pwm then Precontract else Pluged)
  }

  function PassPrecontract(s: Con): Con {
    if PlugOK !in s.charge then
      s.(timers := s.timers.(charge := Running(s.clock + ANTI_SHAKE_CYC)), state := LosePlug)
    else if !(CP_SWITCH_CONDITION <= s.charge) then s.(state := Returning)
    else if S2Closed in s.charge then s.(state := Starting)
    else s
  }

  function PassLosePlug(s: Con): Con {
    if ChargeTimer in s.exc then
      s.(exc := s.exc - {ChargeTimer}, timers := s.timers.(charge := Stopped), state := Returning)
    else if PlugOK in s.charge then s.(timers := s.timers.(charge := Stopped), state := Precontract)
    else s
  }

  /** All that a pass must find set to close the relay. */
  predicate MayStart(charge: set<ChargeBit>) {
    CHARGE_CONDITION <= charge
  }

  function PassStarting(s: Con, i: PassInput): Con {
    if !(CP_SWITCH_CONDITION + {S2Closed} <= s.charge) then s.(state := Precontract)
    else if MayStart(s.charge) then
      SetRelay(s, true, i.relayOn).(charge := s.charge + {StartOK}, state := Charging)
    else if Authed in s.charge && s.cfg.socket == TypeB then SetLatch(s, true, i.latched)
    else s
  }

  /** Why a charging pass ends the session; the first reason that applies is taken. */
  datatype Cause =
    | NoCause | DeviceFault | ByUser(bit: ExcBit, reason: StopType) | ByAlarm(why: StopType) | ByCondition(temp: bool)

  predicate DeviceFaulty(s: Con, i: PassInput) {
    s.words.fault != {} || i.evseFault - (if i.remoteStart then {RFID} else {}) != {}
  }

  function UserStop(exc: set<ExcBit>): Cause {
    if LimitEnergy in exc then ByUser(LimitEnergy, StopEnergy)
    else if LimitFee in exc then ByUser(LimitFee, StopFee)
    else if LimitTime in exc then ByUser(LimitTime, StopTime)
    else if OfflineStop in exc then ByUser(OfflineStop, StopOffline)
    else if RemoteStop in exc then ByUser(RemoteStop, StopRemote)
    else if RFIDStop in exc then ByUser(RFIDStop, StopRFID)
    else if EmergencyStop in exc then ByUser(EmergencyStop, StopEmergency)
    else NoCause
  }

  /** The stops a pass finds by itself once nobody has asked for one. */
  function ConditionCause(alarm: set<AlarmBit>, charge: set<ChargeBit>, scram: bool): Cause {
    if CurrUpCri in alarm then ByAlarm(StopCurr)
    else if scram then ByAlarm(StopScram)
    else if S2Opened in charge && PlugOK in charge then ByAlarm(StopFull)
    else if PlugOK !in charge then ByAlarm(StopUnPlug)
    else if !(CHARGE_CONDITION <= charge) && VoltOK in charge then
      ByCondition(EVSETempOK !in charge || ACTempOK !in charge)
    else NoCause
  }

  function CauseOf(s: Con, i: PassInput): Cause {
    if DeviceFaulty(s, i) then DeviceFault
    else if UserStop(s.exc) != NoCause then UserStop(s.exc)
    else ConditionCause(s.words.alarm, s.charge, i.scram)
  }

  /** What a charging pass does about the cause it found. */
  function Conclude(s: Con, cause: Cause): Con {
    s.(tries := if cause == DeviceFault then s.tries.(dev := true) else s.tries,
       stops := match cause
                case ByUser(_, r) => s.stops + {r}
                case ByAlarm(r) => s.stops + {r}
                case ByCondition(temp) => if temp then s.stops + {StopTemp} else s.stops
                case _ => s.stops,
       exc := if cause.ByUser? then s.exc - {cause.bit} else s.exc,
       state := if cause == NoCause then Charging else Stopping)
  }

  function PassCharging(s: Con, i: PassInput): Con {
    Conclude(s.(words := Work(s.words, Working)), CauseOf(s, i))
  }

  /** Whether StopCharge gets as far as opening the relay: the pilot has left PWM, or is in error. */
  predicate PilotReleased(cp: CpState) {
    cp == Cp6 || cp == Cp9 || cp == Cp12 || cp == CpErr
  }

  /** Whether StopCharge returns ERR_NO. */
  predicate StopSucceeds(s: Con, i: PassInput) {
    PilotReleased(s.pilot.cp) && !i.relayOn
  }

  function PassStopping(s: Con, i: PassInput): Con {
    var t := s.(words := Work(s.words, Ending), out := s.out.(pwm := false));
    var u := if PilotReleased(s.pilot.cp) then SetRelay(t, false, i.relayOn) else t;
    if StopSucceeds(s, i) then
      u.(charge := s.charge - {Authed, StartOK}, tries := s.tries.(stop := 0), state := Unlocking)
    else
      u.(charge := s.charge - {Authed}, tries := s.tries.(stop := s.tries.stop + 1),
         state := if s.tries.stop + 1 >= 5 then Unlocking else Stopping)
  }

  function AfterUnlock(t: Tries): ConState {
    if t.stop != 0 || t.dev then Faulted else Returning
  }

  function PassUnlocking(s: Con, i: PassInput): Con {
    if s.cfg.socket == TypeC then s.(state := AfterUnlock(s.tries))
    else if Locked !in s.charge then s
    else if !i.latched then
      SetLatch(s, false, i.latched).(
        tries := s.tries.(unlock := 0), charge := s.charge - {Locked}, state := AfterUnlock(s.tries))
    else
      SetLatch(s, false, i.latched).(
        tries := s.tries.(unlock := s.tries.unlock + 1),
        state := if s.tries.unlock + 1 >= 5 || s.tries.dev then Faulted else Unlocking)
  }

  /** The fault bits an ERROR pass raises, and those its two readings clear again. */
  function FaultsRaised(t: Tries): set<FaultBit> {
    if t.stop != 0 then {RelayPaste} else if t.unlock != 0 then {SocketLockFault} else {}
  }

  function FaultsCleared(socket: Socket, i: PassInput): set<FaultBit> {
    (if i.relayOn then {} else {RelayPaste}) + (if socket == TypeB && !i.latched then {SocketLockFault} else {})
  }

  /** Whether an ERROR pass that is not a device error lets the connector go. */
  predicate FaultLeft(s: Con, i: PassInput) {
    || (s.tries.stop == 0 && s.tries.unlock == 0)
    || !i.relayOn
    || (s.cfg.socket == TypeB && !i.latched)
  }

  function PassFaulted(s: Con, i: PassInput): Con {
    var w := Work(s.words, FaultState);
    if s.tries.dev then s.(words := w, out := s.out.(pwm := false), state := DevFaulted)
    else
      s.(words := RelaySignal(w, i.relayOn).(
           fault := w.fault + FaultsRaised(s.tries) - FaultsCleared(s.cfg.socket, i)),
         out := s.out.(pwm := false, relayRead := i.relayOn,
                       lock := if s.cfg.socket == TypeB then LockOf(i.latched) else s.out.lock),
         state := if FaultLeft(s, i) then Returning else Faulted)
  }

  function PassDevFaulted(s: Con, i: PassInput): Con {
    if s.words.fault == {} && i.evseFault == {} then s.(tries := s.tries.(dev := false), state := Faulted) else s
  }

  function PassReturning(s: Con): Con {
    s.(tries := Tries(0, 0, false), charge := s.charge - {StartOK, Authed},
       out := s.out.(pwm := false), pilot := s.pilot.(loadPercent := 100), state := Idle)
  }

  function ChargePass(s: Con, i: PassInput): Con {
    match s.state
    case Idle => PassIdle(s)
    case Pluged => PassPluged(s)
    case Precontract => PassPrecontract(s)
    case LosePlug => PassLosePlug(s)
    case Starting => PassStarting(s, i)
    case Charging => PassCharging(s, i)
    case Stopping => PassStopping(s, i)
    case Unlocking => PassUnlocking(s, i)
    case Returning => PassReturning(s)
    case Faulted => PassFaulted(s, i)
    case DevFaulted => PassDevFaulted(s, i)
  }

  // ----- voltage and frequency diagnosis -------------------------------------

  datatype Side = InBand | Below | Above

  function Classify(x: real, lower: real, upper: real): Side {
    if lower <= x <= upper then InBand else if x > upper then Above else Below
  }

  /** The two channels that share the six-state debounce machine. */
  datatype Channel = VoltCh | FreqCh

  function Wide(cfg: Config, ch: Channel, x: real): Side {
    match ch
    case VoltCh => Classify(x, cfg.voltLower, cfg.voltUpper)
    case FreqCh => Classify(x, FREQ_LOWER, FREQ_UPPER)
  }

  function Narrow(cfg: Config, ch: Channel, x: real): Side {
    match ch
    case VoltCh => Classify(x, cfg.voltLower + VOLT_MARGIN, cfg.voltUpper - VOLT_MARGIN)
    case FreqCh => Classify(x, FREQ_LOWER + FREQ_MARGIN, FREQ_UPPER - FREQ_MARGIN)
  }

  function TripCyc(ch: Channel): nat { if ch == VoltCh then VOLT_DUMMY_CYC else FREQ_DUMMY_CYC }
  function RecoverCyc(ch: Channel): nat { if ch == VoltCh then VOLT_RECOVER_CYC else FREQ_DUMMY_CYC }
  function OkBit(ch: Channel): ChargeBit { if ch == VoltCh then VoltOK else FreqOK }
  function DueBit(ch: Channel): ExcBit { if ch == VoltCh then VoltTimer else FreqTimer }
  function Stat(s: Con, ch: Channel): DebState { if ch == VoltCh then s.diag.volt else s.diag.freq }
  function TimerOf(s: Con, ch: Channel): Timer { if ch == VoltCh then s.timers.volt else s.timers.freq }

  predicate IsDummy(d: DebState) { d == LowerDummy || d == UpperDummy }
  predicate IsTripped(d: DebState) { d == Lower || d == Upper }
  function DummyOf(side: Side): DebState { if side == Below then LowerDummy else UpperDummy }
  function TrippedOf(side: Side): DebState { if side == Below then Lower else Upper }
  function SideOf(d: DebState): Side { if d == LowerDummy || d == Lower then Below else Above }

  /** What one call of the debounce machine decides: next status, what becomes of the timer and of the OK bit. */
  datatype TimerOp = KeepTimer | StartFor(ms: nat) | DeleteTimer
  datatype BitOp = KeepBit | SetBit | ClearBit

  function Operate(op: TimerOp, t: Timer, now: nat): Timer {
    match op
    case KeepTimer => t
    case StartFor(ms) => Running(now + ms)
    case DeleteTimer => Stopped
  }

  datatype Verdict = Verdict(stat: DebState, timer: TimerOp, ok: BitOp, taken: bool)

  function Judge(ch: Channel, d: DebState, due: bool, wide: Side, narrow: Side): Verdict {
    match d
    case Ok =>
      if wide == InBand then Verdict(Ok, KeepTimer, SetBit, false)
      else Verdict(DummyOf(wide), StartFor(TripCyc(ch)), KeepBit, false)
    case LowerDummy | UpperDummy =>
      if due then Verdict(TrippedOf(SideOf(d)), DeleteTimer, ClearBit, true)
      else if wide == InBand then Verdict(Ok, DeleteTimer, KeepBit, false)
      else if wide != SideOf(d) then Verdict(DummyOf(wide), StartFor(TripCyc(ch)), KeepBit, false)
      else Verdict(d, KeepTimer, KeepBit, false)
    case Lower | Upper =>
      if narrow == InBand then Verdict(OkDummy, StartFor(RecoverCyc(ch)), KeepBit, false)
      else Verdict(d, KeepTimer, KeepBit, false)
    case OkDummy =>
      if due then Verdict(Ok, DeleteTimer, SetBit, true)
      else if narrow == InBand then Verdict(OkDummy, KeepTimer, KeepBit, false)
      else Verdict(TrippedOf(narrow), DeleteTimer, KeepBit, false)
  }

  function Enact(s: Con, ch: Channel, v: Verdict): Con {
    var t := Operate(v.timer, TimerOf(s, ch), s.clock);
    s.(diag := if ch == VoltCh then s.diag.(volt := v.stat) else s.diag.(freq := v.stat),
       timers := if ch == VoltCh then s.timers.(volt := t) else s.timers.(freq := t),
       charge := match v.ok
                 case KeepBit => s.charge
                 case SetBit => s.charge + {OkBit(ch)}
                 case ClearBit => s.charge - {OkBit(ch)},
       exc := if v.taken then s.exc - {DueBit(ch)} else s.exc)
  }

  /** The debounce machine on a sample x of channel ch. */
  function Debounce(s: Con, ch: Channel, x: real): Con {
    Enact(s, ch, Judge(ch, Stat(s, ch), DueBit(ch) in s.exc, Wide(s.cfg, ch, x), Narrow(s.cfg, ch, x)))
  }

  /** A call that finds the timer expired: it trips or recovers the channel. */
  predicate Trips(s: Con, ch: Channel) { IsDummy(Stat(s, ch)) && DueBit(ch) in s.exc }
  predicate Recovers(s: Con, ch: Channel) { Stat(s, ch) == OkDummy && DueBit(ch) in s.exc }

  function VoltAlarm(s: Con, x: real): set<AlarmBit> {
    var narrow := Narrow(s.cfg, VoltCh, x);
    if s.diag.volt == Ok then s.words.alarm - {VoltUp, VoltLow}
    else if IsTripped(s.diag.volt) && narrow == Below then s.words.alarm - {VoltUp} + {VoltLow}
    else if IsTripped(s.diag.volt) && narrow == Above then s.words.alarm - {VoltLow} + {VoltUp}
    else s.words.alarm
  }

  /** DiagVoltageError: the debounce machine also opens and closes the output of a charging connector. */
  function DiagVoltage(s: Con, x: real, relayOn: bool, latched: bool): Con {
    var t := Debounce(s, VoltCh, x).(words := s.words.(alarm := VoltAlarm(s, x)));
    if s.state == Charging && (Trips(s, VoltCh) || Recovers(s, VoltCh)) then
      var u := SetRelay(t, Recovers(s, VoltCh), relayOn);
      if s.cfg.socket == TypeB then SetLatch(u, Recovers(s, VoltCh), latched) else u
    else t
  }

  function FreqAlarm(s: Con, x: real): set<AlarmBit> {
    if s.diag.freq == Ok then s.words.alarm - {FreqCri}
    else if IsTripped(s.diag.freq) && Narrow(s.cfg, FreqCh, x) != InBand then s.words.alarm + {FreqCri}
    else s.words.alarm
  }

  function DiagFreq(s: Con, x: real): Con {
    Debounce(s, FreqCh, x).(words := s.words.(alarm := FreqAlarm(s, x)))
  }

  // ----- current diagnosis ---------------------------------------------------

  predicate OverCurrent(cfg: Config, a: real) { a > cfg.ratedCurrent * CURR_FACTOR }

  function WithCurr(s: Con, c: CurrState, t: Timer): Con {
    s.(diag := s.diag.(curr := c), timers := s.timers.(curr := t))
  }

  function CurrMachine(s: Con, over: bool): Con {
    var due := CurrTimer in s.exc;
    var rest := s.exc - {CurrTimer};
    match s.diag.curr
    case CurrInit => WithCurr(s, CurrDelay, Running(s.clock + CURR_INIT_CYC))
    case CurrDelay => if due then WithCurr(s, CurrNormal, Stopped).(exc := rest) else s
    case CurrNormal =>
      var w := s.words.(alarm := s.words.alarm - {CurrUpWar, CurrUpCri});
      if over then
        WithCurr(s, CurrUpperDummy, Running(s.clock + CURR_DUMMY_CYC)).(words := w, out := s.out.(pwm := true))
      else s.(words := w, charge := s.charge + {CurrOK})
    case CurrUpperDummy =>
      var w := s.words.(alarm := s.words.alarm + {CurrUpWar} - {CurrUpCri});
      if due then WithCurr(s, CurrUpperFix, Running(s.clock + CURR_DUMMY_CYC)).(words := w, exc := rest)
      else if over then s.(words := w)
      else WithCurr(s, CurrNormal, Stopped).(words := w)
    case CurrUpperFix =>
      if due then WithCurr(s, CurrError, Stopped).(exc := rest, charge := s.charge - {CurrOK})
      else if over then s
      else WithCurr(s, CurrNormal, Stopped)
    case CurrError => s
  }

  /** DiagCurrentError: the machine, then the check that lets an unplugged connector leave the error. */
  function DiagCurrent(s: Con, a: real): Con {
    var over := OverCurrent(s.cfg, a);
    var t := CurrMachine(s, over);
    if t.diag.curr == CurrError then
      t.(words := t.words.(alarm := t.words.alarm - {CurrUpWar} + {CurrUpCri}),
         diag := t.diag.(curr := if PlugOK !in t.charge && !over then CurrInit else CurrError))
    else t
  }

  // ----- plug and latch ------------------------------------------------------

  function DiagPlug(s: Con): Con {
    var closed := s.pilot.cp == Cp6Pwm || s.pilot.cp == Cp6;
    var plug := match s.pilot.plug
                case Plug => s.charge + {PlugOK}
                case Unplug => s.charge - {PlugOK}
                case PlugUnread => s.charge;
    var signal := match s.pilot.plug
                  case Plug => s.words.signal + {Plugged}
                  case Unplug => s.words.signal - {Plugged}
                  case PlugUnread => s.words.signal;
    s.(charge := if closed then plug + {S2Closed} - {S2Opened} else plug + {S2Opened} - {S2Closed},
       words := s.words.(signal := if closed then signal + {S2} else signal - {S2}))
  }

  function DiagLock(s: Con): Con {
    if s.cfg.socket == TypeC || s.out.lock == Lock then
      s.(charge := s.charge + {Locked}, words := s.words.(signal := s.words.signal + {SocketLocked}))
    else
      s.(charge := s.charge - {Locked}, words := s.words.(signal := s.words.signal - {SocketLocked}))
  }

  /** The class a pilot voltage falls in; Bad is none of the three windows. */
  datatype CpClass = Bad | Twelve | Nine | Six

  function ClassOf(v: real): CpClass {
    if 11.2 < v < 12.8 then Twelve else if 7.8 < v < 9.8 then Nine else if 5.2 < v < 6.8 then Six else Bad
  }

  function StateOf(c: CpClass, pwm: bool): CpState {
    match c
    case Twelve => if pwm then Cp12Pwm else Cp12
    case Nine => if pwm then Cp9Pwm else Cp9
    case Six => if pwm then Cp6Pwm else Cp6
    case Bad => CpErr
  }

  /** GetCPState: three bad samples in a row make an error and switch the pilot off. */
  function SampleCp(s: Con, v: real): Con {
    var c := ClassOf(v);
    if c != Bad then
      s.(pilot := s.pilot.(cp := StateOf(c, s.out.pwm), errCont := 0),
         words := s.words.(fault := s.words.fault - {CPFault}))
    else if s.pilot.errCont + 1 >= 3 then
      s.(pilot := s.pilot.(cp := CpErr, errCont := 0), out := s.out.(pwm := false),
         words := s.words.(fault := s.words.fault + {CPFault}))
    else s.(pilot := s.pilot.(errCont := s.pilot.errCont + 1))
  }

  predicate Live(cp: CpState) { cp != Cp12 && cp != Cp12Pwm && cp != CpErr }

  /** GetPlugState. */
  function SamplePlug(s: Con, v: real, cc: bool): Con {
    var t := SampleCp(s, v);
    if s.cfg.socket == TypeB then
      t.(words := t.words.(signal := if cc then t.words.signal + {CC} else t.words.signal - {CC}),
         pilot := t.pilot.(plug := if Live(t.pilot.cp) && cc then Plug else Unplug))
    else t.(pilot := t.pilot.(plug := if Live(t.pilot.cp) then Plug else Unplug))
  }
}
