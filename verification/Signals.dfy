/** The shared state of one connector: event bits, signal words, timers, diagnosis machines and outputs. */
module Signals {

  /** STATE_CON_IDLE, PLUGED, PRECONTRACT, PRECONTRACT_LOSEPLUG, STARTCHARGE, CHARGING, STOPCHARGE, UNLOCK,
      RETURN, ERROR and DEV_ERROR, in this order. */
  datatype ConState =
    | Idle | Pluged | Precontract | LosePlug | Starting | Charging
    | Stopping | Unlocking | Returning | Faulted | DevFaulted

  /** Bits of xHandleEventCharge. */
  datatype ChargeBit =
    | Authed | Locked | VoltOK | CurrOK | FreqOK | S2Closed | S2Opened | SocketTempOK | ACTempOK | PlugOK
    | StartOK | EVSETempOK | ScramOK | PEOK | KnockOK | ArresterOK | PowerOffOK

  /** Bits of xHandleEventException. */
  datatype ExcBit =
    | VoltTimer | CurrTimer | ChargeTimer | FreqTimer
    | LimitEnergy | LimitFee | LimitTime | RemoteStop | RFIDStop | OfflineStop | EmergencyStop

  /** Stop-reason bits of xHandleEventOrder. */
  datatype StopType =
    | StopEnergy | StopFee | StopTime | StopOffline | StopRemote | StopRFID | StopEmergency
    | StopCurr | StopScram | StopFull | StopUnPlug | StopTemp

  datatype SignalBit = Standby | Working | Ending | FaultState | S2 | CC | Plugged | SocketLocked | RelayL | RelayN
  datatype AlarmBit = VoltUp | VoltLow | CurrUpWar | CurrUpCri | FreqCri
  datatype FaultBit = SocketLockFault | RelayPaste | CPFault | MeterFault | TempFault
  datatype EvseFault = RFID | OtherEvse(nat)

  const EVSE_READY: set<ChargeBit> := {ScramOK, PEOK, KnockOK, ArresterOK, EVSETempOK, PowerOffOK}
  const CP_SWITCH_CONDITION: set<ChargeBit> :=
    {VoltOK, CurrOK, FreqOK, SocketTempOK, ACTempOK, PlugOK} + EVSE_READY
  const CHARGE_CONDITION: set<ChargeBit> := CP_SWITCH_CONDITION + {S2Closed, Authed, Locked}

  /** VoltState_t and FreqState_t have the same six values. */
  datatype DebState = Ok | UpperDummy | Upper | LowerDummy | Lower | OkDummy
  datatype CurrState = CurrInit | CurrDelay | CurrNormal | CurrUpperDummy | CurrUpperFix | CurrError

  datatype CpState = CpNone | CpErr | Cp12 | Cp12Pwm | Cp9 | Cp9Pwm | Cp6 | Cp6Pwm
  datatype PlugState = PlugUnread | Plug | Unplug
  datatype LockState = LockUnread | Lock | Unlock
  datatype Socket = TypeB | TypeC

  /** An ideal one-shot timer: a deadline in milliseconds, gone once it fires or is deleted. */
  datatype Timer = Stopped | Running(due: nat)

  datatype Config = Config(socket: Socket, voltLower: real, voltUpper: real, ratedCurrent: real)

  /** ulSignalState, ulSignalAlarm and ulSignalFault. */
  datatype Words = Words(signal: set<SignalBit>, alarm: set<AlarmBit>, fault: set<FaultBit>)

  /** xVoltStat, xCurrStat and xFreqStat. */
  datatype Diag = Diag(volt: DebState, curr: CurrState, freq: DebState)

  datatype Timers = Timers(volt: Timer, curr: Timer, freq: Timer, charge: Timer)

  /** The retry counters and the device-error flag. */
  datatype Tries = Tries(stop: nat, unlock: nat, dev: bool)

  /** Commanded relay, last relay reading, commanded latch, last latch reading, pilot switched to PWM. */
  datatype Outputs = Outputs(relay: bool, relayRead: bool, latch: bool, lock: LockState, pwm: bool)

  datatype Pilot = Pilot(cp: CpState, errCont: nat, plug: PlugState, loadPercent: nat)

  datatype Con = Con(
    cfg: Config, clock: nat, state: ConState,
    charge: set<ChargeBit>, exc: set<ExcBit>, stops: set<StopType>,
    words: Words, diag: Diag, timers: Timers, tries: Tries, out: Outputs, pilot: Pilot)

  const VOLT_DUMMY_CYC := 3000
  const VOLT_RECOVER_CYC := 5000
  const CURR_INIT_CYC := 500
  const CURR_DUMMY_CYC := 2000
  const FREQ_DUMMY_CYC := 1000
  const ANTI_SHAKE_CYC := 1000
  const VOLT_MARGIN := 10.0
  const CURR_FACTOR := 1.1
  const FREQ_LOWER := 49.0
  const FREQ_UPPER := 51.0
  const FREQ_MARGIN := 0.5

  /** A connector as CONCreate leaves it, outputs open; what the hardware shows is arbitrary. */
  ghost predicate Initial(s: Con) {
    && s.state == Idle && s.charge == {} && s.exc == {} && s.stops == {}
    && s.words == Words({}, {}, {})
    && s.diag == Diag(Ok, CurrInit, Ok)
    && s.timers == Timers(Stopped, Stopped, Stopped, Stopped)
    && s.tries == Tries(0, 0, false)
    && !s.out.relay
    && s.pilot == Pilot(CpNone, 0, PlugUnread, 100)
  }
}
