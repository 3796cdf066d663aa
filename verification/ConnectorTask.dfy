/** One connector as the firmware keeps it: an object the charging task and the diagnosis task both write.
    Every method is proved to do what ChargeSpec says, and every entry point to be a step of Runs that keeps the
    invariant of Session. */
module ConnectorTask {
  import opened Signals
  import S = ChargeSpec
  import R = Runs
  import Session

  datatype ErrorCode = ErrNo | ErrCpSwitchFault | ErrRelayPaste

  lemma StepKeeps(s: Con, step: R.Step)
    ensures Session.Sound(s) ==> Session.Sound(R.Apply(s, step))
  {
    hide R.Apply, Session.Sound;
    if Session.Sound(s) { Session.StepSound(s, step); }
  }

  lemma PassKeeps(s: Con, i: S.PassInput)
    ensures Session.Sound(s) ==> Session.Sound(S.ChargePass(s, i))
  {
    hide Session.Sound, S.ChargePass;
    StepKeeps(s, R.Charge(i));
  }

  lemma VoltKeeps(s: Con, x: real, relayOn: bool, latched: bool)
    ensures Session.Sound(s) ==> Session.Sound(S.DiagVoltage(s, x, relayOn, latched))
  {
    hide Session.Sound, S.DiagVoltage;
    StepKeeps(s, R.Volt(x, relayOn, latched));
  }

  /** The other calls a task makes on a connector. */
  lemma CallsKeep(s: Con)
    ensures Session.Sound(s) ==> Session.Sound(S.DiagPlug(s)) && Session.Sound(S.DiagLock(s))
    ensures Session.Sound(s) ==> forall x: real :: Session.Sound(S.DiagFreq(s, x)) && Session.Sound(S.DiagCurrent(s, x))
    ensures Session.Sound(s) ==> forall v: real, cc: bool :: Session.Sound(S.SamplePlug(s, v, cc))
  {
    hide Session.Sound, S.DiagPlug, S.DiagLock, S.DiagFreq, S.DiagCurrent, S.SamplePlug;
    StepKeeps(s, R.PlugDiag);
    StepKeeps(s, R.LockDiag);
    forall x: real ensures Session.Sound(s) ==> Session.Sound(S.DiagFreq(s, x)) && Session.Sound(S.DiagCurrent(s, x)) {
      StepKeeps(s, R.Freq(x));
      StepKeeps(s, R.Current(x));
    }
    forall v: real, cc: bool ensures Session.Sound(s) ==> Session.Sound(S.SamplePlug(s, v, cc)) {
      StepKeeps(s, R.Poll(v, cc));
    }
  }

  class Connector {
    const cfg: Config
    var clock: nat
    var state: ConState
    var charge: set<ChargeBit>
    var exc: set<ExcBit>
    var stops: set<StopType>
    var words: Words
    var diag: Diag
    var timers: Timers
    var tries: Tries
    var out: Outputs
    var pilot: Pilot

    ghost function View(): Con
      reads this
    {
      Con(cfg, clock, state, charge, exc, stops, words, diag, timers, tries, out, pilot)
    }

    /** The invariant of every run. */
    ghost predicate Valid()
      reads this
    {
      Session.Sound(View())
    }

    constructor CONCreate(cfg: Config)
      ensures Initial(View()) && this.cfg == cfg && Valid()
    {
      this.cfg := cfg;
      clock, state, charge, exc, stops := 0, Idle, {}, {}, {};
      words := Words({}, {}, {});
      diag := Diag(Ok, CurrInit, Ok);
      timers := Timers(Stopped, Stopped, Stopped, Stopped);
      tries := Tries(0, 0, false);
      out := Outputs(false, false, false, LockUnread, false);
      pilot := Pilot(CpNone, 0, PlugUnread, 100);
    }

    // ----- connector.c -------------------------------------------------------

    /** SetCPSwitch: PWM from the rated current, or the constant level. */
    method SetCPSwitch(on: bool)
      modifies this
      ensures View() == old(View()).(out := old(View()).out.(pwm := on))
    {
      out := out.(pwm := on);
    }

    method GetRelayState(on: bool)
      modifies this
      ensures View() == old(View()).(out := old(View()).out.(relayRead := on),
                                     words := S.RelaySignal(old(View()).words, on))
    {
      if on {
        words := words.(signal := words.signal + {RelayL});
        words := words.(signal := words.signal + {RelayN});
      } else {
        words := words.(signal := words.signal - {RelayL});
        words := words.(signal := words.signal - {RelayN});
      }
      assert words.signal == S.RelaySignal(old(View()).words, on).signal;
      out := out.(relayRead := on);
    }

    method SetRelay(cmd: bool, on: bool)
      modifies this
      ensures View() == S.SetRelay(old(View()), cmd, on)
    {
      out := out.(relay := cmd);
      GetRelayState(on);
    }

    method GetBTypeSocketLock(latched: bool)
      modifies this
      ensures View() == old(View()).(out := old(View()).out.(lock := S.LockOf(latched)))
    {
      out := out.(lock := if latched then Lock else Unlock);
    }

    method SetBTypeSocketLock(cmd: bool, latched: bool)
      modifies this
      ensures View() == S.SetLatch(old(View()), cmd, latched)
    {
      out := out.(latch := cmd);
      GetBTypeSocketLock(latched);
    }

    /** Always ERR_NO: the reading after the command is stored but does not change the result. */
    method StartCharge(on: bool) returns (err: ErrorCode)
      modifies this
      ensures err == ErrNo && View() == S.SetRelay(old(View()), true, on)
    {
      SetRelay(true, on);
      err := ErrNo;
    }

    method StopCharge(on: bool) returns (err: ErrorCode)
      modifies this
      ensures err == ErrNo <==> S.PilotReleased(old(pilot.cp)) && !on
      ensures var off := old(View()).(out := old(View()).out.(pwm := false));
              View() == if S.PilotReleased(old(pilot.cp)) then S.SetRelay(off, false, on) else off
    {
      SetCPSwitch(false);
      if pilot.cp == Cp6 || pilot.cp == Cp9 || pilot.cp == Cp12 {
        // the wait for the vehicle's switch ends the same way whether or not it opened
      } else if pilot.cp != CpErr {
        return ErrCpSwitchFault;
      }
      SetRelay(false, on);
      err := if !out.relayRead then ErrNo else ErrRelayPaste;
    }

    method GetCPState(v: real)
      modifies this
      ensures View() == S.SampleCp(old(View()), v)
    {
      if 11.2 < v < 12.8 {
        pilot := pilot.(cp := if out.pwm then Cp12Pwm else Cp12);
        pilot := pilot.(errCont := 0);
        words := words.(fault := words.fault - {CPFault});
      } else if 7.8 < v < 9.8 {
        pilot := pilot.(cp := if out.pwm then Cp9Pwm else Cp9);
        pilot := pilot.(errCont := 0);
        words := words.(fault := words.fault - {CPFault});
      } else if 5.2 < v < 6.8 {
        pilot := pilot.(cp := if out.pwm then Cp6Pwm else Cp6);
        pilot := pilot.(errCont := 0);
        words := words.(fault := words.fault - {CPFault});
      } else {
        pilot := pilot.(errCont := pilot.errCont + 1);
        if pilot.errCont >= 3 {
          SetCPSwitch(false);
          pilot := pilot.(errCont := 0);
          pilot := pilot.(cp := CpErr);
          words := words.(fault := words.fault + {CPFault});
        }
      }
    }

    method GetPlugState(v: real, cc: bool)
      modifies this
      ensures View() == S.SamplePlug(old(View()), v, cc)
      ensures old(Valid()) ==> Valid()
    {
      hide Session.Sound;
      CallsKeep(View());
      if cfg.socket == TypeB {
        words := words.(signal := if cc then words.signal + {CC} else words.signal - {CC});
        GetCPState(v);
        pilot := pilot.(plug :=
          if cc && pilot.cp != Cp12 && pilot.cp != Cp12Pwm && pilot.cp != CpErr then Plug else Unplug);
      } else {
        GetCPState(v);
        pilot := pilot.(plug := if pilot.cp != Cp12 && pilot.cp != Cp12Pwm && pilot.cp != CpErr then Plug else Unplug);
      }
    }

    // ----- taskcharge.c ------------------------------------------------------

    method SetCONSignalWorkState(b: SignalBit)
      requires b == Standby || b == Working || b == Ending || b == FaultState
      modifies this
      ensures View() == old(View()).(words := S.Work(old(View()).words, b))
    {
      var rest := {Standby, Working, Ending, FaultState} - {b};
      words := words.(signal := words.signal + {b});
      words := words.(signal := words.signal - rest);
      assert words.signal == S.Work(old(View()).words, b).signal;
    }

    method PassStarting(i: S.PassInput)
      requires state == Starting
      modifies this
      ensures View() == S.PassStarting(old(View()), i)
    {
      if !(CP_SWITCH_CONDITION + {S2Closed} <= charge) {
        state := Precontract;
        return;
      }
      if Authed in charge {
        if cfg.socket == TypeB && Locked !in charge {
          SetBTypeSocketLock(true, i.latched);
        }
        if Locked in charge {
          var err := StartCharge(i.relayOn);
          if err == ErrNo {
            charge := charge + {StartOK};
            state := Charging;
          }
        }
      }
    }

    /** The demands of the other tasks, in the order the pass looks at them. */
    method UserStopped() returns (stopped: bool)
      requires state == Charging
      modifies this
      ensures stopped <==> S.UserStop(old(exc)) != S.NoCause
      ensures View() == S.Conclude(old(View()), S.UserStop(old(exc)))
    {
      stopped := true;
      if LimitEnergy in exc {
        stops, exc, state := stops + {StopEnergy}, exc - {LimitEnergy}, Stopping;
      } else if LimitFee in exc {
        stops, exc, state := stops + {StopFee}, exc - {LimitFee}, Stopping;
      } else if LimitTime in exc {
        stops, exc, state := stops + {StopTime}, exc - {LimitTime}, Stopping;
      } else if OfflineStop in exc {
        stops, exc, state := stops + {StopOffline}, exc - {OfflineStop}, Stopping;
      } else if RemoteStop in exc {
        stops, exc, state := stops + {StopRemote}, exc - {RemoteStop}, Stopping;
      } else if RFIDStop in exc {
        stops, exc, state := stops + {StopRFID}, exc - {RFIDStop}, Stopping;
      } else if EmergencyStop in exc {
        stops, exc, state := stops + {StopEmergency}, exc - {EmergencyStop}, Stopping;
      } else {
        stopped := false;
      }
    }

    method ConditionStopped(scram: bool)
      requires state == Charging
      modifies this
      ensures View() == S.Conclude(old(View()), S.ConditionCause(old(words.alarm), old(charge), scram))
    {
      if CurrUpCri in words.alarm {
        stops, state := stops + {StopCurr}, Stopping;
      } else if scram {
        stops, state := stops + {StopScram}, Stopping;
      } else if S2Opened in charge && PlugOK in charge {
        stops, state := stops + {StopFull}, Stopping;
      } else if PlugOK !in charge {
        stops, state := stops + {StopUnPlug}, Stopping;
      } else if !(CHARGE_CONDITION <= charge) && VoltOK in charge {
        if EVSETempOK !in charge || ACTempOK !in charge {
          stops := stops + {StopTemp};
        }
        state := Stopping;
      }
    }

    method PassCharging(i: S.PassInput)
      requires state == Charging
      modifies this
      ensures View() == S.PassCharging(old(View()), i)
    {
      hide S.UserStop, S.ConditionCause;
      SetCONSignalWorkState(Working);
      assert i.evseFault - {} == i.evseFault;
      if RFID in i.evseFault && i.remoteStart {
        if words.fault != {} || i.evseFault - {RFID} != {} {
          state, tries := Stopping, tries.(dev := true);
          return;
        }
      } else if words.fault != {} || i.evseFault != {} {
        assert RFID !in i.evseFault ==> i.evseFault - {RFID} == i.evseFault;
        state, tries := Stopping, tries.(dev := true);
        return;
      }
      var stopped := UserStopped();
      if !stopped { ConditionStopped(i.scram); }
    }

    method PassStopping(i: S.PassInput)
      requires state == Stopping
      modifies this
      ensures View() == S.PassStopping(old(View()), i)
    {
      SetCONSignalWorkState(Ending);
      charge := charge - {Authed};
      var err := StopCharge(i.relayOn);
      if err == ErrNo {
        charge := charge - {StartOK};
        assert charge == old(charge) - {Authed, StartOK};
        tries := tries.(stop := 0);
        state := Unlocking;
      } else {
        tries := tries.(stop := tries.stop + 1);
        if tries.stop >= 5 { state := Unlocking; }
      }
    }

    method PassUnlocking(i: S.PassInput)
      requires state == Unlocking
      modifies this
      ensures View() == S.PassUnlocking(old(View()), i)
    {
      if cfg.socket == TypeB {
        if Locked in charge {
          SetBTypeSocketLock(false, i.latched);
          GetBTypeSocketLock(i.latched);
          if out.lock == Unlock {
            tries := tries.(unlock := 0);
            charge := charge - {Locked};
            state := if tries.stop != 0 || tries.dev then Faulted else Returning;
          } else {
            tries := tries.(unlock := tries.unlock + 1);
            if tries.unlock >= 5 || tries.dev { state := Faulted; }
          }
        }
      } else {
        state := if tries.stop != 0 || tries.dev then Faulted else Returning;
      }
    }

    /** The readings of an ERROR pass: an open relay or, on a type B socket, an open latch lets the connector go. */
    method RecheckOutputs(i: S.PassInput)
      modifies this
      ensures var o := old(View());
              View() == o.(words := S.RelaySignal(o.words, i.relayOn).(
                             fault := o.words.fault - S.FaultsCleared(cfg.socket, i)),
                           out := o.out.(relayRead := i.relayOn,
                                         lock := if cfg.socket == TypeB then S.LockOf(i.latched) else o.out.lock),
                           state := if !i.relayOn || (cfg.socket == TypeB && !i.latched) then Returning else o.state)
    {
      GetRelayState(i.relayOn);
      if !out.relayRead {
        words := words.(fault := words.fault - {RelayPaste});
        state := Returning;
      }
      if cfg.socket == TypeB {
        GetBTypeSocketLock(i.latched);
        if out.lock == Unlock {
          words := words.(fault := words.fault - {SocketLockFault});
          state := Returning;
        }
      }
      assert words.fault == old(words.fault) - S.FaultsCleared(cfg.socket, i);
    }

    method PassFaulted(i: S.PassInput)
      requires state == Faulted
      modifies this
      ensures View() == S.PassFaulted(old(View()), i)
    {
      hide S.FaultsCleared;
      SetCONSignalWorkState(FaultState);
      SetCPSwitch(false);
      if tries.dev {
        state := DevFaulted;
        return;
      } else if tries.stop != 0 {
        words := words.(fault := words.fault + {RelayPaste});
      } else if tries.unlock != 0 {
        words := words.(fault := words.fault + {SocketLockFault});
      } else {
        state := Returning;
        assert words.fault + {} == words.fault;
      }
      RecheckOutputs(i);
    }

    method PassReturning()
      requires state == Returning
      modifies this
      ensures View() == S.PassReturning(old(View()))
    {
      tries := Tries(0, 0, false);
      charge := charge - {StartOK};
      charge := charge - {Authed};
      assert charge == old(charge) - {StartOK, Authed};
      SetCPSwitch(false);
      pilot := pilot.(loadPercent := 100);
      state := Idle;
    }

    /** One turn of the endless loop of vTaskEVSECharge for this connector. */
    method ChargePass(i: S.PassInput)
      modifies this
      ensures View() == S.ChargePass(old(View()), i)
      ensures old(Valid()) ==> Valid()
    {
      hide Session.Sound;
      PassKeeps(View(), i);
      hide S.PassStarting, S.PassCharging, S.PassStopping, S.PassUnlocking, S.PassFaulted, S.PassReturning;
      match state
      case Idle =>
        SetCONSignalWorkState(Standby);
        if PlugOK in charge { state := Pluged; }
      case Pluged =>
        if CP_SWITCH_CONDITION <= charge {
          assert PlugOK in CP_SWITCH_CONDITION;
          SetCPSwitch(true);
          if pilot.cp == Cp9Pwm || pilot.cp == Cp6Pwm { state := Precontract; }
        }
        if PlugOK !in charge { state := Returning; }
      case Precontract =>
        if PlugOK !in charge {
          timers := timers.(charge := Running(clock + ANTI_SHAKE_CYC));
          state := LosePlug;
        } else if !(CP_SWITCH_CONDITION <= charge) {
          state := Returning;
        } else if S2Closed in charge {
          state := Starting;
        }
      case LosePlug =>
        if ChargeTimer in exc {
          exc := exc - {ChargeTimer};
          timers := timers.(charge := Stopped);
          state := Returning;
        } else if PlugOK in charge {
          timers := timers.(charge := Stopped);
          state := Precontract;
        }
      case Starting => PassStarting(i);
      case Charging => PassCharging(i);
      case Stopping => PassStopping(i);
      case Unlocking => PassUnlocking(i);
      case Faulted => PassFaulted(i);
      case DevFaulted =>
        if words.fault == {} && i.evseFault == {} {
          tries := tries.(dev := false);
          state := Faulted;
        }
      case Returning => PassReturning();
    }

    // ----- interface_diag.c --------------------------------------------------

    /** The output of a charging connector follows a trip or a recovery of the voltage. */
    method SwitchOutput(on: bool, relayOn: bool, latched: bool)
      modifies this
      ensures var o := old(View());
              View() == if o.state != Charging then o
                        else if cfg.socket == TypeB then S.SetLatch(S.SetRelay(o, on, relayOn), on, latched)
                        else S.SetRelay(o, on, relayOn)
    {
      if state == Charging {
        SetRelay(on, relayOn);
        if cfg.socket == TypeB { SetBTypeSocketLock(on, latched); }
      }
    }

    method VoltInOrder(x: real)
      requires diag.volt == Ok
      modifies this
      ensures forall r, l :: View() == S.DiagVoltage(old(View()), x, r, l)
    {
      var side := S.Classify(x, cfg.voltLower, cfg.voltUpper);
      words := words.(alarm := words.alarm - {VoltUp});
      words := words.(alarm := words.alarm - {VoltLow});
      assert words.alarm == old(words.alarm) - {VoltUp, VoltLow};
      match side
      case InBand => charge := charge + {VoltOK};
      case Below =>
        timers := timers.(volt := Running(clock + VOLT_DUMMY_CYC));
        diag := diag.(volt := LowerDummy);
      case Above =>
        timers := timers.(volt := Running(clock + VOLT_DUMMY_CYC));
        diag := diag.(volt := UpperDummy);
    }

    method VoltTripping(x: real, relayOn: bool, latched: bool)
      requires S.IsDummy(diag.volt)
      modifies this
      ensures View() == S.DiagVoltage(old(View()), x, relayOn, latched)
    {
      hide S.Narrow;
      var side := S.Classify(x, cfg.voltLower, cfg.voltUpper);
      if VoltTimer in exc {
        exc := exc - {VoltTimer};
        timers := timers.(volt := Stopped);
        charge := charge - {VoltOK};
        SwitchOutput(false, relayOn, latched);
        diag := diag.(volt := if diag.volt == LowerDummy then Lower else Upper);
      } else if side == S.InBand {
        timers := timers.(volt := Stopped);
        diag := diag.(volt := Ok);
      } else if side == S.Below && diag.volt == UpperDummy {
        timers := timers.(volt := Running(clock + VOLT_DUMMY_CYC));
        diag := diag.(volt := LowerDummy);
      } else if side == S.Above && diag.volt == LowerDummy {
        timers := timers.(volt := Running(clock + VOLT_DUMMY_CYC));
        diag := diag.(volt := UpperDummy);
      }
    }

    method VoltTripped(x: real)
      requires S.IsTripped(diag.volt)
      modifies this
      ensures forall r, l :: View() == S.DiagVoltage(old(View()), x, r, l)
    {
      hide S.Wide;
      var tight := S.Classify(x, cfg.voltLower + VOLT_MARGIN, cfg.voltUpper - VOLT_MARGIN);
      match tight
      case InBand =>
        timers := timers.(volt := Running(clock + VOLT_RECOVER_CYC));
        diag := diag.(volt := OkDummy);
      case Below => words := words.(alarm := words.alarm - {VoltUp} + {VoltLow});
      case Above => words := words.(alarm := words.alarm - {VoltLow} + {VoltUp});
    }

    method VoltRecovering(x: real, relayOn: bool, latched: bool)
      requires diag.volt == OkDummy
      modifies this
      ensures View() == S.DiagVoltage(old(View()), x, relayOn, latched)
    {
      hide S.Wide;
      var tight := S.Classify(x, cfg.voltLower + VOLT_MARGIN, cfg.voltUpper - VOLT_MARGIN);
      if VoltTimer in exc {
        exc := exc - {VoltTimer};
        timers := timers.(volt := Stopped);
        charge := charge + {VoltOK};
        SwitchOutput(true, relayOn, latched);
        diag := diag.(volt := Ok);
      } else if tight == S.Below {
        timers := timers.(volt := Stopped);
        diag := diag.(volt := Lower);
      } else if tight == S.Above {
        timers := timers.(volt := Stopped);
        diag := diag.(volt := Upper);
      }
    }

    method DiagVoltageError(x: real, relayOn: bool, latched: bool)
      modifies this
      ensures View() == S.DiagVoltage(old(View()), x, relayOn, latched)
      ensures old(Valid()) ==> Valid()
    {
      hide Session.Sound;
      VoltKeeps(View(), x, relayOn, latched);
      hide S.DiagVoltage;
      if diag.volt == Ok { VoltInOrder(x); }
      else if S.IsDummy(diag.volt) { VoltTripping(x, relayOn, latched); }
      else if S.IsTripped(diag.volt) { VoltTripped(x); }
      else { VoltRecovering(x, relayOn, latched); }
    }

    method FreqTripping(x: real)
      requires S.IsDummy(diag.freq)
      modifies this
      ensures View() == S.DiagFreq(old(View()), x)
    {
      hide S.Narrow;
      var side := S.Classify(x, FREQ_LOWER, FREQ_UPPER);
      if FreqTimer in exc {
        exc := exc - {FreqTimer};
        timers := timers.(freq := Stopped);
        charge := charge - {FreqOK};
        diag := diag.(freq := if diag.freq == LowerDummy then Lower else Upper);
      } else if side == S.InBand {
        timers := timers.(freq := Stopped);
        diag := diag.(freq := Ok);
      } else if side == S.Below && diag.freq == UpperDummy {
        timers := timers.(freq := Running(clock + FREQ_DUMMY_CYC));
        diag := diag.(freq := LowerDummy);
      } else if side == S.Above && diag.freq == LowerDummy {
        timers := timers.(freq := Running(clock + FREQ_DUMMY_CYC));
        diag := diag.(freq := UpperDummy);
      }
    }

    method FreqRecovering(x: real)
      requires diag.freq == OkDummy
      modifies this
      ensures View() == S.DiagFreq(old(View()), x)
    {
      hide S.Wide;
      var tight := S.Classify(x, FREQ_LOWER + FREQ_MARGIN, FREQ_UPPER - FREQ_MARGIN);
      if FreqTimer in exc {
        exc := exc - {FreqTimer};
        timers := timers.(freq := Stopped);
        charge := charge + {FreqOK};
        diag := diag.(freq := Ok);
      } else if tight == S.Below {
        timers := timers.(freq := Stopped);
        diag := diag.(freq := Lower);
      } else if tight == S.Above {
        timers := timers.(freq := Stopped);
        diag := diag.(freq := Upper);
      }
    }

    method DiagFreqError(x: real)
      modifies this
      ensures View() == S.DiagFreq(old(View()), x)
      ensures old(Valid()) ==> Valid()
    {
      hide Session.Sound;
      CallsKeep(View());
      if diag.freq == Ok {
        words := words.(alarm := words.alarm - {FreqCri});
        match S.Classify(x, FREQ_LOWER, FREQ_UPPER) {
          case InBand => charge := charge + {FreqOK};
          case Below =>
            timers := timers.(freq := Running(clock + FREQ_DUMMY_CYC));
            diag := diag.(freq := LowerDummy);
          case Above =>
            timers := timers.(freq := Running(clock + FREQ_DUMMY_CYC));
            diag := diag.(freq := UpperDummy);
        }
      } else if S.IsDummy(diag.freq) {
        FreqTripping(x);
      } else if S.IsTripped(diag.freq) {
        if S.Classify(x, FREQ_LOWER + FREQ_MARGIN, FREQ_UPPER - FREQ_MARGIN) == S.InBand {
          timers := timers.(freq := Running(clock + FREQ_DUMMY_CYC));
          diag := diag.(freq := OkDummy);
        } else {
          words := words.(alarm := words.alarm + {FreqCri});
        }
      } else {
        FreqRecovering(x);
      }
    }

    method DiagCurrentError(a: real)
      modifies this
      ensures View() == S.DiagCurrent(old(View()), a)
      ensures old(Valid()) ==> Valid()
    {
      hide Session.Sound;
      CallsKeep(View());
      var over := a > cfg.ratedCurrent * CURR_FACTOR;
      match diag.curr {
        case CurrInit =>
          timers := timers.(curr := Running(clock + CURR_INIT_CYC));
          diag := diag.(curr := CurrDelay);
        case CurrDelay =>
          if CurrTimer in exc {
            exc := exc - {CurrTimer};
            timers := timers.(curr := Stopped);
            diag := diag.(curr := CurrNormal);
          }
        case CurrNormal =>
          words := words.(alarm := words.alarm - {CurrUpWar, CurrUpCri});
          if over {
            SetCPSwitch(true);
            timers := timers.(curr := Running(clock + CURR_DUMMY_CYC));
            diag := diag.(curr := CurrUpperDummy);
          } else {
            charge := charge + {CurrOK};
          }
        case CurrUpperDummy =>
          words := words.(alarm := words.alarm + {CurrUpWar} - {CurrUpCri});
          if CurrTimer in exc {
            exc := exc - {CurrTimer};
            timers := timers.(curr := Running(clock + CURR_DUMMY_CYC));
            diag := diag.(curr := CurrUpperFix);
          } else if !over {
            timers := timers.(curr := Stopped);
            diag := diag.(curr := CurrNormal);
          }
        case CurrUpperFix =>
          if CurrTimer in exc {
            exc := exc - {CurrTimer};
            timers := timers.(curr := Stopped);
            charge := charge - {CurrOK};
            diag := diag.(curr := CurrError);
          } else if !over {
            timers := timers.(curr := Stopped);
            diag := diag.(curr := CurrNormal);
          }
        case CurrError =>
      }
      if diag.curr == CurrError {
        words := words.(alarm := words.alarm - {CurrUpWar} + {CurrUpCri});
        if PlugOK !in charge && !over { diag := diag.(curr := CurrInit); }
      }
    }

    method DiagPlugError()
      modifies this
      ensures View() == S.DiagPlug(old(View()))
      ensures old(Valid()) ==> Valid()
    {
      hide Session.Sound;
      CallsKeep(View());
      if pilot.plug == Plug {
        charge, words := charge + {PlugOK}, words.(signal := words.signal + {Plugged});
      } else if pilot.plug == Unplug {
        charge, words := charge - {PlugOK}, words.(signal := words.signal - {Plugged});
      }
      if pilot.cp == Cp6Pwm || pilot.cp == Cp6 {
        charge := charge + {S2Closed};
        charge := charge - {S2Opened};
        words := words.(signal := words.signal + {S2});
      } else {
        charge := charge + {S2Opened};
        charge := charge - {S2Closed};
        words := words.(signal := words.signal - {S2});
      }
    }

    method DiagLockError()
      modifies this
      ensures View() == S.DiagLock(old(View()))
      ensures old(Valid()) ==> Valid()
    {
      hide Session.Sound;
      CallsKeep(View());
      if cfg.socket == TypeC || out.lock == Lock {
        charge, words := charge + {Locked}, words.(signal := words.signal + {SocketLocked});
      } else {
        charge, words := charge - {Locked}, words.(signal := words.signal - {SocketLocked});
      }
    }
  }
}
