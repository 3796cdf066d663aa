/** What one pass of the charging task does, state by state, said of the single bits and readings it looks at. */
module PassLaws {
  import opened Signals
  import opened ChargeSpec

  // ----- the conditions, bit by bit ------------------------------------------

  /** Supply, plug and station are in order: the twelve bits a pass needs to switch the pilot. */
  predicate SupplyReady(c: set<ChargeBit>) {
    && VoltOK in c && CurrOK in c && FreqOK in c && SocketTempOK in c && ACTempOK in c && PlugOK in c
    && ScramOK in c && PEOK in c && KnockOK in c && ArresterOK in c && EVSETempOK in c && PowerOffOK in c
  }

  /** And the vehicle asks, is authorised and latched: the fifteen bits a charge needs. */
  predicate ChargeReady(c: set<ChargeBit>) {
    SupplyReady(c) && S2Closed in c && Authed in c && Locked in c
  }

  lemma ReadyBits(c: set<ChargeBit>)
    ensures CP_SWITCH_CONDITION <= c <==> SupplyReady(c)
    ensures CP_SWITCH_CONDITION + {S2Closed} <= c <==> SupplyReady(c) && S2Closed in c
    ensures CHARGE_CONDITION <= c <==> ChargeReady(c)
  {
    if CP_SWITCH_CONDITION <= c {
      assert {VoltOK, CurrOK, FreqOK, SocketTempOK, ACTempOK, PlugOK} <= CP_SWITCH_CONDITION;
      assert EVSE_READY <= CP_SWITCH_CONDITION;
      assert SupplyReady(c);
    }
    assert CP_SWITCH_CONDITION + {S2Closed} <= c ==> CP_SWITCH_CONDITION <= c && S2Closed in c;
    assert CHARGE_CONDITION <= c ==> CP_SWITCH_CONDITION <= c && {S2Closed, Authed, Locked} <= c;
  }

  // ----- CHARGING ------------------------------------------------------------

  /** No fault of the connector, and none of the station but a failed card reader on a remote start. */
  predicate DeviceSound(s: Con, i: PassInput) {
    s.words.fault == {} && forall f :: f in i.evseFault ==> f == RFID && i.remoteStart
  }

  /** The demands to stop in the order they are looked at, each with the reason it is recorded under. */
  const DEMANDS: seq<(ExcBit, StopType)> := [
    (LimitEnergy, StopEnergy), (LimitFee, StopFee), (LimitTime, StopTime), (OfflineStop, StopOffline),
    (RemoteStop, StopRemote), (RFIDStop, StopRFID), (EmergencyStop, StopEmergency)]

  predicate NoDemand(exc: set<ExcBit>) {
    && LimitEnergy !in exc && LimitFee !in exc && LimitTime !in exc && OfflineStop !in exc
    && RemoteStop !in exc && RFIDStop !in exc && EmergencyStop !in exc
  }

  /** Exactly when a charge goes on. */
  predicate GoesOn(s: Con, i: PassInput) {
    && DeviceSound(s, i) && NoDemand(s.exc) && CurrUpCri !in s.words.alarm && !i.scram
    && PlugOK in s.charge && S2Opened !in s.charge && (ChargeReady(s.charge) || VoltOK !in s.charge)
  }

  lemma FaultyIff(s: Con, i: PassInput)
    ensures DeviceFaulty(s, i) <==> !DeviceSound(s, i)
  {
    var rest := i.evseFault - (if i.remoteStart then {RFID} else {});
    if rest == {} {
      forall f | f in i.evseFault ensures f == RFID && i.remoteStart { assert f !in rest; }
    }
  }

  /** From CHARGING a pass stays exactly when the charge goes on and else turns to STOPCHARGE; it leaves the outputs,
      the event bits and the retry counters alone, and shows the connector working. A device fault takes no demand and
      records no reason. */
  lemma ChargingGoesOn(s: Con, i: PassInput)
    requires s.state == Charging
    ensures var t := ChargePass(s, i);
            && t.state == (if GoesOn(s, i) then Charging else Stopping)
            && t.out == s.out && t.charge == s.charge && t.timers == s.timers && t.diag == s.diag
            && t.tries == s.tries.(dev := s.tries.dev || !DeviceSound(s, i))
            && t.words.alarm == s.words.alarm && t.words.fault == s.words.fault && Working in t.words.signal
            && (!DeviceSound(s, i) ==> t.exc == s.exc && t.stops == s.stops)
  {
    FaultyIff(s, i);
    ReadyBits(s.charge);
    hide DeviceFaulty, DeviceSound, SupplyReady;
  }

  /** Without one the first demand set is taken, and none but it; its own reason is recorded, and none but it. */
  lemma FirstDemandTaken(s: Con, i: PassInput, j: nat)
    requires s.state == Charging && DeviceSound(s, i)
    requires j < |DEMANDS| && DEMANDS[j].0 in s.exc && forall h: nat :: h < j ==> DEMANDS[h].0 !in s.exc
    ensures var t := ChargePass(s, i);
            && t.state == Stopping && t.exc == s.exc - {DEMANDS[j].0} && t.stops == s.stops + {DEMANDS[j].1}
  {
    FaultyIff(s, i);
    hide DeviceFaulty, DeviceSound, ConditionCause;
    assert forall h: nat :: h < j ==> DEMANDS[h].0 !in s.exc;
    assert j > 0 ==> DEMANDS[0].0 !in s.exc;
    assert j > 1 ==> DEMANDS[1].0 !in s.exc;
    assert j > 2 ==> DEMANDS[2].0 !in s.exc;
    assert j > 3 ==> DEMANDS[3].0 !in s.exc;
    assert j > 4 ==> DEMANDS[4].0 !in s.exc;
    assert j > 5 ==> DEMANDS[5].0 !in s.exc;
  }

  /** Without a demand the first reason that applies is recorded: overcurrent, scram, full, unplugged; a lost condition
      only when it is a temperature. */
  lemma ReasonRecorded(s: Con, i: PassInput)
    requires s.state == Charging && DeviceSound(s, i) && NoDemand(s.exc)
    ensures var t := ChargePass(s, i);
            && t.exc == s.exc
            && t.stops == s.stops +
                 if CurrUpCri in s.words.alarm then {StopCurr}
                 else if i.scram then {StopScram}
                 else if PlugOK !in s.charge then {StopUnPlug}
                 else if S2Opened in s.charge then {StopFull}
                 else if VoltOK in s.charge && (EVSETempOK !in s.charge || ACTempOK !in s.charge) then {StopTemp}
                 else {}
  {
    FaultyIff(s, i);
    ReadyBits(s.charge);
    hide DeviceFaulty, DeviceSound;
    assert s.stops + {} == s.stops;
  }

  // ----- before charging -----------------------------------------------------

  /** Nothing but the state, the timer of the plug and the signal word. */
  predicate Untouched(s: Con, t: Con) {
    && t.charge == s.charge && t.out == s.out && t.tries == s.tries && t.stops == s.stops && t.diag == s.diag
    && t.pilot == s.pilot && t.words.alarm == s.words.alarm && t.words.fault == s.words.fault
  }

  lemma FromIdle(s: Con, i: PassInput)
    requires s.state == Idle
    ensures var t := ChargePass(s, i);
            && t.state == (if PlugOK in s.charge then Pluged else Idle)
            && Untouched(s, t) && t.timers == s.timers && t.exc == s.exc && Standby in t.words.signal
  {
  }

  /** The pilot goes to PWM once supply and station are in order; a contract follows when it is seen at 9 V or 6 V
      PWM. */
  lemma FromPluged(s: Con, i: PassInput)
    requires s.state == Pluged
    ensures var t := ChargePass(s, i);
            && t.state == (if PlugOK !in s.charge then Returning
                           else if SupplyReady(s.charge) && s.pilot.cp in {Cp9Pwm, Cp6Pwm} then Precontract
                           else Pluged)
            && t == s.(state := t.state, out := s.out.(pwm := s.out.pwm || SupplyReady(s.charge)))
  {
    ReadyBits(s.charge);
  }

  /** A plug lost here is waited for: one second. */
  lemma FromPrecontract(s: Con, i: PassInput)
    requires s.state == Precontract
    ensures var t := ChargePass(s, i);
            && t.state == (if PlugOK !in s.charge then LosePlug
                           else if !SupplyReady(s.charge) then Returning
                           else if S2Closed in s.charge then Starting
                           else Precontract)
            && t == s.(state := t.state, timers := t.timers)
            && t.timers == if PlugOK in s.charge then s.timers else s.timers.(charge := Running(s.clock + 1000))
  {
    ReadyBits(s.charge);
  }

  lemma FromLosePlug(s: Con, i: PassInput)
    requires s.state == LosePlug
    ensures var t := ChargePass(s, i);
            && t.state == (if ChargeTimer in s.exc then Returning
                           else if PlugOK in s.charge then Precontract
                           else LosePlug)
            && t == s.(state := t.state, timers := t.timers, exc := s.exc - {ChargeTimer})
            && t.timers == if t.state == LosePlug then s.timers else s.timers.(charge := Stopped)
  {
    assert ChargeTimer !in s.exc ==> s.exc - {ChargeTimer} == s.exc;
  }

  /** The relay closes exactly when all fifteen bits are set, and then the session has started. */
  lemma FromStarting(s: Con, i: PassInput)
    requires s.state == Starting
    ensures var t := ChargePass(s, i);
            && t.state == (if !SupplyReady(s.charge) || S2Closed !in s.charge then Precontract
                           else if Authed in s.charge && Locked in s.charge then Charging
                           else Starting)
            && t.out.relay == (s.out.relay || t.state == Charging)
            && t.charge == (if t.state == Charging then s.charge + {StartOK} else s.charge)
            && (var locks := t.state == Starting && Authed in s.charge && s.cfg.socket == TypeB;
                && t.out.latch == (s.out.latch || locks)
                && t.out.lock == if !locks then s.out.lock else if i.latched then Lock else Unlock)
            && t.out.pwm == s.out.pwm && t.tries == s.tries && t.exc == s.exc && t.stops == s.stops
            && t.timers == s.timers
  {
    ReadyBits(s.charge);
    hide SupplyReady;
  }

  // ----- stopping ------------------------------------------------------------

  /** StopCharge: the pilot leaves PWM, and unless it still reads PWM the relay is commanded open; it succeeded when the
      relay then reads open. */
  lemma FromStopping(s: Con, i: PassInput)
    requires s.state == Stopping
    ensures var t := ChargePass(s, i);
            var released := s.pilot.cp in {Cp6, Cp9, Cp12, CpErr};
            var done := released && !i.relayOn;
            && !t.out.pwm && t.out.relay == (s.out.relay && !released) && t.out.latch == s.out.latch
            && t.charge == s.charge - (if done then {Authed, StartOK} else {Authed})
            && t.tries == s.tries.(stop := if done then 0 else s.tries.stop + 1)
            && t.state == (if done || s.tries.stop >= 4 then Unlocking else Stopping)
            && t.exc == s.exc && t.stops == s.stops && t.timers == s.timers && Ending in t.words.signal
            && t.words.alarm == s.words.alarm && t.words.fault == s.words.fault
  {
  }

  lemma FromUnlocking(s: Con, i: PassInput)
    requires s.state == Unlocking
    ensures var t := ChargePass(s, i);
            var over := if s.tries.stop == 0 && !s.tries.dev then Returning else Faulted;
            && (s.cfg.socket == TypeC ==> t == s.(state := over))
            && (s.cfg.socket == TypeB && Locked !in s.charge ==> t == s)
            && (s.cfg.socket == TypeB && Locked in s.charge ==>
                  && !t.out.latch && t.out.lock == (if i.latched then Lock else Unlock) && t.out.relay == s.out.relay
                  && t.charge == (if i.latched then s.charge else s.charge - {Locked})
                  && t.tries == s.tries.(unlock := if i.latched then s.tries.unlock + 1 else 0)
                  && t.state == (if !i.latched then over
                                 else if s.tries.unlock >= 4 || s.tries.dev then Faulted
                                 else Unlocking))
  {
  }

  // ----- errors --------------------------------------------------------------

  lemma FromFaulted(s: Con, i: PassInput)
    requires s.state == Faulted
    ensures var t := ChargePass(s, i);
            var open := !i.relayOn || (s.cfg.socket == TypeB && !i.latched);
            && t.state == (if s.tries.dev then DevFaulted
                           else if open || (s.tries.stop == 0 && s.tries.unlock == 0) then Returning
                           else Faulted)
            && t.out.relay == s.out.relay && t.out.latch == s.out.latch && !t.out.pwm
            && t.out.lock == (if s.tries.dev || s.cfg.socket == TypeC then s.out.lock
                              else if i.latched then Lock else Unlock)
            && t.charge == s.charge && t.exc == s.exc && t.tries == s.tries && FaultState in t.words.signal
  {
    hide FaultsRaised, FaultsCleared;
  }

  /** The relay fault is shown exactly while a failed stop is kept up by a closed reading, the latch fault while a
      failed unlocking is kept up by a closed latch; the other faults stay as they are. */
  lemma FaultsShown(s: Con, i: PassInput)
    requires s.state == Faulted && !s.tries.dev
    ensures var f, g := s.words.fault, ChargePass(s, i).words.fault;
            && (RelayPaste in g <==> i.relayOn && (RelayPaste in f || s.tries.stop != 0))
            && (SocketLockFault in g <==>
                  && (SocketLockFault in f || (s.tries.stop == 0 && s.tries.unlock != 0))
                  && (s.cfg.socket == TypeC || i.latched))
            && forall b :: b != RelayPaste && b != SocketLockFault ==> (b in g <==> b in f)
  {
  }

  lemma FromDevFaulted(s: Con, i: PassInput)
    requires s.state == DevFaulted
    ensures var t := ChargePass(s, i);
            var clear := s.words.fault == {} && i.evseFault == {};
            t == if clear then s.(state := Faulted, tries := s.tries.(dev := false)) else s
  {
  }

  lemma FromReturning(s: Con, i: PassInput)
    requires s.state == Returning
    ensures var t := ChargePass(s, i);
            && t.state == Idle && t.tries == Tries(0, 0, false) && Authed !in t.charge && StartOK !in t.charge
            && (forall b :: b != Authed && b != StartOK ==> (b in t.charge <==> b in s.charge))
            && t.out == s.out.(pwm := false) && t.pilot == s.pilot.(loadPercent := 100)
            && t.exc == s.exc && t.stops == s.stops && t.words == s.words && t.timers == s.timers
  {
  }

  // ----- the signal word -----------------------------------------------------

  /** Exactly one of the four work bits is shown after a pass that shows its state, and the other bits are as before. */
  lemma OneWorkBit(s: Con, i: PassInput)
    requires s.state in {Idle, Charging, Stopping, Faulted}
    ensures var g := ChargePass(s, i).words.signal;
            var own := if s.state == Idle then Standby else if s.state == Charging then Working
                       else if s.state == Stopping then Ending else FaultState;
            && (forall b :: b in {Standby, Working, Ending, FaultState} ==> (b in g <==> b == own))
            && (forall b :: b in {S2, CC, Plugged, SocketLocked} ==> (b in g <==> b in s.words.signal))
  {
    hide CauseOf, FaultsRaised, FaultsCleared, FaultLeft, StopSucceeds;
  }
}
