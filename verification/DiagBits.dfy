/** Plug, latch and load: what their calls do to the single bits. */
module DiagBits {
  import opened Signals
  import opened ChargeSpec
  import opened Runs

  /** DiagPlugError: the plug bit follows the plug state once one has been read; of the two S2 bits exactly one is set,
      closed exactly when the pilot stands at 6 V. */
  lemma PlugBits(s: Con)
    ensures var t := DiagPlug(s);
            var six := s.pilot.cp in {Cp6, Cp6Pwm};
            && (PlugOK in t.charge <==> s.pilot.plug == Plug || (s.pilot.plug == PlugUnread && PlugOK in s.charge))
            && (S2Closed in t.charge <==> six) && (S2Opened in t.charge <==> !six)
            && (forall b :: b !in {PlugOK, S2Closed, S2Opened} ==> (b in t.charge <==> b in s.charge))
            && (Plugged in t.words.signal <==>
                  s.pilot.plug == Plug || (s.pilot.plug == PlugUnread && Plugged in s.words.signal))
            && (S2 in t.words.signal <==> six)
            && (forall b :: b != Plugged && b != S2 ==> (b in t.words.signal <==> b in s.words.signal))
            && t == s.(charge := t.charge, words := s.words.(signal := t.words.signal))
  {
  }

  /** DiagLockError: the lock bit follows the latch; without a latch it is always set. */
  lemma LockBits(s: Con)
    ensures var t := DiagLock(s);
            var locked := s.cfg.socket == TypeC || s.out.lock == Lock;
            && t.charge == (if locked then s.charge + {Locked} else s.charge - {Locked})
            && (SocketLocked in t.words.signal <==> locked)
            && (forall b :: b != SocketLocked ==> (b in t.words.signal <==> b in s.words.signal))
            && t == s.(charge := t.charge, words := s.words.(signal := t.words.signal))
  {
  }

  /** The relay reading of a pass is stored as read and shown on both lines. */
  lemma ReadingsStored(s: Con, i: PassInput)
    ensures var t := ChargePass(s, i);
            var looks :=
              || (s.state == Starting && t.state == Charging)
              || (s.state == Stopping && s.pilot.cp in {Cp6, Cp9, Cp12, CpErr})
              || (s.state == Faulted && !s.tries.dev);
            && t.out.relayRead == (if looks then i.relayOn else s.out.relayRead)
            && (RelayL in t.words.signal <==> if looks then i.relayOn else RelayL in s.words.signal)
            && (RelayN in t.words.signal <==> if looks then i.relayOn else RelayN in s.words.signal)
  {
    hide CauseOf, FaultsRaised, FaultsCleared, FaultLeft, StopSucceeds, AfterUnlock, MayStart;
  }

  /** SetLoadPercent: a new share is stored and given to the pilot, the old one again is not. */
  lemma LoadSet(s: Con, p: nat)
    ensures var t := Apply(s, Load(p));
            t == s.(pilot := s.pilot.(loadPercent := p), out := s.out.(pwm := s.out.pwm || p != s.pilot.loadPercent))
  {
    hide ChargePass, DiagVoltage, DiagFreq, DiagCurrent, DiagPlug, DiagLock, SamplePlug, FireTimer, StationWrites;
  }
}
