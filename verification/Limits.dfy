/** The limits of voltage and frequency in numbers, and what one diagnosis call does on either side of them. */
module Limits {
  import opened Signals
  import opened ChargeSpec

  /** Beyond the limits of the configuration, or of 49 to 51 Hz. */
  predicate TooHigh(cfg: Config, ch: Channel, x: real) { if ch == VoltCh then x > cfg.voltUpper else x > 51.0 }
  predicate TooLow(cfg: Config, ch: Channel, x: real) { if ch == VoltCh then x < cfg.voltLower else x < 49.0 }

  predicate Beyond(cfg: Config, ch: Channel, x: real, side: Side) {
    (side == Above && TooHigh(cfg, ch, x)) || (side == Below && TooLow(cfg, ch, x))
  }

  /** In the band 10 V, or half a hertz, inside the limits. */
  predicate WellInside(cfg: Config, ch: Channel, x: real) {
    if ch == VoltCh then cfg.voltLower + 10.0 <= x <= cfg.voltUpper - 10.0 else 49.5 <= x <= 50.5
  }

  predicate AboveInside(cfg: Config, ch: Channel, x: real) {
    if ch == VoltCh then x > cfg.voltUpper - 10.0 else x > 50.5
  }

  lemma WideInNumbers(cfg: Config, ch: Channel, x: real)
    ensures Wide(cfg, ch, x) == InBand <==> !TooHigh(cfg, ch, x) && !TooLow(cfg, ch, x)
    ensures Wide(cfg, ch, x) == Above <==> TooHigh(cfg, ch, x)
  {
  }

  lemma NarrowInNumbers(cfg: Config, ch: Channel, x: real)
    ensures Narrow(cfg, ch, x) == InBand <==> WellInside(cfg, ch, x)
    ensures Narrow(cfg, ch, x) == Above <==> AboveInside(cfg, ch, x)
  {
  }

  // ----- one call ------------------------------------------------------------

  /** The status a sample leads to while no timer has run out. */
  function Sampled(cfg: Config, ch: Channel, d: DebState, x: real): DebState {
    match d
    case Ok | UpperDummy | LowerDummy =>
      if TooHigh(cfg, ch, x) then UpperDummy else if TooLow(cfg, ch, x) then LowerDummy else Ok
    case Upper | Lower => if WellInside(cfg, ch, x) then OkDummy else d
    case OkDummy => if WellInside(cfg, ch, x) then OkDummy else if AboveInside(cfg, ch, x) then Upper else Lower
  }

  /** And the one an expired timer leads to, whatever the sample. */
  function Expired(d: DebState): DebState
    requires d == UpperDummy || d == LowerDummy || d == OkDummy
  {
    if d == UpperDummy then Upper else if d == LowerDummy then Lower else Ok
  }

  predicate Waiting(d: DebState) { d == UpperDummy || d == LowerDummy || d == OkDummy }

  /** A call on a channel, in status, timer, due bit and OK bit: an expired delay trips or recovers the channel and sets
      its bit accordingly; else a sample that changes what the channel waits for starts the delay afresh, 3 s out of
      range and 5 s back for the voltage, 1 s for the frequency, or drops it. */
  ghost predicate CallInNumbers(ch: Channel, cfg: Config, now: nat, x: real,
                                d: DebState, due: bool, ok: bool, timer: Timer,
                                e: DebState, dueThen: bool, okThen: bool, timerThen: Timer)
  {
    if Waiting(d) && due then
      e == Expired(d) && !dueThen && timerThen == Stopped && okThen == (d == OkDummy)
    else
      && e == Sampled(cfg, ch, d, x) && dueThen == due
      && okThen == (ok || (d == Ok && e == Ok))
      && timerThen ==
           if e == d then timer
           else if e == OkDummy then Running(now + if ch == VoltCh then 5000 else 1000)
           else if Waiting(e) then Running(now + if ch == VoltCh then 3000 else 1000)
           else Stopped
  }

  /** DiagVoltageError on a sample of x volts. */
  lemma VoltageCall(s: Con, x: real, relayOn: bool, latched: bool)
    ensures var t := DiagVoltage(s, x, relayOn, latched);
            CallInNumbers(VoltCh, s.cfg, s.clock, x,
                          s.diag.volt, VoltTimer in s.exc, VoltOK in s.charge, s.timers.volt,
                          t.diag.volt, VoltTimer in t.exc, VoltOK in t.charge, t.timers.volt)
  {
    hide VoltAlarm;
    WideInNumbers(s.cfg, VoltCh, x);
    NarrowInNumbers(s.cfg, VoltCh, x);
    hide Wide, Narrow, TooHigh, TooLow, WellInside, AboveInside, LockOf, RelaySignal;
  }

  /** It switches the output only of a charging connector, off on a trip and on on a recovery. */
  lemma VoltageOutput(s: Con, x: real, relayOn: bool, latched: bool)
    ensures var t := DiagVoltage(s, x, relayOn, latched);
            var off := VoltTimer in s.exc && (s.diag.volt == LowerDummy || s.diag.volt == UpperDummy);
            var on := VoltTimer in s.exc && s.diag.volt == OkDummy;
            var acts := s.state == Charging && (off || on);
            && t.state == s.state && t.out.pwm == s.out.pwm
            && t.out.relay == (if acts then on else s.out.relay)
            && t.out.relayRead == (if acts then relayOn else s.out.relayRead)
            && t.out.latch == (if acts && s.cfg.socket == TypeB then on else s.out.latch)
            && t.out.lock == (if acts && s.cfg.socket == TypeB then (if latched then Lock else Unlock) else s.out.lock)
  {
    hide VoltAlarm, Wide, Narrow, Judge;
  }

  /** Its two alarms: off in status OK; in a trip, that of the side the sample lies on beyond the narrowed band. */
  lemma VoltageAlarms(s: Con, x: real, relayOn: bool, latched: bool)
    ensures var a, b := s.words.alarm, DiagVoltage(s, x, relayOn, latched).words.alarm;
            var tripped := s.diag.volt == Lower || s.diag.volt == Upper;
            var high := x > s.cfg.voltUpper - 10.0;
            var low := !high && x < s.cfg.voltLower + 10.0;
            && (VoltUp in b <==> s.diag.volt != Ok && if tripped && (high || low) then high else VoltUp in a)
            && (VoltLow in b <==> s.diag.volt != Ok && if tripped && (high || low) then low else VoltLow in a)
            && forall c :: c != VoltUp && c != VoltLow ==> (c in b <==> c in a)
  {
    NarrowInNumbers(s.cfg, VoltCh, x);
    hide Wide, Narrow, Judge, LockOf;
  }

  /** DiagFreqError on a sample of x hertz. */
  lemma FrequencyCall(s: Con, x: real)
    ensures var t := DiagFreq(s, x);
            CallInNumbers(FreqCh, s.cfg, s.clock, x,
                          s.diag.freq, FreqTimer in s.exc, FreqOK in s.charge, s.timers.freq,
                          t.diag.freq, FreqTimer in t.exc, FreqOK in t.charge, t.timers.freq)
  {
    hide FreqAlarm;
    WideInNumbers(s.cfg, FreqCh, x);
    NarrowInNumbers(s.cfg, FreqCh, x);
    hide Wide, Narrow, TooHigh, TooLow, WellInside, AboveInside;
  }

  lemma FrequencyAlarm(s: Con, x: real)
    ensures var a, b := s.words.alarm, DiagFreq(s, x).words.alarm;
            var tripped := s.diag.freq == Lower || s.diag.freq == Upper;
            && (FreqCri in b <==> s.diag.freq != Ok && (FreqCri in a || (tripped && (x < 49.5 || x > 50.5))))
            && forall c :: c != FreqCri ==> (c in b <==> c in a)
  {
    NarrowInNumbers(s.cfg, FreqCh, x);
    hide Wide, Narrow, Judge;
  }
}
