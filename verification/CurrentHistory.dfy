/** The current machine against the history of samples and the clock: what a lock-out looks back on. */
module CurrentHistory {
  import DebounceHistory
  import opened Signals
  import opened ChargeSpec
  import opened Runs
  import opened Frames
  import opened TimerHistory
  import opened Authorisation
  import opened LockOut

  predicate CurrDue(s: Con) { CurrTimer in s.exc }

  // ----- one step ------------------------------------------------------------

  /** Next status, what becomes of the timer, and whether its due bit is taken. */
  datatype Ruling = Ruling(stat: CurrState, timer: TimerOp, taken: bool)

  function Rule(d: CurrState, due: bool, over: bool): Ruling {
    match d
    case CurrInit => Ruling(CurrDelay, StartFor(CURR_INIT_CYC), false)
    case CurrDelay => if due then Ruling(CurrNormal, DeleteTimer, true) else Ruling(CurrDelay, KeepTimer, false)
    case CurrNormal =>
      if over then Ruling(CurrUpperDummy, StartFor(CURR_DUMMY_CYC), false) else Ruling(CurrNormal, KeepTimer, false)
    case CurrUpperDummy =>
      if due then Ruling(CurrUpperFix, StartFor(CURR_DUMMY_CYC), true)
      else if over then Ruling(CurrUpperDummy, KeepTimer, false)
      else Ruling(CurrNormal, DeleteTimer, false)
    case CurrUpperFix =>
      if due then Ruling(CurrError, DeleteTimer, true)
      else if over then Ruling(CurrUpperFix, KeepTimer, false)
      else Ruling(CurrNormal, DeleteTimer, false)
    case CurrError => Ruling(CurrError, KeepTimer, false)
  }

  predicate CallRule(s: Con, over: bool, t: Con) {
    var r := Rule(s.diag.curr, CurrDue(s), over);
    && t.diag.curr == (if r.stat == CurrError && PlugOK !in s.charge && !over then CurrInit else r.stat)
    && t.timers.curr == Operate(r.timer, s.timers.curr, s.clock)
    && (CurrDue(t) <==> CurrDue(s) && !r.taken)
  }

  predicate CurrQuiet(s: Con, t: Con) {
    && t.diag.curr == s.diag.curr
    && LeftOrFired(s.timers.curr, CurrDue(s), s.clock, t.timers.curr, CurrDue(t))
  }

  predicate CurrStep(s: Con, step: Step, t: Con) {
    t.clock >= s.clock && if step.Current? then CallRule(s, SeesOver(s, step), t) else CurrQuiet(s, t)
  }

  lemma CallRuled(s: Con, a: real)
    ensures CallRule(s, SeesOver(s, Current(a)), DiagCurrent(s, a))
  {
    OverInNumbers(s, a);
    hide OverCurrent, SeesOver;
  }

  lemma StepCurrent(s: Con, step: Step)
    ensures CurrStep(s, step, Apply(s, step))
  {
    hide ChargePass, DiagVoltage, DiagFreq, DiagCurrent, SamplePlug, DiagPlug, DiagLock, StationWrites;
    hide OverCurrent, CallRule;
    if step.Charge? { PassFramed(s, step.inp); }
    else if step.Volt? { VoltFramed(s, step.volt, step.relayOn, step.latched); }
    else if step.Freq? { FreqFramed(s, step.freq); }
    else if step.Current? { CurrentFramed(s, step.amps); CallRuled(s, step.amps); }
    else if step.Poll? { PollFramed(s, step.pilot, step.cc); }
    else { PlainFramed(s, step); }
  }

  lemma RunCurrent(trace: seq<Con>, steps: seq<Step>, k: nat)
    requires IsPath(trace, steps) && k < |steps|
    ensures CurrStep(trace[k], steps[k], trace[k + 1])
  {
    hide Apply;
    assert StepAt(trace, steps, k);
    StepCurrent(trace[k], steps[k]);
  }

  // ----- the history behind a status -----------------------------------------

  ghost predicate OverAt(trace: seq<Con>, steps: seq<Step>, k: nat)
    requires k < |steps| < |trace|
  {
    steps[k].Current? ==> steps[k].amps > trace[k].cfg.ratedCurrent * 1.1
  }

  /** The timer was started by the call at m for cyc milliseconds, and the status has stood since; it is still running,
      or it ran its full time and its due bit waits. */
  ghost predicate Timed(trace: seq<Con>, steps: seq<Step>, m: nat, n: nat, cyc: nat)
    requires n <= |steps| < |trace|
  {
    && m < n && steps[m].Current?
    && (forall k: nat :: m < k <= n ==> trace[k].diag.curr == trace[n].diag.curr)
    && Ran(trace[n].timers.curr, CurrDue(trace[n]), trace[m].clock, cyc, trace[n].clock)
  }

  /** Every call from a on, and before n, sampled the current over limit. */
  ghost predicate OverSince(trace: seq<Con>, steps: seq<Step>, a: nat, n: nat)
    requires n <= |steps| < |trace|
  {
    forall k: nat :: a <= k < n ==> OverAt(trace, steps, k)
  }

  ghost predicate InitDelay(trace: seq<Con>, steps: seq<Step>, m: nat, n: nat)
    requires n <= |steps| < |trace|
  {
    Timed(trace, steps, m, n, CURR_INIT_CYC) && StartsDelay(trace[m], steps[m])
  }

  ghost predicate FirstDelay(trace: seq<Con>, steps: seq<Step>, m: nat, n: nat)
    requires n <= |steps| < |trace|
  {
    Timed(trace, steps, m, n, CURR_DUMMY_CYC) && OverSince(trace, steps, m, n)
  }

  /** The second delay began at m, with the call that found the first one, begun at l, run out. */
  ghost predicate BothDelays(trace: seq<Con>, steps: seq<Step>, l: nat, m: nat, n: nat)
    requires n <= |steps| < |trace|
  {
    && Timed(trace, steps, m, n, CURR_DUMMY_CYC) && OverSince(trace, steps, m + 1, n)
    && l < m && steps[l].Current?
    && OverSince(trace, steps, l, m) && trace[m].clock >= trace[l].clock + CURR_DUMMY_CYC
    && (forall k: nat :: l < k <= m ==> trace[k].diag.curr == CurrUpperDummy)
  }

  ghost predicate CurrHistory(trace: seq<Con>, steps: seq<Step>, n: nat)
    requires n <= |steps| < |trace|
  {
    match trace[n].diag.curr
    case CurrInit | CurrNormal | CurrError => trace[n].timers.curr == Stopped && !CurrDue(trace[n])
    case CurrDelay => exists m: nat :: InitDelay(trace, steps, m, n)
    case CurrUpperDummy => exists m: nat :: FirstDelay(trace, steps, m, n)
    case CurrUpperFix => exists l: nat, m: nat :: BothDelays(trace, steps, l, m, n)
  }

  /** A status that stands, with its timer left alone or fired, carries its start over one more step. */
  lemma CarryTimed(trace: seq<Con>, steps: seq<Step>, m: nat, n: nat, cyc: nat)
    requires n < |steps| < |trace| && CurrStep(trace[n], steps[n], trace[n + 1])
    requires Timed(trace, steps, m, n, cyc) && trace[n + 1].diag.curr == trace[n].diag.curr
    requires steps[n].Current? ==>
               trace[n + 1].timers.curr == trace[n].timers.curr && (CurrDue(trace[n + 1]) <==> CurrDue(trace[n]))
    ensures Timed(trace, steps, m, n + 1, cyc)
  {
    var s, t := trace[n], trace[n + 1];
    assert LeftOrFired(s.timers.curr, CurrDue(s), s.clock, t.timers.curr, CurrDue(t));
    RunsOn(s.timers.curr, CurrDue(s), trace[m].clock, cyc, s.clock, t.timers.curr, CurrDue(t), t.clock);
    hide Rule, OverCurrent, CallRule, Ran, LeftOrFired;
  }

  lemma QuietCurrHistory(trace: seq<Con>, steps: seq<Step>, n: nat)
    requires n < |steps| < |trace| && CurrStep(trace[n], steps[n], trace[n + 1])
    requires CurrHistory(trace, steps, n) && !steps[n].Current?
    ensures CurrHistory(trace, steps, n + 1)
  {
    hide Rule, OverCurrent, CallRule, Timed;
    match trace[n].diag.curr
    case CurrInit =>
    case CurrNormal =>
    case CurrError =>
    case CurrDelay =>
      var m: nat :| InitDelay(trace, steps, m, n);
      CarryTimed(trace, steps, m, n, CURR_INIT_CYC);
      assert InitDelay(trace, steps, m, n + 1);
    case CurrUpperDummy =>
      var m: nat :| FirstDelay(trace, steps, m, n);
      CarryTimed(trace, steps, m, n, CURR_DUMMY_CYC);
      assert FirstDelay(trace, steps, m, n + 1);
    case CurrUpperFix =>
      var l: nat, m: nat :| BothDelays(trace, steps, l, m, n);
      CarryTimed(trace, steps, m, n, CURR_DUMMY_CYC);
      assert BothDelays(trace, steps, l, m, n + 1);
  }

  lemma CallCurrHistory(trace: seq<Con>, steps: seq<Step>, n: nat)
    requires n < |steps| < |trace| && CurrStep(trace[n], steps[n], trace[n + 1])
    requires CurrHistory(trace, steps, n) && steps[n].Current?
    ensures CurrHistory(trace, steps, n + 1)
  {
    hide OverCurrent;
    var s := trace[n];
    var over := SeesOver(s, steps[n]);
    match s.diag.curr
    case CurrInit => assert InitDelay(trace, steps, n, n + 1);
    case CurrNormal => if over { assert FirstDelay(trace, steps, n, n + 1); }
    case CurrError =>
    case CurrDelay =>
      var m: nat :| InitDelay(trace, steps, m, n);
      if !CurrDue(s) {
        CarryTimed(trace, steps, m, n, CURR_INIT_CYC);
        assert InitDelay(trace, steps, m, n + 1);
      }
    case CurrUpperDummy =>
      var m: nat :| FirstDelay(trace, steps, m, n);
      if CurrDue(s) {
        assert BothDelays(trace, steps, m, n, n + 1);
      } else if over {
        CarryTimed(trace, steps, m, n, CURR_DUMMY_CYC);
        assert FirstDelay(trace, steps, m, n + 1);
      }
    case CurrUpperFix =>
      var l: nat, m: nat :| BothDelays(trace, steps, l, m, n);
      if !CurrDue(s) && over {
        CarryTimed(trace, steps, m, n, CURR_DUMMY_CYC);
        assert BothDelays(trace, steps, l, m, n + 1);
      }
  }

  lemma {:induction false} CurrHistoryHolds(trace: seq<Con>, steps: seq<Step>, n: nat)
    requires IsRun(trace, steps) && n < |trace|
    ensures CurrHistory(trace, steps, n)
  {
    hide Apply, Rule, OverCurrent, CallRule;
    if n > 0 {
      CurrHistoryHolds(trace, steps, n - 1);
      RunCurrent(trace, steps, n - 1);
      if steps[n - 1].Current? { CallCurrHistory(trace, steps, n - 1); } else { QuietCurrHistory(trace, steps, n - 1); }
    }
  }

  // ----- lock-outs -----------------------------------------------------------

  /** A lock-out looks back on two full delays of 2 s in which every call, those that found a delay run out excepted,
      sampled more than 1.1 times the rated current. */
  lemma LockOutHistory(trace: seq<Con>, steps: seq<Step>, n: nat) returns (l: nat, m: nat)
    requires IsRun(trace, steps) && n < |steps| && LocksOut(trace[n], steps[n])
    ensures l < m < n && steps[l].Current? && steps[m].Current?
    ensures forall k: nat :: l <= k < n && k != m ==> OverAt(trace, steps, k)
    ensures forall k: nat :: l <= k < n && k != m && steps[k].Current? ==>
              steps[k].amps > trace[k].cfg.ratedCurrent * 1.1
    ensures trace[m].clock >= trace[l].clock + 2000 && trace[n].clock >= trace[m].clock + 2000
    ensures forall k: nat :: l < k <= m ==> trace[k].diag.curr == CurrUpperDummy
    ensures forall k: nat :: m < k <= n ==> trace[k].diag.curr == CurrUpperFix
  {
    hide Apply, OverCurrent;
    CurrHistoryHolds(trace, steps, n);
    l, m :| BothDelays(trace, steps, l, m, n);
    forall k: nat | l <= k < n && k != m && steps[k].Current?
      ensures steps[k].amps > trace[k].cfg.ratedCurrent * 1.1
    {
      assert OverAt(trace, steps, k);
    }
  }

  lemma InitAfter(trace: seq<Con>, steps: seq<Step>, release: nat, m: nat, n: nat)
    requires release < n < |steps| < |trace| && InitDelay(trace, steps, m, n)
    requires trace[release + 1].diag.curr == CurrInit && trace[n].diag.curr == CurrDelay && CurrDue(trace[n])
    ensures release < m < n && trace[n].clock >= trace[m].clock + CURR_INIT_CYC
  {
  }

  /** After a lock-out a connector charges again at the earliest when the init delay, begun after the plug was seen
      gone, has run its time. */
  lemma LockOutLasts(trace: seq<Con>, steps: seq<Step>, t: nat, n: nat)
    returns (release: nat, start: nat, end: nat, accept: nat)
    requires IsRun(trace, steps) && t < n < |steps|
    requires LocksOut(trace[t], steps[t]) && Enters(trace[n], trace[n + 1])
    ensures t <= release < start < end < accept < n
    ensures Releases(trace[release], steps[release]) && StartsDelay(trace[start], steps[start])
    ensures EndsDelay(trace[end], steps[end]) && Accepts(trace[accept], steps[accept])
    ensures trace[end].clock >= trace[start].clock + 500
    ensures forall m :: t < m <= accept ==> CurrOK !in trace[m].charge
  {
    hide Apply, OverCurrent, DiagCurrent, Timed;
    release, start, end, accept := OvercurrentLockOut(trace, steps, t, n);
    CurrHistoryHolds(trace, steps, end);
    RunCurrent(trace, steps, release);
    start :| InitDelay(trace, steps, start, end);
    InitAfter(trace, steps, release, start, end);
  }

  // ----- a current that stays over limit -------------------------------------

  lemma FireSetsCurr(trace: seq<Con>, steps: seq<Step>, f: nat)
    requires IsPath(trace, steps) && f < |steps| && steps[f] == Fire(CurrT)
    ensures trace[f].timers.curr.Running? && trace[f].timers.curr.due <= trace[f].clock ==> CurrDue(trace[f + 1])
  {
    hide DiagVoltage, DiagFreq, ChargePass, DiagCurrent, DiagPlug, DiagLock, SamplePlug;
    assert StepAt(trace, steps, f);
  }

  /** A delay under way at a that no call finds the current back in limits: at the latest the first call after the timer
      task has found the timer expired ends it. */
  lemma {:induction false} OverDelayReaches(
      trace: seq<Con>, steps: seq<Step>, d: CurrState, start: nat, a: nat, f: nat, n: nat)
    returns (e: nat)
    requires IsPath(trace, steps) && a <= n < |steps| && f < n && trace[a].diag.curr == d
    requires d == CurrUpperDummy || d == CurrUpperFix
    requires Ran(trace[a].timers.curr, CurrDue(trace[a]), start, 2000, trace[a].clock)
    requires OverSince(trace, steps, a, n) && steps[n].Current? && (f < a ==> CurrDue(trace[a]))
    requires steps[f] == Fire(CurrT) && trace[f].clock >= start + 2000
    ensures a <= e <= n && steps[e].Current? && trace[e].diag.curr == d && CurrDue(trace[e])
    decreases n - a
  {
    hide Apply, OverCurrent;
    if steps[a].Current? && CurrDue(trace[a]) {
      e := a;
    } else {
      RunCurrent(trace, steps, a);
      assert OverAt(trace, steps, a);
      if !steps[a].Current? {
        RunsOn(trace[a].timers.curr, CurrDue(trace[a]), start, 2000, trace[a].clock,
               trace[a + 1].timers.curr, CurrDue(trace[a + 1]), trace[a + 1].clock);
        if f == a { FireSetsCurr(trace, steps, f); }
      }
      e := OverDelayReaches(trace, steps, d, start, a + 1, f, n);
    }
  }

  /** A current that goes over limit and stays there locks the connector out: the timer task comes by when the first 2 s
      are over and a call follows, then again 2 s later and a call follows; at the latest that call clears CurrOK. */
  lemma OverLimitLocksOut(trace: seq<Con>, steps: seq<Step>, m: nat, f: nat, c: nat, g: nat, n: nat) returns (e: nat)
    requires IsRun(trace, steps) && m < f < c < g < n < |steps|
    requires steps[m].Current? && steps[c].Current? && steps[n].Current? && trace[m].diag.curr == CurrNormal
    requires forall k: nat :: m <= k < n && steps[k].Current? ==> steps[k].amps > trace[k].cfg.ratedCurrent * 1.1
    requires steps[f] == Fire(CurrT) && trace[f].clock >= trace[m].clock + 2000
    requires steps[g] == Fire(CurrT) && trace[g].clock >= trace[c].clock + 2000
    ensures m < e <= n && LocksOut(trace[e], steps[e]) && CurrOK !in trace[e + 1].charge
  {
    hide Apply, OverCurrent;
    CurrHistoryHolds(trace, steps, m);
    RunCurrent(trace, steps, m);
    assert OverSince(trace, steps, m, n) by {
      forall k: nat | m <= k < n ensures OverAt(trace, steps, k) {}
    }
    assert OverAt(trace, steps, m);
    DebounceHistory.ClockMonotone(trace, steps, m, m + 1);
    var d := OverDelayReaches(trace, steps, CurrUpperDummy, trace[m].clock, m + 1, f, c);
    RunCurrent(trace, steps, d);
    DebounceHistory.ClockMonotone(trace, steps, d, d + 1);
    DebounceHistory.ClockMonotone(trace, steps, d, c);
    e := OverDelayReaches(trace, steps, CurrUpperFix, trace[d].clock, d + 1, g, n);
    RunCurr(trace, steps, e);
  }

  // ----- alarms and outputs of a call ----------------------------------------

  /** What else a call does: the warning stands while the first delay is looked at, the critical alarm from the lock-out
      on, both go in order; the pilot is set anew when the current first goes over limit; CurrOK comes from a sample in
      limits and goes with the lock-out. */
  lemma CurrentEffects(s: Con, a: real)
    ensures var t := DiagCurrent(s, a);
            var over := a > s.cfg.ratedCurrent * 1.1;
            var locked := s.diag.curr == CurrError || (s.diag.curr == CurrUpperFix && CurrTimer in s.exc);
            && (CurrUpWar in t.words.alarm <==>
                  s.diag.curr == CurrUpperDummy || (s.diag.curr != CurrNormal && !locked && CurrUpWar in s.words.alarm))
            && (CurrUpCri in t.words.alarm <==>
                  locked || (s.diag.curr !in {CurrNormal, CurrUpperDummy} && CurrUpCri in s.words.alarm))
            && t.out == s.out.(pwm := s.out.pwm || (s.diag.curr == CurrNormal && over))
            && (CurrOK in t.charge <==>
                  if s.diag.curr == CurrNormal && !over then true
                  else CurrOK in s.charge && !(s.diag.curr == CurrUpperFix && CurrTimer in s.exc))
  {
    OverInNumbers(s, a);
    hide OverCurrent;
  }
}
