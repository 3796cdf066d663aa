/** A one-shot timer and its due bit over time, shared by the histories of the diagnosis machines. */
module TimerHistory {
  import opened Signals

  /** Left alone, or found expired by the timer task, which sets the due bit. */
  predicate LeftOrFired(t: Timer, due: bool, now: nat, u: Timer, dueThen: bool) {
    || (u == t && dueThen == due)
    || (t.Running? && t.due <= now && u == Stopped && dueThen)
  }

  /** Started at a moment for cyc milliseconds: still running, or it ran its full time and its due bit waits. */
  predicate Ran(t: Timer, due: bool, start: nat, cyc: nat, now: nat) {
    || (t == Running(start + cyc) && !due)
    || (t == Stopped && due && now >= start + cyc)
  }

  lemma RunsOn(t: Timer, due: bool, start: nat, cyc: nat, now: nat, u: Timer, dueThen: bool, later: nat)
    requires Ran(t, due, start, cyc, now) && LeftOrFired(t, due, now, u, dueThen) && now <= later
    ensures Ran(u, dueThen, start, cyc, later)
  {
  }
}
