/** One authorisation buys one session. */
module Authorisation {
  import opened Signals
  import opened ChargeSpec
  import opened Runs
  import opened Frames

  /** From s to t a connector that was not charging starts to: a session begins. */
  predicate Enters(s: Con, t: Con) {
    s.state != Charging && t.state == Charging
  }

  predicate BeforeCharge(s: Con) {
    s.state == Idle || s.state == Pluged || s.state == Precontract || s.state == LosePlug || s.state == Starting
  }

  // ----- one step ------------------------------------------------------------

  /** What a step can do to the state and to the authorisation bit. */
  predicate AuthRule(s: Con, step: Step, t: Con) {
    && (Enters(s, t) ==> step.Charge? && s.state == Starting && CHARGE_CONDITION <= s.charge)
    && (BeforeCharge(t) && !BeforeCharge(s) ==> step.Charge? && s.state == Returning && Authed !in t.charge)
    && (Authed in t.charge && Authed !in s.charge ==> step.Grant?)
    && (step.Charge? && s.state == Stopping ==> Authed !in t.charge)
    && (t.state == Stopping ==> s.state == Stopping || s.state == Charging)
    && (s.state == Charging ==> t.state == Charging || t.state == Stopping)
    && (!step.Charge? ==> t.state == s.state)
  }

  lemma PassAuth(s: Con, i: PassInput)
    ensures AuthRule(s, Charge(i), ChargePass(s, i))
  {
    hide CauseOf, FaultsRaised, FaultsCleared, FaultLeft, PilotReleased;
  }

  lemma RunAuth(trace: seq<Con>, steps: seq<Step>, k: nat)
    requires IsPath(trace, steps) && k < |steps|
    ensures AuthRule(trace[k], steps[k], trace[k + 1])
  {
    assert StepAt(trace, steps, k);
    var (s, step) := (trace[k], steps[k]);
    hide IsPath;
    hide ChargePass, DiagVoltage, DiagFreq, DiagCurrent, SamplePlug, DiagPlug, DiagLock, FireTimer;
    if step.Charge? { PassAuth(s, step.inp); }
    else if step.Volt? { VoltFramed(s, step.volt, step.relayOn, step.latched); }
    else if step.Freq? { FreqFramed(s, step.freq); }
    else if step.Current? { CurrentFramed(s, step.amps); }
    else if step.Poll? { PollFramed(s, step.pilot, step.cc); }
    else { PlainFramed(s, step); }
  }

  // ----- whole runs ----------------------------------------------------------

  /** Before every session an authorisation was granted. */
  lemma GrantBefore(trace: seq<Con>, steps: seq<Step>, a: nat, j: nat) returns (g: nat)
    requires IsPath(trace, steps) && a <= j < |steps|
    requires Authed !in trace[a].charge && Enters(trace[j], trace[j + 1])
    ensures a <= g < j && steps[g].Grant?
    ensures forall m :: a <= m <= g ==> Authed !in trace[m].charge
  {
    hide Apply;
    RunAuth(trace, steps, j);
    assert Authed in CHARGE_CONDITION;
    g := Crossing((s: Con) => Authed in s.charge, trace, a, j);
    RunAuth(trace, steps, g);
  }

  /** Between two sessions the connector passes RETURN, which clears the authorisation, and a new one is granted. */
  lemma FreshAuthorisation(trace: seq<Con>, steps: seq<Step>, i: nat, j: nat) returns (r: nat, g: nat)
    requires IsPath(trace, steps) && i < j < |steps|
    requires Enters(trace[i], trace[i + 1]) && Enters(trace[j], trace[j + 1])
    ensures i < r < g < j
    ensures steps[r].Charge? && trace[r].state == Returning && Authed !in trace[r + 1].charge
    ensures steps[g].Grant?
  {
    hide Apply;
    RunAuth(trace, steps, j);
    r := Crossing((s: Con) => BeforeCharge(s), trace, i + 1, j);
    RunAuth(trace, steps, r);
    g := GrantBefore(trace, steps, r + 1, j);
  }

  function Sessions(trace: seq<Con>, n: nat): nat
    requires n < |trace|
  {
    if n == 0 then 0 else Sessions(trace, n - 1) + if Enters(trace[n - 1], trace[n]) then 1 else 0
  }

  function Grants(steps: seq<Step>, n: nat): nat
    requires n <= |steps|
  {
    if n == 0 then 0 else Grants(steps, n - 1) + if steps[n - 1].Grant? then 1 else 0
  }

  /** An authorisation not yet used: the bit is set and no session holds it. */
  function Unspent(s: Con): nat {
    if Authed in s.charge && s.state != Charging && s.state != Stopping then 1 else 0
  }

  /** In every run there are at most as many sessions as authorisations granted. */
  lemma {:induction false} SessionsWithinGrants(trace: seq<Con>, steps: seq<Step>, n: nat)
    requires IsRun(trace, steps) && n < |trace|
    ensures Sessions(trace, n) + Unspent(trace[n]) <= Grants(steps, n)
  {
    hide Apply;
    if n > 0 {
      SessionsWithinGrants(trace, steps, n - 1);
      RunAuth(trace, steps, n - 1);
      assert Authed in CHARGE_CONDITION;
    }
  }
}
