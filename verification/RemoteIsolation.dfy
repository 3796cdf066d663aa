/** Connectors that poll the same queues do not disturb each other. */
module RemoteIsolation {
  import opened Lists
  import opened Numbering
  import opened RemoteQueue

  // ----- one poll ------------------------------------------------------------

  /** A message for a connector: at its position stands the connector's number counted from 1, or 0 for number 0. */
  predicate Addressed(e: Received, pos: nat, con: Byte) {
    pos < |e.buff| && (e.buff[pos] == con + 1 || (e.buff[pos] == 0 && con == 0))
  }

  /** The message at position k is for con and no older than 20 seconds. */
  predicate Mine(s: Queues, pos: nat, con: Byte, now: int, k: nat)
    requires k < |s.recv|
  {
    now - s.recv[k].timestamp <= 20 && Addressed(s.recv[k], pos, con)
  }

  lemma TakesMine(s: Queues, pos: nat, con: Byte, now: int, k: nat)
    requires k < |s.recv|
    ensures Takes(pos, con, now)(s.recv[k]) <==> Mine(s, pos, con, now, k)
    ensures Leaves(pos, con, now)(s.recv[k]) <==>
              now - s.recv[k].timestamp <= 20 && !Addressed(s.recv[k], pos, con)
  {
  }

  /** A poll leaves exactly the messages of other connectors no older than 20 seconds, each in its place. */
  lemma PollLeaves(s: Queues, cmd: nat, pos: nat, con: Byte, now: int) returns (at: seq<nat>)
    ensures Picks(s.recv, at, Polled(s, cmd, pos, con, now).recv)
    ensures forall k: nat :: k < |s.recv| ==>
              (k in at <==> now - s.recv[k].timestamp <= 20 && !Addressed(s.recv[k], pos, con))
  {
    at := FilterPicks(Leaves(pos, con, now), s.recv);
    forall k: nat | k < |s.recv|
      ensures k in at <==> now - s.recv[k].timestamp <= 20 && !Addressed(s.recv[k], pos, con)
    {
      TakesMine(s, pos, con, now, k);
    }
  }

  /** Some message is there for the connector. */
  ghost predicate Waits(s: Queues, pos: nat, con: Byte, now: int) {
    exists k: nat :: k < |s.recv| && Mine(s, pos, con, now, k)
  }

  /** A poll answers with the newest message for its connector no older than 20 seconds, and with nothing iff there is
      none; its result is the time-out iff the late bit was set, else ERR_NO iff there is such a message and
      ERR_REMOTE_NODATA iff there is none. */
  lemma PollNewest(s: Queues, pos: nat, con: Byte, now: int)
    ensures var r := PollReply(s, pos, con, now);
            && (r.err == ErrRemoteTimeout <==> s.late)
            && (r.err == ErrNo <==> !s.late && Waits(s, pos, con, now))
            && (r.err == ErrRemoteNoData <==> !s.late && !Waits(s, pos, con, now))
            && (r.msg == None <==> !Waits(s, pos, con, now))
            && (Waits(s, pos, con, now) ==>
                  exists k: nat :: k < |s.recv| && Mine(s, pos, con, now, k) && r.msg == Some(s.recv[k]) &&
                                   forall j: nat :: k < j < |s.recv| ==> !Mine(s, pos, con, now, j))
  {
    var at := FilterPicks(Takes(pos, con, now), s.recv);
    var mine := Filter(Takes(pos, con, now), s.recv);
    forall k: nat | k < |s.recv| ensures k in at <==> Mine(s, pos, con, now, k) { TakesMine(s, pos, con, now, k); }
    hide Takes, Mine;
    if at == [] {
      assert mine == [];
    } else {
      var k := Last(at);
      assert Last(mine) == s.recv[k];
      assert k in at;
      forall j: nat | k < j < |s.recv| ensures !Mine(s, pos, con, now, j) {
      }
      assert Mine(s, pos, con, now, k);
    }
  }

  /** The sent commands a poll takes out are exactly those of its command and connector, and only if there was a message
      for it; the others keep their order. */
  lemma PollSettles(s: Queues, cmd: nat, pos: nat, con: Byte, now: int) returns (at: seq<nat>)
    ensures var t := Polled(s, cmd, pos, con, now);
            && !t.late
            && if !Waits(s, pos, con, now) then t.send == s.send
               else Picks(s.send, at, t.send) &&
                    forall k: nat :: k < |s.send| ==> (k in at <==> s.send[k] != Sent(cmd, con))
  {
    PollNewest(s, pos, con, now);
    hide Picks, Waits, Takes;
    at := FilterPicks(Awaits(cmd, con), s.send);
  }

  // ----- the poll of the station ---------------------------------------------

  /** What it takes out of the sent commands: the entry of its number that none of the number precedes, and nothing
      where there is none. */
  lemma {:induction false} FirstGoes(send: seq<Sent>, cmd: nat, k: nat)
    requires k <= |send| && (k < |send| ==> send[k].cmd == cmd) && forall j :: 0 <= j < k ==> send[j].cmd != cmd
    ensures WithoutFirst(send, cmd) == if k < |send| then send[..k] + send[k + 1..] else send
  {
    if k > 0 {
      FirstGoes(send[1..], cmd, k - 1);
      assert send == [send[0]] + send[1..];
    }
  }

  // ----- two polls -----------------------------------------------------------

  /** What the poll of one connector leaves for another is all that was there for it. */
  lemma LeftForOther(s: Queues, cmd: nat, pos: nat, con: Byte, other: Byte, early: int, now: int)
    requires con != other && early <= now
    ensures Filter(Takes(pos, con, now), Polled(s, cmd, pos, other, early).recv) == Filter(Takes(pos, con, now), s.recv)
  {
    FilterBoth(Takes(pos, con, now), Leaves(pos, other, early), Takes(pos, con, now), s.recv);
  }

  lemma LeavesCommute(q: seq<Received>, pos: nat, a: Byte, b: Byte, now: int)
    ensures Filter(Leaves(pos, a, now), Filter(Leaves(pos, b, now), q)) ==
            Filter(Leaves(pos, b, now), Filter(Leaves(pos, a, now), q))
  {
    var both := (e: Received) => Leaves(pos, a, now)(e) && Leaves(pos, b, now)(e);
    FilterBoth(Leaves(pos, a, now), Leaves(pos, b, now), both, q);
    FilterBoth(Leaves(pos, b, now), Leaves(pos, a, now), both, q);
  }

  lemma AwaitsCommute(send: seq<Sent>, cmd: nat, a: Byte, b: Byte)
    ensures Filter(Awaits(cmd, a), Filter(Awaits(cmd, b), send)) == Filter(Awaits(cmd, b), Filter(Awaits(cmd, a), send))
  {
    var both := (x: Sent) => Awaits(cmd, a)(x) && Awaits(cmd, b)(x);
    FilterBoth(Awaits(cmd, a), Awaits(cmd, b), both, send);
    FilterBoth(Awaits(cmd, b), Awaits(cmd, a), both, send);
  }

  /** Polls of two connectors at one instant leave the same queues and copy out the same messages in either order; their
      results are the same in either order exactly when no late bit was waiting, which the first poll takes for
      itself. */
  lemma PollsCommute(s: Queues, cmd: nat, pos: nat, a: Byte, b: Byte, now: int)
    requires a != b
    ensures var sa, sb := Polled(s, cmd, pos, a, now), Polled(s, cmd, pos, b, now);
            && Polled(sa, cmd, pos, b, now) == Polled(sb, cmd, pos, a, now)
            && PollReply(sb, pos, a, now).msg == PollReply(s, pos, a, now).msg
            && PollReply(sa, pos, b, now).msg == PollReply(s, pos, b, now).msg
            && (PollReply(sb, pos, a, now) == PollReply(s, pos, a, now) <==> !s.late)
            && (PollReply(sa, pos, b, now) == PollReply(s, pos, b, now) <==> !s.late)
  {
    LeftForOther(s, cmd, pos, a, b, now, now);
    LeftForOther(s, cmd, pos, b, a, now, now);
    LeavesCommute(s.recv, pos, a, b, now);
    AwaitsCommute(s.send, cmd, a, b);
  }

  // ----- whole runs ----------------------------------------------------------

  /** What happens to the queues of a command. */
  datatype Event =
    | Arrive(e: Received)
    | Request(x: Sent)
    | TurnLate
    | Poll(con: Byte, now: int)

  function Step(s: Queues, cmd: nat, pos: nat, ev: Event): Queues {
    match ev
    case Arrive(e) => s.(recv := s.recv + [e])
    case Request(x) => s.(send := s.send + [x])
    case TurnLate => s.(late := true)
    case Poll(con, now) => Polled(s, cmd, pos, con, now)
  }

  function After(s: Queues, cmd: nat, pos: nat, evs: seq<Event>): Queues {
    if evs == [] then s else Step(After(s, cmd, pos, evs[..|evs| - 1]), cmd, pos, Last(evs))
  }

  function Arrived(ev: Event): seq<Received> { if ev.Arrive? then [ev.e] else [] }

  function Arrivals(evs: seq<Event>): seq<Received> {
    if evs == [] then [] else Arrivals(evs[..|evs| - 1]) + Arrived(Last(evs))
  }

  /** None of the polls is of con, and none is later than now. */
  predicate OthersOnly(evs: seq<Event>, con: Byte, now: int) {
    forall k :: 0 <= k < |evs| && evs[k].Poll? ==> evs[k].con != con && evs[k].now <= now
  }

  lemma StepTakes(s: Queues, cmd: nat, pos: nat, ev: Event, con: Byte, now: int)
    requires OthersOnly([ev], con, now)
    ensures Filter(Takes(pos, con, now), Step(s, cmd, pos, ev).recv) ==
            Filter(Takes(pos, con, now), s.recv) + Filter(Takes(pos, con, now), Arrived(ev))
  {
    hide Takes, Polled;
    if ev.Arrive? { FilterConcat(Takes(pos, con, now), s.recv, [ev.e]); }
    if ev.Poll? {
      assert [ev][0] == ev;
      LeftForOther(s, cmd, pos, con, ev.con, ev.now, now);
    }
  }

  /** Whatever the other connectors poll in between, a connector still finds all that was there for it and all that
      came for it. */
  lemma {:induction false} Undisturbed(s: Queues, cmd: nat, pos: nat, evs: seq<Event>, con: Byte, now: int)
    requires OthersOnly(evs, con, now)
    ensures Filter(Takes(pos, con, now), After(s, cmd, pos, evs).recv) ==
            Filter(Takes(pos, con, now), s.recv) + Filter(Takes(pos, con, now), Arrivals(evs))
  {
    hide Takes, Step, Arrived;
    if evs != [] {
      var (front, ev) := (evs[..|evs| - 1], Last(evs));
      assert OthersOnly(front, con, now) && OthersOnly([ev], con, now);
      hide OthersOnly, Filter;
      Undisturbed(s, cmd, pos, front, con, now);
      StepTakes(After(s, cmd, pos, front), cmd, pos, ev, con, now);
      FilterConcat(Takes(pos, con, now), Arrivals(front), Arrived(ev));
      assert After(s, cmd, pos, evs) == Step(After(s, cmd, pos, front), cmd, pos, ev);
    }
  }

  /** An arrival of a message for con that is no older than 20 seconds at a time. */
  predicate ArrivesFor(ev: Event, pos: nat, con: Byte, now: int) {
    ev.Arrive? && now - ev.e.timestamp <= 20 && Addressed(ev.e, pos, con)
  }

  /** Where the last arrival for the connector stands; at the end when there is none. */
  lemma LastFor(evs: seq<Event>, pos: nat, con: Byte, now: int) returns (k: nat)
    ensures k <= |evs| && (k < |evs| ==> ArrivesFor(evs[k], pos, con, now))
    ensures forall j :: 0 <= j < |evs| && (j > k || k == |evs|) ==> !ArrivesFor(evs[j], pos, con, now)
  {
    k := |evs|;
    var n := |evs|;
    while n > 0
      invariant 0 <= n <= |evs| && k == |evs|
      invariant forall j :: n <= j < |evs| ==> !ArrivesFor(evs[j], pos, con, now)
    {
      n := n - 1;
      if ArrivesFor(evs[n], pos, con, now) { return n; }
    }
  }

  lemma ArrivalTaken(ev: Event, pos: nat, con: Byte, now: int)
    ensures Filter(Takes(pos, con, now), Arrived(ev)) == if ArrivesFor(ev, pos, con, now) then [ev.e] else []
  {
  }

  /** Filtering the arrivals for the connector ends with the last of them, and comes to nothing when there is none. */
  lemma {:induction false} LastArrival(evs: seq<Event>, pos: nat, con: Byte, now: int, k: nat)
    requires k <= |evs| && (k < |evs| ==> ArrivesFor(evs[k], pos, con, now))
    requires forall j :: 0 <= j < |evs| && (j > k || k == |evs|) ==> !ArrivesFor(evs[j], pos, con, now)
    ensures var mine := Filter(Takes(pos, con, now), Arrivals(evs));
            if k == |evs| then mine == [] else mine != [] && Last(mine) == evs[k].e
  {
    hide Takes, ArrivesFor, Arrived;
    if evs != [] {
      var n := |evs| - 1;
      FilterConcat(Takes(pos, con, now), Arrivals(evs[..n]), Arrived(evs[n]));
      ArrivalTaken(evs[n], pos, con, now);
      hide Filter;
      if k != n { LastArrival(evs[..n], pos, con, now, if k > n then n else k); }
    }
  }

  /** Between two polls of a connector, polls of others notwithstanding: the second answers with the newest message that
      came for it since the first and is no older than 20 seconds, with nothing iff none came; unless the platform was
      late its result is ERR_NO or ERR_REMOTE_NODATA accordingly. */
  lemma AnswersNewestSince(s: Queues, cmd: nat, pos: nat, con: Byte, first: int, evs: seq<Event>, second: int)
    requires first <= second && OthersOnly(evs, con, second)
    ensures var t := After(Polled(s, cmd, pos, con, first), cmd, pos, evs);
            var r := PollReply(t, pos, con, second);
            var came := exists k: nat :: k < |evs| && ArrivesFor(evs[k], pos, con, second);
            && r.msg == Newest(Filter(Takes(pos, con, second), Arrivals(evs)))
            && (r.msg == None <==> !came)
            && (came ==> exists k: nat :: k < |evs| && ArrivesFor(evs[k], pos, con, second) &&
                                          r.msg == Some(evs[k].e) &&
                                          forall j: nat :: k < j < |evs| ==> !ArrivesFor(evs[j], pos, con, second))
            && r.err == if t.late then ErrRemoteTimeout else if came then ErrNo else ErrRemoteNoData
  {
    hide ArrivesFor;
    var t := Polled(s, cmd, pos, con, first);
    Undisturbed(t, cmd, pos, evs, con, second);
    FilterIn(Leaves(pos, con, first), s.recv);
    FilterNone(Takes(pos, con, second), t.recv);
    var k := LastFor(evs, pos, con, second);
    LastArrival(evs, pos, con, second, k);
    PollNewest(After(t, cmd, pos, evs), pos, con, second);
    hide Filter, Takes;
  }

  function IsAwaited(cmd: nat, con: Byte): Sent -> bool {
    (s: Sent) => s.cmd == cmd && s.con == con
  }

  /** The polls of other connectors settle nothing a connector waits for. */
  lemma {:induction false} StillAwaited(s: Queues, cmd: nat, pos: nat, evs: seq<Event>, con: Byte, now: int)
    requires OthersOnly(evs, con, now)
    requires forall k :: 0 <= k < |evs| ==> !evs[k].Request?
    ensures Filter(IsAwaited(cmd, con), After(s, cmd, pos, evs).send) == Filter(IsAwaited(cmd, con), s.send)
  {
    if evs != [] {
      var front := evs[..|evs| - 1];
      var t := After(s, cmd, pos, front);
      StillAwaited(s, cmd, pos, front, con, now);
      if Last(evs).Poll? {
        FilterBoth(IsAwaited(cmd, con), Awaits(cmd, Last(evs).con), IsAwaited(cmd, con), t.send);
      }
    }
  }
}
