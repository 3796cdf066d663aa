/** The queues of received and of sent commands of the platform link, shared by all connectors. */
module RemoteQueue {
  import opened Lists
  import opened Numbering

  /** echCmdElem_t; its len is the length of buff. */
  datatype Received = Received(timestamp: int, buff: seq<Byte>)

  /** echProtoElem_t: a command sent for a connector and not yet answered. */
  datatype Sent = Sent(cmd: nat, con: Byte)

  datatype ErrorCode = ErrNo | ErrRemoteNoData | ErrRemoteTimeout

  const EXPIRY := 20

  predicate Expired(e: Received, now: int) { now - e.timestamp > EXPIRY }

  /** The position of the connector number lies inside every message of the command. */
  predicate Readable(q: seq<Received>, pos: nat) { forall i :: 0 <= i < |q| ==> pos < |q[i].buff| }

  predicate IsFor(e: Received, pos: nat, con: Byte) { pos < |e.buff| && FromRemote(e.buff[pos]) == con }

  /** Which messages a poll for con takes, and which it leaves. */
  function Takes(pos: nat, con: Byte, now: int): Received -> bool {
    (e: Received) => !Expired(e, now) && IsFor(e, pos, con)
  }

  function Leaves(pos: nat, con: Byte, now: int): Received -> bool {
    (e: Received) => !Expired(e, now) && !IsFor(e, pos, con)
  }

  function Awaits(cmd: nat, con: Byte): Sent -> bool {
    (s: Sent) => !(s.cmd == cmd && s.con == con)
  }

  /** memcpy of a message to the front of a buffer. */
  function Overlay(buf: seq<Byte>, m: seq<Byte>): (r: seq<Byte>)
    requires |m| <= |buf|
    ensures |r| == |buf|
  {
    m + buf[|m|..]
  }

  /** Every message fits in n bytes. */
  predicate Fit(q: seq<Received>, n: nat) { forall i :: 0 <= i < |q| ==> |q[i].buff| <= n }

  /** The messages copied one over the other, oldest first. */
  function Overlays(buf: seq<Byte>, q: seq<Received>): (r: seq<Byte>)
    requires Fit(q, |buf|)
    ensures |r| == |buf|
    ensures q != [] ==> r[..|Last(q).buff|] == Last(q).buff
  {
    if q == [] then buf else Overlay(Overlays(buf, q[..|q| - 1]), Last(q).buff)
  }

  /** The queues of one command, and the list of sent commands of the link. */
  datatype Queues = Queues(recv: seq<Received>, send: seq<Sent>, late: bool)

  datatype Reply = Reply(err: ErrorCode, msg: Option<Received>)

  function Newest(q: seq<Received>): Option<Received> { if q == [] then None else Some(Last(q)) }

  /** What a poll for a connector returns; a reply that the platform is late overrides it. */
  function PollReply(s: Queues, pos: nat, con: Byte, now: int): Reply {
    var mine := Filter(Takes(pos, con, now), s.recv);
    Reply(if s.late then ErrRemoteTimeout else if mine == [] then ErrRemoteNoData else ErrNo, Newest(mine))
  }

  /** What it leaves behind. */
  function Polled(s: Queues, cmd: nat, pos: nat, con: Byte, now: int): Queues {
    Queues(Filter(Leaves(pos, con, now), s.recv),
           if Filter(Takes(pos, con, now), s.recv) == [] then s.send else Filter(Awaits(cmd, con), s.send),
           false)
  }

  /** The first entry of a command taken out. */
  function WithoutFirst(send: seq<Sent>, cmd: nat): seq<Sent> {
    if send == [] then [] else if send[0].cmd == cmd then send[1..] else [send[0]] + WithoutFirst(send[1..], cmd)
  }

  // ----- the lists, walked by cursors ----------------------------------------

  /** Deleting under a cursor takes the entry out and moves the cursor to the next one. */
  function Delete<T>(s: seq<T>, cur: nat): seq<T>
    requires cur < |s|
  {
    s[..cur] + s[cur + 1..]
  }

  /** Where a cursor stands: the entries before it are those kept so far, the others are untouched. */
  ghost predicate Cursor<T>(list: seq<T>, cur: nat, keep: T -> bool, was: seq<T>, k: nat) {
    k <= |was| && list == Filter(keep, was[..k]) + was[k..] && cur == |Filter(keep, was[..k])|
  }

  lemma CursorStart<T>(keep: T -> bool, was: seq<T>)
    ensures Cursor(was, 0, keep, was, 0) && Filter(keep, was[..0]) == []
  {
    assert was[..0] == [] && was[0..] == was;
  }

  lemma CursorStep<T>(list: seq<T>, cur: nat, keep: T -> bool, was: seq<T>, k: nat)
    requires Cursor(list, cur, keep, was, k) && cur < |list|
    ensures k < |was| && list[cur] == was[k]
    ensures if keep(was[k]) then Cursor(list, cur + 1, keep, was, k + 1)
            else Cursor(Delete(list, cur), cur, keep, was, k + 1)
  {
    FilterNext(keep, was, k);
    var kept := Filter(keep, was[..k]);
    assert was[k..] == [was[k]] + was[k + 1..];
    if keep(was[k]) {
      assert list == kept + [was[k]] + was[k + 1..];
    } else {
      assert Delete(list, cur) == kept + was[k + 1..];
    }
  }

  lemma CursorEnd<T>(list: seq<T>, cur: nat, keep: T -> bool, was: seq<T>, k: nat)
    requires Cursor(list, cur, keep, was, k) && cur >= |list|
    ensures k == |was| && list == Filter(keep, was)
  {
    assert was[..k] == was;
  }

  /** What a walk has copied out: the messages in mine, one over the other, and the length of the last. */
  ghost predicate Copied(mine: seq<Received>, was: seq<Byte>, buf: seq<Byte>, len: nat, newLen: nat, found: bool) {
    && Fit(mine, |was|) && buf == Overlays(was, mine)
    && found == (mine != []) && newLen == if found then |Last(mine).buff| else len
  }

  lemma CopiedNone(was: seq<Byte>, len: nat)
    ensures Copied([], was, was, len, len, false)
  {
  }

  lemma CopiedNext(mine: seq<Received>, was: seq<Byte>, buf: seq<Byte>, len: nat, newLen: nat, found: bool, e: Received)
    requires Copied(mine, was, buf, len, newLen, found) && |e.buff| <= |buf|
    ensures Copied(mine + [e], was, Overlay(buf, e.buff), len, |e.buff|, true)
  {
    assert (mine + [e])[..|mine|] == mine;
  }

  method Memcpy(dst: array<Byte>, src: seq<Byte>)
    requires |src| <= dst.Length
    modifies dst
    ensures dst[..] == Overlay(old(dst[..]), src)
  {
    var i := 0;
    while i < |src|
      invariant 0 <= i <= |src|
      invariant forall j :: 0 <= j < i ==> dst[j] == src[j]
      invariant forall j :: i <= j < dst.Length ==> dst[j] == old(dst[j])
    {
      dst[i] := src[i];
      i := i + 1;
    }
  }

  lemma EachFits(q: seq<Received>, k: nat, pos: nat, n: nat)
    requires k < |q| && Readable(q, pos) && Fit(q, n)
    ensures pos < |q[k].buff| <= n
  {
  }

  /** echCMD_t: the received messages of a command and its late bit. */
  class Command {
    var recv: seq<Received>
    var late: bool

    constructor ()
      ensures recv == [] && !late
    {
      recv, late := [], false;
    }

    /** Reading the late bit clears it. */
    method TakeLate() returns (late: bool)
      modifies this`late
      ensures late == old(this.late) && !this.late
    {
      late := this.late;
      this.late := false;
    }

    /** The walk over the received messages: expired ones are dropped, those for con are copied out and dropped. */
    method TakeFor(con: Byte, pos: nat, pbuff: array<Byte>, len: nat, now: int) returns (found: bool, newLen: nat)
      requires Readable(recv, pos) && Fit(recv, pbuff.Length)
      modifies this`recv, pbuff
      ensures recv == Filter(Leaves(pos, con, now), old(recv))
      ensures Copied(Filter(Takes(pos, con, now), old(recv)), old(pbuff[..]), pbuff[..], len, newLen, found)
    {
      hide Copied, Filter, Cursor, Overlay, Delete;
      found, newLen := false, len;
      ghost var was, buf, k := recv, pbuff[..], 0;
      ghost var takes, leaves := Takes(pos, con, now), Leaves(pos, con, now);
      ghost var mine: seq<Received> := [];
      var cur := 0;
      CursorStart(leaves, was);
      CursorStart(takes, was);
      CopiedNone(buf, len);
      while cur < |recv|
        invariant k <= |was| && pbuff.Length == |buf| && Cursor(recv, cur, leaves, was, k)
        invariant mine == Filter(takes, was[..k]) && Copied(mine, buf, pbuff[..], len, newLen, found)
        decreases |was| - k
      {
        CursorStep(recv, cur, leaves, was, k);
        FilterNext(takes, was, k);
        var e := recv[cur];
        assert |e.buff| > pos && |e.buff| <= pbuff.Length by { EachFits(was, k, pos, pbuff.Length); }
        if now - e.timestamp > EXPIRY {
          recv := Delete(recv, cur);
        } else if FromRemote(e.buff[pos]) == con {
          CopiedNext(mine, buf, pbuff[..], len, newLen, found, e);
          Memcpy(pbuff, e.buff);
          mine := mine + [e];
          newLen := |e.buff|;
          recv := Delete(recv, cur);
          found := true;
        } else {
          cur := cur + 1;
        }
        k := k + 1;
      }
      CursorEnd(recv, cur, leaves, was, k);
      assert was[..k] == was;
    }

    /** The newest message copied out, then every message deleted. */
    method TakeLast(pbuff: array<Byte>, len: nat) returns (found: bool, newLen: nat)
      requires Fit(recv, pbuff.Length)
      modifies this`recv, pbuff
      ensures recv == [] && found == (old(recv) != [])
      ensures if found
              then newLen == |Last(old(recv)).buff| && pbuff[..] == Overlay(old(pbuff[..]), Last(old(recv)).buff)
              else newLen == len && pbuff[..] == old(pbuff[..])
    {
      found, newLen := false, len;
      if |recv| > 0 {
        var e := Last(recv);
        Memcpy(pbuff, e.buff);
        found, newLen := true, |e.buff|;
      }
      ghost var buf := pbuff[..];
      while |recv| > 0
        invariant pbuff[..] == buf
        decreases |recv|
      {
        recv := Delete(recv, 0);
      }
    }
  }

  /** echProtocol_t. */
  class EchProtocol {
    const commands: seq<Command>
    var send: seq<Sent>

    constructor (commands: seq<Command>)
      ensures this.commands == commands && send == []
    {
      this.commands := commands;
      send := [];
    }

    ghost function View(cmd: nat): Queues
      requires cmd < |commands|
      reads this, commands[cmd]
    {
      Queues(commands[cmd].recv, send, commands[cmd].late)
    }

    /** Every sent command of this number and connector has its answer. */
    method DropAwaiting(cmd: nat, con: Byte)
      modifies this`send
      ensures send == Filter(Awaits(cmd, con), old(send))
    {
      hide Filter, Cursor;
      ghost var was, k, awaits := send, 0, Awaits(cmd, con);
      var cs := 0;
      CursorStart(awaits, was);
      while cs < |send|
        invariant k <= |was| && Cursor(send, cs, awaits, was, k)
        decreases |was| - k
      {
        CursorStep(send, cs, awaits, was, k);
        if send[cs].cmd == cmd && send[cs].con == con {
          send := Delete(send, cs);
        } else {
          cs := cs + 1;
        }
        k := k + 1;
      }
      CursorEnd(send, cs, awaits, was, k);
    }

    /** RemoteRecvHandleWithCON: what the platform sent for one connector under one command. */
    method RecvWithCON(cmd: nat, con: Byte, pos: nat, pbuff: array<Byte>, len: nat, now: int)
      returns (err: ErrorCode, newLen: nat)
      requires cmd < |commands| && Readable(commands[cmd].recv, pos)
      requires Fit(commands[cmd].recv, pbuff.Length)
      modifies commands[cmd], this`send, pbuff
      ensures View(cmd) == Polled(old(View(cmd)), cmd, pos, con, now)
      ensures err == PollReply(old(View(cmd)), pos, con, now).err
      ensures match PollReply(old(View(cmd)), pos, con, now).msg
              case None => newLen == len && pbuff[..] == old(pbuff[..])
              case Some(e) => newLen == |e.buff| && newLen <= pbuff.Length && pbuff[..newLen] == e.buff
    {
      hide Filter;
      var found;
      found, newLen := commands[cmd].TakeFor(con, pos, pbuff, len, now);
      err := if found then ErrNo else ErrRemoteNoData;
      if err != ErrRemoteNoData { DropAwaiting(cmd, con); }
      var late := commands[cmd].TakeLate();
      if late { err := ErrRemoteTimeout; }
    }

    method DropFirst(cmd: nat)
      modifies this`send
      ensures send == WithoutFirst(old(send), cmd)
    {
      var cs := 0;
      while cs < |send|
        invariant 0 <= cs <= |send| && send == old(send)
        invariant WithoutFirst(send, cmd) == send[..cs] + WithoutFirst(send[cs..], cmd)
      {
        if send[cs].cmd == cmd {
          assert send[cs..][1..] == send[cs + 1..];
          send := Delete(send, cs);
          return;
        }
        assert send[cs..][1..] == send[cs + 1..];
        assert send[..cs + 1] == send[..cs] + [send[cs]];
        cs := cs + 1;
      }
    }

    /** RemoteRecvHandle: the newest message of a command for the whole station; all others go. */
    method Recv(cmd: nat, pbuff: array<Byte>, len: nat) returns (err: ErrorCode, newLen: nat)
      requires cmd < |commands| && Fit(commands[cmd].recv, pbuff.Length)
      modifies commands[cmd], this`send, pbuff
      ensures var q := old(commands[cmd].recv);
              && View(cmd) == Queues([], if q == [] then old(send) else WithoutFirst(old(send), cmd), false)
              && err == (if old(commands[cmd].late) then ErrRemoteTimeout
                         else if q == [] then ErrRemoteNoData else ErrNo)
              && if q == [] then newLen == len && pbuff[..] == old(pbuff[..])
                 else newLen == |Last(q).buff| && newLen <= pbuff.Length && pbuff[..newLen] == Last(q).buff
    {
      var found;
      found, newLen := commands[cmd].TakeLast(pbuff, len);
      err := if found then ErrNo else ErrRemoteNoData;
      if err != ErrRemoteNoData { DropFirst(cmd); }
      var late := commands[cmd].TakeLate();
      if late { err := ErrRemoteTimeout; }
    }
  }
}
