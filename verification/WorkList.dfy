/** The download work list: one pending file handed out a call, until none is left. */
module WorkList {
  import opened Lists
  import opened Numbering

  datatype ErrorCode = ErrNo | ErrFileNo | ErrFileRw | ErrFileParse

  /** One element of flist; one without a file name ends the list. */
  datatype Entry = Entry(
    filename: Option<string>, size: nat, crc: string, localpath: string, ftpdir: string, status: Byte)

  predicate PartAt(s: string, i: nat, part: string) { i + |part| <= |s| && s[i..i + |part|] == part }

  /** strstr finds part in s. */
  predicate Contains(s: string, part: string) {
    exists i: nat :: i <= |s| && PartAt(s, i, part)
  }

  /** part is found in s exactly when s is it with something before and something behind. */
  lemma ContainsIff(s: string, part: string)
    ensures Contains(s, part) <==> exists a, b :: s == a + part + b
  {
    if i: nat :| i <= |s| && PartAt(s, i, part) {
      assert s == s[..i] + part + s[i + |part|..];
    }
    if a, b :| s == a + part + b {
      assert PartAt(s, |a|, part);
    }
  }

  predicate Listed(l: seq<Entry>, i: nat) { i < |l| && l[i].filename.Some? }

  /** A boot loader file that is already installed. */
  predicate Installed(e: Entry, boot: string) {
    e.filename.Some? && Contains(e.filename.value, "new_boot") && e.crc == boot
  }

  predicate Pending(e: Entry, boot: string) { e.status == 1 && !Installed(e, boot) }

  /** The first position from i on that is pending or past the list. */
  function Next(l: seq<Entry>, boot: string, i: nat): (k: nat)
    requires i <= |l|
    ensures i <= k <= |l| && (Listed(l, k) ==> Pending(l[k], boot))
    ensures forall j :: i <= j < k ==> Listed(l, j) && !Pending(l[j], boot)
    decreases |l| - i
  {
    if !Listed(l, i) || Pending(l[i], boot) then i else Next(l, boot, i + 1)
  }

  /** The list with the status of the first n entries taken back from 1 to 0. */
  function Cleared(l: seq<Entry>, n: nat): (r: seq<Entry>)
    ensures |r| == |l|
  {
    seq(|l|, j requires 0 <= j < |l| => if j < n && l[j].status == 1 then l[j].(status := 0) else l[j])
  }

  /** One more entry looked at: its status goes if it is 1. */
  lemma ClearedNext(l: seq<Entry>, i: nat)
    requires i < |l|
    ensures Cleared(l, i)[i] == l[i]
    ensures Cleared(l, i + 1) == if l[i].status == 1 then Cleared(l, i)[i := l[i].(status := 0)] else Cleared(l, i)
    ensures |Cleared(l, i)| == |l|
  {
  }

  /** A call's answer: the position handed out, none when nothing is pending, and the list it leaves. */
  function HandOut(l: seq<Entry>, boot: string): (Option<nat>, seq<Entry>) {
    var k := Next(l, boot, 0);
    if Listed(l, k) then (Some(k), Cleared(l, k + 1)) else (None, l)
  }

  // ----- repeated calls ------------------------------------------------------

  /** The number of entries with status 1. */
  function Ones(l: seq<Entry>): nat {
    if l == [] then 0 else (if l[0].status == 1 then 1 else 0) + Ones(l[1..])
  }

  lemma {:induction false} ClearedFewer(l: seq<Entry>, n: nat, k: nat)
    ensures Ones(Cleared(l, n)) <= Ones(l)
    ensures k < n && k < |l| && l[k].status == 1 ==> Ones(Cleared(l, n)) < Ones(l)
  {
    if l != [] && n > 0 {
      ClearedFewer(l[1..], n - 1, if k > 0 then k - 1 else 0);
      assert Cleared(l, n)[1..] == Cleared(l[1..], n - 1);
    } else {
      assert Cleared(l, n) == l;
    }
  }

  /** Every call that hands something out leaves fewer entries with status 1. */
  lemma HandOutFewer(l: seq<Entry>, boot: string)
    ensures HandOut(l, boot).0.Some? ==> Ones(HandOut(l, boot).1) < Ones(l)
  {
    var k := Next(l, boot, 0);
    ClearedFewer(l, k + 1, k);
  }

  /** The positions handed out by calls repeated until one fails, and the list they leave. */
  function Drain(l: seq<Entry>, boot: string): (seq<nat>, seq<Entry>)
    decreases Ones(l)
  {
    HandOutFewer(l, boot);
    var (at, rest) := HandOut(l, boot);
    if at == None then ([], l)
    else
      var (more, end) := Drain(rest, boot);
      ([at.value] + more, end)
  }

  /** Where the list ends: at the first entry without a file name. */
  function End(l: seq<Entry>, i: nat): (k: nat)
    requires i <= |l|
    ensures i <= k <= |l| && !Listed(l, k) && forall j :: i <= j < k ==> Listed(l, j)
    decreases |l| - i
  {
    if Listed(l, i) then End(l, i + 1) else i
  }

  /** A list m that has come from l by handing out everything up to i, and nothing from there on. */
  ghost predicate DoneTo(l: seq<Entry>, m: seq<Entry>, i: nat) {
    && |m| == |l| && i <= |l|
    && (forall j :: 0 <= j < i ==> Listed(l, j) && m[j] == l[j].(status := if l[j].status == 1 then 0 else l[j].status))
    && (forall j :: i <= j < |l| ==> m[j] == l[j])
  }

  /** From a list done to i the next call finds what is first pending from i on. */
  lemma NextIn(l: seq<Entry>, m: seq<Entry>, boot: string, i: nat)
    requires DoneTo(l, m, i)
    ensures var k := Next(m, boot, 0);
            && i <= k && (Listed(m, k) <==> Listed(l, k))
            && (forall j: nat :: i <= j < k ==> Listed(l, j) && !Pending(l[j], boot))
            && (Listed(l, k) ==> Pending(l[k], boot) && DoneTo(l, Cleared(m, k + 1), k + 1))
            && k <= End(l, 0) && (!Listed(l, k) ==> k == End(l, 0))
  {
    hide Installed, Next;
    var k := Next(m, boot, 0);
    forall j: nat | j < k ensures Listed(l, j) { assert Listed(m, j); }
  }

  lemma RisingCons(k: nat, at: seq<nat>)
    requires Rising(at) && forall j: nat :: j in at ==> k < j
    ensures Rising([k] + at)
  {
    forall i, j | 0 <= i < j < |at| + 1 ensures ([k] + at)[i] < ([k] + at)[j] {
      assert at[j - 1] in at;
    }
  }

  lemma {:induction false} DrainFrom(l: seq<Entry>, m: seq<Entry>, boot: string, i: nat)
    requires DoneTo(l, m, i)
    ensures var (at, end) := Drain(m, boot);
            && Rising(at)
            && (forall k: nat :: k in at <==> i <= k < End(l, 0) && Pending(l[k], boot))
            && DoneTo(l, end, if at == [] then i else Last(at) + 1)
    decreases |l| - i
  {
    hide Pending, Next, DoneTo, Cleared;
    NextIn(l, m, boot, i);
    HandOutFewer(m, boot);
    var k := Next(m, boot, 0);
    if Listed(m, k) {
      var rest := Cleared(m, k + 1);
      DrainFrom(l, rest, boot, k + 1);
      var (more, end) := Drain(rest, boot);
      assert Drain(m, boot) == ([k] + more, end);
      RisingCons(k, more);
    }
  }

  lemma {:induction false} DrainStops(l: seq<Entry>, boot: string)
    ensures HandOut(Drain(l, boot).1, boot).0 == None
    decreases Ones(l)
  {
    HandOutFewer(l, boot);
    if HandOut(l, boot).0.Some? { DrainStops(HandOut(l, boot).1, boot); }
  }

  /** Calls repeated until one fails hand out exactly the entries with status 1 before the first one without a file name
      but those whose name contains "new_boot" and whose checksum is that of the installed boot loader, each once and in
      the order of the list; up to the last one handed out every status of 1 is taken back to 0, an installed boot
      loader's among them, and behind it nothing changes. */
  lemma DrainExact(l: seq<Entry>, boot: string)
    ensures var (at, end) := Drain(l, boot);
            var last := if at == [] then 0 else Last(at) + 1;
            && Rising(at)
            && (forall k: nat :: k in at <==> k < End(l, 0) && l[k].status == 1 && l[k].filename.Some?
                                              && !(Contains(l[k].filename.value, "new_boot") && l[k].crc == boot))
            && |end| == |l|
            && (forall k: nat :: k < |l| ==>
                  end[k] == if k < last && l[k].status == 1 then l[k].(status := 0) else l[k])
            && HandOut(end, boot).0 == None
  {
    hide Contains;
    DrainFrom(l, l, boot, 0);
    DrainStops(l, boot);
  }

  /** After the drain no listed entry is left with status 1 if and only if none behind the last one handed out had it;
      what had it there is an installed boot loader. */
  lemma DrainLeavesNone(l: seq<Entry>, boot: string)
    ensures var (at, end) := Drain(l, boot);
            var last := if at == [] then 0 else Last(at) + 1;
            && |end| == |l|
            && ((forall i: nat :: i < End(l, 0) ==> end[i].status != 1) <==>
                (forall i: nat :: last <= i < End(l, 0) ==> l[i].status != 1))
            && forall i: nat :: last <= i < End(l, 0) && l[i].status == 1 ==>
                 l[i].filename.Some? && Contains(l[i].filename.value, "new_boot") && l[i].crc == boot
  {
    hide Contains, Drain;
    DrainExact(l, boot);
    var (at, end) := Drain(l, boot);
    var last := if at == [] then 0 else Last(at) + 1;
    forall i: nat | last <= i < End(l, 0) && l[i].status == 1
      ensures l[i].filename.Some? && Contains(l[i].filename.value, "new_boot") && l[i].crc == boot
    {
      assert Listed(l, i);
    }
    assert forall i: nat :: i < End(l, 0) ==> end[i].status != 1 || i >= last;
    assert forall i: nat :: last <= i < End(l, 0) ==> end[i] == l[i];
  }

  const INSTALLED_ONLY: seq<Entry> := [Entry(Some("new_boot"), 0, "0a", "", "", 1)]

  /** A list on which one is left: the installed boot loader alone. */
  lemma InstalledStays()
    ensures Drain(INSTALLED_ONLY, "0a") == ([], INSTALLED_ONLY) && INSTALLED_ONLY[0].status == 1
  {
    var e := INSTALLED_ONLY[0];
    assert PartAt(e.filename.value, 0, "new_boot");
    assert Installed(e, "0a");
    assert Next(INSTALLED_ONLY, "0a", 1) == 1;
  }

  // ----- the file ------------------------------------------------------------

  /** The loop over the list, clearing statuses as it goes up to the entry it hands out. */
  method FindPending(l: seq<Entry>, boot: string, was: Entry) returns (found: bool, root: seq<Entry>, flist: Entry)
    ensures found == HandOut(l, boot).0.Some?
    ensures if found
            then HandOut(l, boot).0.value < |l| && flist == l[HandOut(l, boot).0.value] && root == HandOut(l, boot).1
            else flist == if End(l, 0) == 0 then was else l[End(l, 0) - 1]
  {
    hide Contains;
    found, root, flist := false, l, was;
    var i := 0;
    assert root == Cleared(l, 0);
    hide Cleared;
    while true
      invariant 0 <= i <= |l| && |root| == |l| && root == Cleared(l, i) && Next(l, boot, 0) == Next(l, boot, i)
      invariant forall j :: i <= j < |l| ==> root[j] == l[j]
      invariant End(l, 0) == End(l, i) && flist == if i == 0 then was else l[i - 1]
      decreases |l| - i
    {
      if i >= |root| || root[i].filename == None { return; }
      flist := root[i];
      ClearedNext(l, i);
      if flist.status == 1 {
        root := root[i := root[i].(status := 0)];
        if !(Contains(flist.filename.value, "new_boot") && flist.crc == boot) {
          found := true;
          return;
        }
      }
      i := i + 1;
    }
  }

  /** The file a path names, as a document; none when it is missing or does not parse. */
  class ListFile {
    const path: string
    var doc: Option<seq<Entry>>

    constructor (path: string, doc: Option<seq<Entry>>)
      ensures this.path == path && this.doc == doc
    {
      this.path, this.doc := path, doc;
    }

    /** parse_flist. The error of a failed load, the result of the write and what a failed write leaves come from the
        file system. A path of neither format is not looked at, and the call succeeds with what the caller passed. */
    method ParseFlist(boot: string, loadErr: ErrorCode, saveErr: ErrorCode, wreck: Option<seq<Entry>>, was: Entry)
      returns (err: ErrorCode, flist: Entry)
      requires loadErr != ErrNo
      modifies this
      ensures !Contains(path, "json") && !Contains(path, "nosj") ==> err == ErrNo && flist == was && doc == old(doc)
      ensures (Contains(path, "json") || Contains(path, "nosj")) && old(doc) == None ==>
                err == loadErr && flist == was && doc == None
      ensures (Contains(path, "json") || Contains(path, "nosj")) && old(doc).Some? ==>
                var l := old(doc).value;
                match HandOut(l, boot).0
                case None =>
                  && err == ErrFileParse && doc == old(doc)
                  && flist == if End(l, 0) == 0 then was else l[End(l, 0) - 1]
                case Some(k) =>
                  && err == saveErr && k < |l| && flist == l[k]
                  && doc == if saveErr == ErrNo then Some(HandOut(l, boot).1) else wreck
    {
      hide Contains;
      flist := was;
      if !Contains(path, "json") && !Contains(path, "nosj") { return ErrNo, flist; }
      if doc == None { return loadErr, flist; }
      var found, root;
      found, root, flist := FindPending(doc.value, boot, was);
      if !found { return ErrFileParse, flist; }
      err := saveErr;
      doc := if saveErr == ErrNo then Some(root) else wreck;
    }
  }
}
