/** The configuration tree: scanning it by a key that is cut up in place, reading and overwriting its values. */
module ConfigTree {
  import opened Lists
  import opened KeyText

  datatype ErrorCode = ErrNo | ErrFileParse | ErrFileParam

  const INT_MAX := 0x7fff_ffff

  const INT_MIN := -0x8000_0000

  const U32_END := 0x1_0000_0000

  /** valueint, valuedouble and valuestring. */
  datatype Value = Value(whole: int, number: real, text: string)

  /** The types a value can be read as and written from, without and with the value; Other is any other type number. */
  datatype Kind = U8 | U16 | U32 | S32 | Double | Text | Other

  datatype Setting =
    | SetU8(u8: nat) | SetU16(u16: nat) | SetU32(u32: nat) | SetS32(s32: int) | SetDouble(d: real) | SetText(t: string)
    | SetOther

  predicate InRange(v: Setting) {
    match v
    case SetU8(n) => n < 0x100
    case SetU16(n) => n < 0x1_0000
    case SetU32(n) => n < U32_END
    case SetS32(n) => INT_MIN <= n <= INT_MAX
    case _ => true
  }

  function KindOf(v: Setting): Kind {
    match v
    case SetU8(_) => U8
    case SetU16(_) => U16
    case SetU32(_) => U32
    case SetS32(_) => S32
    case SetDouble(_) => Double
    case SetText(_) => Text
    case SetOther => Other
  }

  /** Conversion of a double to an integer: toward zero. */
  function Truncate(x: real): int { if x >= 0.0 then x.Floor else -(-x).Floor }

  /** cJSON_SetNumberHelper. */
  function WithNumber(v: Value, x: real): Value {
    v.(whole := if x >= INT_MAX as real then INT_MAX else if x <= INT_MIN as real then INT_MIN else Truncate(x),
       number := x)
  }

  function Stored(v: Value, s: Setting): Value {
    match s
    case SetU8(n) => WithNumber(v, n as real)
    case SetU16(n) => WithNumber(v, n as real)
    case SetU32(n) => WithNumber(v, n as real)
    case SetS32(n) => WithNumber(v, n as real)
    case SetDouble(x) => WithNumber(v, x)
    case SetText(t) => v.(text := t)
    case SetOther => v
  }

  /** What a read of a kind delivers: narrow integers keep the low bits of the whole number. */
  function Fetched(v: Value, k: Kind): Setting {
    match k
    case U8 => SetU8(v.whole % 0x100)
    case U16 => SetU16(v.whole % 0x1_0000)
    case U32 =>
      SetU32(if v.number < 0.0 then 0 else if v.number >= U32_END as real then U32_END - 1 else v.number.Floor)
    case S32 => SetS32(v.whole)
    case Double => SetDouble(v.number)
    case Text => SetText(v.text)
    case Other => SetOther
  }

  /** A value read back with the type it was written with is the value written; a text changes nothing else. */
  lemma FetchStored(v: Value, s: Setting)
    requires InRange(s)
    ensures Fetched(Stored(v, s), KindOf(s)) == s
    ensures s.SetText? ==> forall k: Kind :: k != Text ==> Fetched(Stored(v, s), k) == Fetched(v, k)
  {
  }

  /** The whole number of a double: the nearest toward zero, within 32 bits. */
  ghost predicate IsWhole(w: int, x: real) {
    && -2147483648 <= w <= 2147483647
    && (w > -2147483648 && x < 0.0 ==> w as real - 1.0 < x <= w as real)
    && (w < 2147483647 && x >= 0.0 ==> w as real <= x < w as real + 1.0)
    && (w == -2147483648 ==> x <= -2147483648.0) && (w == 2147483647 ==> x >= 2147483647.0)
    && (x >= 0.0 ==> w >= 0) && (x < 0.0 ==> w <= 0)
  }

  /** A number written with one type and read with another: a double reads it as it is, a signed integer its whole
      number, the narrow types the low bits of that, and an unsigned one what is left of a fraction between 0 and the
      end of 32 bits. The text is as it was. */
  lemma NumberReadAs(v: Value, s: Setting, x: real)
    requires match s
             case SetU8(n) => x == n as real
             case SetU16(n) => x == n as real
             case SetU32(n) => x == n as real
             case SetS32(n) => x == n as real
             case SetDouble(d) => x == d
             case _ => false
    ensures var t := Stored(v, s);
            var w := Fetched(t, S32).s32;
            && Fetched(t, Double).d == x && IsWhole(w, x)
            && (exists q: int :: w == 256 * q + Fetched(t, U8).u8) && Fetched(t, U8).u8 < 256
            && (exists q: int :: w == 65536 * q + Fetched(t, U16).u16) && Fetched(t, U16).u16 < 65536
            && (x <= 0.0 ==> Fetched(t, U32).u32 == 0)
            && (x >= 4294967296.0 ==> Fetched(t, U32).u32 == 4294967295)
            && (0.0 <= x < 4294967296.0 ==> Fetched(t, U32).u32 as real <= x < Fetched(t, U32).u32 as real + 1.0)
            && Fetched(t, Text).t == v.text
  {
    var w := Stored(v, s).whole;
    assert w == 256 * (w / 256) + w % 256;
    assert w == 65536 * (w / 65536) + w % 65536;
  }

  function Lower(c: char): char { if 'A' <= c <= 'Z' then c - 'A' + 'a' else c }

  /** case_insensitive_strcmp finds no difference. */
  predicate SameName(a: string, b: string) {
    |a| == |b| && forall i :: 0 <= i < |a| ==> Lower(a[i]) == Lower(b[i])
  }

  class Node {
    var name: Option<string>
    var children: seq<Node>
    var value: Value

    constructor (name: Option<string>, children: seq<Node>, value: Value)
      ensures this.name == name && this.children == children && this.value == value
    {
      this.name, this.children, this.value := name, children, value;
    }
  }

  /** The nodes of a document: whatever hangs below one of them is one of them. */
  ghost predicate Closed(nodes: set<Node>)
    reads nodes`children
  {
    forall n :: n in nodes ==> forall i :: 0 <= i < |n.children| ==> n.children[i] in nodes
  }

  /** The first child from i on that bears the name; a child without a name bears none. */
  function ChildFrom(nodes: set<Node>, n: Node, name: string, i: nat): (r: Node?)
    requires Closed(nodes) && n in nodes && i <= |n.children|
    reads nodes`children, nodes`name
    ensures r != null ==> r in nodes
    decreases |n.children| - i
  {
    if i == |n.children| then null
    else if n.children[i].name.Some? && SameName(name, n.children[i].name.value) then n.children[i]
    else ChildFrom(nodes, n, name, i + 1)
  }

  function Item(nodes: set<Node>, n: Node, index: int): Node?
    requires Closed(nodes) && n in nodes
    reads nodes`children
  {
    if 0 <= index < |n.children| then n.children[index] else null
  }

  /** One component: a child by name and, with an index, a child of that by position. */
  function Enter(nodes: set<Node>, n: Node, c: Component): (r: Node?)
    requires Closed(nodes) && n in nodes
    reads nodes`children, nodes`name
    ensures r != null ==> r in nodes
  {
    var sub := ChildFrom(nodes, n, c.name, 0);
    if sub != null && c.index.Some? then Item(nodes, sub, c.index.value) else sub
  }

  /** The step-by-step walk. */
  function Walk(nodes: set<Node>, root: Node?, cs: seq<Component>): (r: Node?)
    requires Closed(nodes) && (root != null ==> root in nodes)
    reads nodes`children, nodes`name
    ensures r != null ==> r in nodes
    decreases |cs|
  {
    if cs == [] || root == null then root else Walk(nodes, Enter(nodes, root, cs[0]), cs[1..])
  }

  // ----- where names, positions and paths lead -------------------------------

  /** One character, or one letter in both cases. */
  predicate SameLetter(a: char, b: char) {
    || a == b
    || ('A' <= a <= 'Z' && b as int == a as int + 32)
    || ('A' <= b <= 'Z' && a as int == b as int + 32)
  }

  predicate Bears(m: Node, name: string)
    reads m`name
  {
    match m.name
    case None => false
    case Some(own) => |own| == |name| && forall i :: 0 <= i < |own| ==> SameLetter(name[i], own[i])
  }

  lemma BearsName(m: Node, name: string)
    ensures Bears(m, name) <==> m.name.Some? && SameName(name, m.name.value)
  {
    if m.name.Some? && |m.name.value| == |name| {
      var own := m.name.value;
      forall i | 0 <= i < |own| ensures SameLetter(name[i], own[i]) <==> Lower(name[i]) == Lower(own[i]) {
      }
    }
  }

  /** The child at k bears the name and none before it does; k past the children when none of them does. */
  predicate FirstNamed(n: Node, name: string, k: nat)
    reads n`children, n.children`name
  {
    && k <= |n.children|
    && (k < |n.children| ==> Bears(n.children[k], name))
    && forall j :: 0 <= j < k ==> !Bears(n.children[j], name)
  }

  lemma {:induction false} ChildAt(nodes: set<Node>, n: Node, name: string, i: nat, k: nat)
    requires Closed(nodes) && n in nodes && i <= k && FirstNamed(n, name, k)
    ensures ChildFrom(nodes, n, name, i) == if k < |n.children| then n.children[k] else null
    decreases k - i
  {
    hide SameName;
    if i < |n.children| { BearsName(n.children[i], name); }
    hide Bears;
    if i < k { ChildAt(nodes, n, name, i + 1, k); }
  }

  /** A path with one more component leads on from where the path leads. */
  lemma {:induction false} WalkExtends(nodes: set<Node>, root: Node?, cs: seq<Component>, c: Component)
    requires Closed(nodes) && (root != null ==> root in nodes)
    ensures Walk(nodes, root, cs + [c]) ==
            var n := Walk(nodes, root, cs); if n == null then null else Enter(nodes, n, c)
    decreases |cs|
  {
    hide Enter;
    if cs != [] && root != null {
      assert (cs + [c])[1..] == cs[1..] + [c];
      WalkExtends(nodes, Enter(nodes, root, cs[0]), cs[1..], c);
    }
  }

  /** The empty path leads to the root. A path to n followed by a name leads to the first child of n that bears it,
      followed by a name and an index to what stands at that index among the children of that child, and to nothing
      when there is no such child or nothing at the index. */
  lemma PathLeads(nodes: set<Node>, root: Node?, cs: seq<Component>, n: Node, name: string, k: nat, i: int)
    requires Closed(nodes) && (root != null ==> root in nodes) && Walk(nodes, root, cs) == n && FirstNamed(n, name, k)
    ensures Walk(nodes, root, []) == root
    ensures Walk(nodes, root, cs + [Component(name, None)]) == if k < |n.children| then n.children[k] else null
    ensures Walk(nodes, root, cs + [Component(name, Some(i))]) ==
            if k < |n.children| && 0 <= i < |n.children[k].children| then n.children[k].children[i] else null
  {
    hide FirstNamed;
    WalkExtends(nodes, root, cs, Component(name, None));
    WalkExtends(nodes, root, cs, Component(name, Some(i)));
    ChildAt(nodes, n, name, 0, k);
    hide Walk, ChildFrom;
  }

  // ----- the key as a buffer -------------------------------------------------

  /** The C string at a position of a buffer. */
  ghost predicate IsText(key: seq<char>, at: nat) { at < |key| && NUL in key[at..] }

  ghost function TextAt(key: seq<char>, at: nat): string
    requires at <= |key|
  {
    Before(key[at..], NUL)
  }

  /** Scanning changes nothing of a buffer but turns dots and colons into NULs. */
  ghost predicate OnlyCut(was: seq<char>, key: seq<char>) {
    |key| == |was| && forall i :: 0 <= i < |key| ==>
      key[i] == was[i] || (key[i] == NUL && (was[i] == '.' || was[i] == ':'))
  }

  /** The text at a position is what stands before the first NUL, wherever that was found. */
  lemma TextIs(key: seq<char>, at: nat, n: nat)
    requires at + n < |key| && NUL !in key[at..at + n] && key[at + n] == NUL
    ensures IsText(key, at) && TextAt(key, at) == key[at..at + n]
  {
    BeforeConcat(key[at..at + n], NUL, key[at + n + 1..]);
    assert key[at..] == key[at..at + n] + [NUL] + key[at + n + 1..];
  }

  lemma CutAt(was: seq<char>, at: nat, c: char, i: nat)
    requires IsText(was, at) && c != NUL && at <= i < |was| && was[i] == c
    requires forall j :: at <= j < i ==> was[j] != NUL && was[j] != c
    ensures var t := TextAt(was, at); var key := was[i := NUL];
            && c in t && i == at + |Before(t, c)| && i < at + |t|
            && IsText(key, at) && TextAt(key, at) == Before(t, c)
            && IsText(key, i + 1) && TextAt(key, i + 1) == After(t, c)
  {
    hide Before, After;
    var t := TextAt(was, at);
    var e := at + |t|;
    assert was[at..][|t|] == NUL;
    assert was[at..e] == t;
    assert t == was[at..i] + [c] + was[i + 1..e];
    BeforeConcat(was[at..i], c, was[i + 1..e]);
    var key := was[i := NUL];
    assert key[at..i] == was[at..i] && key[i + 1..e] == was[i + 1..e];
    TextIs(key, at, i - at);
    TextIs(key, i + 1, e - i - 1);
  }

  /** strsep, and strchr with the cut after it: the string at a position is cut at the first c. */
  method Cut(key: array<char>, at: nat, c: char) returns (found: bool, next: nat)
    requires IsText(key[..], at) && c != NUL
    modifies key
    ensures found <==> c in TextAt(old(key[..]), at)
    ensures !found ==> key[..] == old(key[..])
    ensures found ==>
              var t := TextAt(old(key[..]), at);
              && next == at + |Before(t, c)| + 1 && next <= at + |t|
              && key[..] == old(key[..])[next - 1 := NUL] && old(key[..])[next - 1] == c
              && IsText(key[..], at) && TextAt(key[..], at) == Before(t, c)
              && IsText(key[..], next) && TextAt(key[..], next) == After(t, c)
  {
    hide Before, After;
    ghost var was := key[..];
    ghost var e := at + |TextAt(was, at)|;
    assert was[at..][e - at] == NUL;
    var i := at;
    while key[i] != NUL && key[i] != c
      invariant at <= i <= e < key.Length && key[..] == was
      invariant forall j :: at <= j < i ==> was[j] != NUL && was[j] != c
      decreases e - i
    {
      i := i + 1;
    }
    found, next := key[i] == c, i + 1;
    if found {
      CutAt(was, at, c, i);
      hide TextAt, IsText;
      key[i] := NUL;
      assert key[..] == was[i := NUL];
    } else {
    }
  }

  /** The characters of the string at a position. */
  method ReadText(key: array<char>, at: nat) returns (t: string)
    requires IsText(key[..], at)
    ensures t == TextAt(key[..], at)
  {
    hide Before;
    ghost var was := key[..];
    ghost var e := at + |TextAt(was, at)|;
    assert was[at..][e - at] == NUL;
    var i := at;
    while key[i] != NUL
      invariant at <= i <= e < key.Length
      invariant forall j :: at <= j < i ==> was[j] != NUL
      decreases e - i
    {
      i := i + 1;
    }
    t := key[at..i];
    TextIs(was, at, i - at);
  }

  // ----- the document --------------------------------------------------------

  method GetObjectItem(ghost nodes: set<Node>, n: Node?, name: string) returns (r: Node?)
    requires Closed(nodes) && (n != null ==> n in nodes)
    ensures r == if n == null then null else ChildFrom(nodes, n, name, 0)
    ensures n == null ==> r == null
    ensures n != null ==>
              exists k: nat :: FirstNamed(n, name, k) && r == if k < |n.children| then n.children[k] else null
  {
    hide Bears, SameName;
    if n == null { return null; }
    var i := 0;
    while i < |n.children|
      invariant 0 <= i <= |n.children| && ChildFrom(nodes, n, name, 0) == ChildFrom(nodes, n, name, i)
      invariant forall j :: 0 <= j < i ==> !Bears(n.children[j], name)
    {
      var m := n.children[i];
      BearsName(m, name);
      if m.name.Some? && SameName(name, m.name.value) {
        assert FirstNamed(n, name, i);
        return m;
      }
      i := i + 1;
    }
    assert FirstNamed(n, name, i);
    r := null;
  }

  method GetArrayItem(ghost nodes: set<Node>, n: Node, index: int) returns (r: Node?)
    requires Closed(nodes) && n in nodes
    ensures r == if 0 <= index < |n.children| then n.children[index] else null
  {
    if index < 0 { return null; }
    var i, k := 0, index;
    while i < |n.children| && k > 0
      invariant 0 <= i <= |n.children| && i + k == index && 0 <= k
    {
      i, k := i + 1, k - 1;
    }
    r := if i < |n.children| then n.children[i] else null;
  }

  /** One turn of the scanning loop on the string at a position: its component entered from n. Without a child of that
      name the scan is over; without an item at the index it goes on from nowhere. */
  method EnterText(ghost nodes: set<Node>, n: Node?, key: array<char>, at: nat) returns (r: Node?, named: bool)
    requires Closed(nodes) && (n != null ==> n in nodes) && IsText(key[..], at)
    modifies key
    ensures r == if n == null then null else Enter(nodes, n, ComponentOf(TextAt(old(key[..]), at)))
    ensures !named ==> r == null
    ensures OnlyCut(old(key[..]), key[..])
    ensures forall j :: at + |TextAt(old(key[..]), at)| <= j < key.Length ==> key[j] == old(key[j])
  {
    hide Before, After, TextAt, IsText;
    var indexed, next := Cut(key, at, ':');
    var name := ReadText(key, at);
    r := GetObjectItem(nodes, n, name);
    named := r != null;
    if indexed && r != null {
      var digits := ReadText(key, next);
      r := GetArrayItem(nodes, r, Atoi(digits));
    }
  }

  lemma TextKept(was: seq<char>, key: seq<char>, at: nat)
    requires |key| == |was| && IsText(was, at) && forall j :: at <= j < |key| ==> key[j] == was[j]
    ensures IsText(key, at) && TextAt(key, at) == TextAt(was, at)
  {
    assert key[at..] == was[at..];
  }

  /** cfgobj_scan: cutting the key up as it goes, it reaches the node the walk along the key's components reaches. */
  method Scan(ghost nodes: set<Node>, root: Node?, key: array<char>) returns (r: Node?)
    requires Closed(nodes) && (root != null ==> root in nodes) && IsText(key[..], 0)
    modifies key
    ensures r == Walk(nodes, root, Parse(TextAt(old(key[..]), 0)))
    ensures OnlyCut(old(key[..]), key[..])
  {
    hide Before, After, TextAt, ComponentOf, Enter;
    ghost var was := key[..];
    r := root;
    var more, at := true, 0;
    while more
      invariant r != null ==> r in nodes
      invariant more ==> IsText(key[..], at)
      invariant Walk(nodes, root, Parse(TextAt(was, 0))) ==
                if more then Walk(nodes, r, Parse(TextAt(key[..], at))) else r
      invariant OnlyCut(was, key[..])
      decreases if more then key.Length - at else 0
    {
      var found, next := Cut(key, at, '.');
      ghost var cut := key[..];
      var named;
      r, named := EnterText(nodes, r, key, at);
      if !named { return; }
      if found { TextKept(cut, key[..], next); }
      more, at := found, next;
    }
  }

  /** cfgobj_get; a failed read leaves the receiving variable at what it held. */
  method Get(ghost nodes: set<Node>, root: Node?, key: array<char>, kind: Kind, was: Setting)
    returns (err: ErrorCode, val: Setting)
    requires Closed(nodes) && (root != null ==> root in nodes) && IsText(key[..], 0)
    modifies key
    ensures var n := Walk(nodes, root, Parse(TextAt(old(key[..]), 0)));
            && (err == ErrFileParse <==> n == null)
            && (err == ErrFileParam <==> n != null && kind == Other)
            && val == if err == ErrNo then Fetched(n.value, kind) else was
  {
    hide Before, TextAt, Fetched, IsText;
    var n := Scan(nodes, root, key);
    if n == null { return ErrFileParse, was; }
    if kind == Other { return ErrFileParam, was; }
    err, val := ErrNo, Fetched(n.value, kind);
  }

  /** cfgobj_set: it overwrites the value of the node the key leads to and nothing else, and every path through the
      document leads where it led; when it fails nothing in the document changes. */
  method Set(ghost nodes: set<Node>, root: Node?, key: array<char>, v: Setting) returns (err: ErrorCode)
    requires Closed(nodes) && (root != null ==> root in nodes) && IsText(key[..], 0)
    modifies key, nodes`value
    ensures Closed(nodes) && forall cs :: Walk(nodes, root, cs) == old(Walk(nodes, root, cs))
    ensures var n := Walk(nodes, root, Parse(TextAt(old(key[..]), 0)));
            && (err == ErrFileParse <==> n == null)
            && (err == ErrFileParam <==> n != null && v == SetOther)
            && forall m :: m in nodes ==>
                 m.value == if err == ErrNo && m == n then Stored(old(m.value), v) else old(m.value)
  {
    hide Before, TextAt, Stored, IsText;
    var n := Scan(nodes, root, key);
    if n == null { return ErrFileParse; }
    if v == SetOther { return ErrFileParam; }
    err := ErrNo;
    n.value := Stored(n.value, v);
  }

  /** A read after a write: where both keys lead to one node it delivers what was written, elsewhere what was there. */
  method SetThenGet(ghost nodes: set<Node>, root: Node?, setKey: array<char>, v: Setting, getKey: array<char>,
                    was: Setting)
    returns (setErr: ErrorCode, err: ErrorCode, val: Setting)
    requires Closed(nodes) && (root != null ==> root in nodes)
    requires setKey != getKey && IsText(setKey[..], 0) && IsText(getKey[..], 0) && InRange(v)
    modifies setKey, getKey, nodes`value
    ensures var n := Walk(nodes, root, Parse(TextAt(old(setKey[..]), 0)));
            var m := Walk(nodes, root, Parse(TextAt(old(getKey[..]), 0)));
            && (setErr == ErrNo <==> n != null && v != SetOther) && (err == ErrNo <==> m != null && v != SetOther)
            && (m != null && err == ErrNo ==> val == if n == m then v else Fetched(old(m.value), KindOf(v)))
  {
    hide Before, TextAt, Fetched, Stored, IsText;
    setErr := Set(nodes, root, setKey, v);
    err, val := Get(nodes, root, getKey, KindOf(v), was);
    ghost var n := Walk(nodes, root, Parse(TextAt(old(setKey[..]), 0)));
    if setErr == ErrNo { FetchStored(old(n.value), v); }
  }
}
