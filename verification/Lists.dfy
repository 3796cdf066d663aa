/** Filters and positions in sequences, shared by the stores. */
module Lists {

  datatype Option<T> = None | Some(value: T)

  function Last<T>(s: seq<T>): T
    requires s != []
  {
    s[|s| - 1]
  }

  /** The entries p accepts, in order. */
  function Filter<T>(p: T -> bool, s: seq<T>): seq<T> {
    if s == [] then []
    else Filter(p, s[..|s| - 1]) + if p(s[|s| - 1]) then [s[|s| - 1]] else []
  }

  lemma FilterNext<T>(p: T -> bool, s: seq<T>, k: nat)
    requires k < |s|
    ensures Filter(p, s[..k + 1]) == Filter(p, s[..k]) + if p(s[k]) then [s[k]] else []
  {
    assert s[..k + 1][..k] == s[..k];
  }

  lemma {:induction false} FilterConcat<T>(p: T -> bool, s: seq<T>, t: seq<T>)
    ensures Filter(p, s + t) == Filter(p, s) + Filter(p, t)
  {
    if t == [] {
      assert s + t == s;
    } else {
      var n := |t| - 1;
      assert (s + t)[..|s + t| - 1] == s + t[..n];
      FilterConcat(p, s, t[..n]);
    }
  }

  /** Positions, each later than the one before. */
  ghost predicate Rising(at: seq<nat>) {
    forall i, j :: 0 <= i < j < |at| ==> at[i] < at[j]
  }

  /** r is s with exactly the positions in at kept. */
  ghost predicate Picks<T>(s: seq<T>, at: seq<nat>, r: seq<T>) {
    && Rising(at) && |at| == |r|
    && (forall i :: 0 <= i < |at| ==> at[i] < |s| && r[i] == s[at[i]])
  }

  /** at holds exactly the positions of s that p accepts. */
  ghost predicate Accepted<T>(p: T -> bool, s: seq<T>, at: seq<nat>) {
    forall k: nat :: k in at <==> k < |s| && p(s[k])
  }

  /** What Filter means, without its recursion: the accepted positions of s, each once, in order. */
  lemma {:induction false} FilterPicks<T>(p: T -> bool, s: seq<T>) returns (at: seq<nat>)
    ensures Picks(s, at, Filter(p, s)) && Accepted(p, s, at)
  {
    if s == [] {
      at := [];
    } else {
      var front, x := s[..|s| - 1], Last(s);
      at := FilterPicks(p, front);
      hide Picks, Accepted;
      assert s == front + [x];
      if p(x) { at := at + [|front|]; }
    }
  }

  /** Filtering twice keeps what both accept, so the order of two filters does not matter. */
  lemma {:induction false} FilterBoth<T>(p: T -> bool, q: T -> bool, both: T -> bool, s: seq<T>)
    requires forall x :: x in s ==> (both(x) <==> p(x) && q(x))
    ensures Filter(p, Filter(q, s)) == Filter(both, s)
  {
    if s != [] {
      var n := |s| - 1;
      FilterBoth(p, q, both, s[..n]);
      FilterConcat(p, Filter(q, s[..n]), if q(s[n]) then [s[n]] else []);
    }
  }

  lemma {:induction false} FilterSame<T>(p: T -> bool, q: T -> bool, s: seq<T>)
    requires forall x :: x in s ==> (p(x) <==> q(x))
    ensures Filter(p, s) == Filter(q, s)
  {
    if s != [] { FilterSame(p, q, s[..|s| - 1]); }
  }

  lemma {:induction false} FilterNone<T>(p: T -> bool, s: seq<T>)
    requires forall x :: x in s ==> !p(x)
    ensures Filter(p, s) == []
  {
    if s != [] { FilterNone(p, s[..|s| - 1]); }
  }

  lemma {:induction false} FilterIn<T>(p: T -> bool, s: seq<T>)
    ensures forall x :: x in Filter(p, s) <==> x in s && p(x)
  {
    if s != [] {
      var n := |s| - 1;
      FilterIn(p, s[..n]);
      assert s == s[..n] + [s[n]];
    }
  }
}
