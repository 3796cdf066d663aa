/** The text of a configuration key: components separated by dots, each a name and perhaps an index after a colon. */
module KeyText {
  import opened Lists

  const NUL: char := '\0'

  /** What stands before the first c, all of it when there is none. */
  function Before(s: string, c: char): (r: string)
    ensures |r| <= |s| && r == s[..|r|] && c !in r
    ensures |r| == |s| || s[|r|] == c
    ensures c in s <==> |r| < |s|
  {
    if s == [] || s[0] == c then [] else [s[0]] + Before(s[1..], c)
  }

  /** What stands after it. */
  function After(s: string, c: char): (r: string)
    requires c in s
    ensures |r| < |s| && s == Before(s, c) + [c] + r
  {
    s[|Before(s, c)| + 1..]
  }

  predicate IsDigit(c: char) { '0' <= c <= '9' }
  predicate IsSpace(c: char) { c == ' ' || '\t' <= c <= '\r' }

  function DigitOf(c: char): nat
    requires IsDigit(c)
  {
    c as int - '0' as int
  }

  /** The number the leading digits of s spell after those already read. */
  function Digits(s: string, acc: nat): nat {
    if s == [] || !IsDigit(s[0]) then acc else Digits(s[1..], 10 * acc + DigitOf(s[0]))
  }

  /** atoi: blanks, a sign, digits; anything after them is ignored. */
  function Atoi(s: string): int {
    if s == [] then 0
    else if IsSpace(s[0]) then Atoi(s[1..])
    else if s[0] == '-' then 0 - Digits(s[1..], 0)
    else if s[0] == '+' then Digits(s[1..], 0)
    else Digits(s, 0)
  }

  datatype Component = Component(name: string, index: Option<int>)

  function ComponentOf(token: string): Component {
    if ':' in token then Component(Before(token, ':'), Some(Atoi(After(token, ':')))) else Component(token, None)
  }

  /** The components of a key, one for each dot and one more. */
  function Parse(key: string): seq<Component>
    decreases |key|
  {
    if '.' in key then [ComponentOf(Before(key, '.'))] + Parse(After(key, '.')) else [ComponentOf(key)]
  }

  // ----- writing a key and reading it back -----------------------------------

  function Numeral(n: nat): (r: string)
    ensures r != [] && forall i :: 0 <= i < |r| ==> IsDigit(r[i])
  {
    (if n < 10 then [] else Numeral(n / 10)) + [('0' as int + n % 10) as char]
  }

  function Decimal(n: int): string { if n < 0 then "-" + Numeral(-n) else Numeral(n) }

  function Write(c: Component): string {
    c.name + if c.index.Some? then ":" + Decimal(c.index.value) else ""
  }

  function Join(cs: seq<Component>): string
    requires cs != []
  {
    if |cs| == 1 then Write(cs[0]) else Write(cs[0]) + "." + Join(cs[1..])
  }

  predicate Plain(name: string) { '.' !in name && ':' !in name }

  /** Digits are read as a decimal number: one more makes it ten times as large and adds its own value. */
  lemma {:induction false} DigitsConcat(s: string, d: char, acc: nat)
    requires '0' <= d <= '9' && forall i :: 0 <= i < |s| ==> '0' <= s[i] <= '9'
    ensures Digits([], acc) == acc && Digits(s + [d], acc) == 10 * Digits(s, acc) + (d as int - '0' as int)
  {
    if s == [] {
      assert [d][1..] == [];
    } else {
      assert (s + [d])[1..] == s[1..] + [d];
      DigitsConcat(s[1..], d, 10 * acc + DigitOf(s[0]));
    }
  }

  lemma {:induction false} NumeralReads(n: nat)
    ensures Digits(Numeral(n), 0) == n
  {
    var d := ('0' as int + n % 10) as char;
    if n < 10 {
      DigitsConcat([], d, 0);
    } else {
      NumeralReads(n / 10);
      DigitsConcat(Numeral(n / 10), d, 0);
    }
  }

  lemma {:induction false} DigitsEnd(s: string, rest: string, acc: nat)
    requires forall i :: 0 <= i < |s| ==> '0' <= s[i] <= '9'
    requires rest != [] ==> rest[0] < '0' || rest[0] > '9'
    ensures Digits(s + rest, acc) == Digits(s, acc)
  {
    if s == [] {
      assert [] + rest == rest;
    } else {
      assert (s + rest)[1..] == s[1..] + rest;
      DigitsEnd(s[1..], rest, 10 * acc + DigitOf(s[0]));
    }
  }

  lemma AtoiSigned(sign: string, digits: string, rest: string)
    requires sign in ["", "-", "+"] && forall i :: 0 <= i < |digits| ==> '0' <= digits[i] <= '9'
    requires rest != [] ==> rest[0] < '0' || rest[0] > '9'
    requires sign == "" && digits == "" && rest != [] ==>
               rest[0] != '-' && rest[0] != '+' && rest[0] != ' ' && !(9 <= rest[0] as int <= 13)
    ensures Atoi(sign + (digits + rest)) == if sign == "-" then 0 - Digits(digits, 0) else Digits(digits, 0)
  {
    DigitsEnd(digits, rest, 0);
    var t := digits + rest;
    var s := sign + t;
    if sign != "" {
      assert s[0] == sign[0] && s[1..] == t;
    } else {
      assert s == t;
      if digits != "" { assert t[0] == digits[0]; } else { assert t == rest; }
    }
  }

  /** An index is read past blanks before it and up to the first character after its digits, a second colon among them:
      a minus counts, a plus does not, and without digits it is 0. */
  lemma {:induction false} AtoiReads(blanks: string, sign: string, digits: string, rest: string)
    requires forall i :: 0 <= i < |blanks| ==> blanks[i] == ' ' || 9 <= blanks[i] as int <= 13
    requires sign in ["", "-", "+"] && forall i :: 0 <= i < |digits| ==> '0' <= digits[i] <= '9'
    requires rest != [] ==> rest[0] < '0' || rest[0] > '9'
    requires sign == "" && digits == "" && rest != [] ==>
               rest[0] != '-' && rest[0] != '+' && rest[0] != ' ' && !(9 <= rest[0] as int <= 13)
    ensures Atoi(blanks + (sign + (digits + rest))) == if sign == "-" then 0 - Digits(digits, 0) else Digits(digits, 0)
  {
    hide Digits;
    var t := sign + (digits + rest);
    if blanks != [] {
      assert (blanks + t)[1..] == blanks[1..] + t;
      AtoiReads(blanks[1..], sign, digits, rest);
    } else {
      AtoiSigned(sign, digits, rest);
      assert [] + t == t;
    }
  }

  lemma DecimalReads(n: int)
    ensures Atoi(Decimal(n)) == n
    ensures '.' !in Decimal(n) && ':' !in Decimal(n)
  {
    NumeralReads(if n < 0 then -n else n);
    var m := Numeral(if n < 0 then -n else n);
    assert !IsSpace(m[0]) && m[0] != '-' && m[0] != '+';
    if n < 0 { assert ("-" + m)[1..] == m; }
  }

  /** The first c is where c stands and nowhere before. */
  lemma {:induction false} BeforeIs(s: string, c: char, n: nat)
    requires n < |s| && s[n] == c && forall j :: 0 <= j < n ==> s[j] != c
    ensures |Before(s, c)| == n
  {
    if n > 0 { BeforeIs(s[1..], c, n - 1); }
  }

  lemma BeforeConcat(a: string, c: char, b: string)
    requires c !in a
    ensures Before(a + [c] + b, c) == a && After(a + [c] + b, c) == b
  {
    BeforeIs(a + [c] + b, c, |a|);
    hide Before;
  }

  lemma WriteReads(c: Component)
    requires Plain(c.name)
    ensures ComponentOf(Write(c)) == c && '.' !in Write(c)
  {
    hide Before, After, Atoi, Decimal;
    if c.index.Some? {
      var d := Decimal(c.index.value);
      DecimalReads(c.index.value);
      BeforeConcat(c.name, ':', d);
      assert Write(c) == c.name + ":" + d;
      assert (c.name + ":" + d)[|c.name|] == ':';
    } else {
      assert Write(c) == c.name;
    }
  }

  /** A key written from components whose names hold neither dots nor colons is read as those components. */
  lemma {:induction false} JoinReads(cs: seq<Component>)
    requires cs != [] && forall i :: 0 <= i < |cs| ==> Plain(cs[i].name)
    ensures Parse(Join(cs)) == cs
  {
    WriteReads(cs[0]);
    if |cs| > 1 {
      JoinReads(cs[1..]);
      var s := Join(cs);
      assert s == Write(cs[0]) + ['.'] + Join(cs[1..]);
      BeforeConcat(Write(cs[0]), '.', Join(cs[1..]));
      assert '.' in s;
    }
  }
}
