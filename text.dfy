/** String helpers the app relies on: `String.prototype.trim`,
    `String.prototype.startsWith`, and the decimal rendering JavaScript uses
    when an integer is interpolated into a template literal. */
module Text {

  /** The characters `trim` removes: ECMAScript's WhiteSpace and
      LineTerminator code points. */
  const Whitespace: set<char> := {
    '\t', '\n', '\U{B}', '\U{C}', '\r', ' ', '\U{A0}', '\U{1680}',
    '\U{2000}', '\U{2001}', '\U{2002}', '\U{2003}', '\U{2004}', '\U{2005}',
    '\U{2006}', '\U{2007}', '\U{2008}', '\U{2009}', '\U{200A}',
    '\U{2028}', '\U{2029}', '\U{202F}', '\U{205F}', '\U{3000}', '\U{FEFF}'
  }

  predicate IsWhitespace(c: char) {
    c in Whitespace
  }

  /** Every character of `s` is in `cs`. */
  predicate AllIn(s: string, cs: set<char>) {
    forall i :: 0 <= i < |s| ==> s[i] in cs
  }

  predicate AllWhitespace(s: string) {
    AllIn(s, Whitespace)
  }

  /** Drops leading characters of `cs`: the result is a suffix of `s`,
      everything dropped is in `cs`, and what is left does not start with a
      character of `cs`. */
  function StripStart(s: string, cs: set<char>): (r: string)
    ensures |r| <= |s| && r == s[|s| - |r|..]
    ensures AllIn(s[..|s| - |r|], cs)
    ensures r == [] || r[0] !in cs
  {
    if s != [] && s[0] in cs then
      var r := StripStart(s[1..], cs);
      assert s[..|s| - |r|] == [s[0]] + s[1..][..|s| - 1 - |r|];
      r
    else s
  }

  /** Drops trailing characters of `cs`: the result is a prefix of `s`,
      everything dropped is in `cs`, and what is left does not end with a
      character of `cs`. */
  function StripEnd(s: string, cs: set<char>): (r: string)
    ensures |r| <= |s| && r == s[..|r|]
    ensures AllIn(s[|r|..], cs)
    ensures r == [] || r[|r| - 1] !in cs
  {
    if s != [] && s[|s| - 1] in cs then
      var r := StripEnd(s[..|s| - 1], cs);
      assert s[|r|..] == s[..|s| - 1][|r|..] + [s[|s| - 1]];
      r
    else s
  }

  /** Characters of `cs` removed at both ends: what is left neither starts
      nor ends with one of them. */
  function Strip(s: string, cs: set<char>): (r: string)
    ensures |r| <= |s|
    ensures r == [] || (r[0] !in cs && r[|r| - 1] !in cs)
  {
    var t := StripStart(s, cs);
    var r := StripEnd(t, cs);
    assert r != [] ==> r[0] == t[0];
    r
  }

  /** The stripped string is the slice of `s` that starts where
      `StripStart` stops. */
  lemma StripIsInnerSlice(s: string, cs: set<char>)
    ensures var r := Strip(s, cs); var k := |s| - |StripStart(s, cs)|;
      k + |r| <= |s| && r == s[k..k + |r|]
  {
    var t := StripStart(s, cs);
    var r := StripEnd(t, cs);
    var k := |s| - |t|;
    assert r == Strip(s, cs);
    assert t == s[k..];
    assert r == t[..|r|];
    PrefixOfSuffix(s, k, |r|);
  }

  lemma PrefixOfSuffix(s: string, k: nat, n: nat)
    requires k <= |s| && n <= |s| - k
    ensures s[k..][..n] == s[k..k + n]
  {
  }

  /** What lies before and after that slice is all in `cs`. */
  lemma StripDropsOnly(s: string, cs: set<char>)
    ensures var r := Strip(s, cs); var k := |s| - |StripStart(s, cs)|;
      k + |r| <= |s| && AllIn(s[..k], cs) && AllIn(s[k + |r|..], cs)
  {
    var t := StripStart(s, cs);
    var r := StripEnd(t, cs);
    var k := |s| - |t|;
    assert r == Strip(s, cs);
    assert AllIn(s[..k], cs);
    AllInTail(s, t, k, |r|, cs);
  }

  lemma AllInTail(s: string, t: string, k: nat, j: nat, cs: set<char>)
    requires k <= |s| && t == s[k..] && j <= |t|
    requires AllIn(t[j..], cs)
    ensures AllIn(s[k + j..], cs)
  {
    assert t[j..] == s[k + j..];
  }

  /** A string strips to nothing exactly when all its characters are in
      `cs`. */
  lemma StripEmptyIff(s: string, cs: set<char>)
    ensures Strip(s, cs) == [] <==> AllIn(s, cs)
  {
    var t := StripStart(s, cs);
    assert t != [] ==> StripEnd(t, cs) != [];
    assert t == [] ==> s[..|s|] == s;
    assert t != [] ==> t[0] == s[|s| - |t|];
  }

  /** Stripping twice is stripping once. */
  lemma StripIdempotent(s: string, cs: set<char>)
    ensures Strip(Strip(s, cs), cs) == Strip(s, cs)
  {
    var r := Strip(s, cs);
    assert StripStart(r, cs) == r;
    assert StripEnd(r, cs) == r;
  }

  /** `s.trim()`: whitespace removed at both ends. It is the slice of `s`
      described by `StripIsInnerSlice` and `StripDropsOnly` for the
      whitespace set. */
  function Trim(s: string): (r: string)
    ensures |r| <= |s|
    ensures r == [] || (!IsWhitespace(r[0]) && !IsWhitespace(r[|r| - 1]))
  {
    Strip(s, Whitespace)
  }

  /** A string trims to nothing exactly when it is all whitespace, which is
      how an input of blanks fails the app's "non-empty" checks. */
  lemma TrimEmptyIff(s: string)
    ensures Trim(s) == [] <==> AllWhitespace(s)
  {
    StripEmptyIff(s, Whitespace);
  }

  /** Trimming twice is trimming once. */
  lemma TrimIdempotent(s: string)
    ensures Trim(Trim(s)) == Trim(s)
  {
    StripIdempotent(s, Whitespace);
  }

  /** `s.endsWith(p)`. */
  predicate EndsWith(s: string, p: string) {
    |p| <= |s| && s[|s| - |p|..] == p
  }

  /** `s.startsWith(p)`. */
  predicate StartsWith(s: string, p: string) {
    |p| <= |s| && s[..|p|] == p
  }

  predicate IsDigit(c: char) {
    '0' as int <= c as int <= '9' as int
  }

  function DigitChar(d: nat): (c: char)
    requires d < 10
    ensures IsDigit(c) && c as int - '0' as int == d
  {
    ('0' as int + d) as char
  }

  /** The decimal numeral of `n`, as `${n}` renders a non-negative integer:
      only digits, at least one, and no leading zero except for "0" itself. */
  function NatToString(n: nat): (s: string)
    ensures |s| >= 1
    ensures forall i :: 0 <= i < |s| ==> IsDigit(s[i])
    ensures |s| > 1 ==> s[0] != '0'
    ensures n < 10 <==> |s| == 1
  {
    if n < 10 then [DigitChar(n)] else NatToString(n / 10) + [DigitChar(n % 10)]
  }

  /** The value of a numeral: the reference reading against which
      NatToString is checked. */
  function ParseNat(s: string): nat
    requires forall i :: 0 <= i < |s| ==> IsDigit(s[i])
  {
    if s == [] then 0
    else
      assert IsDigit(s[|s| - 1]);
      ParseNat(s[..|s| - 1]) * 10 + (s[|s| - 1] as int - '0' as int)
  }

  /** Reading back a rendered natural number gives the number. */
  lemma {:induction false} ParseNatToString(n: nat)
    ensures ParseNat(NatToString(n)) == n
  {
    var s := NatToString(n);
    if n >= 10 {
      ParseNatToString(n / 10);
      assert s[..|s| - 1] == NatToString(n / 10);
    }
  }

  /** Two different numbers never render alike. */
  lemma NatToStringInjective(m: nat, n: nat)
    requires NatToString(m) == NatToString(n)
    ensures m == n
  {
    ParseNatToString(m);
    ParseNatToString(n);
  }

  /** `${i}` for an integer value: a minus sign before the magnitude when
      negative. */
  function IntToString(i: int): (s: string)
    ensures i >= 0 ==> s == NatToString(i)
    ensures i < 0 ==> |s| >= 2 && s[0] == '-' && s[1..] == NatToString(-i)
  {
    if i < 0 then "-" + NatToString(-i) else NatToString(i)
  }
}
