/** Small building blocks shared by the components: an optional value, the
    white-space trimming of JavaScript strings, and decimal rendering of
    counts inside template strings. */
module Common {

  datatype Option<+T> = None | Some(value: T)

  /** Every character of `s` is in `cs`. */
  predicate AllIn(s: string, cs: set<char>) {
    forall i :: 0 <= i < |s| ==> s[i] in cs
  }

  /** Drops the characters of `cs` at the start of `s`, keeping a suffix
      (`StripLeadingShape` says which). */
  function StripLeading(s: string, cs: set<char>): (r: string)
    ensures |r| <= |s| && r == s[|s| - |r|..]
  {
    if s != [] && s[0] in cs then StripLeading(s[1..], cs) else s
  }

  /** What `StripLeading` drops is all in `cs`, and what it keeps does not
      start with a character of `cs`. */
  lemma {:induction false} StripLeadingShape(s: string, cs: set<char>)
    ensures AllIn(s[..|s| - |StripLeading(s, cs)|], cs)
    ensures StripLeading(s, cs) == [] || StripLeading(s, cs)[0] !in cs
  {
    if s != [] && s[0] in cs {
      StripLeadingShape(s[1..], cs);
      var k := |s| - |StripLeading(s, cs)|;
      var rest := s[1..][..k - 1];
      forall i | 0 <= i < k ensures s[..k][i] in cs {
        if i > 0 {
          assert s[..k][i] == rest[i - 1];
        }
      }
    }
  }

  /** A leading run of `cs` is dropped whole, up to the first character not
      in `cs`. */
  lemma {:induction false} StripLeadingRun(run: string, rest: string, cs: set<char>)
    requires AllIn(run, cs) && (rest == [] || rest[0] !in cs)
    ensures StripLeading(run + rest, cs) == rest
  {
    if run != [] {
      assert run[0] in cs && (run + rest)[0] == run[0];
      assert AllIn(run[1..], cs) by {
        forall i | 0 <= i < |run| - 1 ensures run[1..][i] in cs {
          assert run[1..][i] == run[i + 1];
        }
      }
      StripLeadingRun(run[1..], rest, cs);
      assert (run + rest)[1..] == run[1..] + rest;
    }
  }

  /** Drops the characters of `cs` at the end of `s`, keeping a prefix
      (`StripTrailingShape` says which). */
  function StripTrailing(s: string, cs: set<char>): (r: string)
    ensures |r| <= |s| && r == s[..|r|]
  {
    if s != [] && s[|s| - 1] in cs then StripTrailing(s[..|s| - 1], cs) else s
  }

  /** What `StripTrailing` drops is all in `cs`, and what it keeps does not
      end with a character of `cs`. */
  lemma {:induction false} StripTrailingShape(s: string, cs: set<char>)
    ensures AllIn(s[|StripTrailing(s, cs)|..], cs)
    ensures StripTrailing(s, cs) == [] || StripTrailing(s, cs)[|StripTrailing(s, cs)| - 1] !in cs
  {
    if s != [] && s[|s| - 1] in cs {
      StripTrailingShape(s[..|s| - 1], cs);
      var k := |StripTrailing(s, cs)|;
      forall j | 0 <= j < |s| - k ensures s[k..][j] in cs {
        if j < |s| - 1 - k {
          assert s[k..][j] == s[..|s| - 1][k..][j];
        }
      }
    }
  }

  /** Drops the characters of `cs` at both ends of `s`. */
  function Strip(s: string, cs: set<char>): string {
    StripTrailing(StripLeading(s, cs), cs)
  }

  /** A prefix of a suffix of `s` is an infix of `s`, and what follows it in
      the suffix is what follows it in `s`. */
  lemma PrefixOfSuffix(s: string, t: string, r: string)
    requires |t| <= |s| && t == s[|s| - |t|..]
    requires |r| <= |t| && r == t[..|r|]
    ensures r == s[|s| - |t|..|s| - |t| + |r|]
    ensures s[|s| - |t| + |r|..] == t[|r|..]
  {
  }

  /** Stripping keeps the infix of `s` that starts where the leading run of
      `cs` ends; everything around it is in `cs`, and the infix neither starts
      nor ends with a character of `cs`. */
  lemma StripShape(s: string, cs: set<char>)
    ensures |s| - |StripLeading(s, cs)| + |Strip(s, cs)| <= |s|
    ensures Strip(s, cs) == s[|s| - |StripLeading(s, cs)|..|s| - |StripLeading(s, cs)| + |Strip(s, cs)|]
    ensures AllIn(s[..|s| - |StripLeading(s, cs)|], cs)
    ensures AllIn(s[|s| - |StripLeading(s, cs)| + |Strip(s, cs)|..], cs)
    ensures Strip(s, cs) == [] || (Strip(s, cs)[0] !in cs && Strip(s, cs)[|Strip(s, cs)| - 1] !in cs)
  {
    var t := StripLeading(s, cs);
    PrefixOfSuffix(s, t, Strip(s, cs));
    StripLeadingShape(s, cs);
    StripTrailingShape(t, cs);
  }

  /** A string strips to nothing exactly when it is made of `cs` only. */
  lemma StripEmptyIffAllIn(s: string, cs: set<char>)
    ensures Strip(s, cs) == [] <==> AllIn(s, cs)
  {
    var t := StripLeading(s, cs);
    StripLeadingShape(s, cs);
    StripTrailingShape(t, cs);
    if Strip(s, cs) == [] {
      assert t == [];
      assert s[..|s|] == s;
    }
  }

  /** Stripping is idempotent. */
  lemma StripIdempotent(s: string, cs: set<char>)
    ensures Strip(Strip(s, cs), cs) == Strip(s, cs)
  {
    StripShape(s, cs);
    var t := Strip(s, cs);
    assert StripLeading(t, cs) == t;
    assert StripTrailing(t, cs) == t;
  }

  /** White space as JavaScript's `String.prototype.trim` and `parseInt`
      skip it: the WhiteSpace and LineTerminator characters of ECMA-262. */
  const Whitespace: set<char> := {
    '\t', '\n', '\U{000B}', '\U{000C}', '\r', ' ', '\U{00A0}', '\U{1680}',
    '\U{2000}', '\U{2001}', '\U{2002}', '\U{2003}', '\U{2004}', '\U{2005}',
    '\U{2006}', '\U{2007}', '\U{2008}', '\U{2009}', '\U{200A}',
    '\U{2028}', '\U{2029}', '\U{202F}', '\U{205F}', '\U{3000}', '\U{FEFF}'
  }

  predicate IsBlank(s: string) {
    AllIn(s, Whitespace)
  }

  /** `s.trimStart()`, the white space `parseInt` skips. */
  function TrimStart(s: string): string {
    StripLeading(s, Whitespace)
  }

  /** `s.trim()`. */
  function Trim(s: string): string {
    Strip(s, Whitespace)
  }

  predicate IsDigit(c: char) { '0' <= c <= '9' }

  function DigitChar(d: nat): (c: char)
    requires d < 10
    ensures IsDigit(c) && c as int - '0' as int == d
  {
    (d + '0' as int) as char
  }

  /** The decimal numeral JavaScript writes for a non-negative integer. */
  function NatToString(n: nat): (r: string)
    ensures |r| >= 1 && forall i :: 0 <= i < |r| ==> IsDigit(r[i])
    ensures |r| > 1 ==> r[0] != '0'
  {
    if n < 10 then [DigitChar(n)] else NatToString(n / 10) + [DigitChar(n % 10)]
  }

  /** The value of a string of decimal digits. */
  function ParseDecimal(s: string): nat
    requires forall i :: 0 <= i < |s| ==> IsDigit(s[i])
  {
    if s == [] then 0
    else
      assert IsDigit(s[|s| - 1]);
      10 * ParseDecimal(s[..|s| - 1]) + (s[|s| - 1] as int - '0' as int)
  }

  /** Reading back the numeral gives the number: `NatToString` loses nothing. */
  lemma {:induction false} ParseNatToString(n: nat)
    ensures ParseDecimal(NatToString(n)) == n
  {
    if n >= 10 {
      var s := NatToString(n);
      assert s[..|s| - 1] == NatToString(n / 10);
      ParseNatToString(n / 10);
    }
  }

  /** Different counts are printed differently. */
  lemma NatToStringInjective(m: nat, n: nat)
    ensures NatToString(m) == NatToString(n) ==> m == n
  {
    ParseNatToString(m);
    ParseNatToString(n);
  }
}
