/** Decimal numbers and tokens: what the C library functions used by the text formats do. */
module Strings {

  // ----- decimal numbers

  function Digit(n: nat): char
    requires n < 10
  {
    '0' + n as char
  }

  predicate IsDigit(c: char) {
    '0' <= c <= '9'
  }

  function DigitValue(c: char): (v: nat)
    requires IsDigit(c)
    ensures v < 10
  {
    (c as int) - ('0' as int)
  }

  /** `printf("%d")` of a non-negative number. */
  function Dec(n: nat): (s: string)
    ensures |s| >= 1 && forall i :: 0 <= i < |s| ==> IsDigit(s[i])
  {
    if n < 10 then [Digit(n)] else Dec(n / 10) + [Digit(n % 10)]
  }

  predicate AllDigits(s: string) {
    forall i :: 0 <= i < |s| ==> IsDigit(s[i])
  }

  /** The number written by a string of digits. */
  function Value(s: string): nat
    requires AllDigits(s)
  {
    if s == "" then 0 else 10 * Value(s[..|s| - 1]) + DigitValue(s[|s| - 1])
  }

  lemma {:induction false} ValueOfDec(n: nat)
    ensures AllDigits(Dec(n)) && Value(Dec(n)) == n
  {
    var s := Dec(n);
    if n < 10 {
      assert s[..|s| - 1] == "";
    } else {
      ValueOfDec(n / 10);
      assert s[..|s| - 1] == Dec(n / 10);
    }
  }

  lemma {:induction false} DecIsInjective(m: nat, n: nat)
    requires Dec(m) == Dec(n)
    ensures m == n
  {
    ValueOfDec(m);
    ValueOfDec(n);
  }

  /** The length of the longest prefix of digits. */
  function DigitRun(s: string): (n: nat)
    ensures n <= |s| && AllDigits(s[..n]) && (n < |s| ==> !IsDigit(s[n]))
  {
    if s == "" || !IsDigit(s[0]) then 0
    else
      var n := 1 + DigitRun(s[1..]);
      assert s[..n] == [s[0]] + s[1..][..n - 1];
      n
  }

  predicate IsSpace(c: char) {
    c == ' ' || '\t' <= c <= '\r'
  }

  /** `atoi`: white space, an optional sign, digits; anything else ends the number. */
  function Atoi(s: string): int {
    if s == "" then 0
    else if IsSpace(s[0]) then Atoi(s[1..])
    else if s[0] == '-' then -(Value(s[1..][..DigitRun(s[1..])]) as int)
    else if s[0] == '+' then Value(s[1..][..DigitRun(s[1..])])
    else Value(s[..DigitRun(s)])
  }

  lemma {:induction false} AtoiOfDec(n: nat)
    ensures Atoi(Dec(n)) == n
  {
    var s := Dec(n);
    ValueOfDec(n);
    assert IsDigit(s[0]);
    var k := DigitRun(s);
    assert k == |s|;
    assert s[..k] == s;
  }

  // ----- tokens

  /** The delimiters of `strtok(_, " ")` and of `%s`. */
  datatype Delimiters = SpaceOnly | WhiteSpace {
    predicate Has(c: char) {
      if SpaceOnly? then c == ' ' else IsSpace(c)
    }
  }

  predicate Solid(t: string, delimiters: Delimiters) {
    forall i :: 0 <= i < |t| ==> !delimiters.Has(t[i])
  }

  /** The length of the longest run of delimiters at the start. */
  function SkipLength(s: string, delimiters: Delimiters): (n: nat)
    ensures n <= |s| && (n < |s| ==> !delimiters.Has(s[n]))
  {
    if s == "" || !delimiters.Has(s[0]) then 0 else 1 + SkipLength(s[1..], delimiters)
  }

  /** The length of the token at the start, cut off at `max` characters. */
  function TokenLength(s: string, delimiters: Delimiters, max: nat): (n: nat)
    ensures n <= |s| && n <= max && Solid(s[..n], delimiters)
    ensures s != "" && !delimiters.Has(s[0]) && max > 0 ==> n > 0
  {
    if s == "" || delimiters.Has(s[0]) || max == 0 then 0
    else
      var n := 1 + TokenLength(s[1..], delimiters, max - 1);
      assert s[..n] == [s[0]] + s[1..][..n - 1];
      n
  }

  /** The tokens that successive calls deliver. */
  function Tokens(s: string, delimiters: Delimiters, max: nat): (ts: seq<string>)
    requires max > 0
    ensures forall i :: 0 <= i < |ts| ==> ts[i] != "" && |ts[i]| <= max
    decreases |s|
  {
    var t := s[SkipLength(s, delimiters)..];
    if t == "" then []
    else
      var n := TokenLength(t, delimiters, max);
      [t[..n]] + Tokens(t[n..], delimiters, max)
  }

  lemma {:induction false} TokenLengthExact(t: string, rest: string, delimiters: Delimiters, max: nat)
    requires Solid(t, delimiters) && |t| <= max && (rest != "" ==> delimiters.Has(rest[0]))
    ensures TokenLength(t + rest, delimiters, max) == |t|
  {
    if t == "" {
      assert t + rest == rest;
    } else {
      assert (t + rest)[1..] == t[1..] + rest;
      TokenLengthExact(t[1..], rest, delimiters, max - 1);
    }
  }

  /** A token followed by a delimiter or the end is delivered whole. */
  lemma {:induction false} TokensCons(t: string, rest: string, delimiters: Delimiters, max: nat)
    requires t != "" && Solid(t, delimiters) && |t| <= max && (rest != "" ==> delimiters.Has(rest[0]))
    ensures Tokens(t + rest, delimiters, max) == [t] + Tokens(rest, delimiters, max)
  {
    var s := t + rest;
    assert s[0] == t[0] && SkipLength(s, delimiters) == 0 && s[0..] == s;
    TokenLengthExact(t, rest, delimiters, max);
    assert s[..|t|] == t && s[|t|..] == rest;
  }

  /** A leading delimiter makes no difference. */
  lemma {:induction false} TokensSkip(c: char, rest: string, delimiters: Delimiters, max: nat)
    requires max > 0 && delimiters.Has(c)
    ensures Tokens([c] + rest, delimiters, max) == Tokens(rest, delimiters, max)
  {
    var s := [c] + rest;
    assert s[1..] == rest;
    assert s[SkipLength(s, delimiters)..] == rest[SkipLength(rest, delimiters)..];
  }

  function Joined(ts: seq<string>): string {
    if ts == [] then "" else ts[0] + Joined(ts[1..])
  }

  /** The characters of `s` that are no delimiters. */
  function Squeezed(s: string, delimiters: Delimiters): string {
    if s == "" then ""
    else (if delimiters.Has(s[0]) then "" else [s[0]]) + Squeezed(s[1..], delimiters)
  }

  lemma {:induction false} SkippedAreDelimiters(s: string, delimiters: Delimiters)
    ensures forall i :: 0 <= i < SkipLength(s, delimiters) ==> delimiters.Has(s[i])
  {
    if s != "" && delimiters.Has(s[0]) {
      SkippedAreDelimiters(s[1..], delimiters);
      assert forall i :: 1 <= i < SkipLength(s, delimiters) ==> s[i] == s[1..][i - 1];
    }
  }

  /** A token ends at a delimiter, at the end of the text, or at full width. */
  lemma {:induction false} TokenIsLongest(s: string, delimiters: Delimiters, max: nat)
    ensures var n := TokenLength(s, delimiters, max); n < |s| && n < max ==> delimiters.Has(s[n])
  {
    if s != "" && !delimiters.Has(s[0]) && max > 0 { TokenIsLongest(s[1..], delimiters, max - 1); }
  }

  lemma {:induction false} SqueezedSkip(s: string, delimiters: Delimiters, n: nat)
    requires n <= |s| && forall i :: 0 <= i < n ==> delimiters.Has(s[i])
    ensures Squeezed(s, delimiters) == Squeezed(s[n..], delimiters)
    decreases n
  {
    if n > 0 {
      SqueezedSkip(s[1..], delimiters, n - 1);
      assert s[1..][n - 1..] == s[n..];
    } else {
      assert s[0..] == s;
    }
  }

  lemma {:induction false} SqueezedSolid(s: string, delimiters: Delimiters, n: nat)
    requires n <= |s| && forall i :: 0 <= i < n ==> !delimiters.Has(s[i])
    ensures Squeezed(s, delimiters) == s[..n] + Squeezed(s[n..], delimiters)
    decreases n
  {
    if n > 0 {
      SqueezedSolid(s[1..], delimiters, n - 1);
      assert s[1..][n - 1..] == s[n..] && s[..n] == [s[0]] + s[1..][..n - 1];
    } else {
      assert s[0..] == s && s[..0] == "";
    }
  }

  /** The tokens together are the text without its delimiters. */
  lemma {:induction false} TokensJoin(s: string, delimiters: Delimiters, max: nat)
    requires max > 0
    ensures Joined(Tokens(s, delimiters, max)) == Squeezed(s, delimiters)
    decreases |s|
  {
    var k := SkipLength(s, delimiters);
    var t := s[k..];
    SkippedAreDelimiters(s, delimiters);
    SqueezedSkip(s, delimiters, k);
    if t != "" {
      var n := TokenLength(t, delimiters, max);
      forall i | 0 <= i < n ensures !delimiters.Has(t[i]) {
        assert t[i] == t[..n][i];
      }
      SqueezedSolid(t, delimiters, n);
      TokensJoin(t[n..], delimiters, max);
      var ts := Tokens(t[n..], delimiters, max);
      assert ([t[..n]] + ts)[1..] == ts;
    }
  }
}
