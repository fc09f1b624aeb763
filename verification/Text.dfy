/**
  The few pieces of Python's `str` behaviour the agent and the server rely on:
  `str.isspace`/`str.strip()` (used to detect blank model output and to clean
  user text), `str.lower()` (case-insensitive domain search), `str(int)` inside
  f-strings, and `', '.join(...)`.
*/
module Text {

  /** Python's `str.isspace` for one character: the characters `str.strip()` removes. */
  predicate IsSpace(c: char) {
    c == ' ' || c == '\t' || c == '\n' || c == '\r'
    || c == '\U{0B}' || c == '\U{0C}'
    || ('\U{1C}' <= c <= '\U{1F}')
    || c == '\U{85}' || c == '\U{A0}' || c == '\U{1680}'
    || ('\U{2000}' <= c <= '\U{200A}')
    || c == '\U{2028}' || c == '\U{2029}' || c == '\U{202F}' || c == '\U{205F}' || c == '\U{3000}'
  }

  /** Every character is whitespace (the empty string included). */
  predicate IsBlank(s: string) {
    forall i :: 0 <= i < |s| ==> IsSpace(s[i])
  }

  /** `s.lstrip()`: drop the leading whitespace. */
  function TrimLeft(s: string): (r: string)
    ensures |r| <= |s| && r == s[|s| - |r|..]
    ensures forall i :: 0 <= i < |s| - |r| ==> IsSpace(s[i])
    ensures r != [] ==> !IsSpace(r[0])
  {
    if s == [] || !IsSpace(s[0]) then s else TrimLeft(s[1..])
  }

  /** `s.rstrip()`: drop the trailing whitespace. */
  function TrimRight(s: string): (r: string)
    ensures |r| <= |s| && r == s[..|r|]
    ensures forall i :: |r| <= i < |s| ==> IsSpace(s[i])
    ensures r != [] ==> !IsSpace(r[|r| - 1])
  {
    if s == [] || !IsSpace(s[|s| - 1]) then s else TrimRight(s[..|s| - 1])
  }

  /** `k` occurs in `s` starting at index `i`. */
  predicate OccursAt(s: string, k: string, i: int) {
    0 <= i && i + |k| <= |s| && s[i..i + |k|] == k
  }

  /** `s.strip()`: drop leading and trailing whitespace. */
  function Strip(s: string): (r: string)
    ensures r == [] <==> IsBlank(s)
    ensures r != [] ==> !IsSpace(r[0]) && !IsSpace(r[|r| - 1])
  {
    StripBlankAndEnds(s);
    TrimRight(TrimLeft(s))
  }

  lemma StripBlankAndEnds(s: string)
    ensures var r := TrimRight(TrimLeft(s));
      && (r == [] <==> IsBlank(s))
      && (r != [] ==> !IsSpace(r[0]) && !IsSpace(r[|r| - 1]))
  {
    var t := TrimLeft(s);
    var r := TrimRight(t);
    var n := |s| - |t|;
    if t == [] {
      assert IsBlank(s);
      assert r == [];
    } else {
      assert s[n] == t[0] && !IsSpace(s[n]);
      assert !IsBlank(s);
      assert r != [] && r[0] == t[0];
    }
  }

  /** What `strip` removes is whitespace on both sides of a contiguous piece of `s`. */
  lemma StripOccurs(s: string)
    ensures var r := Strip(s);
      exists k :: OccursAt(s, r, k) && IsBlank(s[..k]) && IsBlank(s[k + |r|..])
  {
    var t := TrimLeft(s);
    var r := TrimRight(t);
    var n := |s| - |t|;
    StripPieces(s, t, r, n);
    assert Strip(s) == r;
  }

  /** The pieces `lstrip` and then `rstrip` leave: blank, the stripped text, blank. */
  lemma StripPieces(s: string, t: string, r: string, n: int)
    requires t == TrimLeft(s) && r == TrimRight(t) && n == |s| - |t|
    ensures 0 <= n <= |s| && OccursAt(s, r, n) && IsBlank(s[..n]) && IsBlank(s[n + |r|..])
  {
    SliceOfSuffix(s, t, r, n);
    LeadingBlank(s, n);
    TrailingBlank(s, t, r, n);
  }

  /** A prefix of the suffix from `n` occurs in `s` at `n`. */
  lemma SliceOfSuffix(s: string, t: string, r: string, n: int)
    requires 0 <= n <= |s| && t == s[n..] && |r| <= |t| && r == t[..|r|]
    ensures OccursAt(s, r, n)
  {
    assert s[n..n + |r|] == t[..|r|];
  }

  lemma LeadingBlank(s: string, n: int)
    requires 0 <= n <= |s|
    requires n == |s| - |TrimLeft(s)|
    ensures IsBlank(s[..n])
  {
    forall i | 0 <= i < n ensures IsSpace(s[..n][i]) {
      assert s[..n][i] == s[i];
    }
  }

  lemma TrailingBlank(s: string, t: string, r: string, n: int)
    requires 0 <= n <= |s| && t == s[n..] && r == TrimRight(t)
    ensures IsBlank(s[n + |r|..])
  {
    var u := s[n + |r|..];
    forall i | 0 <= i < |u| ensures IsSpace(u[i]) {
      assert u[i] == t[|r| + i];
    }
  }

  /** Stripping twice is stripping once. */
  lemma StripIdempotent(s: string)
    ensures Strip(Strip(s)) == Strip(s)
  {
    var r := Strip(s);
    if r != [] {
      assert TrimLeft(r) == r;
      assert TrimRight(r) == r;
    }
  }

  /** ASCII part of Python's `str.lower` for one character. */
  function LowerChar(c: char): (r: char)
    ensures 'A' <= c <= 'Z' ==> 'a' <= r <= 'z'
    ensures !('A' <= c <= 'Z') ==> r == c
  {
    if 'A' <= c <= 'Z' then (c as int - 'A' as int + 'a' as int) as char else c
  }

  /** `s.lower()`, for the ASCII letters. */
  function Lower(s: string): (r: string)
    ensures |r| == |s|
    ensures forall i :: 0 <= i < |s| ==> r[i] == LowerChar(s[i])
  {
    if s == [] then [] else [LowerChar(s[0])] + Lower(s[1..])
  }

  /** A string already in lower case is its own lower case. */
  lemma {:induction false} LowerIdempotent(s: string)
    ensures Lower(Lower(s)) == Lower(s)
  {
    if s != [] {
      LowerIdempotent(s[1..]);
      assert Lower(s)[1..] == Lower(s[1..]);
    }
  }

  function DigitChar(d: nat): (c: char)
    requires d < 10
    ensures '0' <= c <= '9'
  {
    ('0' as int + d) as char
  }

  /** The decimal digits of a natural number, as `str(n)` prints them. */
  function NatToString(n: nat): (r: string)
    ensures |r| >= 1
    ensures forall i :: 0 <= i < |r| ==> '0' <= r[i] <= '9'
    decreases n
  {
    if n < 10 then [DigitChar(n)] else NatToString(n / 10) + [DigitChar(n % 10)]
  }

  /** `str(n)` for an integer: a minus sign before the digits of a negative number. */
  function IntToString(n: int): (r: string)
    ensures |r| >= 1
    ensures (r[0] == '-') <==> n < 0
  {
    if n < 0 then "-" + NatToString(-n) else NatToString(n)
  }

  /** Reads a string of decimal digits back as a number. */
  function DigitsValue(s: string): int
  {
    if s == [] then 0 else 10 * DigitsValue(s[..|s| - 1]) + (s[|s| - 1] as int - '0' as int)
  }

  /** Reading the printed digits gives the number back, so the printed text names that number. */
  lemma {:induction false} NatToStringRoundTrip(n: nat)
    ensures DigitsValue(NatToString(n)) == n
    decreases n
  {
    if n >= 10 {
      NatToStringRoundTrip(n / 10);
      var s := NatToString(n);
      assert s[..|s| - 1] == NatToString(n / 10);
    }
  }

  /** `sep.join(parts)`. */
  function Join(sep: string, parts: seq<string>): string
  {
    if |parts| == 0 then ""
    else if |parts| == 1 then parts[0]
    else parts[0] + sep + Join(sep, parts[1..])
  }

  /** `k in s` for strings: `k` occurs as a contiguous piece of `s`. */
  ghost predicate Contains(s: string, k: string) {
    exists i :: OccursAt(s, k, i)
  }

  /** Every part occurs in the joined text. */
  lemma {:induction false} JoinContainsEach(sep: string, parts: seq<string>, j: nat)
    requires j < |parts|
    ensures Contains(Join(sep, parts), parts[j])
  {
    var s := Join(sep, parts);
    var k := parts[j];
    if j == 0 {
      assert s[0..|k|] == k;
      assert OccursAt(s, k, 0);
    } else {
      JoinContainsEach(sep, parts[1..], j - 1);
      var rest := Join(sep, parts[1..]);
      var i :| OccursAt(rest, k, i);
      var off := |parts[0]| + |sep|;
      assert s == parts[0] + sep + rest;
      assert s[off + i..off + i + |k|] == rest[i..i + |k|];
      assert OccursAt(s, k, off + i);
    }
  }
}
