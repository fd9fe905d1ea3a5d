/** String helpers with the semantics of the JavaScript built-ins the source calls
    (`trim`, `charAt(0).toUpperCase() + slice(1)`, `replace(/_/g, ' ')`, `split`,
    `join`, `startsWith`, `includes`, `substring`, integer `toString`). Upper-casing is
    restricted to the ASCII letters. */
module Text {

  /** The characters `String.prototype.trim` removes: the white-space and line-terminator
      code points of section 12.2 and 12.3 of ECMA-262 — tab, line feed, vertical tab, form
      feed, carriage return, space, no-break space, the Ogham space mark, the spaces
      U+2000 to U+200A, the line and paragraph separators, the narrow no-break space, the
      medium mathematical space, the ideographic space and the byte-order mark. */
  predicate IsWhitespace(c: char) {
    || c == ' ' || ('\t' <= c <= '\r')
    || c == '\U{00A0}' || c == '\U{1680}' || ('\U{2000}' <= c <= '\U{200A}')
    || c == '\U{2028}' || c == '\U{2029}' || c == '\U{202F}' || c == '\U{205F}'
    || c == '\U{3000}' || c == '\U{FEFF}'
  }

  predicate AllWhitespace(s: string) {
    forall i :: 0 <= i < |s| ==> IsWhitespace(s[i])
  }

  /** Every character of `s` at an index in `[lo, hi)` is whitespace. */
  predicate WhitespaceBetween(s: string, lo: int, hi: int) {
    forall k :: lo <= k < hi && 0 <= k < |s| ==> IsWhitespace(s[k])
  }

  /** Neither starts nor ends with whitespace. */
  predicate IsTrimmed(s: string) {
    s != [] ==> !IsWhitespace(s[0]) && !IsWhitespace(s[|s| - 1])
  }

  /** `r` is `s` with a whitespace-only prefix and a whitespace-only suffix cut off. */
  ghost predicate IsInfixAfterCut(s: string, r: string) {
    exists i :: 0 <= i <= |s| - |r| && r == s[i..i + |r|]
      && WhitespaceBetween(s, 0, i) && WhitespaceBetween(s, i + |r|, |s|)
  }

  /** The number of leading whitespace characters. */
  function LeadingSpace(s: string): (n: nat)
    ensures n <= |s| && WhitespaceBetween(s, 0, n)
    ensures n < |s| ==> !IsWhitespace(s[n])
  {
    if |s| > 0 && IsWhitespace(s[0]) then 1 + LeadingSpace(s[1..]) else 0
  }

  /** The length that remains once trailing whitespace is dropped. */
  function TrailingCut(s: string): (n: nat)
    ensures n <= |s| && WhitespaceBetween(s, n, |s|)
    ensures n > 0 ==> !IsWhitespace(s[n - 1])
  {
    if |s| > 0 && IsWhitespace(s[|s| - 1]) then TrailingCut(s[..|s| - 1]) else |s|
  }

  /** `String.prototype.trim`. */
  function Trim(s: string): (r: string)
    ensures IsTrimmed(r)
    ensures IsInfixAfterCut(s, r)
  {
    var i := LeadingSpace(s);
    var a := s[i..];
    var n := TrailingCut(a);
    assert a[..n] == s[i..i + n];
    assert WhitespaceBetween(s, i + n, |s|) by {
      forall k | i + n <= k < |s| ensures IsWhitespace(s[k]) { assert s[k] == a[k - i]; }
    }
    a[..n]
  }

  /** Trimming yields the empty string exactly when the text is blank. */
  lemma TrimEmptyIffBlank(s: string)
    ensures Trim(s) == [] <==> AllWhitespace(s)
  {
    var r := Trim(s);
    var i :| 0 <= i <= |s| - |r| && r == s[i..i + |r|]
      && WhitespaceBetween(s, 0, i) && WhitespaceBetween(s, i + |r|, |s|);
    if r != [] {
      assert s[i] == r[0];
    }
  }

  /** Trimming twice is the same as trimming once. */
  lemma TrimIdempotent(s: string)
    ensures Trim(Trim(s)) == Trim(s)
  {
    var r := Trim(s);
    assert LeadingSpace(r) == 0;
    assert TrailingCut(r) == |r|;
  }

  predicate IsLower(c: char) { 'a' <= c <= 'z' }

  /** `toUpperCase` on one ASCII character. */
  function UpperChar(c: char): (u: char)
    ensures !IsLower(u)
    ensures IsLower(c) ==> u as int == c as int - 32
    ensures !IsLower(c) ==> u == c
  {
    if IsLower(c) then (c as int - 32) as char else c
  }

  /** `s.charAt(0).toUpperCase() + s.slice(1)`: `charAt(0)` of the empty string is
      the empty string, so `''` maps to `''`. */
  function Capitalize(s: string): (r: string)
    ensures |r| == |s|
    ensures forall i :: 0 < i < |s| ==> r[i] == s[i]
    ensures s != [] ==> r[0] == UpperChar(s[0])
  {
    if s == [] then "" else [UpperChar(s[0])] + s[1..]
  }

  lemma CapitalizeIdempotent(s: string)
    ensures Capitalize(Capitalize(s)) == Capitalize(s)
  {
  }

  /** `s.replace(/a/g, b)` for single characters `a` and `b`. */
  function ReplaceChar(s: string, a: char, b: char): (r: string)
    ensures |r| == |s|
    ensures forall i :: 0 <= i < |s| ==> r[i] == (if s[i] == a then b else s[i])
  {
    if s == [] then "" else [if s[0] == a then b else s[0]] + ReplaceChar(s[1..], a, b)
  }

  /** Number of occurrences of `c` in `s`. */
  function Count(s: string, c: char): nat {
    if s == [] then 0 else (if s[0] == c then 1 else 0) + Count(s[1..], c)
  }

  /** Index of the first `c` in `s`, or `|s|` when there is none. */
  function IndexOf(s: string, c: char): (i: nat)
    ensures i <= |s|
    ensures forall k :: 0 <= k < i ==> s[k] != c
    ensures i < |s| ==> s[i] == c
  {
    if s == [] then 0 else if s[0] == c then 0 else 1 + IndexOf(s[1..], c)
  }

  /** `s.split(sep)` for a one-character separator: the pieces between
      separators, always at least one (`''.split('_')` is `['']`). */
  function Split(s: string, sep: char): (parts: seq<string>)
    ensures |parts| == Count(s, sep) + 1
    ensures forall k :: 0 <= k < |parts| ==> sep !in parts[k]
    decreases |s|
  {
    var i := IndexOf(s, sep);
    CountPrefixFree(s, sep, i);
    if i == |s| then [s] else [s[..i]] + Split(s[i + 1..], sep)
  }

  /** The occurrences of `c` before position `i` contribute nothing when the prefix has none. */
  lemma CountPrefixFree(s: string, c: char, i: nat)
    requires i <= |s|
    requires forall k :: 0 <= k < i ==> s[k] != c
    ensures i == |s| ==> Count(s, c) == 0
    ensures i < |s| && s[i] == c ==> Count(s, c) == 1 + Count(s[i + 1..], c)
  {
    if i > 0 {
      CountPrefixFree(s[1..], c, i - 1);
      if i < |s| { assert s[1..][i - 1 + 1..] == s[i + 1..]; }
    } else if |s| > 0 {
      assert s[1..] == s[i + 1..];
    }
  }

  /** `parts.join(sep)`. */
  function Join(parts: seq<string>, sep: char): string {
    if parts == [] then ""
    else if |parts| == 1 then parts[0]
    else parts[0] + [sep] + Join(parts[1..], sep)
  }

  /** Joining the pieces of a split with the same separator gives the text back. */
  lemma {:induction false} JoinSplit(s: string, sep: char)
    ensures Join(Split(s, sep), sep) == s
    decreases |s|
  {
    var i := IndexOf(s, sep);
    if i < |s| {
      JoinSplit(s[i + 1..], sep);
      var rest := Split(s[i + 1..], sep);
      assert Split(s, sep) == [s[..i]] + rest;
      assert ([s[..i]] + rest)[1..] == rest;
      assert s == s[..i] + [sep] + s[i + 1..];
    }
  }

  predicate IsDigit(c: char) { '0' <= c <= '9' }

  predicate AllDigits(s: string) {
    forall i :: 0 <= i < |s| ==> IsDigit(s[i])
  }

  function DigitChar(d: nat): (c: char)
    requires d < 10
    ensures IsDigit(c)
  {
    ('0' as int + d) as char
  }

  function DigitValue(c: char): (d: nat)
    requires IsDigit(c)
    ensures d < 10
  {
    c as int - '0' as int
  }

  /** Decimal rendering of a natural number, as `String(n)` / `` `${n}` `` does. */
  function NatToString(n: nat): (s: string)
    ensures |s| >= 1 && AllDigits(s)
    ensures s[0] == '0' ==> n == 0
  {
    if n < 10 then [DigitChar(n)] else NatToString(n / 10) + [DigitChar(n % 10)]
  }

  /** Decimal rendering of an integer, with a leading '-' for negatives. */
  function IntToString(i: int): (s: string)
    ensures i >= 0 ==> s == NatToString(i)
    ensures i < 0 ==> s == "-" + NatToString(-i)
  {
    if i < 0 then "-" + NatToString(-i) else NatToString(i)
  }

  /** The value of a string of decimal digits (0 for the empty string). */
  function ParseNat(s: string): nat
    requires AllDigits(s)
  {
    if s == [] then 0 else 10 * ParseNat(s[..|s| - 1]) + DigitValue(s[|s| - 1])
  }

  /** Decimal rendering and parsing are inverse. */
  lemma {:induction false} ParseNatToString(n: nat)
    ensures ParseNat(NatToString(n)) == n
  {
    if n >= 10 {
      ParseNatToString(n / 10);
      var s := NatToString(n);
      assert s[..|s| - 1] == NatToString(n / 10);
    }
  }

  /** Distinct numbers render differently. */
  lemma NatToStringInjective(m: nat, n: nat)
    requires NatToString(m) == NatToString(n)
    ensures m == n
  {
    ParseNatToString(m);
    ParseNatToString(n);
  }

  /** `s.startsWith(p)`. */
  predicate StartsWith(s: string, p: string) {
    |p| <= |s| && s[..|p|] == p
  }

  /** `s.endsWith(p)`. */
  predicate EndsWith(s: string, p: string) {
    |p| <= |s| && s[|s| - |p|..] == p
  }

  /** `s.includes(sub)`. */
  predicate Contains(s: string, sub: string)
    decreases |s|
  {
    StartsWith(s, sub) || (|s| > 0 && Contains(s[1..], sub))
  }

  /** `sub` sits in `s` at some index: what `s.includes(sub)` means. */
  predicate OccursIn(sub: string, s: string) {
    exists i :: 0 <= i <= |s| - |sub| && StartsWith(s[i..], sub)
  }

  /** The left-to-right scan finds `sub` exactly when it occurs somewhere. */
  lemma {:induction false} ContainsIffOccurs(s: string, sub: string)
    ensures Contains(s, sub) <==> OccursIn(sub, s)
    decreases |s|
  {
    if StartsWith(s, sub) {
      assert s[0..] == s;
    }
    if |s| > 0 {
      ContainsIffOccurs(s[1..], sub);
      if OccursIn(sub, s[1..]) {
        var i :| 0 <= i <= |s[1..]| - |sub| && StartsWith(s[1..][i..], sub);
        assert s[1..][i..] == s[i + 1..];
      }
      if OccursIn(sub, s) && !StartsWith(s, sub) {
        var i :| 0 <= i <= |s| - |sub| && StartsWith(s[i..], sub);
        assert i != 0;
        assert s[1..][i - 1..] == s[i..];
      }
    } else if OccursIn(sub, s) {
      var i :| 0 <= i <= |s| - |sub| && StartsWith(s[i..], sub);
      assert s[i..] == s;
    }
  }
}
