/**
 * The JavaScript string operations the server applies to player names and
 * storage keys: `String.prototype.trim`, `slice(0, n)`, `startsWith` and the
 * decimal rendering of a counter in a template literal.
 */
module Strings {

  /** JavaScript's WhiteSpace and LineTerminator code points, which `trim` strips. */
  predicate IsWhitespace(c: char) {
    || c == '\t' || c == '\n' || c == '\U{000B}' || c == '\U{000C}' || c == '\r' || c == ' '
    || c == '\U{00A0}' || c == '\U{1680}' || ('\U{2000}' <= c <= '\U{200A}')
    || c == '\U{2028}' || c == '\U{2029}' || c == '\U{202F}' || c == '\U{205F}'
    || c == '\U{3000}' || c == '\U{FEFF}'
  }

  function TrimStart(s: string): (r: string)
    ensures |r| <= |s| && r == s[|s| - |r|..]
    ensures r == [] || !IsWhitespace(r[0])
    ensures forall k :: 0 <= k < |s| - |r| ==> IsWhitespace(s[k])
  {
    if s != [] && IsWhitespace(s[0]) then TrimStart(s[1..]) else s
  }

  function TrimEnd(s: string): (r: string)
    ensures |r| <= |s| && r == s[..|r|]
    ensures r == [] || !IsWhitespace(r[|r| - 1])
    ensures forall k :: |r| <= k < |s| ==> IsWhitespace(s[k])
  {
    if s != [] && IsWhitespace(s[|s| - 1]) then TrimEnd(s[..|s| - 1]) else s
  }

  /** `s.trim()` */
  function Trim(s: string): string {
    TrimEnd(TrimStart(s))
  }

  /** A string JavaScript treats as blank: `!s.trim()` holds. */
  predicate IsBlank(s: string) {
    Trim(s) == []
  }

  /** The trimmed text is a piece of the original with no whitespace at either end. */
  lemma TrimFacts(s: string) returns (i: nat)
    ensures var t := Trim(s);
      && (t == [] || (!IsWhitespace(t[0]) && !IsWhitespace(t[|t| - 1])))
      && i + |t| <= |s| && t == s[i..i + |t|]
  {
    var a := TrimStart(s);
    var t := TrimEnd(a);
    i := |s| - |a|;
    assert t == a[..|t|];
    assert a == s[i..];
    assert t == s[i..i + |t|];
    if t != [] {
      assert t[0] == a[0];
    }
  }

  /** Blank exactly when every character is whitespace. */
  lemma {:induction false} BlankIffAllWhitespace(s: string)
    ensures IsBlank(s) <==> forall k :: 0 <= k < |s| ==> IsWhitespace(s[k])
  {
    var a := TrimStart(s);
    if !forall k :: 0 <= k < |s| ==> IsWhitespace(s[k]) {
      var k :| 0 <= k < |s| && !IsWhitespace(s[k]);
      assert a[k - (|s| - |a|)] == s[k];
    }
  }

  lemma {:induction false} TrimIdempotent(s: string)
    ensures Trim(Trim(s)) == Trim(s)
  {
    var t := Trim(s);
    var _ := TrimFacts(s);
    assert TrimStart(t) == t;
    assert TrimEnd(t) == t;
  }

  /** `s.slice(0, n)`: at most the first `n` characters. */
  function Prefix(s: string, n: nat): (r: string)
    ensures |r| <= n && |r| <= |s|
    ensures |s| <= n ==> r == s
    ensures |s| > n ==> |r| == n
    ensures r <= s
  {
    if |s| <= n then s else s[..n]
  }

  /** `s.startsWith(p)` */
  predicate StartsWith(s: string, p: string) {
    |p| <= |s| && s[..|p|] == p
  }

  function Digit(d: nat): char
    requires d < 10
  {
    "0123456789"[d]
  }

  /** The decimal text of `n`, as a template literal renders a non-negative integer. */
  function NatToString(n: nat): (r: string)
    decreases n
  {
    if n < 10 then [Digit(n)] else NatToString(n / 10) + [Digit(n % 10)]
  }

  function DigitValue(c: char): nat
    requires '0' <= c <= '9'
  {
    (c as int - '0' as int) as nat
  }

  function ParseNat(s: string): nat
    requires forall k :: 0 <= k < |s| ==> '0' <= s[k] <= '9'
  {
    if s == [] then 0 else 10 * ParseNat(s[..|s| - 1]) + DigitValue(s[|s| - 1])
  }

  /** The rendering is decimal: only digits, no leading zero, and it parses back to `n`. */
  lemma {:induction false} NatToStringRoundTrip(n: nat)
    ensures var s := NatToString(n);
      && s != []
      && (forall k :: 0 <= k < |s| ==> '0' <= s[k] <= '9')
      && (|s| > 1 ==> s[0] != '0')
      && ParseNat(s) == n
  {
    var s := NatToString(n);
    if n >= 10 {
      NatToStringRoundTrip(n / 10);
      var p := NatToString(n / 10);
      assert s == p + [Digit(n % 10)];
      assert s[..|s| - 1] == p;
      assert s[0] == p[0];
    }
  }
}
