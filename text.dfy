/**
 * The few .NET string operations the plugin relies on: `char.IsWhiteSpace`,
 * `string.IsNullOrWhiteSpace`, `string.Trim`, `Contains(..., OrdinalIgnoreCase)`
 * and the decimal rendering of an unsigned id inside an interpolated string.
 * Case-insensitive comparison folds ASCII letters only.
 */
module Text {

  /** The characters `char.IsWhiteSpace` accepts (Unicode White_Space). */
  predicate IsWhiteSpace(c: char) {
    ('\U{9}' <= c && c <= '\U{D}') || c == ' ' || c == '\U{85}' || c == '\U{A0}'
    || c == '\U{1680}' || ('\U{2000}' <= c && c <= '\U{200A}') || c == '\U{2028}'
    || c == '\U{2029}' || c == '\U{202F}' || c == '\U{205F}' || c == '\U{3000}'
  }

  /** `string.IsNullOrWhiteSpace` on a non-null string. */
  predicate IsBlank(s: string) {
    forall i :: 0 <= i < |s| ==> IsWhiteSpace(s[i])
  }

  /** The first index at or after `i` that is not white space, or `|s|`. */
  function SkipWhiteSpace(s: string, i: nat): (k: nat)
    requires i <= |s|
    ensures i <= k <= |s|
    ensures forall m :: i <= m < k ==> IsWhiteSpace(s[m])
    ensures k < |s| ==> !IsWhiteSpace(s[k])
    decreases |s| - i
  {
    if i == |s| || !IsWhiteSpace(s[i]) then i else SkipWhiteSpace(s, i + 1)
  }

  /** The end of `s[..j]` once its trailing white space is dropped. */
  function DropTrailingWhiteSpace(s: string, j: nat): (k: nat)
    requires j <= |s|
    ensures k <= j
    ensures forall m :: k <= m < j ==> IsWhiteSpace(s[m])
    ensures k > 0 ==> !IsWhiteSpace(s[k - 1])
  {
    if j == 0 || !IsWhiteSpace(s[j - 1]) then j else DropTrailingWhiteSpace(s, j - 1)
  }

  /**
   * The bounds `string.Trim()` keeps: everything before the first and after the last
   * non-white-space character is white space, and an all-white-space string keeps nothing.
   */
  function TrimBounds(s: string): (b: (nat, nat))
    ensures b.0 <= b.1 <= |s|
    ensures forall k :: 0 <= k < b.0 ==> IsWhiteSpace(s[k])
    ensures forall k :: b.1 <= k < |s| ==> IsWhiteSpace(s[k])
    ensures b.0 < b.1 ==> !IsWhiteSpace(s[b.0]) && !IsWhiteSpace(s[b.1 - 1])
    ensures b.0 == b.1 <==> IsBlank(s)
  {
    var i := SkipWhiteSpace(s, 0);
    if i == |s| then (i, i)
    else
      var j := DropTrailingWhiteSpace(s, |s|);
      (i, j)
  }

  /** `string.Trim()`: `s` without its leading and trailing white space. */
  function Trim(s: string): (r: string)
    ensures r == [] <==> IsBlank(s)
    ensures r != [] ==> !IsWhiteSpace(r[0]) && !IsWhiteSpace(r[|r| - 1])
    ensures |r| <= |s|
    ensures exists i, j :: 0 <= i <= j <= |s| && r == s[i..j] && IsBlank(s[..i]) && IsBlank(s[j..])
  {
    var b := TrimBounds(s);
    assert IsBlank(s[..b.0]) && IsBlank(s[b.1..]);
    s[b.0..b.1]
  }

  function ToLowerAscii(c: char): char {
    if 'A' <= c && c <= 'Z' then (c as int + 32) as char else c
  }

  predicate IsAsciiLetter(c: char) {
    ('A' <= c && c <= 'Z') || ('a' <= c && c <= 'z')
  }

  /** `t` matches `s` at index `i`, ASCII letters compared without regard to case. */
  predicate MatchAt(s: string, t: string, i: nat) {
    i + |t| <= |s| && forall j :: 0 <= j < |t| ==> ToLowerAscii(s[i + j]) == ToLowerAscii(t[j])
  }

  /** `s.Contains(t, StringComparison.OrdinalIgnoreCase)`. */
  function ContainsIgnoreCase(s: string, t: string): (r: bool)
    ensures r <==> exists i: nat :: MatchAt(s, t, i)
    decreases |s|
  {
    if |t| > |s| then
      assert forall i: nat :: !MatchAt(s, t, i);
      false
    else if MatchAt(s, t, 0) then
      true
    else
      assert forall i: nat :: MatchAt(s[1..], t, i) ==> MatchAt(s, t, i + 1) by {
        forall i: nat ensures MatchAt(s[1..], t, i) ==> MatchAt(s, t, i + 1) {
          MatchAtTail(s, t, i);
        }
      }
      assert forall i: nat :: MatchAt(s, t, i) ==> i > 0 && MatchAt(s[1..], t, i - 1) by {
        forall i: nat | MatchAt(s, t, i) ensures i > 0 && MatchAt(s[1..], t, i - 1) {
          MatchAtTail(s, t, i - 1);
        }
      }
      ContainsIgnoreCase(s[1..], t)
  }

  lemma MatchAtTail(s: string, t: string, i: nat)
    requires |s| > 0
    ensures MatchAt(s[1..], t, i) <==> MatchAt(s, t, i + 1)
  {
  }

  function DigitChar(d: nat): char
    requires d < 10
  {
    "0123456789"[d]
  }

  predicate IsDigit(c: char) {
    '0' <= c && c <= '9'
  }

  /** The value a string of decimal digits denotes. */
  function DigitsValue(s: string): nat
    requires forall i :: 0 <= i < |s| ==> IsDigit(s[i])
  {
    if s == [] then 0
    else
      assert IsDigit(s[|s| - 1]);
      10 * DigitsValue(s[..|s| - 1]) + (s[|s| - 1] as int - '0' as int)
  }

  /** The invariant-culture decimal rendering of a non-negative integer. */
  function DecimalString(n: nat): (r: string)
    ensures |r| >= 1 && forall i :: 0 <= i < |r| ==> IsDigit(r[i])
    ensures DigitsValue(r) == n
    ensures r[0] == '0' ==> r == "0"
  {
    if n < 10 then [DigitChar(n)] else DecimalString(n / 10) + [DigitChar(n % 10)]
  }
}
