/** The few JavaScript string operations the core relies on, with the
    semantics of the ECMAScript built-ins (`trim`, `indexOf`, `includes`,
    `startsWith`, `split` on one character, `substring`). Strings are
    sequences of Unicode scalar values. */
module JsStrings {

  /** The characters matched by `\s` and removed by `String.prototype.trim`:
      WhiteSpace (TAB, VT, FF, SP, NBSP, ZWNBSP and the Zs category) and
      LineTerminator (LF, CR, LS, PS). */
  predicate IsWhitespace(c: char) {
    c == '\t' || c == '\n' || c == '\U{B}' || c == '\U{C}' || c == '\r' || c == ' ' ||
    c == '\U{A0}' || c == '\U{1680}' || ('\U{2000}' <= c <= '\U{200A}') ||
    c == '\U{2028}' || c == '\U{2029}' || c == '\U{202F}' || c == '\U{205F}' ||
    c == '\U{3000}' || c == '\U{FEFF}'
  }

  /** The characters that `.` in a regular expression does not match. */
  predicate IsLineTerminator(c: char) {
    c == '\n' || c == '\r' || c == '\U{2028}' || c == '\U{2029}'
  }

  predicate IsDigit(c: char) {
    '0' <= c <= '9'
  }

  /** Every character of `s` in `lo..hi` is whitespace. */
  predicate WhitespaceBetween(s: string, lo: int, hi: int)
    requires 0 <= lo <= hi <= |s|
  {
    forall j :: lo <= j < hi ==> IsWhitespace(s[j])
  }

  /** The first index at or after `i` that is not whitespace (or `|s|`). */
  function FirstNonWhitespace(s: string, i: nat): (k: nat)
    requires i <= |s|
    ensures i <= k <= |s| && WhitespaceBetween(s, i, k)
    ensures k < |s| ==> !IsWhitespace(s[k])
    decreases |s| - i
  {
    if i == |s| || !IsWhitespace(s[i]) then i else FirstNonWhitespace(s, i + 1)
  }

  /** The end of the last non-whitespace character in `lo..hi` (or `lo`). */
  function LastNonWhitespaceEnd(s: string, lo: nat, hi: nat): (k: nat)
    requires lo <= hi <= |s|
    ensures lo <= k <= hi && WhitespaceBetween(s, k, hi)
    ensures k > lo ==> !IsWhitespace(s[k - 1])
    decreases hi - lo
  {
    if hi == lo || !IsWhitespace(s[hi - 1]) then hi else LastNonWhitespaceEnd(s, lo, hi - 1)
  }

  /** `s.trim()`: `r` neither starts nor ends with whitespace, and it is
      empty exactly when `s` is all whitespace; `TrimBounds` says where in
      `s` it lies. */
  function Trim(s: string): (r: string)
    ensures r == [] || (!IsWhitespace(r[0]) && !IsWhitespace(r[|r| - 1]))
    ensures r == [] <==> WhitespaceBetween(s, 0, |s|)
  {
    var a := FirstNonWhitespace(s, 0);
    var b := LastNonWhitespaceEnd(s, a, |s|);
    assert b > a ==> s[a..b][0] == s[a];
    s[a..b]
  }

  /** The trimmed text is a slice of `s` with only whitespace around it. */
  lemma TrimBounds(s: string) returns (a: nat, b: nat)
    ensures a <= b <= |s| && Trim(s) == s[a..b]
    ensures WhitespaceBetween(s, 0, a) && WhitespaceBetween(s, b, |s|)
  {
    a := FirstNonWhitespace(s, 0);
    b := LastNonWhitespaceEnd(s, a, |s|);
  }

  /** `s` contains `pat` at position `p`. */
  predicate OccursAt(s: string, pat: string, p: int) {
    0 <= p && p + |pat| <= |s| && s[p..p + |pat|] == pat
  }

  /** The start position `indexOf` uses: `from` clamped into `0..|s|`. */
  function ClampIndex(s: string, from: int): (k: int)
    ensures 0 <= k <= |s|
  {
    if from < 0 then 0 else if from > |s| then |s| else from
  }

  function IndexFrom(s: string, pat: string, k: nat): (r: int)
    requires k <= |s|
    ensures r == -1 || (k <= r && OccursAt(s, pat, r))
    ensures forall p :: k <= p && (r == -1 || p < r) ==> !OccursAt(s, pat, p)
    decreases |s| - k
  {
    if OccursAt(s, pat, k) then k
    else if k + |pat| >= |s| then -1
    else IndexFrom(s, pat, k + 1)
  }

  /** `s.indexOf(pat, from)`: the first occurrence of `pat` at or after the
      clamped start position, or -1 when there is none. */
  function IndexOf(s: string, pat: string, from: int): (r: int)
    ensures r == -1 || (ClampIndex(s, from) <= r && OccursAt(s, pat, r))
    ensures forall p :: ClampIndex(s, from) <= p && (r == -1 || p < r) ==> !OccursAt(s, pat, p)
  {
    IndexFrom(s, pat, ClampIndex(s, from))
  }

  /** `s.includes(pat)`: `pat` occurs somewhere in `s`. */
  predicate Includes(s: string, pat: string) {
    exists p :: 0 <= p <= |s| - |pat| && OccursAt(s, pat, p)
  }

  /** `includes` is `indexOf(pat) !== -1`. */
  lemma IncludesIff(s: string, pat: string)
    ensures Includes(s, pat) <==> IndexOf(s, pat, 0) != -1
  {
    if Includes(s, pat) {
      var p :| 0 <= p <= |s| - |pat| && OccursAt(s, pat, p);
      assert ClampIndex(s, 0) <= p;
    }
  }

  /** `s.startsWith(pat)`. */
  predicate StartsWith(s: string, pat: string) {
    |pat| <= |s| && s[..|pat|] == pat
  }

  /** `s.substring(a, b)`: both ends clamped into `0..|s|`, swapped when the
      first is the larger. */
  function Substring(s: string, a: int, b: int): (r: string)
    ensures var x, y := ClampIndex(s, a), ClampIndex(s, b);
      r == if x <= y then s[x..y] else s[y..x]
  {
    var x, y := ClampIndex(s, a), ClampIndex(s, b);
    if x <= y then s[x..y] else s[y..x]
  }

  /** The pieces of `s` between occurrences of `sep`, as `s.split(sep)`. */
  function Split(s: string, sep: char): (r: seq<string>)
    ensures |r| >= 1
    ensures forall i :: 0 <= i < |r| ==> sep !in r[i]
    decreases |s|
  {
    if sep !in s then [s]
    else
      var k := FirstIndexOfChar(s, sep);
      [s[..k]] + Split(s[k + 1..], sep)
  }

  function FirstIndexOfChar(s: string, c: char): (k: nat)
    requires c in s
    ensures k < |s| && s[k] == c && c !in s[..k]
  {
    if s[0] == c then 0 else 1 + FirstIndexOfChar(s[1..], c)
  }

  /** The pieces joined back with `sep` in between, as `Array.prototype.join`. */
  function Join(parts: seq<string>, sep: char): string {
    if |parts| == 0 then ""
    else if |parts| == 1 then parts[0]
    else parts[0] + [sep] + Join(parts[1..], sep)
  }

  /** Splitting and joining again gives back the original text. */
  lemma {:induction false} JoinSplit(s: string, sep: char)
    ensures Join(Split(s, sep), sep) == s
    decreases |s|
  {
    if sep in s {
      var k := FirstIndexOfChar(s, sep);
      JoinSplit(s[k + 1..], sep);
      assert s == s[..k] + [sep] + s[k + 1..];
    }
  }

  /** Decimal rendering of a natural number, as template literals print it. */
  function NatToString(n: nat): (r: string)
    ensures |r| >= 1 && forall i :: 0 <= i < |r| ==> IsDigit(r[i])
  {
    if n < 10 then [DigitChar(n)] else NatToString(n / 10) + [DigitChar(n % 10)]
  }

  function DigitChar(d: nat): (c: char)
    requires d < 10
    ensures IsDigit(c)
  {
    ['0', '1', '2', '3', '4', '5', '6', '7', '8', '9'][d]
  }
}
