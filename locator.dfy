/** The solution content locator run at each review step: it finds the
    detailed text of solution `n` in the full document and falls back to a
    fixed notice when there is none. The regular expressions of the source
    enter as their results (the first match index of each pattern, the
    sub-heading test of a window, the position of the Part V heading and
    the pieces of the document between long rules). */
module Locator {
  import opened Types
  import opened JsStrings

  /** The heading of the main description part. */
  const DescriptionHeading := "📋 MÔ TẢ SÁNG KIẾN"

  /** The line a solution's text should end with. */
  const EndMarker := "KẾT THÚC GIẢI PHÁP"

  /** The 21-character rule that closes the end-marker block. */
  const EndBlockRule := "━━━━━━━━━━━━━━━━━━━━━"

  /** The 11-character rule that may separate solutions. */
  const SeparatorRule := "━━━━━━━━━━━"

  /** The window after a marker that is examined for sub-headings. */
  const WindowLength := 1500

  /** `GIẢI PHÁP ${n} `, with the trailing space of the source. */
  function SolutionMarker(n: nat): (m: string)
    ensures |m| >= 1
  {
    "GIẢI PHÁP " + NatToString(n) + " "
  }

  /** The notice shown when nothing was found. */
  function Placeholder(n: nat): (p: string)
    ensures |p| >= 100
  {
    "⚠️ Không tìm thấy nội dung chi tiết của GIẢI PHÁP " + NatToString(n) +
    ".\n\nVui lòng kiểm tra lại hoặc yêu cầu AI viết lại giải pháp này."
  }

  /** What the regular expressions of the locator produce on the document. */
  datatype PatternResults = PatternResults(
    /** The first match of each part-IV heading pattern in the document. */
    headingMatches: seq<Option<nat>>,
    /** The first match of each detailed-heading pattern of solution `n` in
        the text from the section start on. */
    detailMatches: seq<Option<nat>>,
    /** Whether a window names a sub-heading (objective, procedure, step 1…). */
    hasDetail: string -> bool,
    /** `search` for the Part V heading: its index, or -1. */
    nextPartIdx: int,
    /** The document split on rules of ten or more `━`, or five or more `-`. */
    parts: seq<string>)

  /** A heading match is taken when it comes after the description heading,
      or anywhere when the document has no description heading. */
  predicate Accepted(headingIdx: int, m: nat) {
    (headingIdx != -1 && m > headingIdx) || headingIdx == -1
  }

  /** The first pattern from `from` on (in order) whose first match is
      accepted, or -1. With `headingIdx == -1` this is the first pattern
      that matches at all. */
  function FirstAccepted(headingIdx: int, matches: seq<Option<nat>>, from: nat): (r: int)
    requires from <= |matches|
    ensures r == -1 <==> forall k :: from <= k < |matches| && matches[k].Some? ==> !Accepted(headingIdx, matches[k].value)
    ensures r != -1 ==> exists k :: from <= k < |matches| && matches[k] == Some(r) && Accepted(headingIdx, r) &&
                                    forall j :: from <= j < k && matches[j].Some? ==> !Accepted(headingIdx, matches[j].value)
    decreases |matches| - from
  {
    if from == |matches| then -1
    else if matches[from].Some? && Accepted(headingIdx, matches[from].value) then matches[from].value
    else FirstAccepted(headingIdx, matches, from + 1)
  }

  /** The loop over the patterns that stops at the first accepted match. */
  method FirstAcceptedMatch(headingIdx: int, matches: seq<Option<nat>>) returns (r: int)
    ensures r == FirstAccepted(headingIdx, matches, 0)
  {
    r := -1;
    var k := 0;
    while k < |matches|
      invariant 0 <= k <= |matches|
      invariant FirstAccepted(headingIdx, matches, k) == FirstAccepted(headingIdx, matches, 0)
    {
      if matches[k].Some? && Accepted(headingIdx, matches[k].value) {
        r := matches[k].value;
        return;
      }
      k := k + 1;
    }
  }

  /** Every match is accepted when there is no description heading. */
  lemma AcceptedWithoutHeading(m: nat)
    ensures Accepted(-1, m)
  {
  }

  /** A marker occurrence opens detailed text: the 1500 characters from it
      are more than 500 and name a sub-heading. */
  predicate DetailedAt(doc: string, p: int, hasDetail: string -> bool) {
    var window := Substring(doc, p, p + WindowLength);
    hasDetail(window) && |window| > 500
  }

  /** The fallback search as a scan of the positions from `p`: the first
      occurrence of the marker there that opens detailed text, or -1. */
  function DetailedMarkerFrom(doc: string, marker: string, p: nat, hasDetail: string -> bool): (start: int)
    requires p <= |doc|
    ensures FirstDetailedMarker(doc, marker, p, hasDetail, start)
    decreases |doc| - p
  {
    if p == |doc| then -1
    else if OccursAt(doc, marker, p) && DetailedAt(doc, p, hasDetail) then p
    else DetailedMarkerFrom(doc, marker, p + 1, hasDetail)
  }

  /** No occurrence of `marker` in `[lo, hi)` opens detailed text. */
  ghost predicate NoDetailedMarkerIn(doc: string, marker: string, hasDetail: string -> bool, lo: int, hi: int) {
    forall p :: lo <= p < hi && OccursAt(doc, marker, p) ==> !DetailedAt(doc, p, hasDetail)
  }

  /** `start` is the first occurrence of the marker at or after `from` that
      opens detailed text, or -1 when there is none. */
  ghost predicate FirstDetailedMarker(doc: string, marker: string, from: int, hasDetail: string -> bool, start: int) {
    && (start == -1 || (from <= start && OccursAt(doc, marker, start) && DetailedAt(doc, start, hasDetail)))
    && NoDetailedMarkerIn(doc, marker, hasDetail, from, if start == -1 then |doc| else start)
  }

  /** There is only one first detailed marker occurrence. */
  lemma FirstDetailedMarkerUnique(doc: string, marker: string, from: int, hasDetail: string -> bool, a: int, b: int)
    requires FirstDetailedMarker(doc, marker, from, hasDetail, a)
    requires FirstDetailedMarker(doc, marker, from, hasDetail, b)
    ensures a == b
  {
  }

  /** A stretch without any occurrence extends the stretch without a
      detailed occurrence. */
  lemma NoDetailedMarkerUpTo(doc: string, marker: string, hasDetail: string -> bool, lo: int, mid: int, hi: int)
    requires lo <= mid <= hi
    requires NoDetailedMarkerIn(doc, marker, hasDetail, lo, mid)
    requires forall p :: mid <= p < hi ==> !OccursAt(doc, marker, p)
    ensures NoDetailedMarkerIn(doc, marker, hasDetail, lo, hi)
  {
  }

  /** One step of the search: the occurrence at `idx` that does not open
      detailed text, with no occurrence between `mid` and it, extends the
      stretch without a detailed occurrence past `idx`. */
  lemma NoDetailedMarkerStep(doc: string, marker: string, hasDetail: string -> bool, lo: int, mid: int, idx: int)
    requires lo <= mid <= idx
    requires NoDetailedMarkerIn(doc, marker, hasDetail, lo, mid)
    requires forall p :: mid <= p < idx ==> !OccursAt(doc, marker, p)
    requires !DetailedAt(doc, idx, hasDetail)
    ensures NoDetailedMarkerIn(doc, marker, hasDetail, lo, idx + 1)
  {
  }

  /** The `while (true)` loop of the fallback search, which jumps from one
      occurrence of the marker to the next with `indexOf`. */
  method FindDetailedMarker(doc: string, marker: string, from: int, hasDetail: string -> bool) returns (start: int)
    requires |marker| >= 1
    ensures start == DetailedMarkerFrom(doc, marker, ClampIndex(doc, from), hasDetail)
  {
    var searchStart := from;
    start := -1;
    while true
      invariant searchStart == from || ClampIndex(doc, from) < searchStart <= |doc|
      invariant start == -1
      invariant NoDetailedMarkerIn(doc, marker, hasDetail, ClampIndex(doc, from), ClampIndex(doc, searchStart))
      decreases |doc| + 1 - ClampIndex(doc, searchStart)
    {
      var idx := IndexOf(doc, marker, searchStart);
      if idx == -1 {
        NoDetailedMarkerUpTo(doc, marker, hasDetail, ClampIndex(doc, from), ClampIndex(doc, searchStart), |doc|);
        break;
      }
      var nextChars := Substring(doc, idx, idx + WindowLength);
      if hasDetail(nextChars) && |nextChars| > 500 {
        NoDetailedMarkerUpTo(doc, marker, hasDetail, ClampIndex(doc, from), ClampIndex(doc, searchStart), idx);
        start := idx;
        break;
      }
      NoDetailedMarkerStep(doc, marker, hasDetail, ClampIndex(doc, from), ClampIndex(doc, searchStart), idx);
      searchStart := idx + 1;
    }
    FirstDetailedMarkerUnique(doc, marker, ClampIndex(doc, from), hasDetail,
                              start, DetailedMarkerFrom(doc, marker, ClampIndex(doc, from), hasDetail));
  }

  /** An end position: an index, or `Infinity` (what `Math.min()` of no
      candidates gives). */
  datatype Bound = At(index: int) | Infinity

  /** The least candidate above `bound`, or `Infinity` when there is none. */
  function MinAbove(candidates: seq<int>, bound: int): (r: Bound)
    ensures r.Infinity? <==> forall i :: 0 <= i < |candidates| ==> candidates[i] <= bound
    ensures r.At? ==> r.index > bound && r.index in candidates &&
                      forall i :: 0 <= i < |candidates| && candidates[i] > bound ==> r.index <= candidates[i]
  {
    if candidates == [] then Infinity
    else
      var rest := MinAbove(candidates[1..], bound);
      assert forall i :: 1 <= i < |candidates| ==> candidates[i] == candidates[1..][i - 1];
      if candidates[0] <= bound then rest
      else if rest.Infinity? || candidates[0] <= rest.index then At(candidates[0])
      else rest
  }

  /** The places the text may end when no end marker follows the start: the
      next solution's marker (from 100 characters on), the Part V heading,
      the next short rule (from 500 characters on) and the end of the
      document. */
  function EndCandidates(doc: string, start: nat, n: nat, nextPartIdx: int): seq<int> {
    [IndexOf(doc, SolutionMarker(n + 1), start + 100), nextPartIdx,
     IndexOf(doc, SeparatorRule, start + 500), |doc|]
  }

  /** No line break inside the end marker. */
  lemma EndMarkerHasNoNewline()
    ensures forall i :: 0 <= i < |EndMarker| ==> EndMarker[i] != '\n'
  {
  }

  /** The characters of an end marker in the document are no line breaks. */
  lemma NoLineBreakInEndMarker(doc: string, endIdx: nat)
    requires OccursAt(doc, EndMarker, endIdx)
    ensures forall q :: endIdx <= q < endIdx + |EndMarker| ==> doc[q] != '\n'
  {
    EndMarkerHasNoNewline();
    assert forall q :: endIdx <= q < endIdx + |EndMarker| ==>
      doc[q] == doc[endIdx..endIdx + |EndMarker|][q - endIdx] == EndMarker[q - endIdx];
  }

  /** The end after an end marker at `endIdx`: the closing rule when it
      starts within 500 characters of the marker, otherwise just past the
      first blank line from the marker, otherwise the end of the document. */
  function AfterEndMarker(doc: string, endIdx: nat): (e: int)
    requires OccursAt(doc, EndMarker, endIdx)
    ensures endIdx + |EndMarker| <= e <= |doc|
  {
    var endBlock := IndexOf(doc, EndBlockRule, endIdx + 20);
    if endBlock != -1 && endBlock - endIdx < 500 then endBlock
    else
      var endOfLine := IndexOf(doc, "\n\n", endIdx);
      NoLineBreakInEndMarker(doc, endIdx);
      assert endOfLine != -1 ==> doc[endOfLine] == doc[endOfLine..endOfLine + 2][0] == '\n';
      if endOfLine != -1 then endOfLine + 1 else |doc|
  }

  /** The end of the located text: after the first end marker from the
      start, if any; otherwise the least candidate more than 500 characters
      after the start. */
  function SolutionEnd(doc: string, start: nat, n: nat, nextPartIdx: int): (e: Bound)
    requires start <= |doc| && -1 <= nextPartIdx <= |doc|
    ensures var m := IndexOf(doc, EndMarker, start);
      m != -1 ==> e.At? && m + |EndMarker| <= e.index <= |doc|
    ensures IndexOf(doc, EndMarker, start) == -1 ==>
      e == MinAbove(EndCandidates(doc, start, n, nextPartIdx), start + 500) &&
      (e.Infinity? <==> |doc| <= start + 500) &&
      (e.At? ==> start + 500 < e.index <= |doc|)
  {
    var endIdx := IndexOf(doc, EndMarker, start);
    if endIdx != -1 then At(AfterEndMarker(doc, endIdx))
    else
      var cands := EndCandidates(doc, start, n, nextPartIdx);
      assert cands[3] == |doc|;
      assert forall i :: 0 <= i < |cands| ==> cands[i] <= |doc|;
      MinAbove(cands, start + 500)
  }

  /** `doc.substring(start, end).trim()`, with `Infinity` clamped to the end. */
  function RangeText(doc: string, start: int, end: Bound): string {
    match end
    case At(i) => Trim(Substring(doc, start, i))
    case Infinity => Trim(Substring(doc, start, |doc|))
  }

  /** Text ended by an end marker keeps the whole marker. */
  lemma RangeKeepsEndMarker(doc: string, start: nat, n: nat, nextPartIdx: int)
    requires start <= |doc| && -1 <= nextPartIdx <= |doc|
    requires IndexOf(doc, EndMarker, start) != -1
    ensures var m, e := IndexOf(doc, EndMarker, start), SolutionEnd(doc, start, n, nextPartIdx);
      OccursAt(Substring(doc, start, e.index), EndMarker, m - start)
  {
    var m, e := IndexOf(doc, EndMarker, start), SolutionEnd(doc, start, n, nextPartIdx);
    assert start <= m && m + |EndMarker| <= e.index <= |doc|;
    assert Substring(doc, start, e.index) == doc[start..e.index];
    StretchKeepsOccurrence(doc, start, e.index, EndMarker, m);
  }

  /** An occurrence inside a stretch of the text is an occurrence in the
      stretch, shifted by the stretch's start. */
  lemma StretchKeepsOccurrence(doc: string, a: int, b: int, pat: string, p: int)
    requires 0 <= a <= p && p + |pat| <= b <= |doc| && OccursAt(doc, pat, p)
    ensures OccursAt(doc[a..b], pat, p - a)
  {
    forall k | 0 <= k < |pat|
      ensures doc[a..b][p - a..p - a + |pat|][k] == pat[k]
    {
      assert doc[a..b][p - a..p - a + |pat|][k] == doc[p + k] == doc[p..p + |pat|][k];
    }
  }

  /** A piece of the document that holds solution `n` in detail: it names
      the solution, is longer than 500 characters and names an objective,
      a procedure or a first step. */
  predicate DetailedPart(part: string, n: nat) {
    Includes(part, SolutionMarker(n)) && |part| > 500 &&
    (Includes(part, "MỤC TIÊU") || Includes(part, "QUY TRÌNH") || Includes(part, "Bước 1"))
  }

  /** The piece test of the backward scan: the trimmed piece holds the
      solution in detail. */
  predicate DetailedPiece(piece: string, n: nat) {
    DetailedPart(Trim(piece), n)
  }

  /** Index `i` holds a detailed piece, and no later piece is detailed. */
  predicate LastDetailedAt(parts: seq<string>, n: nat, i: int) {
    0 <= i < |parts| && DetailedPiece(parts[i], n) &&
    forall j :: i < j < |parts| ==> !DetailedPiece(parts[j], n)
  }

  /** `text` is one of the pieces, trimmed, holds the solution in detail,
      and no later piece does. */
  predicate LastDetailedPiece(text: string, parts: seq<string>, n: nat) {
    exists i :: 0 <= i < |parts| && LastDetailedAt(parts, n, i) && text == Trim(parts[i])
  }

  /** No trimmed piece holds the solution in detail. */
  predicate NoDetailedPiece(parts: seq<string>, n: nat) {
    forall i :: 0 <= i < |parts| ==> !DetailedPiece(parts[i], n)
  }

  /** The index of the last detailed piece before index `i`, or -1. */
  function LastDetailedBefore(parts: seq<string>, n: nat, i: nat): (k: int)
    requires i <= |parts|
    ensures -1 <= k < i
    decreases i
  {
    if i == 0 then -1
    else if DetailedPiece(parts[i - 1], n) then i - 1
    else LastDetailedBefore(parts, n, i - 1)
  }

  /** Before index `i`, `LastDetailedBefore` finds a detailed piece with no
      detailed piece after it, or -1 when none is detailed. */
  lemma {:induction false} LastDetailedBeforeIsLast(parts: seq<string>, n: nat, i: nat)
    requires i <= |parts|
    ensures var k := LastDetailedBefore(parts, n, i);
      && (k != -1 ==> DetailedPiece(parts[k], n))
      && (forall j :: k < j < i ==> !DetailedPiece(parts[j], n))
    decreases i
  {
    if i > 0 && !DetailedPiece(parts[i - 1], n) {
      LastDetailedBeforeIsLast(parts, n, i - 1);
    }
  }

  /** Over all pieces, the scan finds the last detailed one, and nothing
      exactly when no piece is detailed. */
  lemma LastDetailedOfAll(parts: seq<string>, n: nat)
    ensures var k := LastDetailedBefore(parts, n, |parts|);
      && (k == -1 <==> NoDetailedPiece(parts, n))
      && (k != -1 ==> LastDetailedAt(parts, n, k))
  {
    LastDetailedBeforeIsLast(parts, n, |parts|);
  }

  /** The `for` loop from the last piece down, stopping at the first
      detailed piece. */
  method ScanPartsBackward(parts: seq<string>, n: nat) returns (k: int)
    ensures k == LastDetailedBefore(parts, n, |parts|)
  {
    var i := |parts| - 1;
    while i >= 0
      invariant -1 <= i < |parts|
      invariant LastDetailedBefore(parts, n, i + 1) == LastDetailedBefore(parts, n, |parts|)
    {
      var part := Trim(parts[i]);
      if Includes(part, SolutionMarker(n)) && |part| > 500 &&
         (Includes(part, "MỤC TIÊU") || Includes(part, "QUY TRÌNH") || Includes(part, "Bước 1")) {
        return i;
      }
      i := i - 1;
    }
    return -1;
  }

  /** Each piece is a stretch of the document. */
  predicate PiecesOf(doc: string, parts: seq<string>) {
    forall i :: 0 <= i < |parts| ==> exists a, b :: 0 <= a <= b <= |doc| && parts[i] == doc[a..b]
  }

  /** An occurrence in a stretch of `doc` is an occurrence in `doc`. */
  lemma OccursInStretch(doc: string, a: int, b: int, pat: string, p: int)
    requires 0 <= a <= b <= |doc| && OccursAt(doc[a..b], pat, p)
    ensures OccursAt(doc, pat, a + p)
  {
    var s := doc[a..b];
    assert forall k :: 0 <= k < |pat| ==> pat[k] == s[p..p + |pat|][k] == doc[a + p + k];
    assert doc[a + p..a + p + |pat|] == pat;
  }

  lemma SliceOfSlice(doc: string, a: int, b: int, c: int, d: int)
    requires 0 <= a <= b <= |doc| && 0 <= c <= d <= b - a
    ensures doc[a..b][c..d] == doc[a + c..a + d]
  {
    assert forall k :: 0 <= k < d - c ==> doc[a..b][c..d][k] == doc[a + c + k];
  }

  /** What a trimmed stretch of a document contains, the document contains. */
  lemma TrimmedStretchOccurrence(doc: string, a: int, b: int, pat: string)
    requires 0 <= a <= b <= |doc|
    requires Includes(Trim(doc[a..b]), pat)
    ensures exists p :: OccursAt(doc, pat, p)
  {
    var s := doc[a..b];
    var part := Trim(s);
    var c, d := TrimBounds(s);
    var r :| 0 <= r <= |part| - |pat| && OccursAt(part, pat, r);
    SliceOfSlice(doc, a, b, c, d);
    OccursInStretch(doc, a + c, a + d, pat, r);
  }

  /** A document that never names solution `n` has no trimmed piece that
      holds it in detail. */
  lemma NoMarkerNoDetailedPart(doc: string, parts: seq<string>, n: nat)
    requires PiecesOf(doc, parts)
    requires forall p :: !OccursAt(doc, SolutionMarker(n), p)
    ensures NoDetailedPiece(parts, n)
  {
    forall i | 0 <= i < |parts| ensures !DetailedPiece(parts[i], n) {
      var a, b :| 0 <= a <= b <= |doc| && parts[i] == doc[a..b];
      if Includes(Trim(parts[i]), SolutionMarker(n)) {
        TrimmedStretchOccurrence(doc, a, b, SolutionMarker(n));
      }
    }
  }

  /** The section start: the first accepted part-IV heading, else the
      beginning of the document. */
  function SectionStart(doc: string, rx: PatternResults): (from: nat) {
    var headingIdx := IndexOf(doc, DescriptionHeading, 0);
    var sectionStartIdx := FirstAccepted(headingIdx, rx.headingMatches, 0);
    if sectionStartIdx != -1 then sectionStartIdx else 0
  }

  /** Where solution `n` starts: the section start plus the first detailed
      heading match after it, else the first marker from the section start
      that opens detailed text, else -1. A match index past the end of the
      document is clamped to the end, which keeps the model total without a
      precondition on the pattern results. */
  function SolutionStart(doc: string, n: nat, rx: PatternResults): (s: int)
    ensures s == -1 || 0 <= s <= |doc|
    ensures var detail := FirstAccepted(-1, rx.detailMatches, 0);
      && (detail != -1 ==> s == Min(SectionStart(doc, rx) + detail, |doc|))
      && (detail == -1 ==> s == DetailedMarkerFrom(doc, SolutionMarker(n), ClampIndex(doc, SectionStart(doc, rx)), rx.hasDetail))
    ensures FirstAccepted(-1, rx.detailMatches, 0) == -1 ==>
      || s == -1
      || (SectionStart(doc, rx) <= s && OccursAt(doc, SolutionMarker(n), s) && DetailedAt(doc, s, rx.hasDetail))
  {
    var from := SectionStart(doc, rx);
    var detail := FirstAccepted(-1, rx.detailMatches, 0);
    var start := if detail != -1 then from + detail else DetailedMarkerFrom(doc, SolutionMarker(n), ClampIndex(doc, from), rx.hasDetail);
    if start > |doc| then |doc| else start
  }

  function Min(a: int, b: int): int {
    if a <= b then a else b
  }

  /** The start search of the review effect. */
  method LocateStart(doc: string, n: nat, rx: PatternResults) returns (startIdx: int)
    ensures startIdx == SolutionStart(doc, n, rx)
  {
    var headingIdx := IndexOf(doc, DescriptionHeading, 0);
    var sectionStartIdx := FirstAcceptedMatch(headingIdx, rx.headingMatches);
    var searchFromIdx := if sectionStartIdx != -1 then sectionStartIdx else 0;

    var detail := FirstAcceptedMatch(-1, rx.detailMatches);
    if detail != -1 {
      startIdx := searchFromIdx + detail;
    } else {
      startIdx := FindDetailedMarker(doc, SolutionMarker(n), searchFromIdx, rx.hasDetail);
    }
    if startIdx > |doc| {
      startIdx := |doc|;
    }
  }

  /** The fallbacks after the range: when the range text is empty or under
      500 characters, the last detailed piece, trimmed, replaces it; a
      result that is then empty or under 100 characters becomes the notice. */
  function Chosen(located: string, parts: seq<string>, n: nat): string {
    var k := LastDetailedBefore(parts, n, |parts|);
    var afterScan := if |located| < 500 && k != -1 then Trim(parts[k]) else located;
    if |afterScan| < 100 then Placeholder(n) else afterScan
  }

  /** What the review effect's fallbacks keep, case by case: always 100
      characters or more; the range text when it has 500 or more; else the
      last detailed piece when there is one; else the range text when it has
      100 or more, and the notice when it has fewer. */
  lemma ChosenContent(located: string, parts: seq<string>, n: nat)
    ensures var c := Chosen(located, parts, n);
      && |c| >= 100
      && (|located| >= 500 ==> c == located)
      && (|located| < 500 && !NoDetailedPiece(parts, n) ==> LastDetailedPiece(c, parts, n))
      && (|located| < 500 && NoDetailedPiece(parts, n) ==>
            c == if |located| >= 100 then located else Placeholder(n))
  {
    LastDetailedOfAll(parts, n);
    var k := LastDetailedBefore(parts, n, |parts|);
    if k != -1 {
      assert DetailedPiece(parts[k], n);
    }
  }

  /** The fallbacks after the range, as the source runs them: the backward
      scan over the pieces, then the notice. */
  method ChooseContent(located: string, parts: seq<string>, n: nat) returns (content: string)
    ensures content == Chosen(located, parts, n)
  {
    content := located;
    if content == [] || |content| < 500 {
      var k := ScanPartsBackward(parts, n);
      if k != -1 {
        content := Trim(parts[k]);
      }
    }
    if content == [] || |content| < 100 {
      content := Placeholder(n);
    }
  }

  /** No heading pattern matched, the marker of solution `n` occurs nowhere
      in the document, and the pieces are stretches of the document. */
  ghost predicate NothingMarked(doc: string, n: nat, rx: PatternResults) {
    && (forall k :: 0 <= k < |rx.detailMatches| ==> rx.detailMatches[k].None?)
    && (forall p :: !OccursAt(doc, SolutionMarker(n), p))
    && PiecesOf(doc, rx.parts)
  }

  /** The text from a found start up to the solution's end, trimmed; empty
      when no start was found. */
  function LocatedText(doc: string, startIdx: int, n: nat, nextPartIdx: int): string
    requires startIdx == -1 || 0 <= startIdx <= |doc|
    requires -1 <= nextPartIdx <= |doc|
  {
    if startIdx == -1 then "" else RangeText(doc, startIdx, SolutionEnd(doc, startIdx, n, nextPartIdx))
  }

  /** What the review effect stores for solution `n`: the fallbacks applied
      to the text from the start found up to the solution's end. */
  function StoredContent(doc: string, n: nat, rx: PatternResults): (c: string)
    requires -1 <= rx.nextPartIdx <= |doc|
    ensures |c| >= 100
  {
    var located := LocatedText(doc, SolutionStart(doc, n, rx), n, rx.nextPartIdx);
    ChosenContent(located, rx.parts, n);
    Chosen(located, rx.parts, n)
  }

  /** A document that never names solution `n` and has no detailed heading
      match gets no start and the notice. */
  lemma NothingMarkedGivesNotice(doc: string, n: nat, rx: PatternResults)
    requires -1 <= rx.nextPartIdx <= |doc|
    requires NothingMarked(doc, n, rx)
    ensures SolutionStart(doc, n, rx) == -1
    ensures StoredContent(doc, n, rx) == Placeholder(n)
  {
    assert FirstAccepted(-1, rx.detailMatches, 0) == -1;
    var located := LocatedText(doc, SolutionStart(doc, n, rx), n, rx.nextPartIdx);
    assert |located| == 0;
    NoMarkerNoDetailedPart(doc, rx.parts, n);
    ChosenContent(located, rx.parts, n);
  }

  /** The locator: the start, the text up to its end, then the fallbacks.
      Returns the start found (or -1) and the content stored for the
      solution. */
  method LocateSolution(doc: string, n: nat, rx: PatternResults) returns (startIdx: int, content: string)
    requires -1 <= rx.nextPartIdx <= |doc|
    ensures startIdx == SolutionStart(doc, n, rx)
    ensures content == StoredContent(doc, n, rx)
  {
    startIdx := LocateStart(doc, n, rx);
    var located := LocatedText(doc, startIdx, n, rx.nextPartIdx);
    content := ChooseContent(located, rx.parts, n);
  }
}
