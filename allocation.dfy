/** The page budget the generation prompts quote: a page limit split over
    Parts I-II, III, IV (the solutions) and V-VI, each also given in words
    and characters. The budget is advisory text; nothing enforces it. */
module Allocation {
  import opened Types

  /** One A4 page at 13pt and 1.5 line spacing. */
  const WordsPerPage := 350
  const CharsPerPage := 2500

  datatype PartBudget = PartBudget(pages: int, words: int, chars: int)

  datatype PageAllocation = PageAllocation(
    totalPages: int, wordsPerPage: int, charsPerPage: int,
    totalWords: int, totalChars: int, numSolutions: int,
    partI_II: PartBudget, partIII: PartBudget, partIV: PartBudget,
    perSolution: PartBudget, partV_VI: PartBudget)

  /** `Math.round(num / den)`: the nearest integer, halves rounded up. */
  function RoundHalfUp(num: int, den: int): (r: int)
    requires den > 0
    ensures 2 * num - den < 2 * den * r <= 2 * num + den
  {
    (2 * num + den) / (2 * den)
  }

  /** `Math.floor(a / b)` for a non-zero integer divisor of either sign. */
  function FloorDiv(a: int, b: int): (q: int)
    requires b != 0
    ensures b > 0 ==> q * b <= a < q * b + b
    ensures b < 0 ==> q * b >= a > q * b + b
  {
    if b > 0 then a / b else (-a) / (-b)
  }

  /** `userInfo.numSolutions || 3`: zero falls back to the default. */
  function EffectiveSolutions(numSolutions: int): (s: int)
    ensures s != 0
    ensures numSolutions != 0 ==> s == numSolutions
  {
    if numSolutions == 0 then 3 else numSolutions
  }

  function Max(a: int, b: int): int {
    if a >= b then a else b
  }

  function Budget(pages: int): (b: PartBudget)
    ensures b.pages == pages && b.words == pages * WordsPerPage && b.chars == pages * CharsPerPage
  {
    PartBudget(pages, pages * WordsPerPage, pages * CharsPerPage)
  }

  /** `getPageAllocation`: no allocation without a non-zero numeric page
      limit; otherwise 5% rounded for Parts I-II and III (at least one page
      each), 85% rounded for Part IV (at least three pages per solution),
      the residual for Parts V-VI (at least one page), and Part IV divided
      by the number of solutions (at least two pages) per solution. */
  function GetPageAllocation(pageLimit: PageLimit, numSolutions: int): (r: Option<PageAllocation>)
    ensures r.Some? <==> pageLimit.Pages? && pageLimit.count != 0
    ensures r.Some? ==>
      var a, p, s := r.value, pageLimit.count, EffectiveSolutions(numSolutions);
      && a.totalPages == p && a.numSolutions == s
      && a.partI_II.pages >= 1 && a.partIII.pages >= 1 && a.partV_VI.pages >= 1
      && a.partIV.pages >= 3 * s
      && a.partV_VI.pages >= p - a.partI_II.pages - a.partIII.pages - a.partIV.pages
      && a.perSolution.pages >= 2
      && a.totalWords == p * WordsPerPage && a.totalChars == p * CharsPerPage
      && WellPriced(a.partI_II) && WellPriced(a.partIII) && WellPriced(a.partIV)
      && WellPriced(a.perSolution) && WellPriced(a.partV_VI)
  {
    match pageLimit
    case Blank => None
    case Pages(pages) =>
      if pages == 0 then None
      else
        var s := EffectiveSolutions(numSolutions);
        var partI_II := Max(1, RoundHalfUp(pages, 20));
        var partIII := Max(1, RoundHalfUp(pages, 20));
        var partIV := Max(s * 3, RoundHalfUp(17 * pages, 20));
        var partV_VI := Max(1, pages - partI_II - partIII - partIV);
        var perSolution := Max(2, FloorDiv(partIV, s));
        Some(PageAllocation(
          pages, WordsPerPage, CharsPerPage, pages * WordsPerPage, pages * CharsPerPage, s,
          Budget(partI_II), Budget(partIII), Budget(partIV), Budget(perSolution), Budget(partV_VI)))
  }

  /** A part's words and characters follow from its pages. */
  predicate WellPriced(b: PartBudget) {
    b.words == b.pages * WordsPerPage && b.chars == b.pages * CharsPerPage
  }

  function PartsTotal(a: PageAllocation): int {
    a.partI_II.pages + a.partIII.pages + a.partIV.pages + a.partV_VI.pages
  }

  /** The four parts add up to the page limit exactly when the residual
      left for Parts V-VI is at least one page; otherwise Parts V-VI are
      clamped to one page and the parts exceed the limit. */
  lemma PartsSumIffResidualPositive(pageLimit: PageLimit, numSolutions: int)
    requires GetPageAllocation(pageLimit, numSolutions).Some?
    ensures var a := GetPageAllocation(pageLimit, numSolutions).value;
      var residual := a.totalPages - a.partI_II.pages - a.partIII.pages - a.partIV.pages;
      && (PartsTotal(a) == a.totalPages <==> residual >= 1)
      && (residual < 1 ==> PartsTotal(a) > a.totalPages && a.partV_VI.pages == 1)
  {
  }

  /** With 30 pages and three solutions the parts are 2 + 2 + 26 + 1 = 31. */
  lemma ThirtyPagesThreeSolutions()
    ensures var a := GetPageAllocation(Pages(30), 3).value;
      && a.partI_II.pages == 2 && a.partIII.pages == 2
      && a.partIV.pages == 26 && a.partV_VI.pages == 1
      && a.perSolution.pages == 8
      && PartsTotal(a) == 31
  {
  }

  /** For any positive number of solutions and any non-zero page limit, the
      per-solution budget is exactly Part IV divided by the number of
      solutions, rounded down (the two-page floor never applies), so it
      never exceeds an equal share of Part IV. */
  lemma {:induction false} SolutionsFitInPartIV(pages: int, numSolutions: int)
    requires pages != 0 && numSolutions >= 1
    ensures var a := GetPageAllocation(Pages(pages), numSolutions).value;
      && a.perSolution.pages == FloorDiv(a.partIV.pages, numSolutions)
      && a.perSolution.pages * numSolutions <= a.partIV.pages
      && a.partIV.pages < (a.perSolution.pages + 1) * numSolutions
  {
    var a := GetPageAllocation(Pages(pages), numSolutions).value;
    EqualShare(a.partIV.pages, numSolutions);
  }

  /** A part of at least three pages per solution gives each solution at
      least three pages when divided equally, rounded down. */
  lemma EqualShare(partIV: int, s: int)
    requires s >= 1 && partIV >= 3 * s
    ensures var q := FloorDiv(partIV, s);
      && q >= 3 && q * s <= partIV < (q + 1) * s
  {
    var q := FloorDiv(partIV, s);
    assert (q + 1) * s == q * s + s;
    if q < 3 {
      MulMonotone(q + 1, 3, s);
    }
  }

  lemma MulMonotone(x: int, y: int, s: int)
    requires x <= y && s >= 0
    ensures x * s <= y * s
  {
    assert y * s - x * s == (y - x) * s;
  }
}

/** `truncateForPrompt`: reference documents longer than the prompt budget
    are cut, and a notice records how much was dropped. The notice's wording
    and its locale-formatted number are left to the renderer. */
module Truncation {
  import opened Types
  import Allocation

  /** About 80,000 characters of reference material go into one prompt. */
  const MaxRefDocsForPrompt := 80000

  datatype TruncationNotice = TruncationNotice(removedChars: nat, estimatedPages: int)

  /** The text that goes into the prompt: the kept prefix, then the notice
      when something was cut. */
  datatype PromptText = PromptText(kept: string, notice: Option<TruncationNotice>)

  function TruncateForPrompt(text: string, maxChars: nat): (r: PromptText)
    ensures r.notice.None? <==> |text| <= maxChars
    ensures r.kept <= text
    ensures |r.kept| == if |text| <= maxChars then |text| else maxChars
    ensures r.notice.Some? ==>
      && |r.kept| + r.notice.value.removedChars == |text|
      && 2 * Allocation.CharsPerPage * r.notice.value.estimatedPages <= 2 * r.notice.value.removedChars + Allocation.CharsPerPage
      && 2 * r.notice.value.removedChars - Allocation.CharsPerPage < 2 * Allocation.CharsPerPage * r.notice.value.estimatedPages
  {
    if text == [] || |text| <= maxChars then PromptText(text, None)
    else
      var removed := |text| - maxChars;
      PromptText(text[..maxChars], Some(TruncationNotice(removed, Allocation.RoundHalfUp(removed, Allocation.CharsPerPage))))
  }

  /** Truncating what was already truncated keeps the same prefix. */
  lemma TruncateIdempotent(text: string, maxChars: nat)
    ensures TruncateForPrompt(TruncateForPrompt(text, maxChars).kept, maxChars).kept ==
            TruncateForPrompt(text, maxChars).kept
    ensures TruncateForPrompt(TruncateForPrompt(text, maxChars).kept, maxChars).notice.None?
  {
  }
}
