/** The step transition of `generateNextSection`: from the current step,
    the flow and the configured number of solutions to the step that comes
    next and whether the streamed text is appended to the document. */
module Transitions {
  import opened Types
  import opened Outline
  import Allocation

  /** What running the current step does: the step it moves to, and whether
      the reply is appended to the full document. */
  datatype StepPlan = StepPlan(next: int, append: bool)

  function Go(s: GenerationStep, append: bool): StepPlan {
    StepPlan(s.Value(), append)
  }

  /** The entries of the standard flow's lookup table, for the current steps
      PART_I_II (value 2) to PART_V_VI (value 14) in order. The writing step
      of a solution hands over to its review step without appending; the
      review step sends the next writing prompt. */
  function StandardTable(numSolutions: int): seq<StepPlan> {
    [Go(PART_III, true),               // PART_I_II
     Go(PART_IV_SOL1, true),           // PART_III
     Go(PART_IV_SOL1_REVIEW, false),   // PART_IV_SOL1
     Go(PART_IV_SOL2, true),           // PART_IV_SOL1_REVIEW
     Go(PART_IV_SOL2_REVIEW, false),   // PART_IV_SOL2
     Go(PART_IV_SOL3, true),           // PART_IV_SOL2_REVIEW
     Go(PART_IV_SOL3_REVIEW, false),   // PART_IV_SOL3
     if Allocation.EffectiveSolutions(numSolutions) > 3 then Go(PART_IV_SOL4, true)
     else Go(PART_V_VI, true),         // PART_IV_SOL3_REVIEW
     Go(PART_IV_SOL4_REVIEW, false),   // PART_IV_SOL4
     Go(PART_IV_SOL5, true),           // PART_IV_SOL4_REVIEW
     Go(PART_IV_SOL5_REVIEW, false),   // PART_IV_SOL5
     Go(PART_V_VI, true),              // PART_IV_SOL5_REVIEW
     Go(COMPLETED, false)]             // PART_V_VI
  }

  /** The lookup in the standard table, keyed by the numeric value of the
      current step as the JavaScript record is. */
  function StandardPlan(step: int, numSolutions: int): (r: Option<StepPlan>)
    ensures r.Some? <==> PART_I_II.Value() <= step <= PART_V_VI.Value()
    ensures r.Some? ==> step < r.value.next <= COMPLETED.Value()
  {
    if PART_I_II.Value() <= step <= PART_V_VI.Value() then Some(StandardTable(numSolutions)[step - 2]) else None
  }

  /** The whole transition. `None` means there is no prompt for the current
      step and the call returns without changing anything. */
  function NextStep(step: int, flow: Flow, numSolutions: int): (r: Option<StepPlan>)
    ensures r.Some? ==> step < r.value.next <= CompletedStepId(flow)
  {
    if step == OUTLINE.Value() then
      Some(StepPlan(if flow.Custom? then SectionStepId(0) else PART_I_II.Value(), true))
    else if flow.Custom? && step >= 2 then
      var k, n := step - 2, flow.sectionCount;
      if k < n - 1 then Some(StepPlan(step + 1, true))
      else if k == n - 1 then Some(StepPlan(CompletedStepId(flow), false))
      else None
    else StandardPlan(step, numSolutions)
  }

  /** The steps there is a prompt for: the outline and Parts I-II to V-VI
      in the standard flow; the outline and every section in the custom
      flow. Input, appendix and completion have none. */
  lemma NextStepDefinedIff(step: int, flow: Flow, numSolutions: int)
    ensures flow.Standard? ==>
      (NextStep(step, flow, numSolutions).Some? <==> OUTLINE.Value() <= step <= PART_V_VI.Value())
    ensures flow.Custom? ==>
      (NextStep(step, flow, numSolutions).Some? <==>
         step == OUTLINE.Value() || SectionStepId(0) <= step < SectionStepId(flow.sectionCount))
  {
  }

  /** In the standard flow the reply is kept except at the writing step of a
      solution (the review step that follows writes nothing new) and at
      Parts V-VI (the completion notice). */
  lemma StandardAppendIff(step: int, numSolutions: int)
    requires NextStep(step, Standard, numSolutions).Some?
    ensures !NextStep(step, Standard, numSolutions).value.append <==>
      step == PART_V_VI.Value() || exists k :: 1 <= k <= 5 && step == SolutionStep(k).Value()
  {
    if step == PART_V_VI.Value() {
    } else if exists k :: 1 <= k <= 5 && step == SolutionStep(k).Value() {
      var k :| 1 <= k <= 5 && step == SolutionStep(k).Value();
      assert step == 2 + 2 * k;
    } else {
      assert step != 4 && step != 6 && step != 8 && step != 10 && step != 12 by {
        assert SolutionStep(1).Value() == 4 && SolutionStep(2).Value() == 6 &&
               SolutionStep(3).Value() == 8 && SolutionStep(4).Value() == 10 &&
               SolutionStep(5).Value() == 12;
      }
    }
  }

  /** In the custom flow every section's reply is kept except the last one's,
      which moves straight to completion; the appendix step is never entered
      by a transition. */
  lemma CustomTransitions(n: nat, k: nat)
    requires n >= 1 && k < n
    ensures NextStep(OUTLINE.Value(), Custom(n), 0) == Some(StepPlan(SectionStepId(0), true))
    ensures k < n - 1 ==> NextStep(SectionStepId(k), Custom(n), 0) == Some(StepPlan(SectionStepId(k + 1), true))
    ensures k == n - 1 ==> NextStep(SectionStepId(k), Custom(n), 0) == Some(StepPlan(CompletedStepId(Custom(n)), false))
    ensures forall step, ns :: NextStep(step, Custom(n), ns).Some? ==>
              NextStep(step, Custom(n), ns).value.next != AppendixStepId(Custom(n))
  {
  }

  /** The custom flow and the standard flow leave the outline for the same
      step number. */
  lemma OutlineLeadsToStepTwo(flow: Flow, numSolutions: int)
    ensures NextStep(OUTLINE.Value(), flow, numSolutions) == Some(StepPlan(PART_I_II.Value(), true))
  {
  }

  /** The steps visited when the user keeps pressing "continue" from `step`
      and every step succeeds, ending at the first step without a prompt. */
  function Walk(step: int, flow: Flow, numSolutions: int): (w: seq<int>)
    ensures |w| >= 1 && w[0] == step
    decreases CompletedStepId(flow) - step
  {
    match NextStep(step, flow, numSolutions)
    case None => [step]
    case Some(p) => [step] + Walk(p.next, flow, numSolutions)
  }

  /** Each step of `w` comes strictly before the ones after it. */
  predicate Increasing(w: seq<int>) {
    forall i, j :: 0 <= i < j < |w| ==> w[i] < w[j]
  }

  /** A step before the first of an increasing walk extends it. */
  lemma IncreasingCons(x: int, rest: seq<int>)
    requires |rest| > 0 && x < rest[0] && Increasing(rest)
    ensures Increasing([x] + rest)
  {
    var w := [x] + rest;
    forall i, j | 0 <= i < j < |w| ensures w[i] < w[j] {
      if i == 0 {
        assert rest[0] <= rest[j - 1];
      } else {
        assert rest[i - 1] < rest[j - 1];
      }
    }
  }

  /** The visited steps strictly increase. */
  lemma {:induction false} WalkIncreasing(step: int, flow: Flow, numSolutions: int)
    ensures Increasing(Walk(step, flow, numSolutions))
    decreases CompletedStepId(flow) - step
  {
    match NextStep(step, flow, numSolutions)
    case None =>
    case Some(p) =>
      WalkIncreasing(p.next, flow, numSolutions);
      WalkUnfold(step, flow, numSolutions, p.next, p.append);
      IncreasingCons(step, Walk(p.next, flow, numSolutions));
  }

  /** The step a walk ends at. */
  function Last(w: seq<int>): int
    requires |w| > 0
  {
    w[|w| - 1]
  }

  /** The walk stops at the first step without a prompt. */
  lemma {:induction false} WalkStopsWithoutPrompt(step: int, flow: Flow, numSolutions: int)
    ensures NextStep(Last(Walk(step, flow, numSolutions)), flow, numSolutions).None?
    decreases CompletedStepId(flow) - step
  {
    match NextStep(step, flow, numSolutions)
    case None =>
    case Some(p) =>
      WalkStopsWithoutPrompt(p.next, flow, numSolutions);
      WalkLastUnfold(step, flow, numSolutions, p.next, p.append);
  }

  /** A walk and the walk from the next step end at the same step. */
  lemma WalkLastUnfold(step: int, flow: Flow, numSolutions: int, next: int, append: bool)
    requires NextStep(step, flow, numSolutions) == Some(StepPlan(next, append))
    ensures Last(Walk(step, flow, numSolutions)) == Last(Walk(next, flow, numSolutions))
  {
    WalkUnfold(step, flow, numSolutions, next, append);
    LastCons(step, Walk(next, flow, numSolutions));
  }

  lemma LastCons(x: int, rest: seq<int>)
    requires |rest| > 0
    ensures Last([x] + rest) == Last(rest)
  {
  }

  /** One step of a walk. */
  lemma WalkUnfold(step: int, flow: Flow, numSolutions: int, next: int, append: bool)
    requires NextStep(step, flow, numSolutions) == Some(StepPlan(next, append))
    ensures Walk(step, flow, numSolutions) == [step] + Walk(next, flow, numSolutions)
  {
  }

  /** The standard table, step by step: no prompt at the input form; the
      outline, Parts I-II and III, then the first solution and its review. */
  lemma StandardTableFirstSolution(numSolutions: int)
    ensures NextStep(0, Standard, numSolutions).None?
    ensures NextStep(1, Standard, numSolutions) == Some(StepPlan(2, true))
    ensures NextStep(2, Standard, numSolutions) == Some(StepPlan(3, true))
    ensures NextStep(3, Standard, numSolutions) == Some(StepPlan(4, true))
    ensures NextStep(4, Standard, numSolutions) == Some(StepPlan(5, false))
    ensures NextStep(5, Standard, numSolutions) == Some(StepPlan(6, true))
  {
  }

  /** The second and third solutions; the third's review goes on to the
      fourth only with more than three solutions. */
  lemma StandardTableMiddleSolutions(numSolutions: int)
    ensures NextStep(6, Standard, numSolutions) == Some(StepPlan(7, false))
    ensures NextStep(7, Standard, numSolutions) == Some(StepPlan(8, true))
    ensures NextStep(8, Standard, numSolutions) == Some(StepPlan(9, false))
    ensures NextStep(9, Standard, numSolutions) ==
            Some(StepPlan(if Allocation.EffectiveSolutions(numSolutions) > 3 then 10 else 14, true))
  {
  }

  /** The fourth and fifth solutions, Parts V-VI, and the steps after. */
  lemma StandardTableLastSolutions(numSolutions: int)
    ensures NextStep(10, Standard, numSolutions) == Some(StepPlan(11, false))
    ensures NextStep(11, Standard, numSolutions) == Some(StepPlan(12, true))
    ensures NextStep(12, Standard, numSolutions) == Some(StepPlan(13, false))
    ensures NextStep(13, Standard, numSolutions) == Some(StepPlan(14, true))
    ensures NextStep(14, Standard, numSolutions) == Some(StepPlan(16, false))
    ensures NextStep(15, Standard, numSolutions).None?
    ensures NextStep(16, Standard, numSolutions).None?
  {
  }

  /** With at most three solutions the standard flow goes from the outline
      through three solutions and straight to Parts V-VI and completion. */
  lemma StandardWalkUpToThreeSolutions(numSolutions: int)
    requires Allocation.EffectiveSolutions(numSolutions) <= 3
    ensures Walk(OUTLINE.Value(), Standard, numSolutions) == [1, 2, 3, 4, 5, 6, 7, 8, 9, 14, 16]
  {
    StandardTableFirstSolution(numSolutions);
    StandardTableMiddleSolutions(numSolutions);
    StandardTableLastSolutions(numSolutions);
    var ns := numSolutions;
    WalkUnfold(14, Standard, ns, 16, false);
    WalkUnfold(9, Standard, ns, 14, true);
    WalkUnfold(8, Standard, ns, 9, false);
    WalkUnfold(7, Standard, ns, 8, true);
    WalkUnfold(6, Standard, ns, 7, false);
    WalkUnfold(5, Standard, ns, 6, true);
    WalkUnfold(4, Standard, ns, 5, false);
    WalkUnfold(3, Standard, ns, 4, true);
    WalkUnfold(2, Standard, ns, 3, true);
    WalkUnfold(1, Standard, ns, 2, true);
  }

  /** With more than three solutions the standard flow visits all five
      solutions: the review of the fourth always moves on to the fifth, so
      four configured solutions still give five. */
  lemma StandardWalkMoreThanThreeSolutions(numSolutions: int)
    requires Allocation.EffectiveSolutions(numSolutions) > 3
    ensures Walk(OUTLINE.Value(), Standard, numSolutions) ==
            [1, 2, 3, 4, 5, 6, 7, 8, 9, 10, 11, 12, 13, 14, 16]
  {
    StandardTableFirstSolution(numSolutions);
    StandardTableMiddleSolutions(numSolutions);
    StandardTableLastSolutions(numSolutions);
    var ns := numSolutions;
    WalkUnfold(14, Standard, ns, 16, false);
    WalkUnfold(13, Standard, ns, 14, true);
    WalkUnfold(12, Standard, ns, 13, false);
    WalkUnfold(11, Standard, ns, 12, true);
    WalkUnfold(10, Standard, ns, 11, false);
    WalkUnfold(9, Standard, ns, 10, true);
    WalkUnfold(8, Standard, ns, 9, false);
    WalkUnfold(7, Standard, ns, 8, true);
    WalkUnfold(6, Standard, ns, 7, false);
    WalkUnfold(5, Standard, ns, 6, true);
    WalkUnfold(4, Standard, ns, 5, false);
    WalkUnfold(3, Standard, ns, 4, true);
    WalkUnfold(2, Standard, ns, 3, true);
    WalkUnfold(1, Standard, ns, 2, true);
  }

  /** The custom flow from section `k` on: every later section, then
      completion. */
  lemma {:induction false} CustomWalkFromSection(n: nat, k: nat)
    requires k < n
    ensures Walk(SectionStepId(k), Custom(n), 0) ==
            seq(n - k, i => SectionStepId(k + i)) + [CompletedStepId(Custom(n))]
    decreases n - k
  {
    var tail := [CompletedStepId(Custom(n))];
    if k == n - 1 {
      assert Walk(CompletedStepId(Custom(n)), Custom(n), 0) == tail;
      assert seq(n - k, i => SectionStepId(k + i)) == [SectionStepId(k)];
    } else {
      CustomWalkFromSection(n, k + 1);
      assert seq(n - k, i => SectionStepId(k + i)) ==
             [SectionStepId(k)] + seq(n - (k + 1), i => SectionStepId(k + 1 + i));
    }
  }

  /** The custom flow visits the outline, each section in order, then
      completion. */
  lemma CustomWalk(n: nat)
    requires n >= 1
    ensures Walk(OUTLINE.Value(), Custom(n), 0) ==
            [OUTLINE.Value()] + seq(n, i => SectionStepId(i)) + [CompletedStepId(Custom(n))]
  {
    CustomWalkFromSection(n, 0);
    assert seq(n - 0, i => SectionStepId(0 + i)) == seq(n, i => SectionStepId(i));
  }

  /** `getSolutionNumberFromStep`: the solution a review step reviews, 0 for
      any other step. */
  function SolutionNumberFromStep(step: int): (n: int)
    ensures 0 <= n <= 5
    ensures n != 0 ==> step == ReviewStep(n).Value()
  {
    if step == PART_IV_SOL1_REVIEW.Value() then 1
    else if step == PART_IV_SOL2_REVIEW.Value() then 2
    else if step == PART_IV_SOL3_REVIEW.Value() then 3
    else if step == PART_IV_SOL4_REVIEW.Value() then 4
    else if step == PART_IV_SOL5_REVIEW.Value() then 5
    else 0
  }

  /** `isReviewStep`. */
  predicate IsReviewStep(step: int) {
    step in [PART_IV_SOL1_REVIEW.Value(), PART_IV_SOL2_REVIEW.Value(), PART_IV_SOL3_REVIEW.Value(),
             PART_IV_SOL4_REVIEW.Value(), PART_IV_SOL5_REVIEW.Value()]
  }

  /** A step is a review step exactly when it has a solution number, and the
      review step of solution `k` has number `k`. */
  lemma ReviewStepIff(step: int)
    ensures IsReviewStep(step) <==> SolutionNumberFromStep(step) != 0
    ensures forall k :: 1 <= k <= 5 ==> SolutionNumberFromStep(ReviewStep(k).Value()) == k
  {
  }
}
