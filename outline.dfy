/** The custom-template flow: the reduction of a template outline to the
    sections that get one generation step each, whether the custom flow is
    on, and how its steps are numbered and labelled. */
module Outline {
  import opened Types

  /** The next section is strictly deeper than section `i`. */
  predicate HasChild(s: seq<Section>, i: int)
    requires 0 <= i < |s|
  {
    i + 1 < |s| && s[i + 1].level > s[i].level
  }

  /** The first index at or after `j` whose level is not deeper than `lvl`:
      the end of the run of strictly deeper sections starting at `j`. */
  function SubtreeEnd(s: seq<Section>, j: nat, lvl: int): (k: nat)
    requires j <= |s|
    ensures j <= k <= |s|
    ensures forall m :: j <= m < k ==> s[m].level > lvl
    ensures k < |s| ==> s[k].level <= lvl
    decreases |s| - j
  {
    if j < |s| && s[j].level > lvl then SubtreeEnd(s, j + 1, lvl) else j
  }

  /** The indices the cursor keeps, walking from position `i`: a level-1
      section is kept when it has no child; any other section is kept and
      the cursor jumps over the strictly deeper sections that follow it. */
  function KeptFrom(s: seq<Section>, i: nat): (r: seq<nat>)
    requires i <= |s|
    ensures forall k :: 0 <= k < |r| ==> i <= r[k] < |s|
    ensures forall a, b :: 0 <= a < b < |r| ==> r[a] < r[b]
    ensures i < |s| ==> |r| > 0
    decreases |s| - i
  {
    if i == |s| then []
    else if s[i].level == 1 then
      var rest := KeptFrom(s, i + 1);
      if HasChild(s, i) then rest else [i] + rest
    else
      [i] + KeptFrom(s, SubtreeEnd(s, i + 1, s[i].level))
  }

  /** The sections at the given indices, in that order. */
  function Pick(s: seq<Section>, idx: seq<nat>): (r: seq<Section>)
    requires forall k :: 0 <= k < |idx| ==> idx[k] < |s|
    ensures |r| == |idx| && forall k :: 0 <= k < |idx| ==> r[k] == s[idx[k]]
  {
    seq(|idx|, k requires 0 <= k < |idx| => s[idx[k]])
  }

  /** The reducer: the kept sections, or the whole outline when none is kept. */
  function ReduceSections(s: seq<Section>): (r: seq<Section>)
    ensures |s| > 0 ==> |r| > 0
  {
    var kept := Pick(s, KeptFrom(s, 0));
    if |kept| > 0 then kept else s
  }

  /** `validCustomSections`: nothing without a parsed template; otherwise the
      reduced outline. A template without `sections` has an empty outline. */
  function ReducedSections(template: Option<Template>): seq<Section> {
    if template.None? then [] else ReduceSections(template.value.sections)
  }

  lemma PickCons(s: seq<Section>, i: nat, rest: seq<nat>)
    requires i < |s| && forall k :: 0 <= k < |rest| ==> rest[k] < |s|
    ensures Pick(s, [i] + rest) == [s[i]] + Pick(s, rest)
  {
  }

  /** The sections kept from position `i` on. */
  function KeptSections(s: seq<Section>, i: nat): seq<Section>
    requires i <= |s|
  {
    Pick(s, KeptFrom(s, i))
  }

  /** One cursor step: a level-1 section with a child is skipped, any
      other level-1 section is kept, and a deeper section is kept with its
      subtree skipped. */
  lemma KeptStep(s: seq<Section>, i: nat)
    requires i < |s|
    ensures s[i].level == 1 && HasChild(s, i) ==> KeptSections(s, i) == KeptSections(s, i + 1)
    ensures s[i].level == 1 && !HasChild(s, i) ==> KeptSections(s, i) == [s[i]] + KeptSections(s, i + 1)
    ensures s[i].level != 1 ==>
      KeptSections(s, i) == [s[i]] + KeptSections(s, SubtreeEnd(s, i + 1, s[i].level))
  {
    if s[i].level == 1 {
      if !HasChild(s, i) {
        PickCons(s, i, KeptFrom(s, i + 1));
      }
    } else {
      PickCons(s, i, KeptFrom(s, SubtreeEnd(s, i + 1, s[i].level)));
    }
  }

  lemma AppendOne(result: seq<Section>, x: Section, rest: seq<Section>)
    ensures result + ([x] + rest) == (result + [x]) + rest
  {
  }

  /** The memoised reducer of App.tsx: a cursor loop that pushes kept
      sections and moves the cursor past each kept section's subtree. */
  method ValidCustomSections(template: Option<Template>) returns (valid: seq<Section>)
    ensures valid == ReducedSections(template)
  {
    if template.None? {
      return [];
    }
    var sections := template.value.sections;
    var result: seq<Section> := [];
    var i := 0;
    while i < |sections|
      invariant 0 <= i <= |sections|
      invariant result + KeptSections(sections, i) == KeptSections(sections, 0)
      decreases |sections| - i
    {
      KeptStep(sections, i);
      var current := sections[i];
      var hasChild := false;
      if i + 1 < |sections| && sections[i + 1].level > current.level {
        hasChild := true;
      }
      assert hasChild == HasChild(sections, i);
      if current.level == 1 {
        if !hasChild {
          AppendOne(result, current, KeptSections(sections, i + 1));
          result := result + [current];
        }
      } else {
        AppendOne(result, current, KeptSections(sections, SubtreeEnd(sections, i + 1, current.level)));
        result := result + [current];
        var nextIdx := SkipSubtree(sections, i + 1, current.level);
        i := nextIdx - 1;
      }
      i := i + 1;
    }
    valid := if |result| > 0 then result else sections;
  }

  /** The inner cursor loop: advances past the sections deeper than `lvl`. */
  method SkipSubtree(sections: seq<Section>, from: nat, lvl: int) returns (nextIdx: nat)
    requires from <= |sections|
    ensures nextIdx == SubtreeEnd(sections, from, lvl)
  {
    nextIdx := from;
    while nextIdx < |sections| && sections[nextIdx].level > lvl
      invariant from <= nextIdx <= |sections|
      invariant SubtreeEnd(sections, nextIdx, lvl) == SubtreeEnd(sections, from, lvl)
      decreases |sections| - nextIdx
    {
      nextIdx := nextIdx + 1;
    }
  }

  /** A kept level-1 section has no child. */
  lemma {:induction false} KeptLevelOneHasNoChild(s: seq<Section>, i: nat, j: nat)
    requires i <= |s| && j in KeptFrom(s, i)
    ensures s[j].level == 1 ==> !HasChild(s, j)
    decreases |s| - i
  {
    if i < |s| {
      if s[i].level == 1 {
        if j != i || HasChild(s, i) {
          KeptLevelOneHasNoChild(s, i + 1, j);
        }
      } else if j != i {
        KeptLevelOneHasNoChild(s, SubtreeEnd(s, i + 1, s[i].level), j);
      }
    }
  }

  /** A kept section of any other level has its whole run of strictly
      deeper followers skipped. */
  lemma {:induction false} KeptSectionSkipsItsSubtree(s: seq<Section>, i: nat, j: nat, p: nat)
    requires i <= |s| && j in KeptFrom(s, i)
    requires s[j].level != 1 && j < p < SubtreeEnd(s, j + 1, s[j].level)
    ensures p !in KeptFrom(s, i)
    decreases |s| - i
  {
    if i < |s| {
      if s[i].level == 1 {
        KeptSectionSkipsItsSubtree(s, i + 1, j, p);
      } else if j == i {
        assert p < SubtreeEnd(s, i + 1, s[i].level);
      } else {
        KeptSectionSkipsItsSubtree(s, SubtreeEnd(s, i + 1, s[i].level), j, p);
      }
    }
  }

  /** Every section from the cursor on is accounted for: it is kept, or it is
      a level-1 heading with a child, or it lies in the skipped subtree of a
      kept section of another level. */
  lemma {:induction false} EverySectionAccountedFor(s: seq<Section>, i: nat, p: nat)
    requires i <= p < |s|
    ensures || p in KeptFrom(s, i)
            || (s[p].level == 1 && HasChild(s, p))
            || (exists j :: j in KeptFrom(s, i) && j < p && s[j].level != 1 &&
                           p < SubtreeEnd(s, j + 1, s[j].level))
    decreases |s| - i
  {
    if s[i].level == 1 {
      if p > i {
        EverySectionAccountedFor(s, i + 1, p);
      }
    } else if p > i {
      var end := SubtreeEnd(s, i + 1, s[i].level);
      if p < end {
        assert i in KeptFrom(s, i);
      } else {
        EverySectionAccountedFor(s, end, p);
      }
    }
  }

  /** The fallback to the unfiltered outline is never needed: a non-empty
      outline always keeps at least one section. */
  lemma FallbackNeverTaken(s: seq<Section>)
    ensures ReduceSections(s) == Pick(s, KeptFrom(s, 0))
  {
  }

  /** All sections at level one: every section is kept, in order. */
  lemma {:induction false} FlatOutlineKeptWhole(s: seq<Section>, i: nat)
    requires i <= |s| && forall k :: 0 <= k < |s| ==> s[k].level == 1
    ensures Pick(s, KeptFrom(s, i)) == s[i..]
    decreases |s| - i
  {
    if i < |s| {
      FlatOutlineKeptWhole(s, i + 1);
      PickCons(s, i, KeptFrom(s, i + 1));
      assert s[i..] == [s[i]] + s[i + 1..];
    }
  }

  lemma FlatOutlineUnchanged(s: seq<Section>)
    requires forall k :: 0 <= k < |s| ==> s[k].level == 1
    ensures ReduceSections(s) == s
  {
    FlatOutlineKeptWhole(s, 0);
  }

  /** An example outline: part I with I.1 (holding item a) and I.2, then
      part II without children. Part I's heading and item a are dropped. */
  lemma ExampleOutline()
    ensures var s := [Section("1", 1, "I", None), Section("1.1", 2, "I.1", None),
                      Section("1.1.1", 3, "a", None), Section("1.2", 2, "I.2", None),
                      Section("2", 1, "II", None)];
      ReduceSections(s) == [s[1], s[3], s[4]]
  {
    var s := [Section("1", 1, "I", None), Section("1.1", 2, "I.1", None),
              Section("1.1.1", 3, "a", None), Section("1.2", 2, "I.2", None),
              Section("2", 1, "II", None)];
    assert SubtreeEnd(s, 2, 2) == 3;
    assert SubtreeEnd(s, 4, 2) == 4;
    assert KeptFrom(s, 4) == [4];
    assert KeptFrom(s, 3) == [3, 4];
    assert KeptFrom(s, 1) == [1, 3, 4];
    assert KeptFrom(s, 0) == [1, 3, 4];
  }

  /** The two step numberings. */
  datatype Flow = Standard | Custom(sectionCount: nat)

  /** `isCustomFlow`: on exactly when the reduced outline is non-empty. */
  function FlowOf(valid: seq<Section>): (f: Flow)
    ensures f.Custom? <==> |valid| > 0
    ensures f.Custom? ==> f.sectionCount == |valid|
  {
    if |valid| > 0 then Custom(|valid|) else Standard
  }

  /** The custom flow is on exactly when the template parsed and has a
      non-empty outline. */
  lemma CustomFlowIff(template: Option<Template>)
    ensures FlowOf(ReducedSections(template)).Custom? <==>
            template.Some? && |template.value.sections| > 0
  {
  }

  /** Step `2 + k` writes the `k`-th reduced section (custom flow). */
  function SectionStepId(k: int): int {
    2 + k
  }

  function AppendixStepId(f: Flow): int {
    match f
    case Standard => APPENDIX.Value()
    case Custom(n) => 2 + n
  }

  /** `COMPLETED_STEP_ID`. */
  function CompletedStepId(f: Flow): (r: int)
    ensures r == AppendixStepId(f) + 1
    ensures f.Custom? ==> r == SectionStepId(f.sectionCount) + 1
  {
    match f
    case Standard => COMPLETED.Value()
    case Custom(n) => 2 + n + 1
  }

  datatype StepInfo = StepInfo(caption: string, description: string)

  /** The sidebar label of a section: its title, cut to 25 characters and
      an ellipsis when longer. */
  function SectionLabel(title: string): (caption: string)
    ensures |title| <= 25 ==> caption == title
    ensures |title| > 25 ==> |caption| == 28 && caption[..25] == title[..25] && caption[25..] == "..."
  {
    if |title| > 25 then title[..25] + "..." else title
  }

  const SectionDescriptionPrefix := "Viết mục: "

  /** The entry of one reduced section. */
  function SectionInfo(section: Section): StepInfo {
    StepInfo(SectionLabel(section.title), SectionDescriptionPrefix + section.title)
  }

  /** The `forEach` over the reduced sections: entry `2 + idx` for every
      section from `idx` on, other entries untouched. */
  function AddSectionEntries(info: map<int, StepInfo>, valid: seq<Section>, idx: nat): (r: map<int, StepInfo>)
    requires idx <= |valid|
    ensures forall k :: k in r <==> k in info || 2 + idx <= k < 2 + |valid|
    ensures forall k :: k in info && !(2 + idx <= k < 2 + |valid|) ==> r[k] == info[k]
    ensures forall k :: idx <= k < |valid| ==> r[SectionStepId(k)] == SectionInfo(valid[k])
    decreases |valid| - idx
  {
    if idx == |valid| then info
    else AddSectionEntries(info[SectionStepId(idx) := SectionInfo(valid[idx])], valid, idx + 1)
  }

  /** `currentStepsInfo` in the custom flow: input and outline, one entry per
      reduced section, then the appendix and completion entries. (The
      standard flow's table STEPS_INFO lives in constants.ts, which is not
      part of this model.) */
  function CustomStepsInfo(valid: seq<Section>): (info: map<int, StepInfo>)
    ensures forall k :: k in info <==> 0 <= k < |valid| + 4
    ensures forall k :: 0 <= k < |valid| ==> info[SectionStepId(k)] == SectionInfo(valid[k])
    ensures info[AppendixStepId(Custom(|valid|))] == StepInfo("Tạo Phụ lục", "Tài liệu phụ lục")
    ensures info[CompletedStepId(Custom(|valid|))] == StepInfo("Hoàn tất", "Đã xong")
  {
    var base := map[0 := StepInfo("Thông tin", "Thiết lập thông tin cơ bản"),
                    1 := StepInfo("Lập Dàn Ý", "Xây dựng khung sườn cho SKKN")];
    var withSections := AddSectionEntries(base, valid, 0);
    var appendixStep := 2 + |valid|;
    withSections[appendixStep := StepInfo("Tạo Phụ lục", "Tài liệu phụ lục")]
                [appendixStep + 1 := StepInfo("Hoàn tất", "Đã xong")]
  }
}
