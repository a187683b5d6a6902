/** The domain types of the report wizard: the generation steps, the
    outline sections of a custom template, the per-solution records and the
    user settings the generation engine reads. */
module Types {

  /** The standard pipeline, in declaration order. */
  datatype GenerationStep =
    | INPUT_FORM | OUTLINE | PART_I_II | PART_III
    | PART_IV_SOL1 | PART_IV_SOL1_REVIEW
    | PART_IV_SOL2 | PART_IV_SOL2_REVIEW
    | PART_IV_SOL3 | PART_IV_SOL3_REVIEW
    | PART_IV_SOL4 | PART_IV_SOL4_REVIEW
    | PART_IV_SOL5 | PART_IV_SOL5_REVIEW
    | PART_V_VI | APPENDIX | COMPLETED
  {
    /** The numeric value of the enum member. */
    function Value(): (n: nat)
      ensures n <= 16
    {
      match this
      case INPUT_FORM => 0
      case OUTLINE => 1
      case PART_I_II => 2
      case PART_III => 3
      case PART_IV_SOL1 => 4
      case PART_IV_SOL1_REVIEW => 5
      case PART_IV_SOL2 => 6
      case PART_IV_SOL2_REVIEW => 7
      case PART_IV_SOL3 => 8
      case PART_IV_SOL3_REVIEW => 9
      case PART_IV_SOL4 => 10
      case PART_IV_SOL4_REVIEW => 11
      case PART_IV_SOL5 => 12
      case PART_IV_SOL5_REVIEW => 13
      case PART_V_VI => 14
      case APPENDIX => 15
      case COMPLETED => 16
    }
  }

  /** All members in declaration order. */
  const AllSteps: seq<GenerationStep> :=
    [INPUT_FORM, OUTLINE, PART_I_II, PART_III,
     PART_IV_SOL1, PART_IV_SOL1_REVIEW, PART_IV_SOL2, PART_IV_SOL2_REVIEW,
     PART_IV_SOL3, PART_IV_SOL3_REVIEW, PART_IV_SOL4, PART_IV_SOL4_REVIEW,
     PART_IV_SOL5, PART_IV_SOL5_REVIEW, PART_V_VI, APPENDIX, COMPLETED]

  /** The member with a given numeric value, if any. */
  function StepOfValue(n: int): (r: Option<GenerationStep>)
    ensures r.Some? <==> 0 <= n <= 16
    ensures r.Some? ==> r.value.Value() == n
  {
    if 0 <= n <= 16 then Some(AllSteps[n]) else None
  }

  /** The writing step of solution `k` (1..5). */
  function SolutionStep(k: int): (s: GenerationStep)
    requires 1 <= k <= 5
    ensures s.Value() == 2 + 2 * k
  {
    [PART_IV_SOL1, PART_IV_SOL2, PART_IV_SOL3, PART_IV_SOL4, PART_IV_SOL5][k - 1]
  }

  /** The review step of solution `k` (1..5). */
  function ReviewStep(k: int): (s: GenerationStep)
    requires 1 <= k <= 5
    ensures s.Value() == SolutionStep(k).Value() + 1
  {
    [PART_IV_SOL1_REVIEW, PART_IV_SOL2_REVIEW, PART_IV_SOL3_REVIEW,
     PART_IV_SOL4_REVIEW, PART_IV_SOL5_REVIEW][k - 1]
  }

  /** The values are 0..16 in declaration order, and the value determines
      the member. */
  lemma {:induction false} StepValuesInOrder()
    ensures |AllSteps| == 17
    ensures forall i :: 0 <= i < 17 ==> AllSteps[i].Value() == i
    ensures forall s: GenerationStep :: AllSteps[s.Value()] == s
    ensures forall s: GenerationStep, t: GenerationStep :: s.Value() == t.Value() ==> s == t
  {
    forall s: GenerationStep ensures AllSteps[s.Value()] == s {
      match s
      case INPUT_FORM => case OUTLINE => case PART_I_II => case PART_III =>
      case PART_IV_SOL1 => case PART_IV_SOL1_REVIEW => case PART_IV_SOL2 =>
      case PART_IV_SOL2_REVIEW => case PART_IV_SOL3 => case PART_IV_SOL3_REVIEW =>
      case PART_IV_SOL4 => case PART_IV_SOL4_REVIEW => case PART_IV_SOL5 =>
      case PART_IV_SOL5_REVIEW => case PART_V_VI => case APPENDIX => case COMPLETED =>
    }
  }

  /** Parts I-II and III come before every solution step, Parts V-VI,
      the appendix and completion after all of them. */
  lemma SolutionStepsBetweenParts(k: int)
    requires 1 <= k <= 5
    ensures PART_I_II.Value() < PART_III.Value() < SolutionStep(k).Value()
    ensures ReviewStep(k).Value() < PART_V_VI.Value() < APPENDIX.Value() < COMPLETED.Value()
    ensures INPUT_FORM.Value() == 0 && OUTLINE.Value() == 1 && COMPLETED.Value() == 16
  {
  }

  /** The wizard pages of the template-first flow. */
  datatype WizardStep = UPLOAD_TEMPLATE | SETUP_INFO | GENERATION

  /** One heading of a custom template outline, in document (pre-order)
      order. `level` 1 is a top-level part and larger levels are deeper;
      `id` is a dotted label ("1", "1.1"), not an ordering key. */
  datatype Section = Section(id: string, level: int, title: string, suggestedContent: Option<string>)

  /** A structural template extracted from an uploaded report. The header
      fields are kept in the order `Object.entries` yields them. */
  datatype Template = Template(
    name: string,
    sections: seq<Section>,
    rawContent: string,
    contentGuidelines: Option<string>,
    pageLimitFromTemplate: Option<int>,
    headerFields: Option<seq<(string, string)>>)

  /** `UserInfo.pageLimit`: a number, or the empty string for "no limit". */
  datatype PageLimit = Blank | Pages(count: int)

  /** The user settings. `customTemplate` is the serialised template, absent
      when none was uploaded. `numSolutions` is documented as 1-5, default 3. */
  datatype UserInfo = UserInfo(
    topic: string, subject: string, level: string, grade: string,
    school: string, location: string, facilities: string,
    textbook: string, researchSubjects: string, timeframe: string,
    applyAI: string, focus: string,
    referenceDocuments: string,
    skknTemplate: string, customTemplate: Option<string>,
    specialRequirements: string, pageLimit: PageLimit,
    includePracticalExamples: bool, includeStatistics: bool,
    requirementsConfirmed: bool, numSolutions: int)

  datatype Role = User | Model

  datatype ChatMessage = ChatMessage(role: Role, text: string)

  /** The state of the step-by-step generation: the current step, the
      conversation shown in the chat panel, the report written so far,
      whether a reply is streaming, and the last error. */
  datatype GenerationState = GenerationState(
    step: int, messages: seq<ChatMessage>, fullDocument: string,
    isStreaming: bool, error: Option<string>)

  /** The text located for one solution and whether it was approved. */
  datatype SolutionContent = SolutionContent(content: string, isApproved: bool, revisionHistory: seq<string>)

  /** `SolutionsState` as the JavaScript object it is at run time: a record
      keyed by property name. The declared shape has the five keys
      `solution1`..`solution5`, each null or a `SolutionContent`. */
  type SolutionsState = map<string, Option<SolutionContent>>

  const SolutionKeyPrefix := "solution"

  /** The property name of slot `k`. */
  function SlotKey(k: int): string
    requires 1 <= k <= 5
  {
    SolutionKeyPrefix + [['1', '2', '3', '4', '5'][k - 1]]
  }

  /** The five declared slot names. */
  function SlotKeys(): set<string> {
    {SlotKey(1), SlotKey(2), SlotKey(3), SlotKey(4), SlotKey(5)}
  }

  /** The initial value: five empty slots. */
  function NoSolutions(): (r: SolutionsState)
    ensures r.Keys == SlotKeys()
    ensures forall k :: k in r ==> r[k] == None
  {
    map k | k in SlotKeys() :: None
  }

  /** A solutions record has exactly the declared shape. */
  predicate HasDeclaredShape(s: SolutionsState) {
    s.Keys == SlotKeys()
  }

  /** The five slot names are distinct. */
  lemma SlotKeysDistinct(j: int, k: int)
    requires 1 <= j <= 5 && 1 <= k <= 5
    ensures SlotKey(j) == SlotKey(k) <==> j == k
  {
    if SlotKey(j) == SlotKey(k) {
      assert SlotKey(j)[8] == SlotKey(k)[8];
    }
  }

  datatype Option<+T> = None | Some(value: T)
}
