/** The App component's state and the handlers that move it: one run of
    `generateNextSection` with its automatic key rotation and retry, the
    review effect that approves a finished solution, the approve handler,
    and the session save / load check / restore / start-over handlers.

    The model's replies are inputs: each run consumes a script of
    `Attempt`s, one per call, in order. */
module Engine {
  import opened Types
  import opened JsStrings
  import Session
  import Outline
  import Transitions
  import Locator

  /** What `parseApiError` makes of a failed call. */
  datatype ErrorKind = QuotaExceeded | RateLimit | OtherError

  /** How one call ended. A failure carries its message and, for quota and
      rate-limit errors, the key the key pool rotated to (None when the
      pool had none left). */
  datatype Outcome = Completed | Failed(kind: ErrorKind, message: string, newKey: Option<string>)

  /** One streamed reply: the chunks that arrived, how the call ended, and
      the chat client's history once it had ended (the client records the
      exchange itself, so this is a result of the call like its chunks). */
  datatype Attempt = Attempt(chunks: seq<string>, outcome: Outcome, historyAfter: seq<ChatMessage>)

  /** A failure the handler retries: a quota or rate-limit error for which
      the pool handed back a (non-empty) new key. */
  predicate Retries(a: Attempt) {
    a.outcome.Failed? && a.outcome.kind != OtherError && a.outcome.newKey.Some? && a.outcome.newKey.value != ""
  }

  /** The chunks of one reply, joined in arrival order. */
  function Concat(parts: seq<string>): string {
    if parts == [] then "" else Concat(parts[..|parts| - 1]) + parts[|parts| - 1]
  }

  /** The chunks of successive replies, joined in arrival order. */
  function Streamed(attempts: seq<Attempt>): string {
    if attempts == [] then "" else Streamed(attempts[..|attempts| - 1]) + Concat(attempts[|attempts| - 1].chunks)
  }

  /** The last key rotated to during the replies, if any. */
  function RotatedKey(attempts: seq<Attempt>): Option<string> {
    if attempts == [] then None
    else if Retries(attempts[|attempts| - 1]) then attempts[|attempts| - 1].outcome.newKey
    else RotatedKey(attempts[..|attempts| - 1])
  }

  /** The chat client's history after the replies: the last reply's
      history, or a fresh one when that reply was retried (the client is
      re-initialised with the new key); with no reply, the history before. */
  function HistoryAfter(attempts: seq<Attempt>, history0: seq<ChatMessage>): seq<ChatMessage> {
    if attempts == [] then history0
    else
      var a := attempts[|attempts| - 1];
      if Retries(a) then [] else a.historyAfter
  }

  /** The error left by the replies: the message of a last failure that
      is not retried. */
  function ErrorAfter(attempts: seq<Attempt>): Option<string> {
    if attempts == [] then None
    else
      var a := attempts[|attempts| - 1];
      if a.outcome.Failed? && !Retries(a) then Some(a.outcome.message) else None
  }

  /** `n` replies make up one run: every reply before the last was retried,
      and the run stops early only at a reply that was not. */
  predicate IsRunLength(attempts: seq<Attempt>, n: nat) {
    && n <= |attempts|
    && (|attempts| > 0 ==> n > 0)
    && (forall i :: 0 <= i < n - 1 ==> Retries(attempts[i]))
    && (n < |attempts| ==> !Retries(attempts[n - 1]))
  }

  /** How many replies one run consumes. */
  function RunLength(attempts: seq<Attempt>): (n: nat)
    ensures IsRunLength(attempts, n)
  {
    if attempts == [] then 0
    else if Retries(attempts[0]) then
      var rest := RunLength(attempts[1..]);
      assert forall i :: 1 <= i < rest ==> attempts[1..][i - 1] == attempts[i];
      1 + rest
    else 1
  }

  /** A run has exactly one length. */
  lemma {:induction false} RunLengthUnique(attempts: seq<Attempt>, n: nat)
    requires IsRunLength(attempts, n)
    ensures n == RunLength(attempts)
  {
    if attempts == [] {
    } else if Retries(attempts[0]) {
      if n == 1 {
        assert n == |attempts|;
      } else {
        assert forall i :: 0 <= i < n - 2 ==> attempts[1..][i] == attempts[i + 1];
        RunLengthUnique(attempts[1..], n - 1);
      }
    } else {
      assert n == 1;
    }
  }

  /** One more reply extends the streamed text by its chunks and makes
      its own outcome the last one. */
  lemma ExtendRun(attempts: seq<Attempt>, used: nat, history0: seq<ChatMessage>)
    requires used < |attempts|
    ensures Streamed(attempts[..used + 1]) == Streamed(attempts[..used]) + Concat(attempts[used].chunks)
    ensures ErrorAfter(attempts[..used + 1]) == ErrorAfter([attempts[used]])
    ensures RotatedKey(attempts[..used + 1]) ==
      if Retries(attempts[used]) then attempts[used].outcome.newKey else RotatedKey(attempts[..used])
    ensures HistoryAfter(attempts[..used + 1], history0) ==
      if Retries(attempts[used]) then [] else attempts[used].historyAfter
  {
    assert attempts[..used + 1][..used] == attempts[..used];
    assert attempts[..used + 1][used] == attempts[used];
  }

  /** Retries are not counted: any number of rotated quota failures in a
      row is retried, and the call that finally completes ends the run
      without an error. */
  lemma RetriesAreUnbounded(k: nat, key: string, chunks: seq<string>)
    requires key != ""
    ensures var script := seq(k, i => Attempt([], Failed(QuotaExceeded, "quota", Some(key)), [])) + [Attempt(chunks, Completed, [])];
      RunLength(script) == k + 1 && ErrorAfter(script) == None
  {
    var script := seq(k, i => Attempt([], Failed(QuotaExceeded, "quota", Some(key)), [])) + [Attempt(chunks, Completed, [])];
    assert forall i :: 0 <= i < k ==> Retries(script[i]);
    RunLengthUnique(script, k + 1);
  }

  /** A retried call keeps what it streamed before failing: the document
      receives the partial reply followed by the whole retried reply. */
  lemma PartialReplyIsKept(partial: seq<string>, full: seq<string>, key: string)
    requires key != ""
    ensures var script := [Attempt(partial, Failed(RateLimit, "busy", Some(key)), []), Attempt(full, Completed, [])];
      && RunLength(script) == 2
      && Streamed(script[..RunLength(script)]) == Concat(partial) + Concat(full)
  {
    var script := [Attempt(partial, Failed(RateLimit, "busy", Some(key)), []), Attempt(full, Completed, [])];
    assert script[..2] == script;
    assert script[..1] == [script[0]] && script[..1][..0] == [];
    assert Streamed(script[..1]) == Concat(partial);
  }

  /** The browser storage the handlers use: the session entry and the
      saved API key. */
  datatype Storage = Storage(session: Session.StoredSession, apiKey: Option<string>)

  /** The App state outside the saved workspace. */
  datatype Ui = Ui(
    apiKey: string,
    storage: Storage,
    sessionSavedAt: Option<string>,
    pendingSession: Option<Session.SessionData>,
    showRestoreModal: bool,
    showSolutionReview: bool,
    currentSolutionContent: string)

  /** The key `handleApproveSolution` writes: `solution${n} ` (with a
      trailing space). */
  function ApprovalKeyAsWritten(n: nat): string {
    SolutionKeyPrefix + NatToString(n) + " "
  }

  /** The key the handler evidently means, the one the review effect
      writes: `solution${n}`. */
  function ApprovalKey(n: nat): string {
    SolutionKeyPrefix + NatToString(n)
  }

  /** The as-written key never names a declared slot, so approving writes
      a sixth property and leaves every declared slot as it was. */
  lemma ApprovalKeyAsWrittenMissesSlots(s: SolutionsState, n: nat, v: Option<SolutionContent>)
    requires HasDeclaredShape(s)
    ensures ApprovalKeyAsWritten(n) !in SlotKeys()
    ensures !HasDeclaredShape(s[ApprovalKeyAsWritten(n) := v])
    ensures forall k :: 1 <= k <= 5 ==> s[ApprovalKeyAsWritten(n) := v][SlotKey(k)] == s[SlotKey(k)]
  {
    var key := ApprovalKeyAsWritten(n);
    forall k | 1 <= k <= 5
      ensures key != SlotKey(k)
    {
      assert |key| >= 10 && |SlotKey(k)| == 9;
    }
    assert key in s[key := v].Keys;
  }

  /** The intended key writes solution `n`'s own slot, for each reviewed
      solution, and so keeps the declared shape. */
  lemma ApprovalKeyNamesSlot(s: SolutionsState, n: nat, v: Option<SolutionContent>)
    requires HasDeclaredShape(s) && 1 <= n <= 5
    ensures ApprovalKey(n) == SlotKey(n)
    ensures HasDeclaredShape(s[ApprovalKey(n) := v])
    ensures s[ApprovalKey(n) := v][SlotKey(n)] == v
  {
    assert NatToString(n) == [DigitChar(n)];
  }

  /** A step the review effect handles keeps the solutions record in
      its declared shape. */
  lemma ReviewKeepsShape(s: SolutionsState, n: int, v: Option<SolutionContent>)
    requires HasDeclaredShape(s) && 1 <= n <= 5
    ensures HasDeclaredShape(s[SlotKey(n) := v])
    ensures forall k :: 1 <= k <= 5 && k != n ==> s[SlotKey(n) := v][SlotKey(k)] == s[SlotKey(k)]
  {
    forall k | 1 <= k <= 5 && k != n
      ensures SlotKey(n) != SlotKey(k)
    {
      SlotKeysDistinct(n, k);
    }
  }

  /** The generation state after `used` replies of a run to step `next`
      from `state0`: the planned step, the streamed text appended when the
      plan appends, streaming only while no reply has come, and the error of
      a last failure that was not retried. */
  function StateAfter(next: int, append: bool, attempts: seq<Attempt>, used: nat, state0: GenerationState): GenerationState
    requires used <= |attempts|
  {
    GenerationState(next, state0.messages,
                    state0.fullDocument + (if append then Streamed(attempts[..used]) else ""),
                    used == 0, ErrorAfter(attempts[..used]))
  }

  /** One more reply moves the state on by that reply alone. */
  lemma StateAfterStep(next: int, append: bool, attempts: seq<Attempt>, used: nat, state0: GenerationState)
    requires used < |attempts|
    ensures var before := StateAfter(next, append, attempts, used, state0);
      StateAfter(next, append, attempts, used + 1, state0) ==
        before.(fullDocument := before.fullDocument + (if append then Concat(attempts[used].chunks) else ""),
                isStreaming := false, error := ErrorAfter([attempts[used]]))
  {
    ExtendRun(attempts, used, []);
  }

  class App {
    var userInfo: UserInfo
    var state: GenerationState
    var solutionsState: SolutionsState
    var appendixDocument: string
    var outlineFeedback: string
    var wizardStep: WizardStep
    /** The chat client's conversation history, as `getChatHistory` returns it. */
    var chatHistory: seq<ChatMessage>
    var apiKey: string
    var storage: Storage
    var sessionSavedAt: Option<string>
    var pendingSession: Option<Session.SessionData>
    var showRestoreModal: bool
    var showSolutionReview: bool
    var currentSolutionContent: string

    /** The saved and restored part of the state. */
    function Workspace(): Session.Workspace
      reads this
    {
      Session.Workspace(userInfo, state, solutionsState, appendixDocument, outlineFeedback, wizardStep, chatHistory)
    }

    function UiState(): Ui
      reads this
    {
      Ui(apiKey, storage, sessionSavedAt, pendingSession, showRestoreModal, showSolutionReview, currentSolutionContent)
    }

    /** The initial state: the input form, no solutions, the upload page of
      the wizard, and the API key from storage (empty when none is saved). */
    constructor (initialInfo: UserInfo, stored: Storage)
      ensures userInfo == initialInfo && storage == stored
      ensures state == GenerationState(INPUT_FORM.Value(), [], "", false, None)
      ensures solutionsState == NoSolutions() && appendixDocument == "" && outlineFeedback == ""
      ensures wizardStep == UPLOAD_TEMPLATE && chatHistory == []
      ensures apiKey == if stored.apiKey.Some? then stored.apiKey.value else ""
      ensures sessionSavedAt.None? && pendingSession.None? && !showRestoreModal
      ensures !showSolutionReview && currentSolutionContent == ""
    {
      userInfo := initialInfo;
      state := GenerationState(INPUT_FORM.Value(), [], "", false, None);
      solutionsState := NoSolutions();
      appendixDocument := "";
      outlineFeedback := "";
      wizardStep := UPLOAD_TEMPLATE;
      chatHistory := [];
      apiKey := if stored.apiKey.Some? then stored.apiKey.value else "";
      storage := stored;
      sessionSavedAt := None;
      pendingSession := None;
      showRestoreModal := false;
      showSolutionReview := false;
      currentSolutionContent := "";
    }

    /** The mount effect's check for a saved session. */
    method CheckSavedSessionOnLoad()
      modifies this
      ensures var r := Session.LoadCheck(old(storage.session));
        && Workspace() == old(Workspace())
        && UiState() == old(UiState()).(
             storage := old(storage).(session := r.1),
             pendingSession := if r.0.Some? then r.0 else old(pendingSession),
             showRestoreModal := r.0.Some? || old(showRestoreModal))
    {
      var r := Session.LoadCheck(storage.session);
      storage := storage.(session := r.1);
      if r.0.Some? {
        pendingSession := r.0;
        showRestoreModal := true;
      }
    }

    /** `saveSession` at time `savedAt` (shown as `timeLabel`). `fits` is
      whether the storage accepts the entry; when it does not, the failure
      is swallowed and nothing changes. */
    method SaveSession(savedAt: string, timeLabel: string, fits: bool)
      modifies this
      ensures Workspace() == old(Workspace())
      ensures Session.ShouldSave(old(state.step), old(state.isStreaming)) && fits ==>
        UiState() == old(UiState()).(
          storage := old(storage).(session := Session.Entry(Session.Save(old(Workspace()), savedAt))),
          sessionSavedAt := Some(timeLabel))
      ensures !(Session.ShouldSave(old(state.step), old(state.isStreaming)) && fits) ==> UiState() == old(UiState())
    {
      if !Session.ShouldSave(state.step, state.isStreaming) {
        return;
      }
      if fits {
        storage := storage.(session := Session.Entry(Session.Save(Workspace(), savedAt)));
        sessionSavedAt := Some(timeLabel);
      }
    }

    /** `restoreSession`; the chat client is re-initialised when an API
      key is saved. */
    method RestoreSession(d: Session.SessionData)
      requires d.state.Some?
      modifies this`userInfo, this`state, this`solutionsState, this`appendixDocument,
               this`outlineFeedback, this`wizardStep, this`chatHistory
      ensures Workspace() == Session.Restore(old(Workspace()), d, old(storage.apiKey).Some? && old(storage.apiKey).value != "")
    {
      var w := Session.Restore(Workspace(), d, storage.apiKey.Some? && storage.apiKey.value != "");
      userInfo := w.userInfo;
      state := w.state;
      solutionsState := w.solutions;
      appendixDocument := w.appendixDocument;
      outlineFeedback := w.outlineFeedback;
      wizardStep := w.wizardStep;
      chatHistory := w.chatHistory;
    }

    /** The restore dialog's "continue" button. The dialog is shown only
      with a pending session, which passed the load check. */
    method ContinueSession()
      requires pendingSession.Some? && pendingSession.value.state.Some?
      modifies this
      ensures Workspace() == Session.Restore(old(Workspace()), old(pendingSession.value),
                                             old(storage.apiKey).Some? && old(storage.apiKey).value != "")
      ensures UiState() == old(UiState()).(showRestoreModal := false, pendingSession := None)
    {
      RestoreSession(pendingSession.value);
      showRestoreModal := false;
      pendingSession := None;
    }

    /** The restore dialog's "start over" button: `clearSavedSession`. */
    method StartNewSession()
      modifies this
      ensures Workspace() == old(Workspace())
      ensures UiState() == old(UiState()).(
        storage := old(storage).(session := Session.NoEntry),
        sessionSavedAt := None, showRestoreModal := false, pendingSession := None)
    {
      showRestoreModal := false;
      storage := storage.(session := Session.NoEntry);
      sessionSavedAt := None;
      pendingSession := None;
    }

    /** One call of `generateNextSection` with the outline parsed from the
      custom template. Without a plan for the current step nothing
      happens. Otherwise the step moves to the planned one before the
      reply streams and stays there whatever the outcome; each chunk is
      appended as it arrives when the plan appends, so a failed reply
      leaves its partial text; a retried failure rotates the key, resets
      the chat client, and runs the same plan again (the retry's closure
      holds the same step). With no reply yet the call is still streaming. */
    method GenerateNextSection(template: Option<Template>, attempts: seq<Attempt>) returns (used: nat)
      modifies this`state, this`chatHistory, this`apiKey, this`storage
      ensures used <= |attempts|
      ensures GeneratedFrom(template, attempts, used, old(state), old(chatHistory), old(apiKey), old(storage))
    {
      var valid := Outline.ValidCustomSections(template);
      var plan := Transitions.NextStep(state.step, Outline.FlowOf(valid), userInfo.numSolutions);
      used := 0;
      if plan.None? {
        return;
      }
      used := RunPlan(plan.value, attempts);
    }

    /** What one call of `generateNextSection` leaves, from the given state:
      with no plan for its step, that state unchanged and no reply used;
      otherwise the run of the plan. */
    ghost predicate GeneratedFrom(template: Option<Template>, attempts: seq<Attempt>, used: nat,
                                  state0: GenerationState, history0: seq<ChatMessage>, key0: string, storage0: Storage)
      reads this
    {
      var plan := Transitions.NextStep(state0.step, Outline.FlowOf(Outline.ReducedSections(template)), userInfo.numSolutions);
      && (plan.None? ==> used == 0 && state == state0 && chatHistory == history0 && apiKey == key0 && storage == storage0)
      && (plan.Some? ==> RanPlan(plan.value, attempts, used, state0, history0, key0, storage0))
    }

    /** The state after a run of `plan` over `used` replies, from the given
      state: the planned step, the streamed text appended when the plan
      appends, streaming only while no reply has come, the error of a last
      failure that was not retried, the chat history the last reply left
      (fresh when it was retried), and the last rotated key in use. */
    ghost predicate RanPlan(plan: Transitions.StepPlan, attempts: seq<Attempt>, used: nat,
                            state0: GenerationState, history0: seq<ChatMessage>, key0: string, storage0: Storage)
      reads this
    {
      && used == RunLength(attempts)
      && RanSoFar(plan.next, plan.append, attempts, used, state0, history0, key0, storage0)
    }

    /** The state after the first `used` replies of a run to step `next`. */
    ghost predicate RanSoFar(next: int, append: bool, attempts: seq<Attempt>, used: nat,
                             state0: GenerationState, history0: seq<ChatMessage>, key0: string, storage0: Storage)
      reads this
    {
      && used <= |attempts|
      && state == StateAfter(next, append, attempts, used, state0)
      && chatHistory == HistoryAfter(attempts[..used], history0)
      && KeyAfter(RotatedKey(attempts[..used]), key0, storage0)
    }

    /** The key in use after a run that rotated to `rotated`, if any: the
      rotated key, in state and in storage; otherwise the key and storage
      the run started with. */
    ghost predicate KeyAfter(rotated: Option<string>, key0: string, storage0: Storage)
      reads this
    {
      && apiKey == (if rotated.Some? then rotated.value else key0)
      && storage == storage0.(apiKey := if rotated.Some? then rotated else storage0.apiKey)
    }

    /** The calls of one run: the step moves to the planned one, then
      replies are consumed while each failure is retried. */
    method RunPlan(plan: Transitions.StepPlan, attempts: seq<Attempt>) returns (used: nat)
      modifies this`state, this`chatHistory, this`apiKey, this`storage
      ensures used <= |attempts|
      ensures RanPlan(plan, attempts, used, old(state), old(chatHistory), old(apiKey), old(storage))
    {
      var next, append := plan.next, plan.append;
      ghost var state0, history0, key0, storage0 := state, chatHistory, apiKey, storage;
      state := state.(isStreaming := true, error := None, step := next);
      used := 0;
      var retry := true;
      while retry && used < |attempts|
        invariant 0 <= used <= |attempts|
        invariant retry ==> forall i :: 0 <= i < used ==> Retries(attempts[i])
        invariant !retry ==> used > 0 && (forall i :: 0 <= i < used - 1 ==> Retries(attempts[i])) && !Retries(attempts[used - 1])
        invariant RanSoFar(next, append, attempts, used, state0, history0, key0, storage0)
      {
        RunNext(next, append, attempts, used, state0, history0, key0, storage0);
        retry := Retries(attempts[used]);
        used := used + 1;
      }
      RunLengthUnique(attempts, used);
    }

    /** One more call of a run, taking the state after `used` replies to
      the state after `used + 1`. */
    method RunNext(next: int, append: bool, attempts: seq<Attempt>, used: nat,
                   ghost state0: GenerationState, ghost history0: seq<ChatMessage>, ghost key0: string, ghost storage0: Storage)
      requires used < |attempts|
      requires RanSoFar(next, append, attempts, used, state0, history0, key0, storage0)
      modifies this`state, this`chatHistory, this`apiKey, this`storage
      ensures RanSoFar(next, append, attempts, used + 1, state0, history0, key0, storage0)
    {
      ExtendRun(attempts, used, history0);
      StateAfterStep(next, append, attempts, used, state0);
      RunAttempt(attempts[used], append);
    }

    /** One call of a run: the flags are set for streaming, the reply
      streams, the client's history becomes what the call left, and the
      outcome is handled. A retried failure switches to the rotated key (in
      state and in storage) and re-initialises the chat client, which
      starts a fresh history; the retry itself is the next call. */
    method RunAttempt(a: Attempt, append: bool)
      modifies this`state, this`chatHistory, this`apiKey, this`storage
      ensures state == old(state).(fullDocument := old(state.fullDocument) + (if append then Concat(a.chunks) else ""),
                                   isStreaming := false, error := ErrorAfter([a]))
      ensures Retries(a) ==> chatHistory == [] && apiKey == a.outcome.newKey.value && storage == old(storage).(apiKey := a.outcome.newKey)
      ensures !Retries(a) ==> chatHistory == a.historyAfter && apiKey == old(apiKey) && storage == old(storage)
    {
      state := state.(isStreaming := true, error := None);
      StreamChunks(a.chunks, append);
      chatHistory := a.historyAfter;
      if a.outcome.Completed? {
        state := state.(isStreaming := false);
      } else if a.outcome.kind != OtherError && a.outcome.newKey.Some? && a.outcome.newKey.value != "" {
        apiKey := a.outcome.newKey.value;
        storage := storage.(apiKey := a.outcome.newKey);
        chatHistory := [];
        state := state.(isStreaming := false, error := None);
      } else {
        state := state.(isStreaming := false, error := Some(a.outcome.message));
      }
    }

    /** The streaming callback over one reply: each chunk is appended to
      the document as it arrives when the plan appends. (The source also
      builds a separator-prefixed copy of the reply that nothing reads.) */
    method StreamChunks(chunks: seq<string>, append: bool)
      modifies this`state
      ensures state == old(state).(fullDocument := old(state.fullDocument) + if append then Concat(chunks) else "")
    {
      var c := 0;
      while c < |chunks|
        invariant 0 <= c <= |chunks|
        invariant state == old(state).(fullDocument := old(state.fullDocument) + if append then Concat(chunks[..c]) else "")
      {
        assert chunks[..c + 1][..c] == chunks[..c];
        if append {
          state := state.(fullDocument := state.fullDocument + chunks[c]);
        }
        c := c + 1;
      }
      assert chunks[..c] == chunks;
    }

    /** The review effect: at a review step with no reply streaming (an
      error does not stop it), the finished solution is located in the
      document and stored approved under its slot, and then the next
      section is generated (the source schedules that call 100 ms later;
      here it is made at once, from the state the effect saw). `rx` holds
      the pattern searches over the document. */
    method ReviewEffect(template: Option<Template>, rx: Locator.PatternResults, attempts: seq<Attempt>)
      returns (scheduled: bool, content: string, used: nat)
      requires -1 <= rx.nextPartIdx <= |state.fullDocument|
      modifies this`solutionsState, this`state, this`chatHistory, this`apiKey, this`storage
      ensures scheduled <==> Transitions.IsReviewStep(old(state.step)) && !old(state.isStreaming)
      ensures !scheduled ==>
        && used == 0 && solutionsState == old(solutionsState) && state == old(state)
        && chatHistory == old(chatHistory) && apiKey == old(apiKey) && storage == old(storage)
      ensures scheduled ==>
        var n := Transitions.SolutionNumberFromStep(old(state.step));
        && 1 <= n <= 5
        && content == Locator.StoredContent(old(state.fullDocument), n, rx) && |content| >= 100
        && solutionsState == old(solutionsState)[SlotKey(n) := Some(SolutionContent(content, true, []))]
        && GeneratedFrom(template, attempts, used, old(state), old(chatHistory), old(apiKey), old(storage))
    {
      scheduled := Transitions.IsReviewStep(state.step) && !state.isStreaming;
      content := "";
      used := 0;
      if !scheduled {
        return;
      }
      Transitions.ReviewStepIff(state.step);
      var n := Transitions.SolutionNumberFromStep(state.step);
      content := StoreLocatedSolution(state.fullDocument, n, rx);
      used := GenerateNextSection(template, attempts);
    }

    /** The store of the review effect: the solution is located in the
      document `doc`, and solution `n`'s slot receives the content,
      approved and with no revisions. */
    method StoreLocatedSolution(doc: string, n: nat, rx: Locator.PatternResults) returns (content: string)
      requires 1 <= n <= 5 && -1 <= rx.nextPartIdx <= |doc|
      modifies this`solutionsState
      ensures content == Locator.StoredContent(doc, n, rx)
      ensures solutionsState == old(solutionsState)[SlotKey(n) := Some(SolutionContent(content, true, []))]
    {
      var startIdx;
      startIdx, content := Locator.LocateSolution(doc, n, rx);
      solutionsState := solutionsState[SlotKey(n) := Some(SolutionContent(content, true, []))];
    }

    /** `handleApproveSolution` as written: the reviewed content is stored
      under `solution${n} ` (with a trailing space), the review dialog is
      closed, and the next section is generated. */
    method ApproveSolutionAsWritten(template: Option<Template>, attempts: seq<Attempt>) returns (used: nat)
      modifies this`solutionsState, this`showSolutionReview, this`currentSolutionContent
      modifies this`state, this`chatHistory, this`apiKey, this`storage
      ensures solutionsState == old(solutionsState)[
        ApprovalKeyAsWritten(Transitions.SolutionNumberFromStep(old(state.step))) :=
          Some(SolutionContent(old(currentSolutionContent), true, []))]
      ensures !showSolutionReview && currentSolutionContent == ""
      ensures GeneratedFrom(template, attempts, used, old(state), old(chatHistory), old(apiKey), old(storage))
    {
      var n := Transitions.SolutionNumberFromStep(state.step);
      solutionsState := solutionsState[ApprovalKeyAsWritten(n) := Some(SolutionContent(currentSolutionContent, true, []))];
      showSolutionReview := false;
      currentSolutionContent := "";
      used := GenerateNextSection(template, attempts);
    }

    /** The approve handler with the key it evidently means: at a review
      step, solution `n`'s own slot receives the reviewed content. */
    method ApproveSolution(template: Option<Template>, attempts: seq<Attempt>) returns (used: nat)
      modifies this`solutionsState, this`showSolutionReview, this`currentSolutionContent
      modifies this`state, this`chatHistory, this`apiKey, this`storage
      ensures solutionsState == old(solutionsState)[
        ApprovalKey(Transitions.SolutionNumberFromStep(old(state.step))) :=
          Some(SolutionContent(old(currentSolutionContent), true, []))]
      ensures Transitions.IsReviewStep(old(state.step)) && HasDeclaredShape(old(solutionsState)) ==>
        HasDeclaredShape(solutionsState)
      ensures !showSolutionReview && currentSolutionContent == ""
      ensures GeneratedFrom(template, attempts, used, old(state), old(chatHistory), old(apiKey), old(storage))
    {
      var n := Transitions.SolutionNumberFromStep(state.step);
      Transitions.ReviewStepIff(state.step);
      var entry := Some(SolutionContent(currentSolutionContent, true, []));
      if Transitions.IsReviewStep(state.step) && HasDeclaredShape(solutionsState) {
        ApprovalKeyNamesSlot(solutionsState, n, entry);
      }
      solutionsState := solutionsState[ApprovalKey(n) := entry];
      showSolutionReview := false;
      currentSolutionContent := "";
      used := GenerateNextSection(template, attempts);
    }
  }
}
