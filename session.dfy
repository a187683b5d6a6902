/** Session persistence: the snapshot written to local storage while the
    user works, the check for a saved session when the app loads, and the
    restore that rebuilds the workspace from a snapshot. The snapshot is
    modelled after its JSON round trip: fields that were `undefined` are
    absent, every other field comes back unchanged. */
module Session {
  import opened Types

  /** The part of the workspace that saving and restoring touch. */
  datatype Workspace = Workspace(
    userInfo: UserInfo,
    state: GenerationState,
    solutions: SolutionsState,
    appendixDocument: string,
    outlineFeedback: string,
    wizardStep: WizardStep,
    /** The chat client's conversation history. */
    chatHistory: seq<ChatMessage>)

  /** The generation state as saved; after parsing, any field may be missing. */
  datatype SavedState = SavedState(step: int, messages: Option<seq<ChatMessage>>, fullDocument: Option<string>)

  /** `SessionData` as parsed back from storage. */
  datatype SessionData = SessionData(
    userInfo: Option<UserInfo>,
    hasReferenceDocuments: bool,
    state: Option<SavedState>,
    solutionsState: Option<SolutionsState>,
    appendixDocument: string,
    outlineFeedback: string,
    chatHistory: seq<ChatMessage>,
    savedAt: string)

  /** The storage entry under the session key. */
  datatype StoredSession = NoEntry | Malformed | Entry(data: SessionData)

  const RestoreFailedMessage := "Không thể khôi phục phiên làm việc. Vui lòng bắt đầu lại."

  /** Sessions are saved once work has started and no reply is streaming. */
  predicate ShouldSave(step: int, isStreaming: bool) {
    step > INPUT_FORM.Value() && !isStreaming
  }

  /** `saveSession`'s snapshot: the reference documents are left out (only
      whether there were any is kept); the chat history is the client's and
      `savedAt` the clock's reading. */
  function Save(w: Workspace, savedAt: string): (d: SessionData)
    ensures d.userInfo.Some? && d.userInfo.value.referenceDocuments == ""
    ensures d.hasReferenceDocuments <==> w.userInfo.referenceDocuments != ""
  {
    SessionData(
      Some(w.userInfo.(referenceDocuments := "")),
      w.userInfo.referenceDocuments != "",
      Some(SavedState(w.state.step, Some(w.state.messages), Some(w.state.fullDocument))),
      Some(w.solutions),
      w.appendixDocument,
      w.outlineFeedback,
      w.chatHistory,
      savedAt)
  }

  /** `{...prev, ...saved, referenceDocuments: prev.referenceDocuments || ''}`:
      the saved settings win, except that the reference documents stay the
      current ones and a template the snapshot lacks stays the current one. */
  function MergeUserInfo(prev: UserInfo, saved: UserInfo): UserInfo {
    saved.(referenceDocuments := prev.referenceDocuments,
           customTemplate := if saved.customTemplate.Some? then saved.customTemplate else prev.customTemplate)
  }

  /** `restoreSession`. Without saved settings the destructuring throws
      before anything is set and only the error is reported. The chat client
      is re-initialised when an API key is stored, which empties its history,
      and the saved history is put back afterwards. */
  function Restore(prev: Workspace, d: SessionData, hasSavedKey: bool): (r: Workspace)
    requires d.state.Some?
    ensures d.userInfo.None? ==> r == prev.(state := prev.state.(error := Some(RestoreFailedMessage)))
    ensures d.userInfo.Some? ==> !r.state.isStreaming && r.state.error.None? && r.wizardStep == SETUP_INFO
  {
    match d.userInfo
    case None => prev.(state := prev.state.(error := Some(RestoreFailedMessage)))
    case Some(saved) =>
      var savedState := d.state.value;
      var history :=
        if |d.chatHistory| > 0 then d.chatHistory
        else if hasSavedKey then []
        else prev.chatHistory;
      Workspace(
        MergeUserInfo(prev.userInfo, saved),
        GenerationState(
          savedState.step,
          if savedState.messages.Some? then savedState.messages.value else [],
          if savedState.fullDocument.Some? then savedState.fullDocument.value else "",
          false,
          None),
        if d.solutionsState.Some? then d.solutionsState.value else prev.solutions,
        if d.appendixDocument != "" then d.appendixDocument else prev.appendixDocument,
        if d.outlineFeedback != "" then d.outlineFeedback else prev.outlineFeedback,
        SETUP_INFO,
        history)
  }

  /** Saving and restoring at once gives back the step, the messages, the
      document and the solutions exactly, with streaming off and no error.
      The settings come back except for the reference documents, which stay
      the current ones, and an absent template, which stays the current one. */
  lemma SaveRestoreRoundTrip(w: Workspace, prev: Workspace, savedAt: string, hasSavedKey: bool)
    ensures var r := Restore(prev, Save(w, savedAt), hasSavedKey);
      && r.state == w.state.(isStreaming := false, error := None)
      && r.solutions == w.solutions
      && r.userInfo == w.userInfo.(referenceDocuments := prev.userInfo.referenceDocuments,
                                   customTemplate := if w.userInfo.customTemplate.Some? then w.userInfo.customTemplate
                                                     else prev.userInfo.customTemplate)
      && (w.chatHistory != [] ==> r.chatHistory == w.chatHistory)
  {
  }

  /** Restoring a workspace's own snapshot into it changes only the
      streaming flag, the error, the wizard page, and (when the history is
      empty and a key is stored) the chat client's history. */
  lemma RestoreOwnSnapshot(w: Workspace, savedAt: string, hasSavedKey: bool)
    ensures Restore(w, Save(w, savedAt), hasSavedKey) ==
      w.(state := w.state.(isStreaming := false, error := None), wizardStep := SETUP_INFO,
         chatHistory := if w.chatHistory == [] && hasSavedKey then [] else w.chatHistory)
  {
    var r := Restore(w, Save(w, savedAt), hasSavedKey);
    assert r.userInfo == w.userInfo;
  }

  /** A snapshot of a workspace without a template does not remove the
      template of the workspace it is restored into: the saved settings and
      the current template are mixed. */
  lemma AbsentTemplateKeepsCurrent(w: Workspace, prev: Workspace, savedAt: string, hasSavedKey: bool)
    requires w.userInfo.customTemplate.None? && prev.userInfo.customTemplate.Some?
    ensures Restore(prev, Save(w, savedAt), hasSavedKey).userInfo.customTemplate == prev.userInfo.customTemplate
  {
  }

  /** The load check: a parsed snapshot whose step is past the input form is
      offered for restoring; an entry that fails to parse (or to read) is
      removed; anything else is left alone. Returns the offer and the entry
      that remains. */
  function LoadCheck(stored: StoredSession): (r: (Option<SessionData>, StoredSession))
    ensures r.0.Some? <==> stored.Entry? && stored.data.state.Some? && stored.data.state.value.step > INPUT_FORM.Value()
    ensures r.0.Some? ==> r.0.value == stored.data
    ensures r.1 == if stored.Malformed? then NoEntry else stored
  {
    match stored
    case NoEntry => (None, NoEntry)
    case Malformed => (None, NoEntry)
    case Entry(d) =>
      if d.state.Some? && d.state.value.step > INPUT_FORM.Value() then (Some(d), stored) else (None, stored)
  }

  /** A session saved by `Save` under the save guard is always offered. */
  lemma SavedSessionIsOffered(w: Workspace, savedAt: string)
    requires ShouldSave(w.state.step, w.state.isStreaming)
    ensures LoadCheck(Entry(Save(w, savedAt))).0 == Some(Save(w, savedAt))
  {
  }
}
