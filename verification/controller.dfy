/** The controller as a whole: every operation as an event on the state,
    the invariant every event keeps, and the behaviours that involve more
    than one operation. */
module Controller {
  import opened Wrappers
  import opened JsString
  import opened DataUrl
  import opened ChatState
  import opened ModelRegistry
  import opened Attachment
  import opened Send
  import opened SessionOps

  /** Everything that can happen to the controller, each backend answer
      and each confirmation carried as data. `TypeText` is the input box
      writing the draft (the input box's `v-model` binding). A send is one
      event: no other event happens while it awaits its reply. */
  datatype Event =
    | TypeText(text: string)
    | ModelsLoaded(roles: Result<seq<RoleInfo>>)
    | SessionsLoaded(list: Result<seq<Session>>)
    | PickModel(id: string)
    | ToggleMenu
    | PickImage(file: Option<ImageFile>, upload: Result<UploadReply>)
    | DropImage
    | SendDraft(start: Result<StartReply>, sent: Timestamp, reply: Result<string>, answered: Timestamp)
    | NewChat(start: Result<StartReply>)
    | ClearChat(confirmed: bool, cleared: Result<()>)
    | OpenSession(sessionId: string, history: Result<HistoryReply>)
    | RemoveSession(sessionId: string, confirmed: bool, removed: Result<()>)

  /** The state after one event. A session-list refresh an operation
      fires is not awaited; its answer arrives later as `SessionsLoaded`.
      Typing only rewrites the draft, and no event changes the user. */
  function Step(st: State, e: Event): (r: State)
    ensures e.TypeText? ==> r == st.(newMessage := e.text)
    ensures r.userId == st.userId
  {
    match e
    case TypeText(text) => st.(newMessage := text)
    case ModelsLoaded(roles) => FetchModels(st, roles)
    case SessionsLoaded(list) => FetchSessions(st, list)
    case PickModel(id) => SelectModel(st, id)
    case ToggleMenu => ToggleDropdown(st)
    case PickImage(file, upload) => HandleImageUpload(st, file, upload)
    case DropImage => RemoveImage(st)
    case SendDraft(start, sent, reply, answered) => SendMessage(st, start, sent, reply, answered).state
    case NewChat(start) => StartNewChat(st, start)
    case ClearChat(confirmed, cleared) => ClearHistory(st, confirmed, cleared).state
    case OpenSession(id, history) => LoadSession(st, id, history)
    case RemoveSession(id, confirmed, removed) => DeleteSession(st, id, confirmed, removed).state
  }

  /** The state after a sequence of events. */
  function Run(st: State, es: seq<Event>): State
    decreases |es|
  {
    if es == [] then st else Run(Step(st, es[0]), es[1..])
  }

  /** What holds between operations: the staged file and its preview go
      together, and no placeholder is left in the log. */
  predicate Settled(st: State) {
    StagedTogether(st) && NoLoading(st.messages)
  }

  /** Every event keeps the controller settled. */
  lemma StepKeepsSettled(st: State, e: Event)
    requires Settled(st)
    ensures Settled(Step(st, e))
  {
    match e
    case SendDraft(start, sent, reply, answered) =>
      var b := SendBegin(st, start, sent);
      assert !b.Stranded?;
    case _ =>
  }

  /** Every sequence of events keeps the controller settled. */
  lemma {:induction false} RunKeepsSettled(st: State, es: seq<Event>)
    requires Settled(st)
    ensures Settled(Run(st, es))
    decreases |es|
  {
    if es != [] {
      StepKeepsSettled(st, es[0]);
      RunKeepsSettled(Step(st, es[0]), es[1..]);
    }
  }

  /** A state some sequence of events leads to from the start. */
  predicate Reachable(userId: string, es: seq<Event>, st: State) {
    st == Run(Initial(userId), es)
  }

  /** From any reachable state a send never throws while building its
      request, and right after the begin phase the log holds exactly one
      placeholder, the last entry. */
  lemma ReachableSendHasOnePlaceholder(userId: string, es: seq<Event>, st: State,
                                       start: Result<StartReply>, now: Timestamp)
    requires Reachable(userId, es, st)
    ensures !SendBegin(st, start, now).Stranded?
    ensures SendBegin(st, start, now).Pending? ==>
      var msgs := SendBegin(st, start, now).state.messages;
      LoadingCount(msgs) == 1 && msgs[|msgs| - 1].IsLoading()
  {
    assert Settled(Initial(userId));
    RunKeepsSettled(Initial(userId), es);
    var b := SendBegin(st, start, now);
    if b.Pending? {
      var base := BaseLog(st, start);
      var tail := [UserEntry(st, now), Placeholder(AssistantAvatar(st))];
      assert NoLoading(base);
      NoLoadingIffCountZero(base);
      LoadingCountAppend(base, tail);
      assert tail[..1] == [UserEntry(st, now)];
      assert [UserEntry(st, now)][..0] == [];
    }
  }

  /** Once a reply or a failure arrives, the placeholder is replaced in
      place: the log is the pre-send log (or the welcome message), the
      user's entry, and the answer. */
  lemma SendReconciles(st: State, start: Result<StartReply>, sent: Timestamp,
                       reply: Result<string>, answered: Timestamp)
    requires Settled(st)
    requires SendBegin(st, start, sent).Pending?
    ensures
      var pending := SendBegin(st, start, sent).state;
      SendMessage(st, start, sent, reply, answered).state.messages
        == BaseLog(st, start) + [UserEntry(st, sent), Answer(pending, reply, answered)]
  {
    var pending := SendBegin(st, start, sent).state;
    var user := UserEntry(st, sent);
    var placeholder := Placeholder(AssistantAvatar(st));
    CompleteReplacesPlaceholder(pending, BaseLog(st, start), user, placeholder, reply, answered);
  }

  /** The send guard: without a selected model id, or with neither visible
      text nor a staged preview, a send asks nothing of the backend and
      changes nothing. */
  lemma GuardedSendIsNoOp(st: State, start: Result<StartReply>, sent: Timestamp,
                          reply: Result<string>, answered: Timestamp)
    requires !Truthy(st.selectedModelId) || (AllWhitespace(st.newMessage) && !Truthy(st.previewImageUrl))
    ensures SendBegin(st, start, sent).NotSent?
    ensures SendMessage(st, start, sent, reply, answered) == Update(st, false)
  {
  }

  /** A send that has to start a session and cannot leaves the log, the
      draft and the staged image as they were. */
  lemma FailedStartAbortsSend(st: State, error: string, sent: Timestamp,
                              reply: Result<string>, answered: Timestamp)
    requires st.currentSessionId == ""
    ensures SendMessage(st, Err(error), sent, reply, answered) == Update(st, false)
  {
  }

  /** With a session active, the session-start answer is never consulted:
      starting a session is idempotent. */
  lemma ActiveSessionIgnoresStart(st: State, a: Result<StartReply>, b: Result<StartReply>, now: Timestamp)
    requires st.currentSessionId != ""
    ensures SendBegin(st, a, now) == SendBegin(st, b, now)
  {
  }

  /** The image of a send goes into the request in transmittable form:
      the content type and payload the upload answered with. */
  lemma SendCarriesStagedImage(st: State, start: Result<StartReply>, now: Timestamp,
                               contentType: string, data: string)
    requires st.imageFile.Some? && st.previewImageUrl == Some(Compose(contentType, data))
    requires IsPlainContentType(contentType) && IsBase64(data)
    requires Truthy(st.selectedModelId) && (st.currentSessionId != "" || start.Ok?)
    ensures SendBegin(st, start, now).Pending?
    ensures SendBegin(st, start, now).request.imageData == Some(data)
    ensures SendBegin(st, start, now).request.imageType == Some(contentType)
  {
    assert Truthy(st.previewImageUrl);
    assert StagedTogether(st);
    RoundTrip(contentType, data);
  }

  /** After a send, the staged image is gone whatever the outcome, and the
      log holds more than its opening entry. */
  lemma SendConsumesImage(st: State, start: Result<StartReply>, sent: Timestamp,
                          reply: Result<string>, answered: Timestamp)
    requires SendBegin(st, start, sent).Pending?
    ensures
      var r := SendMessage(st, start, sent, reply, answered).state;
      r.imageFile.None? && r.previewImageUrl.None? && HasMessages(r)
      && r.currentSessionId == SendBegin(st, start, sent).state.currentSessionId
  {
    var pending := SendBegin(st, start, sent).state;
    var base := BaseLog(st, start);
    var user := UserEntry(st, sent);
    var placeholder := Placeholder(AssistantAvatar(st));
    RemoveLoadingAppend(base, [user, placeholder]);
    RemoveLoadingFromTurn(user, placeholder);
    assert |RemoveLoading(pending.messages)| >= 1;
  }

  /** `startNewChat` is the session start a send performs, made
      unconditional. */
  lemma NewChatIsForcedStart(st: State, reply: StartReply)
    ensures StartNewChat(st, Ok(reply)) == EnsureSession(st.(currentSessionId := ""), Ok(reply)).value
  {
    var idle := st.(currentSessionId := "");
    assert SelectedModel(idle) == SelectedModel(st);
  }

  /** After the active session is deleted, the next send starts a new one. */
  lemma SendAfterDeletingActiveStartsSession(st: State, start: Result<StartReply>, now: Timestamp)
    ensures
      var r := DeleteSession(st, st.currentSessionId, true, Ok(())).state;
      r.currentSessionId == "" && (SendBegin(r, start, now).Pending? ==> start.Ok?)
  {
  }

  /** Every reset leaves only the opening entry, so `hasMessages` turns
      false and the clear button is disabled again. */
  lemma ResetsLeaveNoHistory(st: State, start: StartReply, error: string)
    ensures !HasMessages(StartNewChat(st, Ok(start)))
    ensures st.currentSessionId != "" ==> !HasMessages(ClearHistory(st, true, Ok(())).state)
    ensures !HasMessages(DeleteSession(st, st.currentSessionId, true, Ok(())).state)
    ensures !HasMessages(LoadSession(st, st.currentSessionId, Err(error)))
  {
  }

  /** The first send of a fresh conversation: one session start, then one
      request carrying the text, and the log ends up as the welcome
      message, the user's entry and the reply. */
  lemma FirstSendScenario(st: State, sent: Timestamp, answered: Timestamp)
    requires Settled(st) && st.currentSessionId == ""
    requires st.selectedModelId == Some("gpt-4") && st.newMessage == "hello"
    requires st.previewImageUrl.None? && st.imageFile.None?
    ensures
      var b := SendBegin(st, Ok(StartReply("s1", "welcome")), sent);
      && b.Pending?
      && b.request.message == "hello"
      && b.request.sessionId == "s1"
      && b.request.imageData.None?
    ensures
      var r := SendMessage(st, Ok(StartReply("s1", "welcome")), sent, Ok("hi"), answered).state;
      var avatar := AssistantAvatar(st);
      && r.currentSessionId == "s1"
      && r.messages == [Notice(avatar, "welcome"), User(PersonIcon, "hello", Some(sent), None),
                        Assistant(avatar, "hi", Some(answered), false)]
  {
    assert IsTrimmingOf("hello", 0, 5);
    TrimIsTheTrimming("hello", 0, 5);
    assert "hello"[0..5] == "hello";
    SendReconciles(st, Ok(StartReply("s1", "welcome")), sent, Ok("hi"), answered);
  }
}
