/** Sending a message, split at its await into a begin phase (optional
    session start, optimistic log entries, request) and a complete phase
    (reconciling the log with the reply or the failure). */
module Send {
  import opened Wrappers
  import opened JsString
  import opened DataUrl
  import opened ChatState
  import opened ModelRegistry
  import opened Attachment

  /** The computed `canSendMessage`: a model id is selected and there is
      visible text or a staged preview. */
  function CanSendMessage(st: State): (ok: bool)
    ensures ok <==> Truthy(st.selectedModelId) && (!AllWhitespace(st.newMessage) || Truthy(st.previewImageUrl))
  {
    Truthy(st.selectedModelId) && (Trim(st.newMessage) != "" || Truthy(st.previewImageUrl))
  }

  /** The computed `hasMessages`: more than the single opening entry. */
  function HasMessages(st: State): (r: bool)
    ensures !r <==> st.messages == [] || st.messages == [st.messages[0]]
  {
    |st.messages| > 1
  }

  /** The log without its loading placeholders
      (`messages.filter(msg => !msg.isLoading)`). */
  function RemoveLoading(msgs: seq<Message>): (r: seq<Message>)
    ensures NoLoading(r)
    ensures |r| == |msgs| - LoadingCount(msgs)
  {
    if msgs == [] then []
    else
      var init := msgs[..|msgs| - 1];
      var last := msgs[|msgs| - 1];
      assert msgs == init + [last];
      if last.IsLoading() then RemoveLoading(init) else RemoveLoading(init) + [last]
  }

  /** The filtered log holds exactly the entries of the log that are not
      placeholders. */
  lemma {:induction false} RemoveLoadingMembers(msgs: seq<Message>, m: Message)
    ensures m in RemoveLoading(msgs) <==> m in msgs && !m.IsLoading()
  {
    if msgs != [] {
      var init := msgs[..|msgs| - 1];
      RemoveLoadingMembers(init, m);
      assert msgs == init + [msgs[|msgs| - 1]];
    }
  }

  /** Removing placeholders from a log that has none changes nothing. */
  lemma {:induction false} RemoveLoadingKeepsSettledLog(msgs: seq<Message>)
    requires NoLoading(msgs)
    ensures RemoveLoading(msgs) == msgs
  {
    if msgs != [] {
      var init := msgs[..|msgs| - 1];
      assert NoLoading(init);
      RemoveLoadingKeepsSettledLog(init);
      assert msgs == init + [msgs[|msgs| - 1]];
    }
  }

  /** Filtering a concatenation filters each part. */
  lemma {:induction false} RemoveLoadingAppend(a: seq<Message>, b: seq<Message>)
    ensures RemoveLoading(a + b) == RemoveLoading(a) + RemoveLoading(b)
    decreases |b|
  {
    if b != [] {
      var init := b[..|b| - 1];
      assert (a + b)[..|a + b| - 1] == a + init;
      assert (a + b)[|a + b| - 1] == b[|b| - 1];
      RemoveLoadingAppend(a, init);
    } else {
      assert a + b == a;
    }
  }

  /** A turn's two optimistic entries filter down to the user's entry. */
  lemma RemoveLoadingFromTurn(user: Message, placeholder: Message)
    requires !user.IsLoading() && placeholder.IsLoading()
    ensures RemoveLoading([user, placeholder]) == [user]
  {
    assert [user, placeholder][..1] == [user];
    assert [user][..0] == [];
  }

  /** The number of placeholders in a concatenation. */
  lemma {:induction false} LoadingCountAppend(a: seq<Message>, b: seq<Message>)
    ensures LoadingCount(a + b) == LoadingCount(a) + LoadingCount(b)
    decreases |b|
  {
    if b != [] {
      var init := b[..|b| - 1];
      assert (a + b)[..|a + b| - 1] == a + init;
      assert (a + b)[|a + b| - 1] == b[|b| - 1];
      LoadingCountAppend(a, init);
    } else {
      assert a + b == a;
    }
  }

  /** A log holds no placeholder exactly when it counts none. */
  lemma {:induction false} NoLoadingIffCountZero(msgs: seq<Message>)
    ensures NoLoading(msgs) <==> LoadingCount(msgs) == 0
  {
    if msgs != [] {
      var init := msgs[..|msgs| - 1];
      NoLoadingIffCountZero(init);
      assert NoLoading(msgs) ==> NoLoading(init);
      if NoLoading(init) && !msgs[|msgs| - 1].IsLoading() {
        assert msgs == init + [msgs[|msgs| - 1]];
      }
    }
  }

  /** The session-start step of `sendMessage`. With a session already
      active it consults no reply and changes nothing. Otherwise the send
      continues only if `/chat/start` answered, and then the returned id
      is adopted and the whole log is replaced by the welcome message. */
  function EnsureSession(st: State, start: Result<StartReply>): (r: Option<State>)
    ensures st.currentSessionId != "" ==> r == Some(st)
    ensures st.currentSessionId == "" ==> (r.Some? <==> start.Ok?)
    ensures st.currentSessionId == "" && r.Some? ==>
      && r.value.currentSessionId == start.value.sessionId
      && r.value.messages == [Notice(AssistantAvatar(st), start.value.welcomeMessage)]
    ensures r.Some? ==> r.value == st.(currentSessionId := r.value.currentSessionId, messages := r.value.messages)
  {
    if st.currentSessionId != "" then Some(st)
    else match start
      case Ok(reply) =>
        Some(st.(currentSessionId := reply.sessionId,
                 messages := [Assistant(AssistantAvatar(st), reply.welcomeMessage, None, false)]))
      case Err(_) => None
  }

  /** The user's entry: the trimmed input, stamped `now`, with the staged
      preview attached when there is one. */
  function UserEntry(st: State, now: Timestamp): Message {
    User(PersonIcon, Trim(st.newMessage), Some(now),
         if Truthy(st.previewImageUrl) then Some(Image(st.previewImageUrl.value, UploadedImageAlt)) else None)
  }

  /** The "thinking" placeholder. */
  function Placeholder(avatar: string): (m: Message)
    ensures m.IsLoading()
  {
    Assistant(avatar, ThinkingText, None, true)
  }

  /** The optimistic part of a send: the user's entry and then the
      placeholder go to the end of the log, and the input box is
      emptied. */
  function AppendTurn(st: State, user: Message, placeholder: Message): (s: State)
    ensures s.messages == st.messages + [user, placeholder]
    ensures s == st.(messages := s.messages, newMessage := "")
  {
    var pushed := st.(messages := st.messages + [user], newMessage := "");
    pushed.(messages := pushed.messages + [placeholder])
  }

  /** The `/chat/stream` body for the draft of `st`, sent in session
      `sessionId`. The image fields are read out of the preview URL, and
      only when a file is staged. */
  function BuildRequest(st: State, sessionId: string): (req: ChatRequest)
    requires st.selectedModelId.Some?
    requires st.imageFile.Some? ==> st.previewImageUrl.Some?
    ensures req.userId == st.userId && req.sessionId == sessionId
    ensures req.message == Trim(st.newMessage)
    ensures Some(req.role) == st.selectedModelId
    ensures req.provider == ProviderName(st)
    ensures st.imageFile.None? ==> req.imageData.None? && req.imageType.None?
    ensures st.imageFile.Some? ==>
      && req.imageData == ImageData(st.previewImageUrl.value)
      && req.imageType == ImageType(st.previewImageUrl.value)
  {
    ChatRequest(
      st.userId, sessionId, Trim(st.newMessage), st.selectedModelId.value, ProviderName(st),
      if st.imageFile.Some? then ImageData(st.previewImageUrl.value) else None,
      if st.imageFile.Some? then ImageType(st.previewImageUrl.value) else None)
  }

  /** How the begin phase of `sendMessage` ends: nothing sent (the guard
      failed, or the session could not be started), the request is in
      flight from the given state, or building the request threw after
      the log was already extended. */
  datatype BeginOutcome =
    | NotSent
    | Pending(state: State, request: ChatRequest)
    | Stranded(state: State)

  /** The log a send extends: the current one, or the welcome message alone
      when the send had to start a session. */
  function BaseLog(st: State, start: Result<StartReply>): seq<Message>
    requires st.currentSessionId == "" ==> start.Ok?
  {
    if st.currentSessionId != "" then st.messages
    else [Notice(AssistantAvatar(st), start.value.welcomeMessage)]
  }

  /** `sendMessage` up to its `/chat/stream` await. */
  function SendBegin(st: State, start: Result<StartReply>, now: Timestamp): (r: BeginOutcome)
    ensures r.NotSent? <==> !CanSendMessage(st) || (st.currentSessionId == "" && start.Err?)
    ensures StagedTogether(st) ==> !r.Stranded?
    ensures r.Pending? ==>
      && r.state.messages == BaseLog(st, start) + [UserEntry(st, now), Placeholder(AssistantAvatar(st))]
      && r.state.currentSessionId == (if st.currentSessionId == "" then start.value.sessionId else st.currentSessionId)
      && r.state == st.(messages := r.state.messages, newMessage := "", currentSessionId := r.state.currentSessionId)
    ensures r.Pending? ==> st.selectedModelId.Some? && (st.imageFile.Some? ==> st.previewImageUrl.Some?)
    ensures r.Pending? ==> r.request == BuildRequest(st, r.state.currentSessionId)
  {
    if !CanSendMessage(st) then NotSent
    else match EnsureSession(st, start)
      case None => NotSent
      case Some(s1) =>
        var s2 := AppendTurn(s1, UserEntry(st, now), Placeholder(AssistantAvatar(st)));
        if s2.imageFile.Some? && s2.previewImageUrl.None? then Stranded(s2)
        else Pending(s2, BuildRequest(st, s2.currentSessionId))
  }

  /** The reply entry the complete phase appends. */
  function Answer(st: State, reply: Result<string>, now: Timestamp): Message {
    match reply
    case Ok(text) => Assistant(AssistantAvatar(st), text, Some(now), false)
    case Err(msg) => Assistant(AssistantAvatar(st), ErrorPrefix + msg, None, false)
  }

  /** `sendMessage` after its `/chat/stream` await. Whatever the outcome,
      no placeholder survives, exactly one assistant entry is appended
      after the remaining log, the session stays, and the staged image is
      discarded; only a reply refreshes the session list. */
  function SendComplete(st: State, reply: Result<string>, now: Timestamp): (r: Update)
    ensures NoLoading(r.state.messages)
    ensures |r.state.messages| == |RemoveLoading(st.messages)| + 1
    ensures |r.state.messages| == |st.messages| - LoadingCount(st.messages) + 1
    ensures r.state.messages[..|r.state.messages| - 1] == RemoveLoading(st.messages)
    ensures r.state.messages[|r.state.messages| - 1] == Answer(st, reply, now)
    ensures reply.Ok? ==> r.state.messages[|r.state.messages| - 1].content == reply.value
    ensures reply.Err? ==> r.state.messages[|r.state.messages| - 1].content == ErrorPrefix + reply.message
    ensures r.state == st.(messages := r.state.messages, previewImageUrl := None, imageFile := None)
    ensures r.refreshSessions <==> reply.Ok?
  {
    var kept := st.(messages := RemoveLoading(st.messages));
    var answered := kept.(messages := kept.messages + [Answer(st, reply, now)]);
    Update(answered.(previewImageUrl := None, imageFile := None), reply.Ok?)
  }

  /** Completing a turn that was appended to a settled log replaces its
      placeholder with the answer, in place. */
  lemma CompleteReplacesPlaceholder(st: State, base: seq<Message>, user: Message, placeholder: Message,
                                    reply: Result<string>, now: Timestamp)
    requires st.messages == base + [user, placeholder]
    requires NoLoading(base) && !user.IsLoading() && placeholder.IsLoading()
    ensures SendComplete(st, reply, now).state.messages == base + [user, Answer(st, reply, now)]
  {
    RemoveLoadingAppend(base, [user, placeholder]);
    RemoveLoadingKeepsSettledLog(base);
    RemoveLoadingFromTurn(user, placeholder);
    var done := SendComplete(st, reply, now).state.messages;
    assert done == done[..|done| - 1] + [done[|done| - 1]];
  }

  /** A whole `sendMessage`, run without any other operation in between:
      a send stopped by the guard or by a failed session start changes
      nothing, and one whose request goes out ends with no placeholder,
      an empty input box, no staged image and the answer last; no send
      touches the user, the models, the selection,
      the dropdown or the cached sessions, and only a reply refreshes. */
  function SendMessage(st: State, start: Result<StartReply>, sent: Timestamp,
                       reply: Result<string>, answered: Timestamp): (r: Update)
    ensures SendBegin(st, start, sent).NotSent? ==> r == Update(st, false)
    ensures SendBegin(st, start, sent).Pending? ==>
      && NoLoading(r.state.messages)
      && r.state.newMessage == ""
      && r.state.imageFile.None? && r.state.previewImageUrl.None?
      && r.state.currentSessionId == SendBegin(st, start, sent).state.currentSessionId
      && |r.state.messages| > 0
      && r.state.messages[|r.state.messages| - 1] == Answer(SendBegin(st, start, sent).state, reply, answered)
    ensures r.refreshSessions <==> SendBegin(st, start, sent).Pending? && reply.Ok?
    ensures && r.state.userId == st.userId && r.state.models == st.models
            && r.state.selectedModelId == st.selectedModelId
            && r.state.dropdownOpen == st.dropdownOpen && r.state.sessions == st.sessions
  {
    match SendBegin(st, start, sent)
    case NotSent => Update(st, false)
    case Stranded(s) => Update(s, false)
    case Pending(s, _) => SendComplete(s, reply, answered)
  }
}
