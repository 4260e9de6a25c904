/** The session operations: refreshing the session list, starting a new
    chat, clearing the active session's history, loading a stored session
    and deleting one. */
module SessionOps {
  import opened Wrappers
  import opened ChatState
  import opened ModelRegistry

  /** `fetchSessions`: a reply replaces the cached list; a failure keeps
      it. Nothing else changes. */
  function FetchSessions(st: State, reply: Result<seq<Session>>): (r: State)
    ensures r == st.(sessions := r.sessions)
    ensures reply.Ok? ==> r.sessions == reply.value
    ensures reply.Err? ==> r.sessions == st.sessions
  {
    match reply
    case Ok(list) => st.(sessions := list)
    case Err(_) => st
  }

  /** `startNewChat`: on a `/chat/start` reply the returned id becomes the
      active one and the log is replaced by the welcome message, whatever
      was active before; a failure changes nothing. The list it refreshes
      afterwards is a separate property (`sessionList`), so the cached
      `sessions` stay as they were either way. */
  function StartNewChat(st: State, reply: Result<StartReply>): (r: State)
    ensures r.sessions == st.sessions
    ensures reply.Ok? ==>
      && r.currentSessionId == reply.value.sessionId
      && r.messages == [Notice(AssistantAvatar(st), reply.value.welcomeMessage)]
      && r == st.(currentSessionId := r.currentSessionId, messages := r.messages)
    ensures reply.Err? ==> r == st
  {
    match reply
    case Ok(start) =>
      st.(currentSessionId := start.sessionId,
          messages := [Assistant(AssistantAvatar(st), start.welcomeMessage, None, false)])
    case Err(_) => st
  }

  /** `clearHistory`: with no active session nothing is asked and nothing
      changes; a declined confirmation or a failed request changes nothing
      either. A confirmed, successful clear keeps the session and leaves
      the single "history cleared" notice, and refreshes the list. */
  function ClearHistory(st: State, confirmed: bool, reply: Result<()>): (r: Update)
    ensures st.currentSessionId == "" || !confirmed || reply.Err? ==> r == Update(st, false)
    ensures st.currentSessionId != "" && confirmed && reply.Ok? ==>
      && r.state.messages == [Notice(AssistantAvatar(st), HistoryClearedText)]
      && r.state == st.(messages := r.state.messages)
      && r.refreshSessions
  {
    if st.currentSessionId == "" || !confirmed then Update(st, false)
    else match reply
      case Ok(_) => Update(st.(messages := [Assistant(AssistantAvatar(st), HistoryClearedText, None, false)]), true)
      case Err(_) => Update(st, false)
  }

  /** One stored entry as a log entry: assistant exactly when the stored
      role is "assistant", anything else is shown as the user's. */
  function FromEntry(e: HistoryEntry, avatar: string): (m: Message)
    ensures m.Assistant? <==> e.role == "assistant"
    ensures m.content == e.content && m.timestamp == e.timestamp
    ensures !m.IsLoading()
  {
    if e.role == "assistant" then Assistant(avatar, e.content, e.timestamp, false)
    else User(PersonIcon, e.content, e.timestamp, None)
  }

  /** The stored history as a log, entry by entry and in order. */
  function FromHistory(entries: seq<HistoryEntry>, avatar: string): (msgs: seq<Message>)
    ensures |msgs| == |entries|
    ensures forall k :: 0 <= k < |msgs| ==> msgs[k] == FromEntry(entries[k], avatar)
    ensures NoLoading(msgs)
  {
    if entries == [] then []
    else [FromEntry(entries[0], avatar)] + FromHistory(entries[1..], avatar)
  }

  /** `loadSession` once `/chat/history` has answered (or failed). A
      history reply adopts `sessionId` and shows the stored messages in
      their order, assistant exactly where the stored role is
      "assistant". A failed request keeps the active id and shows only the
      "loading failed" notice. A reply without a message list fails after
      the id was adopted: the id is kept and the notice shown. */
  function LoadSession(st: State, sessionId: string, reply: Result<HistoryReply>): (r: State)
    ensures r == st.(currentSessionId := r.currentSessionId, messages := r.messages)
    ensures NoLoading(r.messages)
    ensures reply.Ok? ==> r.currentSessionId == sessionId
    ensures reply.Ok? && reply.value.History? ==>
      var entries := reply.value.entries;
      && |r.messages| == |entries|
      && forall k :: 0 <= k < |entries| ==>
           && (r.messages[k].Assistant? <==> entries[k].role == "assistant")
           && r.messages[k].content == entries[k].content
           && r.messages[k].timestamp == entries[k].timestamp
    ensures reply.Ok? && reply.value.NoMessageList? ==>
      r.messages == [Notice(AssistantAvatar(st), LoadFailedText)]
    ensures reply.Err? ==>
      && r.currentSessionId == st.currentSessionId
      && r.messages == [Notice(AssistantAvatar(st), LoadFailedText)]
  {
    var failed := [Assistant(AssistantAvatar(st), LoadFailedText, None, false)];
    match reply
    case Ok(History(entries)) =>
      st.(currentSessionId := sessionId, messages := FromHistory(entries, AssistantAvatar(st)))
    case Ok(NoMessageList) =>
      st.(currentSessionId := sessionId, messages := failed)
    case Err(_) =>
      st.(messages := failed)
  }

  /** `deleteSession`: a declined confirmation or a failed request changes
      nothing. A confirmed, successful delete of the active session
      leaves no active session and the single "choose or create a
      session" notice; deleting any other session leaves the log and the
      active id alone. Either success refreshes the list. */
  function DeleteSession(st: State, sessionId: string, confirmed: bool, reply: Result<()>): (r: Update)
    ensures !confirmed || reply.Err? ==> r == Update(st, false)
    ensures confirmed && reply.Ok? ==> r.refreshSessions
    ensures confirmed && reply.Ok? && sessionId == st.currentSessionId ==>
      && r.state.currentSessionId == ""
      && r.state.messages == [Notice(AssistantAvatar(st), PickSessionText)]
      && r.state == st.(currentSessionId := "", messages := r.state.messages)
    ensures confirmed && reply.Ok? && sessionId != st.currentSessionId ==> r.state == st
  {
    if !confirmed then Update(st, false)
    else match reply
      case Err(_) => Update(st, false)
      case Ok(_) =>
        if sessionId == st.currentSessionId then
          Update(st.(currentSessionId := "",
                     messages := [Assistant(AssistantAvatar(st), PickSessionText, None, false)]), true)
        else Update(st, true)
  }

  /** How a log entry would be stored: its role and its content. */
  function ToEntry(m: Message): HistoryEntry {
    HistoryEntry(if m.Assistant? then "assistant" else "user", m.content, m.timestamp)
  }

  /** A loaded history reads back exactly as stored, in order, whenever
      every stored role is "assistant" or "user". */
  lemma {:induction false} LoadedHistoryReadsBack(st: State, sessionId: string, entries: seq<HistoryEntry>)
    requires forall k :: 0 <= k < |entries| ==> entries[k].role == "assistant" || entries[k].role == "user"
    ensures
      var msgs := LoadSession(st, sessionId, Ok(History(entries))).messages;
      |msgs| == |entries| && forall k :: 0 <= k < |msgs| ==> ToEntry(msgs[k]) == entries[k]
  {
    var msgs := LoadSession(st, sessionId, Ok(History(entries))).messages;
    forall k | 0 <= k < |msgs|
      ensures ToEntry(msgs[k]) == entries[k]
    {
      var e := entries[k];
      assert msgs[k] == FromEntry(e, AssistantAvatar(st));
      assert ToEntry(msgs[k]).role == e.role;
    }
  }

  /** A confirmed clear that succeeded, repeated, changes nothing more. */
  lemma ClearTwice(st: State)
    requires st.currentSessionId != ""
    ensures
      var once := ClearHistory(st, true, Ok(())).state;
      ClearHistory(once, true, Ok(())).state == once
  {
  }
}
