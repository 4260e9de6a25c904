/** The conversation controller's state record, its message type, the
    shapes of the backend replies it consumes, and its fixed texts. */
module ChatState {
  import opened Wrappers

  /** An opaque point in time: the client's clock (`Date.now()`) or a
      timestamp the server reported with a stored message. */
  datatype Timestamp = LocalClock(millis: int) | ServerTime(text: string)

  /** An image shown inside a user message. */
  datatype Image = Image(url: string, alt: string)

  /** One entry of the conversation log. An assistant entry may be the
      transient "thinking" placeholder shown while a reply is awaited. */
  datatype Message =
    | Assistant(avatar: string, content: string, timestamp: Option<Timestamp>, loading: bool)
    | User(avatar: string, content: string, timestamp: Option<Timestamp>, image: Option<Image>)
  {
    predicate IsLoading() {
      Assistant? && loading
    }
  }

  /** A selectable model (role). Fetched models always carry a provider;
      the built-in fallback ones carry none. */
  datatype Model = Model(id: string, name: string, icon: string, provider: Option<string>)

  /** A row of the session directory as the server lists it. */
  datatype Session = Session(sessionId: string, lastTime: string, lastMessage: string)

  /** The image file handle the user picked; only its size is inspected. */
  datatype ImageFile = ImageFile(name: string, size: nat)

  /** The controller's state: the component data the methods read and
      write. `userId` is established before the controller runs and never
      changes afterwards. */
  datatype State = State(
    userId: string,
    models: seq<Model>,
    selectedModelId: Option<string>,
    dropdownOpen: bool,
    messages: seq<Message>,
    newMessage: string,
    previewImageUrl: Option<string>,
    imageFile: Option<ImageFile>,
    currentSessionId: string,
    sessions: seq<Session>)

  /** The state the component starts in, for a given user. */
  function Initial(userId: string): (st: State)
    ensures st.messages == [] && st.currentSessionId == ""
    ensures st.previewImageUrl.None? && st.imageFile.None? && st.selectedModelId.None?
  {
    State(userId, [], None, false, [], "", None, None, "", [])
  }

  /** The state after an operation, and whether the operation also fired
      an unawaited refresh of the session list (`fetchSessions`). */
  datatype Update = Update(state: State, refreshSessions: bool)

  // ---- Backend payloads ----

  /** An entry of the `/roles` reply. */
  datatype RoleInfo = RoleInfo(key: string, name: string, icon: Option<string>, provider: Option<string>)

  /** The `/chat/start` reply. */
  datatype StartReply = StartReply(sessionId: string, welcomeMessage: string)

  /** The `/upload/image` reply. */
  datatype UploadReply = UploadReply(success: bool, contentType: string, base64Data: string)

  /** An entry of the `/chat/history` reply. */
  datatype HistoryEntry = HistoryEntry(role: string, content: string, timestamp: Option<Timestamp>)

  /** The `/chat/history` reply: a message list, or a body without one
      (reading it then fails after the session id was already adopted). */
  datatype HistoryReply = History(entries: seq<HistoryEntry>) | NoMessageList

  /** The body posted to `/chat/stream`. The image fields are `None` when
      the request does not carry them (or carries `undefined`, which the
      JSON encoding drops). */
  datatype ChatRequest = ChatRequest(
    userId: string,
    sessionId: string,
    message: string,
    role: string,
    provider: string,
    imageData: Option<string>,
    imageType: Option<string>)

  // ---- Fixed values ----

  const MaxImageBytes: nat := 10 * 1024 * 1024
  const RobotIcon: string := "🤖"
  const PersonIcon: string := "👤"
  const DefaultProvider: string := "default"
  const ThinkingText: string := "正在思考..."
  const ErrorPrefix: string := "抱歉，出错了: "
  const HistoryClearedText: string := "对话历史已清除"
  const LoadFailedText: string := "加载会话失败"
  const PickSessionText: string := "请选择或创建新会话"
  const UploadedImageAlt: string := "用户上传的图片"

  // ---- JavaScript truthiness ----

  /** Whether an optional string is truthy: present and non-empty. */
  predicate Truthy(o: Option<string>) {
    o.Some? && o.value != ""
  }

  /** `o || fallback` on an optional string. */
  function OrElse(o: Option<string>, fallback: string): (r: string)
    ensures Truthy(o) ==> r == o.value
    ensures !Truthy(o) ==> r == fallback
  {
    if Truthy(o) then o.value else fallback
  }

  // ---- Facts about logs ----

  predicate NoLoading(msgs: seq<Message>) {
    forall k :: 0 <= k < |msgs| ==> !msgs[k].IsLoading()
  }

  /** The number of loading placeholders in a log. */
  function LoadingCount(msgs: seq<Message>): nat {
    if msgs == [] then 0
    else LoadingCount(msgs[..|msgs| - 1]) + (if msgs[|msgs| - 1].IsLoading() then 1 else 0)
  }

  /** A single assistant notice, as the controller installs after a reset. */
  function Notice(avatar: string, content: string): Message {
    Assistant(avatar, content, None, false)
  }
}
