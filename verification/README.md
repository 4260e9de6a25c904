# Chat client conversation controller, modelled in Dafny

This project models the conversation controller of a Vue chat client
(`frontend/src/App.vue.js`, the component's data, computed properties and
methods). The controller lets a user pick a model (a "role"), talk to a
chat backend in sessions, attach one image to a message, and list,
resume, clear and delete sessions.

The model is functional. The component data is an immutable `State`
record (`ChatState`). Every method is a pure transition. Each awaited
backend call becomes a `Result<T>` parameter (`Ok(payload)` or
`Err(message)`). Each `confirm()` becomes a boolean. `Date.now()` becomes
an opaque `Timestamp` parameter. A log entry is a `Message` datatype,
`Assistant(…, loading)` or `User(…)`, instead of the source's
`isAssistant` flag and ad-hoc `isLoading` field.

`sendMessage` awaits in the middle, so it is two transitions:

- `Send.SendBegin` covers the optional session start, the user's entry,
  the "thinking" placeholder and the request body.
- `Send.SendComplete` reconciles the log with the reply or the failure.

`Send.SendMessage` runs the two back to back: no other operation is
modelled as happening while a send awaits its reply (see "Left out").

Modules, leaves first:

- `Wrappers`: `Option` (JavaScript `null`/`undefined`) and `Result` (how a
  backend call settled).
- `JsString`: `String.prototype.trim` over the ECMAScript WhiteSpace and
  LineTerminator code points. Also `split` with a one-character
  separator, and reading an array slot that may be `undefined`.
- `DataUrl`: the image preview URL `data:<type>;base64,<payload>`, in the
  data URL syntax of RFC 2397. It is composed from the upload reply and
  split apart again when a request is built.
- `ChatState`: the state record, the message type, the backend reply
  shapes and the fixed texts of the user interface.
- `ModelRegistry`: `fetchModels`, the computed `selectedModel`,
  `selectModel` and `toggleDropdown`.
- `Attachment`: `handleImageUpload` and `removeImage`.
- `Send`: `canSendMessage`, `hasMessages` and the two phases of
  `sendMessage`.
- `SessionOps`: `fetchSessions`, `startNewChat`, `clearHistory`,
  `loadSession` and `deleteSession`.
- `Controller`: every operation as an `Event`. It holds the invariant every
  event keeps, and the properties that span several operations.

Behaviours of the code worth noting:

- A failed `fetchModels` installs the three fallback models but does not
  select one (lines 77-85). The fallback models carry no provider, so
  requests then name the provider "default".
- `loadSession` adopts the requested id only once the history request has
  answered (line 312 runs after the await). If the request fails, the
  active id is kept. If the reply has no message list, the `.map` on line
  313 throws after the id was adopted: the id is kept and the "loading
  failed" notice is shown.
- `selectModel` accepts any id, registered or not. An unregistered id
  resolves to no model, so the robot glyph and the "default" provider are
  used.
- `clearHistory` asks for confirmation only when a session is active.
- `startNewChat` refreshes a `sessionList` property, not the `sessions`
  list that the sidebar shows (lines 262, 275). The model keeps
  `sessions` unchanged on that path.

## Model

| member | source | states |
|---|---|---|
| `ChatState.Initial` | frontend/src/App.vue.js:3-29 | The component starts with an empty log, no active session, nothing staged and no selected model. |
| `JsString.Trim` | frontend/src/App.vue.js:43 | The trimmed draft is blank exactly when every character is white space; otherwise it starts and ends on a visible character. |
| `JsString.TrimIsTheTrimming` | frontend/src/App.vue.js:177 | Any slice with only white space outside it and visible characters at both ends is the trimmed text, so the trim is uniquely determined. |
| `JsString.TrimBounds` | frontend/src/App.vue.js:43 | Scanning inwards from both ends finds the bounds of the trimmed text. |
| `JsString.TrimIdempotent` | frontend/src/App.vue.js:177 | Trimming an already trimmed text changes nothing. |
| `JsString.Split` | frontend/src/App.vue.js:210-211 | `split` with one separator gives at least one piece. No piece holds the separator, and the pieces joined with it give back the input. |
| `JsString.SplitUnique` | frontend/src/App.vue.js:210-211 | Any cut of a string into separator-free pieces that join back to it is the cut `split` makes. |
| `JsString.SplitCutsIffSeparator` | frontend/src/App.vue.js:210-211 | `split` gives more than one piece exactly when the separator occurs in the string. |
| `JsString.SplitPiecesAvoid` | frontend/src/App.vue.js:211 | A character absent from the string is absent from every piece `split` gives. |
| `JsString.Piece` | frontend/src/App.vue.js:210-211 | Reading slot `i` of the pieces is defined exactly when it is in range, and otherwise gives `undefined`. |
| `DataUrl.Compose` | frontend/src/App.vue.js:128 | The preview URL starts with `data:` and ends with the base64 payload. |
| `DataUrl.ImageData` | frontend/src/App.vue.js:210 | `url.split(',')[1]` is defined exactly when the URL holds a comma, and then holds no comma. |
| `DataUrl.ImageType` | frontend/src/App.vue.js:211 | `url.split(';')[0].split(':')[1]` is defined exactly when the part before the first `;` holds a colon, and then holds neither `;` nor `:`. |
| `DataUrl.RoundTrip` | frontend/src/App.vue.js:210-211 | For a content type without `;`, `:` or `,` and a base64 payload, the two `split` expressions give back exactly the content type and payload the URL was composed from. |
| `ModelRegistry.FindIndex` | frontend/src/App.vue.js:34 | `find` stops at the first model with the selected id, and finds none when no model has it. |
| `ModelRegistry.SelectedModel` | frontend/src/App.vue.js:33-35 | The selected model is a registered model with the selected id; there is none when no registered model has that id. |
| `ModelRegistry.AssistantAvatar` | frontend/src/App.vue.js:164 | The assistant avatar is never blank. It is the selected model's icon when that icon is not blank, and the robot glyph when there is no selected model or its icon is blank. |
| `ModelRegistry.ProviderName` | frontend/src/App.vue.js:206 | The request's provider is never blank. It is the selected model's provider when that is set and not blank, and "default" when there is no selected model or it has no provider (as every fallback model). |
| `ModelRegistry.ToModels` | frontend/src/App.vue.js:66-71 | Each `/roles` entry becomes one model, in order, with the same id and name. A blank icon becomes the robot glyph and a blank provider becomes "default". |
| `ModelRegistry.FetchModels` | frontend/src/App.vue.js:63-86 | A reply replaces the list and selects its first entry when there is one. A failure installs the fallback list and keeps the selection. Only the list and the selection change, and every model has a visible icon. |
| `ModelRegistry.SelectModel` | frontend/src/App.vue.js:100-103 | Selecting adopts the id and closes the dropdown. Nothing else changes. |
| `ModelRegistry.ToggleDropdown` | frontend/src/App.vue.js:105-107 | Toggling flips the dropdown. Nothing else changes. |
| `ModelRegistry.ToggleTwice` | frontend/src/App.vue.js:105-107 | Toggling twice restores the state. |
| `ModelRegistry.FetchedSelectionResolves` | frontend/src/App.vue.js:72-75 | After a non-empty `/roles` reply, the default selection resolves to the first model and requests name its provider. |
| `ModelRegistry.FallbackProviderIsDefault` | frontend/src/App.vue.js:80-84 | After `/roles` failed with any error, requests name the "default" provider whatever is selected. |
| `ModelRegistry.SelectUnknownModel` | frontend/src/App.vue.js:100-103 | Selecting an unregistered id leaves no resolved model, so the robot glyph and "default" are used. |
| `ModelRegistry.SelectKnownModel` | frontend/src/App.vue.js:34 | Selecting a registered id resolves to the first model with that id. |
| `Attachment.HandleImageUpload` | frontend/src/App.vue.js:109-137 | Only a picked file of at most 10 MiB whose upload answers with `success` changes the state. It stages the file together with the preview URL composed from the reply. Every other case changes nothing, and staging file and preview together is preserved. |
| `Attachment.RemoveImage` | frontend/src/App.vue.js:139-142 | Removing clears both the file and the preview. Nothing else changes. |
| `Attachment.TenMebibytesAccepted` | frontend/src/App.vue.js:114 | A file of exactly 10×1024×1024 bytes goes on to the upload and is staged when the upload succeeds. |
| `Attachment.OneByteOverRefused` | frontend/src/App.vue.js:114-117 | A file one byte larger is refused with no state change, whatever the upload would answer. |
| `Attachment.UnsuccessfulUploadIgnored` | frontend/src/App.vue.js:126-129 | An upload reply with `success` unset stages nothing. |
| `Attachment.StagedPayloadRecoverable` | frontend/src/App.vue.js:126-129 | A staged preview URL parses back to the content type and payload of the upload reply. |
| `Send.CanSendMessage` | frontend/src/App.vue.js:42-44 | Sending is possible exactly when a non-empty model id is selected and the draft has a visible character or a preview is staged. |
| `Send.HasMessages` | frontend/src/App.vue.js:37-40 | `hasMessages` is false exactly when the log is empty or holds only its opening entry. |
| `Send.RemoveLoading` | frontend/src/App.vue.js:217 | Filtering leaves no placeholder and shortens the log by exactly the number of placeholders. |
| `Send.RemoveLoadingMembers` | frontend/src/App.vue.js:217 | The filtered log holds exactly the entries of the log that are not placeholders. |
| `Send.RemoveLoadingKeepsSettledLog` | frontend/src/App.vue.js:217 | Filtering a log without placeholders changes nothing. |
| `Send.RemoveLoadingAppend` | frontend/src/App.vue.js:231 | Filtering a concatenation filters each part. |
| `Send.EnsureSession` | frontend/src/App.vue.js:155-172 | With a session active, no reply is consulted and nothing changes. Otherwise the send continues exactly when `/chat/start` answered; the returned id is then adopted and the whole log is replaced by the welcome message. |
| `Send.BuildRequest` | frontend/src/App.vue.js:201-212 | The request carries the user id, the session id, the trimmed draft, the selected id as `role` and the resolved provider. It carries the image fields, read out of the preview URL, only when a file is staged. |
| `Send.SendBegin` | frontend/src/App.vue.js:151-212 | The send stops before touching the log exactly when the guard fails or a needed session start failed. Otherwise the log gains the user's entry and one placeholder after the current log (or after the welcome message alone), and the draft is emptied. The request is the one built from the state. The request cannot throw while file and preview are staged together. |
| `Send.SendComplete` | frontend/src/App.vue.js:214-242 | On reply or failure, no placeholder survives. The log is the previous log without placeholders plus one assistant entry: the reply, or the error text after "抱歉，出错了: ". The session id and every other field stay, the staged image is discarded, and only a reply refreshes the session list. |
| `Send.SendMessage` | frontend/src/App.vue.js:151-242 | A whole send with nothing else in between. A send stopped by the guard or by a failed session start changes nothing. One whose request goes out leaves no placeholder, an empty input box and no staged image, keeps the session the request used, and ends the log with the answer. No send changes the user, the models, the selection, the dropdown or the cached sessions, and only a request that got a reply refreshes the list. |
| `Send.CompleteReplacesPlaceholder` | frontend/src/App.vue.js:214-237 | Completing a turn appended to a settled log replaces its placeholder with the answer, in place. |
| `SessionOps.FetchSessions` | frontend/src/App.vue.js:88-98 | A reply replaces the cached session list; a failure keeps it. Nothing else changes. |
| `SessionOps.StartNewChat` | frontend/src/App.vue.js:244-268 | A `/chat/start` reply makes its id the active one and leaves only the welcome message. A failure changes nothing. The cached `sessions` never change on this path. |
| `SessionOps.ClearHistory` | frontend/src/App.vue.js:282-302 | With no active session, a declined confirmation or a failed request, nothing changes and nothing is refreshed. A confirmed success keeps the session, leaves the single "对话历史已清除" notice and refreshes the list. |
| `SessionOps.FromEntry` | frontend/src/App.vue.js:313-318 | A stored entry becomes an assistant entry exactly when its role is "assistant", with the same content and timestamp and no loading flag. |
| `SessionOps.FromHistory` | frontend/src/App.vue.js:313-318 | The stored history becomes a log of the same length, entry by entry, without placeholders. |
| `SessionOps.LoadSession` | frontend/src/App.vue.js:304-327 | A history reply adopts the id and shows the stored messages in order, with assistant exactly where the role is "assistant". A failed request keeps the active id and shows only the "加载会话失败" notice. A reply without a message list adopts the id and shows that notice. |
| `SessionOps.DeleteSession` | frontend/src/App.vue.js:330-353 | A declined confirmation or a failure changes nothing. Deleting the active session clears the id and leaves the single "请选择或创建新会话" notice. Deleting another session changes nothing. Every success refreshes the list. |
| `SessionOps.LoadedHistoryReadsBack` | frontend/src/App.vue.js:313-318 | When every stored role is "assistant" or "user", the loaded log reads back exactly as stored: same order, roles and contents. |
| `SessionOps.ClearTwice` | frontend/src/App.vue.js:290-294 | Clearing an already cleared session changes nothing more. |
| `Controller.Step` | frontend/src/App.vue.js:63-353 | Each operation, and typing into the input box (its `v-model` binding to `newMessage`, line 651), as one event. Typing only rewrites the draft, and no event changes the user id. |
| `Controller.StepKeepsSettled` | frontend/src/App.vue.js:63-353 | Every operation keeps the staged file and its preview together and leaves no placeholder in the log. |
| `Controller.RunKeepsSettled` | frontend/src/App.vue.js:63-353 | Every sequence of operations keeps that invariant. |
| `Controller.ReachableSendHasOnePlaceholder` | frontend/src/App.vue.js:191-198 | From any reachable state, building the request never throws. Right after the begin phase, the log holds exactly one placeholder, and it is the last entry. |
| `Controller.SendReconciles` | frontend/src/App.vue.js:214-237 | From a settled state, a completed send leaves the pre-send log (or the welcome message), the user's entry and the answer. |
| `Controller.GuardedSendIsNoOp` | frontend/src/App.vue.js:151-153 | Without a selected model id, or with a blank draft and no preview, a send issues no request and changes nothing. |
| `Controller.FailedStartAbortsSend` | frontend/src/App.vue.js:155-171 | When a needed session start fails, the send leaves the log, the draft and the staged image unchanged. |
| `Controller.ActiveSessionIgnoresStart` | frontend/src/App.vue.js:155 | With a session active, the outcome of a session start is never consulted. |
| `Controller.SendCarriesStagedImage` | frontend/src/App.vue.js:209-212 | With a model selected and a session active or startable, a send with a staged upload goes ahead and carries exactly the uploaded content type and base64 payload. |
| `Controller.SendConsumesImage` | frontend/src/App.vue.js:238-241 | After a send, the staged image is gone whatever the outcome. The session id is the one the request used, and the log holds more than one entry. |
| `Controller.NewChatIsForcedStart` | frontend/src/App.vue.js:244-260 | `startNewChat` is the session start of a send, made unconditional. |
| `Controller.SendAfterDeletingActiveStartsSession` | frontend/src/App.vue.js:338-345 | After the active session is deleted, the next send needs a session start. |
| `Controller.ResetsLeaveNoHistory` | frontend/src/App.vue.js:37-40 | A new chat, a clear, deleting the active session and a failed load each leave only one entry, so `hasMessages` is false. |
| `Controller.FirstSendScenario` | frontend/src/App.vue.js:151-237 | A first send of "hello" starts session "s1" and posts "hello". The log ends as the welcome message, the user's entry and the reply. |

## Left out

- `initializeUser` (lines 53-61) reads and writes `localStorage` and draws a random id. The user id is a field of the state that no operation changes.
- `handleKeyPress` (lines 144-149) only maps the Enter key to a send, so it is left out as keyboard handling.
- `scrollToBottom`, the `messages` watcher, and the resets of the file input through `document.getElementById` and `event.target.value` are DOM side effects and are not modelled.
- `alert` and `console.error` have no effect on the state and are not modelled. `confirm` is a boolean parameter.
- `Date.now()` is an opaque `Timestamp` parameter.
- The awaited `fetchSessionList` after a new chat writes a property outside the modelled state, and it never changes `sessions`.
- The fire-and-forget `fetchSessions` after a send, a clear or a delete is the `refreshSessions` flag of the result. Its answer arrives later as a separate `fetchSessions` step.
- No other operation runs while a send awaits its `/chat/start` reply (line 157) or its `/chat/stream` reply: the begin and complete phases are one event. The code does not block the rest of the interface during that await, so it also allows these, which the model does not promise anything about:
  - an image picked during the await is discarded by the `finally` at lines 238-240;
  - a `loadSession` during the await shows the reply after the other session's history;
  - a clear, a new chat or a delete during the await removes the placeholder early;
  - a second send overlaps the first;
  - a session loaded during the `/chat/start` await is overwritten by the reset at lines 160-166;
  - text typed, or an image removed, during the `/chat/start` await changes what the code sends, because it reads the draft and the image after that await (lines 177-212). The model builds the entry and the request from the state the send began with.
  `Send.SendComplete` is stated for any state, so its contract gives the outcome of each such interleaving. `Controller.ReachableSendHasOnePlaceholder` speaks of the state right after the begin phase, not of the whole await.
- The `isLoading` and `showSessions` data fields are never written by the methods; `showSessions` is toggled by the template. Both are left out.
- Backend replies are typed values. An untyped reply that lacks a field is modelled only where the code visibly reacts to it (a history reply without a message list). One such case is not modelled: an upload reply with `success` set but no `data`. That reply would stage the file without a preview, because line 127 runs before line 128 throws. The next send from that state pushes its entry and placeholder (lines 185-198) and then throws at line 210, which lies before the `try` at line 214, so no request goes out and the `finally` never runs. That placeholder is never removed, and each further send adds another. The model keeps this outcome as `Send.SendBegin`'s `Stranded` result and shows that no reachable state gets there (`Controller.ReachableSendHasOnePlaceholder`).
- Characters are Unicode scalar values, not UTF-16 code units, so `trim` and `split` are modelled over code points.
- The generated template and render code (lines 371-752), `frontend/src/router/index.js` and `frontend/src/main.js` are user interface markup, routing and bootstrap, so they are not modelled.
