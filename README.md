# BHH Brainstorming — a Dafny model of the session engine

BHH Brainstorming is a real-time brainstorming tool. A React client talks to a Go
server over one WebSocket:

- users create or join a session;
- they chat and submit ideas, optionally with an uploaded media file;
- they rate ideas, ask the server to aggregate the ideas, and start a discussion.

This project models the logic on both sides of that connection and proves what it
promises.

**Client (TypeScript)**

- `WebSocketService` (class `WebSocketService.WebSocketService`):
  - the listener registry (`on`, `off`, inbound fan-out);
  - the socket state;
  - one envelope builder per command.

  Callbacks are values of a type `H` compared by equality, which stands for
  JavaScript's reference identity. Everything written to the socket is recorded in
  `outbox`.
- The session page (module `SessionComponent`):
  - its `useState` hooks are the fields of class `Session`;
  - its nine listener bodies are a reducer `Reduce` over the mirrored server state;
  - its `handle*` functions are methods that gate which commands reach the socket.
- The media helpers (module `MediaService`): `getMediaUrl`, the envelope chosen by
  `submitIdeaWithMedia`, and `triggerAggregation`.
- The upload form (module `MediaUploader`): the type filter loop, the preview choice,
  and the submit and reset handlers.

**Server (Go)**

- The session model (module `SessionManager`):
  - sessions are shared objects holding a user map and an append-only idea list;
  - a registry maps ids to sessions;
  - the six-character session-id generator takes its random draws as a parameter.
- The older `Session` type of `models.go` and the scenarios its test file exercises
  (module `Models`).
- The hub (class `Hub.Hub`):
  - the clients, and which session each client is in;
  - what each inbound message type does to the registry and what it sends to whom.

  Each client's `send` channel is a mailbox (`sent: map<Client, seq<Message>>`). A
  broadcast is `Post(sent, targets, m)`: `m` is appended once to each target's
  mailbox. Clock readings and random draws are parameters.
- The upload allowlist, `IsAllowedType`, and the upload handler's derivation of
  the stored name, URL and media type (module `MediaHandler`).
- The completion-service request builders: `CreateAPIRequest`, `ProcessMedia`,
  `AggregateMedia`, and the per-type prompt mapping (module `OpenAIService`). The
  remote completion is an uninterpreted function parameter.

**Shared helpers**

- `Wrappers`: `Option` and `Result`.
- `Text`: prefix tests, JavaScript `trim`, `split`/`join`, Go's `filepath.Ext`,
  decimal formatting.
- `Json`: decoded JSON values, as Go's `interface{}` holds them.

**Behaviour of the code as written, kept in the model**

- A failed upload shows its error with the prefix twice: `Upload failed: Upload failed: <status>`.
- Leaving a session empties the leaver's mapping first: the leaver gets no `session_updated`, and an emptied session is announced by a `sessions_list`.
- Disconnecting while mapped to a registered session blocks the hub forever (see Findings): the unregister branch holds the hub's write lock when `broadcastToSession` asks for the read lock. With that corrected, the disconnecting client is still sent the update, and no list follows the removal of an emptied session.
- A file-only upload is sent with empty content: the upload form refuses only a submission with neither content nor file (`MediaUploader.Uploader.HandleSubmit`), and the server drops an idea whose content is empty without a reply (`Hub.IdeaRequestAccepts`), while the form resets as on success.
- `idea_submitted` lands in the chat transcript, not in a session's ideas.
- Ratings sent from the discussion view name ids `idea-<index>`. The server never generates such an id.
- The effect cleanup of the session page removes no listener (see Findings). Its visible effect needs the effect to run again on the same instance, as StrictMode does in development; `App.tsx` does not enable StrictMode.

## Model

| member | source | states |
|---|---|---|
| WebSocketService.Emitted | bhh-brainstorming/frontend/src/services/websocketservice.ts:148-154 | a send writes exactly one envelope when the socket is open and nothing otherwise |
| WebSocketService.Subscribe | bhh-brainstorming/frontend/src/services/websocketservice.ts:156-161 | `on(t, cb)` ends `t`'s list with `cb` after what was there (an absent list read as empty) and leaves every other type's list unchanged |
| WebSocketService.Without | bhh-brainstorming/frontend/src/services/websocketservice.ts:165 | the filtered list no longer holds `cb`, and is the list itself when `cb` was absent |
| WebSocketService.WithoutCounts | bhh-brainstorming/frontend/src/services/websocketservice.ts:165 | the filter removes every occurrence of `cb` and keeps every other callback as often as it occurred |
| WebSocketService.WithoutAppend | bhh-brainstorming/frontend/src/services/websocketservice.ts:165 | filtering distributes over concatenation, so the remaining callbacks keep their order |
| WebSocketService.Unsubscribe | bhh-brainstorming/frontend/src/services/websocketservice.ts:163-167 | `off(t, cb)` filters `cb` out of `t`'s list only; an unknown type changes nothing |
| WebSocketService.UnsubscribeUnregistered | bhh-brainstorming/frontend/src/services/websocketservice.ts:163-167 | `off` with a callback not registered for `t` leaves the registry unchanged |
| WebSocketService.SubscribeThenUnsubscribe | bhh-brainstorming/frontend/src/services/websocketservice.ts:156-167 | `on` then `off` of an unregistered callback restores `t`'s original list |
| WebSocketService.SubscribeThenFanout | bhh-brainstorming/frontend/src/services/websocketservice.ts:71-73 | after `on(t, cb)` a `t` message reaches what it reached before and then `cb` |
| WebSocketService.UnsubscribeThenFanout | bhh-brainstorming/frontend/src/services/websocketservice.ts:71-73 | after `off(t, cb)` a `t` message never reaches `cb` and reaches the others in their order |
| WebSocketService.WebSocketService.constructor | bhh-brainstorming/frontend/src/services/websocketservice.ts:42-45 | no socket, empty username, no listeners |
| WebSocketService.WebSocketService.Connect | bhh-brainstorming/frontend/src/services/websocketservice.ts:51-54 | the username is recorded and a socket is being opened; listeners and outbox are untouched |
| WebSocketService.WebSocketService.HandleOpen | bhh-brainstorming/frontend/src/services/websocketservice.ts:55-59 | the open event makes the socket usable and sends exactly one `list_sessions` |
| WebSocketService.WebSocketService.HandleClose | bhh-brainstorming/frontend/src/services/websocketservice.ts:60-63 | the close event drops the socket |
| WebSocketService.WebSocketService.Disconnect | bhh-brainstorming/frontend/src/services/websocketservice.ts:78-83 | afterwards there is no socket, so a second call finds none and does nothing |
| WebSocketService.WebSocketService.SendMessage | bhh-brainstorming/frontend/src/services/websocketservice.ts:148-154 | the outbox grows by the envelope exactly when the socket is open |
| WebSocketService.WebSocketService.On | bhh-brainstorming/frontend/src/services/websocketservice.ts:156-161 | the registry becomes `Subscribe` of the old one |
| WebSocketService.WebSocketService.Off | bhh-brainstorming/frontend/src/services/websocketservice.ts:163-167 | the registry becomes `Unsubscribe` of the old one |
| WebSocketService.WebSocketService.Receive | bhh-brainstorming/frontend/src/services/websocketservice.ts:68-74 | the callbacks invoked are those registered for the type, in order, once per registration; none without a type or without listeners |
| WebSocketService.WebSocketService.CreateSession | bhh-brainstorming/frontend/src/services/websocketservice.ts:85-91 | one `create_session` with the stored username, the name and the questions, if open |
| WebSocketService.WebSocketService.JoinSession | bhh-brainstorming/frontend/src/services/websocketservice.ts:93-99 | one `join_session` with the session id and the stored username, if open |
| WebSocketService.WebSocketService.LeaveSession | bhh-brainstorming/frontend/src/services/websocketservice.ts:101-103 | one `leave_session` carrying only its type, if open |
| WebSocketService.WebSocketService.ListSessions | bhh-brainstorming/frontend/src/services/websocketservice.ts:105-107 | one `list_sessions` carrying only its type, if open |
| WebSocketService.WebSocketService.SendSessionMessage | bhh-brainstorming/frontend/src/services/websocketservice.ts:109-115 | one `session_message` with the session id and the data, if open |
| WebSocketService.WebSocketService.SubmitIdea | bhh-brainstorming/frontend/src/services/websocketservice.ts:117-124 | one `idea_submission` with the stored username and `{content, mediaType, mediaURL}`, if open |
| WebSocketService.WebSocketService.AggregateIdeas | bhh-brainstorming/frontend/src/services/websocketservice.ts:126-131 | one `aggregate_ideas` for the session, if open |
| WebSocketService.WebSocketService.SendIdeaRating | bhh-brainstorming/frontend/src/services/websocketservice.ts:133-139 | one `idea_rating` whose data is `{ideaId, rating}`, if open |
| WebSocketService.WebSocketService.StartDiscussion | bhh-brainstorming/frontend/src/services/websocketservice.ts:141-146 | one `start_discussion` for the session, if open |
| WebSocketService.SubmitIdeaDefaultsToText | bhh-brainstorming/frontend/src/services/websocketservice.ts:117 | omitting the media type sends exactly what an explicit `'text'` sends |
| WebSocketService.CreateSessionMessage | bhh-brainstorming/frontend/src/services/websocketservice.ts:85-91 | the `create_session` envelope: the stored username, the name and the questions as data, no session id |
| WebSocketService.JoinSessionMessage | bhh-brainstorming/frontend/src/services/websocketservice.ts:93-99 | the `join_session` envelope: the session id and the stored username, no data |
| WebSocketService.LeaveSessionMessage | bhh-brainstorming/frontend/src/services/websocketservice.ts:101-103 | a bare `leave_session` envelope |
| WebSocketService.ListSessionsMessage | bhh-brainstorming/frontend/src/services/websocketservice.ts:105-107 | a bare `list_sessions` envelope |
| WebSocketService.SessionChatMessage | bhh-brainstorming/frontend/src/services/websocketservice.ts:109-115 | the `session_message` envelope: the session id and the data, no username |
| WebSocketService.SubmitIdeaMessage | bhh-brainstorming/frontend/src/services/websocketservice.ts:117-124 | the `idea_submission` envelope: the session id, the stored username, and the content, media type and optional URL as data |
| WebSocketService.AggregateIdeasMessage | bhh-brainstorming/frontend/src/services/websocketservice.ts:126-131 | the `aggregate_ideas` envelope: only the session id |
| WebSocketService.IdeaRatingMessage | bhh-brainstorming/frontend/src/services/websocketservice.ts:133-139 | the `idea_rating` envelope: the session id, and the idea id and rating as data, no username |
| WebSocketService.StartDiscussionMessage | bhh-brainstorming/frontend/src/services/websocketservice.ts:141-146 | the `start_discussion` envelope: only the session id |
| WebSocketService.ListOf | bhh-brainstorming/frontend/src/services/websocketservice.ts:157-160 | the list registered for a type, an absent one read as empty |
| WebSocketService.Fanout | bhh-brainstorming/frontend/src/services/websocketservice.ts:71-73 | the callbacks an inbound frame reaches: those registered for its type, in registration order; none when the type is empty |
| WebSocketService.WebSocketService.GetUsername | bhh-brainstorming/frontend/src/services/websocketservice.ts:47-49 | the stored username |
| SessionComponent.WithoutId | bhh-brainstorming/frontend/src/components/Session.tsx:34 | the filter keeps exactly the entries whose id differs, and nothing else |
| SessionComponent.WithoutIdAppend | bhh-brainstorming/frontend/src/components/Session.tsx:34 | the filter distributes over concatenation: kept entries stay in order |
| SessionComponent.WithoutIdDistinct | bhh-brainstorming/frontend/src/components/Session.tsx:34 | filtering keeps pairwise-distinct ids distinct |
| SessionComponent.UpsertFrontSpec | bhh-brainstorming/frontend/src/components/Session.tsx:32-35 | the created session comes first, is the only entry with its id, every other entry is kept, and distinct ids stay distinct |
| SessionComponent.ReplaceByIdSpec | bhh-brainstorming/frontend/src/components/Session.tsx:39-43 | same length and ids, the new value exactly where the id matches, a no-op when none does, distinct ids stay distinct |
| SessionComponent.UpsertFront | bhh-brainstorming/frontend/src/components/Session.tsx:34 | the `session_created` update of the list: the new session, then the old list without its id |
| SessionComponent.ReplaceById | bhh-brainstorming/frontend/src/components/Session.tsx:41 | the `session_updated` update of the list: each entry with the same id replaced by the new value |
| SessionComponent.Reduce | bhh-brainstorming/frontend/src/components/Session.tsx:29-59 | the state change of one listener body per event type; a payload of another shape changes nothing |
| SessionComponent.SessionsListReplaces | bhh-brainstorming/frontend/src/components/Session.tsx:29-31 | `sessions_list` replaces the whole list with the payload |
| SessionComponent.SessionCreatedSelects | bhh-brainstorming/frontend/src/components/Session.tsx:32-35 | `session_created` selects the session, puts it first, leaves the transcript, keeps ids distinct |
| SessionComponent.SessionJoinedOnlySelects | bhh-brainstorming/frontend/src/components/Session.tsx:36-38 | `session_joined` changes the current session id and nothing else |
| SessionComponent.SessionUpdatedReplaces | bhh-brainstorming/frontend/src/components/Session.tsx:39-43 | `session_updated` changes only the list, by id, keeping ids distinct |
| SessionComponent.AggregationResultOverwrites | bhh-brainstorming/frontend/src/components/Session.tsx:50-52 | `aggregation_result` overwrites the aggregated text and nothing else |
| SessionComponent.TranscriptEventsAppendOne | bhh-brainstorming/frontend/src/components/Session.tsx:44-49 | chat, idea and discussion events append exactly one transcript entry, never touch the sessions, and only `discussion_started` raises the flag |
| SessionComponent.IdeaRatingChangesNothing | bhh-brainstorming/frontend/src/components/Session.tsx:53-55 | `idea_rating`, `aggregation_started` and `aggregation_error` change no state |
| SessionComponent.Step | bhh-brainstorming/frontend/src/components/Session.tsx:28-59 | one registered body applied to the page state: a body of the current effect reduces, a cleanup placeholder does nothing |
| SessionComponent.StepAll | bhh-brainstorming/frontend/src/services/websocketservice.ts:72 | the bodies of one frame applied one after the other, in list order |
| SessionComponent.SubscribeAll | bhh-brainstorming/frontend/src/components/Session.tsx:28-59 | one effect run: an `on` for each event type, in order |
| SessionComponent.OffClosure | bhh-brainstorming/frontend/src/components/Session.tsx:61-69 | the callback a cleanup `off` passes: a fresh placeholder as written, the effect's own body when corrected |
| SessionComponent.UnsubscribeAll | bhh-brainstorming/frontend/src/components/Session.tsx:60-70 | one cleanup run: an `off` for each event type, in order |
| SessionComponent.SubscribeAllOnlyListeners | bhh-brainstorming/frontend/src/components/Session.tsx:28-59 | mounting registers only listener bodies, never an empty closure |
| SessionComponent.UnsubscribePlaceholdersChangesNothing | bhh-brainstorming/frontend/src/components/Session.tsx:60-70 | the cleanup as written, with fresh `() => {}` closures, leaves the registry exactly as it was |
| SessionComponent.ListOfSubscribeAll | bhh-brainstorming/frontend/src/components/Session.tsx:28-59 | mounting appends one body to the list of each subscribed event and to no other |
| SessionComponent.ListOfUnsubscribeRegistered | bhh-brainstorming/frontend/src/components/Session.tsx:60-70 | a cleanup that passes back the registered closures removes them from their lists only |
| SessionComponent.ChatIdeaIdIsNeverAServerIdeaId | bhh-brainstorming/frontend/src/components/Session.tsx:293 | an `idea-<index>` id never equals an id the server generates |
| SessionComponent.ChatIdeaId | bhh-brainstorming/frontend/src/components/Session.tsx:293 | the id a rating names: `idea-` followed by the transcript index in decimal |
| SessionComponent.Filter | bhh-brainstorming/frontend/src/components/Session.tsx:83 | `Array.prototype.filter`: the elements the predicate accepts, in their order |
| SessionComponent.FilterAppend | bhh-brainstorming/frontend/src/components/Session.tsx:83 | filtering two blocks gives the two filtered blocks, one after the other |
| SessionComponent.IsQuestionLine | bhh-brainstorming/frontend/src/components/Session.tsx:83 | the filter's predicate `q.trim() !== ''` |
| SessionComponent.NonBlankLines | bhh-brainstorming/frontend/src/components/Session.tsx:83 | the split lines filtered by `IsQuestionLine` |
| SessionComponent.QuestionLines | bhh-brainstorming/frontend/src/components/Session.tsx:83 | the questions sent: the textarea split on newlines, then filtered |
| SessionComponent.NonBlankLinesSpec | bhh-brainstorming/frontend/src/components/Session.tsx:83 | the filter keeps exactly the lines whose trim is non-empty |
| SessionComponent.QuestionLinesSpec | bhh-brainstorming/frontend/src/components/Session.tsx:82-83 | the questions are non-blank and newline-free, every non-blank line is kept, and a non-blank textarea yields at least one |
| SessionComponent.QuestionLinesOfNonBlankText | bhh-brainstorming/frontend/src/components/Session.tsx:82-83 | a textarea that is not blank yields at least one question |
| SessionComponent.NonBlankLinesAppend | bhh-brainstorming/frontend/src/components/Session.tsx:83 | the filter goes line by line: filtering two blocks gives the two filtered blocks in the same order |
| SessionComponent.NonBlankLinesOne | bhh-brainstorming/frontend/src/components/Session.tsx:83 | a single line is kept exactly when its trim is not empty |
| SessionComponent.QuestionLinesOfLines | bhh-brainstorming/frontend/src/components/Session.tsx:82-83 | a textarea typed as lines yields exactly its non-blank lines, in order and with repeats |
| SessionComponent.QuestionLinesFirstLine | bhh-brainstorming/frontend/src/components/Session.tsx:83 | the first line, when not blank, is the first question, and the rest of the text gives the rest |
| SessionComponent.Session.constructor | bhh-brainstorming/frontend/src/components/Session.tsx:14-26 | the `useState` initial values |
| SessionComponent.Session.Mount | bhh-brainstorming/frontend/src/components/Session.tsx:28-59 | the registry gains one body per event type in source order |
| SessionComponent.Session.Cleanup | bhh-brainstorming/frontend/src/components/Session.tsx:60-70 | on a registry of listener bodies the cleanup as written changes nothing |
| SessionComponent.Session.CleanupFixed | bhh-brainstorming/frontend/src/components/Session.tsx:60-70 | the corrected cleanup unsubscribes the bodies this mount registered |
| SessionComponent.Session.Invoke | bhh-brainstorming/frontend/src/components/Session.tsx:29-59 | one closure call applies its reducer to the mirrored state and leaves the form inputs alone |
| SessionComponent.Session.Deliver | bhh-brainstorming/frontend/src/components/Session.tsx:29-59 | an inbound frame runs every reached closure in registration order |
| SessionComponent.Session.HandleConnect | bhh-brainstorming/frontend/src/components/Session.tsx:73-79 | connects exactly when the username is not blank |
| SessionComponent.Session.HandleConnected | bhh-brainstorming/frontend/src/components/Session.tsx:75-77 | when the socket opens the page is connected and one `list_sessions` is sent |
| SessionComponent.Session.HandleCreateSession | bhh-brainstorming/frontend/src/components/Session.tsx:81-86 | sends only when name and questions are both non-blank, with the non-blank lines as questions |
| SessionComponent.Session.HandleJoinSession | bhh-brainstorming/frontend/src/components/Session.tsx:88-90 | sends one `join_session` unconditionally |
| SessionComponent.Session.HandleLeaveSession | bhh-brainstorming/frontend/src/components/Session.tsx:92-100 | nothing without a current session; otherwise one `leave_session` and the session-scoped state reset, the list kept |
| SessionComponent.Session.HandleSendChat | bhh-brainstorming/frontend/src/components/Session.tsx:102-107 | sends and clears the input only with a current session and a non-blank message |
| SessionComponent.Session.HandleSubmitIdea | bhh-brainstorming/frontend/src/components/Session.tsx:109-114 | sends a `'text'` idea and clears the input only with a current session and non-blank content |
| SessionComponent.Session.HandleAggregateIdeas | bhh-brainstorming/frontend/src/components/Session.tsx:116-120 | sends only with a current session |
| SessionComponent.Session.HandleSubmitRating | bhh-brainstorming/frontend/src/components/Session.tsx:122-128 | with a current session sends the form's rating and resets the form; otherwise nothing |
| SessionComponent.Session.HandleStartDiscussion | bhh-brainstorming/frontend/src/components/Session.tsx:130-134 | sends only with a current session |
| SessionComponent.RemountKeepsStaleListeners | bhh-brainstorming/frontend/src/components/Session.tsx:28-71 | as written, running the effect, its cleanup and the effect again leaves both bodies registered for every event |
| SessionComponent.RemountDuplicatesChatEntries | bhh-brainstorming/frontend/src/components/Session.tsx:44-46 | after that sequence on one instance, one `session_message` adds two transcript entries |
| SessionComponent.RemountFixedReplacesListeners | bhh-brainstorming/frontend/src/components/Session.tsx:28-71 | with the corrected cleanup the second run leaves exactly its own body |
| SessionComponent.RemountFixedSingleChatEntry | bhh-brainstorming/frontend/src/components/Session.tsx:44-46 | with the corrected cleanup one `session_message` adds one entry |
| MediaService.UploadMedia | bhh-brainstorming/frontend/src/services/mediaservice.ts:17-37 | success exactly for an ok response, whose body is the result; otherwise `Upload failed: <status>` or the fetch error rethrown |
| MediaService.GetMediaUrlCases | bhh-brainstorming/frontend/src/services/mediaservice.ts:85-94 | an `http…` path is kept; a `/…` path is appended to the API origin; any other path gets a slash inserted |
| MediaService.GetMediaUrl | bhh-brainstorming/frontend/src/services/mediaservice.ts:85-94 | the URL of a stored medium: a path starting with `http` kept, any other joined to the API origin with a slash between |
| MediaService.GetMediaUrlIsAbsolute | bhh-brainstorming/frontend/src/services/mediaservice.ts:10-94 | every result starts with `http`; a relative path lands under the origin followed by a slash |
| MediaService.GetMediaUrlIdempotent | bhh-brainstorming/frontend/src/services/mediaservice.ts:85-94 | normalising twice is normalising once |
| MediaService.GetMediaUrlOfUpload | bhh-brainstorming/frontend/src/services/mediaservice.ts:91-93 | an uploaded file's `/media/<name>` URL resolves to the origin plus that path |
| MediaService.SubmitIdeaWithMedia | bhh-brainstorming/frontend/src/services/mediaservice.ts:45-70 | without a file exactly the `'text'` idea; with a file one idea with the uploaded type and URL after a successful upload, nothing and the error otherwise |
| MediaService.TriggerAggregation | bhh-brainstorming/frontend/src/services/mediaservice.ts:76-78 | sends exactly what `aggregateIdeas` sends |
| MediaUploader.GroupsAreAcceptedTypes | bhh-brainstorming/frontend/src/components/MediaUploader.tsx:18-23 | the four groups hold exactly the seven accepted types |
| MediaUploader.CheckAllowed | bhh-brainstorming/frontend/src/components/MediaUploader.tsx:32-38 | the group loop answers true exactly for the seven accepted types |
| MediaUploader.AcceptedTypesAreStored | bhh-brainstorming/frontend/src/components/MediaUploader.tsx:18-23 | every type the picker accepts is stored by the server's upload check, which also stores `text/link` |
| MediaUploader.PreviewFor | bhh-brainstorming/frontend/src/components/MediaUploader.tsx:45-58 | a new preview exactly for image, video and audio types, a data URL exactly for images |
| MediaUploader.PreviewOfAccepted | bhh-brainstorming/frontend/src/components/MediaUploader.tsx:45-58 | among accepted types only `text/plain` keeps the previous preview |
| MediaUploader.FailedResponseMessage | bhh-brainstorming/frontend/src/components/MediaUploader.tsx:84-85 | a failed response is shown as `Upload failed: Upload failed: <status>` |
| MediaUploader.Uploader.constructor | bhh-brainstorming/frontend/src/components/MediaUploader.tsx:11-16 | the initial form state |
| MediaUploader.Uploader.HandleFileChange | bhh-brainstorming/frontend/src/components/MediaUploader.tsx:25-59 | the error is cleared; no file: nothing else; refused type: only the error; accepted type: selected, preview replaced for media types |
| MediaUploader.Uploader.HandleContentChange | bhh-brainstorming/frontend/src/components/MediaUploader.tsx:61-63 | the content becomes the input value |
| MediaUploader.Uploader.BeginSubmit | bhh-brainstorming/frontend/src/components/MediaUploader.tsx:66-75 | an empty form is refused with the error; otherwise uploading starts with the error cleared |
| MediaUploader.Uploader.FinishSubmit | bhh-brainstorming/frontend/src/components/MediaUploader.tsx:78-88 | uploading ends; success resets the form, failure keeps it and sets the error |
| MediaUploader.Uploader.HandleSubmit | bhh-brainstorming/frontend/src/components/MediaUploader.tsx:65-89 | the whole submit: the refusal, the envelope sent in each case, and the state after success or failure |
| MediaUploader.Uploader.HandleReset | bhh-brainstorming/frontend/src/components/MediaUploader.tsx:91-98 | file, preview, error and input cleared; content kept |
| SessionManager.EnumerationIsComplete | bhh-brainstorming/backend/models/session_manager.go:67-75 | an iteration of a map's keys, each once, reaches every key |
| SessionManager.Session.constructor | bhh-brainstorming/backend/models/session_manager.go:43-53 | the creator is the only user, under its id; there are no ideas; the other fields are copied |
| SessionManager.Session.View | bhh-brainstorming/backend/models/session_manager.go:32-41 | the session as marshalled: id, name, questions, creator, users and ideas |
| SessionManager.Session.AddUser | bhh-brainstorming/backend/models/session_manager.go:55-59 | inserts or overwrites `user.ID` only, keeping users keyed by id |
| SessionManager.Session.RemoveUser | bhh-brainstorming/backend/models/session_manager.go:61-65 | deletes only `userID`; a no-op when absent |
| SessionManager.Session.GetUsers | bhh-brainstorming/backend/models/session_manager.go:67-75 | each user exactly once, in some key order; the length is the map size |
| SessionManager.Session.AddIdea | bhh-brainstorming/backend/models/session_manager.go:77-81 | appends at the end, earlier ideas unchanged |
| SessionManager.GenerateSessionId | bhh-brainstorming/backend/models/session_manager.go:129-137 | six characters, each from `A–Z0–9`, the `i`-th picked by the `i`-th draw |
| SessionManager.SessionManager.constructor | bhh-brainstorming/backend/models/session_manager.go:88-92 | an empty registry |
| SessionManager.SessionManager.CreateSession | bhh-brainstorming/backend/models/session_manager.go:94-101 | a new session under a generated id, replacing any session with that id, the rest of the registry unchanged |
| SessionManager.SessionManager.GetSession | bhh-brainstorming/backend/models/session_manager.go:103-111 | the registered session, or `session does not exist` exactly when the id is absent |
| SessionManager.SessionManager.ListSessions | bhh-brainstorming/backend/models/session_manager.go:113-121 | each registered session exactly once; the length is the registry size |
| SessionManager.SessionManager.RemoveSession | bhh-brainstorming/backend/models/session_manager.go:123-127 | deletes only that id |
| SessionManager.CreateThenGet | bhh-brainstorming/backend/models/session_manager.go:94-111 | a session looked up by the id it was just created under is found |
| Models.Session.constructor | bhh-brainstorming/backend/models/models.go:22-30 | exactly one user, the creator, under its id and with its username |
| Models.Session.AddUser | bhh-brainstorming/backend/models/models.go:32-36 | a new id grows the map by one; a known id is overwritten and keeps the size |
| Models.Session.RemoveUser | bhh-brainstorming/backend/models/models.go:39-43 | removes only that id; every other user stays |
| Models.Session.GetUsers | bhh-brainstorming/backend/models/models.go:45-53 | each user once; the length is the map size |
| Models.NewSessionScenario | bhh-brainstorming/backend/models/session_test.go:7-39 | the fields are copied and the creator is the one user |
| Models.AddUserScenario | bhh-brainstorming/backend/models/session_test.go:41-58 | adding a second user yields two users, the new one with its username |
| Models.RemoveUserScenario | bhh-brainstorming/backend/models/session_test.go:60-89 | removing the second user leaves only the creator |
| MediaHandler.IsAllowedTypeCharacterization | bhh-brainstorming/backend/handlers/media.go:74-86 | exactly the eight allowlisted types and the four bare major types pass |
| MediaHandler.IsAllowedType | bhh-brainstorming/backend/handlers/media.go:74-86 | the allowlist check: an entry equal to the type, or an entry that starts with the type followed by a slash |
| MediaHandler.SlashPrefixIsMajor | bhh-brainstorming/backend/handlers/media.go:79-83 | a `major/minor` type starts with `m + "/"` only for `m = major` |
| MediaHandler.IsAllowedTypeRejects | bhh-brainstorming/backend/handlers/media.go:74-86 | the empty string, `image/gif` and `application/pdf` fail; `image` and `text/link` pass |
| MediaHandler.UploadCheckIsStricter | bhh-brainstorming/backend/handlers/media.go:41-45 | the upload check implies `IsAllowedType`, and `video` separates them |
| MediaHandler.UploadSucceedsIff | bhh-brainstorming/backend/handlers/media.go:27-73 | an upload succeeds exactly for a POST with an allowlisted `media` part when every file step succeeds |
| MediaHandler.UploadMedia | bhh-brainstorming/backend/handlers/media.go:27-73 | the upload handler: method and form checks, the type check, then the file steps, each failure with its status and text |
| MediaHandler.UploadedNameAndUrl | bhh-brainstorming/backend/handlers/media.go:52-53 | the stored name is the uuid plus the original extension and the URL is that name under `/media/` |
| MediaHandler.UploadedMediaType | bhh-brainstorming/backend/handlers/media.go:68 | the reported media type is the content type's part before the slash, a major type that `IsAllowedType` accepts |
| MediaHandler.MajorPartOfAllowed | bhh-brainstorming/backend/handlers/media.go:16-25 | the part of an allowlisted type before its slash is a major type |
| OpenAIService.CreateAPIRequest | bhh-brainstorming/backend/services/open_ai_service.go:43-52 | for an allowed type, `gpt-4o-mini` with one user message of that type and URL and no text; otherwise the zero request and `invalid media type` |
| OpenAIService.PromptForMentionsUrl | bhh-brainstorming/backend/services/open_ai_service.go:142-197 | every prompt contains the URL, except a text message with text, whose prompt is that text |
| OpenAIService.PromptFor | bhh-brainstorming/backend/services/open_ai_service.go:142-197 | the user string sent for one message, by content-type group |
| OpenAIService.CallOpenAI | bhh-brainstorming/backend/services/open_ai_service.go:135-215 | the completion service asked with the request's model and the prompts of its messages in order |
| OpenAIService.Prompts | bhh-brainstorming/backend/services/open_ai_service.go:142-197 | one prompt per message, in order, whatever the role |
| OpenAIService.BuildPrompts | bhh-brainstorming/backend/services/open_ai_service.go:140-197 | the loop builds exactly `Prompts` of the request's messages |
| OpenAIService.ProcessMedia | bhh-brainstorming/backend/services/open_ai_service.go:54-77 | at most one remote request is sent |
| OpenAIService.ProcessTextShortCircuits | bhh-brainstorming/backend/services/open_ai_service.go:56-58 | plain text with content is returned as is, with no remote call |
| OpenAIService.ProcessRejectsBeforeCalling | bhh-brainstorming/backend/services/open_ai_service.go:61-64 | a type `IsAllowedType` refuses fails with `invalid media type` before any remote call |
| OpenAIService.ProcessCallsOnce | bhh-brainstorming/backend/services/open_ai_service.go:61-76 | any other item sends exactly one `gpt-4o-mini` request, and the reply is the result |
| OpenAIService.ItemMessages | bhh-brainstorming/backend/services/open_ai_service.go:104-107 | one `Content from <type>: <content>` message per item, in item order |
| OpenAIService.AggregateMessagesShape | bhh-brainstorming/backend/services/open_ai_service.go:84-115 | `n + 2` messages: the system text, the item messages in order, the summary request |
| OpenAIService.CreateContent | bhh-brainstorming/backend/services/open_ai_service.go:37-39 | a content from its three fields |
| OpenAIService.CreateMessage | bhh-brainstorming/backend/services/open_ai_service.go:40-42 | a message from a role and a content |
| OpenAIService.ItemMessage | bhh-brainstorming/backend/services/open_ai_service.go:104-107 | the message for one processed item: `Content from <type>: <content>` as user text |
| OpenAIService.AggregateMessages | bhh-brainstorming/backend/services/open_ai_service.go:84-115 | the aggregate request's messages: the system text, one message per item, the summary request |
| OpenAIService.AggregatePromptsAreTexts | bhh-brainstorming/backend/services/open_ai_service.go:84-115 | every aggregate message, the system one included, reaches the service as its text |
| OpenAIService.ProcessAll | bhh-brainstorming/backend/services/open_ai_service.go:93-108 | when every item processes, one result per item |
| OpenAIService.AggregateMedia | bhh-brainstorming/backend/services/open_ai_service.go:79-133 | the first failing item aborts with its error and no aggregate request; otherwise one `gpt-4o` request over the built messages, whose reply is the result |
| OpenAIService.ProcessAllStopsAtFailure | bhh-brainstorming/backend/services/open_ai_service.go:96-100 | once a prefix of the items fails, the whole run fails with the same error |
| OpenAIService.Min | bhh-brainstorming/backend/services/open_ai_service.go:217-222 | the smaller argument |
| OpenAIService.LogSliceInBounds | bhh-brainstorming/backend/services/open_ai_service.go:102 | the logged slice bound is within the content |
| Hub.PostReachesExactlyTargets | bhh-brainstorming/backend/websocket/hub.go:401-409 | a broadcast appends the message once to each target's mailbox and leaves every other mailbox alone |
| Hub.Post | bhh-brainstorming/backend/websocket/hub.go:401-409 | one message appended to the mailbox of each target client |
| Hub.Members | bhh-brainstorming/backend/websocket/hub.go:404-405 | the clients mapped to a session id |
| Hub.ServerMessage | bhh-brainstorming/backend/websocket/hub.go:237-241 | an envelope the server composes: type, session id and data, no user fields |
| Hub.ErrorMessage | bhh-brainstorming/backend/websocket/hub.go:163-166 | an `error` envelope with the text as data |
| Hub.SessionsListMessage | bhh-brainstorming/backend/websocket/hub.go:390-393 | a `sessions_list` envelope with the session views as data |
| Hub.SessionUpdated | bhh-brainstorming/backend/websocket/hub.go:237-241 | a `session_updated` envelope with the session id and its view |
| Hub.Views | bhh-brainstorming/backend/websocket/hub.go:389-392 | each session as marshalled at the time of sending, in list order |
| Hub.PostToNobody | bhh-brainstorming/backend/websocket/hub.go:401-409 | a broadcast with no targets changes nothing |
| Hub.PostToOne | bhh-brainstorming/backend/websocket/hub.go:401-409 | a send to one client appends to its mailbox only |
| Hub.PostOneMore | bhh-brainstorming/backend/websocket/hub.go:401-409 | sending to one more client, one at a time, is broadcasting to the larger set |
| Hub.StringsOfAppend | bhh-brainstorming/backend/websocket/hub.go:181-186 | collecting strings distributes over concatenation, keeping their order |
| Hub.StringsOf | bhh-brainstorming/backend/websocket/hub.go:181-186 | the string elements of the questions array, in order; other elements skipped |
| Hub.StringsOfMembership | bhh-brainstorming/backend/websocket/hub.go:181-186 | exactly the string elements of the array survive |
| Hub.CreateRequestAccepts | bhh-brainstorming/backend/websocket/hub.go:158-186 | a creation proceeds exactly for object data with a non-empty string name and an array of questions; the questions are its strings; otherwise the matching error text |
| Hub.CreateRequest | bhh-brainstorming/backend/websocket/hub.go:158-186 | the name and questions of a creation, or the error text it is refused with |
| Hub.IdeaRequestAccepts | bhh-brainstorming/backend/websocket/hub.go:300-313 | an idea is kept exactly when its content is a non-empty string; a missing media type is `text` |
| Hub.IdeaRequest | bhh-brainstorming/backend/websocket/hub.go:291-313 | the content and media type of a submission, or nothing when it is dropped |
| Hub.IdeaIdInjective | bhh-brainstorming/backend/websocket/hub.go:315 | ideas submitted at different clock readings get different ids |
| Hub.IdeaId | bhh-brainstorming/backend/websocket/hub.go:315 | an idea's id: the clock reading in nanoseconds, in decimal |
| Hub.BulletsAppend | bhh-brainstorming/backend/websocket/hub.go:346-348 | one more idea adds one more `- <content>` line at the end |
| Hub.Bullets | bhh-brainstorming/backend/websocket/hub.go:346-348 | one `- <content>` line per idea, in order |
| Hub.AggregateText | bhh-brainstorming/backend/websocket/hub.go:345-348 | the header line followed by the bullets |
| Text.SplitAtFirst | bhh-brainstorming/backend/websocket/hub.go:345-348 | text before the first separator is the first piece of a split |
| Hub.BulletLines | bhh-brainstorming/backend/websocket/hub.go:346-348 | the bullet lines read back as one `- <content>` line per idea |
| Hub.AggregateTextLines | bhh-brainstorming/backend/websocket/hub.go:345-348 | the aggregate is the header line followed by one line per idea's content, in order |
| Hub.CollectStrings | bhh-brainstorming/backend/websocket/hub.go:181-186 | the question loop keeps exactly the array's strings, in order |
| Hub.ParseCreateRequest | bhh-brainstorming/backend/websocket/hub.go:160-186 | the type assertions and the question loop compute `CreateRequest` |
| Hub.BuildAggregate | bhh-brainstorming/backend/websocket/hub.go:345-348 | the loop builds the aggregate text |
| Hub.Hub.constructor | bhh-brainstorming/backend/websocket/hub.go:79-88 | no sessions, clients or mappings |
| Hub.Hub.Register | bhh-brainstorming/backend/websocket/hub.go:93-96 | the client joins the set of clients |
| Hub.Hub.Send | bhh-brainstorming/backend/websocket/hub.go:201 | the message is queued for that client only |
| Hub.Hub.SendNext | bhh-brainstorming/backend/websocket/hub.go:401-409 | one more send of a broadcast in progress extends its targets by one |
| Hub.Hub.BroadcastToSession | bhh-brainstorming/backend/websocket/hub.go:401-409 | every client mapped to the session gets the message once; nobody else gets anything |
| Hub.Hub.ListViews | bhh-brainstorming/backend/websocket/hub.go:389-393 | every registered session's view exactly once |
| Hub.Hub.BroadcastSessionsList | bhh-brainstorming/backend/websocket/hub.go:388-399 | one `sessions_list` of every session to every registered client |
| Hub.Hub.NotifySessionUpdate | bhh-brainstorming/backend/websocket/hub.go:232-243 | the session's current view to its members, or nothing when it is not registered |
| Hub.Hub.HandleCreateSession | bhh-brainstorming/backend/websocket/hub.go:158-203 | a refused request costs one `error` to the sender and nothing else; otherwise the sender's new session is registered, the sender mapped to it, told `session_created`, then everyone gets `sessions_list` |
| Hub.Hub.AnnounceCreated | bhh-brainstorming/backend/websocket/hub.go:197-202 | `session_created` to the creator, then `sessions_list` to everyone |
| Hub.Hub.HandleJoinSession | bhh-brainstorming/backend/websocket/hub.go:205-230 | an unknown id costs one error; a known one adds the user, maps the sender, sends `session_joined` to it and `session_updated` to every member |
| Hub.Hub.HandleLeaveSession | bhh-brainstorming/backend/websocket/hub.go:245-263 | an unmapped client changes nothing; otherwise the mapping goes first, so the leaver gets no update; an emptied session is removed and `sessions_list` goes to everyone |
| Hub.Hub.LeaveRegistered | bhh-brainstorming/backend/websocket/hub.go:253-262 | the leave after the mapping is gone: the members' update, which skips the leaver, and the removal and list broadcast for an emptied session |
| Hub.Hub.RemoveMember | bhh-brainstorming/backend/websocket/hub.go:254-258 | the user leaves the session, the members get its new view, and an emptied session is deleted |
| Hub.Hub.Unregister | bhh-brainstorming/backend/websocket/hub.go:97-113 | the branch with the broadcast corrected to run under the lock it holds: like leaving, but the departing client is still sent the update and no `sessions_list` follows; the client is forgotten |
| Hub.LockStep | bhh-brainstorming/backend/websocket/hub.go:68 | one operation on Go's non-re-entrant `sync.RWMutex` by the goroutine holding it: an acquisition it would wait on forever blocks, a release of a lock not held is fatal |
| Hub.RunLocks | bhh-brainstorming/backend/websocket/hub.go:68 | the operations in order, stopping at the first that blocks or fails |
| Hub.RunLocksAppend | bhh-brainstorming/backend/websocket/hub.go:68 | running two blocks of operations is running the second from where the first left the mutex, unless the first stopped |
| Hub.BroadcastLockOps | bhh-brainstorming/backend/websocket/hub.go:402-403 | the read lock `broadcastToSession` takes and releases, or nothing when run under the caller's write lock |
| Hub.UnregisterNotifies | bhh-brainstorming/backend/websocket/hub.go:99-101 | the branch reaches the notification exactly for a registered client mapped to a registered session |
| Hub.UnregisterLockOps | bhh-brainstorming/backend/websocket/hub.go:97-113 | the branch's `Lock`, the broadcast of the update when it notifies, and its `Unlock` |
| Hub.UnregisterBlocksAsWritten | bhh-brainstorming/backend/websocket/hub.go:97-113 | as written the branch blocks forever exactly when it notifies, and otherwise leaves the mutex free |
| Hub.UnregisterFixedReleases | bhh-brainstorming/backend/websocket/hub.go:97-113 | corrected, the branch always leaves the mutex free |
| Hub.LeaveReleasesBeforeNotifying | bhh-brainstorming/backend/websocket/hub.go:245-262 | leaving unlocks before it notifies, so its broadcasts complete and the mutex ends free |
| Hub.ReadPairsRelease | bhh-brainstorming/backend/websocket/hub.go:394-403 | read-lock and read-unlock pairs from a free mutex leave it free |
| Hub.Hub.HandleListSessions | bhh-brainstorming/backend/websocket/hub.go:265-272 | one `sessions_list` of every session to the sender |
| Hub.Hub.HandleEcho | bhh-brainstorming/backend/websocket/hub.go:274-289 | a chat or rating from a mapped sender is echoed verbatim to every member, the sender included; otherwise dropped |
| Hub.Hub.HandleIdeaSubmission | bhh-brainstorming/backend/websocket/hub.go:291-331 | dropped unless the sender is mapped, the content valid and the session registered; then the idea is appended and broadcast to the members |
| Hub.Hub.HandleAggregateIdeas | bhh-brainstorming/backend/websocket/hub.go:333-355 | for a mapped sender of a registered session, the members get every idea's content in order; otherwise nothing |
| Hub.Hub.HandleStartDiscussion | bhh-brainstorming/backend/websocket/hub.go:373-386 | for a mapped sender, the fixed announcement to the members; otherwise nothing |
| Hub.Hub.HandleMessage | bhh-brainstorming/backend/websocket/hub.go:129-156 | an undecodable frame or an unknown type changes nothing and sends nothing |
| Text.TrimEmptyIffBlank | bhh-brainstorming/frontend/src/components/Session.tsx:74 | `trim() !== ''` holds exactly when some character is not whitespace |
| Text.JoinSplit | bhh-brainstorming/frontend/src/components/Session.tsx:83 | splitting and rejoining gives back the text |
| Text.SplitJoin | bhh-brainstorming/frontend/src/components/Session.tsx:83 | joining newline-free pieces and splitting again gives the pieces back |
| Text.SplitWhole | bhh-brainstorming/frontend/src/components/Session.tsx:83 | a text without the separator is one piece |
| Text.Trim | bhh-brainstorming/frontend/src/components/Session.tsx:74 | `trim()`: leading and trailing whitespace removed |
| Text.Split | bhh-brainstorming/frontend/src/components/Session.tsx:83 | `split` on one character: the pieces between separators, at least one, none holding the separator |
| Text.StartsWith | bhh-brainstorming/frontend/src/services/mediaservice.ts:87 | `startsWith`: the text begins with the prefix |
| Text.NatToDecimal | bhh-brainstorming/frontend/src/components/Session.tsx:293 | a template number: the decimal digits, most significant first; at least one character, all digits |
| Text.IntToDecimal | bhh-brainstorming/backend/websocket/hub.go:413 | `strconv.FormatInt(n, 10)`: a minus sign for a negative number, then the digits |
| Text.Ext | bhh-brainstorming/backend/handlers/media.go:52 | the extension is a suffix of the name, empty or starting with its last dot, with no slash |
| Text.DecimalInjective | bhh-brainstorming/backend/websocket/hub.go:413 | distinct numbers format to distinct decimal strings |

## Left out

- Rendering: the JSX of the session page and the upload form. The rest of the UI components are left out too. None of it holds logic beyond a `getMediaUrl` call, which is modelled.
- Socket transport:
  - WebSocket construction, the promise `connect` returns, and the error event are left out.
  - Inbound frames arrive decoded, so a frame that fails `JSON.parse` is not modelled.
  - Payloads are a closed union of the shapes the code expects. A payload of another shape leaves the reducer's state unchanged, where the client would store it untyped.
- The server's concurrency is not modelled: the `Run` select loop, the channels, the mutexes, `readPump`/`writePump`, and the deadlines. The model is sequential. Specifically:
  - The hub mutex is modelled only for the unregister branch and the leave path, as the sequence of lock operations one goroutine performs (`Hub.RunLocks`); waiting on locks that other goroutines hold is not modelled.
  - The broadcast case of `Run`, with its non-blocking drop, is not modelled, and neither is `close(client.send)`.
- Hub.Hub.BroadcastToSession: each client's messages keep their order, but the order in which different clients are reached (Go map iteration) is not modelled.
- Hub.Hub.Unregister: models the corrected branch, which completes. As written, the branch blocks forever whenever it notifies, and then sends nothing, removes nothing and stalls every later use of the hub lock. That is stated by `Hub.UnregisterBlocksAsWritten` on the lock operations, not by this method.
- MediaHandler.UploadMedia: the success body is an `Uploaded` record. The code formats it by hand with `%s` and no JSON escaping, so a client filename whose extension holds a quote or backslash yields a body that is not valid JSON, and the client's `response.json()` rejects although the file was stored.
- Json: numbers are exact reals, where Go stores a `float64`. No operation computes on them; ratings echoed by the server keep whatever number the client sent, fractional ones included.
- Hub.Hub.HandleMessage: its ensures covers only the frames that are dropped. Each handled type's effect is stated by the handler it calls.
- Hub: message payloads keep what the handlers read:
  - the submitted `mediaURL` is dropped on the server as in the code;
  - marshalling is not modelled; a session is sent as its view at the time of sending.
- Connection setup (`client.go`, `servews.go`) and server wiring (`main.go`) are I/O and routing; `media_processor.go` does not match `ProcessMedia`'s arity. None of these is part of this model.
- Foreign calls and I/O are parameters:
  - the completion service: `callOpenAI`'s client, context, `Choices[0]` access and JSON round trip are reduced to a function from model and prompts to a reply or an error;
  - the upload handler's file-system steps are a `Storage` record of outcomes;
  - `fetch` in `uploadMedia` is its response or its rejection;
  - the FileReader and object-URL previews are a `Preview` naming the file.
- MediaUploader.Uploader.HandleFileChange: the image preview is set at once, where the code sets it when the reader finishes.
- Time and randomness are parameters: the session-id draws, the nanosecond clock for idea ids, and the upload uuid. `CreatedAt` is not modelled.
- OpenAIService.ProcessMedia: its own ensures states only that at most one request is sent. What it returns is stated by `ProcessTextShortCircuits`, `ProcessRejectsBeforeCalling` and `ProcessCallsOnce`.
- Logging (`console.log`, `log.Printf`) is not modelled, apart from the bound of the logged slice.
- Component instances: one `Store` is one instance of the session page. After a real unmount and a fresh mount, the stale bodies update the unmounted instance, which the model does not represent; there the as-written cleanup only leaks nine registry entries per mount. The entry file that would show whether StrictMode is enabled is not part of this model.

## Findings

| source | as written | input that shows it | evidently intended | confidence | as-written member | corrected member |
|---|---|---|---|---|---|---|
| bhh-brainstorming/frontend/src/components/Session.tsx:60-70 | the cleanup passes a fresh `() => {}` to each `off`, which matches no registered callback, so it removes nothing | the effect re-runs on the same component instance (React StrictMode's development double invocation: effect, cleanup, effect), then one `session_message` arrives: two identical transcript entries appear | the cleanup unsubscribes the callbacks the effect registered, so after the re-run one frame adds one entry | not executed | SessionComponent.RemountDuplicatesChatEntries | SessionComponent.RemountFixedSingleChatEntry |
| bhh-brainstorming/backend/websocket/hub.go:97-113 | the unregister branch takes the hub's write lock, then `notifySessionUpdate` calls `broadcastToSession`, which asks the same non-re-entrant mutex for a read lock | a client mapped to a registered session disconnects: the hub blocks forever, the update is never sent, and every later register, unregister and locked handler waits | the update is sent, an emptied session is removed, the client is forgotten, and the lock is released, as `Hub.Hub.Unregister` models | not executed | Hub.UnregisterBlocksAsWritten | Hub.UnregisterFixedReleases |
