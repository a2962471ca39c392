# Live-stream viewer: socket registry, chat panel and viewer session

This project is a Dafny model of the client of an Agora live-streaming app,
together with proofs about it. It covers three parts:

- **The socket module** (`socketConfig.js`). There is one module-level
  socket.io connection, created on first use. Helpers emit `joinStream`,
  `leaveStream` and `streamComment`, filling in guest identities. Five
  `add*Listener` functions each keep a single handler per event: they clear
  the event (`off`), install the new handler (`on`) and return a disposer that
  clears the event again.
- **The chat panel** (`LiveChat.jsx`). It holds the comment list, the comment
  being typed, the connection flag, the live and total viewer counts, the
  recent joins and the session id. It has one handler per socket event, a
  comment fetch that replaces the list, the effect's cleanup, and
  `sendComment` with its guard chain.
- **The viewer application** (`App.jsx`). It holds the roster of remote video
  publishers, keyed by `uid`, and the directory fetch. It also has the two
  join procedures (from the directory, and manual by channel name),
  `leaveChannel`, the test login buttons and the condition for showing the
  chat panel.

The model is split into these modules:

- `Util` holds the generic pieces: `Option`, the order-preserving `Filter`
  (`Array.prototype.filter`) with its algebra, and `String.prototype.trim`.
- `SocketConfig` models the module-level `socket` as the class
  `SocketSingleton`. The connection is the class `Connection`, holding a
  per-event handler table and the log of emitted messages.
- `LiveChat` models the panel as the class `ChatView`. Each socket event is a
  method. The five-second timer of a join is the explicit event `Expire(name)`.
- `App` models the `App` component as the class `Viewer`.
  - Each awaited call is an input. An SDK promise is a `Step` (resolved, or
    rejected with a message). A `fetch` is an `Http` outcome (threw, not ok,
    or ok with the parsed field).
  - Backend requests and SDK calls are kept in append-only logs.
  - Each join procedure is a method. It is proved equal to a pure function of
    the state before it (`AfterJoinStream`, `AfterJoinChannel`), and the
    promised properties are stated on those functions.

JavaScript's falsy strings (`undefined`, `null`, `''`) are all modelled as
the empty string.

## Model

| member | source | states |
|---|---|---|
| Util.Filter | src/App.jsx:36 | The result is no longer than the input. It holds exactly the input elements that satisfy the predicate: each kept element is in the input and passes; each passing input element is kept. |
| Util.FilterConcat | src/App.jsx:49 | Filtering a concatenation is the concatenation of the filtered parts, so kept elements keep their relative order. |
| Util.FilterIdempotent | src/components/LiveChat.jsx:78 | Filtering twice with the same predicate equals filtering once. |
| Util.FilterKeepsAll | src/App.jsx:57 | When every element passes, the filter returns the input unchanged. |
| Util.TrimStart | src/components/LiveChat.jsx:143 | The result is the suffix of the input left after removing all leading white space, and it does not start with white space. |
| Util.TrimEnd | src/components/LiveChat.jsx:143 | The result is the prefix of the input left after removing all trailing white space, and it does not end with white space. |
| Util.Trim | src/components/LiveChat.jsx:154 | The result of `trim()` neither starts nor ends with white space. |
| Util.TrimIsSlice | src/components/LiveChat.jsx:154 | `trim()` returns the slice of the text between its leading and trailing white space. Everything before the slice and everything after it is white space. Together with `Trim`'s edge property this fixes the result. |
| Util.TrimEmptyIff | src/components/LiveChat.jsx:143 | `trim()` is empty if and only if the text is all white space. This is the first guard of `sendComment`. |
| Util.TrimIdempotent | src/components/LiveChat.jsx:154 | Trimming already-trimmed content changes nothing. |
| SocketConfig.Deliver | src/socketConfig.js:138-142 | The ids called are exactly the callbacks of installed wrappers whose callback is a function. A wrapper around anything else calls nothing, and no call is made beyond one per handler. The order of calls is given by `DeliverConcat`. |
| SocketConfig.DeliverConcat | src/socketConfig.js:138-142 | Delivery to two handler lists in turn is the concatenation of the two deliveries, so callbacks are called in registration order. |
| SocketConfig.StackedHandlersFireTwice | src/socketConfig.js:133-142 | Without the `off`, two `on` calls with the same callback would make each event call it twice. This is why the registry clears the event first. |
| SocketConfig.JoinStreamPayload | src/socketConfig.js:60-64 | The `joinStream` payload is always built. It carries the channel id and the name "Guest Viewer". The user id is the given one, or "guest_viewer" when that is missing. |
| SocketConfig.LeaveStreamPayload | src/socketConfig.js:80-88 | A payload exists if and only if the channel id is present. It carries that channel id and the user id, with "guest_viewer" as the default. |
| SocketConfig.CommentPayload | src/socketConfig.js:106-116 | A payload exists if and only if both the channel id and the message are present. It carries them unchanged, with "guest_viewer" and "Guest" as the defaults for the user id and name. |
| SocketConfig.Connection.constructor | src/socketConfig.js:16-21 | A new connection has the URL and the reconnection options it was created with, no handlers, and nothing emitted. |
| SocketConfig.Connection.On | src/socketConfig.js:23-33 | `on(e, h)` appends `h` to the handlers of `e`. No other event changes, and nothing is emitted. |
| SocketConfig.Connection.Off | src/socketConfig.js:134 | `off(e)` removes every handler of `e`, so `e` calls nothing afterwards. No other event changes. |
| SocketConfig.Connection.Emit | src/socketConfig.js:111-116 | Emitting appends exactly one message to the log and leaves the handlers unchanged. |
| SocketConfig.InitialHandlers | src/socketConfig.js:23-33 | The table created at initialisation has entries for exactly `connect`, `disconnect` and `error`. |
| SocketConfig.Dispose | src/socketConfig.js:144-146 | A disposer removes every handler of its event on its connection, so the event calls nothing. All other events and the message log are unchanged. |
| SocketConfig.SocketSingleton.constructor | src/socketConfig.js:4 | At module load there is no socket. |
| SocketConfig.SocketSingleton.InitializeSocket | src/socketConfig.js:14-37 | The first call creates the one connection with the configured URL and options and three logging handlers. Later calls return the same instance and create nothing. |
| SocketConfig.SocketSingleton.GetSocket | src/socketConfig.js:42-47 | Never returns null. The result is the existing socket, or a new one when none exists. |
| SocketConfig.SocketSingleton.JoinStream | src/socketConfig.js:52-69 | Appends exactly the `joinStream` payload to the log of the one socket, creating the socket if needed. Handlers are unchanged. |
| SocketConfig.SocketSingleton.LeaveStream | src/socketConfig.js:71-93 | The socket is obtained (and created if needed) before the guard runs. The log gains the `leaveStream` payload, or nothing when the channel id is missing. |
| SocketConfig.SocketSingleton.SendComment | src/socketConfig.js:98-121 | The log gains the `streamComment` payload, or nothing when the channel id or the message is missing. Handlers are unchanged. |
| SocketConfig.SocketSingleton.Subscribe | src/socketConfig.js:133-142 | Afterwards the event has exactly one handler, the new wrapper, whatever it had before. Every other event, including the three lifecycle handlers, is unchanged. The returned disposer targets this socket and event. |
| SocketConfig.SocketSingleton.AddStreamEndListener | src/socketConfig.js:126-147 | `streamEnded` is replaced by the single new handler; the rest of the table and the log are unchanged. |
| SocketConfig.SocketSingleton.AddStreamStartListener | src/socketConfig.js:152-173 | `streamStarted` is replaced by the single new handler; the rest of the table and the log are unchanged. |
| SocketConfig.SocketSingleton.AddCommentListener | src/socketConfig.js:187-208 | `newComment` is replaced by the single new handler; the rest of the table and the log are unchanged. |
| SocketConfig.SocketSingleton.AddUserJoinedListener | src/socketConfig.js:213-234 | `userJoined` is replaced by the single new handler; the rest of the table and the log are unchanged. |
| SocketConfig.SocketSingleton.AddViewerCountListener | src/socketConfig.js:239-260 | `viewerCount` is replaced by the single new handler; the rest of the table and the log are unchanged. |
| SocketConfig.SocketSingleton.RemoveStreamEndListener | src/socketConfig.js:178-182 | Clears `streamEnded` on an existing socket. It never creates a socket and never touches another event. |
| SocketConfig.InitializeRepeatedly | src/socketConfig.js:14-37 | Calling `initializeSocket` n times returns the same connection every time. |
| SocketConfig.ResubscribeNeverStacks | src/socketConfig.js:187-208 | After any number of `addCommentListener` calls, an inbound `newComment` calls only the last callback, once, and only if it is a function. |
| SocketConfig.StaleDisposerClearsNewer | src/socketConfig.js:144-146 | Running the first subscription's disposer also removes the second subscription's handler. The `connect` logging handler survives. |
| LiveChat.WithoutName | src/components/LiveChat.jsx:78 | The expiry keeps exactly the recent joins whose name differs from the expired one. |
| LiveChat.ExpiryRemovesEarlierSameName | src/components/LiveChat.jsx:76-79 | The timer of a join removes that join and every earlier entry with the same name, so entries do not expire one by one. |
| LiveChat.FirstExpiry | src/components/LiveChat.jsx:76-79 | With two joins, the first timer leaves the second join if and only if its name differs. |
| LiveChat.DecideSend | src/components/LiveChat.jsx:143-155 | A send happens if and only if the text is not all white space, a socket exists, the view is connected and the user is logged in. The login prompt happens if and only if everything but the login holds. Sent content is the trimmed text: non-empty, with no white space at either end. |
| LiveChat.ChatView.constructor | src/components/LiveChat.jsx:7-15 | The first render: no comments, empty input, no socket, disconnected, zero counts, no recent joins, empty session id. `isLoggedIn` is fixed from the user id. |
| LiveChat.ChatView.Setup | src/components/LiveChat.jsx:20-29 | It runs only on a view whose handlers are not installed, because React runs the cleanup before it re-runs the effect. With an empty stream id nothing changes. Otherwise a new socket is created and the handlers are installed on it, capturing the current session id. |
| LiveChat.ChatView.Cleanup | src/components/LiveChat.jsx:126-131 | Sends `leaveStream` without a payload on the panel's socket, then disconnects. Only the log, the connection flag and the installed state change. |
| LiveChat.ChatView.OnConnect | src/components/LiveChat.jsx:32-42 | Marks the view connected and emits `joinStream` on its socket. The message carries the stream and user ids, plus the session id the handlers captured at setup, omitted when that id is empty. |
| LiveChat.ChatView.OnJoinedStream | src/components/LiveChat.jsx:44-51 | Adopts the server's session id only when it is non-empty and the captured one is empty. Always overwrites both counts with the server's values. |
| LiveChat.ChatView.OnViewerCount | src/components/LiveChat.jsx:53-57 | Both counts become the received values and nothing else changes. |
| LiveChat.ChatView.OnNewComment | src/components/LiveChat.jsx:59-62 | Appends exactly one comment at the end; earlier comments and all other state are unchanged. |
| LiveChat.ChatView.OnViewerJoined | src/components/LiveChat.jsx:64-76 | Appends one "name joined" system message to the comments and one name/guest entry to the recent joins; nothing else changes. |
| LiveChat.ChatView.Expire | src/components/LiveChat.jsx:77-79 | Afterwards no recent join has the expired name. Every other entry stays, in order, and nothing else changes. |
| LiveChat.ChatView.OnViewerLeft | src/components/LiveChat.jsx:82-85 | Overwrites only the live count; `totalViews` and everything else are unchanged. |
| LiveChat.ChatView.OnStreamEnded | src/components/LiveChat.jsx:87-97 | Appends the single system message "Live stream has ended" and changes nothing else. |
| LiveChat.ChatView.OnDisconnect | src/components/LiveChat.jsx:103-106 | Clears the connection flag only. |
| LiveChat.ChatView.CommentsFetched | src/components/LiveChat.jsx:109-121 | An ok response whose `comments` is an array replaces the whole list with that array, dropping comments that arrived meanwhile. Any other outcome changes nothing: a rejected request, a response that is not ok, or a missing or non-array field. |
| LiveChat.ChatView.Type | src/components/LiveChat.jsx:214-220 | Typing sets the comment box and nothing else, but only for a logged-in user on a connected view. Otherwise the box is disabled and nothing changes. As a result, a guest's box stays empty (part of `ChatView.Valid`). |
| LiveChat.ChatView.SendComment | src/components/LiveChat.jsx:140-159 | If the guards allow a send, emits the trimmed comment once on the socket and clears the box. Otherwise nothing changes. The comment list is never touched, so there is no local echo. For a guest the login prompt is never reached, because the box is always empty and the empty-text guard returns first. |
| LiveChat.RepeatedJoinedStream | src/components/LiveChat.jsx:44-48 | Because the handlers captured an empty session id, a second `joinedStream` overwrites the session id adopted from the first. A reconnect still sends no session id. |
| App.JoinErrorText | src/App.jsx:159 | The join error text is the error's message, or "Failed to join channel" when that is missing, so it is never empty. |
| App.TokenError | src/App.jsx:108-116 | A token request never yields both a token and an error. Every error starts with "Token error: ". The only way to get neither a token nor an error is an ok response without a token. |
| App.WithoutUid | src/App.jsx:49 | The roster keeps exactly the entries whose uid differs from the given one. |
| App.AfterPublished | src/App.jsx:34-37 | A video publish leaves the user last. No earlier entry shares its uid, and every other entry stays. An audio publish leaves the roster unchanged. |
| App.AfterUnpublished | src/App.jsx:47-51 | A video unpublish removes exactly the entries with that uid. It equals `WithoutUid`, so every other entry stays, in order. An audio unpublish leaves the roster unchanged. |
| App.WithoutUidKeepsUnique | src/App.jsx:57 | Removing a uid keeps the roster's uids unique. |
| App.PublishedKeepsUnique | src/App.jsx:34-37 | A publish keeps the roster's uids unique. |
| App.PublishIdempotent | src/App.jsx:34-37 | Publishing the same video user twice gives the same roster as publishing once. |
| App.LeftAfterPublished | src/App.jsx:36 | A user who publishes and then leaves leaves the roster as it was, minus that uid. |
| App.RemovalKeepsOrder | src/App.jsx:57 | Removing a uid acts separately on the two halves of a split roster, so the other entries keep their order. |
| App.RemovingAbsentUidKeepsRoster | src/App.jsx:54-58 | A `user-left` or video unpublish for a uid that is not on the roster leaves the roster exactly as it was. |
| App.AfterEnter | src/App.jsx:136-140 | Only the SDK log, the error and `joinState` change. The viewer is joined if and only if both the role and the join resolve. The first rejection's message, or the default, becomes the error. |
| App.AfterJoinStream | src/App.jsx:120-161 | Without a client nothing changes. Otherwise the error ends empty if and only if a token came back and both SDK steps resolved. Without a token, the error is "Could not get stream token" and the channel, stream id, token and `joinState` are unchanged. With a token, the channel and stream id are recorded even if the join later fails, and a rejected role or join leaves its message, or "Failed to join channel". The request log gains the token request, then the view-count `PUT` only after a successful join of a stream with an id. The roster and directory are untouched. |
| App.AfterJoinChannel | src/App.jsx:163-199 | Without a client or a channel name nothing changes. A token request is added if and only if the current token is empty; then the fetched token, possibly none, is stored, and an existing token is kept. The error ends empty if and only if both SDK steps resolve and no token fetch failed. A failed fetch leaves its "Token error: …" while the join goes on and succeeds. A rejection leaves the role's or the join's message, or the default. `joinState` becomes true exactly when both SDK steps resolve. A successful join whose lookup lists a stream sets `currentStreamId` to the first stream's id, and `currentStreamId` changes in no other case. |
| App.JoinStreamShowsPanel | src/App.jsx:336-344 | After a successful directory join of a stream with an id, the chat panel is shown for that stream, with the user id and "Test User" or "Guest". |
| App.FailedJoinStreamHidesPanel | src/App.jsx:120-161 | A directory join that does not get through leaves a hidden chat panel hidden, even though the stream id may already be recorded. |
| App.JoinChannelPanel | src/App.jsx:163-199 | Starting from a hidden panel, a manual join shows the chat panel exactly when both SDK steps resolve and a stream id is present afterwards. That id is the first one the lookup lists, or, when the lookup lists none, the id the state already held. |
| App.StaleStreamIdOpensPanel | src/App.jsx:120-199 | A directory join that gets a token but is rejected by the SDK leaves its stream id behind with the panel hidden. A later manual join into another channel reuses the stored token and fetches none. If its lookup lists no stream, it opens the chat panel for the old stream. |
| App.Viewer.constructor | src/App.jsx:11-22 | The first render: no client, not joined, empty roster, empty strings and logs, and no chat panel. |
| App.Viewer.CreateClient | src/App.jsx:25-27 | `init` creates the media client and changes nothing else. |
| App.Viewer.OnUserPublished | src/App.jsx:30-43 | Logs the subscribe call. Once the subscription resolves, the roster becomes the published roster; a rejected subscription leaves it unchanged. Uids stay unique. |
| App.Viewer.OnUserUnpublished | src/App.jsx:45-52 | The roster becomes the unpublished roster and uids stay unique. |
| App.Viewer.OnUserLeft | src/App.jsx:54-59 | Removes exactly the entries with that uid. |
| App.Viewer.FetchLiveStreams | src/App.jsx:77-93 | Always ends with `loading` false. On success the list becomes the streams, or empty when the field is missing. On failure the list is kept and the fixed error message is set. |
| App.Viewer.GetToken | src/App.jsx:95-118 | Logs one token request for the channel with the audience role. Returns the token of an ok response and none otherwise, and sets the error only as `TokenError` reports. |
| App.Viewer.Enter | src/App.jsx:136-140 | The new state is `AfterEnter` of the old state, and the result says whether both SDK steps resolved. |
| App.Viewer.JoinStream | src/App.jsx:120-161 | The new state is `AfterJoinStream` of the old state. |
| App.Viewer.Watch | src/App.jsx:131-156 | The new state is `AfterWatch` of the old state: the part of `joinStream` after the token arrived. What it records, the rejection text and the view-count `PUT` condition are stated on `AfterJoinStream`. |
| App.Viewer.EnsureToken | src/App.jsx:168-173 | Keeps an entered token; otherwise fetches one and stores whatever comes back. |
| App.Viewer.JoinChannel | src/App.jsx:163-199 | The new state is `AfterJoinChannel` of the old state. |
| App.Viewer.LookUpStream | src/App.jsx:184-194 | Logs the lookup and adopts the first listed stream's id, if there is one. |
| App.Viewer.LeaveChannel | src/App.jsx:201-210 | Without a client nothing changes. A rejected leave only logs the call. A resolved leave empties the roster, clears `joinState` and the stream id, and hides the chat panel. |
| App.Viewer.TypeChannelName | src/App.jsx:282-288 | Typing in the manual channel box sets `channelName` and nothing else. While joined the box is disabled, so nothing changes. |
| App.Viewer.TypeToken | src/App.jsx:289-295 | Typing in the optional token box sets `token` and nothing else. While joined the box is disabled, so nothing changes. |
| App.Viewer.SimulateLogin | src/App.jsx:213-216 | Sets the user id to "test_user_123" and nothing else. |
| App.Viewer.SimulateLogout | src/App.jsx:218-220 | Clears the user id and nothing else. |
| App.Viewer.MountChatPanel | src/App.jsx:336-344 | A chat view is mounted if and only if the panel is shown. A mounted view gets the current stream and user ids and always sets up its socket. |

## Left out

- The socket.io transport, connection establishment and the reconnect policy. The URL, reconnection attempts and delay are kept only as constants on the connection.
- The Agora SDK: creating the client, `subscribe`, `setClientRole`, `join`, `leave` and playing tracks. Each call is an input step that resolves or rejects. `Viewer.CreateClient` only records that a client exists.
- `fetch`, JSON parsing and the backend URLs. Each response is an input outcome. The view-count `PUT` is logged as a request and its outcome is ignored, as the code ignores it.
- Rendering, the auto-scroll effect, `alert` and `console` logging. The socket's `error` handlers only log, so they are logging handlers in the model.
- Wall-clock time: the five-second timer becomes the explicit event `ChatView.Expire`, and the ids and timestamps built from `Date.now()` and `new Date()` are parameters.
- Interleaving of asynchronous code. Each async procedure is modelled as one atomic step, from its state before to its state after. A socket or roster event that arrives while a join is awaiting is not modelled.
- The app's unmount cleanup (closing local tracks and `client?.leave()`) and `refreshStreams`, which only calls `fetchLiveStreams`.
- Re-running the chat effect when its props change. A `ChatView` has fixed stream and user ids, and `Setup` and `Cleanup` may alternate on it. In the app, `SimulateLogin` or `SimulateLogout` while the panel is shown re-runs the effect with the new `userId`. The mounted panel keeps the `isLoggedIn` of its first render. So after a login the comment box stays disabled, and after a logout it stays enabled, with the new user id in its messages. The model does not express this, because `ChatView.userId` is fixed per view.
- Values of the wrong JavaScript type in payloads and props (`undefined` counts, non-string names). Strings are `seq<char>`, and a missing string is the empty string.
- `Util.IsSpace`: it covers the ECMAScript white-space and line-terminator characters listed there. It relies on Dafny's `char`, not a full Unicode table.
- Features that do not exist in this code are not modelled: a local echo of sent comments, channel filtering of viewer counts, stream-status polling, exactly-once handling of a stream's end, and sequence-numbered last-writer-wins updates. Joins of one name expire together, by name, not per entry.
- The chat handlers capture the session id from the render in which the effect ran, because `sessionId` is not a dependency of the effect. The model keeps that captured value as `capturedSessionId`, and `LiveChat.RepeatedJoinedStream` shows the effect.
