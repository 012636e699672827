# privat: call signalling, notification and session stores, chat routes

This project models the core of *privat*, a Next.js chat application with
one-to-one audio/video calls:

- the client call store (`privat/src/store/call.ts`): the WebRTC call
  controller with `startCall`, `acceptCall`, `declineCall`, `endCall`,
  `handleSignal`, signal polling and the peer-connection callbacks;
- the server's signal mailbox routes, `POST /api/call/signal` and
  `GET /api/call/pending`, and how they carry one controller's signals to
  another;
- the notification store (an `EventSource` with a 25-entry newest-first log
  and a reconnect timer) and the session store;
- the chat panel's own logic: the conversation list, which notification
  concerns the open conversation, the send guards and payload, and the
  in-place sort of the message list;
- the routes `chat/send`, `chat/history`, `profile/privacy`, `users/search`,
  `friends` (GET and POST), `auth/session` and `auth/logout`.

JavaScript values read from request bodies are `Json.Value`, so truthiness,
`?.`, destructuring and `??` are modelled exactly (`Json.Truthy`,
`Json.Prop`, `Json.OrElse`). An awaited call that can throw is an
`Attempt` (`Returned(value)` or `Threw(message)`). The shared catch block,
which turns `UNAUTHORIZED` into a 401, is `Json.Caught`. Calls into the
server store (`sendMessage`, `getConversation`, `addFriend`,
`updatePrivacy`, the user and session lookups) are function parameters. Each
route returns its response together with the trace of store calls it made,
so "called once, with the caller's id, only after validation" can be stated.

The call store is modelled twice, in `CallSpec` and in `CallStore`:

- `CallSpec` holds one function per operation over a `CallState` value, and
  the lemmas about them.
- `CallStore.CallController` is a class whose fields are the store's state,
  the module-level `peerConnection` and `pollingTimer`, and a `World` log of
  effects on the outside. Those effects are the signals posted,
  descriptions and candidates applied, connections closed, streams stopped,
  media requested and polls made.
- Every method ensures `State() == CallSpec.X(old(State()), …)`, so the
  lemmas proved about `CallSpec` hold of the methods.

Browser promises (`getUserMedia`, `createOffer`, `setLocalDescription`, …)
are a step parameter that names the stage at which the chain fails.
`Signals` models the store's per-recipient signal queue; `CallFlow` puts two
controllers and the two routes together.

Behaviour is modelled as the code is written, including these:

- an answer is applied whoever sent it;
- an offer replaces a session already in progress;
- `startCall` does not refuse when busy, and the replaced connection is not
  closed;
- answers and candidates that arrive before a connection exists are dropped;
- a candidate the connection rejects is swallowed;
- a received hangup runs `endCall`, which echoes one hangup back;
- the token pattern matches the key anywhere in the `Cookie` header;
- `users/search` upper-cases the names but not the ids;
- a `disconnect` does not cancel a pending reconnect.

## Model

| member | source | states |
|---|---|---|
| Signals.Enqueue | privat/src/app/api/call/signal/route.ts:15-21 | the signal joins the end of its recipient's queue; every other queue is unchanged |
| Signals.Drain | privat/src/app/api/call/pending/route.ts:7-9 | the recipient's whole queue is returned in arrival order and left empty; other queues are untouched |
| SignalRoute.Post | privat/src/app/api/call/signal/route.ts:5-30 | 200 "Sinyal terkirim" exactly when the caller is known and `toId` and `kind` are truthy, and only then is a signal enqueued, stamped with the caller's id; otherwise the mailbox is unchanged; missing fields answer 400 "Data sinyal tidak lengkap"; a failed authentication or body parse answers 401 for `UNAUTHORIZED` and 400 "Gagal mengirim sinyal" otherwise |
| SignalRoute.AnyKindEnqueued | privat/src/app/api/call/signal/route.ts:11-21 | a kind outside offer/answer/candidate/hangup is enqueued all the same |
| PendingRoute.Get | privat/src/app/api/call/pending/route.ts:5-16 | an authenticated poll returns the caller's pending signals and empties only that queue; a failed one leaves the mailbox alone and answers 401 or 500 |
| PendingRoute.SecondPollEmpty | privat/src/app/api/call/pending/route.ts:7-9 | a second poll straight after the first returns no signals |
| CallRoutes.PostThenPoll | privat/src/app/api/call/signal/route.ts:15-21 | a signal posted to a user is what that user's next poll returns, after those already waiting; the poll after that returns nothing |
| CallRoutes.PostDoesNotReachOthers | privat/src/app/api/call/signal/route.ts:15-21 | a post addressed elsewhere does not change another user's poll result |
| CallSpec.HandleSignalPreservesInv | privat/src/store/call.ts:162-200 | handling any signal keeps the controller invariant: a `calling` or `connected` session has a connection, a `ringing` session is the stored offer's sender and mode, a stored offer comes with a session and is an offer, only the two failure texts as errors, every connection made by `setupConnection` |
| CallSpec.DispatchPreservesInv | privat/src/store/call.ts:211-213 | handling a whole poll's signals in order keeps the invariant |
| CallSpec.StartCallPreservesInv | privat/src/store/call.ts:78-108 | every outcome of `startCall` keeps the invariant |
| CallSpec.AcceptCallPreservesInv | privat/src/store/call.ts:109-137 | every outcome of `acceptCall` keeps the invariant |
| CallSpec.StepPreservesInv | privat/src/store/call.ts:72-227 | every operation, signal, timer tick and connection callback keeps the invariant |
| CallSpec.RunPreservesInv | privat/src/store/call.ts:72-227 | any sequence of events keeps the invariant |
| CallSpec.Reachable | privat/src/store/call.ts:73-77 | the invariant holds in every state reached from the store's initial state |
| CallSpec.DispatchAppend | privat/src/store/call.ts:211-213 | handling two batches of signals one after the other is handling their concatenation |
| CallSpec.EndCallEffects | privat/src/store/call.ts:145-161 | `endCall` posts a hangup to the peer exactly when there is a session, closes the current connection, and clears session, streams, offer, error and connection; the polling timer and the applied descriptions are kept |
| CallSpec.EndCallIdempotent | privat/src/store/call.ts:145-161 | ending twice is ending once |
| CallSpec.HangupIsEndCall | privat/src/store/call.ts:193-196 | a received hangup is a local `endCall`; it echoes a hangup to the session's peer, whoever sent it |
| CallSpec.HangupEchoStops | privat/src/store/call.ts:146-149 | once a side has ended, a further hangup it receives sends nothing |
| CallSpec.LateSignalsIgnored | privat/src/store/call.ts:172-196 | after `endCall`, any batch of answers, candidates, hangups and unknown kinds leaves the state as it is |
| CallSpec.DroppedWithoutConnection | privat/src/store/call.ts:172-192 | answers and candidates arriving with no connection are dropped, not buffered |
| CallSpec.FailedCandidateSwallowed | privat/src/store/call.ts:184-190 | a candidate the connection rejects changes nothing and reports no error |
| CallSpec.AnswerFromAnySender | privat/src/store/call.ts:172-181 | an answer from any sender is applied to the current connection and marks the session connected |
| CallSpec.OfferReplacesSession | privat/src/store/call.ts:164-171 | an offer always rings: it replaces the session and the stored offer, and leaves connection, streams and logs as they were |
| CallSpec.SecondOfferWins | privat/src/store/call.ts:164-171 | of two offers in a row, only the second one has an effect |
| CallSpec.OfferModeRoundTrip | privat/src/store/call.ts:97-168 | the mode a caller puts in its offer is the mode the callee rings with and the media it asks for when accepting |
| CallSpec.StartWhileBusy | privat/src/store/call.ts:78-85 | `startCall` during a call replaces the connection without closing it or stopping any stream, whatever the outcome |
| CallSpec.StartCallOutcomes | privat/src/store/call.ts:78-108 | only full success opens a `calling` session with the new local stream and clears the error; the offer is posted exactly when the chain reaches `sendSignal`; any failure sets "Gagal memulai panggilan" and keeps the session |
| CallSpec.AcceptCallOutcomes | privat/src/store/call.ts:109-137 | no offer means no effect; success with a non-null payload answers the caller, connects and drops the offer; any failure sets "Gagal menerima panggilan" and keeps the offer and the ringing session |
| CallSpec.DeclineEffects | privat/src/store/call.ts:138-144 | a hangup goes to the caller exactly when an offer is waiting; session, offer and error are cleared; the connection is left alone |
| CallSpec.StartPollingOnce | privat/src/store/call.ts:203-220 | starting to poll twice starts once: one immediate poll and one timer |
| CallSpec.StopThenStart | privat/src/store/call.ts:203-227 | stopping and starting again installs the new timer and polls once right away |
| CallSpec.FailedPollChangesNothing | privat/src/store/call.ts:206-216 | a poll that threw or answered not-ok handles no signal |
| CallSpec.CandidateGoesToSetupPeer | privat/src/store/call.ts:51-55 | a candidate found on a connection goes to the peer that connection was set up for, even after a newer call replaced it |
| CallSpec.StopPollingIdempotent | privat/src/store/call.ts:222-227 | stopping leaves no timer, and stopping twice is stopping once |
| CallSpec.StartWhilePolling | privat/src/store/call.ts:203-204 | while a timer runs, starting again changes nothing: no poll and no second timer |
| CallSpec.AnswerWithoutSession | privat/src/store/call.ts:172-181 | an answer never creates a session where there was none |
| CallSpec.AcceptConnectsRingingPeer | privat/src/store/call.ts:109-137 | in a reachable state, a fully successful accept of a ringing call connects to the peer and in the mode the ringing session shows and answers that peer; a nullish offer payload fails and keeps the ringing session |
| CallSpec.EndingLiveCallClosesConnection | privat/src/store/call.ts:145-151 | in a reachable state, ending a `calling` or `connected` call always closes the connection it runs over |
| CallSpec.ReachableCallsAreConsistent | privat/src/store/call.ts:72-227 | in every state reached from the initial store, a `calling` or `connected` session has a connection and a `ringing` one comes from the stored offer's sender |
| CallStore.CallController.constructor | privat/src/store/call.ts:25-77 | the store starts with no session, streams, offer, error, connection or timer |
| CallStore.CallController.SendSignal | privat/src/store/call.ts:28-34 | one signal post, and nothing else changes |
| CallStore.CallController.SetupConnection | privat/src/store/call.ts:36-70 | the new connection becomes current and remembers its peer, and the media request is recorded |
| CallStore.CallController.ReportError | privat/src/store/call.ts:104-107 | sets the error text and nothing else |
| CallStore.CallController.StartCall | privat/src/store/call.ts:78-108 | leaves the state `CallSpec.StartCall` describes for the given outcome |
| CallStore.CallController.AcceptCall | privat/src/store/call.ts:109-137 | leaves the state `CallSpec.AcceptCall` describes for the given outcome |
| CallStore.CallController.DeclineCall | privat/src/store/call.ts:138-144 | leaves the state `CallSpec.DeclineCall` describes |
| CallStore.CallController.ClosePeerConnection | privat/src/store/call.ts:150-151 | closes the current connection, if any, and forgets it |
| CallStore.CallController.StopStreams | privat/src/store/call.ts:152-153 | stops the tracks of both streams that are present |
| CallStore.CallController.EndCall | privat/src/store/call.ts:145-161 | leaves the state `CallSpec.EndCall` describes |
| CallStore.CallController.HandleSignal | privat/src/store/call.ts:162-200 | leaves the state `CallSpec.HandleSignal` describes for each kind |
| CallStore.CallController.Poll | privat/src/store/call.ts:205-217 | handles an ok poll's signals one by one, in order; a failed poll changes nothing |
| CallStore.CallController.StartSignalPolling | privat/src/store/call.ts:203-220 | polls once and installs the timer, unless one is already running |
| CallStore.CallController.TimerFires | privat/src/store/call.ts:219 | a timer tick polls once |
| CallStore.CallController.StopSignalPolling | privat/src/store/call.ts:222-227 | clears the timer |
| CallStore.CallController.OnTrack | privat/src/store/call.ts:47-49 | the incoming stream becomes the remote stream |
| CallStore.CallController.OnIceCandidate | privat/src/store/call.ts:51-55 | a truthy candidate is posted to the connection's own peer; nothing is posted for a null one |
| CallStore.CallController.OnConnectionStateChange | privat/src/store/call.ts:87-93 | a live session becomes connected when the current connection reports it |
| CallFlow.DeliverOne | privat/src/store/call.ts:28-34 | what `sendSignal` posts to a user with an empty queue is exactly that user's next poll result, stamped with the sender's id |
| CallFlow.OfferRings | privat/src/store/call.ts:164-171 | a successful `startCall` makes the callee's next poll ring: a ringing session with the caller, in the caller's mode, holding the caller's offer |
| CallFlow.AnswerConnects | privat/src/store/call.ts:172-181 | after the callee accepts, the caller's poll connects the caller's session to the callee and applies the answer to the caller's connection |
| CallFlow.HangupEndsBoth | privat/src/store/call.ts:145-196 | one side's `endCall` ends the other side's call; the echoed hangup changes nothing on the first side, so the exchange stops |
| NotificationStore.Prepend | privat/src/store/notification.ts:36 | the new event is first and is followed by the previous log, which is cut so that at most 25 remain |
| NotificationStore.NewestOfNewest | privat/src/store/notification.ts:36 | cutting the log after each prepend is the same as cutting once at the end |
| NotificationStore.PrependIsNewest | privat/src/store/notification.ts:36 | a prepend keeps the 25 newest entries of the new event followed by the log |
| NotificationStore.ReceiveAllNewestFirst | privat/src/store/notification.ts:33-40 | after any run of messages, the log is the 25 newest of the parsed payloads, newest first, followed by the old log; unparsable payloads leave no trace |
| NotificationStore.ErrorSchedulesOneReconnect | privat/src/store/notification.ts:23-32 | a stream error closes the source, marks it disconnected, keeps the log and schedules exactly one reconnect |
| NotificationStore.ReconnectOnlyWhenDisconnected | privat/src/store/notification.ts:27-31 | a reconnect timer opens nothing while connected, and opens exactly one source when disconnected with no source open |
| NotificationStore.DisconnectDoesNotCancelReconnect | privat/src/store/notification.ts:23-46 | `disconnect` after a stream error does not stop the pending timer from opening a new source |
| NotificationClient.Client.constructor | privat/src/store/notification.ts:12-16 | empty log, disconnected, no source |
| NotificationClient.Client.Connect | privat/src/store/notification.ts:17-22 | opens a source only when a window exists and none is open |
| NotificationClient.Client.OnOpen | privat/src/store/notification.ts:22 | marks connected |
| NotificationClient.Client.CloseSource | privat/src/store/notification.ts:24-25 | closes the open source, if any, and forgets it |
| NotificationClient.Client.OnError | privat/src/store/notification.ts:23-32 | closes, marks disconnected and schedules a reconnect |
| NotificationClient.Client.ReconnectFires | privat/src/store/notification.ts:27-31 | the timer reconnects only if disconnected at that moment |
| NotificationClient.Client.OnMessage | privat/src/store/notification.ts:33-40 | a parsed payload is prepended to the log; an unparsable one is ignored |
| NotificationClient.Client.Disconnect | privat/src/store/notification.ts:42-46 | closes the source and marks disconnected |
| NotificationClient.Client.Clear | privat/src/store/notification.ts:47-49 | empties the log and nothing else |
| SessionStore.SignedInUser | privat/src/store/session.ts:16-33 | the user is `data.user` exactly for an ok answer whose `authenticated` is truthy, and `null` for every other outcome, including an ok answer with a `null` body |
| SessionStore.Session.constructor | privat/src/store/session.ts:13-15 | no user, loading |
| SessionStore.Session.FetchSession | privat/src/store/session.ts:16-33 | loading always ends false; the user is `SignedInUser` of the outcome; "Gagal memuat sesi" is set exactly when the outcome reaches the catch block (a thrown request, or an ok answer whose `null` body makes `data.authenticated` throw), and an earlier error is never cleared |
| SessionStore.Session.SetUser | privat/src/store/session.ts:34-36 | replaces the user and nothing else |
| SessionStore.Session.Logout | privat/src/store/session.ts:37-40 | clears the user once the logout request resolves; a rejected request leaves it |
| ChatSendRoute.Validate | privat/src/app/api/chat/send/route.ts:17-28 | the first failing check, in order conversation type, recipient, message type, content, names the rejection, and there is none exactly when all four pass |
| ChatSendRoute.Post | privat/src/app/api/chat/send/route.ts:5-52 | `sendMessage` is called once, with the caller as sender, exactly when the caller is known and the body validates; a rejection answers 400 with its text; the store's answer or error decides the response; a failed authentication or body parse answers 401 for `UNAUTHORIZED` and 400 with its own message otherwise |
| ChatHistoryRoute.Get | privat/src/app/api/chat/history/route.ts:5-24 | the conversation is read exactly when the caller is known and `type` is private/group and `peerId` is non-empty; otherwise 400 "Parameter tidak valid" or the caught error |
| PrivacyRoute.Put | privat/src/app/api/profile/privacy/route.ts:5-21 | the privacy update is made once, for the caller, exactly when the level is public, friends or private; otherwise 400 "Privasi tidak valid"; a failed authentication, body parse or update answers 401 for `UNAUTHORIZED` and 500 "Gagal memperbarui privasi" otherwise |
| FriendsRoute.ResolveAppend | privat/src/app/api/friends/route.ts:8-12 | resolving friend ids distributes over a split of the id list |
| FriendsRoute.ResolveSound | privat/src/app/api/friends/route.ts:8-12 | every listed profile comes from a resolvable friend id; when all ids resolve, profile i is friend i's |
| FriendsRoute.UnknownIdDropped | privat/src/app/api/friends/route.ts:8-12 | an id the store does not know adds nothing to the list |
| FriendsRoute.Get | privat/src/app/api/friends/route.ts:5-21 | the caller's resolvable friends, or 401 / 500 "Gagal memuat teman" |
| FriendsRoute.Post | privat/src/app/api/friends/route.ts:23-42 | `addFriend` is called once, for the caller, exactly when `friendId` is truthy; otherwise 400 "ID teman wajib diisi"; a failed authentication, body parse or `addFriend` answers 401 for `UNAUTHORIZED` and 400 with its own message otherwise |
| SearchRoute.Upper | privat/src/app/api/users/search/route.ts:13 | upper-casing keeps the length, turns each lower-case ASCII letter into its capital and leaves every other character, so no lower-case letter is left |
| SearchRoute.UpperIdempotent | privat/src/app/api/users/search/route.ts:13 | upper-casing twice is upper-casing once |
| SearchRoute.FilterMembers | privat/src/app/api/users/search/route.ts:18-19 | the filter keeps exactly the users whose id, or upper-cased name, contains the query |
| SearchRoute.FilterAppend | privat/src/app/api/users/search/route.ts:18-19 | the filter keeps the order of `listUsers()` |
| SearchRoute.Get | privat/src/app/api/users/search/route.ts:5-22 | any auth failure is 401; an absent or empty query gives no results; otherwise a 200 whose list is `Filter` of the users by the upper-cased query, so a user is in it exactly when it matches that query |
| SearchRoute.SameUpperSameResults | privat/src/app/api/users/search/route.ts:13 | queries that upper-case alike find the same users |
| SearchRoute.UpperCasedQuerySameResults | privat/src/app/api/users/search/route.ts:13-19 | a query and its upper-cased form find the same users |
| SearchRoute.LowerCaseIdFoundOnlyByName | privat/src/app/api/users/search/route.ts:13-19 | a user whose id is all lower-case letters is found by a non-empty query exactly when its upper-cased name contains the upper-cased query; its id never matches |
| AuthToken.RunSpec | privat/src/app/api/auth/session/route.ts:6 | `[^;]+` taken greedily stops at the first `;` or at the end |
| AuthToken.ScanSpec | privat/src/app/api/auth/session/route.ts:6 | the scan finds the leftmost place where the pattern matches, and nothing exactly when no place matches |
| AuthToken.ExtractSpec | privat/src/app/api/auth/session/route.ts:6 | the token is the capture of the leftmost match in the `Cookie` header; there is none without a header or a match |
| SessionRoute.Get | privat/src/app/api/auth/session/route.ts:5-30 | always 200; authenticated with the sanitized user exactly when token, stored session, signature and user all check out; the lookups stop at the first failing one |
| LogoutRoute.Post | privat/src/app/api/auth/logout/route.ts:4-18 | always "Logout berhasil" with the cookie cleared; the cookie's session is removed when a token is found |
| AuthRoutes.LogoutEndsSession | privat/src/app/api/auth/logout/route.ts:5-8 | after logging out, the same cookie no longer authenticates |
| ChatPanel.FriendTargets | privat/src/components/dashboard/panels/ChatPanel.tsx:51-57 | each friend becomes a private entry labelled "name (id)", in order |
| ChatPanel.GroupTargets | privat/src/components/dashboard/panels/ChatPanel.tsx:58-64 | each group becomes a group entry labelled "#name", in order |
| ChatPanel.Targets | privat/src/components/dashboard/panels/ChatPanel.tsx:51-65 | all friends first, then all groups, each with its id, kind and label |
| ChatPanel.EventForTargetIffConcerns | privat/src/components/dashboard/panels/ChatPanel.tsx:346-361 | on a message notification, the test holds exactly when the message belongs to the conversation: a private one to either party, a group one to its group |
| ChatPanel.MalformedEventsIgnored | privat/src/components/dashboard/panels/ChatPanel.tsx:347-349 | an event without a data object or a message concerns no conversation |
| ChatPanel.NewMessageTriggersReload | privat/src/components/dashboard/panels/ChatPanel.tsx:98-106 | a new message for the open conversation, prepended to the notification log, makes the panel reload it |
| ChatPanel.FindReloadSpec | privat/src/components/dashboard/panels/ChatPanel.tsx:98-106 | the reload effect's `find` succeeds exactly when some entry is a `message` event for the open conversation with no `null`/`undefined` entry ahead of it, and throws exactly when such an entry comes before every match |
| ChatPanel.ReloadStaysNeeded | privat/src/components/dashboard/panels/ChatPanel.tsx:98-106 | a matching message event among the 24 newest with no nullish entry ahead of it is still found after the next notification, provided that notification is not nullish |
| ChatPanel.ComposeGuards | privat/src/components/dashboard/panels/ChatPanel.tsx:112-128 | no selection and no content are refused with their own messages; otherwise the request goes to the selected conversation, and a pending file decides the type, the content and the file name |
| ChatPanel.ComposedPassesServer | privat/src/components/dashboard/panels/ChatPanel.tsx:122-128 | what the panel posts passes the server's four checks when the conversation id and the sent content are non-empty |
| ChatPanel.EmptyFileReachesServerAndFails | privat/src/components/dashboard/panels/ChatPanel.tsx:117-126 | a pending file whose content is the empty string (which the panel's data-URL file reader never produces) passes the panel's guard, and the server rejects it as empty content |
| ChatPanelView.ChatView.constructor | privat/src/components/dashboard/panels/ChatPanel.tsx:42-71 | empty list, no selection, no messages, no error |
| ChatPanelView.ChatView.LoadTargets | privat/src/components/dashboard/panels/ChatPanel.tsx:42-71 | a load sets the list to `Targets` of the friends and groups; a throw leaves it |
| ChatPanelView.ChatView.SelectTarget | privat/src/components/dashboard/panels/ChatPanel.tsx:108-110 | sets the selection and nothing else |
| ChatPanelView.ChatView.LoadMessages | privat/src/components/dashboard/panels/ChatPanel.tsx:73-91 | loading ends false; the error is the thrown message, the server's error or "Gagal memuat percakapan", or cleared on success; only success replaces the messages |
| ChatPanelView.ChatView.SendMessage | privat/src/components/dashboard/panels/ChatPanel.tsx:112-147 | a refused compose sets its error and posts nothing; otherwise the payload is posted; success appends the stored message and clears draft and file but keeps an earlier error; a failure sets the error and keeps draft and file |
| ChatPanelView.ChatView.SortMessages | privat/src/components/dashboard/panels/ChatPanel.tsx:161-167 | the state array is sorted in place by `createdAt` and holds the same messages |
| ChatPanelView.SortByTime | privat/src/components/dashboard/panels/ChatPanel.tsx:163-165 | the array ends ordered by ascending `createdAt` and is a permutation of what it held |
| ChatPanelView.Sink | privat/src/components/dashboard/panels/ChatPanel.tsx:163-165 | one insertion step extends the ordered prefix by one message, as a permutation |

## Left out

- WebRTC and media internals: ICE, SDP contents, tracks and the STUN configuration are opaque values. A connection's state change is a boolean.
- Interleaving at `await`: the store's handlers run to completion one at a time, and `Poll` handles a batch's signals in order. In the browser, handlers that are not awaited (`forEach` over `handleSignal`) can interleave.
- The transient error "Tidak dapat mengakses mikrofon/kamera" that `setupConnection` sets before it rethrows is not modelled. The catch in `startCall`/`acceptCall` overwrites it before their caller regains control.
- `console.error` logging is not modelled.
- A `signals` field that is not an array makes `forEach` throw. The model folds this into `PollThrew`.
- CallStore.CallController: the mode of an incoming offer is kept as the raw JSON value of `payload.type`, not narrowed to audio/video, because the source stores it unchecked.
- The server store (`lib/store`), `lib/request`, `lib/auth` and the hub/stream route are not part of this model. `enqueueSignal`/`consumeSignals` are taken to append and drain a per-recipient queue, and `removeSession` to delete the token. The other store calls are parameters.
- SessionRoute.Get: `verifyAuthToken` is taken to answer with a user id or nothing. A throw from it, which the route does not catch, is not modelled.
- SearchRoute.Upper: `toUpperCase` is modelled for ASCII letters only. Unicode case mapping is left out.
- JSON numbers are integers. NaN, fractions and date parsing are left out.
- ChatPanel: `createdAt` is the instant the timestamp denotes, as an integer.
- ChatPanelView.SortByTime: stability of the sort is not stated. `Array.prototype.sort` is stable, but the model promises only order and permutation.
- ChatPanelView.ChatView.LoadTargets: a response that is not ok, or that lacks its list, arrives as an empty list in the outcome and is not a case of its own.
- ChatPanel.FindReload: a nullish notification makes the reload effect throw. That is the `Throws` outcome; what React does with an effect that throws is not modelled.
- ChatPanel.PendingFile: the content of a pending file is an arbitrary string, because `parseFile` is not modelled. The panel fills it with a data URL, which is never empty, even for a 0-byte file.
- The rest of the chat panel is not modelled: JSX rendering, `FileReader`/`parseFile`, and the effect that loads on selection.
- The login, register, group, admin and profile routes are not part of this model, and neither are the other dashboard panels.
