# Realtime chat core, modelled in Dafny

This project models the realtime core of a chat application. It has a
FastAPI backend that stores chats and messages and publishes events to a
Centrifugo broker. It has a React front end that keeps one broker connection
and one subscription per conversation, and folds the events it receives into
its message list, typing list and online set.

The modules follow the program's files:

| module | file | models |
|---|---|---|
| `Wrappers`, `Numbers` | wrappers.dfy, numbers.dfy | `Option` and `Result`; the `Min` of `Math.min` and Python's `min` |
| `Protocol` | protocol.dfy | channel naming `chat-<id>`, the event type tags and payloads, the participant label `id||||username`, the 10 MiB upload cap |
| `Backoff` | backoff.dfy | the connection retry policy (1 s doubling, cap 30 s, five retries) and the subscription retry policy (cap 10 s, three attempts) |
| `Service` | service.dfy | class `CentrifugoService` of services/centrifugo.js: the client, the channel-to-handle map, the connected flag and the connection promise |
| `Controller` | controller.dfy | class `ChatController` for the connection and subscription logic of contexts/ChatContext.jsx: refs, readiness, pending chats, timers, inbound events |
| `Inbound` | inbound.dfy | the three state updaters of ChatContext.jsx (new messages, typing users, online users) and the `type` switch that routes events to them |
| `ChatRoom` | chat_room.dfy | pages/ChatRoom.jsx: date headers, whitespace trimming, class `Composer` (typing debounce, send and file guards), the direct-chat title |
| `Backend` | backend.dfy | backend-api/main.py: `serialize_doc`, creator insertion, participant labels, the message page window, `send_message`, typing and online-status events |
| `Agreement` | agreement.dfy | what the backend publishes or returns is what the browser's routing, reducers and decoders expect |

Effects are explicit:

- Every `await` and every timer of the front end is a separate step. `TokenFetched` and `LinkSettled` resume the two awaits of a connection attempt. The `Fire...` methods run a timer.
- What the outside world decides is a parameter: the broker library throwing (`libraryThrows`, `failing`), a request succeeding (`sendOk`, `saveOk`), the day key of a timestamp (`dayOf`), the database's lookups (maps) and its new id and clock reading.
- Events the backend publishes are returned as `Publish` values.

The subscription callbacks `onError` and `onDisconnect` are modelled as the
controller defines them (`OnSubscriptionError`, `OnSubscriptionDisconnect`).
The service in services/centrifugo.js only ever calls `onMessage`, so in the
program as written these two handlers are never invoked.

## Model

| member | source | states |
|---|---|---|
| Protocol.ChatOf | chat-frontend/src/contexts/ChatContext.jsx:162 | no source code parses channel names: this is the inverse of the `chat-` naming, used to state the round trip; a channel names a chat exactly when it starts with `chat-`, and naming that chat gives the channel back |
| Protocol.ChatOfChannelFor | chat-frontend/src/contexts/ChatContext.jsx:162 | the chat id is read back from its channel name |
| Protocol.ChannelForInjective | backend-api/main.py:464-467 | two chats share a channel exactly when they are the same chat |
| Protocol.TypeTag | backend-api/main.py:525-533 | every event the backend builds carries one of the three known tags; other events keep their own |
| Backoff.ConnectionDelay | chat-frontend/src/contexts/ChatContext.jsx:109 | a connection retry waits between 1 s and 30 s |
| Backoff.SubscriptionDelay | chat-frontend/src/contexts/ChatContext.jsx:236 | a subscription retry waits between 1 s and 10 s |
| Backoff.ConnectionRetryPlan | chat-frontend/src/contexts/ChatContext.jsx:99-118 | no retry once five were scheduled; otherwise the delay of the incremented count |
| Backoff.SubscriptionRetryPlan | chat-frontend/src/contexts/ChatContext.jsx:228-241 | no retry past attempt 3; otherwise the delay of that attempt |
| Backoff.ConnectionDelaysExact | chat-frontend/src/contexts/ChatContext.jsx:108-109 | the five connection delays are 1, 2, 4, 8 and 16 s, as the comment says |
| Backoff.SubscriptionDelaysExact | chat-frontend/src/contexts/ChatContext.jsx:236 | the three subscription delays are 1, 2 and 4 s |
| Backoff.ConnectionDelayMonotone | chat-frontend/src/contexts/ChatContext.jsx:109 | later retries never wait less |
| Backoff.ConnectionDelayCapped | chat-frontend/src/contexts/ChatContext.jsx:109 | from the sixth retry on the formula sits at the 30 s cap |
| Backoff.RetryChainLength | chat-frontend/src/contexts/ChatContext.jsx:99-117 | any run of failures schedules at most the remaining budget of retries |
| Backoff.RetryChainAt | chat-frontend/src/contexts/ChatContext.jsx:99-117 | the k-th retry of a run waits the delay of count + k + 1 |
| Backoff.RetryChainFromStart | chat-frontend/src/contexts/ChatContext.jsx:99-117 | from a fresh start failures schedule a prefix of 1, 2, 4, 8, 16 s |
| Backoff.SubscriptionRetriesNeverStop | chat-frontend/src/contexts/ChatContext.jsx:222-234 | as written, every failed subscription arms another 1 s retry, however many came before |
| Backoff.SubscriptionRetryCapIgnored | chat-frontend/src/contexts/ChatContext.jsx:228-234 | as written, four failures arm four retries, past the cap of three |
| Backoff.SubscriptionRetriesCapped | chat-frontend/src/contexts/ChatContext.jsx:228-236 | with the attempt carried forward, failures arm a prefix of 1, 2, 4 s and stop |
| Service.CentrifugoService.constructor | chat-frontend/src/services/centrifugo.js:4-10 | no client, no handles, not connected, no promise |
| Service.CentrifugoService.Probe | chat-frontend/src/services/centrifugo.js:55-76 | an existing handle is returned exactly when the client exists, the connection check passes and the channel is mapped; a created handle is a fresh one |
| Service.CentrifugoService.Initialize | chat-frontend/src/services/centrifugo.js:12-53 | a live client is torn down first; the new one has no handles and a pending promise |
| Service.CentrifugoService.OnConnected | chat-frontend/src/services/centrifugo.js:34-38 | connected, and a pending promise settles true; a settled one stays |
| Service.CentrifugoService.OnDisconnected | chat-frontend/src/services/centrifugo.js:40-43 | not connected; the promise and handles stay |
| Service.CentrifugoService.OnError | chat-frontend/src/services/centrifugo.js:45-48 | a pending promise settles false; a settled one stays |
| Service.CentrifugoService.Subscribe | chat-frontend/src/services/centrifugo.js:55-101 | the outcome is `Probe`'s; only a creation adds a handle, for that channel alone, and never for a mapped channel |
| Service.CentrifugoService.Unsubscribe | chat-frontend/src/services/centrifugo.js:103-110 | removes that channel only; an absent channel is a no-op |
| Service.CentrifugoService.Disconnect | chat-frontend/src/services/centrifugo.js:112-120 | forgets client, handles and promise; nothing changes when never initialised |
| Controller.ChatController.constructor | chat-frontend/src/contexts/ChatContext.jsx:23-37 | the initial refs and state |
| Controller.ChatController.Initialize | chat-frontend/src/contexts/ChatContext.jsx:62-77 | a no-op while initialising; otherwise marks one in progress, resets the count, starts the token fetch |
| Controller.ChatController.ManualRetry | chat-frontend/src/contexts/ChatContext.jsx:362-368 | acts only when no initialisation is in progress |
| Controller.ChatController.ScheduleRetry | chat-frontend/src/contexts/ChatContext.jsx:99-118 | the timer is `ConnectionRetryPlan` of the count; giving up clears `isInitializing`; nothing else changes |
| Controller.ChatController.FireRetry | chat-frontend/src/contexts/ChatContext.jsx:115-117 | a new attempt starts without touching the count |
| Controller.ChatController.TokenFetched | chat-frontend/src/contexts/ChatContext.jsx:71-87 | a failed fetch reaches `scheduleRetry` and leaves the service alone; a token starts the service's `initialize` |
| Controller.ChatController.LinkSettled | chat-frontend/src/contexts/ChatContext.jsx:87-97 | ready, attempt over, count reset, pending flushed, whatever value the connection resolved with |
| Controller.ChatController.ProcessPending | chat-frontend/src/contexts/ChatContext.jsx:120-132 | every pending chat not refused by the library gets its channel recorded; each refused one gets exactly one attempt-1 retry timer (the new timers are for distinct chats, and their chats are the refused ones); new handles are exactly the newly created ones; pending is emptied |
| Controller.ChatController.ProcessPendingUnready | chat-frontend/src/contexts/ChatContext.jsx:120-132 | as the source runs it with readiness seen as false: pending emptied, no channel recorded, and a new initialisation started when some chat was waiting |
| Controller.ChatController.FlushOne | chat-frontend/src/contexts/ChatContext.jsx:126-128 | one more pending chat handled, keeping the flush invariant |
| Controller.ChatController.SubscribeToChat | chat-frontend/src/contexts/ChatContext.jsx:161-226 | a recorded channel changes nothing; while not ready the chat is queued and an initialisation starts; when ready the channel is recorded unless `subscribe` suspends or throws, and a throw arms an attempt-1 retry |
| Controller.ChatController.ScheduleSubscriptionRetry | chat-frontend/src/contexts/ChatContext.jsx:228-241 | one timer as `SubscriptionRetryPlan` decides, nothing else |
| Controller.ChatController.FireSubscriptionRetry | chat-frontend/src/contexts/ChatContext.jsx:242-249 | resubscribes when ready, re-queues otherwise; a throw re-arms attempt 1 |
| Controller.ChatController.OnSubscriptionError | chat-frontend/src/contexts/ChatContext.jsx:205-210 | forgets the channel and arms an attempt-1 retry |
| Controller.ChatController.OnSubscriptionDisconnect | chat-frontend/src/contexts/ChatContext.jsx:211-217 | forgets the channel, drops readiness, initialises again |
| Controller.ChatController.OnPublication | chat-frontend/src/contexts/ChatContext.jsx:183-204 | the event goes to the updater its tag selects; a typing event arms one expiry |
| Controller.ChatController.FireTypingExpiry | chat-frontend/src/contexts/ChatContext.jsx:258-264 | every entry of that user leaves the typing list |
| Controller.ChatController.Cleanup | chat-frontend/src/contexts/ChatContext.jsx:46-59 | exactly the recorded channels are unsubscribed; the recorded set is cleared and the connection retry cancelled; nothing else is reset |
| Inbound.AppendMessage | chat-frontend/src/contexts/ChatContext.jsx:186-193 | a known id changes nothing, a new one is appended last; ids stay unique |
| Inbound.AppendMessageIdempotent | chat-frontend/src/contexts/ChatContext.jsx:187-193 | a redelivered message is not added twice |
| Inbound.DeliverKeepsInbox | chat-frontend/src/contexts/ChatContext.jsx:187-193 | a stream keeps what was there in place, creates no duplicate, and holds exactly the ids seen |
| Inbound.DeliverKnown | chat-frontend/src/contexts/ChatContext.jsx:189-191 | a stream of known ids changes nothing |
| Inbound.DeliverIdempotent | chat-frontend/src/contexts/ChatContext.jsx:187-193 | replaying a stream has no further effect |
| Inbound.WithoutUser | chat-frontend/src/contexts/ChatContext.jsx:254 | drops exactly that user's entries |
| Inbound.WithoutUserKeepsOnePerUser | chat-frontend/src/contexts/ChatContext.jsx:254 | removal keeps one entry per user |
| Inbound.WithoutAbsentUser | chat-frontend/src/contexts/ChatContext.jsx:260-262 | removing an absent user changes nothing |
| Inbound.WithoutUserAppend | chat-frontend/src/contexts/ChatContext.jsx:254 | the filter works on each part of a list separately, so the surviving entries keep their order |
| Inbound.WithoutUserCommutes | chat-frontend/src/contexts/ChatContext.jsx:259-263 | two users' expiries commute |
| Inbound.ApplyTyping | chat-frontend/src/contexts/ChatContext.jsx:253-256 | the user's old entries go; the event is appended iff typing; other users untouched |
| Inbound.ApplyTypingLeavesOthers | chat-frontend/src/contexts/ChatContext.jsx:253-256 | the other users' entries are the same list, in the same order, before and after the event |
| Inbound.ApplyTypingKeepsOnePerUser | chat-frontend/src/contexts/ChatContext.jsx:253-256 | the typing list keeps one entry per user |
| Inbound.ExpireTyping | chat-frontend/src/contexts/ChatContext.jsx:259-263 | the expiry removes every entry of the user |
| Inbound.ExpiryIsStop | chat-frontend/src/contexts/ChatContext.jsx:253-263 | an expiry equals that user's "stopped typing" event |
| Inbound.StaleExpiryDropsRefreshedEntry | chat-frontend/src/contexts/ChatContext.jsx:258-263 | an earlier event's timer removes an entry refreshed since |
| Inbound.ApplyPresence | chat-frontend/src/contexts/ChatContext.jsx:267-277 | the user is online iff the event says so; no one else changes |
| Inbound.ApplyPresenceIdempotent | chat-frontend/src/contexts/ChatContext.jsx:267-277 | a repeated status event has no further effect |
| Inbound.PresenceFollowsLastEvent | chat-frontend/src/contexts/ChatContext.jsx:267-277 | after a stream, a user is online iff the last event about them said so (or, with none, as before) |
| Inbound.RouteTag | chat-frontend/src/contexts/ChatContext.jsx:185-203 | an event is dropped exactly when its tag is none of the three |
| Inbound.RouteMatchesPublisher | chat-frontend/src/contexts/ChatContext.jsx:185-200 | each event kind reaches the updater made for it |
| Inbound.Dispatch | chat-frontend/src/contexts/ChatContext.jsx:183-204 | exactly the selected feed changes, by its updater |
| ChatRoom.Block | chat-frontend/src/pages/ChatRoom.jsx:250-265 | each message contributes itself, last, after at most one header |
| ChatRoom.Grouped | chat-frontend/src/pages/ChatRoom.jsx:244-269 | no messages, no items |
| ChatRoom.GroupMessagesByDate | chat-frontend/src/pages/ChatRoom.jsx:244-269 | the one-pass loop builds the grouped list |
| ChatRoom.GroupedKeepsMessages | chat-frontend/src/pages/ChatRoom.jsx:244-269 | removing the headers gives back the messages, in order |
| ChatRoom.GroupedEndsWithLast | chat-frontend/src/pages/ChatRoom.jsx:262-265 | the list ends with the last message |
| ChatRoom.GroupedIsWellGrouped | chat-frontend/src/pages/ChatRoom.jsx:250-266 | a header opens the list; each header precedes a message of its day; headers appear exactly at day changes |
| ChatRoom.TrimStartDropsSpace | chat-frontend/src/pages/ChatRoom.jsx:121 | trimming the start drops exactly the leading whitespace |
| ChatRoom.TrimEndDropsSpace | chat-frontend/src/pages/ChatRoom.jsx:121 | trimming the end drops exactly the trailing whitespace |
| ChatRoom.TrimEmptyIffBlank | chat-frontend/src/pages/ChatRoom.jsx:121 | `!s.trim()` holds exactly for whitespace-only drafts |
| ChatRoom.Composer.constructor | chat-frontend/src/pages/ChatRoom.jsx:24-35 | empty draft, not typing, no timer, no file |
| ChatRoom.Composer.InputChange | chat-frontend/src/pages/ChatRoom.jsx:94-110 | `true` is sent only when typing starts; the timer is replaced by one for the latest keystroke |
| ChatRoom.Composer.FireTypingTimer | chat-frontend/src/pages/ChatRoom.jsx:106-109 | typing stops and `false` is sent |
| ChatRoom.Composer.SelectFile | chat-frontend/src/pages/ChatRoom.jsx:177-191 | a file is accepted iff present and at most 10 MiB; otherwise the selection stays |
| ChatRoom.Composer.RemoveSelectedFile | chat-frontend/src/pages/ChatRoom.jsx:193-195 | clears the selection only |
| ChatRoom.Composer.SendFile | chat-frontend/src/pages/ChatRoom.jsx:138-175 | one file request, captioned by the draft unless blank; success clears file and draft |
| ChatRoom.Composer.Submit | chat-frontend/src/pages/ChatRoom.jsx:112-136 | a file takes the file path; a blank draft sends nothing; otherwise typing stops, the untrimmed draft is sent and cleared on success |
| ChatRoom.IndexFrom | chat-frontend/src/pages/ChatRoom.jsx:323 | the first occurrence at or after the start, or none at all |
| ChatRoom.SecondField | chat-frontend/src/pages/ChatRoom.jsx:328 | a second field exists only when the separator occurs |
| ChatRoom.SecondFieldOfLabel | chat-frontend/src/pages/ChatRoom.jsx:328 | a backend label splits back to its username |
| ChatRoom.Needle | chat-frontend/src/pages/ChatRoom.jsx:324-325 | a non-empty logged-in username is what is searched for |
| ChatRoom.FirstWithout | chat-frontend/src/pages/ChatRoom.jsx:321-327 | the first label not containing the needle, or none iff all contain it |
| ChatRoom.DirectTitle | chat-frontend/src/pages/ChatRoom.jsx:319-328 | never empty; "Unknown User" when every label mentions the needle |
| ChatRoom.DirectTitleNamesFirstOther | chat-frontend/src/pages/ChatRoom.jsx:319-328 | the title is the username of the first label not mentioning the needle |
| ChatRoom.SubstringMatchHidesOtherUser | chat-frontend/src/pages/ChatRoom.jsx:321-328 | "ann" talking to "joanna" sees "Unknown User" |
| ChatRoom.FirstOtherByName | chat-frontend/src/pages/ChatRoom.jsx:319-328 | the corrected search returns a decoded username different from the needle |
| ChatRoom.DirectTitleExact | chat-frontend/src/pages/ChatRoom.jsx:319-328 | the corrected title is never empty |
| ChatRoom.DirectTitleExactNamesOther | chat-frontend/src/pages/ChatRoom.jsx:319-328 | in a two-party chat the corrected title names the other user, in either label order |
| ChatRoom.ExactMatchShowsOtherUser | chat-frontend/src/pages/ChatRoom.jsx:319-328 | the corrected title shows "joanna" to "ann" |
| Backend.SerializedList | backend-api/main.py:101-109 | the list keeps its length |
| Backend.SerializeDoc | backend-api/main.py:85-111 | the in-place loop computes the serialised document |
| Backend.SerializedDocKeys | backend-api/main.py:91-93 | `_id` leaves, `id` holds its text, no other key changes |
| Backend.SerializedDocIsClean | backend-api/main.py:95-109 | no datetime and no `_id` remains where `serialize_doc` looks |
| Backend.ConvertedIsClean | backend-api/main.py:97-109 | each converted value is clean |
| Backend.ElementIsClean | backend-api/main.py:102-109 | each converted list element is clean |
| Backend.CleanDocUnchanged | backend-api/main.py:85-111 | a clean document is a fixed point |
| Backend.CleanUnchanged | backend-api/main.py:96-109 | a clean value is left as it is |
| Backend.CleanElementUnchanged | backend-api/main.py:102-109 | a clean list element is left as it is |
| Backend.SerializeDocIdempotent | backend-api/main.py:85-111 | serialising twice is serialising once |
| Backend.EnsureCreatorMember | backend-api/main.py:278-280 | the creator is a member afterwards, order kept, added only when absent, no one else's count changes |
| Backend.EnsureCreatorIdempotent | backend-api/main.py:278-280 | ensuring twice is ensuring once |
| Backend.Found | backend-api/main.py:286-292 | exactly the participants the lookup finds |
| Backend.ParticipantLabels | backend-api/main.py:286-292 | the loop computes the labels, or 500 at the first id that is not an ObjectId |
| Backend.LabelsOfFound | backend-api/main.py:327-333 | with valid ids, one label per found participant, in order, `id||||username` |
| Backend.Reverse | backend-api/main.py:514 | `reverse()` mirrors the positions |
| Backend.PageWindow | backend-api/main.py:504-516 | a page exists iff page and limit are at least 1, and holds at most `limit` messages |
| Backend.SkipIsProduct | backend-api/main.py:505 | the skip is `(page - 1) * limit` |
| Backend.PageAscending | backend-api/main.py:506-514 | a page of a newest-first list is in ascending time order |
| Backend.FirstPageEndsWithNewest | backend-api/main.py:506-514 | page 1 ends with the newest message |
| Backend.PagesTile | backend-api/main.py:504-514 | the next page put before the current one is a gap-free stretch of history |
| Backend.SendMessage | backend-api/main.py:379-467 | 400 iff no chat id; 404 iff a well-formed id names no chat of the user; 500 for a malformed id; success exactly for a participant of a well-formed chat whose upload, if typed "file", is within the size cap and saved; storing the file iff typed "file", publishing on the chat's channel |
| Backend.OversizeUploadIsServerError | backend-api/main.py:401-423 | an over-size upload ends in 500, the 413 being wrapped |
| Backend.FileIgnoredUnlessFileType | backend-api/main.py:400-401 | a file on a non-file message is ignored |
| Backend.SentMessageFields | backend-api/main.py:425-461 | the message is the request's content by the authenticated user in the requested chat, and the event carries it |
| Backend.TypingEvent | backend-api/main.py:524-533 | the event names the authenticated user and the requested state on the chat's channel |
| Backend.TypingIgnoresClaimedIdentity | backend-api/main.py:524-533 | the identity claimed in the body has no effect |
| Backend.BroadcastOnlineStatus | backend-api/main.py:550-565 | one event per chat, for the first 100 chats, in order, each on its chat's channel |
| Agreement.SentMessageReachesInbox | backend-api/main.py:455-467 | the published message lands once in the inbox of the chat's subscribers and only there |
| Agreement.TypingEventReachesFeed | backend-api/main.py:524-533 | the typing event updates exactly the typing list, with the authenticated user's entry |
| Agreement.PresenceEventReachesFeed | backend-api/main.py:556-565 | the status event marks exactly its user online or offline |
| Agreement.LabelsDecodeToUsernames | backend-api/main.py:327-333 | the chat list's labels decode in the browser to the usernames looked up |
| Agreement.AcceptedFileIsStored | chat-frontend/src/pages/ChatRoom.jsx:181-186 | a file the composer accepts passes the server's size check and is stored |

## Left out

- I/O: the HTTP calls of `apiService`, the database, the broker's publish API, the WebSocket library, and the file system that stores uploads. Each becomes a parameter or a returned value. chat-frontend/src/services/api.js is not part of this model.
- Authentication: JWT decoding and `get_current_user`. The authenticated user is an input.
- The wall clock, `new Date(...).toDateString()` and locale date formatting. They are the `dayOf` and `now` parameters, or not modelled.
- React's captured values. The source's timers and callbacks read `centrifugoReady` and `isTyping` as they were when the closure was created. The model reads the current field. The one consequence modelled is the flush after a connection, listed under Findings. A subscription retry that fires after readiness was gained is modelled as a resubscription, where the source may re-queue the chat.
- The continuation of a service `subscribe` suspended on a pending connection promise. The model stops at `Suspended`, records nothing, and does not resume it.
- `loadChats`, `loadChatMessages`, `createChat` and the context's `sendMessage`, `sendFileMessage`, `sendTypingIndicator` and `updateOnlineStatus`. They are request builders and state setters around I/O. The composer's requests and `Backend.SendRequest` stand for what they send.
- `formatFileSize`, `formatDate`, `getFileIcon`, the emoji picker, the upload progress animation, scrolling and the disabled states of the inputs. They are presentation only.
- The title of a group chat, which is the chat's name as stored.
- Endpoints other than those named in the Model table: registration, login, logout, the token endpoint, user search, `get_chat`, health, the raw WebSocket echo and the debug endpoints.
- In `create_chat` and `get_user_chats`, the chat queries themselves: the existing direct chat lookup, the sort, the 100-chat cap of the chat list, and the last-message lookup. Only the creator insertion and the participant labels are modelled.
- Malformed events with a known tag. The backend never publishes them. The model ignores them, where the source throws inside the state updater (a `new_message` without a message) or stores undefined fields (a `typing_indicator` without its fields).
- `send_message`'s `reply_to`, the file metadata fields, the event timestamp, the `last_activity` update, the JSON versus form parsing, and the publish result, which is only logged.
- Backend.IdText: the text of a list or sub-document used as `_id` is written as the empty text. Such ids do not occur in this system.
- Backend.SerializeDoc: the in-place update, and the aliasing between the argument and the result of the source's `serialize_doc`. The model returns a new map.
- Backend.PageWindow: a `limit` below 1, whose handling by the driver is not modelled, is an error value.
- Backend.UsernameOf: a `username` field present with the value `None` is not modelled. The field is either absent or a string.
- Controller.ChatController.LinkSettled: it states the flags and the recorded channels. The timers and handles of the flush are stated on ProcessPending, which it calls.
- Controller.ChatController.OnSubscriptionError and Controller.ChatController.OnSubscriptionDisconnect: modelled as written, although services/centrifugo.js never invokes these callbacks.

## Findings

| source | as written | input that shows it | evidently intended | confidence | as-written member | corrected member |
|---|---|---|---|---|---|---|
| chat-frontend/src/pages/ChatRoom.jsx:321-328 | the title is the first label that does not contain the logged-in username as a substring, anywhere in `id\|\|\|\|username` | "ann" in a direct chat with "joanna": both labels contain "ann", so the title is "Unknown User" | the username of the other participant | high; not executed | ChatRoom.SubstringMatchHidesOtherUser | ChatRoom.DirectTitleExactNamesOther |
| chat-frontend/src/contexts/ChatContext.jsx:222-234 | a failed retry calls `subscribeToChat`, whose failure path calls `scheduleSubscriptionRetry` with the default attempt 1, so the attempt never grows | a chat whose subscription always throws: four failures arm four 1 s retries, and the chain never ends | at most three retries, after 1 s, 2 s and 4 s | high; not executed | Backoff.SubscriptionRetryCapIgnored | Backoff.SubscriptionRetriesCapped |
| chat-frontend/src/contexts/ChatContext.jsx:89-96 | the flush after a connection runs in the closure of the render that started the attempt, where `centrifugoReady` is still false: each pending chat is re-queued, an initialisation starts, then the queue is cleared | open a chat before the first connection completes: it is queued, then dropped from the queue when the connection completes, and a second connection replaces the first; the chat is not subscribed until it is opened again | every pending chat is subscribed once the connection is ready | medium (depends on React closure semantics); not executed | Controller.ChatController.ProcessPendingUnready | Controller.ChatController.ProcessPending |

The controller's `LinkSettled` flushes with the corrected `ProcessPending`.
Elsewhere the controller keeps the retry behaviour as written: the corrected
retry chain is stated in `Backoff` alone, and the corrected title in
`ChatRoom`.
