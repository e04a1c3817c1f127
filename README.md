# hass-ws-client protocol core in Dafny

A model of the protocol rules of `hass-ws-client`, a Go client for the Home
Assistant WebSocket API, with proofs about them. The model covers:

- the authentication handshake that opens a connection;
- the writer every request goes through;
- the read loop, which turns each inbound frame into an envelope message;
- correlated service calls, which wait for the `result` frame with their id;
- the registry of subscribed event types and the per-listener event filter;
- the request constructors (`call_service`, `fire_event`, `subscribe_events`).

The connection is abstract (`Transport.Conn`):

- Reads take frames in order from a queue. Once the queue is empty, every read
  fails with the connection's read error.
- Writes append to an outbound log. If the connection has a write error, every
  write fails with it.

A frame (`Wire.Frame`) holds its bytes together with what `json.Unmarshal`
finds in them: optional `type`, `id`, `success`, `event.event_type` and
`result.response` fields. A frame that is not a JSON object decodes to nothing.
So every decode in the client is a total function, and a field the decoder
does not find keeps its Go zero value or preset value.

Modules follow the source files:

- `Websocket` is `internal/websocket/websocket.go`.
- `Reader` is `internal/websocket/reader.go`.
- `InternalServices` is `internal/services/`.
- `Services` is `pkg/services/services.go`.
- `HassWsClient` is `app.go`.
- `Wire` and `Transport` hold the shared values, the connection, Go channels
  and the id counter.

Where the client changes state in place, the model is imperative: classes
with `modifies` clauses and loops with invariants. Each such method is proved
against a specification function (`Handshake`, `Publish`, `FirstResult`,
`ForwardedEvents`). The source's promises are proved as lemmas about those
functions.

Each goroutine that reads the socket is modelled as running to completion
before its consumer loop starts. The reader reads every queued frame, publishes
one message per frame and then closes its channel. The consumer loop then
walks that channel's contents. A panic is modelled as a returned value:
`SubscribeToEventType`'s `panicked`, and `Call`'s `NilDereference`.

Where the code departs from what the Home Assistant protocol evidently
expects, the model follows the code:

- A listener returns at the first frame of another event type, which is
  usually the hub's acknowledgement of the subscription.
- A call whose stream ends before its answer dereferences a nil response.
- A failed subscription write panics instead of returning an error.

The first two are listed under Findings below, each with a corrected variant
that the model also proves correct.

## Model

| member | source | states |
|---|---|---|
| `Transport.Conn.ReadFrame` | internal/websocket/websocket.go:42 | the socket read returns the next queued frame and removes it, or returns the read error once the queue is empty |
| `Transport.Conn.WriteJSON` | internal/websocket/websocket.go:33 | a socket write appends exactly one message, or fails with the connection's write error and sends nothing |
| `Transport.IdAllocator.GetId` | internal/websocket/websocket.go:135 | each id draw advances the counter by one, with 64-bit wrap-around, and returns the new value |
| `Transport.Channel.Send` | internal/websocket/reader.go:53 | a send on an open channel appends exactly one value, and the channel stays open |
| `Transport.Channel.Close` | internal/websocket/reader.go:30 | closing keeps everything sent so far and marks the channel closed |
| `Websocket.WebSocketWriter.WriteMessage` | internal/websocket/websocket.go:29-39 | exactly one write of the given message; the transport error is returned unchanged and the write is not retried |
| `Websocket.ReadMessage` | internal/websocket/websocket.go:41-47 | on success, the frame read and no error; on failure, empty bytes together with the read error |
| `Websocket.Uri` | internal/websocket/websocket.go:50-55 | the URI `scheme://ip:port/api/websocket` that both setup functions dial |
| `Websocket.SchemesGiveDistinctUris` | internal/websocket/websocket.go:49-57 | the `ws://` URI and the `wss://` URI are never the same, whatever the address and port |
| `Websocket.UriDeterminesPort` | internal/websocket/websocket.go:49-57 | for one scheme and address, equal URIs mean equal ports, so the port is carried into the URI unchanged |
| `Websocket.SetupConnection` | internal/websocket/websocket.go:49-52 | dials `ws://ip:port/api/websocket` and then runs the handshake on that connection |
| `Websocket.SetupSecureConnection` | internal/websocket/websocket.go:54-57 | dials `wss://ip:port/api/websocket` and then runs the handshake on that connection |
| `Websocket.Handshake` | internal/websocket/websocket.go:71-95 | succeeds iff a greeting and an `auth_ok` reply arrive and the auth write succeeds; reads at most two frames; writes one auth message, and only after the greeting; the first failing step's error is returned and no later step runs; a failed reply read returns the read error as it is; any other reply type is ErrInvalidToken |
| `Websocket.ConnectionFromUri` | internal/websocket/websocket.go:59-96 | a failed dial returns its error; otherwise the connection has read and written exactly what `Handshake` says, and it is returned only when there is no error |
| `Websocket.SendAuthMessage` | internal/websocket/websocket.go:98-104 | writes exactly `{type:"auth", access_token: token}` once; a write error is returned unchanged |
| `Websocket.VerifyAuthResponse` | internal/websocket/websocket.go:111-124 | reads one reply; no error iff its decoded type is `auth_ok`, otherwise ErrInvalidToken; a read error is returned as it is |
| `Websocket.AuthAccepted` | internal/websocket/websocket.go:117-119 | the reply accepts the credentials exactly when its decoded type is `auth_ok` |
| `Websocket.UndecodableReplyRejected` | internal/websocket/websocket.go:117-121 | a reply that is not JSON has an empty type and is rejected |
| `Websocket.SubscribeToEventType` | internal/websocket/websocket.go:132-151 | uses the id given, or draws a fresh one only when none is given; writes `{id, type:"subscribe_events", event_type}` once; a write failure is a panic carrying the wrapped error |
| `Reader.DecodeBase` | internal/websocket/reader.go:35-40 | the envelope's Success is false only when the frame says `success:false`, so a missing field reads as true; a frame that is not JSON keeps every default |
| `Reader.ToChanMsg` | internal/websocket/reader.go:46-51 | the published message's Raw is the frame read, and its Type, Id and Success come from the envelope |
| `Reader.PublishInOrder` | internal/websocket/reader.go:24-55 | one message per frame read, none dropped (neither undecodable nor unsuccessful ones), and the k-th message comes from the k-th frame |
| `Reader.PublishLength` | internal/websocket/reader.go:24-55 | the number of messages equals the number of frames read before the error |
| `Reader.PublishAppend` | internal/websocket/reader.go:25-54 | reading frames in two batches publishes the messages of the first batch and then those of the second |
| `Reader.ListenWebsocket` | internal/websocket/reader.go:24-55 | publishes `Publish` of the queued frames, in order; the first read error closes the channel and publishes nothing |
| `InternalServices.Event.Fire` | internal/services/event.go:25-37 | draws one fresh id and makes one write of `{id, type:"fire_event", event_type, event_data}`; event_data is the first map given, or absent when none is given; the write error is discarded |
| `InternalServices.BuildService` | internal/services/services.go:10-12 | a new service value holding exactly the given writer |
| `InternalServices.NewBaseServiceRequest` | internal/services/services.go:25-35 | type `call_service` with a fresh id; the target entity is `entityId` (empty when it is empty); domain, service and data keep their zero values |
| `Services.DecodeServiceResponse` | pkg/services/services.go:73-75 | the response is the frame's `result.response`, or nil when the frame has none or is not JSON |
| `Services.FirstResultFindsFirstAnswer` | pkg/services/services.go:59-78 | the response is taken from the first frame with type `result` and the call's id; every earlier frame is skipped |
| `Services.FirstResultIsAnAnswer` | pkg/services/services.go:65-76 | a response only ever comes from a `result` frame carrying the call's own id |
| `Services.FirstResultNone` | pkg/services/services.go:57-80 | the wait yields nil exactly when no frame before the end of the stream answers the call |
| `Services.FirstResultIgnoresLater` | pkg/services/services.go:73-77 | frames after the matching one do not affect the response |
| `Services.ListenForServiceResponse` | pkg/services/services.go:53-81 | returns `FirstResult` of the messages its reader publishes from the queued frames |
| `Services.ServiceCaller.Call` | pkg/services/services.go:41-51 | writes the call first; a write error returns an empty response and that error, with no listening; when Returns is false, an empty response and no error after one write; otherwise the first matching result, or a nil dereference when the stream ends first |
| `Services.ServiceCaller.CallChecked` | pkg/services/services.go:41-51 | the same as Call, except that a stream ending before the answer gives ResponseChannelClosed |
| `Services.ClosedStreamPanics` | pkg/services/services.go:46-49 | a call that expects a response, on a connection with no frames left, panics as written and reports ResponseChannelClosed when corrected |
| `Services.NewServiceCall` | pkg/services/services.go:83-95 | type `call_service` with a fresh id; domain, service, data, target and return_response copied unchanged |
| `HassWsClient.ArgsValid` | app.go:53-56 | a request is accepted only when both the address and the token are non-empty |
| `HassWsClient.ResolvePort` | app.go:57-60 | an empty port becomes `8123`; a non-empty port is used unchanged |
| `HassWsClient.AppUri` | app.go:57-73 | the URI a request dials: the `wss` URI when Secure is set, otherwise the `ws` URI, on the resolved port |
| `HassWsClient.SecureFlagSelectsScheme` | app.go:69-73 | the Secure flag alone chooses between the `wss` and `ws` URIs, which always differ |
| `HassWsClient.InitializeAppInstance` | app.go:52-91 | ErrInvalidArgs, touching no connection, when the address or token is empty; otherwise dials the URI for the resolved port and the chosen scheme and runs the handshake; an App is built only when a connection comes back, and then it wraps that connection with no registered event types |
| `HassWsClient.App.constructor` | app.go:82-88 | the App's writer and event service wrap its connection, and no event type is registered yet |
| `HassWsClient.App.RegisterEventListener` | app.go:103-109 | a new event type is subscribed with one write and appended at the end; a known one causes no write, no id draw and no change; existing entries and their order are kept; no type is listed twice |
| `HassWsClient.RegisterTwice` | app.go:103-109 | registering the same listener twice sends at most one subscription |
| `HassWsClient.App.ListenForEvents` | app.go:111-132 | forwards `ForwardedEvents` of the messages its reader publishes from the queued frames |
| `HassWsClient.ReceiveEvents` | app.go:115-131 | the receive loop forwards `EventData{event_type, raw}` for each matching message, in order; it returns at the first message of another type and stops when the channel closes |
| `HassWsClient.ForwardedIsMatchingPrefix` | app.go:115-131 | what is forwarded is the longest run of matching messages at the head of the stream, each carrying its own raw frame; the next message, if any, does not match |
| `HassWsClient.App.ListenForEventStream` | app.go:111-132 | the corrected listener forwards every message of its event type (`MatchingEvents`) |
| `HassWsClient.ReceiveEventStream` | app.go:115-131 | the corrected receive loop skips, rather than stops at, a message of another type |
| `HassWsClient.ForwardedIsPrefixOfMatching` | app.go:123-125 | whatever the listener as written forwards, the corrected one forwards too, at the start of its output |
| `HassWsClient.MatchingEventsAppend` | app.go:115-131 | the corrected listener's output for a stream in two parts is the output for the first part followed by that for the second, so order is kept and repeated events are forwarded each time |
| `HassWsClient.MatchingEventsComplete` | app.go:123-130 | the corrected listener misses no event of its type |
| `HassWsClient.MatchingEventsSound` | app.go:123-130 | the corrected listener forwards only events of its type, each with its own raw frame |
| `HassWsClient.ListenerStopsAtAck` | app.go:123-125 | after the subscription's `result` acknowledgement, the listener as written forwards nothing, while the corrected one forwards the event that follows |

## Left out

- Dialing, TLS and the HTTP upgrade. `Websocket.Network` maps each reachable URI to its connection, and dialing any other URI fails.
- The 3-second dial timeout, contexts and their cancellation, including `App.Cleanup`. They depend on wall-clock time. The handshake's reads have no timeout in the code, because `ReadMessage` ignores its context.
- The writer's mutex. Each write is one atomic step.
- Concurrency between goroutines. Each reader goroutine runs to completion before its consumer loop. So these are not modelled:
  - several readers racing for frames on one socket;
  - a reader blocking on a full or unbuffered channel.
- `Reader.ListenWebsocket`: the model's reader consumes every queued frame. In the code a reader stops, blocked on its channel, soon after its consumer stops receiving.
- `Services.ListenForServiceResponse`: the model's reader consumes every queued frame, including those after the match. In the code the channel is unbuffered, so the reader reads at most one frame past the match and then blocks. The frames left behind are not modelled.
- `Services.ServiceCaller.Call`: because its reader consumes every queued frame, a sequence of calls on one connection is not modelled. In the code, a later call can still receive its own result from frames the earlier call's reader left unread.
- `Services.ServiceCaller.CallChecked`: the same as `Call`. A sequence of calls on one connection is not modelled.
- `HassWsClient.App.ListenForEvents`: the model's reader consumes every queued frame. In the code the reader stops after filling the 50-slot buffer once the listener has returned. So a sequence of listeners or calls on one connection is not modelled.
- `HassWsClient.App.ListenForEventStream`: the same as `ListenForEvents`. A sequence of listeners on one connection is not modelled.
- JSON encoding and decoding. A frame carries the decoded fields. Go's case-insensitive key matching and the exact bytes written are not modelled.
- `internal.GetId` is not part of this model. `Transport.IdAllocator` stands in as a counter with 64-bit wrap-around. No claim is made that ids are unique across concurrent callers.
- `Transport.Conn`: a connection's writes either all succeed or all fail with one error. A connection that breaks in the middle of a session is not modelled.
- Logging, `fmt.Println` output and the warning logged for `success:false` frames.
- The global `appInstance`, `GetAppInstance`, the package `lock`, and the unused `DurationString`, `TimeString` and `timeRange` types.
- `service.go` is not part of this model. `App.service` holds the event service directly.
- `EventListenerCallback` from `eventListener.go` is unused by the core and not modelled.
- The websocket message kind (text or binary) returned by the socket's read.

## Findings

| source | as written | input that shows it | evidently intended | confidence | as-written member | corrected member |
|---|---|---|---|---|---|---|
| app.go:123-125 | the listener loop `return`s at the first message whose event_type differs from the listener's | the hub's `result` acknowledgement of the subscription, then an event of the listener's type: nothing is forwarded | skip such a message (`continue`) and keep forwarding events of the listener's type | medium, not executed | `HassWsClient.App.ListenForEvents`, `HassWsClient.ListenerStopsAtAck` | `HassWsClient.App.ListenForEventStream`, `HassWsClient.MatchingEventsComplete` |
| pkg/services/services.go:47-48 | `Call` dereferences the nil that `listenForServiceResponse` returns when the stream closes before a matching result | a call with Returns true on a connection whose next read fails | return an error (ResponseChannelClosed) to the caller | high, not executed | `Services.ServiceCaller.Call`, `Services.ClosedStreamPanics` | `Services.ServiceCaller.CallChecked` |
