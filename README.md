# Chat server connection core, modelled in Dafny

This project models the connection lifecycle of a small websocket chat relay
(`chat-server/connection/connection.go`). Clients connect with a `uid` query
parameter. The server keeps a registry from user id to connection. It relays
each JSON envelope a client sends to the connection of its `receiver_id`, or
drops the envelope when that user is offline. Every connection has two
goroutines. The read loop decodes envelopes and routes them. The write loop
drains the connection's bounded outbound channel (`sendingChannel`, capacity
`payloadSize` = 4096) onto the socket and sends keepalive pings. When either
loop exits, `cleanUp` runs: it deregisters the connection and closes its socket.

Files:

- `wire.dfy` (module `Wire`): the envelope `Message`, the encoded `Bytes`, the
  websocket `Frame`s the server writes, and `Payloads`, the stream of binary
  payloads in a sequence of frames.
- `timing.dfy` (module `Timing`): `writeTimeout`, `pongTimeout`, `pingPeriod`
  and `payloadSize`. `time.Duration` is a signed 64-bit nanosecond count. The
  expression `pongTimeout * 9 / 10` is written out with 64-bit wrap-around and
  division that truncates toward zero.
- `connection.dfy` (module `Connections`): the classes `Socket`, `Connection`
  and `ConnectionsManager`, plus `CleanUp`, the router
  `HandleReceivingMessage`, one iteration of each loop (`ReadStep`,
  `WriteStep`), the loops over a finite schedule (`ReadLoop`, `WriteLoop`), and
  the HTTP handler `HandleWebSocketConnections`. Each loop is specified against
  a reference on values. For the read side this is `Deliver`: the registry's
  channels (`View`) after the router has handled one more input. For the write
  side it is `StepSpec` and `WriteSpec`: the frames written, the channel left and
  whether the loop ended, for one `select` case and for a whole schedule.
- `scenarios.dfy` (module `Scenarios`): client methods that run whole
  conversations through the core. They prove what a caller can conclude from
  the core's contracts.

How Go state maps to Dafny:

- The package-level `connectionsManager` becomes an explicit
  `ConnectionsManager` argument.
- Each goroutine iteration or handler call is one atomic method call.
- A Go channel becomes the fields `sending` (the buffered items, oldest first),
  `capacity` and `sendingClosed` of `Connection`.
- A socket becomes `closed` plus `written`, the frames the transport accepted.
- Anything the environment decides is an input of the step:
  - the result of `ReadJSON` (`Inbound`);
  - the result of `json.Marshal`, the function parameter
    `encode: Message -> Option<Bytes>`;
  - which `select` case fires (`WriteEvent`);
  - whether the transport write succeeded (`ok`);
  - whether the HTTP upgrade succeeded (`upgradeOk`).

On these points the model keeps the code's behaviour:

- `Remove` deletes by id without checking which connection is stored there
  (connection.go:59). A stale connection's teardown therefore unregisters a
  newer connection with the same id (`Scenarios.StaleCleanUpUnregistersNewer`).
- `Add` silently overwrites (connection.go:52). The displaced connection stays
  open with no registry entry.
- The router blocks on a full channel (connection.go:95). It neither drops the
  message nor evicts the slow receiver. This is modelled as the `Blocked`
  outcome, which changes nothing and leaves the send pending.
- Decoding trusts `encoding/json`. The `required` struct tags do not reject
  empty ids, so an envelope with an empty `receiver_id` is routed like any other.

## Model

| member | source | states |
|---|---|---|
| Wire.PayloadsAppend | chat-server/connection/connection.go:122-145 | appending frames to a socket appends their payloads to its payload stream, in order |
| Wire.PayloadsOfOne | chat-server/connection/connection.go:128-141 | close and ping frames add no payload; a binary frame adds exactly its data |
| Timing.Wrap64 | chat-server/connection/connection.go:15 | int64 wrap-around is the identity in range and congruent to its input modulo 2^64 |
| Timing.QuotTen | chat-server/connection/connection.go:15 | Go's `/ 10` truncates toward zero: the quotient brackets the dividend from the side of zero |
| Timing.NineTenths | chat-server/connection/connection.go:15 | for a positive duration whose product by 9 fits in 64 bits, `d * 9 / 10` is non-negative, below `d`, the truncated nine-tenths of `d`, and positive once `d >= 10` |
| Timing.PingPeriodValue | chat-server/connection/connection.go:13-16 | pingPeriod is 54 seconds and lies strictly between 0 and pongTimeout |
| Connections.Socket.constructor | chat-server/connection/connection.go:160 | a freshly upgraded transport is open and has written nothing |
| Connections.Connection.constructor | chat-server/connection/connection.go:167 | a new connection keeps its id and transport and has an empty, open channel of capacity payloadSize |
| Connections.ConnectionsManager.constructor | chat-server/connection/connection.go:47 | the registry starts empty (and so keyed by id) |
| Connections.ConnectionsManager.Add | chat-server/connection/connection.go:50-54 | nil leaves the registry unchanged. Otherwise the registry becomes the old one with the id's entry set to `conn`, so every other id is untouched and the id has one entry. Keying by id is preserved. A displaced connection is no longer reachable under any id |
| Connections.ConnectionsManager.Remove | chat-server/connection/connection.go:57-61 | nil leaves the registry unchanged; otherwise exactly the id's key is deleted, whichever connection it held; keying by id is preserved |
| Connections.ConnectionsManager.Get | chat-server/connection/connection.go:64-70 | returns nil exactly when the id is not registered, and otherwise the registered connection; reads only |
| Connections.CleanUp | chat-server/connection/connection.go:72-80 | nil changes nothing at all. Otherwise the id is absent from the registry, every other entry is kept, and the socket is closed with its written frames untouched |
| Connections.HandleReceivingMessage | chat-server/connection/connection.go:82-96 | the registry never changes. Offline exactly when the receiver id is not registered, and an encode failure exactly when it is but `encode` fails; neither changes anything. Otherwise: a closed channel panics, a full channel blocks, and an open channel with room gets the encoded bytes as its new last item. Only the receiver's connection can change. Across the registry, no channel is closed and none is overfilled. In a registry keyed by id, the channels become exactly `Deliver` of the old ones, or stay as they were when the send is stuck |
| Connections.DeliverAddressed | chat-server/connection/connection.go:82-96 | one delivery extends exactly the channel registered under the receiver id, by the message's encoding, and changes no other channel, closed flag or capacity |
| Connections.TraceAddressed | chat-server/connection/connection.go:98-114 | after a trace of deliveries, every channel is its first state plus the encodings of the handled envelopes addressed to its id, in input order; no channel is added, dropped or closed, and every capacity is kept |
| Connections.ReadStep | chat-server/connection/connection.go:103-112 | a failed read ends the loop and tears the connection down (id absent, socket closed). A decoded envelope is routed with the router's whole effect, and the registry and this connection's socket stay unchanged. A blocked or panicked send is decided by the receiver's channel. In a keyed registry the channels become `Deliver` of the old ones, or stay as they were on a failed read or a stuck send, and a send that went through found its channel open and with room |
| Connections.ReadLoop | chat-server/connection/connection.go:98-114 | every input before the stopping point was a decoded envelope. The loop waits exactly when all inputs were handled. It closes only on a failed read, and then tears the connection down with the frames already written kept; short of that, the registry and the socket are unchanged. It stalls only where the receiver's channel is open and full, and aborts only where it is closed. `views` traces the channels through one `Deliver` per handled input. In a keyed registry the channels end as its last view, and every handled envelope whose receiver is registered and which encodes found that receiver's channel open and with room, so the loop never gets past a send that blocks or panics |
| Connections.WriteStep | chat-server/connection/connection.go:122-145 | a receive removes exactly the channel's head. On success it writes the head as a binary frame and changes nothing else; when NextWriter fails it tears down. A closed, drained channel writes a close frame (if accepted) and tears down. An empty open channel changes nothing. A tick writes a ping, or tears down when the ping fails. All of this is the reference step `StepSpec`, and the channel stays within its capacity |
| Connections.WriteLoop | chat-server/connection/connection.go:116-146 | the frames written, the channel left and the termination flag are exactly those of the reference run `WriteSpec` of the schedule. The closed flag is kept and the capacity respected. Termination tears the connection down; otherwise the registry and the socket's closed flag are unchanged |
| Connections.StepSpecShape | chat-server/connection/connection.go:124-143 | one iteration either writes no payload and keeps the channel, or takes the head off and writes it, or takes the head off and ends the loop without writing it |
| Connections.WriteSpecFifo | chat-server/connection/connection.go:122-145 | the binary payloads a run writes are a prefix of the channel, in channel order. The channel keeps exactly the rest, except for the one item taken by a receive whose NextWriter failed |
| Connections.WriteSpecProgress | chat-server/connection/connection.go:122-145 | a run that does not end writes one payload per receive event until the channel is empty, one ping per tick, and nothing else |
| Connections.WriteSpecEnds | chat-server/connection/connection.go:122-145 | a run ends only on a closed channel or a failed transport answer; a close frame is written only for a closed channel, as the run's last frame |
| Connections.HandleWebSocketConnections | chat-server/connection/connection.go:149-171 | without `uid`: 400, nothing registered. With a failed upgrade: 500, nothing registered. Otherwise: a fresh connection under the first `uid` value, with an open fresh socket and an empty channel of capacity payloadSize, and the registry is the old one plus that entry |
| Scenarios.AliceBobCarol | chat-server/connection/connection.go:82-96 | alice's message to bob becomes bob's only binary frame; messages to never-connected carol and to bob after he disconnects are dropped; alice stays registered with an open socket |
| Scenarios.HiToBob | chat-server/connection/connection.go:82-96 | a message queued for freshly connected bob is the one binary frame his write loop then sends |
| Scenarios.CarolIsOffline | chat-server/connection/connection.go:83-87 | a message to a user who never connected is dropped |
| Scenarios.BobLeaves | chat-server/connection/connection.go:98-114 | a failed read on bob's connection leaves only alice registered, her socket untouched |
| Scenarios.BobIsOffline | chat-server/connection/connection.go:83-87 | once bob has left, a message to him is dropped |
| Scenarios.AliceSendsTwice | chat-server/connection/connection.go:98-114 | alice's read loop handles both of two envelopes for bob and waits, and bob's channel holds both encodings in the order sent |
| Scenarios.TwoForBob | chat-server/connection/connection.go:98-114 | along any trace of those two envelopes, bob's channel holds the encodings of the ones handled so far, still open, with its capacity |
| Scenarios.StaleCleanUpUnregistersNewer | chat-server/connection/connection.go:50-61 | a replaced connection stays open but unreachable, and its later teardown leaves bob offline while his newer socket is still open |
| Scenarios.RegistryRoundTrip | chat-server/connection/connection.go:50-70 | Get after Add returns the added connection and the old entry for every other id; Get after Remove returns nil |

## Left out

- Concurrency: the two goroutines per connection (connection.go:169-170), `select` scheduling and the data race on the unsynchronised map. Each step is atomic. `ReadLoop` and `WriteLoop` run a stretch of one loop with no other step in between; interleavings are not verified.
- Deadlines and timers: `SetReadLimit`, `SetReadDeadline`, the pong handler, `SetWriteDeadline`, `time.NewTicker` and `ticker.Stop`. Read-deadline expiry and an oversize frame show up as a `ReadFailed` input; ticks are `Tick` events. `WriteTimeout` is kept as a constant only.
- The gorilla/websocket transport is a foreign library. The upgrader's buffer sizes and `CheckOrigin` are not modelled. Whether a transport write succeeds is an input; it is not derived from the socket's `closed` flag. Likewise, a read after the socket is closed need not fail: the read result is an input too.
- In the source, `writer.Write`'s error is ignored and the writer is never closed, so a binary frame is flushed only when the next frame begins. The model records the frame when NextWriter succeeds.
- `ReadJSON` and `json.Marshal` are foreign. Decoding is the `Inbound` input, and encoding is the abstract, possibly failing `encode` parameter.
- Console logging (`fmt.Println`, `fmt.Printf`), including the `IsUnexpectedCloseError` check, which only decides whether to log.
- Connections.HandleWebSocketConnections: on a failed upgrade the model reports the 500 that the handler asks for. The upgrader has already answered the client itself, so what the client sees is not modelled.
- No code in the repository closes `sendingChannel`. The `sendingClosed` flag is still modelled, so that the write loop's closed-channel branch (connection.go:126-130) and Go's panic on a send to a closed channel exist in the model. No modelled operation sets the flag.
- Timing.NineTenths: states nothing for durations whose product by 9 overflows int64. Such durations are irrelevant for the constant 60s, but the wrap-around itself is modelled in the body.
- Connections.ReadLoop: the channel facts (the trace ending in the registry's channels, hence kept closed flags and per-id contents, and that every delivered envelope found an open channel with room) are stated for a registry keyed by id. The empty registry is keyed and every modelled operation keeps it keyed, so this covers every registry the model can reach. It does not restate capacity across the run; the router states it per call.
- `chat-server/configure/configs.go` (configuration read through a foreign library), `chat-server/server.go` (process wiring and `ListenAndServe`) and `chat-client/client.go` (a demo client that only does I/O) are not part of this model.
