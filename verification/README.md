# Chat room broadcaster — a Dafny model

This project models the core of a single-room websocket chat relay written in
Go: the room that keeps the registry of connected clients and a bounded
history, its event loop (register, unregister, broadcast), history recording,
the client handle with its idempotent `Close`, and the per-connection read
pump as seen from the room. It also models the older copy of the same room in
`main.go`, whose clients have no close guard.

The model is a sequential state machine. Every case of `ChatRoom.Run` and every
`AddMessage` call is one atomic transition of an immutable state:

- `Room.State`: the registry (a set of client pointers), the client objects
  behind those pointers (`clients`, standing for the heap, because a read pump
  keeps its pointer after the room drops the client), and the history.
- `Clients.Client`: id, user name, the outbound queue `Send` as a buffered
  channel of capacity 256, the `closed` flag, and how often `Close` has closed
  the connection.
- `GoRuntime`: Go's buffered channels with the non-blocking send
  (`select` + `default`) and `close`, and the two runtime panics they can
  raise ("send on closed channel", "close of closed channel"). Every
  transition returns `Go<T>`, so "never closes a channel twice" and "never
  sends to a closed client" are theorems that no panic occurs.
- `FanOut`: the fan-out loop, run in any visiting order (Go's map order is
  random), with the proof that every order gives the same outcome.
- `Hub`: connecting (user name default, new client, the register event
  handed to the room before the pumps start), one read-pump iteration (decode
  or fall back, record, then broadcast), the read pump's exit (unregister,
  then `Close`), the write pump taking a frame off a queue, and whole runs of
  such actions.
- `Legacy`: the same room as written in `main.go`.

Main results: no run of either server ever panics (`Hub.RunNeverPanics`,
`Legacy.RunNeverClosesTwice`); a client is closed exactly when it leaves the
registry (`Room.ClosesOnlyOnLeave`, `Legacy.ClosesOnlyOnLeave`); the history
always holds the newest 100 messages in order (`History.AddAllKeepsNewest`);
a fan-out appends to every client with room, evicts and closes every full one
and touches nothing else (`Room.Broadcast`), whatever the visiting order
(`Room.BroadcastAnyOrder`); a newcomer's queue gets its join notice and then
the history (`Hub.ConnectRegisters`).

Time (`time.Now()`) and generated ids are parameters. JSON encoding is the
opaque frame `Json(msg)`; JSON decoding is a function parameter `decode`.

## Model

| member | source | states |
|---|---|---|
| Messages.NewMessage | internal/chat/message.go:15-23 | id, user name, content and kind are the arguments; the timestamp is the supplied instant |
| Messages.NewSystemMessage | internal/chat/message.go:26-28 | empty id, author "System", kind "system", content unchanged |
| Messages.NewJoinMessage | internal/chat/message.go:31-33 | empty id, author "System", kind "join", content is the user name followed by the join suffix |
| Messages.NewLeaveMessage | internal/chat/message.go:36-38 | empty id, author "System", kind "leave", content is the user name followed by the leave suffix |
| Messages.JoinLeaveShareName | internal/chat/message.go:31-38 | join and leave notices of a user both start with the user name, differ only in suffix and kind, and different names give different notice texts |
| Clients.NewClient | internal/chat/client.go:20-27 | a new handle is open, well formed, with an empty queue of capacity 256 and an unclosed connection |
| Clients.Close | internal/chat/client.go:30-39 | the first call closes flag, queue and connection (once); on a closed handle it changes nothing, so a second call is a no-op; id, user name and queued frames are kept; it panics only if the queue was closed behind the flag's back |
| Clients.CloseExactlyOnce | internal/chat/client.go:30-39 | any positive number of `Close` calls on an open handle equals one call: queue and connection closed exactly once, identity kept |
| Clients.StaysClosed | internal/chat/client.go:34-35 | once closed, any number of further `Close` calls leaves the handle as it is |
| History.Add | internal/chat/room.go:93-101 | the new message is last; below capacity nothing is dropped; at capacity exactly the oldest is dropped and the others keep their order; the bound of 100 is kept |
| History.AddKeepsNewest | internal/chat/room.go:97-100 | one addition keeps exactly the newest 100 of the old history plus the new message |
| History.AddAllKeepsNewest | internal/chat/room.go:97-100 | any run of additions leaves exactly the newest 100 messages ever added, in order |
| History.OverflowByOne | internal/chat/room.go:97-100 | from empty, 101 additions leave the last 100 in order and the first is gone |
| History.ReplayDelivers | internal/chat/room.go:78-90 | replay into an open queue appends the longest prefix of the history that fits, oldest first, and stops silently at a full queue; into a closed queue it panics unless the history is empty |
| FanOut.All | internal/chat/room.go:52-58 | a fan-out panics iff some single offer panics; otherwise each registered client takes the state its own offer gives it, leaves the registry iff dropped, and unregistered clients are untouched |
| FanOut.InOrderIsOver | internal/chat/room.go:52-58 | running the loop over a duplicate-free list of registered clients equals the order-free outcome over exactly those clients, deletion during iteration included |
| FanOut.AnyOrder | internal/chat/room.go:67-74 | every visiting order of the registry gives the same outcome |
| Room.Init | internal/chat/room.go:19-27 | a new room has no clients and no history and satisfies the invariant |
| Room.Offer | internal/chat/room.go:53-58 | a send to an open client with room keeps it and appends the frame; a full one is closed (queue contents and identity kept) and dropped; a closed one panics |
| Room.Broadcast | internal/chat/room.go:50-59 | every registered client with room gets the frame appended, every full one is closed and removed, no other client changes, history unchanged; panics iff a registered client is closed, so never in a sound room; keeps both invariants and closes a client only when removing it |
| Room.BroadcastAnyOrder | internal/chat/room.go:52-58 | the loop in Go's random map order has exactly the outcome `Broadcast` describes |
| Room.Register | internal/chat/room.go:33-39 | history unchanged (join notice not recorded); registry and every other client are as after broadcasting the join notice with the newcomer already registered |
| Room.RegisterDelivers | internal/chat/room.go:33-39 | an open newcomer with room stays registered and open; its queue gets the join notice first and then the longest fitting prefix of the history, in order |
| Room.RegisterKeepsValid | internal/chat/room.go:33-39 | registering a new open client with room into an otherwise valid room succeeds and leaves the room valid |
| Room.Unregister | internal/chat/room.go:41-48 | for an absent client nothing changes (no close, no leave notice); a registered client is removed and closed, its connection closed once more, its queue gets no leave notice, and the leave notice goes to the remaining clients with room while full ones are evicted and clients outside the registry are untouched; keeps both invariants |
| Room.Record | internal/chat/room.go:93-101 | recording changes only the history and keeps the invariants |
| Room.ClientCount | internal/chat/room.go:114-118 | in a valid room, the count equals the number of clients neither unregistered nor evicted |
| Room.MessageCount | internal/chat/room.go:121-125 | the count is the history length and at most 100 |
| Room.Snapshot | internal/chat/room.go:104-111 | returns a copy equal to the history |
| Hub.DefaultUsername | internal/websocket/hub.go:34-37 | an empty query becomes "Anonymous", a non-empty one passes unchanged, the result is never empty |
| Hub.Inbound | internal/websocket/hub.go:67-70 | a decodable frame is used verbatim, keeping whatever user name it claims; otherwise a "message" entry with a fresh id, the connection's user name and the raw frame as content |
| Hub.Connect | internal/websocket/hub.go:45-50 | connecting allocates a new pointer and leaves the history unchanged |
| Hub.ConnectRegisters | internal/websocket/hub.go:45-50 | after the register case has run, the new client is registered, open, with the defaulted user name, and its queue holds its join notice followed by the whole history; the server stays valid |
| Hub.ReadFrame | internal/websocket/hub.go:66-73 | the frame's message is recorded last in history before any broadcast, and no queue is touched, so the sender sees its echo only through the fan-out |
| Hub.PumpFrame | internal/websocket/hub.go:72-77 | when no other event falls between record and fan-out: never panics in a sound room and keeps both invariants; after record and broadcast the message is the newest history entry and the last frame of every registered client with room, the sender included |
| Hub.LateJoinerGetsTwice | internal/websocket/hub.go:72-77 | a client that connects between a read pump's record and its fan-out ends with that message twice as the last two frames of its queue |
| Hub.Exit | internal/websocket/hub.go:55-58 | after the exit the client is unregistered and closed |
| Hub.ExitClosesOnce | internal/websocket/hub.go:55-58 | in a valid room the pump's own `Close` after unregistration is absorbed: the connection is closed exactly once and exiting again changes nothing |
| Hub.Drain | internal/websocket/hub.go:85 | taking a frame off a queue keeps registry, history and invariants |
| Hub.StepKeepsValid | internal/chat/room.go:30-62 | every connect, frame record, fan-out of a recorded frame, exit or queue receive on a valid server succeeds, keeps it valid, and closes a client only when it leaves the registry |
| Hub.RunNeverPanics | internal/chat/room.go:30-62 | no run of actions from a valid server panics, and the history stays within 100 |
| Legacy.NewLegacyClient | main.go:146-162 | the legacy client has the defaulted non-empty user name and an open empty queue of capacity 256 |
| Legacy.JoinNotice | main.go:71-77 | the legacy join notice is the current one with a generated id instead of an empty one |
| Legacy.LeaveNotice | main.go:87-93 | the legacy leave notice is the current one with a generated id instead of an empty one |
| Legacy.Offer | main.go:100-105 | a send to an open client with room appends; a full client's queue is closed directly and the client dropped; a closed one panics |
| Legacy.Broadcast | main.go:97-106 | same partition as the current room; in a sound room it cannot panic and closes a queue only when removing its client |
| Legacy.Register | main.go:68-80 | history unchanged; registry and every other client are as after broadcasting the legacy join notice with the newcomer already registered |
| Legacy.RegisterDelivers | main.go:125-137 | the legacy replay appends the longest fitting prefix of the history after the join notice and never evicts the newcomer |
| Legacy.RegisterKeepsValid | main.go:68-80 | registering a new open client with room into an otherwise valid legacy room succeeds, leaves it valid and closes only evicted queues |
| Legacy.Unregister | main.go:82-95 | an absent client changes nothing, so a second unregistration is a no-op; closing a registered client's already-closed queue panics; in a sound room the queue is closed exactly as the client leaves, and a second `close` of it would panic, so the membership check is the only guard |
| Legacy.UnregisterNotifies | main.go:82-95 | in a sound room a registered client's queue is closed with its contents kept, the remaining clients with room get the leave notice, full ones are evicted and closed, and clients outside the registry are untouched |
| Legacy.ReadFrame | main.go:184-200 | undecodable frames become "message" entries with the client's name and raw content; the inline trim keeps the history at most 100, dropping the oldest |
| Legacy.Drain | main.go:213 | taking a frame off a queue keeps the legacy invariant |
| Legacy.StepKeepsValid | main.go:65-109 | every action on a valid legacy server succeeds and closes a queue only when its client leaves the registry |
| Legacy.RunNeverClosesTwice | main.go:82-106 | no run of the legacy server panics, so no queue is ever closed twice |

## Behaviour of note

- Join and leave notice texts are the user name followed by " 加入了聊天室" and
  " 離開了聊天室".
- The legacy room gives join and leave notices a generated id; the current one
  gives them an empty id.
- On registration the join notice is broadcast first (the newcomer receives it
  too) and only then is the history replayed to the newcomer.
- A read pump records its message with `AddMessage` under the room's mutex,
  outside the event loop, and then blocks until the room takes the frame from
  its `Broadcast` channel. The model makes these two separate events
  (`Action.Frame` and `Action.Deliver`), so any other event can fall between
  them. A client that registers in that window receives the message twice:
  once in the history replay and once from the fan-out
  (`Hub.LateJoinerGetsTwice`). The legacy server interleaves the same way.
- A frame that decodes as JSON is used as it stands, with whatever user name,
  id and kind it carries (possibly none); only frames that fail to decode get
  the connection's user name.
- The history capacity is the constant 100 in the room; the configured
  `MaxMessages` value is never used.

## Left out

- JSON: `json.Marshal` is the opaque frame `Json(msg)` and `json.Unmarshal` a `decode` parameter; no encode/decode round trip is claimed, and the ignored marshal error is not modelled.
- WebSocket and HTTP I/O: the upgrade and its failure, socket reads and writes, `NextWriter`, the write pump's loop (only its taking of one frame is modelled, as `Hub.Drain`), gin routing, CORS and static files (cmd/server/main.go and the tail of main.go).
- The physical connection's own state: only the closes made by `Client.Close` are counted; the write pump's deferred `Conn.Close` and the legacy read pump's `Conn.Close` are not modelled, as they do not touch the queue.
- Concurrency: goroutines, `select` fairness and the mutexes. Each event is atomic; a pump blocked on an event channel is modelled only for the read pump's `Broadcast` send (it reads and exits nothing until the room takes its frame). The duplicate delivery this allows is stated by `Hub.LateJoinerGetsTwice`.
- Byte strings: Go strings hold arbitrary bytes (`string(message)` keeps an undecodable frame as it came), while the model's `raw` and every other text is a sequence of Unicode characters; invalid UTF-8 is not modelled.
- Time and ids: `time.Now`, `generateID` and `utils.GenerateID` are parameters; no uniqueness of ids is claimed (the legacy `generateID` has one-second resolution).
- internal/api/handler.go (a JSON view of the accessors plus wall-clock uptime), internal/config/config.go (environment lookup) and web/static/script.js (browser UI).
- Hub.ConnectRegisters: the register case is one event together with the handler's send of the register event, so the newcomer's pumps never act while it runs. In Go the room's `select` takes the client from the unbuffered `Register` channel before it runs the register case, and the handler then starts both pumps at once. The newcomer's read pump can therefore record its own first message before the history replay, and then the newcomer receives that message twice: once in the replay and once from the fan-out. The legacy server has the same gap. The model does not exhibit this run; `Hub.LateJoinerGetsTwice` proves the same double delivery for a message another client's pump recorded.
- Hub.Exit: states only that the client ends unregistered and closed; that the connection was closed exactly once needs the room invariant and is stated by `Hub.ExitClosesOnce`.
