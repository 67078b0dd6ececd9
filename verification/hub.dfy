/** The connection adapter of internal/websocket/hub.go, seen from the room:
    connecting (default user name, `NewClient`, registration), the read
    pump's per-frame step (decode or fall back, record, broadcast) and its
    exit path (unregister, then `Close`). The socket itself, the upgrade and
    the write pump's socket writes are not modelled; the write pump appears
    only as the consumer that takes frames off a client's queue.
 */
module Hub {
  import opened GoRuntime
  import opened Messages
  import opened Clients
  import opened Room
  import History

  const AnonymousName := "Anonymous"

  /** The `username` query parameter, defaulting to "Anonymous" when empty. */
  function DefaultUsername(query: string): (name: string)
    ensures name != ""
    ensures query != "" ==> name == query
    ensures query == "" ==> name == AnonymousName
  {
    if query == "" then AnonymousName else query
  }

  /** The message a read pump makes of one inbound frame: the decoded message
      verbatim when `decode` (standing for `json.Unmarshal`) accepts the frame,
      otherwise a "message"-kind entry with a fresh id, the connection's own
      user name and the raw frame as its content. A decoded message is trusted
      as it stands, so it keeps whatever user name, id and kind it claims. */
  function Inbound(raw: string, decode: string -> Option<Message>, username: string,
                   freshId: string, now: Time): (m: Message)
    ensures decode(raw).Some? ==> m == decode(raw).value
    ensures decode(raw).None? ==>
              m.id == freshId && m.username == username && m.content == raw
              && m.kind == KindMessage && m.timestamp == now
  {
    match decode(raw)
    case Some(msg) => msg
    case None => NewMessage(freshId, username, raw, KindMessage, now)
  }

  /** The room together with the allocator that hands out client pointers,
      and the frame each read pump has recorded but not yet handed to the
      room's `Broadcast` channel (the pump is blocked on that send). */
  datatype Server = Server(room: State, next: Handle, pending: map<Handle, Frame>)

  predicate ServerValid(sv: Server) {
    && Valid(sv.room)
    && forall h | h in sv.room.clients :: h < sv.next
  }

  function Start(): (sv: Server)
    ensures ServerValid(sv) && sv.room == Init() && sv.pending == map[]
  {
    Server(Init(), 0, map[])
  }

  /** `HandleWebSocket` after a successful upgrade: a new client object with
      capacity-256 queue, handed to the room's register event before either
      pump starts. The model runs the whole register case as part of this one
      event, so no pump of the newcomer acts while it runs. */
  function Connect(sv: Server, query: string, id: string, now: Time): (r: Go<Server>)
    requires Linked(sv.room)
    ensures r.Ok? ==> r.value.next == sv.next + 1
    ensures r.Ok? ==> r.value.room.history == sv.room.history && r.value.pending == sv.pending
  {
    var h := sv.next;
    var withClient := sv.room.(clients := sv.room.clients[h := NewClient(id, DefaultUsername(query))]);
    var room :- Register(withClient, h, now);
    Ok(sv.(room := room, next := sv.next + 1))
  }

  /** Once the register case for a new connection to a valid server has run,
      the connection is registered; its queue holds its own join notice followed by the whole history; it has a
      non-empty user name; and the server stays valid. */
  lemma ConnectRegisters(sv: Server, query: string, id: string, now: Time)
    requires ServerValid(sv)
    ensures Connect(sv, query, id, now).Ok?
    ensures
      var r := Connect(sv, query, id, now).value;
      var c := r.room.clients[sv.next];
      && ServerValid(r)
      && sv.next in r.room.registry && !c.closed
      && c.id == id && c.username == DefaultUsername(query) && c.username != ""
      && c.send.buf == [Json(NewJoinMessage(c.username, now))] + Frames(sv.room.history)
  {
    var h := sv.next;
    var withClient := sv.room.(clients := sv.room.clients[h := NewClient(id, DefaultUsername(query))]);
    assert h !in sv.room.clients;
    assert Sound(withClient);
    RegisterDelivers(withClient, h, now);
    RegisterKeepsValid(withClient, h, now);
    assert History.Min(|sv.room.history|, QueueCapacity - 1) == |sv.room.history|;
    assert sv.room.history[..|sv.room.history|] == sv.room.history;
  }

  /** The read pump's step for one frame, up to the broadcast: the message is
      recorded in the history; no client queue is touched, so the sender sees
      its own message only through the fan-out that follows. */
  function ReadFrame(s: State, h: Handle, raw: string, decode: string -> Option<Message>,
                     freshId: string, now: Time): (r: (Message, State))
    requires h in s.clients
    ensures r.0 == Inbound(raw, decode, s.clients[h].username, freshId, now)
    ensures r.1.registry == s.registry && r.1.clients == s.clients
    ensures r.1.history == History.Add(s.history, r.0)
  {
    var msg := Inbound(raw, decode, s.clients[h].username, freshId, now);
    (msg, Record(s, msg))
  }

  /** One full iteration of the read pump when no other event falls between
      its record and its broadcast. In a valid room it succeeds; the message
      is the newest history entry and the last frame of every registered
      client with room, the sender included. */
  function PumpFrame(s: State, h: Handle, raw: string, decode: string -> Option<Message>,
                     freshId: string, now: Time): (r: Go<State>)
    requires Linked(s) && h in s.clients
    ensures Sound(s) ==> r.Ok? && Sound(r.value) && ClosesOnlyOnLeave(s, r.value)
    ensures Valid(s) ==> Valid(r.value)
    ensures r.Ok? ==> r.value.clients.Keys == s.clients.Keys
    ensures r.Ok? ==>
              var m := Inbound(raw, decode, s.clients[h].username, freshId, now);
              && r.value.history == History.Add(s.history, m)
              && r.value.history[|r.value.history| - 1] == m
              && forall g | g in s.registry && s.clients[g].send.HasRoom() ::
                   g in r.value.registry && r.value.clients[g].send.buf == s.clients[g].send.buf + [Json(m)]
  {
    var (msg, recorded) := ReadFrame(s, h, raw, decode, freshId, now);
    Broadcast(recorded, Json(msg))
  }

  /** The read pump's exit: send the unregister event, then call `Close`. */
  function Exit(s: State, h: Handle, now: Time): (r: Go<State>)
    requires Linked(s) && h in s.clients
    ensures r.Ok? ==> h !in r.value.registry && h in r.value.clients && r.value.clients[h].closed
  {
    var s1 :- Unregister(s, h, now);
    var c :- Close(s1.clients[h]);
    Ok(s1.(clients := s1.clients[h := c]))
  }

  /** In a valid room the pump's own `Close` after unregistration is always
      absorbed: the exit is just the unregistration, the connection has been
      closed exactly once, and exiting again changes nothing. */
  lemma ExitClosesOnce(s: State, h: Handle, now: Time)
    requires Valid(s) && h in s.clients
    ensures Exit(s, h, now).Ok? && Unregister(s, h, now).Ok?
    ensures Exit(s, h, now) == Unregister(s, h, now)
    ensures
      var r := Exit(s, h, now).value;
      && Valid(r) && r.clients[h].connCloses == 1
      && Exit(r, h, now) == Ok(r)
  {
    var r := Unregister(s, h, now).value;
    assert r.clients[h].closed;
    assert r.clients[h := r.clients[h]] == r.clients;
  }

  /** The write pump takes the oldest frame off a client's queue (its write to
      the socket is not modelled). */
  function Drain(s: State, h: Handle): (r: State)
    requires h in s.clients
    ensures r.registry == s.registry && r.history == s.history && r.clients.Keys == s.clients.Keys
    ensures |r.clients[h].send.buf| <= |s.clients[h].send.buf|
    ensures Sound(s) ==> Sound(r)
    ensures Valid(s) ==> Valid(r)
  {
    var c := s.clients[h];
    match Receive(c.send)
    case None => s
    case Some((_, ch)) => s.(clients := s.clients[h := c.(send := ch)])
  }

  /** What can happen to a server: a connection arrives, a read pump records
      a frame, a read pump hands its recorded frame to the room for fan-out,
      a read pump exits, a write pump takes a frame. Recording and fan-out
      are separate events: in between, the room may handle any other event. */
  datatype Action =
    | Connect(query: string, id: string, now: Time)
    | Frame(h: Handle, raw: string, freshId: string, now: Time)
    | Deliver(h: Handle)
    | Leave(h: Handle, now: Time)
    | Take(h: Handle)

  /** One action. Actions on a pointer no connection was given have no pump
      and do nothing; a pump blocked on its `Broadcast` send reads no frame
      and does not exit until the room takes the frame. */
  function Step(sv: Server, a: Action, decode: string -> Option<Message>): Go<Server>
    requires Linked(sv.room)
  {
    match a
    case Connect(query, id, now) => Connect(sv, query, id, now)
    case Frame(h, raw, freshId, now) =>
      if h !in sv.room.clients || h in sv.pending then Ok(sv)
      else
        var (msg, recorded) := ReadFrame(sv.room, h, raw, decode, freshId, now);
        Ok(sv.(room := recorded, pending := sv.pending[h := Json(msg)]))
    case Deliver(h) =>
      if h !in sv.pending then Ok(sv)
      else
        var room :- Broadcast(sv.room, sv.pending[h]);
        Ok(sv.(room := room, pending := sv.pending - {h}))
    case Leave(h, now) =>
      if h !in sv.room.clients || h in sv.pending then Ok(sv)
      else
        var room :- Exit(sv.room, h, now);
        Ok(sv.(room := room))
    case Take(h) =>
      if h !in sv.room.clients then Ok(sv) else Ok(sv.(room := Drain(sv.room, h)))
  }

  lemma StepKeepsValid(sv: Server, a: Action, decode: string -> Option<Message>)
    requires ServerValid(sv)
    ensures Step(sv, a, decode).Ok? && ServerValid(Step(sv, a, decode).value)
    ensures ClosesOnlyOnLeave(sv.room, Step(sv, a, decode).value.room)
  {
    match a
    case Connect(query, id, now) =>
      ConnectRegisters(sv, query, id, now);
    case Frame(h, raw, freshId, now) =>
    case Deliver(h) =>
    case Leave(h, now) =>
      if h in sv.room.clients && h !in sv.pending {
        ExitClosesOnce(sv.room, h, now);
      }
    case Take(h) =>
  }

  /** A client that connects while a read pump is between its record and its
      fan-out receives that pump's message twice: once in the history replay
      and once more from the fan-out. */
  lemma LateJoinerGetsTwice(sv: Server, h: Handle, raw: string, decode: string -> Option<Message>,
                            freshId: string, now: Time, query: string, id: string, later: Time)
    requires ServerValid(sv) && h in sv.room.registry && h !in sv.pending
    ensures
      var m := Inbound(raw, decode, sv.room.clients[h].username, freshId, now);
      var s1 := Step(sv, Action.Frame(h, raw, freshId, now), decode).value;
      var s2 := Step(s1, Action.Connect(query, id, later), decode);
      && s2.Ok? && Linked(s2.value.room)
      && var s3 := Step(s2.value, Action.Deliver(h), decode);
      && s3.Ok? && sv.next in s3.value.room.clients
      && var buf := s3.value.room.clients[sv.next].send.buf;
      && |buf| >= 3 && buf[|buf| - 2] == Json(m) && buf[|buf| - 1] == Json(m)
  {
    var m := Inbound(raw, decode, sv.room.clients[h].username, freshId, now);
    StepKeepsValid(sv, Action.Frame(h, raw, freshId, now), decode);
    var s1 := Step(sv, Action.Frame(h, raw, freshId, now), decode).value;
    assert s1.room.history == History.Add(sv.room.history, m);
    ConnectRegisters(s1, query, id, later);
    var s2 := Step(s1, Action.Connect(query, id, later), decode).value;
    var c := s2.room.clients[sv.next];
    assert c.send.buf == [Json(NewJoinMessage(c.username, later))] + Frames(s1.room.history);
    assert c.send.buf[|c.send.buf| - 1] == Json(m);
    assert c.send.HasRoom();
    var s3 := Broadcast(s2.room, Json(m)).value;
    assert s3.clients[sv.next] == Enqueued(c, Json(m));
  }

  /** A run of actions, stopping at the first panic. */
  function Run(sv: Server, actions: seq<Action>, decode: string -> Option<Message>): Go<Server>
    requires ServerValid(sv)
    decreases |actions|
  {
    if actions == [] then Ok(sv)
    else
      StepKeepsValid(sv, actions[0], decode);
      var next :- Step(sv, actions[0], decode);
      Run(next, actions[1..], decode)
  }

  /** No run of a server ever panics: the room never sends on or closes a
      closed channel, every client is closed at most once and exactly when it
      leaves the registry, and the history never exceeds its capacity. */
  lemma {:induction false} RunNeverPanics(sv: Server, actions: seq<Action>, decode: string -> Option<Message>)
    requires ServerValid(sv)
    ensures Run(sv, actions, decode).Ok?
    ensures ServerValid(Run(sv, actions, decode).value)
    ensures |Run(sv, actions, decode).value.room.history| <= History.Capacity
    decreases |actions|
  {
    if actions != [] {
      StepKeepsValid(sv, actions[0], decode);
      RunNeverPanics(Step(sv, actions[0], decode).value, actions[1..], decode);
    }
  }
}
