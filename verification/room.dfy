/** The chat room of internal/chat/room.go as a sequential state machine. Each
    case of `ChatRoom.Run` (register, unregister, broadcast) and each call of
    `AddMessage` is one atomic transition of a pure `State`; the Go channels
    that deliver these events and the mutex that guards the history are not
    modelled.

    The registry `map[*Client]bool` is a set of pointers. The client objects
    behind those pointers live in `clients`, which plays the part of the heap:
    a client dropped from the registry is still referenced by its pumps, and
    its later `Close` must see the state the room left it in.
 */
module Room {
  import opened GoRuntime
  import opened Messages
  import opened Clients
  import History
  import FanOut

  type Handle = FanOut.Handle

  datatype State = State(registry: set<Handle>, clients: map<Handle, Client>, history: seq<Message>)

  /** Every registered pointer refers to a live client object. */
  predicate Linked(s: State) {
    s.registry <= s.clients.Keys
  }

  /** The safety invariant: the history is within its bound, every handle is
      well formed, and no registered client is closed, so the room never sends
      on a closed `Send` channel. */
  predicate Sound(s: State) {
    && Linked(s)
    && |s.history| <= History.Capacity
    && (forall h | h in s.clients :: WellFormed(s.clients[h]))
    && (forall h | h in s.registry :: !s.clients[h].closed)
  }

  /** The invariant of every state between events: on top of `Sound`, a client
      is registered exactly while it is open, so a client is closed precisely
      when it leaves the registry. */
  predicate Valid(s: State) {
    && Sound(s)
    && (forall h | h in s.clients :: h in s.registry || s.clients[h].closed)
  }

  /** A transition closes a client exactly when it removes that client from
      the registry, and never reopens one. */
  predicate ClosesOnlyOnLeave(s: State, r: State) {
    && s.clients.Keys <= r.clients.Keys
    && forall h | h in s.clients ::
         && (s.clients[h].closed ==> r.clients[h].closed)
         && (!s.clients[h].closed && r.clients[h].closed <==> h in s.registry && h !in r.registry)
  }

  /** `NewChatRoom()`: no clients, empty history. */
  function Init(): (s: State)
    ensures Valid(s)
    ensures s.registry == {} && s.history == []
  {
    State({}, map[], [])
  }

  /** The client `c` after `f` was queued on its `Send` channel. */
  function Enqueued(c: Client, f: Frame): Client {
    c.(send := c.send.(buf := c.send.buf + [f]))
  }

  /** One non-blocking send of a fan-out: queue `f`, or, when the queue is
      full, `Close` the client and drop it. */
  function Offer(c: Client, f: Frame): (r: Go<FanOut.Fate<Client>>)
    ensures r.Panic? <==> c.send.closed
    ensures r.Ok? && r.value.Kept? <==> !c.send.closed && c.send.HasRoom()
    ensures r.Ok? && r.value.Kept? ==> r.value.client == Enqueued(c, f)
    ensures r.Ok? && r.value.Dropped? ==>
              r.value.client.closed && r.value.client.send.buf == c.send.buf
              && r.value.client.id == c.id && r.value.client.username == c.username
    ensures r.Ok? && WellFormed(c) ==> WellFormed(r.value.client)
  {
    var sent :- TrySend(c.send, f);
    match sent
    case Some(ch) => Ok(FanOut.Kept(c.(send := ch)))
    case None =>
      // The queue is open here, so `Close` cannot panic.
      Ok(FanOut.Dropped(Close(c).value))
  }

  /** Fan-out of one frame to every registered client (`Run`'s broadcast case,
      and `broadcastMessage` once the message is serialized). Clients with room
      get the frame appended; clients whose queue is full are closed and leave
      the registry; nothing else changes, the history included. The room
      panics only if a registered client is already closed. */
  function Broadcast(s: State, f: Frame): (r: Go<State>)
    requires Linked(s)
    ensures r.Panic? <==> exists h | h in s.registry :: s.clients[h].send.closed
    ensures Sound(s) ==> r.Ok?
    ensures r.Ok? ==> r.value.history == s.history && r.value.clients.Keys == s.clients.Keys
    ensures r.Ok? ==> r.value.registry == set h | h in s.registry && s.clients[h].send.HasRoom()
    ensures r.Ok? ==> forall h | h in s.registry && s.clients[h].send.HasRoom() ::
              r.value.clients[h] == Enqueued(s.clients[h], f)
    ensures r.Ok? ==> forall h | h in s.registry && !s.clients[h].send.HasRoom() ::
              r.value.clients[h].closed && r.value.clients[h].send.buf == s.clients[h].send.buf
              && r.value.clients[h].id == s.clients[h].id
              && r.value.clients[h].username == s.clients[h].username
    ensures r.Ok? ==> forall h | h in s.clients && h !in s.registry :: r.value.clients[h] == s.clients[h]
    ensures Sound(s) ==> Sound(r.value) && ClosesOnlyOnLeave(s, r.value)
    ensures Valid(s) ==> Valid(r.value)
  {
    var reg :- FanOut.All(s.registry, s.clients, c => Offer(c, f));
    Ok(State(reg.members, reg.clients, s.history))
  }

  /** Go's random iteration order does not matter: visiting the registry in
      any order gives exactly `Broadcast`'s outcome. */
  lemma BroadcastAnyOrder(s: State, f: Frame, order: seq<Handle>)
    requires Linked(s)
    requires FanOut.Distinct(order) && FanOut.Elements(order) == s.registry
    ensures
      var it := FanOut.InOrder(s.registry, s.clients, order, c => Offer(c, f));
      && (it.Panic? <==> Broadcast(s, f).Panic?)
      && (it.Ok? ==> Broadcast(s, f) == Ok(State(it.value.members, it.value.clients, s.history)))
  {
    FanOut.AnyOrder(s.registry, s.clients, order, c => Offer(c, f));
  }

  /** The state a registration broadcasts its join notice over: the new
      client is already in the registry. */
  function Joined(s: State, h: Handle): State {
    s.(registry := s.registry + {h})
  }

  function JoinFrame(s: State, h: Handle, now: Time): Frame
    requires h in s.clients
  {
    Json(NewJoinMessage(s.clients[h].username, now))
  }

  /** `Run`'s register case: add the client, broadcast the join notice to every
      registered client (the new one included), then replay the history to
      the new client alone. */
  function Register(s: State, h: Handle, now: Time): (r: Go<State>)
    requires Linked(s) && h in s.clients
    ensures r.Ok? ==> r.value.history == s.history && r.value.clients.Keys == s.clients.Keys
    ensures r.Ok? ==> Broadcast(Joined(s, h), JoinFrame(s, h, now)).Ok?
    ensures r.Ok? ==>
              var b := Broadcast(Joined(s, h), JoinFrame(s, h, now)).value;
              && r.value.registry == b.registry
              && forall g | g in s.clients && g != h :: r.value.clients[g] == b.clients[g]
  {
    var s2 :- Broadcast(Joined(s, h), JoinFrame(s, h, now));
    var send :- History.Replay(s2.clients[h].send, s2.history);
    Ok(s2.(clients := s2.clients[h := s2.clients[h].(send := send)]))
  }

  /** Registering an open client that has room in its queue succeeds and keeps
      the room sound; the client ends up registered, and its queue receives
      the join notice first and then the longest prefix of the history that
      fits, in history order. The join notice is not recorded. */
  lemma RegisterDelivers(s: State, h: Handle, now: Time)
    requires Sound(s) && h in s.clients
    requires !s.clients[h].closed && s.clients[h].send.HasRoom()
    ensures Register(s, h, now).Ok?
    ensures
      var r := Register(s, h, now).value;
      var withJoin := s.clients[h].send.buf + [JoinFrame(s, h, now)];
      var k := History.Min(|s.history|, QueueCapacity - |withJoin|);
      && Sound(r)
      && h in r.registry && !r.clients[h].closed
      && r.clients[h].send.buf == withJoin + Frames(s.history[..k])
      && r.history == s.history
  {
    var j := Joined(s, h);
    var f := JoinFrame(s, h, now);
    assert Sound(j);
    var s2 := Broadcast(j, f).value;
    assert h in s2.registry;
    var c := s2.clients[h];
    assert c == Enqueued(s.clients[h], f);
    History.ReplayDelivers(c.send, s2.history);
    var r := Register(s, h, now).value;
    assert r.clients[h] == c.(send := History.Replay(c.send, s2.history).value);
  }

  /** Registering a new open client with room, into a room where every other
      client is registered exactly while open, yields a valid room. */
  lemma RegisterKeepsValid(s: State, h: Handle, now: Time)
    requires Sound(s) && h in s.clients && h !in s.registry
    requires !s.clients[h].closed && s.clients[h].send.HasRoom()
    requires forall g | g in s.clients && g != h :: g in s.registry || s.clients[g].closed
    ensures Register(s, h, now).Ok? && Valid(Register(s, h, now).value)
  {
    var joined := Joined(s, h);
    assert Valid(joined);
    var b := Broadcast(joined, JoinFrame(s, h, now)).value;
    RegisterDelivers(s, h, now);
    var r := Register(s, h, now).value;
    forall g | g in r.clients
      ensures g in r.registry || r.clients[g].closed
    {
      if g != h {
        assert r.clients[g] == b.clients[g];
      }
    }
  }

  /** `Run`'s unregister case: a registered client is removed, closed, and its
      leave notice goes to the clients that remain. An absent client changes
      nothing: no close and no leave notice. */
  function Unregister(s: State, h: Handle, now: Time): (r: Go<State>)
    requires Linked(s)
    ensures h !in s.registry ==> r == Ok(s)
    ensures r.Ok? ==> h !in r.value.registry && r.value.history == s.history
    ensures r.Ok? ==> r.value.clients.Keys == s.clients.Keys
    ensures Sound(s) ==> r.Ok? && Sound(r.value) && ClosesOnlyOnLeave(s, r.value)
    ensures Valid(s) ==> Valid(r.value)
    ensures Sound(s) && h in s.registry ==>
              var c := s.clients[h];
              var leave := Json(NewLeaveMessage(c.username, now));
              && r.value.clients[h].closed && r.value.clients[h].connCloses == c.connCloses + 1
              && r.value.clients[h].send.buf == c.send.buf
              && (forall g :: g in r.value.registry <==> g in s.registry && g != h && s.clients[g].send.HasRoom())
              && (forall g | g in s.registry && g != h && s.clients[g].send.HasRoom() ::
                    r.value.clients[g] == Enqueued(s.clients[g], leave))
              && (forall g | g in s.registry && g != h && !s.clients[g].send.HasRoom() ::
                    r.value.clients[g].closed && r.value.clients[g].send.buf == s.clients[g].send.buf)
              && (forall g | g in s.clients && g !in s.registry :: r.value.clients[g] == s.clients[g])
  {
    if h !in s.registry then Ok(s)
    else
      var c :- Close(s.clients[h]);
      Broadcast(State(s.registry - {h}, s.clients[h := c], s.history), Json(NewLeaveMessage(c.username, now)))
  }

  /** `AddMessage` on the room: only the history changes. */
  function Record(s: State, m: Message): (r: State)
    ensures r.registry == s.registry && r.clients == s.clients
    ensures r.history == History.Add(s.history, m)
    ensures Sound(s) ==> Sound(r)
    ensures Valid(s) ==> Valid(r)
  {
    s.(history := History.Add(s.history, m))
  }

  /** `GetClientCount`: in a valid room, the number of clients that are still
      open, i.e. connected and neither unregistered nor evicted. */
  function ClientCount(s: State): (n: nat)
    ensures Valid(s) ==> n == |set h | h in s.clients && !s.clients[h].closed|
  {
    assert Valid(s) ==> s.registry == set h | h in s.clients && !s.clients[h].closed;
    |s.registry|
  }

  /** `GetMessageCount`: never more than the history capacity. */
  function MessageCount(s: State): (n: nat)
    ensures Sound(s) ==> n <= History.Capacity
    ensures n == |s.history|
  {
    |s.history|
  }

  /** `GetMessages`: a fresh copy of the history, element by element. */
  method Snapshot(s: State) returns (copy: seq<Message>)
    ensures copy == s.history
    ensures |copy| == MessageCount(s)
  {
    copy := [];
    var i := 0;
    while i < |s.history|
      invariant 0 <= i <= |s.history|
      invariant copy == s.history[..i]
    {
      copy := copy + [s.history[i]];
      i := i + 1;
    }
  }
}
