/** The older, monolithic copy of the room in main.go. Its client has no
    `closed` flag and no `Close` method: the room calls `close(client.Send)`
    directly when a client is unregistered or evicted, so only registry
    membership stands between a client and a second close, which would panic.
    Join and leave notices carry a generated id instead of an empty one, and
    the read pump trims the history inline. The physical connection is not
    modelled here (its `Close` never panics).
 */
module Legacy {
  import opened GoRuntime
  import opened Messages
  import History
  import FanOut
  import Hub

  type Handle = FanOut.Handle

  datatype LegacyClient = LegacyClient(id: string, username: string, send: Chan<Frame>)

  datatype LegacyState = LegacyState(registry: set<Handle>, clients: map<Handle, LegacyClient>, history: seq<Message>)

  const SendCapacity: nat := 256

  /** The client built by the legacy `handleWebSocket`. */
  function NewLegacyClient(id: string, query: string): (c: LegacyClient)
    ensures c.id == id && c.username == Hub.DefaultUsername(query) && c.username != ""
    ensures c.send.buf == [] && c.send.cap == 256 && !c.send.closed
  {
    LegacyClient(id, Hub.DefaultUsername(query), MakeChan(SendCapacity))
  }

  /** The legacy join notice: the current notice, but with a generated id. */
  function JoinNotice(username: string, id: string, now: Time): (m: Message)
    ensures m == NewJoinMessage(username, now).(id := id)
    ensures m.username == SystemName && m.kind == KindJoin && m.content[..|username|] == username
  {
    Message(id, SystemName, username + JoinSuffix, now, KindJoin)
  }

  /** The legacy leave notice: the current notice, but with a generated id. */
  function LeaveNotice(username: string, id: string, now: Time): (m: Message)
    ensures m == NewLeaveMessage(username, now).(id := id)
    ensures m.username == SystemName && m.kind == KindLeave && m.content[..|username|] == username
  {
    Message(id, SystemName, username + LeaveSuffix, now, KindLeave)
  }

  predicate Linked(s: LegacyState) {
    s.registry <= s.clients.Keys
  }

  /** Safety invariant of the legacy room: every queue is within capacity 256,
      the history within its bound, and every registered client's `Send` is
      still open. */
  predicate Sound(s: LegacyState) {
    && Linked(s)
    && |s.history| <= History.Capacity
    && (forall h | h in s.clients :: s.clients[h].send.WellFormed() && s.clients[h].send.cap == SendCapacity)
    && (forall h | h in s.registry :: !s.clients[h].send.closed)
  }

  /** Between events, a client's `Send` is open exactly while it is registered. */
  predicate Valid(s: LegacyState) {
    && Sound(s)
    && (forall h | h in s.clients :: h in s.registry || s.clients[h].send.closed)
  }

  /** A transition closes a `Send` channel exactly when it removes its client
      from the registry, and never reopens one. */
  predicate ClosesOnlyOnLeave(s: LegacyState, r: LegacyState) {
    && s.clients.Keys <= r.clients.Keys
    && forall h | h in s.clients ::
         && (s.clients[h].send.closed ==> r.clients[h].send.closed)
         && (!s.clients[h].send.closed && r.clients[h].send.closed <==> h in s.registry && h !in r.registry)
  }

  /** One non-blocking send of the legacy fan-out; a full client's `Send` is
      closed right away. */
  function Offer(c: LegacyClient, f: Frame): (r: Go<FanOut.Fate<LegacyClient>>)
    ensures r.Panic? <==> c.send.closed
    ensures r.Ok? && r.value.Kept? <==> !c.send.closed && c.send.HasRoom()
    ensures r.Ok? && r.value.Kept? ==> r.value.client == c.(send := c.send.(buf := c.send.buf + [f]))
    ensures r.Ok? && r.value.Dropped? ==>
              r.value.client == c.(send := c.send.(closed := true))
  {
    var sent :- TrySend(c.send, f);
    match sent
    case Some(ch) => Ok(FanOut.Kept(c.(send := ch)))
    case None =>
      // The queue is open here, so this `close` cannot panic.
      Ok(FanOut.Dropped(c.(send := CloseChan(c.send).value)))
  }

  /** The legacy fan-out, in the broadcast case of `Run` and in
      `broadcastMessage`. */
  function Broadcast(s: LegacyState, f: Frame): (r: Go<LegacyState>)
    requires Linked(s)
    ensures r.Panic? <==> exists h | h in s.registry :: s.clients[h].send.closed
    ensures r.Ok? ==> r.value.history == s.history && r.value.clients.Keys == s.clients.Keys
    ensures r.Ok? ==> r.value.registry == set h | h in s.registry && s.clients[h].send.HasRoom()
    ensures r.Ok? ==> forall h | h in s.registry && s.clients[h].send.HasRoom() ::
              r.value.clients[h].send.buf == s.clients[h].send.buf + [f] && !r.value.clients[h].send.closed
    ensures r.Ok? ==> forall h | h in s.registry && !s.clients[h].send.HasRoom() ::
              r.value.clients[h].send.closed && r.value.clients[h].send.buf == s.clients[h].send.buf
    ensures r.Ok? ==> forall h | h in s.clients && h !in s.registry :: r.value.clients[h] == s.clients[h]
    ensures Sound(s) ==> r.Ok? && Sound(r.value) && ClosesOnlyOnLeave(s, r.value)
    ensures Valid(s) ==> Valid(r.value)
  {
    var reg :- FanOut.All(s.registry, s.clients, c => Offer(c, f));
    Ok(LegacyState(reg.members, reg.clients, s.history))
  }

  /** The legacy register case: the join notice has a generated id. */
  function Register(s: LegacyState, h: Handle, noticeId: string, now: Time): (r: Go<LegacyState>)
    requires Linked(s) && h in s.clients
    ensures r.Ok? ==> r.value.history == s.history && r.value.clients.Keys == s.clients.Keys
    ensures r.Ok? ==> Broadcast(s.(registry := s.registry + {h}), Json(JoinNotice(s.clients[h].username, noticeId, now))).Ok?
    ensures r.Ok? ==>
              var b := Broadcast(s.(registry := s.registry + {h}), Json(JoinNotice(s.clients[h].username, noticeId, now))).value;
              && r.value.registry == b.registry
              && forall g | g in s.clients && g != h :: r.value.clients[g] == b.clients[g]
  {
    var joined := s.(registry := s.registry + {h});
    var s2 :- Broadcast(joined, Json(JoinNotice(s.clients[h].username, noticeId, now)));
    var send :- History.Replay(s2.clients[h].send, s2.history);
    Ok(s2.(clients := s2.clients[h := s2.clients[h].(send := send)]))
  }

  /** Legacy replay behaves as the current one: the join notice, then the
      longest prefix of the history that fits, with the client left registered
      and open; and no channel is closed except by eviction. */
  lemma RegisterDelivers(s: LegacyState, h: Handle, noticeId: string, now: Time)
    requires Sound(s) && h in s.clients
    requires !s.clients[h].send.closed && s.clients[h].send.HasRoom()
    ensures Register(s, h, noticeId, now).Ok?
    ensures
      var r := Register(s, h, noticeId, now).value;
      var withJoin := s.clients[h].send.buf + [Json(JoinNotice(s.clients[h].username, noticeId, now))];
      var k := History.Min(|s.history|, SendCapacity - |withJoin|);
      && Sound(r)
      && h in r.registry && !r.clients[h].send.closed
      && r.clients[h].send.buf == withJoin + Frames(s.history[..k])
      && forall g | g in s.clients && g != h ::
           && (s.clients[g].send.closed ==> r.clients[g].send.closed)
           && (!s.clients[g].send.closed && r.clients[g].send.closed <==> g in s.registry && g !in r.registry)
  {
    var joined := s.(registry := s.registry + {h});
    var f := Json(JoinNotice(s.clients[h].username, noticeId, now));
    assert Sound(joined);
    var s2 := Broadcast(joined, f).value;
    assert h in s2.registry;
    History.ReplayDelivers(s2.clients[h].send, s2.history);
  }

  /** Registering a new open client with room, into a room where every other
      client is registered exactly while its queue is open, yields a valid
      room and closes only evicted queues. */
  lemma RegisterKeepsValid(s: LegacyState, h: Handle, noticeId: string, now: Time)
    requires Sound(s) && h in s.clients && h !in s.registry
    requires !s.clients[h].send.closed && s.clients[h].send.HasRoom()
    requires forall g | g in s.clients && g != h :: g in s.registry || s.clients[g].send.closed
    ensures Register(s, h, noticeId, now).Ok?
    ensures Valid(Register(s, h, noticeId, now).value)
    ensures ClosesOnlyOnLeave(s, Register(s, h, noticeId, now).value)
  {
    RegisterDelivers(s, h, noticeId, now);
    var r := Register(s, h, noticeId, now).value;
    forall g | g in r.clients
      ensures g in r.registry || r.clients[g].send.closed
    {
      if g != h && g !in r.registry && g !in s.registry {
        assert g in s.clients;
      }
    }
  }

  /** The legacy unregister case: membership is checked first, then the client
      is deleted and its `Send` closed directly, then the leave notice (with a
      generated id) is broadcast. */
  function Unregister(s: LegacyState, h: Handle, noticeId: string, now: Time): (r: Go<LegacyState>)
    requires Linked(s)
    ensures h !in s.registry ==> r == Ok(s)
    ensures r.Ok? ==> h !in r.value.registry && r.value.history == s.history
    ensures r.Ok? ==> r.value.clients.Keys == s.clients.Keys
    ensures h in s.registry && s.clients[h].send.closed ==> r.Panic?
    ensures Sound(s) ==> r.Ok? && Sound(r.value) && ClosesOnlyOnLeave(s, r.value)
    ensures Valid(s) ==> Valid(r.value)
    ensures Sound(s) && h in s.registry ==> CloseChan(r.value.clients[h].send).Panic?
  {
    if h !in s.registry then Ok(s)
    else
      var c := s.clients[h];
      var send :- CloseChan(c.send);
      Broadcast(LegacyState(s.registry - {h}, s.clients[h := c.(send := send)], s.history),
                Json(LeaveNotice(c.username, noticeId, now)))
  }

  /** In a sound room, unregistering a registered client closes its queue
      without adding to it, sends the leave notice to every remaining client
      with room, evicts and closes every full one, and leaves clients outside
      the registry untouched. */
  lemma UnregisterNotifies(s: LegacyState, h: Handle, noticeId: string, now: Time)
    requires Sound(s) && h in s.registry
    ensures Unregister(s, h, noticeId, now).Ok?
    ensures
      var r := Unregister(s, h, noticeId, now).value;
      var leave := Json(LeaveNotice(s.clients[h].username, noticeId, now));
      && r.clients[h].send.closed && r.clients[h].send.buf == s.clients[h].send.buf
      && (forall g :: g in r.registry <==> g in s.registry && g != h && s.clients[g].send.HasRoom())
      && (forall g | g in s.registry && g != h && s.clients[g].send.HasRoom() ::
            r.clients[g].send.buf == s.clients[g].send.buf + [leave] && !r.clients[g].send.closed)
      && (forall g | g in s.registry && g != h && !s.clients[g].send.HasRoom() ::
            r.clients[g].send.closed && r.clients[g].send.buf == s.clients[g].send.buf)
      && (forall g | g in s.clients && g !in s.registry :: r.clients[g] == s.clients[g])
  {
    var c := s.clients[h];
    var t := LegacyState(s.registry - {h}, s.clients[h := c.(send := CloseChan(c.send).value)], s.history);
    assert Unregister(s, h, noticeId, now) == Broadcast(t, Json(LeaveNotice(c.username, noticeId, now)));
  }

  /** The legacy read pump's step for one frame: decode or fall back (the same
      rule as the current adapter), then the inline history trim. */
  function ReadFrame(s: LegacyState, h: Handle, raw: string, decode: string -> Option<Message>,
                     freshId: string, now: Time): (r: (Message, LegacyState))
    requires h in s.clients
    ensures decode(raw).None? ==>
              r.0 == NewMessage(freshId, s.clients[h].username, raw, KindMessage, now)
    ensures decode(raw).Some? ==> r.0 == decode(raw).value
    ensures r.1 == s.(history := History.Add(s.history, r.0))
    ensures |s.history| <= History.Capacity ==> |r.1.history| <= History.Capacity
  {
    var msg := Hub.Inbound(raw, decode, s.clients[h].username, freshId, now);
    (msg, s.(history := History.Add(s.history, msg)))
  }

  /** The write pump takes the oldest frame off a client's queue. */
  function Drain(s: LegacyState, h: Handle): (r: LegacyState)
    requires h in s.clients
    ensures r.registry == s.registry && r.history == s.history && r.clients.Keys == s.clients.Keys
    ensures Valid(s) ==> Valid(r)
  {
    var c := s.clients[h];
    match Receive(c.send)
    case None => s
    case Some((_, ch)) => s.(clients := s.clients[h := c.(send := ch)])
  }

  /** The legacy room, the pointer allocator, and the frame each read pump has
      recorded but not yet handed to the room's `broadcast` channel. */
  datatype LegacyServer = LegacyServer(room: LegacyState, next: Handle, pending: map<Handle, Frame>)

  predicate ServerValid(sv: LegacyServer) {
    && Valid(sv.room)
    && forall h | h in sv.room.clients :: h < sv.next
  }

  /** What can happen to the legacy server. Each generated id is its own
      field, since every `generateID()` call reads the clock afresh. As in the
      current server, a read pump's record and its fan-out are separate
      events. */
  datatype Action =
    | Connect(query: string, clientId: string, noticeId: string, now: Time)
    | Frame(h: Handle, raw: string, freshId: string, now: Time)
    | Deliver(h: Handle)
    | Leave(h: Handle, noticeId: string, now: Time)
    | Take(h: Handle)

  function Step(sv: LegacyServer, a: Action, decode: string -> Option<Message>): Go<LegacyServer>
    requires Linked(sv.room)
  {
    match a
    case Connect(query, clientId, noticeId, now) =>
      var h := sv.next;
      var withClient := sv.room.(clients := sv.room.clients[h := NewLegacyClient(clientId, query)]);
      var room :- Register(withClient, h, noticeId, now);
      Ok(sv.(room := room, next := sv.next + 1))
    case Frame(h, raw, freshId, now) =>
      if h !in sv.room.clients || h in sv.pending then Ok(sv)
      else
        var (msg, recorded) := ReadFrame(sv.room, h, raw, decode, freshId, now);
        Ok(sv.(room := recorded, pending := sv.pending[h := Json(msg)]))
    case Deliver(h) =>
      if h !in sv.pending then Ok(sv)
      else
        var room :- Broadcast(sv.room, sv.pending[h]);
        Ok(sv.(room := room, pending := sv.pending - {h}))
    case Leave(h, noticeId, now) =>
      // The deferred `unregister <- client`, once the pump is no longer blocked
      // on its broadcast send; the deferred `Conn.Close()` does not touch `Send`.
      if h in sv.pending then Ok(sv)
      else
        var room :- Unregister(sv.room, h, noticeId, now);
        Ok(sv.(room := room))
    case Take(h) =>
      if h !in sv.room.clients then Ok(sv) else Ok(sv.(room := Drain(sv.room, h)))
  }

  /** Every step of a valid legacy server succeeds, keeps it valid, and closes
      a `Send` channel only when that client leaves the registry. */
  lemma StepKeepsValid(sv: LegacyServer, a: Action, decode: string -> Option<Message>)
    requires ServerValid(sv)
    ensures Step(sv, a, decode).Ok?
    ensures ServerValid(Step(sv, a, decode).value)
    ensures ClosesOnlyOnLeave(sv.room, Step(sv, a, decode).value.room)
  {
    match a
    case Connect(query, clientId, noticeId, now) =>
      var h := sv.next;
      var withClient := sv.room.(clients := sv.room.clients[h := NewLegacyClient(clientId, query)]);
      assert h !in sv.room.clients;
      assert Sound(withClient);
      RegisterKeepsValid(withClient, h, noticeId, now);
    case Frame(h, raw, freshId, now) =>
    case Deliver(h) =>
    case Leave(h, noticeId, now) =>
    case Take(h) =>
  }

  function Run(sv: LegacyServer, actions: seq<Action>, decode: string -> Option<Message>): Go<LegacyServer>
    requires ServerValid(sv)
    decreases |actions|
  {
    if actions == [] then Ok(sv)
    else
      StepKeepsValid(sv, actions[0], decode);
      var next :- Step(sv, actions[0], decode);
      Run(next, actions[1..], decode)
  }

  /** No run of the legacy server ever panics: in particular no `Send` channel
      is ever closed twice, although nothing but registry membership guards
      the unguarded `close` calls. */
  lemma {:induction false} RunNeverClosesTwice(sv: LegacyServer, actions: seq<Action>,
                                                decode: string -> Option<Message>)
    requires ServerValid(sv)
    ensures Run(sv, actions, decode).Ok?
    ensures ServerValid(Run(sv, actions, decode).value)
    decreases |actions|
  {
    if actions != [] {
      StepKeepsValid(sv, actions[0], decode);
      RunNeverClosesTwice(Step(sv, actions[0], decode).value, actions[1..], decode);
    }
  }
}
