/** The fan-out loop shared by `Run`'s broadcast case and `broadcastMessage`,
    in both internal/chat/room.go and the legacy main.go. The loop ranges
    over the registry map and, for each client, tries a non-blocking send of
    the frame on its queue; when the queue is full, it drops the client.
    Go visits map keys in an unspecified order, and the loop deletes the key
    it is visiting. The model runs the loop in an arbitrary given order and
    proves that every order yields the same outcome, described without any
    order. The per-client step (`offer`) is a parameter, because the current
    and legacy rooms drop a client differently.
 */
module FanOut {
  import opened GoRuntime

  /** A client pointer. */
  type Handle = nat

  /** What one offer did to a client: it stays registered, or it is dropped. */
  datatype Fate<C> = Kept(client: C) | Dropped(client: C)

  /** The registered pointers and the state of every client object. */
  datatype Registry<C> = Registry(members: set<Handle>, clients: map<Handle, C>)

  predicate Distinct(order: seq<Handle>) {
    forall i, j | 0 <= i < j < |order| :: order[i] != order[j]
  }

  function Elements(order: seq<Handle>): set<Handle> {
    set h | h in order
  }

  /** The loop, visiting `order`; a key deleted before it is reached is not
      visited, as Go's map iteration guarantees. */
  function InOrder<C>(members: set<Handle>, clients: map<Handle, C>, order: seq<Handle>,
                      offer: C -> Go<Fate<C>>): Go<Registry<C>>
    requires members <= clients.Keys
    decreases |order|
  {
    if order == [] then Ok(Registry(members, clients))
    else
      var h := order[0];
      if h !in members then InOrder(members, clients, order[1..], offer)
      else
        var fate :- offer(clients[h]);
        match fate
        case Kept(c) => InOrder(members, clients[h := c], order[1..], offer)
        case Dropped(c) => InOrder(members - {h}, clients[h := c], order[1..], offer)
  }

  /** The outcome of offering to every client in `part` at once: a panic if
      any single offer panics; otherwise each client in `part` takes the state
      its own offer gives it, those whose offer dropped them leave `members`,
      and every other client is untouched. */
  function Over<C>(part: set<Handle>, members: set<Handle>, clients: map<Handle, C>,
                   offer: C -> Go<Fate<C>>): Go<Registry<C>>
    requires part <= members <= clients.Keys
  {
    if exists h | h in part :: offer(clients[h]).Panic? then Panic
    else Ok(Registry(
      members - (set h | h in part && offer(clients[h]).value.Dropped?),
      map h | h in clients :: if h in part then offer(clients[h]).value.client else clients[h]))
  }

  /** One fan-out over the whole registry. */
  function All<C>(members: set<Handle>, clients: map<Handle, C>, offer: C -> Go<Fate<C>>): (r: Go<Registry<C>>)
    requires members <= clients.Keys
    ensures r.Panic? <==> exists h | h in members :: offer(clients[h]).Panic?
    ensures r.Ok? ==> r.value.clients.Keys == clients.Keys
    ensures r.Ok? ==> forall h | h in members ::
              (h in r.value.members <==> offer(clients[h]).value.Kept?)
              && r.value.clients[h] == offer(clients[h]).value.client
    ensures r.Ok? ==> forall h | h in clients && h !in members ::
              h !in r.value.members && r.value.clients[h] == clients[h]
  {
    Over(members, members, clients, offer)
  }

  /** Visiting a duplicate-free list of registered clients in order gives the
      order-free outcome over exactly those clients. */
  lemma {:induction false} InOrderIsOver<C>(members: set<Handle>, clients: map<Handle, C>,
                                            order: seq<Handle>, offer: C -> Go<Fate<C>>)
    requires members <= clients.Keys
    requires Distinct(order) && Elements(order) <= members
    ensures InOrder(members, clients, order, offer) == Over(Elements(order), members, clients, offer)
    decreases |order|
  {
    var part := Elements(order);
    if order == [] {
      assert part == {};
      var o := Over(part, members, clients, offer);
      assert o.value.clients == clients;
      assert o.value.members == members;
    } else {
      var h := order[0];
      var rest := order[1..];
      var p' := Elements(rest);
      assert h in part && h in members;
      assert h !in p' by {
        forall i | 0 <= i < |rest| ensures rest[i] != h {
          assert rest[i] == order[i + 1];
        }
      }
      assert part == p' + {h};
      assert Distinct(rest) by {
        forall i, j | 0 <= i < j < |rest| ensures rest[i] != rest[j] {
          assert rest[i] == order[i + 1] && rest[j] == order[j + 1];
        }
      }
      if offer(clients[h]).Ok? {
        var fate := offer(clients[h]).value;
        var c := fate.client;
        var members' := if fate.Kept? then members else members - {h};
        var clients' := clients[h := c];
        assert InOrder(members, clients, order, offer) == InOrder(members', clients', rest, offer);
        InOrderIsOver(members', clients', rest, offer);
        StepThenOver(h, p', members, clients, offer);
      }
    }
  }

  /** Taking the step for `h` first and then the order-free outcome over the
      remaining part equals the order-free outcome over the whole part. */
  lemma StepThenOver<C>(h: Handle, part: set<Handle>, members: set<Handle>, clients: map<Handle, C>,
                        offer: C -> Go<Fate<C>>)
    requires part + {h} <= members <= clients.Keys && h !in part
    requires offer(clients[h]).Ok?
    ensures
      var fate := offer(clients[h]).value;
      var members' := if fate.Kept? then members else members - {h};
      Over(part, members', clients[h := fate.client], offer) == Over(part + {h}, members, clients, offer)
  {
    var fate := offer(clients[h]).value;
    var members' := if fate.Kept? then members else members - {h};
    var clients' := clients[h := fate.client];
    assert forall g | g in part :: clients'[g] == clients[g];
    var a := Over(part, members', clients', offer);
    var b := Over(part + {h}, members, clients, offer);
    if b.Ok? {
      assert a.Ok?;
      var dropA := set g | g in part && offer(clients'[g]).value.Dropped?;
      var dropB := set g | g in part + {h} && offer(clients[g]).value.Dropped?;
      assert dropB == dropA + (if fate.Dropped? then {h} else {});
      assert a.value.members == b.value.members;
      assert a.value.clients == b.value.clients;
    } else {
      var g :| g in part + {h} && offer(clients[g]).Panic?;
      assert g in part;
      assert offer(clients'[g]).Panic?;
    }
  }

  /** Every visiting order of the registry, Go's random one included, yields
      the same fan-out outcome. */
  lemma AnyOrder<C>(members: set<Handle>, clients: map<Handle, C>, order: seq<Handle>,
                    offer: C -> Go<Fate<C>>)
    requires members <= clients.Keys
    requires Distinct(order) && Elements(order) == members
    ensures InOrder(members, clients, order, offer) == All(members, clients, offer)
  {
    InOrderIsOver(members, clients, order, offer);
  }
}
