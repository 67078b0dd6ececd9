/** The client handle (internal/chat/client.go): identity, the outbound queue
    `Send`, the `closed` flag guarded by the handle's mutex, and the physical
    connection. The connection is represented only by how many times
    `Client.Close` has closed it.
 */
module Clients {
  import opened GoRuntime
  import opened Messages

  /** Capacity of every client's outbound queue, `make(chan []byte, 256)`. */
  const QueueCapacity: nat := 256

  datatype Client = Client(id: string, username: string, send: Chan<Frame>, closed: bool, connCloses: nat)

  /** What every handle satisfies: the queue has the fixed capacity and never
      overflows, the `closed` flag agrees with the state of the `Send` channel
      (only `Close` touches either, and it changes both together), and the
      connection has been closed once exactly when the handle is closed. */
  predicate WellFormed(c: Client) {
    && c.send.WellFormed()
    && c.send.cap == QueueCapacity
    && c.closed == c.send.closed
    && c.connCloses == (if c.closed then 1 else 0)
  }

  /** `NewClient(id, username, conn)`. */
  function NewClient(id: string, username: string): (c: Client)
    ensures WellFormed(c)
    ensures c.id == id && c.username == username
    ensures !c.closed && c.send.buf == [] && c.send.cap == 256 && c.connCloses == 0
  {
    Client(id, username, MakeChan(QueueCapacity), false, 0)
  }

  /** `Client.Close`: under the mutex, the first call marks the handle closed,
      closes `Send` and closes the connection; every later call does nothing. */
  function Close(c: Client): (r: Go<Client>)
    ensures c.closed ==> r == Ok(c)
    ensures r.Panic? <==> !c.closed && c.send.closed
    ensures WellFormed(c) ==> r.Ok? && WellFormed(r.value)
    ensures r.Ok? ==> r.value.closed
    ensures !c.closed && r.Ok? ==> r.value.send.closed
    ensures r.Ok? ==> r.value.id == c.id && r.value.username == c.username
    ensures r.Ok? ==> r.value.send.buf == c.send.buf && r.value.send.cap == c.send.cap
    ensures r.Ok? && !c.closed ==> r.value.connCloses == c.connCloses + 1
  {
    if c.closed then Ok(c)
    else
      var send :- CloseChan(c.send);
      Ok(c.(closed := true, send := send, connCloses := c.connCloses + 1))
  }

  /** `n` successive calls of `Close` on one handle. */
  function CloseTimes(c: Client, n: nat): Go<Client>
    decreases n
  {
    if n == 0 then Ok(c)
    else
      var d :- Close(c);
      CloseTimes(d, n - 1)
  }

  /** Any positive number of `Close` calls on an open handle closes the queue
      and the connection exactly once and leaves identity and queue contents
      alone; the handle stays closed from the first call on. */
  lemma {:induction false} CloseExactlyOnce(c: Client, n: nat)
    requires WellFormed(c) && !c.closed && n >= 1
    ensures CloseTimes(c, n) == Close(c)
    ensures CloseTimes(c, n).Ok?
    ensures CloseTimes(c, n).value.closed && CloseTimes(c, n).value.send.closed
    ensures CloseTimes(c, n).value.connCloses == c.connCloses + 1 == 1
    ensures CloseTimes(c, n).value.id == c.id && CloseTimes(c, n).value.username == c.username
  {
    var d := Close(c).value;
    StaysClosed(d, n - 1);
  }

  /** On a closed handle, any number of further `Close` calls change nothing. */
  lemma {:induction false} StaysClosed(d: Client, n: nat)
    requires d.closed
    ensures CloseTimes(d, n) == Ok(d)
  {
    if n > 0 {
      StaysClosed(d, n - 1);
    }
  }
}
