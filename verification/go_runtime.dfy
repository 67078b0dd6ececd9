/** The two pieces of Go's runtime the chat room leans on: runtime panics, and
    buffered channels used with a non-blocking send (`select` with a `default`
    arm) and with `close`. Goroutines and blocking are not modelled: every
    operation here is one atomic step.
 */
module GoRuntime {

  /** The outcome of a step of Go code: a value, or a runtime panic that takes
      the whole process down. The two panics that the chat code can raise are
      "send on closed channel" and "close of closed channel". */
  datatype Go<+T> = Ok(value: T) | Panic {

    predicate IsFailure() {
      Panic?
    }

    function PropagateFailure<U>(): Go<U>
      requires Panic?
    {
      Panic
    }

    function Extract(): T
      requires Ok?
    {
      value
    }
  }

  datatype Option<+T> = None | Some(value: T)

  /** A buffered channel: the pending elements in FIFO order, the capacity
      given to `make`, and whether `close` has been called on it. */
  datatype Chan<T> = Chan(buf: seq<T>, cap: nat, closed: bool) {

    /** A buffered channel never holds more than its capacity. */
    predicate WellFormed() {
      |buf| <= cap
    }

    predicate HasRoom() {
      |buf| < cap
    }
  }

  /** `make(chan T, cap)`. */
  function MakeChan<T>(cap: nat): (ch: Chan<T>)
    ensures ch.WellFormed() && !ch.closed
    ensures ch.buf == [] && ch.cap == cap
  {
    Chan([], cap, false)
  }

  /** `select { case ch <- x: default: }`: `Some` of the channel with `x`
      queued last when there is room, `None` when the buffer is full, and a
      panic when the channel is closed (Go panics on a send to a closed
      channel even inside a `select`). */
  function TrySend<T>(ch: Chan<T>, x: T): (r: Go<Option<Chan<T>>>)
    ensures r.Panic? <==> ch.closed
    ensures r.Ok? && r.value.Some? <==> !ch.closed && ch.HasRoom()
    ensures r.Ok? && r.value.Some? ==>
              r.value.value.buf == ch.buf + [x]
              && r.value.value.cap == ch.cap && !r.value.value.closed
    ensures ch.WellFormed() && r.Ok? && r.value.Some? ==> r.value.value.WellFormed()
  {
    if ch.closed then Panic
    else if |ch.buf| < ch.cap then Ok(Some(ch.(buf := ch.buf + [x])))
    else Ok(None)
  }

  /** `close(ch)`: panics when the channel is already closed. Elements still
      buffered stay receivable. */
  function CloseChan<T>(ch: Chan<T>): (r: Go<Chan<T>>)
    ensures r.Panic? <==> ch.closed
    ensures r.Ok? ==> r.value.closed && r.value.buf == ch.buf && r.value.cap == ch.cap
  {
    if ch.closed then Panic else Ok(ch.(closed := true))
  }

  /** One receive by the consumer, `<-ch`, when an element is buffered: the
      oldest element leaves the buffer. Receiving drains a closed channel too. */
  function Receive<T>(ch: Chan<T>): (r: Option<(T, Chan<T>)>)
    ensures r.None? <==> ch.buf == []
    ensures r.Some? ==> [r.value.0] + r.value.1.buf == ch.buf
    ensures r.Some? ==> r.value.1.cap == ch.cap && r.value.1.closed == ch.closed
  {
    if ch.buf == [] then None else Some((ch.buf[0], ch.(buf := ch.buf[1..])))
  }
}
