/** The room's bounded history buffer: `ChatRoom.AddMessage` and the replay of
    the buffer to a newly registered client, `sendHistoryToClient`
    (internal/chat/room.go). The same trim appears inline in the legacy read
    pump (main.go) and the same replay loop in the legacy room.
 */
module History {
  import opened GoRuntime
  import opened Messages

  /** The history keeps at most this many messages. */
  const Capacity: nat := 100

  /** `AddMessage`: append, then drop the single oldest entry when the buffer
      went past its capacity. */
  function Add(h: seq<Message>, m: Message): (r: seq<Message>)
    ensures |h| <= Capacity ==> |r| <= Capacity
    ensures |r| > 0 && r[|r| - 1] == m
    ensures |h| < Capacity ==> r == h + [m]
    ensures |h| >= Capacity ==> |r| == |h| && r == h[1..] + [m]
  {
    var appended := h + [m];
    if |appended| > Capacity then appended[1..] else appended
  }

  /** The last `n` elements of `xs` (all of them when there are fewer). */
  function LastN<T>(xs: seq<T>, n: nat): (r: seq<T>)
    ensures |r| == if |xs| <= n then |xs| else n
    ensures r == xs[|xs| - |r|..]
  {
    if |xs| <= n then xs else xs[|xs| - n..]
  }

  /** Messages added one after the other, as the read pumps record them. */
  function AddAll(h: seq<Message>, ms: seq<Message>): seq<Message>
    decreases |ms|
  {
    if ms == [] then h else AddAll(Add(h, ms[0]), ms[1..])
  }

  /** From a buffer within capacity, one `Add` keeps exactly the newest
      `Capacity` messages of the old buffer followed by the new one. */
  lemma AddKeepsNewest(h: seq<Message>, m: Message)
    requires |h| <= Capacity
    ensures Add(h, m) == LastN(h + [m], Capacity)
  {
  }

  /** Any run of additions keeps exactly the newest `Capacity` messages of
      everything ever added, in the order they were added. */
  lemma {:induction false} AddAllKeepsNewest(h: seq<Message>, ms: seq<Message>)
    requires |h| <= Capacity
    ensures AddAll(h, ms) == LastN(h + ms, Capacity)
    decreases |ms|
  {
    if ms != [] {
      var m, rest := ms[0], ms[1..];
      var h' := Add(h, m);
      assert AddAll(h, ms) == AddAll(h', rest);
      assert h' == LastN(h + [m], Capacity) by { AddKeepsNewest(h, m); }
      assert AddAll(h', rest) == LastN(h' + rest, Capacity) by {
        AddAllKeepsNewest(h', rest);
      }
      assert LastN(h' + rest, Capacity) == LastN(h + ms, Capacity) by {
        LastNOfLastN(h + [m], rest, Capacity);
        SplitFirst(h, ms);
      }
    }
  }

  lemma SplitFirst<T>(xs: seq<T>, ys: seq<T>)
    requires ys != []
    ensures xs + ys == (xs + [ys[0]]) + ys[1..]
  {
    assert ys == [ys[0]] + ys[1..];
  }

  /** Trimming before appending more does not change the final window. */
  lemma LastNOfLastN<T>(xs: seq<T>, ys: seq<T>, n: nat)
    ensures LastN(LastN(xs, n) + ys, n) == LastN(xs + ys, n)
  {
    var a, b := LastN(LastN(xs, n) + ys, n), LastN(xs + ys, n);
    assert |a| == |b|;
    forall i | 0 <= i < |a|
      ensures a[i] == b[i]
    {
      var l := LastN(xs, n);
      if |a| - i <= |ys| {
        assert a[i] == ys[|ys| - (|a| - i)];
        assert b[i] == ys[|ys| - (|b| - i)];
      } else {
        assert a[i] == l[|l| + |ys| - |a| + i];
        assert b[i] == xs[|xs| + |ys| - |b| + i];
      }
    }
  }

  /** From an empty buffer, 101 messages leave exactly the last 100, in order,
      and the first one is gone unless it was repeated later. */
  lemma OverflowByOne(ms: seq<Message>)
    requires |ms| == Capacity + 1
    ensures AddAll([], ms) == ms[1..]
    ensures ms[0] !in ms[1..] ==> ms[0] !in AddAll([], ms)
  {
    AddAllKeepsNewest([], ms);
    assert [] + ms == ms;
  }

  /** `sendHistoryToClient`: offer every history entry, oldest first, to one
      queue without blocking; stop silently at the first full queue. */
  function Replay(ch: Chan<Frame>, hist: seq<Message>): Go<Chan<Frame>>
    decreases |hist|
  {
    if hist == [] then Ok(ch)
    else
      var sent :- TrySend(ch, Json(hist[0]));
      match sent
      case None => Ok(ch)
      case Some(ch') => Replay(ch', hist[1..])
  }

  function Min(a: int, b: int): int {
    if a <= b then a else b
  }

  /** How many history entries fit into a queue. */
  function Fitting(ch: Chan<Frame>, hist: seq<Message>): (k: nat)
    requires ch.WellFormed()
    ensures k <= |hist|
  {
    Min(|hist|, ch.cap - |ch.buf|)
  }

  /** The frames of a non-empty prefix: the first frame, then the frames of
      the rest of the prefix. */
  lemma FramesFirst(hist: seq<Message>, k: nat)
    requires 1 <= k <= |hist|
    ensures Frames(hist[..k]) == [Json(hist[0])] + Frames(hist[1..][..k - 1])
  {
    assert hist[1..][..k - 1] == hist[1..k];
  }

  /** Replay into an open queue enqueues the longest prefix of the history
      that fits, in history order, and nothing else: the channel stays open
      and keeps its capacity. Into a closed queue it panics unless the history
      is empty. */
  lemma {:induction false} ReplayDelivers(ch: Chan<Frame>, hist: seq<Message>)
    requires ch.WellFormed()
    ensures !ch.closed ==>
              Replay(ch, hist) == Ok(ch.(buf := ch.buf + Frames(hist[..Fitting(ch, hist)])))
    ensures ch.closed ==> (Replay(ch, hist).Panic? <==> hist != [])
    ensures ch.closed && hist == [] ==> Replay(ch, hist) == Ok(ch)
    decreases |hist|
  {
    if hist != [] && !ch.closed {
      if ch.HasRoom() {
        var ch' := ch.(buf := ch.buf + [Json(hist[0])]);
        var k := Fitting(ch, hist);
        assert Replay(ch, hist) == Replay(ch', hist[1..]);
        assert Fitting(ch', hist[1..]) == k - 1;
        ReplayDelivers(ch', hist[1..]);
        assert ch'.buf + Frames(hist[1..][..k - 1]) == ch.buf + Frames(hist[..k]) by {
          FramesFirst(hist, k);
        }
      } else {
        assert Fitting(ch, hist) == 0;
        assert ch.buf + Frames(hist[..0]) == ch.buf;
      }
    } else if hist == [] {
      assert ch.buf + Frames(hist[..0]) == ch.buf;
    }
  }
}
