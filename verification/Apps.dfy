/** The on_read callbacks of project/echo-server.cpp and project/chat-server.cpp, seen from one connection. */
module Apps {
  import opened Basics
  import opened Wire
  import opened TcpStreams
  import opened Handlers
  import opened Pollers

  // ------------------------------------------------------------------ what the callback log says

  /** on_open has been called for this descriptor, and on_close not since. */
  predicate Live(log: seq<Event>, fd: int) {
    if log == [] then false
    else
      match log[|log| - 1]
      case Opened(f) => if f == fd then true else Live(log[..|log| - 1], fd)
      case Closed(f) => if f == fd then false else Live(log[..|log| - 1], fd)
      case _ => Live(log[..|log| - 1], fd)
  }

  /** The chunks given to on_read for this descriptor since its last on_open. */
  function Delivered(log: seq<Event>, fd: int): seq<Bytes> {
    if log == [] then []
    else
      var before := log[..|log| - 1];
      match log[|log| - 1]
      case Opened(f) => if f == fd then [] else Delivered(before, fd)
      case Closed(f) => if f == fd then [] else Delivered(before, fd)
      case Delivery(f, bufs) => Delivered(before, fd) + if f == fd then bufs else []
      case Failed(_) => Delivered(before, fd)
  }

  /** The chunks given to on_read for all other descriptors since the last on_open of this one. */
  function Heard(log: seq<Event>, fd: int): seq<Bytes> {
    if log == [] then []
    else
      var before := log[..|log| - 1];
      match log[|log| - 1]
      case Opened(f) => if f == fd then [] else Heard(before, fd)
      case Closed(f) => if f == fd then [] else Heard(before, fd)
      case Delivery(f, bufs) => Heard(before, fd) + if f == fd then [] else bufs
      case Failed(_) => Heard(before, fd)
  }

  /** on_open and on_close alternate for every descriptor, and nothing is reported outside such a pair. */
  predicate Bracketed(log: seq<Event>) {
    log == [] ||
    var before := log[..|log| - 1];
    && Bracketed(before)
    && match log[|log| - 1]
       case Opened(fd) => !Live(before, fd)
       case Closed(fd) => Live(before, fd)
       case Delivery(fd, _) => Live(before, fd)
       case Failed(fd) => Live(before, fd)
  }

  /** What one more entry changes in the reading of the log. */
  lemma LogDelivery(log: seq<Event>, fd: int, bufs: seq<Bytes>, x: int)
    ensures var after := log + [Delivery(fd, bufs)];
      && Live(after, x) == Live(log, x)
      && Delivered(after, x) == (if x == fd then Delivered(log, x) + bufs else Delivered(log, x))
      && Heard(after, x) == (if x == fd then Heard(log, x) else Heard(log, x) + bufs)
      && (Bracketed(after) <==> Bracketed(log) && Live(log, fd))
  {
  }

  lemma LogFailed(log: seq<Event>, fd: int, x: int)
    ensures var after := log + [Failed(fd)];
      && Live(after, x) == Live(log, x)
      && Delivered(after, x) == Delivered(log, x)
      && Heard(after, x) == Heard(log, x)
      && (Bracketed(after) <==> Bracketed(log) && Live(log, fd))
  {
  }

  lemma LogOpened(log: seq<Event>, fd: int, x: int)
    ensures var after := log + [Opened(fd)];
      && Live(after, x) == (x == fd || Live(log, x))
      && Delivered(after, x) == (if x == fd then [] else Delivered(log, x))
      && Heard(after, x) == (if x == fd then [] else Heard(log, x))
      && (Bracketed(after) <==> Bracketed(log) && !Live(log, fd))
  {
  }

  lemma LogClosed(log: seq<Event>, fd: int, x: int)
    ensures var after := log + [Closed(fd)];
      && Live(after, x) == (x != fd && Live(log, x))
      && Delivered(after, x) == (if x == fd then [] else Delivered(log, x))
      && Heard(after, x) == (if x == fd then [] else Heard(log, x))
      && (Bracketed(after) <==> Bracketed(log) && Live(log, fd))
  {
  }

  lemma {:induction false} NoneDelivered(log: seq<Event>, fd: int)
    requires Bracketed(log)
    ensures !Live(log, fd) ==> Delivered(log, fd) == []
  {
    if log != [] {
      NoneDelivered(log[..|log| - 1], fd);
    }
  }

  // ------------------------------------------------------------------ the echo server, one connection

  /** The chunks that the echo server writes back. */
  function Kept(chunks: seq<Bytes>): seq<Bytes> {
    if chunks == [] then []
    else (if chunks[0] == KILLME then [] else [chunks[0]]) + Kept(chunks[1..])
  }

  /** The chunks before the first "KILLME". */
  function BeforeKill(chunks: seq<Bytes>): seq<Bytes> {
    if chunks == [] || chunks[0] == KILLME then [] else [chunks[0]] + BeforeKill(chunks[1..])
  }

  function EchoHandler(h: Handler, bufs: seq<Bytes>): Handler
    decreases |bufs|
  {
    if bufs == [] then h
    else EchoHandler(if bufs[0] == KILLME then CloseHandler(h) else Enqueue(h, bufs[0]), bufs[1..])
  }

  /** After the chunks delivered so far: everything but "KILLME" is accepted or queued, in order; what is
      accepted comes from before the first "KILLME"; and that chunk closed the connection. */
  predicate EchoOk(h: Handler, chunks: seq<Bytes>) {
    && Output(h) == Flatten(Kept(chunks))
    && h.stream.bio.sent <= Flatten(BeforeKill(chunks))
    && (KILLME in chunks ==> !h.stream.isOpen)
  }

  lemma {:induction false} KeptConcat(a: seq<Bytes>, b: seq<Bytes>)
    ensures Kept(a + b) == Kept(a) + Kept(b)
  {
    if a == [] {
      assert a + b == b;
    } else {
      assert (a + b)[1..] == a[1..] + b;
      KeptConcat(a[1..], b);
    }
  }

  lemma {:induction false} BeforeKillConcat(a: seq<Bytes>, b: seq<Bytes>)
    ensures BeforeKill(a + b) == if KILLME in a then BeforeKill(a) else a + BeforeKill(b)
  {
    if a == [] {
      assert a + b == b;
    } else {
      assert (a + b)[1..] == a[1..] + b;
      if a[0] != KILLME {
        BeforeKillConcat(a[1..], b);
        assert a == [a[0]] + a[1..];
        Associate([a[0]], a[1..], BeforeKill(b));
      }
    }
  }

  lemma {:induction false} KeptAll(chunks: seq<Bytes>)
    requires KILLME !in chunks
    ensures Kept(chunks) == chunks && BeforeKill(chunks) == chunks
  {
    if chunks != [] {
      assert chunks == [chunks[0]] + chunks[1..];
      KeptAll(chunks[1..]);
    }
  }

  lemma {:induction false} EchoHandlerFrame(h: Handler, bufs: seq<Bytes>)
    ensures var t := EchoHandler(h, bufs);
      t == h.(stream := if KILLME in bufs then Close(h.stream) else h.stream, writeQueue := t.writeQueue)
    decreases |bufs|
  {
    if bufs != [] {
      assert bufs == [bufs[0]] + bufs[1..];
      EchoHandlerFrame(if bufs[0] == KILLME then CloseHandler(h) else Enqueue(h, bufs[0]), bufs[1..]);
    }
  }

  lemma {:induction false} EchoHandlerKeepsOk(h: Handler, bufs: seq<Bytes>)
    requires HandlerOk(h)
    ensures HandlerOk(EchoHandler(h, bufs))
    decreases |bufs|
  {
    if bufs != [] {
      if bufs[0] == KILLME {
        EchoHandlerKeepsOk(CloseHandler(h), bufs[1..]);
      } else {
        EnqueueOk(h, bufs[0]);
        EchoHandlerKeepsOk(Enqueue(h, bufs[0]), bufs[1..]);
      }
    }
  }

  lemma {:induction false} EchoHandlerOutput(h: Handler, bufs: seq<Bytes>)
    ensures Output(EchoHandler(h, bufs)) == Output(h) + Flatten(Kept(bufs))
    decreases |bufs|
  {
    if bufs != [] {
      var rest := Kept(bufs[1..]);
      if bufs[0] == KILLME {
        assert Kept(bufs) == rest;
        EchoHandlerOutput(CloseHandler(h), bufs[1..]);
      } else {
        EnqueueOutput(h, bufs[0]);
        EchoHandlerOutput(Enqueue(h, bufs[0]), bufs[1..]);
        FlattenConcat([bufs[0]], rest);
        assert Flatten([bufs[0]]) == bufs[0];
        assert Output(h) + (bufs[0] + Flatten(rest)) == (Output(h) + bufs[0]) + Flatten(rest);
      }
    }
  }

  /** One call of on_read keeps the echo invariant. */
  lemma EchoDeliver(h: Handler, chunks: seq<Bytes>, bufs: seq<Bytes>)
    requires HandlerOk(h) && EchoOk(h, chunks)
    ensures EchoOk(EchoHandler(h, bufs), chunks + bufs)
  {
    EchoHandlerFrame(h, bufs);
    EchoHandlerOutput(h, bufs);
    KeptConcat(chunks, bufs);
    FlattenConcat(Kept(chunks), Kept(bufs));
    BeforeKillConcat(chunks, bufs);
    if KILLME !in chunks {
      KeptAll(chunks);
      FlattenConcat(chunks, BeforeKill(bufs));
    }
  }

  /** A write keeps the echo invariant: a connection that was killed is closed, and sends nothing. */
  lemma EchoWrite(h: Handler, chunks: seq<Bytes>, w: WriteScript)
    requires HandlerOk(h) && EchoOk(h, chunks)
    ensures EchoOk(HandlerWrite(h, w).0, chunks)
  {
    WriteFrame(h, w);
    WriteKeepsHandler(h, w);
    if h.stream.isOpen {
      KeptAll(chunks);
    }
  }

  // ------------------------------------------------------------------ the chat server, one connection

  function EnqueueAll(h: Handler, bufs: seq<Bytes>): Handler
    decreases |bufs|
  {
    if bufs == [] then h else EnqueueAll(Enqueue(h, bufs[0]), bufs[1..])
  }

  lemma {:induction false} EnqueueAllFrame(h: Handler, bufs: seq<Bytes>)
    ensures EnqueueAll(h, bufs) == h.(writeQueue := EnqueueAll(h, bufs).writeQueue)
    decreases |bufs|
  {
    if bufs != [] {
      EnqueueAllFrame(Enqueue(h, bufs[0]), bufs[1..]);
    }
  }

  lemma {:induction false} EnqueueAllKeeps(h: Handler, bufs: seq<Bytes>)
    requires HandlerOk(h)
    ensures HandlerOk(EnqueueAll(h, bufs))
    decreases |bufs|
  {
    if bufs != [] {
      EnqueueOk(h, bufs[0]);
      EnqueueAllKeeps(Enqueue(h, bufs[0]), bufs[1..]);
    }
  }

  lemma {:induction false} EnqueueAllOutput(h: Handler, bufs: seq<Bytes>)
    ensures Output(EnqueueAll(h, bufs)) == Output(h) + Flatten(bufs)
    decreases |bufs|
  {
    if bufs != [] {
      EnqueueOutput(h, bufs[0]);
      EnqueueAllOutput(Enqueue(h, bufs[0]), bufs[1..]);
    }
  }
}
