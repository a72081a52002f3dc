/** What one call of on_read does to the poller: the effect on each connection, and on the descriptors. */
module Callbacks {
  import opened Wire
  import opened Handlers
  import opened Pollers
  import opened Apps

  /** An open file's descriptor is open in the kernel. */
  predicate Held(p: Poller, fd: int) {
    fd in p.handlers && IsOpen(p.handlers[fd]) ==> fd in p.kernel
  }

  /** The echo callback touches its own connection only, and closes its descriptor on "KILLME". */
  lemma {:induction false} EchoEachEffect(p: Poller, fd: int, bufs: seq<Bytes>)
    requires fd in p.handlers && p.handlers[fd].Conn? && Held(p, fd)
    ensures var h := p.handlers[fd].handler;
      EchoEach(p, fd, bufs) == p.(
        handlers := p.handlers[fd := Conn(EchoHandler(h, bufs))],
        kernel := if h.stream.isOpen && KILLME in bufs then p.kernel - {fd} else p.kernel)
    decreases |bufs|
  {
    if bufs == [] {
      assert p.handlers[fd := p.handlers[fd]] == p.handlers;
    } else {
      assert bufs == [bufs[0]] + bufs[1..];
      EchoEachEffect(if bufs[0] == KILLME then PollerClose(p, fd) else PollerWrite(p, fd, bufs[0]), fd, bufs[1..]);
    }
  }

  /** A handler after the chunks have been written to it, if it is one that listens. */
  function Told(ph: PollHandler, listens: bool, bufs: seq<Bytes>): PollHandler {
    if ph.Conn? && listens then Conn(EnqueueAll(ph.handler, bufs)) else ph
  }

  lemma EnqueueAllSplit(h: Handler, a: Bytes, bufs: seq<Bytes>)
    ensures EnqueueAll(h, [a]) == Enqueue(h, a)
    ensures EnqueueAll(Enqueue(h, a), bufs) == EnqueueAll(h, [a] + bufs)
  {
  }

  /** One broadcast: every client but the sender gets the chunk at the end of its queue. */
  lemma {:induction false} BroadcastEffect(p: Poller, clients: seq<int>, fd: int, data: Bytes, x: int)
    requires Ascending(clients) && x in p.handlers
    ensures var q := Broadcast(p, clients, fd, data);
      && q == p.(handlers := q.handlers)
      && q.handlers[x] == Told(p.handlers[x], x in clients && x != fd, [data])
    decreases |clients|
  {
    if clients != [] {
      AscendingTail(clients);
      var q := if clients[0] != fd then PollerWrite(p, clients[0], data) else p;
      if p.handlers[x].Conn? {
        EnqueueAllSplit(p.handlers[x].handler, data, []);
      }
      BroadcastEffect(q, clients[1..], fd, data, x);
    }
  }

  /** The chat callback gives every client but the sender all the chunks, in order. */
  lemma {:induction false} ChatEachEffect(p: Poller, clients: seq<int>, fd: int, bufs: seq<Bytes>, x: int)
    requires Ascending(clients) && x in p.handlers
    ensures var q := ChatEach(p, clients, fd, bufs);
      && q == p.(handlers := q.handlers)
      && q.handlers[x] == Told(p.handlers[x], x in clients && x != fd, bufs)
    decreases |bufs|
  {
    if bufs != [] {
      assert bufs == [bufs[0]] + bufs[1..];
      BroadcastEffect(p, clients, fd, bufs[0], x);
      var q := Broadcast(p, clients, fd, bufs[0]);
      ChatEachEffect(q, clients, fd, bufs[1..], x);
      if p.handlers[x].Conn? {
        EnqueueAllSplit(p.handlers[x].handler, bufs[0], bufs[1..]);
      }
    }
  }

  /** An echo callback changes no other handler, and opens nothing. */
  lemma {:induction false} EchoEachFrame(p: Poller, fd: int, bufs: seq<Bytes>, x: int)
    requires x in p.handlers && x != fd
    ensures var q := EchoEach(p, fd, bufs);
      x in q.handlers && q.handlers[x] == p.handlers[x] && forall y :: y in q.kernel ==> y in p.kernel
    decreases |bufs|
  {
    if bufs != [] {
      EchoEachFrame(if bufs[0] == KILLME then PollerClose(p, fd) else PollerWrite(p, fd, bufs[0]), fd, bufs[1..], x);
    }
  }

  /** No callback opens or closes another handler, or opens a descriptor. */
  lemma OnReadFrame(p: Poller, fd: int, bufs: seq<Bytes>, x: int)
    requires x in p.handlers && x != fd
    ensures var q := OnRead(p, fd, bufs);
      && x in q.handlers && IsOpen(q.handlers[x]) == IsOpen(p.handlers[x])
      && forall y :: y in q.kernel ==> y in p.kernel
  {
    var q := p.(log := p.log + [Delivery(fd, bufs)]);
    if p.app.Echo? {
      EchoEachFrame(q, fd, bufs, x);
    } else {
      ChatEachEffect(q, Sorted(p.app.clients), fd, bufs, x);
      if p.handlers[x].Conn? {
        EnqueueAllFrame(p.handlers[x].handler, bufs);
      }
    }
  }
}
