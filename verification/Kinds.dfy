/** What kind of connection a listener makes, and that nothing changes it: TLS or not, whether the peer is checked,
    and the sizes of reads and writes. */
module Kinds {
  import opened Wire
  import opened TcpStreams
  import opened Handlers
  import opened Pollers

  predicate SameKind(h: Handler, t: Handler) {
    && t.stream.bio.ssl == h.stream.bio.ssl && t.stream.shouldVerify == h.stream.shouldVerify
    && t.readSize == h.readSize && t.writeSize == h.writeSize
  }

  /** A connection as the server side makes it. */
  predicate Served(h: Handler, tls: bool) {
    h.stream.bio.ssl == tls && !h.stream.shouldVerify && h.readSize == 8096 && h.writeSize == 8096
  }

  /** Every listener is of this kind, and every connection is one that it makes. */
  ghost predicate AllServed(p: Poller, tls: bool) {
    forall x :: x in p.handlers ==>
      if p.handlers[x].Conn? then Served(p.handlers[x].handler, tls) else p.handlers[x].tls == tls
  }

  lemma {:induction false} ReadLoopKind(h: Handler, script: seq<Answers>)
    ensures SameKind(h, ReadLoop(h, script).0)
    decreases |script|
  {
    if h.stream.isOpen {
      var (s, r) := Read(h.stream, h.readSize, Next(script));
      if r.Ok? {
        ReadLoopKind(h.(stream := s, readQueue := h.readQueue + [r.value]), Later(script));
      }
    }
  }

  lemma {:induction false} WriteLoopKind(h: Handler, script: seq<Answers>)
    ensures SameKind(h, WriteLoop(h, script).0)
    decreases |script|
  {
    if h.stream.isOpen && h.writeQueue != [] {
      var (t, r) := OfferFront(h, Next(script));
      if r.Ok? {
        WriteLoopKind(t, Later(script));
      }
    }
  }

  lemma {:induction false} EchoEachKinds(p: Poller, fd: int, bufs: seq<Bytes>, tls: bool)
    requires AllServed(p, tls)
    ensures AllServed(EchoEach(p, fd, bufs), tls)
    decreases |bufs|
  {
    if bufs != [] {
      EchoEachKinds(if bufs[0] == KILLME then PollerClose(p, fd) else PollerWrite(p, fd, bufs[0]), fd, bufs[1..], tls);
    }
  }

  lemma {:induction false} BroadcastKinds(p: Poller, clients: seq<int>, fd: int, data: Bytes, tls: bool)
    requires AllServed(p, tls)
    ensures AllServed(Broadcast(p, clients, fd, data), tls)
    decreases |clients|
  {
    if clients != [] {
      BroadcastKinds(if clients[0] != fd then PollerWrite(p, clients[0], data) else p, clients[1..], fd, data, tls);
    }
  }

  lemma {:induction false} ChatEachKinds(p: Poller, clients: seq<int>, fd: int, bufs: seq<Bytes>, tls: bool)
    requires AllServed(p, tls)
    ensures AllServed(ChatEach(p, clients, fd, bufs), tls)
    decreases |bufs|
  {
    if bufs != [] {
      BroadcastKinds(p, clients, fd, bufs[0], tls);
      ChatEachKinds(Broadcast(p, clients, fd, bufs[0]), clients, fd, bufs[1..], tls);
    }
  }

  lemma SetKinds(p: Poller, fd: int, h: Handler, tls: bool)
    requires AllServed(p, tls) && fd in p.handlers && p.handlers[fd].Conn? && SameKind(p.handlers[fd].handler, h)
    ensures AllServed(SetConn(p, fd, h), tls)
  {
  }

  lemma ReadKinds(p: Poller, fd: int, script: seq<Answers>, tls: bool)
    requires AllServed(p, tls) && fd in p.handlers && p.handlers[fd].Conn?
    ensures AllServed(HandleRead(p, fd, script).0, tls)
  {
    var h := p.handlers[fd].handler;
    ReadLoopKind(h, script);
    var (t, r) := HandlerRead(h, script);
    SetKinds(p, fd, t, tls);
    SetKinds(p, fd, t.(readQueue := []), tls);
    if !r.Threw? && t.readQueue != [] {
      var q := SetConn(p, fd, t.(readQueue := []));
      var q1 := q.(log := q.log + [Delivery(fd, t.readQueue)]);
      if p.app.Echo? {
        EchoEachKinds(q1, fd, t.readQueue, tls);
      } else {
        ChatEachKinds(q1, Sorted(p.app.clients), fd, t.readQueue, tls);
      }
    }
  }

  lemma WriteKinds(p: Poller, fd: int, script: WriteScript, tls: bool)
    requires AllServed(p, tls) && fd in p.handlers && p.handlers[fd].Conn?
    ensures AllServed(HandleWrite(p, fd, script), tls)
  {
    var h := p.handlers[fd].handler;
    WriteLoopKind(h, script.calls);
    SetKinds(p, fd, HandlerWrite(h, script).0, tls);
  }

  /** An event keeps the kinds; what a listener accepts is of its own kind. */
  lemma EventKinds(p: Poller, pf: PollFd, script: FdScript, tls: bool)
    requires AllServed(p, tls) && pf.fd in p.handlers
    ensures AllServed(HandleEvent(p, pf, script), tls)
  {
    if p.handlers[pf.fd].Conn? {
      var q := p;
      if pf.revents.readable {
        ReadKinds(p, pf.fd, script.readCalls, tls);
        q := HandleRead(p, pf.fd, script.readCalls).0;
      }
      WriteKinds(q, pf.fd, script.writeCalls, tls);
    }
  }

  lemma {:induction false} ScanKinds(p: Poller, fds: seq<PollFd>, active: int, pass: Pass, tls: bool)
    requires Known(p, fds) && AllServed(p, tls)
    ensures AllServed(Scan(p, fds, active, pass), tls)
    decreases |fds|
  {
    if fds != [] {
      if fds[0].revents == NOTHING {
        ScanKinds(p, fds[1..], active, pass, tls);
      } else {
        var script := ScriptOf(pass, fds[0].fd);
        EventKinds(p, fds[0], script, tls);
        ScanKinds(HandleEvent(p, fds[0], script), fds[1..], active - 1, pass, tls);
      }
    }
  }

  lemma {:induction false} RemoveKinds(p: Poller, fds: seq<int>, tls: bool)
    requires Ascending(fds) && KeysOf(p, fds) && AllServed(p, tls)
    ensures AllServed(RemoveAll(p, fds), tls)
    decreases |fds|
  {
    if fds != [] {
      RemoveStep(p, fds);
      RemoveKinds(Remove(p, fds[0]), fds[1..], tls);
    }
  }

  lemma PassKinds(p: Poller, pass: Pass, tls: bool)
    requires AllServed(p, tls)
    ensures AllServed(RunPass(p, pass), tls)
  {
    if !pass.pollFails {
      var fds := PassFds(p, pass);
      ScanKinds(p, fds, CountActive(fds), pass, tls);
      var q := Scan(p, fds, CountActive(fds), pass);
      ClosedFdsExact(q, KeysInOrder(q));
      RemoveKinds(q, ClosedFds(q, KeysInOrder(q)), tls);
    }
  }

  /** Over every run all connections are of the listener's kind. */
  lemma {:induction false} RunKinds(p: Poller, passes: seq<Pass>, tls: bool)
    requires AllServed(p, tls)
    ensures AllServed(Run(p, passes), tls)
    decreases |passes|
  {
    if passes != [] && p.running {
      PassKinds(p, passes[0], tls);
      RunKinds(RunPass(p, passes[0]), passes[1..], tls);
    }
  }
}
