/** One scan of the echo server, seen from one connection: once "KILLME" has been delivered nothing is sent. */
module EchoScans {
  import opened Wire
  import opened TcpStreams
  import opened Handlers
  import opened Pollers
  import opened Apps
  import opened Callbacks
  import opened Invariants = Connections
  import opened PollRuns
  import opened Ownership

  function Sent(p: Poller, x: int): Bytes
    requires x in p.handlers && p.handlers[x].Conn?
  {
    p.handlers[x].handler.stream.bio.sent
  }

  /** A connection that has said "KILLME" by `q` has sent nothing since `p`. */
  predicate SilentSince(p: Poller, q: Poller, x: int) {
    x in q.handlers && q.handlers[x].Conn? && KILLME in Delivered(q.log, x) ==>
      x in p.handlers && p.handlers[x].Conn? && Sent(q, x) == Sent(p, x)
  }

  // ------------------------------------------------------------------ one event

  /** The event of its own: what it had queued before "KILLME" is not written after it. */
  lemma OwnRead(p: Poller, fd: int, script: seq<Answers>)
    requires fd in p.handlers && p.handlers[fd].Conn? && Held(p, fd) && FdOk(p, fd) && p.app.Echo?
    requires KILLME !in Delivered(p.log, fd)
    ensures var q := HandleRead(p, fd, script).0;
      && fd in q.handlers && q.handlers[fd].Conn? && q.app.Echo?
      && (KILLME in Delivered(q.log, fd) ==> !IsOpen(q.handlers[fd]) && Sent(q, fd) == Sent(p, fd))
  {
    var h := p.handlers[fd].handler;
    var (t, r) := HandlerRead(h, script);
    ReadFrame(h, script);
    if r.Threw? {
      LogFailed(p.log, fd, fd);
    } else if t.readQueue != [] {
      var u := t.(readQueue := []);
      var q := SetConn(p, fd, u);
      LogDelivery(p.log, fd, t.readQueue, fd);
      EchoEachEffect(q.(log := q.log + [Delivery(fd, t.readQueue)]), fd, t.readQueue);
      EchoHandlerFrame(u, t.readQueue);
    }
  }

  lemma OwnEvent(p: Poller, pf: PollFd, script: FdScript)
    requires pf.fd in p.handlers && p.handlers[pf.fd].Conn? && Held(p, pf.fd) && FdOk(p, pf.fd) && p.app.Echo?
    requires KILLME !in Delivered(p.log, pf.fd)
    ensures SilentSince(p, HandleEvent(p, pf, script), pf.fd)
  {
    var q := p;
    if pf.revents.readable {
      OwnRead(p, pf.fd, script.readCalls);
      q := HandleRead(p, pf.fd, script.readCalls).0;
    }
    LogFailed(q.log, pf.fd, pf.fd);
    WriteFrame(q.handlers[pf.fd].handler, script.writeCalls);
  }

  /** No listener among these accepts this descriptor. */
  predicate NotAccepted(p: Poller, fds: seq<PollFd>, pass: Pass, x: int)
    requires Known(p, fds)
  {
    forall i :: 0 <= i < |fds| && p.handlers[fds[i].fd].Listener? && fds[i].revents.readable ==>
      ScriptOf(pass, fds[i].fd).accept != Accepts(x)
  }

  /** The event of another descriptor leaves it alone. */
  lemma OtherEvent(p: Poller, pf: PollFd, script: FdScript, x: int)
    requires pf.fd in p.handlers && pf.fd != x && p.app.Echo?
    requires p.handlers[pf.fd].Listener? && pf.revents.readable ==> script.accept != Accepts(x)
    ensures var q := HandleEvent(p, pf, script);
      && (x in p.handlers <==> x in q.handlers) && (x in p.handlers ==> q.handlers[x] == p.handlers[x])
      && Delivered(q.log, x) == Delivered(p.log, x)
  {
    match p.handlers[pf.fd]
    case Listener(_, _) =>
      if script.accept.Accepts? {
        LogOpened(p.log, script.accept.fd, x);
      }
    case Conn(h) =>
      OtherConn(p, pf, script, x);
  }

  lemma OtherConn(p: Poller, pf: PollFd, script: FdScript, x: int)
    requires pf.fd in p.handlers && p.handlers[pf.fd].Conn? && pf.fd != x && p.app.Echo?
    ensures var q := HandleEvent(p, pf, script);
      && (x in p.handlers <==> x in q.handlers) && (x in p.handlers ==> q.handlers[x] == p.handlers[x])
      && Delivered(q.log, x) == Delivered(p.log, x)
  {
    var q := p;
    if pf.revents.readable {
      OtherRead(p, pf.fd, script.readCalls, x);
      q := HandleRead(p, pf.fd, script.readCalls).0;
    }
    LogFailed(q.log, pf.fd, x);
  }

  lemma OtherRead(p: Poller, fd: int, script: seq<Answers>, x: int)
    requires fd in p.handlers && p.handlers[fd].Conn? && fd != x && p.app.Echo?
    ensures var q := HandleRead(p, fd, script).0;
      && q.app.Echo?
      && (x in p.handlers <==> x in q.handlers) && (x in p.handlers ==> q.handlers[x] == p.handlers[x])
      && Delivered(q.log, x) == Delivered(p.log, x)
  {
    var (q, r, bufs) := ReadFrom(p, fd, script);
    LogFailed(p.log, fd, x);
    if !r.Threw? && bufs != [] {
      var q1 := q.(log := q.log + [Delivery(fd, bufs)]);
      LogDelivery(p.log, fd, bufs, x);
      EchoEachLog(q1, fd, bufs);
      if x in p.handlers {
        EchoEachFrame(q1, fd, bufs, x);
      }
    }
  }

  lemma {:induction false} EchoEachLog(p: Poller, fd: int, bufs: seq<Bytes>)
    ensures EchoEach(p, fd, bufs).log == p.log
    decreases |bufs|
  {
    if bufs != [] {
      EchoEachLog(if bufs[0] == KILLME then PollerClose(p, fd) else PollerWrite(p, fd, bufs[0]), fd, bufs[1..]);
    }
  }

  // ------------------------------------------------------------------ the scan

  lemma StillNotAccepted(p: Poller, fds: seq<PollFd>, pass: Pass, x: int)
    requires Known(p, fds) && fds != [] && NotAccepted(p, fds, pass, x)
    ensures var q := HandleEvent(p, fds[0], ScriptOf(pass, fds[0].fd));
      Known(q, fds[1..]) && NotAccepted(q, fds[1..], pass, x)
  {
    var q := HandleEvent(p, fds[0], ScriptOf(pass, fds[0].fd));
    forall i | 0 <= i < |fds[1..]| && q.handlers[fds[1..][i].fd].Listener? ensures p.handlers[fds[i + 1].fd].Listener? {
      if p.handlers[fds[i + 1].fd].Conn? {
        StaysConn(p, fds[0], ScriptOf(pass, fds[0].fd), fds[i + 1].fd);
      }
    }
  }

  lemma StaysConn(p: Poller, pf: PollFd, script: FdScript, x: int)
    requires pf.fd in p.handlers && x in p.handlers && p.handlers[x].Conn?
    ensures HandleEvent(p, pf, script).handlers[x].Conn?
  {
  }

  /** What is not polled any more in this scan, and not accepted, stays as it is. */
  lemma {:induction false} RestSilent(p: Poller, fds: seq<PollFd>, active: int, pass: Pass, x: int)
    requires Known(p, fds) && NotAccepted(p, fds, pass, x) && p.app.Echo?
    requires forall i :: 0 <= i < |fds| ==> fds[i].fd != x
    ensures var q := Scan(p, fds, active, pass);
      && (x in p.handlers <==> x in q.handlers) && (x in p.handlers ==> q.handlers[x] == p.handlers[x])
      && Delivered(q.log, x) == Delivered(p.log, x)
    decreases |fds|
  {
    if fds != [] {
      if fds[0].revents == NOTHING {
        RestSilent(p, fds[1..], active, pass, x);
      } else {
        var script := ScriptOf(pass, fds[0].fd);
        var q := HandleEvent(p, fds[0], script);
        OtherEvent(p, fds[0], script, x);
        StillNotAccepted(p, fds, pass, x);
        RestSilent(q, fds[1..], active - 1, pass, x);
      }
    }
  }

  /** Each connection is dispatched once, and its event is the only one that concerns it. */
  lemma {:induction false} ConnsSilent(p: Poller, fds: seq<PollFd>, active: int, pass: Pass, lfd: int, others: set<int>, x: int)
    requires Shape(p, lfd, others) && AllOk(p) && OnlyConns(p, fds) && InOrder(fds) && p.app.Echo?
    requires KILLME !in Delivered(p.log, x)
    ensures SilentSince(p, Scan(p, fds, active, pass), x)
    decreases |fds|
  {
    if fds != [] {
      var script := ScriptOf(pass, fds[0].fd);
      var q := HandleEvent(p, fds[0], script);
      if fds[0].revents == NOTHING {
        ConnsSilent(p, fds[1..], active, pass, lfd, others, x);
      } else {
        StepConns(p, fds, pass, lfd, others);
        if fds[0].fd == x {
          OwnEvent(p, fds[0], script);
          RestSilent(q, fds[1..], active - 1, pass, x);
        } else {
          OtherConn(p, fds[0], script, x);
          ConnsSilent(q, fds[1..], active - 1, pass, lfd, others, x);
        }
      }
    }
  }

  /** The listener's event, and what comes behind it. */
  lemma ListenerSilent(p: Poller, fds: seq<PollFd>, active: int, pass: Pass, lfd: int, others: set<int>, x: int)
    requires Shape(p, lfd, others) && AllOk(p) && Known(p, fds) && InOrder(fds) && OpenFrom(p, lfd) && p.app.Echo?
    requires fds != [] && fds[0].fd == lfd && Answered(fds, pass) && !TakesKey(p, pass, lfd)
    requires KILLME !in Delivered(p.log, x)
    ensures SilentSince(p, Scan(p, fds, active, pass), x)
  {
    TailConns(p, fds, lfd, others);
    var script := ScriptOf(pass, lfd);
    var q := HandleEvent(p, fds[0], script);
    if fds[0].revents == NOTHING {
      ConnsSilent(p, fds[1..], active, pass, lfd, others, x);
    } else {
      ListenerEvent(p, fds[0], script, others);
      ConnsStay(p, fds[0], script, fds[1..]);
      if x in q.handlers && x !in p.handlers {
        LogOpened(p.log, x, x);
        RestSilent(q, fds[1..], active - 1, pass, x);
      } else {
        ListenerLeaves(p, fds[0], script, others, x);
        ConnsSilent(q, fds[1..], active - 1, pass, lfd, others, x);
      }
    }
  }

  lemma ListenerLeaves(p: Poller, pf: PollFd, script: FdScript, others: set<int>, x: int)
    requires Shape(p, pf.fd, others) && OpenFrom(p, pf.fd)
    requires pf.revents.readable && script.accept.Accepts? && script.accept.fd < pf.fd ==> script.accept.fd !in p.handlers
    requires x in HandleEvent(p, pf, script).handlers ==> x in p.handlers
    ensures var q := HandleEvent(p, pf, script);
      && (x in p.handlers ==> q.handlers[x] == p.handlers[x])
      && Delivered(q.log, x) == Delivered(p.log, x)
  {
    if script.accept.Accepts? {
      LogOpened(p.log, script.accept.fd, x);
    }
  }

  lemma {:induction false} AheadSilent(p: Poller, fds: seq<PollFd>, active: int, pass: Pass, lfd: int, others: set<int>, x: int)
    requires Shape(p, lfd, others) && AllOk(p) && Ahead(p, fds, lfd) && OpenFrom(p, fds[0].fd) && p.app.Echo?
    requires Answered(fds, pass) && !TakesKey(p, pass, lfd)
    requires KILLME !in Delivered(p.log, x)
    ensures SilentSince(p, Scan(p, fds, active, pass), x)
    decreases |fds|
  {
    if fds[0].fd == lfd {
      ListenerSilent(p, fds, active, pass, lfd, others, x);
    } else {
      TailAhead(p, fds, lfd);
      var script := ScriptOf(pass, fds[0].fd);
      var q := HandleEvent(p, fds[0], script);
      if fds[0].revents == NOTHING {
        AheadSilent(p, fds[1..], active, pass, lfd, others, x);
      } else {
        StepAhead(p, fds, pass, lfd, others);
        if fds[0].fd == x {
          OwnEvent(p, fds[0], script);
          KeyNotAccepted(p, fds, pass, lfd, others);
          StillNotAccepted(p, fds, pass, x);
          RestSilent(q, fds[1..], active - 1, pass, x);
        } else {
          OtherEvent(p, fds[0], script, x);
          AheadSilent(q, fds[1..], active - 1, pass, lfd, others, x);
        }
      }
    }
  }

  /** What is dispatched before the listener is not what the listener accepts. */
  lemma KeyNotAccepted(p: Poller, fds: seq<PollFd>, pass: Pass, lfd: int, others: set<int>)
    requires Shape(p, lfd, others) && Ahead(p, fds, lfd) && fds[0].fd != lfd
    requires Answered(fds, pass) && !TakesKey(p, pass, lfd)
    ensures NotAccepted(p, fds, pass, fds[0].fd)
  {
    var i :| 0 <= i < |fds| && fds[i].fd == lfd;
    assert fds[0].fd < lfd;
  }

  /** A whole scan. */
  lemma ScanSilent(p: Poller, pass: Pass, lfd: int, others: set<int>, x: int)
    requires Settled(p, lfd, others) && AllOk(p) && !TakesKey(p, pass, lfd) && p.app.Echo?
    requires KILLME !in Delivered(p.log, x)
    ensures var fds := PassFds(p, pass); SilentSince(p, Scan(p, fds, CountActive(fds), pass), x)
  {
    PassAhead(p, pass, lfd, others);
    var fds := PassFds(p, pass);
    AheadSilent(p, fds, CountActive(fds), pass, lfd, others, x);
  }
}
