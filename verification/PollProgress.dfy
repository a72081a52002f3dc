/** What one pass of the poll loop gets done for a connection: its event is dispatched, once, on what it had at the
    head of the pass, and nothing that happens to others takes anything from it. */
module PollProgress {
  import opened Basics
  import opened Wire
  import opened TcpStreams
  import opened Handlers
  import opened HandlerProgress
  import opened Pollers
  import opened Apps
  import opened Callbacks
  import opened PollRuns
  import opened Ownership
  import opened EchoScans

  // ------------------------------------------------------------------ what others do to a connection

  /** How often on_error has been called for a descriptor. */
  function Failures(log: seq<Event>, fd: int): nat {
    if log == [] then 0
    else Failures(log[..|log| - 1], fd) + if log[|log| - 1] == Failed(fd) then 1 else 0
  }

  lemma FailuresAppend(log: seq<Event>, e: Event, fd: int)
    ensures Failures(log + [e], fd) == Failures(log, fd) + if e == Failed(fd) then 1 else 0
  {
    assert (log + [e])[..|log|] == log;
  }

  /** Nothing has happened but that more has been queued for writing. */
  predicate Grown(h: Handler, t: Handler) {
    t == h.(writeQueue := t.writeQueue) && h.writeQueue <= t.writeQueue
  }

  lemma GrownOutput(h: Handler, t: Handler)
    requires Grown(h, t)
    ensures Output(h) <= Output(t) && Unsent(h.writeQueue) <= Unsent(t.writeQueue)
  {
    var n := |h.writeQueue|;
    assert t.writeQueue == h.writeQueue + t.writeQueue[n..];
    UnsentConcat(h.writeQueue, t.writeQueue[n..]);
    Associate(h.stream.bio.sent, Unsent(h.writeQueue), Unsent(t.writeQueue[n..]));
  }

  lemma {:induction false} EnqueueAllGrown(h: Handler, bufs: seq<Bytes>)
    ensures Grown(h, EnqueueAll(h, bufs))
    decreases |bufs|
  {
    if bufs != [] {
      EnqueueAllGrown(Enqueue(h, bufs[0]), bufs[1..]);
    }
  }

  /** A connection is as it was, but that others may have written to it. */
  predicate Alike(p: Poller, q: Poller, x: int) {
    && x in p.handlers && p.handlers[x].Conn? && x in q.handlers && q.handlers[x].Conn?
    && p.app.Echo? == q.app.Echo?
    && Grown(p.handlers[x].handler, q.handlers[x].handler)
    && (p.app.Echo? ==> q.handlers[x] == p.handlers[x])
    && Delivered(q.log, x) == Delivered(p.log, x)
    && Failures(q.log, x) == Failures(p.log, x)
  }

  lemma AlikeTransitive(p: Poller, q: Poller, r: Poller, x: int)
    requires Alike(p, q, x) && Alike(q, r, x)
    ensures Alike(p, r, x)
  {
  }

  lemma ReadElsewhere(p: Poller, fd: int, script: seq<Answers>, x: int)
    requires fd in p.handlers && p.handlers[fd].Conn? && fd != x && x in p.handlers && p.handlers[x].Conn?
    ensures Alike(p, HandleRead(p, fd, script).0, x)
  {
    var (q, r, bufs) := ReadFrom(p, fd, script);
    LogFailed(p.log, fd, x);
    FailuresAppend(p.log, Failed(fd), x);
    if !r.Threw? && bufs != [] {
      CallbackElsewhere(q, fd, bufs, x);
    }
  }

  lemma CallbackElsewhere(q: Poller, fd: int, bufs: seq<Bytes>, x: int)
    requires fd != x && x in q.handlers && q.handlers[x].Conn?
    ensures Alike(q, OnRead(q, fd, bufs), x)
  {
    var q1 := q.(log := q.log + [Delivery(fd, bufs)]);
    LogDelivery(q.log, fd, bufs, x);
    FailuresAppend(q.log, Delivery(fd, bufs), x);
    if q.app.Echo? {
      EchoEachLog(q1, fd, bufs);
      EchoEachFrame(q1, fd, bufs, x);
    } else {
      ChatEachEffect(q1, Sorted(q.app.clients), fd, bufs, x);
      EnqueueAllGrown(q.handlers[x].handler, bufs);
    }
  }

  lemma WriteElsewhere(p: Poller, fd: int, script: WriteScript, x: int)
    requires fd in p.handlers && p.handlers[fd].Conn? && fd != x && x in p.handlers && p.handlers[x].Conn?
    ensures Alike(p, HandleWrite(p, fd, script), x)
  {
    LogFailed(p.log, fd, x);
    FailuresAppend(p.log, Failed(fd), x);
  }

  lemma AcceptElsewhere(p: Poller, tls: bool, answer: AcceptAnswer, x: int)
    requires x in p.handlers && p.handlers[x].Conn? && answer != Accepts(x)
    ensures Alike(p, ListenerRead(p, tls, answer), x)
  {
    if answer.Accepts? {
      LogOpened(p.log, answer.fd, x);
      FailuresAppend(p.log, Opened(answer.fd), x);
    }
  }

  /** The event of another descriptor. */
  lemma EventElsewhere(p: Poller, pf: PollFd, script: FdScript, x: int)
    requires pf.fd in p.handlers && pf.fd != x && x in p.handlers && p.handlers[x].Conn?
    requires p.handlers[pf.fd].Listener? && pf.revents.readable ==> script.accept != Accepts(x)
    ensures Alike(p, HandleEvent(p, pf, script), x)
  {
    match p.handlers[pf.fd]
    case Listener(_, tls) =>
      if pf.revents.readable {
        AcceptElsewhere(p, tls, script.accept, x);
      }
    case Conn(_) =>
      var q := p;
      if pf.revents.readable {
        ReadElsewhere(p, pf.fd, script.readCalls, x);
        q := HandleRead(p, pf.fd, script.readCalls).0;
      }
      assert pf.fd in q.handlers && q.handlers[pf.fd].Conn?;
      WriteElsewhere(q, pf.fd, script.writeCalls, x);
      AlikeTransitive(p, q, HandleWrite(q, pf.fd, script.writeCalls), x);
  }

  // ------------------------------------------------------------------ the scan comes to it

  /** What comes behind it in the scan leaves a connection alike. */
  lemma {:induction false} RestAlike(p: Poller, fds: seq<PollFd>, active: int, pass: Pass, x: int)
    requires Known(p, fds) && NotAccepted(p, fds, pass, x) && x in p.handlers && p.handlers[x].Conn?
    requires forall i :: 0 <= i < |fds| ==> fds[i].fd != x
    ensures Alike(p, Scan(p, fds, active, pass), x)
    decreases |fds|
  {
    if fds != [] {
      if fds[0].revents == NOTHING {
        RestAlike(p, fds[1..], active, pass, x);
      } else {
        var script := ScriptOf(pass, fds[0].fd);
        var q := HandleEvent(p, fds[0], script);
        EventElsewhere(p, fds[0], script, x);
        StillNotAccepted(p, fds, pass, x);
        RestAlike(q, fds[1..], active - 1, pass, x);
        AlikeTransitive(p, q, Scan(q, fds[1..], active - 1, pass), x);
      }
    }
  }

  lemma {:induction false} StillActive(fds: seq<PollFd>, pf: PollFd)
    requires pf in fds && pf.revents != NOTHING
    ensures CountActive(fds) > 0
  {
    if fds[0] != pf {
      assert pf in fds[1..];
      StillActive(fds[1..], pf);
    }
  }

  /** The event is dispatched in state `a`, in which the connection is as it was at first, and leaves it as it is in
      the end. */
  ghost predicate Dispatched(p: Poller, a: Poller, q: Poller, pf: PollFd, pass: Pass, lfd: int, others: set<int>) {
    && Shape(a, lfd, others) && AllOk(a)
    && Alike(p, a, pf.fd) && Alike(HandleEvent(a, pf, ScriptOf(pass, pf.fd)), q, pf.fd)
  }

  lemma DispatchedLater(
      p: Poller, q: Poller, a: Poller, r: Poller, pf: PollFd, pass: Pass, lfd: int, others: set<int>)
    requires Alike(p, q, pf.fd) && Dispatched(q, a, r, pf, pass, lfd, others)
    ensures Dispatched(p, a, r, pf, pass, lfd, others)
  {
    AlikeTransitive(p, q, a, pf.fd);
  }

  lemma ScanSkips(p: Poller, fds: seq<PollFd>, active: int, pass: Pass)
    requires Known(p, fds) && fds != [] && fds[0].revents == NOTHING
    ensures Scan(p, fds, active, pass) == Scan(p, fds[1..], active, pass)
    ensures CountActive(fds) == CountActive(fds[1..])
  {
  }

  lemma ScanSteps(p: Poller, fds: seq<PollFd>, pass: Pass)
    requires Known(p, fds) && fds != [] && fds[0].revents != NOTHING
    ensures var q := HandleEvent(p, fds[0], ScriptOf(pass, fds[0].fd));
      Scan(p, fds, CountActive(fds), pass) ==
      if q.running && CountActive(fds[1..]) != 0 then Scan(q, fds[1..], CountActive(fds[1..]), pass) else q
  {
  }

  /** Its turn has come. */
  lemma DispatchNow(p: Poller, fds: seq<PollFd>, pass: Pass, lfd: int, others: set<int>)
    requires Shape(p, lfd, others) && AllOk(p) && Known(p, fds) && InOrder(fds) && fds != [] && fds[0].revents != NOTHING
    requires p.handlers[fds[0].fd].Conn? && NotAccepted(p, fds, pass, fds[0].fd)
    ensures Dispatched(p, p, Scan(p, fds, CountActive(fds), pass), fds[0], pass, lfd, others)
  {
    var x := fds[0].fd;
    var q := HandleEvent(p, fds[0], ScriptOf(pass, x));
    StaysConn(p, fds[0], ScriptOf(pass, x), x);
    StillNotAccepted(p, fds, pass, x);
    RestAlike(q, fds[1..], CountActive(fds) - 1, pass, x);
  }

  lemma {:induction false} ConnsDispatch(p: Poller, fds: seq<PollFd>, pass: Pass, lfd: int, others: set<int>, pf: PollFd)
      returns (a: Poller)
    requires Shape(p, lfd, others) && AllOk(p) && OnlyConns(p, fds) && InOrder(fds) && p.running
    requires pf in fds && pf.revents != NOTHING
    ensures Dispatched(p, a, Scan(p, fds, CountActive(fds), pass), pf, pass, lfd, others)
    decreases |fds|
  {
    if fds[0] == pf {
      a := p;
      DispatchNow(p, fds, pass, lfd, others);
    } else {
      assert pf in fds[1..];
      StillActive(fds[1..], pf);
      if fds[0].revents == NOTHING {
        ScanSkips(p, fds, CountActive(fds), pass);
        a := ConnsDispatch(p, fds[1..], pass, lfd, others, pf);
      } else {
        var script := ScriptOf(pass, fds[0].fd);
        var q := HandleEvent(p, fds[0], script);
        ScanSteps(p, fds, pass);
        StepConns(p, fds, pass, lfd, others);
        ConnEvent(p, fds[0], script);
        EventElsewhere(p, fds[0], script, pf.fd);
        a := ConnsDispatch(q, fds[1..], pass, lfd, others, pf);
        DispatchedLater(p, q, a, Scan(p, fds, CountActive(fds), pass), pf, pass, lfd, others);
      }
    }
  }

  /** The listener, if it is reported, gets a descriptor that is not open. */
  predicate CanAccept(p: Poller, pass: Pass, lfd: int) {
    var script := ScriptOf(pass, lfd);
    script.revents.readable ==> script.accept.Accepts? && script.accept.fd !in p.kernel
  }

  lemma ListenerStep(p: Poller, fds: seq<PollFd>, pass: Pass, lfd: int, others: set<int>)
    requires Shape(p, lfd, others) && AllOk(p) && Known(p, fds) && InOrder(fds) && OpenFrom(p, lfd) && p.running
    requires fds != [] && fds[0].fd == lfd && Answered(fds, pass) && !TakesKey(p, pass, lfd) && CanAccept(p, pass, lfd)
    ensures var script := ScriptOf(pass, lfd); var q := HandleEvent(p, fds[0], script);
      && Shape(q, lfd, others) && AllOk(q) && q.running && OnlyConns(q, fds[1..])
      && (fds[0].revents.readable ==> script.accept.fd !in p.handlers)
  {
    TailConns(p, fds, lfd, others);
    ListenerEvent(p, fds[0], ScriptOf(pass, lfd), others);
    ConnsStay(p, fds[0], ScriptOf(pass, lfd), fds[1..]);
  }

  lemma AcceptingStays(p: Poller, fds: seq<PollFd>, pass: Pass, lfd: int, others: set<int>)
    requires Shape(p, lfd, others) && AllOk(p) && fds != [] && fds[0].fd != lfd && Ahead(p, fds, lfd)
    requires CanAccept(p, pass, lfd)
    ensures var q := HandleEvent(p, fds[0], ScriptOf(pass, fds[0].fd));
      CanAccept(q, pass, lfd) && q.running == p.running && (TakesKey(q, pass, lfd) ==> TakesKey(p, pass, lfd))
  {
    ConnEvent(p, fds[0], ScriptOf(pass, fds[0].fd));
  }

  lemma {:induction false} AheadDispatch(
      p: Poller, fds: seq<PollFd>, pass: Pass, lfd: int, others: set<int>, pf: PollFd) returns (a: Poller)
    requires Shape(p, lfd, others) && AllOk(p) && Ahead(p, fds, lfd) && OpenFrom(p, fds[0].fd) && p.running
    requires Answered(fds, pass) && !TakesKey(p, pass, lfd) && CanAccept(p, pass, lfd)
    requires pf in fds && pf.revents != NOTHING && pf.fd != lfd
    ensures Dispatched(p, a, Scan(p, fds, CountActive(fds), pass), pf, pass, lfd, others)
    decreases |fds|
  {
    if fds[0] == pf {
      a := p;
      KeyNotAccepted(p, fds, pass, lfd, others);
      DispatchNow(p, fds, pass, lfd, others);
    } else {
      assert pf in fds[1..];
      StillActive(fds[1..], pf);
      if fds[0].fd == lfd {
        a := ListenerDispatch(p, fds, pass, lfd, others, pf);
      } else if fds[0].revents == NOTHING {
        TailAhead(p, fds, lfd);
        ScanSkips(p, fds, CountActive(fds), pass);
        a := AheadDispatch(p, fds[1..], pass, lfd, others, pf);
      } else {
        var script := ScriptOf(pass, fds[0].fd);
        var q := HandleEvent(p, fds[0], script);
        ScanSteps(p, fds, pass);
        StepAhead(p, fds, pass, lfd, others);
        AcceptingStays(p, fds, pass, lfd, others);
        EventElsewhere(p, fds[0], script, pf.fd);
        a := AheadDispatch(q, fds[1..], pass, lfd, others, pf);
        DispatchedLater(p, q, a, Scan(p, fds, CountActive(fds), pass), pf, pass, lfd, others);
      }
    }
  }

  lemma ListenerDispatch(p: Poller, fds: seq<PollFd>, pass: Pass, lfd: int, others: set<int>, pf: PollFd)
      returns (a: Poller)
    requires Shape(p, lfd, others) && AllOk(p) && Known(p, fds) && InOrder(fds) && OpenFrom(p, lfd) && p.running
    requires fds != [] && fds[0].fd == lfd && Answered(fds, pass) && !TakesKey(p, pass, lfd) && CanAccept(p, pass, lfd)
    requires pf in fds[1..] && pf.revents != NOTHING
    ensures Dispatched(p, a, Scan(p, fds, CountActive(fds), pass), pf, pass, lfd, others)
  {
    TailConns(p, fds, lfd, others);
    StillActive(fds[1..], pf);
    if fds[0].revents == NOTHING {
      ScanSkips(p, fds, CountActive(fds), pass);
      a := ConnsDispatch(p, fds[1..], pass, lfd, others, pf);
    } else {
      var q := HandleEvent(p, fds[0], ScriptOf(pass, lfd));
      ScanSteps(p, fds, pass);
      ListenerStep(p, fds, pass, lfd, others);
      ListenerElsewhere(p, fds, pass, lfd, others, pf);
      a := ConnsDispatch(q, fds[1..], pass, lfd, others, pf);
      DispatchedLater(p, q, a, Scan(p, fds, CountActive(fds), pass), pf, pass, lfd, others);
    }
  }

  lemma ListenerElsewhere(p: Poller, fds: seq<PollFd>, pass: Pass, lfd: int, others: set<int>, pf: PollFd)
    requires Shape(p, lfd, others) && AllOk(p) && Known(p, fds) && InOrder(fds) && OpenFrom(p, lfd) && p.running
    requires fds != [] && fds[0].fd == lfd && Answered(fds, pass) && !TakesKey(p, pass, lfd) && CanAccept(p, pass, lfd)
    requires pf in fds[1..]
    ensures Alike(p, HandleEvent(p, fds[0], ScriptOf(pass, lfd)), pf.fd)
  {
    ListenerStep(p, fds, pass, lfd, others);
    TailConns(p, fds, lfd, others);
    var i :| 0 <= i < |fds[1..]| && fds[1..][i] == pf;
    assert pf.fd in p.handlers && pf.fd != lfd;
    EventElsewhere(p, fds[0], ScriptOf(pass, lfd), pf.fd);
  }

  // ------------------------------------------------------------------ when the loop goes on

  lemma {:induction false} ConnsRun(p: Poller, fds: seq<PollFd>, active: int, pass: Pass, lfd: int, others: set<int>)
    requires Shape(p, lfd, others) && AllOk(p) && OnlyConns(p, fds)
    ensures Scan(p, fds, active, pass).running == p.running
    decreases |fds|
  {
    if fds != [] {
      if fds[0].revents == NOTHING {
        ConnsRun(p, fds[1..], active, pass, lfd, others);
      } else {
        StepConns(p, fds, pass, lfd, others);
        ConnEvent(p, fds[0], ScriptOf(pass, fds[0].fd));
        ConnsRun(HandleEvent(p, fds[0], ScriptOf(pass, fds[0].fd)), fds[1..], active - 1, pass, lfd, others);
      }
    }
  }

  /** The descriptor that the listener is to accept is open, or not, until its turn comes. */
  lemma SameAccept(p: Poller, fds: seq<PollFd>, pass: Pass, lfd: int, others: set<int>)
    requires Shape(p, lfd, others) && AllOk(p) && fds != [] && fds[0].fd != lfd && Ahead(p, fds, lfd)
    requires OpenFrom(p, fds[0].fd) && !TakesKey(p, pass, lfd)
    ensures var q := HandleEvent(p, fds[0], ScriptOf(pass, fds[0].fd));
      && q.running == p.running && !TakesKey(q, pass, lfd)
      && (CanAccept(q, pass, lfd) <==> CanAccept(p, pass, lfd))
  {
    var script := ScriptOf(pass, fds[0].fd);
    ConnEvent(p, fds[0], script);
    TailAhead(p, fds, lfd);
    var i :| 0 <= i < |fds| && fds[i].fd == lfd;
    var f := ScriptOf(pass, lfd).accept;
    if f.Accepts? && f.fd in p.handlers && f.fd != fds[0].fd && p.handlers[fds[0].fd].Conn? {
      EventFrame(p, fds[0], script, f.fd);
    }
  }

  lemma {:induction false} AheadRuns(p: Poller, fds: seq<PollFd>, pass: Pass, lfd: int, others: set<int>)
    requires Shape(p, lfd, others) && AllOk(p) && Ahead(p, fds, lfd) && OpenFrom(p, fds[0].fd) && p.running
    requires Answered(fds, pass) && !TakesKey(p, pass, lfd)
    requires ScriptOf(pass, lfd).revents.readable ==>
      forall i :: 0 <= i < |fds| && fds[i].fd == lfd ==> fds[i].revents.readable
    ensures Scan(p, fds, CountActive(fds), pass).running <==> CanAccept(p, pass, lfd)
    decreases |fds|
  {
    if fds[0].fd == lfd {
      ListenerRuns(p, fds, pass, lfd, others);
    } else {
      TailAhead(p, fds, lfd);
      if fds[0].revents == NOTHING {
        ScanSkips(p, fds, CountActive(fds), pass);
        AheadRuns(p, fds[1..], pass, lfd, others);
      } else {
        ScanSteps(p, fds, pass);
        StepAhead(p, fds, pass, lfd, others);
        SameAccept(p, fds, pass, lfd, others);
        if CountActive(fds[1..]) != 0 {
          AheadRuns(HandleEvent(p, fds[0], ScriptOf(pass, fds[0].fd)), fds[1..], pass, lfd, others);
        } else {
          QuietListener(fds[1..], lfd);
        }
      }
    }
  }

  lemma ListenerRuns(p: Poller, fds: seq<PollFd>, pass: Pass, lfd: int, others: set<int>)
    requires Shape(p, lfd, others) && AllOk(p) && Known(p, fds) && InOrder(fds) && OpenFrom(p, lfd) && p.running
    requires fds != [] && fds[0].fd == lfd && Answered(fds, pass) && !TakesKey(p, pass, lfd)
    requires ScriptOf(pass, lfd).revents.readable ==> fds[0].revents.readable
    ensures Scan(p, fds, CountActive(fds), pass).running <==> CanAccept(p, pass, lfd)
  {
    TailConns(p, fds, lfd, others);
    if fds[0].revents == NOTHING {
      ConnsRun(p, fds[1..], CountActive(fds), pass, lfd, others);
    } else {
      var script := ScriptOf(pass, lfd);
      ScanSteps(p, fds, pass);
      ListenerEvent(p, fds[0], script, others);
      ConnsStay(p, fds[0], script, fds[1..]);
      ConnsRun(HandleEvent(p, fds[0], script), fds[1..], CountActive(fds[1..]), pass, lfd, others);
    }
  }

  lemma QuietListener(fds: seq<PollFd>, lfd: int)
    requires CountActive(fds) == 0
    ensures forall i :: 0 <= i < |fds| && fds[i].fd == lfd ==> !fds[i].revents.readable
  {
    forall i | 0 <= i < |fds| ensures fds[i].revents == NOTHING {
      if fds[i].revents != NOTHING {
        StillActive(fds, fds[i]);
      }
    }
  }

  /** Exactly when the loop goes on after a pass: poll has not failed, and neither has an accept. No event of a
      connection, whatever it is, ends it. */
  lemma PassRuns(p: Poller, pass: Pass, lfd: int, others: set<int>)
    requires Settled(p, lfd, others) && AllOk(p) && !TakesKey(p, pass, lfd) && p.running
    ensures RunPass(p, pass).running <==> !pass.pollFails && CanAccept(p, pass, lfd)
  {
    if !pass.pollFails {
      PassAhead(p, pass, lfd, others);
      var fds := PassFds(p, pass);
      AheadRuns(p, fds, pass, lfd, others);
      var q := Scan(p, fds, CountActive(fds), pass);
      if q.running {
        ClosedFdsExact(q, KeysInOrder(q));
        RemoveRuns(q, ClosedFds(q, KeysInOrder(q)));
      }
    }
  }

  lemma {:induction false} RemoveRuns(p: Poller, fds: seq<int>)
    requires Ascending(fds) && KeysOf(p, fds)
    ensures RemoveAll(p, fds).running == p.running
    decreases |fds|
  {
    if fds != [] {
      RemoveStep(p, fds);
      RemoveRuns(Remove(p, fds[0]), fds[1..]);
    }
  }

  // ------------------------------------------------------------------ from the head of a pass to its event

  /** What poll reports about a connection that is open: what was asked for, and has happened. */
  function Report(p: Poller, pass: Pass, x: int): Flags
    requires x in p.handlers
  {
    var script := ScriptOf(pass, x);
    And(Wants(p.handlers[x], script.bioWants), script.revents)
  }

  lemma PassDispatch(p: Poller, pass: Pass, lfd: int, others: set<int>, x: int) returns (a: Poller, pf: PollFd)
    requires Settled(p, lfd, others) && AllOk(p) && !TakesKey(p, pass, lfd) && p.running && CanAccept(p, pass, lfd)
    requires x in p.handlers && p.handlers[x].Conn? && Report(p, pass, x) != NOTHING
    ensures pf.fd == x && pf.revents == Report(p, pass, x)
    ensures var fds := PassFds(p, pass); Dispatched(p, a, Scan(p, fds, CountActive(fds), pass), pf, pass, lfd, others)
  {
    PassAhead(p, pass, lfd, others);
    var fds := PassFds(p, pass);
    var i := Polled(p, pass, x);
    pf := fds[i];
    PolledAt(p, KeysInOrder(p), pass, i);
    a := AheadDispatch(p, fds, pass, lfd, others, pf);
  }

  /** What is not closed is still there, with its history, when the closed ones have been removed. */
  lemma {:induction false} RemoveAlike(p: Poller, fds: seq<int>, x: int)
    requires Ascending(fds) && KeysOf(p, fds) && x in p.handlers && p.handlers[x].Conn? && x !in fds
    ensures var q := RemoveAll(p, fds);
      && x in q.handlers && q.handlers[x] == p.handlers[x]
      && Delivered(q.log, x) == Delivered(p.log, x) && Failures(q.log, x) == Failures(p.log, x)
    decreases |fds|
  {
    if fds != [] {
      AscendingTail(fds);
      RemoveStep(p, fds);
      LogClosed(p.log, fds[0], x);
      FailuresAppend(p.log, Closed(fds[0]), x);
      RemoveAlike(Remove(p, fds[0]), fds[1..], x);
    }
  }

  lemma PassLeaves(p: Poller, pass: Pass, lfd: int, others: set<int>, x: int)
    requires Settled(p, lfd, others) && AllOk(p) && !TakesKey(p, pass, lfd) && p.running && CanAccept(p, pass, lfd)
    requires !pass.pollFails
    requires var fds := PassFds(p, pass); var q := Scan(p, fds, CountActive(fds), pass);
      x in q.handlers && q.handlers[x].Conn? && IsOpen(q.handlers[x])
    ensures var fds := PassFds(p, pass); var q := Scan(p, fds, CountActive(fds), pass); var r := RunPass(p, pass);
      && x in r.handlers && r.handlers[x] == q.handlers[x]
      && Delivered(r.log, x) == Delivered(q.log, x) && Failures(r.log, x) == Failures(q.log, x)
  {
    PassRuns(p, pass, lfd, others);
    var fds := PassFds(p, pass);
    var q := Scan(p, fds, CountActive(fds), pass);
    var keys := KeysInOrder(q);
    ClosedFdsExact(q, keys);
    RemoveAlike(q, ClosedFds(q, keys), x);
  }

  // ------------------------------------------------------------------ the event itself

  /** Reading comes to a pause, or to the end of a plain stream. */
  predicate Halts(s: Stream, rest: seq<Answers>) {
    || Pauses(rest)
    || (rest != [] && (rest[0].read.ReadFault? || (rest[0].read.ZeroReturn? && !s.bio.ssl)))
  }

  lemma ReadGets(h: Handler, chunks: seq<Bytes>, rest: seq<Answers>)
    requires HandlerOk(h) && Established(h.stream) && h.readQueue == [] && Fit(chunks, h.readSize) && Halts(h.stream, rest)
    ensures var (t, r) := HandlerRead(h, Arrivals(chunks) + rest); r.Ok? && t.readQueue == chunks
  {
    if Pauses(rest) {
      ReadsChunks(h, chunks, rest);
    } else {
      ReadsToTheEnd(h, chunks, rest);
    }
  }

  lemma ReadDelivered(a: Poller, fd: int, script: seq<Answers>)
    requires fd in a.handlers && a.handlers[fd].Conn? && HandlerRead(a.handlers[fd].handler, script).1.Ok?
    ensures Delivered(HandleRead(a, fd, script).0.log, fd) ==
            Delivered(a.log, fd) + HandlerRead(a.handlers[fd].handler, script).0.readQueue
  {
    var (q, r, bufs) := ReadFrom(a, fd, script);
    if bufs != [] {
      OnReadLog(q, fd, bufs);
      LogDelivery(q.log, fd, bufs, fd);
    }
  }

  /** All chunks that arrive are given to on_read. */
  lemma EventDelivers(a: Poller, pf: PollFd, script: FdScript, chunks: seq<Bytes>, rest: seq<Answers>)
    requires pf.fd in a.handlers && a.handlers[pf.fd].Conn? && FdOk(a, pf.fd) && pf.revents.readable
    requires var h := a.handlers[pf.fd].handler;
      && Established(h.stream) && Fit(chunks, h.readSize) && Halts(h.stream, rest)
      && script.readCalls == Arrivals(chunks) + rest
    ensures var q := HandleEvent(a, pf, script);
      pf.fd in q.handlers && Delivered(q.log, pf.fd) == Delivered(a.log, pf.fd) + chunks
  {
    ReadGets(a.handlers[pf.fd].handler, chunks, rest);
    ReadDelivered(a, pf.fd, script.readCalls);
    var q := HandleRead(a, pf.fd, script.readCalls).0;
    LogFailed(q.log, pf.fd, pf.fd);
  }

  lemma OnReadLog(p: Poller, fd: int, bufs: seq<Bytes>)
    requires fd in p.handlers
    ensures OnRead(p, fd, bufs).log == p.log + [Delivery(fd, bufs)]
  {
    var q := p.(log := p.log + [Delivery(fd, bufs)]);
    if p.app.Echo? {
      EchoEachLog(q, fd, bufs);
    } else {
      ChatEachEffect(q, Sorted(p.app.clients), fd, bufs, fd);
    }
  }

  /** What the application queues for a connection when these chunks come from it. */
  function Answer(app: App, chunks: seq<Bytes>): Bytes {
    if app.Echo? then Flatten(chunks) else []
  }

  /** What on_read does to the connection itself. */
  lemma CallbackOwn(q: Poller, fd: int, bufs: seq<Bytes>)
    requires fd in q.handlers && q.handlers[fd].Conn? && Held(q, fd) && (q.app.Echo? ==> KILLME !in bufs)
    ensures var r := OnRead(q, fd, bufs);
      && fd in r.handlers && r.handlers[fd].Conn? && r.app.Echo? == q.app.Echo?
      && r.handlers[fd].handler.stream == q.handlers[fd].handler.stream
      && Output(r.handlers[fd].handler) == Output(q.handlers[fd].handler) + Answer(q.app, bufs)
  {
    var h := q.handlers[fd].handler;
    var q1 := q.(log := q.log + [Delivery(fd, bufs)]);
    if q.app.Echo? {
      EchoEachEffect(q1, fd, bufs);
      EchoHandlerFrame(h, bufs);
      EchoHandlerOutput(h, bufs);
      KeptAll(bufs);
    } else {
      ChatEachEffect(q1, Sorted(q.app.clients), fd, bufs, fd);
    }
  }

  lemma ReadAnd(a: Poller, fd: int, script: seq<Answers>, chunks: seq<Bytes>)
    requires fd in a.handlers && a.handlers[fd].Conn?
    requires var h := a.handlers[fd].handler; h.readQueue == [] && HandlerRead(h, script) == (With(h, chunks), Ok(true))
    ensures var q := SetConn(a, fd, With(a.handlers[fd].handler, chunks).(readQueue := []));
      HandleRead(a, fd, script) == (if chunks == [] then q else OnRead(q, fd, chunks), true)
  {
    assert [] + chunks == chunks;
  }

  /** The log and the handler after such a read. */
  lemma ReadOwn(a: Poller, fd: int, chunks: seq<Bytes>)
    requires fd in a.handlers && a.handlers[fd].Conn? && Held(a, fd) && a.handlers[fd].handler.readQueue == []
    requires IsOpen(a.handlers[fd]) && (a.app.Echo? ==> KILLME !in chunks)
    ensures var h := a.handlers[fd].handler;
      var q := SetConn(a, fd, With(h, chunks).(readQueue := [])); var r := if chunks == [] then q else OnRead(q, fd, chunks);
      && fd in r.handlers && r.handlers[fd].Conn? && r.app.Echo? == a.app.Echo?
      && Failures(r.log, fd) == Failures(a.log, fd)
      && Delivered(r.log, fd) == Delivered(a.log, fd) + chunks
      && r.handlers[fd].handler.stream == With(h, chunks).stream
      && Output(r.handlers[fd].handler) == Output(h) + Answer(a.app, chunks)
  {
    var q := SetConn(a, fd, With(a.handlers[fd].handler, chunks).(readQueue := []));
    if chunks != [] {
      FailuresAppend(a.log, Delivery(fd, chunks), fd);
      LogDelivery(a.log, fd, chunks, fd);
      OnReadLog(q, fd, chunks);
      CallbackOwn(q, fd, chunks);
    }
  }

  /** The connection after a read that leaves it open. */
  lemma EventReads(a: Poller, fd: int, chunks: seq<Bytes>, rest: seq<Answers>)
    requires fd in a.handlers && a.handlers[fd].Conn? && FdOk(a, fd) && Held(a, fd)
    requires var h := a.handlers[fd].handler; Established(h.stream) && Fit(chunks, h.readSize) && Pauses(rest)
    requires a.app.Echo? ==> KILLME !in chunks
    ensures var (q, go) := HandleRead(a, fd, Arrivals(chunks) + rest);
      && go && fd in q.handlers && q.handlers[fd].Conn? && FdOk(q, fd) && q.app.Echo? == a.app.Echo?
      && Failures(q.log, fd) == Failures(a.log, fd)
      && Delivered(q.log, fd) == Delivered(a.log, fd) + chunks
      && var h, t := a.handlers[fd].handler, q.handlers[fd].handler;
         && t.stream == With(h, chunks).stream
         && Output(t) == Output(h) + Answer(a.app, chunks)
  {
    var script := Arrivals(chunks) + rest;
    var h := a.handlers[fd].handler;
    ReadsChunks(h, chunks, rest);
    HandleReadFd(a, fd, script, fd);
    ReadAnd(a, fd, script, chunks);
    ReadOwn(a, fd, chunks);
  }

  /** The connection after a write whose calls all take something. */
  lemma EventWrites(a: Poller, fd: int, w: WriteScript, n: nat)
    requires fd in a.handlers && a.handlers[fd].Conn? && FdOk(a, fd)
    requires var h := a.handlers[fd].handler; Established(h.stream) && n <= |w.calls| && n <= |Unsent(h.writeQueue)|
    requires forall i :: 0 <= i < |w.calls| ==> Accepting(w.calls[i])
    ensures var q := HandleWrite(a, fd, w);
      && fd in q.handlers && q.handlers[fd].Conn? && q.app.Echo? == a.app.Echo?
      && Delivered(q.log, fd) == Delivered(a.log, fd)
      && var h, t := a.handlers[fd].handler, q.handlers[fd].handler;
         && t.stream.bio.sent <= Output(h) && |t.stream.bio.sent| >= |h.stream.bio.sent| + n
         && (!w.wantWrite ==>
               && Established(t.stream) && Failures(q.log, fd) == Failures(a.log, fd)
               && (n == |Unsent(h.writeQueue)| ==> t.writeQueue == [] && t.stream.bio.sent == Output(h)))
  {
    var h := a.handlers[fd].handler;
    LogFailed(a.log, fd, fd);
    WriteSends(h, w.calls, n);
    WriteStaysOpen(h, w.calls);
    WriteKeepsHandler(h, w);
    WriteLoopKeeps(h, w.calls);
    var h1 := WriteLoop(h, w.calls).0;
    FlushKeeps(h1, w.wantWrite, w.flush);
    if !w.wantWrite && n == |Unsent(h.writeQueue)| {
      WritesAll(h, w);
    }
  }

  /** The chunks that an event reads. */
  function Got(pf: PollFd, chunks: seq<Bytes>): seq<Bytes> {
    if pf.revents.readable then chunks else []
  }

  lemma SameSent(h: Handler, t: Handler, more: Bytes)
    requires t.stream.bio.sent == h.stream.bio.sent && Output(t) == Output(h) + more
    ensures |Unsent(t.writeQueue)| == |Unsent(h.writeQueue)| + |more|
  {
    assert |Output(t)| == |t.stream.bio.sent| + |Unsent(t.writeQueue)|;
    assert |Output(h)| == |h.stream.bio.sent| + |Unsent(h.writeQueue)|;
  }

  /** An event that may read, and writes with calls that all take something: at least `n` bytes more are sent. */
  lemma EventServes(a: Poller, pf: PollFd, script: FdScript, chunks: seq<Bytes>, rest: seq<Answers>, n: nat)
    requires pf.fd in a.handlers && a.handlers[pf.fd].Conn? && FdOk(a, pf.fd) && Held(a, pf.fd) && pf.revents.writable
    requires var h := a.handlers[pf.fd].handler;
      && Established(h.stream)
      && (pf.revents.readable ==>
            && Fit(chunks, h.readSize) && Pauses(rest) && script.readCalls == Arrivals(chunks) + rest
            && (a.app.Echo? ==> KILLME !in chunks))
      && n <= |script.writeCalls.calls|
      && n <= |Unsent(h.writeQueue)| + |Answer(a.app, Got(pf, chunks))|
    requires forall i :: 0 <= i < |script.writeCalls.calls| ==> Accepting(script.writeCalls.calls[i])
    ensures var q := HandleEvent(a, pf, script); var got := Got(pf, chunks);
      && pf.fd in q.handlers && q.handlers[pf.fd].Conn? && q.app.Echo? == a.app.Echo?
      && Delivered(q.log, pf.fd) == Delivered(a.log, pf.fd) + got
      && var h, t := a.handlers[pf.fd].handler, q.handlers[pf.fd].handler; var output := Output(h) + Answer(a.app, got);
         && t.stream.bio.sent <= output && |t.stream.bio.sent| >= |h.stream.bio.sent| + n
         && (!script.writeCalls.wantWrite ==>
               && Established(t.stream) && Failures(q.log, pf.fd) == Failures(a.log, pf.fd)
               && (n == |Unsent(h.writeQueue)| + |Answer(a.app, got)| ==> t.writeQueue == [] && t.stream.bio.sent == output))
  {
    var h := a.handlers[pf.fd].handler;
    var q := a;
    if pf.revents.readable {
      EventReads(a, pf.fd, chunks, rest);
      q := HandleRead(a, pf.fd, script.readCalls).0;
    } else {
      assert Output(h) + [] == Output(h) && Delivered(a.log, pf.fd) + [] == Delivered(a.log, pf.fd);
    }
    SameSent(h, q.handlers[pf.fd].handler, Answer(a.app, Got(pf, chunks)));
    EventWrites(q, pf.fd, script.writeCalls, n);
  }

  /** A write that fails: on_error is called, and the connection is closed. */
  lemma EventFails(a: Poller, pf: PollFd, script: FdScript)
    requires pf.fd in a.handlers && a.handlers[pf.fd].Conn? && FdOk(a, pf.fd) && pf.revents.writable && !pf.revents.readable
    requires var h := a.handlers[pf.fd].handler; Established(h.stream) && h.writeQueue != []
    requires var calls := script.writeCalls.calls; calls != [] && calls[0].write.WriteFault?
    ensures var q := HandleEvent(a, pf, script);
      && pf.fd in q.handlers && q.handlers[pf.fd].Conn? && !IsOpen(q.handlers[pf.fd])
      && q.handlers[pf.fd].handler.writeQueue == a.handlers[pf.fd].handler.writeQueue
      && q.handlers[pf.fd].handler.stream.bio == a.handlers[pf.fd].handler.stream.bio
      && Failures(q.log, pf.fd) == Failures(a.log, pf.fd) + 1
  {
    WriteFails(a.handlers[pf.fd].handler, script.writeCalls.calls);
    FailuresAppend(a.log, Failed(pf.fd), pf.fd);
  }

  /** A handshake that fails in a read does the same. */
  lemma EventRejects(a: Poller, pf: PollFd, script: FdScript)
    requires pf.fd in a.handlers && a.handlers[pf.fd].Conn? && FdOk(a, pf.fd) && pf.revents.readable
    requires var s := a.handlers[pf.fd].handler.stream; s.isOpen && HandshakeFails(s, Next(script.readCalls))
    ensures var q := HandleEvent(a, pf, script);
      && pf.fd in q.handlers && q.handlers[pf.fd].Conn? && !IsOpen(q.handlers[pf.fd])
      && Failures(q.log, pf.fd) == Failures(a.log, pf.fd) + 1
      && Delivered(q.log, pf.fd) == Delivered(a.log, pf.fd)
  {
    ReadRejects(a.handlers[pf.fd].handler, script.readCalls);
    FailuresAppend(a.log, Failed(pf.fd), pf.fd);
    LogFailed(a.log, pf.fd, pf.fd);
  }

  /** A handshake that is done in a read establishes the stream. */
  lemma EventShakes(a: Poller, pf: PollFd, script: FdScript)
    requires pf.fd in a.handlers && a.handlers[pf.fd].Conn? && FdOk(a, pf.fd) && pf.revents.readable && !pf.revents.writable
    requires var s, calls := a.handlers[pf.fd].handler.stream, script.readCalls;
      && s.isOpen && s.state == HANDSHAKE && calls != [] && Ready(s, calls[0]) && calls[0].read.ReadRetry?
    ensures var q := HandleEvent(a, pf, script);
      && pf.fd in q.handlers && q.handlers[pf.fd].Conn? && Established(q.handlers[pf.fd].handler.stream)
      && q.handlers[pf.fd].handler.stream.bio.handshaken
      && Failures(q.log, pf.fd) == Failures(a.log, pf.fd)
  {
    ReadShakes(a.handlers[pf.fd].handler, script.readCalls);
  }

  // ------------------------------------------------------------------ accepting

  function NewConn(tls: bool): Handler {
    NewHandler(if tls then TlsStream(false) else PlainStream(), 8096, 8096)
  }

  /** A new connection, to which others may have written already. */
  predicate Born(q: Poller, tls: bool, fd: int) {
    && fd in q.handlers && q.handlers[fd].Conn?
    && Grown(NewConn(tls), q.handlers[fd].handler)
    && Delivered(q.log, fd) == []
  }

  lemma BornAlike(p: Poller, q: Poller, tls: bool, fd: int)
    requires Born(p, tls, fd) && Alike(p, q, fd)
    ensures Born(q, tls, fd)
  {
  }

  /** The event of a listener whose accept succeeds. */
  lemma EventBears(p: Poller, pf: PollFd, script: FdScript)
    requires pf.fd in p.handlers && p.handlers[pf.fd].Listener? && pf.revents.readable
    requires script.accept.Accepts? && script.accept.fd !in p.kernel
    ensures Born(HandleEvent(p, pf, script), p.handlers[pf.fd].tls, script.accept.fd)
  {
    LogOpened(p.log, script.accept.fd, script.accept.fd);
  }

  lemma ListenerRest(p: Poller, fds: seq<PollFd>, pass: Pass, lfd: int, others: set<int>)
    requires Shape(p, lfd, others) && AllOk(p) && Known(p, fds) && InOrder(fds) && OpenFrom(p, lfd) && p.running
    requires fds != [] && fds[0].fd == lfd && Answered(fds, pass) && !TakesKey(p, pass, lfd) && CanAccept(p, pass, lfd)
    requires fds[0].revents.readable
    ensures Alike(HandleEvent(p, fds[0], ScriptOf(pass, lfd)), Scan(p, fds, CountActive(fds), pass), ScriptOf(pass, lfd).accept.fd)
  {
    var f, q := ScriptOf(pass, lfd).accept.fd, HandleEvent(p, fds[0], ScriptOf(pass, lfd));
    ListenerStep(p, fds, pass, lfd, others);
    ScanSteps(p, fds, pass);
    assert f in q.handlers && q.handlers[f].Conn?;
    RestAlike(q, fds[1..], CountActive(fds) - 1, pass, f);
  }

  lemma ListenerAccepts(p: Poller, fds: seq<PollFd>, pass: Pass, lfd: int, others: set<int>)
    requires Shape(p, lfd, others) && AllOk(p) && Known(p, fds) && InOrder(fds) && OpenFrom(p, lfd) && p.running
    requires fds != [] && fds[0].fd == lfd && Answered(fds, pass) && !TakesKey(p, pass, lfd) && CanAccept(p, pass, lfd)
    requires fds[0].revents.readable
    ensures Born(Scan(p, fds, CountActive(fds), pass), p.handlers[lfd].tls, ScriptOf(pass, lfd).accept.fd)
  {
    var script := ScriptOf(pass, lfd);
    EventBears(p, fds[0], script);
    ListenerRest(p, fds, pass, lfd, others);
    BornAlike(HandleEvent(p, fds[0], script), Scan(p, fds, CountActive(fds), pass), p.handlers[lfd].tls, script.accept.fd);
  }

  lemma {:induction false} AheadAccepts(p: Poller, fds: seq<PollFd>, pass: Pass, lfd: int, others: set<int>)
    requires Shape(p, lfd, others) && AllOk(p) && Ahead(p, fds, lfd) && OpenFrom(p, fds[0].fd) && p.running
    requires Answered(fds, pass) && !TakesKey(p, pass, lfd) && CanAccept(p, pass, lfd)
    requires forall i :: 0 <= i < |fds| && fds[i].fd == lfd ==> fds[i].revents.readable
    ensures Born(Scan(p, fds, CountActive(fds), pass), p.handlers[lfd].tls, ScriptOf(pass, lfd).accept.fd)
    decreases |fds|
  {
    if fds[0].fd == lfd {
      ListenerAccepts(p, fds, pass, lfd, others);
    } else {
      TailAhead(p, fds, lfd);
      ListenerActive(fds[1..], lfd);
      if fds[0].revents == NOTHING {
        ScanSkips(p, fds, CountActive(fds), pass);
        AheadAccepts(p, fds[1..], pass, lfd, others);
      } else {
        ScanSteps(p, fds, pass);
        StepAhead(p, fds, pass, lfd, others);
        AcceptingStays(p, fds, pass, lfd, others);
        ConnEvent(p, fds[0], ScriptOf(pass, fds[0].fd));
        AheadAccepts(HandleEvent(p, fds[0], ScriptOf(pass, fds[0].fd)), fds[1..], pass, lfd, others);
      }
    }
  }

  // ------------------------------------------------------------------ a pass without events

  lemma {:induction false} IdleScan(p: Poller, fds: seq<PollFd>, active: int, pass: Pass)
    requires Known(p, fds) && forall i :: 0 <= i < |fds| ==> fds[i].revents == NOTHING
    ensures Scan(p, fds, active, pass) == p
    decreases |fds|
  {
    if fds != [] {
      IdleScan(p, fds[1..], active, pass);
    }
  }

  /** A pass in which nothing is reported changes nothing. */
  lemma IdlePass(p: Poller, pass: Pass)
    requires forall fd :: fd in p.handlers ==> IsOpen(p.handlers[fd])
    requires !pass.pollFails && forall fd :: fd in p.handlers ==> ScriptOf(pass, fd).revents == NOTHING
    ensures RunPass(p, pass) == p
  {
    var fds, keys := PassFds(p, pass), KeysInOrder(p);
    forall i | 0 <= i < |fds| ensures fds[i].revents == NOTHING {
      PolledAt(p, keys, pass, i);
    }
    IdleScan(p, fds, CountActive(fds), pass);
    NoneClosed(p, keys);
  }
}
