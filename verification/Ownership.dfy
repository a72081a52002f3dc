/** The main results about the poll loop: every run keeps the descriptors and the connections in order. */
module Ownership {
  import opened Wire
  import opened Pollers
  import opened Apps
  import opened Callbacks
  import opened PollRuns

  /** Who owns what, at any moment of a pass: one open listener, all other handlers are connections; every
      open handler's descriptor is open in the kernel; and the kernel has nothing open but descriptors of
      handlers and `others`, the descriptors of the process that the poller knows nothing of. */
  ghost predicate Shape(p: Poller, lfd: int, others: set<int>) {
    && lfd in p.handlers && p.handlers[lfd].Listener? && p.handlers[lfd].isOpen
    && (forall fd :: fd in p.handlers && fd != lfd ==> p.handlers[fd].Conn?)
    && (forall fd :: fd in others ==> fd in p.kernel && fd !in p.handlers)
    && (forall fd :: fd in p.kernel ==> fd in p.handlers || fd in others)
    && (forall fd :: fd in p.handlers && IsOpen(p.handlers[fd]) ==> fd in p.kernel)
  }

  /** At the head of the loop every handler is open, too. */
  ghost predicate Settled(p: Poller, lfd: int, others: set<int>) {
    Shape(p, lfd, others) && forall fd :: fd in p.handlers ==> IsOpen(p.handlers[fd])
  }

  /** Every connection is sound, and the callbacks are well bracketed. */
  ghost predicate AllOk(p: Poller) {
    Bracketed(p.log) && forall x: int :: FdOk(p, x)
  }

  /** At the head of a pass: in it the listener is to accept a descriptor that is below its own and has a
      handler now. */
  predicate TakesKey(p: Poller, pass: Pass, lfd: int) {
    var script := ScriptOf(pass, lfd);
    script.revents.readable && script.accept.Accepts? && script.accept.fd < lfd && script.accept.fd in p.handlers
  }

  /** The kernel gives out descriptors above the listener's only. */
  predicate Above(pass: Pass, lfd: int) {
    forall fd :: fd in pass.fds && pass.fds[fd].accept.Accepts? ==> lfd < pass.fds[fd].accept.fd
  }

  /** The kernel gives out descriptors that are not open at the head of the pass. */
  predicate Fresh(p: Poller, pass: Pass) {
    forall fd :: fd in pass.fds && pass.fds[fd].accept.Accepts? ==> pass.fds[fd].accept.fd !in p.kernel
  }

  /** The kernel gives out descriptors that have no handler at the head of the pass. */
  predicate Free(p: Poller, pass: Pass) {
    forall fd :: fd in pass.fds && pass.fds[fd].accept.Accepts? ==> pass.fds[fd].accept.fd !in p.handlers
  }

  // ------------------------------------------------------------------ one event

  lemma QuietShape(p: Poller, q: Poller, lfd: int, others: set<int>)
    requires Shape(p, lfd, others) && Quiet(p, q)
    ensures Shape(q, lfd, others)
  {
  }

  lemma ConnEvent(p: Poller, pf: PollFd, script: FdScript)
    requires pf.fd in p.handlers && p.handlers[pf.fd].Conn? && Held(p, pf.fd) && AllOk(p)
    ensures var q := HandleEvent(p, pf, script); Quiet(p, q) && AllOk(q)
  {
    assert FdOk(p, pf.fd);
    var q := if pf.revents.readable then HandleRead(p, pf.fd, script.readCalls).0 else p;
    if pf.revents.readable {
      HandleReadQuiet(p, pf.fd, script.readCalls);
      forall x: int ensures FdOk(q, x) {
        HandleReadFd(p, pf.fd, script.readCalls, x);
      }
    }
    assert Quiet(p, q) && AllOk(q);
    var r := HandleEvent(p, pf, script);
    if r != q {
      assert FdOk(q, pf.fd);
      HandleWriteQuiet(q, pf.fd, script.writeCalls);
      QuietTransitive(p, q, r);
      forall x: int ensures FdOk(r, x) {
        HandleWriteFd(q, pf.fd, script.writeCalls, x);
      }
    }
  }

  /** At the head of the loop a descriptor that is not open in the kernel has no handler, so that nothing
      is overwritten when it is accepted. */
  lemma FreshKey(p: Poller, lfd: int, others: set<int>, answer: AcceptAnswer)
    requires Settled(p, lfd, others)
    ensures forall x :: x in p.kernel <==> x in p.handlers || x in others
    ensures answer.Accepts? && answer.fd !in p.kernel ==> answer.fd !in p.handlers
  {
  }

  /** accept and add_handler under a key that is free. */
  lemma Accepted(p: Poller, tls: bool, lfd: int, fd: int, others: set<int>)
    requires Shape(p, lfd, others) && AllOk(p)
    requires fd !in p.kernel && fd !in p.handlers
    ensures var q := ListenerRead(p, tls, Accepts(fd)); Shape(q, lfd, others) && AllOk(q)
  {
    assert FdOk(p, fd);
    LogOpened(p.log, fd, fd);
    var q := ListenerRead(p, tls, Accepts(fd));
    forall x: int ensures FdOk(q, x) {
      AddFd(p, tls, fd, p.kernel + {fd}, x);
    }
  }

  lemma Stopped(p: Poller, lfd: int, others: set<int>)
    requires AllOk(p)
    ensures AllOk(p.(running := false))
    ensures Shape(p, lfd, others) ==> Shape(p.(running := false), lfd, others)
    ensures Settled(p, lfd, others) ==> Settled(p.(running := false), lfd, others)
  {
    forall x: int ensures FdOk(p.(running := false), x) {
      assert FdOk(p, x);
    }
  }

  /** An event at the listener when all handlers from its own key on are still open: what it accepts is free,
      unless it has a handler below. */
  lemma ListenerEvent(p: Poller, pf: PollFd, script: FdScript, others: set<int>)
    requires Shape(p, pf.fd, others) && AllOk(p) && OpenFrom(p, pf.fd)
    requires pf.revents.readable && script.accept.Accepts? && script.accept.fd < pf.fd ==> script.accept.fd !in p.handlers
    ensures var q := HandleEvent(p, pf, script); Shape(q, pf.fd, others) && AllOk(q)
  {
    Stopped(p, pf.fd, others);
    if pf.revents.readable && script.accept.Accepts? && script.accept.fd !in p.kernel {
      Accepted(p, p.handlers[pf.fd].tls, pf.fd, script.accept.fd, others);
    }
  }

  /** When an accepted descriptor has no handler its new handler owns it; when it has one, that handler is
      closed, it is replaced, and its destructor closes the new descriptor. */
  lemma AcceptExact(p: Poller, tls: bool, fd: int)
    requires forall x :: x in p.handlers ==> Held(p, x)
    requires p.running && fd !in p.kernel
    ensures var q := ListenerRead(p, tls, Accepts(fd));
      && fd in q.handlers && IsOpen(q.handlers[fd])
      && (fd in q.kernel <==> fd !in p.handlers)
  {
  }

  /** An event leaves the open flags of all other handlers alone, takes no handler away, and opens a
      descriptor only by accepting it. */
  lemma EventFrame(p: Poller, pf: PollFd, script: FdScript, x: int)
    requires pf.fd in p.handlers && p.handlers[pf.fd].Conn? && x in p.handlers && x != pf.fd
    ensures var q := HandleEvent(p, pf, script);
      && x in q.handlers && IsOpen(q.handlers[x]) == IsOpen(p.handlers[x])
      && q.handlers[x].Conn? == p.handlers[x].Conn?
      && (forall fd :: fd in q.kernel ==> fd in p.kernel)
      && (forall fd :: fd in q.handlers ==> fd in p.handlers)
  {
    if pf.revents.readable {
      var (h, r, bufs) := ReadFrom(p, pf.fd, script.readCalls);
      if !r.Threw? && bufs != [] {
        OnReadFrame(h, pf.fd, bufs, x);
      }
    }
  }

  // ------------------------------------------------------------------ the scan

  ghost predicate OnlyConns(p: Poller, fds: seq<PollFd>) {
    forall i :: 0 <= i < |fds| ==> fds[i].fd in p.handlers && p.handlers[fds[i].fd].Conn?
  }

  /** The handlers from this key on are open. */
  ghost predicate OpenFrom(p: Poller, key: int) {
    forall fd :: fd in p.handlers && key <= fd ==> IsOpen(p.handlers[fd])
  }

  lemma ConnsStay(p: Poller, pf: PollFd, script: FdScript, fds: seq<PollFd>)
    requires pf.fd in p.handlers && p.handlers[pf.fd].Listener? && OnlyConns(p, fds)
    ensures OnlyConns(HandleEvent(p, pf, script), fds)
  {
  }

  lemma StepConns(p: Poller, fds: seq<PollFd>, pass: Pass, lfd: int, others: set<int>)
    requires Shape(p, lfd, others) && AllOk(p) && OnlyConns(p, fds) && fds != []
    ensures var q := HandleEvent(p, fds[0], ScriptOf(pass, fds[0].fd));
      && Shape(q, lfd, others) && AllOk(q) && SameKinds(p, q) && OnlyConns(q, fds[1..])
  {
    var script := ScriptOf(pass, fds[0].fd);
    ConnEvent(p, fds[0], script);
    QuietShape(p, HandleEvent(p, fds[0], script), lfd, others);
  }

  /** Behind the listener there are only connections, and nothing is accepted any more. */
  lemma {:induction false} ScanConns(p: Poller, fds: seq<PollFd>, active: int, pass: Pass, lfd: int, others: set<int>)
    requires Shape(p, lfd, others) && AllOk(p) && OnlyConns(p, fds)
    ensures var q := Scan(p, fds, active, pass); Shape(q, lfd, others) && AllOk(q) && SameKinds(p, q)
    decreases |fds|
  {
    if fds != [] {
      if fds[0].revents == NOTHING {
        ScanConns(p, fds[1..], active, pass, lfd, others);
      } else {
        StepConns(p, fds, pass, lfd, others);
        ScanConns(HandleEvent(p, fds[0], ScriptOf(pass, fds[0].fd)), fds[1..], active - 1, pass, lfd, others);
      }
    }
  }

  /** What is polled from some point of the scan on: ascending, all with a handler, the listener among it. */
  ghost predicate Ahead(p: Poller, fds: seq<PollFd>, lfd: int) {
    && Known(p, fds) && InOrder(fds)
    && exists i :: 0 <= i < |fds| && fds[i].fd == lfd
  }

  /** The answers are those of the pass. */
  predicate Answered(fds: seq<PollFd>, pass: Pass) {
    forall i :: 0 <= i < |fds| ==> (fds[i].revents.readable ==> ScriptOf(pass, fds[i].fd).revents.readable)
  }

  /** One event in front of the listener keeps what the rest of the scan relies on. */
  lemma StepAhead(p: Poller, fds: seq<PollFd>, pass: Pass, lfd: int, others: set<int>)
    requires Shape(p, lfd, others) && AllOk(p) && fds != [] && fds[0].fd != lfd && Ahead(p, fds, lfd)
    requires OpenFrom(p, fds[0].fd)
    ensures var q := HandleEvent(p, fds[0], ScriptOf(pass, fds[0].fd));
      && Shape(q, lfd, others) && AllOk(q) && SameKinds(p, q)
      && Ahead(q, fds[1..], lfd) && fds[1..] != [] && OpenFrom(q, fds[1].fd)
  {
    var script := ScriptOf(pass, fds[0].fd);
    var q := HandleEvent(p, fds[0], script);
    ConnEvent(p, fds[0], script);
    QuietShape(p, q, lfd, others);
    TailAhead(p, fds, lfd);
    forall fd | fd in q.handlers && fds[1].fd <= fd ensures IsOpen(q.handlers[fd]) {
      EventFrame(p, fds[0], script, fd);
    }
  }

  lemma TailAhead(p: Poller, fds: seq<PollFd>, lfd: int)
    requires Ahead(p, fds, lfd) && fds[0].fd != lfd
    ensures Ahead(p, fds[1..], lfd) && fds[1..] != [] && fds[0].fd < fds[1].fd
  {
    var i :| 0 <= i < |fds| && fds[i].fd == lfd;
    assert fds[1..][i - 1].fd == lfd;
  }

  lemma TailConns(p: Poller, fds: seq<PollFd>, lfd: int, others: set<int>)
    requires Shape(p, lfd, others) && Known(p, fds) && InOrder(fds) && fds != [] && fds[0].fd == lfd
    ensures OnlyConns(p, fds[1..])
  {
  }

  lemma {:induction false} ScanAhead(p: Poller, fds: seq<PollFd>, active: int, pass: Pass, lfd: int, others: set<int>)
    requires Shape(p, lfd, others) && AllOk(p) && Ahead(p, fds, lfd) && OpenFrom(p, fds[0].fd)
    requires Answered(fds, pass) && !TakesKey(p, pass, lfd)
    ensures var q := Scan(p, fds, active, pass); Shape(q, lfd, others) && AllOk(q)
    decreases |fds|
  {
    var script := ScriptOf(pass, fds[0].fd);
    if fds[0].fd == lfd {
      TailConns(p, fds, lfd, others);
      if fds[0].revents == NOTHING {
        ScanConns(p, fds[1..], active, pass, lfd, others);
      } else {
        ListenerEvent(p, fds[0], script, others);
        ConnsStay(p, fds[0], script, fds[1..]);
        ScanConns(HandleEvent(p, fds[0], script), fds[1..], active - 1, pass, lfd, others);
      }
    } else if fds[0].revents == NOTHING {
      TailAhead(p, fds, lfd);
      ScanAhead(p, fds[1..], active, pass, lfd, others);
    } else {
      StepAhead(p, fds, pass, lfd, others);
      ScanAhead(HandleEvent(p, fds[0], script), fds[1..], active - 1, pass, lfd, others);
    }
  }

  /** What is asked about one descriptor, and what poll reports. */
  lemma {:induction false} PolledAt(p: Poller, keys: seq<int>, pass: Pass, i: nat)
    requires KeysOf(p, keys) && i < |keys|
    ensures var pf := PollKernel(MakePollFds(p, keys, pass), pass)[i];
      && pf.fd == keys[i]
      && pf.events == Wants(p.handlers[keys[i]], ScriptOf(pass, keys[i]).bioWants)
      && pf.revents == And(pf.events, ScriptOf(pass, keys[i]).revents)
  {
    if i > 0 {
      PolledAt(p, keys[1..], pass, i - 1);
      assert MakePollFds(p, keys, pass)[1..] == MakePollFds(p, keys[1..], pass);
    }
  }

  lemma PassAnswer(p: Poller, pass: Pass, i: nat)
    requires i < |PassFds(p, pass)|
    ensures var pf := PassFds(p, pass)[i];
      && (pf.revents.readable ==> ScriptOf(pass, pf.fd).revents.readable)
      && (p.handlers[pf.fd].Listener? && ScriptOf(pass, pf.fd).revents.readable ==> pf.revents.readable)
  {
    PolledAt(p, KeysInOrder(p), pass, i);
  }

  lemma KeyPolled(p: Poller, keys: seq<int>, pass: Pass, fd: int) returns (i: nat)
    requires KeysOf(p, keys) && fd in keys
    ensures var fds := PollKernel(MakePollFds(p, keys, pass), pass);
      i < |fds| && fds[i].fd == fd && fds[i].events == Wants(p.handlers[fd], ScriptOf(pass, fd).bioWants)
  {
    i :| 0 <= i < |keys| && keys[i] == fd;
    PolledAt(p, keys, pass, i);
  }

  /** Every handler is polled, and asked for what it wants. */
  lemma Polled(p: Poller, pass: Pass, fd: int) returns (i: nat)
    requires fd in p.handlers
    ensures i < |PassFds(p, pass)| && PassFds(p, pass)[i].fd == fd
    ensures PassFds(p, pass)[i].events == Wants(p.handlers[fd], ScriptOf(pass, fd).bioWants)
  {
    i := KeyPolled(p, KeysInOrder(p), pass, fd);
  }

  /** All handlers are polled, the listener among them. */
  lemma PassAhead(p: Poller, pass: Pass, lfd: int, others: set<int>)
    requires Shape(p, lfd, others)
    ensures var fds := PassFds(p, pass);
      && Ahead(p, fds, lfd) && Answered(fds, pass)
      && (ScriptOf(pass, lfd).revents.readable ==> forall i :: 0 <= i < |fds| && fds[i].fd == lfd ==> fds[i].revents.readable)
  {
    var at := Polled(p, pass, lfd);
    var fds := PassFds(p, pass);
    assert fds[at].fd == lfd;
    forall i | 0 <= i < |fds|
      ensures fds[i].revents.readable ==> ScriptOf(pass, fds[i].fd).revents.readable
      ensures fds[i].fd == lfd && ScriptOf(pass, lfd).revents.readable ==> fds[i].revents.readable
    {
      PassAnswer(p, pass, i);
    }
  }

  /** One scan: what is accepted gets a key of its own, and every connection stays sound. */
  lemma ScanPass(p: Poller, pass: Pass, lfd: int, others: set<int>)
    requires Settled(p, lfd, others) && AllOk(p) && !TakesKey(p, pass, lfd)
    ensures var fds := PassFds(p, pass); var q := Scan(p, fds, CountActive(fds), pass);
      Shape(q, lfd, others) && AllOk(q)
  {
    PassAhead(p, pass, lfd, others);
    var fds := PassFds(p, pass);
    ScanAhead(p, fds, CountActive(fds), pass, lfd, others);
  }

  // ------------------------------------------------------------------ the end of a pass

  /** Removing a closed connection closes its own descriptor for good and no other. */
  lemma RemoveOne(p: Poller, fd: int, lfd: int, others: set<int>)
    requires Shape(p, lfd, others) && AllOk(p)
    requires fd in p.handlers && !IsOpen(p.handlers[fd])
    ensures var q := Remove(p, fd); Shape(q, lfd, others) && AllOk(q)
    ensures var q := Remove(p, fd);
      && fd !in q.kernel
      && (forall x :: x in q.handlers <==> x in p.handlers && x != fd)
      && (forall x :: x in q.handlers ==> q.handlers[x] == p.handlers[x])
      && (forall x :: x != fd ==> (x in q.kernel <==> x in p.kernel))
  {
    assert FdOk(p, fd);
    LogClosed(p.log, fd, fd);
    forall x: int ensures FdOk(Remove(p, fd), x) {
      RemoveFd(p, fd, x);
    }
  }

  ghost predicate AllClosed(p: Poller, fds: seq<int>) {
    forall fd :: fd in fds ==> fd in p.handlers && !IsOpen(p.handlers[fd])
  }

  lemma {:induction false} RemoveMany(p: Poller, fds: seq<int>, lfd: int, others: set<int>)
    requires Shape(p, lfd, others) && AllOk(p) && Ascending(fds) && KeysOf(p, fds) && AllClosed(p, fds)
    ensures var q := RemoveAll(p, fds);
      && Shape(q, lfd, others) && AllOk(q)
      && (forall x :: x in q.handlers <==> x in p.handlers && x !in fds)
      && (forall x :: x in q.handlers ==> q.handlers[x] == p.handlers[x])
    decreases |fds|
  {
    if fds != [] {
      AscendingTail(fds);
      RemoveStep(p, fds);
      RemoveOne(p, fds[0], lfd, others);
      RemoveMany(Remove(p, fds[0]), fds[1..], lfd, others);
    }
  }

  /** What is closed when the scan is over is removed, with its descriptor, and nothing else is. */
  lemma RemoveExact(q: Poller, lfd: int, others: set<int>, fd: int)
    requires Shape(q, lfd, others) && AllOk(q) && fd in q.handlers
    ensures var r := RemoveClosed(q);
      && Shape(r, lfd, others) && AllOk(r)
      && (fd in r.handlers <==> IsOpen(q.handlers[fd]))
      && (fd in r.handlers ==> r.handlers[fd] == q.handlers[fd])
      && (fd !in r.handlers ==> fd !in r.kernel)
  {
    var keys := KeysInOrder(q);
    ClosedFdsExact(q, keys);
    RemoveMany(q, ClosedFds(q, keys), lfd, others);
    assert fd in keys;
  }

  /** One pass of the loop: at the head of the next one every handler is open and the kernel has exactly
      the descriptors of the handlers open, besides those it does not know. */
  lemma PassKeeps(p: Poller, pass: Pass, lfd: int, others: set<int>)
    requires Settled(p, lfd, others) && AllOk(p) && !TakesKey(p, pass, lfd)
    ensures var q := RunPass(p, pass);
      && Shape(q, lfd, others) && AllOk(q) && (q.running ==> Settled(q, lfd, others))
  {
    Stopped(p, lfd, others);
    if !pass.pollFails {
      var fds := PassFds(p, pass);
      ScanPass(p, pass, lfd, others);
      var q := Scan(p, fds, CountActive(fds), pass);
      if q.running {
        ClosedFdsExact(q, KeysInOrder(q));
        RemoveMany(q, ClosedFds(q, KeysInOrder(q)), lfd, others);
      }
    }
  }

  // ------------------------------------------------------------------ when a pass loses a descriptor

  /** A handler is open, and its descriptor is not. */
  predicate Lost(p: Poller, fd: int) {
    fd in p.handlers && IsOpen(p.handlers[fd]) && fd !in p.kernel
  }

  lemma {:induction false} ScanLost(p: Poller, fds: seq<PollFd>, active: int, pass: Pass, fd: int)
    requires OnlyConns(p, fds) && Lost(p, fd) && forall i :: 0 <= i < |fds| ==> fds[i].fd != fd
    ensures Lost(Scan(p, fds, active, pass), fd)
    decreases |fds|
  {
    if fds != [] {
      if fds[0].revents == NOTHING {
        ScanLost(p, fds[1..], active, pass, fd);
      } else {
        var script := ScriptOf(pass, fds[0].fd);
        var q := HandleEvent(p, fds[0], script);
        EventFrame(p, fds[0], script, fd);
        forall i | 0 <= i < |fds[1..]| ensures fds[1..][i].fd in q.handlers && q.handlers[fds[1..][i].fd].Conn? {
          ConnStays(p, fds[0], script, fds[i + 1].fd);
        }
        ScanLost(q, fds[1..], active - 1, pass, fd);
      }
    }
  }

  lemma ConnStays(p: Poller, pf: PollFd, script: FdScript, x: int)
    requires pf.fd in p.handlers && p.handlers[pf.fd].Conn? && x in p.handlers && p.handlers[x].Conn?
    ensures var q := HandleEvent(p, pf, script); x in q.handlers && q.handlers[x].Conn?
  {
  }

  /** The listener's own event, when it accepts a key: the poller stops, or the descriptor is lost. */
  lemma ListenerLoses(p: Poller, pf: PollFd, script: FdScript, others: set<int>)
    requires Shape(p, pf.fd, others) && pf.revents.readable
    requires script.accept.Accepts? && script.accept.fd in p.handlers
    ensures var q := HandleEvent(p, pf, script); q.running ==> Lost(q, script.accept.fd)
  {
    if p.running && script.accept.fd !in p.kernel {
      AcceptExact(p, p.handlers[pf.fd].tls, script.accept.fd);
    }
  }

  lemma ListenerScanLoses(p: Poller, fds: seq<PollFd>, active: int, pass: Pass, lfd: int, others: set<int>)
    requires Shape(p, lfd, others) && Known(p, fds) && InOrder(fds) && fds != [] && fds[0].fd == lfd
    requires TakesKey(p, pass, lfd) && fds[0].revents.readable
    ensures var q := Scan(p, fds, active, pass); q.running ==> Lost(q, ScriptOf(pass, lfd).accept.fd)
  {
    var script := ScriptOf(pass, lfd);
    TailConns(p, fds, lfd, others);
    ListenerLoses(p, fds[0], script, others);
    ConnsStay(p, fds[0], script, fds[1..]);
    var q := HandleEvent(p, fds[0], script);
    if q.running {
      ScanLost(q, fds[1..], active - 1, pass, script.accept.fd);
    }
  }

  /** A scan in which the listener accepts a key below its own. */
  lemma {:induction false} ScanLoses(p: Poller, fds: seq<PollFd>, pass: Pass, lfd: int, others: set<int>)
    requires Shape(p, lfd, others) && AllOk(p) && Ahead(p, fds, lfd) && OpenFrom(p, fds[0].fd) && TakesKey(p, pass, lfd)
    requires forall i :: 0 <= i < |fds| && fds[i].fd == lfd ==> fds[i].revents.readable
    ensures var q := Scan(p, fds, CountActive(fds), pass); q.running ==> Lost(q, ScriptOf(pass, lfd).accept.fd)
    decreases |fds|
  {
    if fds[0].fd == lfd {
      ListenerScanLoses(p, fds, CountActive(fds), pass, lfd, others);
    } else {
      TailAhead(p, fds, lfd);
      ListenerActive(fds[1..], lfd);
      if fds[0].revents == NOTHING {
        ScanLoses(p, fds[1..], pass, lfd, others);
      } else {
        StepAhead(p, fds, pass, lfd, others);
        ScanLoses(HandleEvent(p, fds[0], ScriptOf(pass, fds[0].fd)), fds[1..], pass, lfd, others);
      }
    }
  }

  /** While the listener is still to come, the count is not used up. */
  lemma {:induction false} ListenerActive(fds: seq<PollFd>, lfd: int)
    requires exists i :: 0 <= i < |fds| && fds[i].fd == lfd && fds[i].revents.readable
    ensures CountActive(fds) > 0
  {
    var i :| 0 <= i < |fds| && fds[i].fd == lfd && fds[i].revents.readable;
    if i > 0 {
      assert fds[1..][i - 1] == fds[i];
      ListenerActive(fds[1..], lfd);
    }
  }

  lemma {:induction false} RemoveLost(p: Poller, fds: seq<int>, fd: int)
    requires Ascending(fds) && KeysOf(p, fds) && Lost(p, fd) && fd !in fds
    ensures Lost(RemoveAll(p, fds), fd)
    decreases |fds|
  {
    if fds != [] {
      RemoveStep(p, fds);
      RemoveLost(Remove(p, fds[0]), fds[1..], fd);
    }
  }

  /** A pass in which the listener accepts a key below its own stops, or loses that descriptor. */
  lemma PassLoses(p: Poller, pass: Pass, lfd: int, others: set<int>)
    requires Settled(p, lfd, others) && AllOk(p) && TakesKey(p, pass, lfd)
    ensures var q := RunPass(p, pass); q.running ==> Lost(q, ScriptOf(pass, lfd).accept.fd)
  {
    if !pass.pollFails {
      PassAhead(p, pass, lfd, others);
      var fds := PassFds(p, pass);
      ScanLoses(p, fds, pass, lfd, others);
      var q := Scan(p, fds, CountActive(fds), pass);
      if q.running {
        var keys := KeysInOrder(q);
        ClosedFdsExact(q, keys);
        RemoveLost(q, ClosedFds(q, keys), ScriptOf(pass, lfd).accept.fd);
      }
    }
  }

  /** Exactly when a pass that the loop survives leaves everything in order. */
  lemma PassExact(p: Poller, pass: Pass, lfd: int, others: set<int>)
    requires Settled(p, lfd, others) && AllOk(p)
    ensures RunPass(p, pass).running ==> (Settled(RunPass(p, pass), lfd, others) <==> !TakesKey(p, pass, lfd))
  {
    if TakesKey(p, pass, lfd) {
      PassLoses(p, pass, lfd, others);
    } else {
      PassKeeps(p, pass, lfd, others);
    }
  }

  // ------------------------------------------------------------------ every run

  /** In no pass of the run does the listener accept a descriptor below its own that has a handler at the head
      of the pass. */
  ghost predicate Spared(p: Poller, passes: seq<Pass>, lfd: int) {
    forall k :: 0 <= k < |passes| && Run(p, passes[..k]).running ==> !TakesKey(Run(p, passes[..k]), passes[k], lfd)
  }

  /** The last pass of a run. */
  lemma {:induction false} RunLast(p: Poller, passes: seq<Pass>, last: Pass)
    ensures var q := Run(p, passes);
      Run(p, passes + [last]) == if q.running then RunPass(q, last) else q
    decreases |passes|
  {
    if passes == [] {
      assert [] + [last] == [last] && [last][1..] == [];
    } else {
      assert (passes + [last])[1..] == passes[1..] + [last];
      if p.running {
        RunLast(RunPass(p, passes[0]), passes[1..], last);
      }
    }
  }

  lemma SparedFront(p: Poller, passes: seq<Pass>, lfd: int)
    requires Spared(p, passes, lfd) && passes != []
    ensures var n := |passes| - 1;
      && passes == passes[..n] + [passes[n]] && Spared(p, passes[..n], lfd)
      && (Run(p, passes[..n]).running ==> !TakesKey(Run(p, passes[..n]), passes[n], lfd))
  {
    var n := |passes| - 1;
    forall k | 0 <= k < n && Run(p, passes[..n][..k]).running ensures !TakesKey(Run(p, passes[..n][..k]), passes[..n][k], lfd) {
      assert passes[..n][..k] == passes[..k];
    }
  }

  /** Every run from a sound state: descriptors, connections and callbacks stay in order. */
  lemma {:induction false} LoopKeeps(p: Poller, passes: seq<Pass>, lfd: int, others: set<int>)
    requires Shape(p, lfd, others) && AllOk(p) && (p.running ==> Settled(p, lfd, others))
    requires Spared(p, passes, lfd)
    ensures var q := Run(p, passes);
      && Shape(q, lfd, others) && AllOk(q) && (q.running ==> Settled(q, lfd, others))
    decreases |passes|
  {
    if passes != [] {
      var n := |passes| - 1;
      SparedFront(p, passes, lfd);
      RunLast(p, passes[..n], passes[n]);
      LoopKeeps(p, passes[..n], lfd, others);
      if Run(p, passes[..n]).running {
        PassKeeps(Run(p, passes[..n]), passes[n], lfd, others);
      }
    }
  }

  /** Everything is in order at every loop head of the run. */
  ghost predicate AlwaysSettled(p: Poller, passes: seq<Pass>, lfd: int, others: set<int>) {
    forall k :: 0 <= k <= |passes| && Run(p, passes[..k]).running ==> Settled(Run(p, passes[..k]), lfd, others)
  }

  /** No pass that the loop survived took a key. */
  ghost predicate SparedSoFar(p: Poller, passes: seq<Pass>, lfd: int) {
    forall k :: 0 <= k < |passes| && Run(p, passes[..k + 1]).running ==> !TakesKey(Run(p, passes[..k]), passes[k], lfd)
  }

  lemma NextHead(p: Poller, passes: seq<Pass>, k: nat)
    requires k < |passes|
    ensures var q := Run(p, passes[..k]);
      Run(p, passes[..k + 1]) == if q.running then RunPass(q, passes[k]) else q
  {
    assert passes[..k + 1] == passes[..k] + [passes[k]];
    RunLast(p, passes[..k], passes[k]);
  }

  lemma HeadKeeps(p: Poller, pass: Pass, lfd: int, others: set<int>)
    requires Settled(p, lfd, others) && AllOk(p)
    ensures var q := RunPass(p, pass);
      q.running && (Settled(q, lfd, others) || !TakesKey(p, pass, lfd)) ==> Settled(q, lfd, others) && AllOk(q)
  {
    PassExact(p, pass, lfd, others);
    if !TakesKey(p, pass, lfd) {
      PassKeeps(p, pass, lfd, others);
    }
  }

  lemma {:induction false} HeadsKeep(p: Poller, passes: seq<Pass>, k: nat, lfd: int, others: set<int>)
    requires Settled(p, lfd, others) && AllOk(p) && k <= |passes|
    requires SparedSoFar(p, passes, lfd) || AlwaysSettled(p, passes, lfd, others)
    ensures var q := Run(p, passes[..k]); q.running ==> Settled(q, lfd, others) && AllOk(q)
    decreases k
  {
    if k > 0 {
      HeadsKeep(p, passes, k - 1, lfd, others);
      NextHead(p, passes, k - 1);
      var q := Run(p, passes[..k - 1]);
      if Run(p, passes[..k]).running {
        assert Settled(RunPass(q, passes[k - 1]), lfd, others) || !TakesKey(q, passes[k - 1], lfd);
        HeadKeeps(q, passes[k - 1], lfd, others);
      }
    }
  }

  /** Exactly when descriptors stay owned over a run: at every loop head all is in order if and only if no pass
      that led to one took a key. */
  lemma RunExact(p: Poller, passes: seq<Pass>, lfd: int, others: set<int>)
    requires Settled(p, lfd, others) && AllOk(p)
    ensures AlwaysSettled(p, passes, lfd, others) <==> SparedSoFar(p, passes, lfd)
  {
    if AlwaysSettled(p, passes, lfd, others) {
      forall k | 0 <= k < |passes| && Run(p, passes[..k + 1]).running ensures !TakesKey(Run(p, passes[..k]), passes[k], lfd) {
        HeadsKeep(p, passes, k, lfd, others);
        NextHead(p, passes, k);
        PassExact(Run(p, passes[..k]), passes[k], lfd, others);
      }
    }
    if SparedSoFar(p, passes, lfd) {
      forall k | 0 <= k <= |passes| && Run(p, passes[..k]).running ensures Settled(Run(p, passes[..k]), lfd, others) {
        HeadsKeep(p, passes, k, lfd, others);
      }
    }
  }

  // ------------------------------------------------------------------ a listener below all connections

  /** No handler is below the listener's. */
  ghost predicate Lowest(p: Poller, lfd: int) {
    forall fd :: fd in p.handlers ==> lfd <= fd
  }

  lemma {:induction false} ScanLowest(p: Poller, fds: seq<PollFd>, active: int, pass: Pass, lfd: int)
    requires Known(p, fds) && Lowest(p, lfd) && Above(pass, lfd)
    ensures Lowest(Scan(p, fds, active, pass), lfd)
    decreases |fds|
  {
    if fds != [] {
      if fds[0].revents == NOTHING {
        ScanLowest(p, fds[1..], active, pass, lfd);
      } else {
        ScanLowest(HandleEvent(p, fds[0], ScriptOf(pass, fds[0].fd)), fds[1..], active - 1, pass, lfd);
      }
    }
  }

  lemma {:induction false} RemoveLowest(p: Poller, fds: seq<int>, lfd: int)
    requires Ascending(fds) && KeysOf(p, fds) && Lowest(p, lfd)
    ensures Lowest(RemoveAll(p, fds), lfd)
    decreases |fds|
  {
    if fds != [] {
      RemoveStep(p, fds);
      RemoveLowest(Remove(p, fds[0]), fds[1..], lfd);
    }
  }

  lemma PassLowest(p: Poller, pass: Pass, lfd: int)
    requires Lowest(p, lfd) && Above(pass, lfd)
    ensures Lowest(RunPass(p, pass), lfd)
  {
    if !pass.pollFails {
      var fds := PassFds(p, pass);
      ScanLowest(p, fds, CountActive(fds), pass, lfd);
      var q := Scan(p, fds, CountActive(fds), pass);
      ClosedFdsExact(q, KeysInOrder(q));
      RemoveLowest(q, ClosedFds(q, KeysInOrder(q)), lfd);
    }
  }

  lemma {:induction false} RunLowest(p: Poller, passes: seq<Pass>, lfd: int)
    requires Lowest(p, lfd) && forall k :: 0 <= k < |passes| ==> Above(passes[k], lfd)
    ensures Lowest(Run(p, passes), lfd)
    decreases |passes|
  {
    if passes != [] && p.running {
      PassLowest(p, passes[0], lfd);
      RunLowest(RunPass(p, passes[0]), passes[1..], lfd);
    }
  }

  /** Then key order puts the listener first. */
  lemma ListenerFirst(p: Poller, pass: Pass, lfd: int, others: set<int>)
    requires Shape(p, lfd, others) && Lowest(p, lfd)
    ensures var fds := PassFds(p, pass);
      && fds != [] && fds[0].fd == lfd && OnlyConns(p, fds[1..])
  {
    var keys := KeysInOrder(p);
    assert lfd in keys;
    AscendingTail(keys);
    TailConns(p, PassFds(p, pass), lfd, others);
  }

  // ------------------------------------------------------------------ the scan, looked at as a whole

  /** The descriptors with something to report. */
  function Active(fds: seq<PollFd>): seq<PollFd> {
    if fds == [] then [] else (if fds[0].revents == NOTHING then [] else [fds[0]]) + Active(fds[1..])
  }

  /** Dispatch every one of them, until an exception leaves the loop. */
  function DispatchAll(p: Poller, fds: seq<PollFd>, pass: Pass): Poller
    requires forall i :: 0 <= i < |fds| ==> fds[i].fd in p.handlers
    decreases |fds|
  {
    if fds == [] || !p.running then p
    else DispatchAll(HandleEvent(p, fds[0], ScriptOf(pass, fds[0].fd)), fds[1..], pass)
  }

  lemma {:induction false} ActiveCount(fds: seq<PollFd>)
    ensures |Active(fds)| == CountActive(fds)
    ensures forall i :: 0 <= i < |Active(fds)| ==> Active(fds)[i] in fds
  {
    if fds != [] {
      ActiveCount(fds[1..]);
    }
  }

  predicate InOrder(fds: seq<PollFd>) {
    forall i, j :: 0 <= i < j < |fds| ==> fds[i].fd < fds[j].fd
  }

  /** They are dispatched in ascending order, each once. */
  lemma {:induction false} ActiveInOrder(fds: seq<PollFd>)
    requires InOrder(fds)
    ensures InOrder(Active(fds))
    ensures forall pf :: pf in Active(fds) <==> pf in fds && pf.revents != NOTHING
  {
    if fds != [] {
      assert fds == [fds[0]] + fds[1..];
      ActiveInOrder(fds[1..]);
      var rest := Active(fds[1..]);
      forall i | 0 <= i < |rest| ensures fds[0].fd < rest[i].fd {
        assert rest[i] in rest;
      }
    }
  }

  lemma ActiveKnown(p: Poller, fds: seq<PollFd>)
    requires forall i :: 0 <= i < |fds| ==> fds[i].fd in p.handlers
    ensures forall i :: 0 <= i < |Active(fds)| ==> Active(fds)[i].fd in p.handlers
  {
    ActiveCount(fds);
  }

  /** Stopping when the count is used up misses no descriptor and dispatches none twice. */
  lemma {:induction false} EarlyExit(p: Poller, fds: seq<PollFd>, pass: Pass)
    requires p.running
    requires forall i :: 0 <= i < |fds| ==> fds[i].fd in p.handlers
    ensures forall i :: 0 <= i < |Active(fds)| ==> Active(fds)[i].fd in p.handlers
    ensures Scan(p, fds, CountActive(fds), pass) == DispatchAll(p, Active(fds), pass)
    decreases |fds|
  {
    ActiveKnown(p, fds);
    if fds != [] {
      ActiveCount(fds[1..]);
      if fds[0].revents == NOTHING {
        assert Active(fds) == Active(fds[1..]);
        EarlyExit(p, fds[1..], pass);
      } else {
        var q := HandleEvent(p, fds[0], ScriptOf(pass, fds[0].fd));
        assert Active(fds)[0] == fds[0] && Active(fds)[1..] == Active(fds[1..]);
        ActiveKnown(q, fds[1..]);
        assert DispatchAll(p, Active(fds), pass) == DispatchAll(q, Active(fds[1..]), pass);
        if q.running && CountActive(fds) != 1 {
          EarlyExit(q, fds[1..], pass);
        }
      }
    }
  }
}
