/** What the echo server and the chat server get done: over every run from their start, and for the pass after it. */
module ServerProgress {
  import opened Wire
  import opened TcpStreams
  import opened Handlers
  import opened HandlerProgress
  import opened Pollers
  import opened Apps
  import opened Callbacks
  import opened PollRuns
  import opened Ownership
  import opened Kinds
  import opened PollProgress
  import opened ServerTheorems

  /** The run has come to a loop head, and the pass after it is not cut short by poll or by accept. */
  ghost predicate GoesOn(app: App, lfd: int, tls: bool, others: set<int>, passes: seq<Pass>, next: Pass) {
    var p := Run(Start(app, lfd, tls, others), passes);
    && Environment(app, lfd, tls, others, passes + [next])
    && p.running && !next.pollFails && CanAccept(p, next, lfd)
  }

  /** The state at that loop head, and the connection on a descriptor there. */
  function Head(app: App, lfd: int, tls: bool, others: set<int>, passes: seq<Pass>): Poller {
    Run(Start(app, lfd, tls, others), passes)
  }

  predicate Connected(p: Poller, x: int) {
    x in p.handlers && p.handlers[x].Conn?
  }

  lemma AtHead(app: App, lfd: int, tls: bool, others: set<int>, passes: seq<Pass>, next: Pass)
    requires GoesOn(app, lfd, tls, others, passes, next)
    ensures var p := Head(app, lfd, tls, others, passes);
      && Settled(p, lfd, others) && AllOk(p) && !TakesKey(p, next, lfd) && AllServed(p, tls)
      && p.app.Echo? == app.Echo?
      && RunPass(p, next).running
  {
    OneMore(app, lfd, tls, others, passes, next);
    StartRun(app, lfd, tls, others, passes);
    RunKinds(Start(app, lfd, tls, others), passes, tls);
    PassRuns(Head(app, lfd, tls, others, passes), next, lfd, others);
  }

  /** What the event of a connection finds when it is dispatched: the connection of the loop head, to which others may
      have written since. */
  lemma Found(p: Poller, pass: Pass, lfd: int, tls: bool, others: set<int>, x: int) returns (a: Poller, pf: PollFd)
    requires Settled(p, lfd, others) && AllOk(p) && !TakesKey(p, pass, lfd) && AllServed(p, tls)
    requires p.running && CanAccept(p, pass, lfd)
    requires Connected(p, x) && Report(p, pass, x) != NOTHING
    ensures pf.fd == x && pf.revents == Report(p, pass, x)
    ensures Alike(p, a, x) && FdOk(p, x) && FdOk(a, x) && Held(a, x)
    ensures Alike(HandleEvent(a, pf, ScriptOf(pass, x)), Scanned(p, pass), x)
    ensures p.handlers[x].handler.readSize == 8096 && p.handlers[x].handler.writeSize == 8096
    ensures HandlerOk(p.handlers[x].handler) && IsOpen(p.handlers[x])
  {
    a, pf := PassDispatch(p, pass, lfd, others, x);
    assert FdOk(p, x) && FdOk(a, x);
  }

  // ------------------------------------------------------------------ the kind of a connection

  /** Over every run, and after every scan, a connection is TLS if and only if the listener is, does not check its
      peer, and reads and writes 8096 bytes at a time; a plain one stays in START, and of a TLS one nothing is
      delivered or sent before its handshake is over. */
  lemma Secured(app: App, lfd: int, tls: bool, others: set<int>, passes: seq<Pass>, last: Pass, x: int)
    requires Environment(app, lfd, tls, others, passes + [last])
    ensures var p := Head(app, lfd, tls, others, passes);
      Connected(p, x) && p.running ==> SecuredOne(p, tls, x)
    ensures var p := Head(app, lfd, tls, others, passes); var q := Scanned(p, last);
      Connected(q, x) && p.running ==> SecuredOne(q, tls, x)
  {
    var p := Head(app, lfd, tls, others, passes);
    RunKinds(Start(app, lfd, tls, others), passes, tls);
    var fds := PassFds(p, last);
    ScanKinds(p, fds, CountActive(fds), last, tls);
    BeforeRemoval(app, lfd, tls, others, passes, last);
    if p.running {
      assert FdOk(p, x) && FdOk(Scanned(p, last), x);
      if Connected(p, x) {
        SecuredFrom(p, tls, x);
      }
      if Connected(Scanned(p, last), x) {
        SecuredFrom(Scanned(p, last), tls, x);
      }
    }
  }

  lemma SecuredFrom(p: Poller, tls: bool, x: int)
    requires AllServed(p, tls) && Connected(p, x) && FdOk(p, x)
    ensures SecuredOne(p, tls, x)
  {
  }

  predicate SecuredOne(p: Poller, tls: bool, x: int)
    requires Connected(p, x)
  {
    var h := p.handlers[x].handler;
    && Served(h, tls)
    && (h.stream.state == START <==> !tls)
    && (tls && (Delivered(p.log, x) != [] || h.stream.bio.sent != []) ==> h.stream.bio.handshaken)
  }

  // ------------------------------------------------------------------ one pass

  /** Exactly when the loop goes on after a pass, at every loop head of every run. */
  lemma Stops(app: App, lfd: int, tls: bool, others: set<int>, passes: seq<Pass>, next: Pass)
    requires Environment(app, lfd, tls, others, passes + [next]) && Head(app, lfd, tls, others, passes).running
    ensures var p := Head(app, lfd, tls, others, passes); var script := ScriptOf(next, lfd);
      RunPass(p, next).running <==>
        !next.pollFails && (script.revents.readable ==> script.accept.Accepts? && script.accept.fd !in p.kernel)
  {
    OneMore(app, lfd, tls, others, passes, next);
    StartRun(app, lfd, tls, others, passes);
    PassRuns(Head(app, lfd, tls, others, passes), next, lfd, others);
  }

  /** A client that is accepted is connected, with a stream of the listener's kind, open, and with nothing read, sent or
      delivered; and so it is when the pass is over. */
  lemma Admits(app: App, lfd: int, tls: bool, others: set<int>, passes: seq<Pass>, next: Pass)
    requires GoesOn(app, lfd, tls, others, passes, next) && ScriptOf(next, lfd).revents.readable
    ensures var fd := ScriptOf(next, lfd).accept.fd; var r := RunPass(Head(app, lfd, tls, others, passes), next);
      && Connected(r, fd) && fd in r.kernel && Delivered(r.log, fd) == []
      && Grown(NewConn(tls), r.handlers[fd].handler)
      && r.handlers[fd].handler.stream == if tls then TlsStream(false) else PlainStream()
  {
    AtHead(app, lfd, tls, others, passes, next);
    var p := Head(app, lfd, tls, others, passes);
    var fd := ScriptOf(next, lfd).accept.fd;
    PassAhead(p, next, lfd, others);
    var fds := PassFds(p, next);
    AheadAccepts(p, fds, next, lfd, others);
    PassLeaves(p, next, lfd, others, fd);
    PassKeeps(p, next, lfd, others);
  }

  /** What a client sends is delivered: all chunks that arrive at a connection that is reported readable, in the pass
      in which it is. */
  lemma Arrives(
      app: App, lfd: int, tls: bool, others: set<int>, passes: seq<Pass>, next: Pass, x: int,
      chunks: seq<Bytes>, rest: seq<Answers>)
    requires GoesOn(app, lfd, tls, others, passes, next)
    requires var p, script := Head(app, lfd, tls, others, passes), ScriptOf(next, x);
      && Connected(p, x) && Established(p.handlers[x].handler.stream)
      && script.revents.readable && script.readCalls == Arrivals(chunks) + rest
      && Fit(chunks, 8096) && Halts(p.handlers[x].handler.stream, rest)
    ensures var p := Head(app, lfd, tls, others, passes);
      Delivered(Scanned(p, next).log, x) == Delivered(p.log, x) + chunks
  {
    AtHead(app, lfd, tls, others, passes, next);
    var p := Head(app, lfd, tls, others, passes);
    var a, pf := Found(p, next, lfd, tls, others, x);
    EventDelivers(a, pf, ScriptOf(next, x), chunks, rest);
  }

  /** The handshake of a connection goes on to its end in the pass in which the peer completes it. */
  lemma Shakes(app: App, lfd: int, tls: bool, others: set<int>, passes: seq<Pass>, next: Pass, x: int)
    requires GoesOn(app, lfd, tls, others, passes, next)
    requires var p, script := Head(app, lfd, tls, others, passes), ScriptOf(next, x);
      && Connected(p, x) && p.handlers[x].handler.stream.state == HANDSHAKE
      && script.revents.readable && !script.revents.writable
      && script.readCalls != [] && script.readCalls[0].handshake.Done? && script.readCalls[0].read.ReadRetry?
    ensures var r := RunPass(Head(app, lfd, tls, others, passes), next);
      && Connected(r, x) && Established(r.handlers[x].handler.stream) && r.handlers[x].handler.stream.state == DATA
      && r.handlers[x].handler.stream.bio.handshaken
  {
    AtHead(app, lfd, tls, others, passes, next);
    var p := Head(app, lfd, tls, others, passes);
    var a, pf := Found(p, next, lfd, tls, others, x);
    EventShakes(a, pf, ScriptOf(next, x));
    PassLeaves(p, next, lfd, others, x);
    BeforeRemoval(app, lfd, tls, others, passes, next);
    assert FdOk(Scanned(p, next), x);
    StateStays(a, pf, ScriptOf(next, x));
  }

  lemma StateStays(a: Poller, pf: PollFd, script: FdScript)
    requires Connected(a, pf.fd) && FdOk(a, pf.fd) && pf.revents.readable && !pf.revents.writable
    requires var s, calls := a.handlers[pf.fd].handler.stream, script.readCalls;
      && s.isOpen && s.state == HANDSHAKE && calls != [] && Ready(s, calls[0]) && calls[0].read.ReadRetry?
    ensures var q := HandleEvent(a, pf, script); Connected(q, pf.fd) && q.handlers[pf.fd].handler.stream.state == DATA
  {
    ReadShakes(a.handlers[pf.fd].handler, script.readCalls);
  }

  /** What a connection reads in a pass, if it is reported readable, and reading leaves it open. */
  predicate Reads(p: Poller, script: FdScript, chunks: seq<Bytes>, rest: seq<Answers>) {
    script.revents.readable ==>
      && script.readCalls == Arrivals(chunks) + rest && Fit(chunks, 8096) && Pauses(rest)
      && (p.app.Echo? ==> KILLME !in chunks)
  }

  /** The connection has something to write, is reported writable, and its stream takes something of each call. */
  predicate Writes(p: Poller, script: FdScript, x: int)
    requires Connected(p, x)
  {
    && Established(p.handlers[x].handler.stream)
    && script.revents.writable && (p.handlers[x].handler.writeQueue != [] || script.bioWants.writable)
    && forall i :: 0 <= i < |script.writeCalls.calls| ==> Accepting(script.writeCalls.calls[i])
  }

  function Newly(script: FdScript, chunks: seq<Bytes>): seq<Bytes> {
    if script.revents.readable then chunks else []
  }

  /** What is queued is sent: in a pass in which a connection is reported writable, and its stream takes something of
      each call, all that it had sent or queued at the head of the pass has been sent after it, provided that there
      are as many calls as bytes. */
  lemma Departs(
      app: App, lfd: int, tls: bool, others: set<int>, passes: seq<Pass>, next: Pass, x: int,
      chunks: seq<Bytes>, rest: seq<Answers>)
    requires GoesOn(app, lfd, tls, others, passes, next)
    requires var p, script := Head(app, lfd, tls, others, passes), ScriptOf(next, x);
      && Connected(p, x) && Reads(p, script, chunks, rest) && Writes(p, script, x)
      && |Unsent(p.handlers[x].handler.writeQueue)| <= |script.writeCalls.calls|
    ensures var p := Head(app, lfd, tls, others, passes); var q := Scanned(p, next);
      Connected(q, x) && Output(p.handlers[x].handler) <= q.handlers[x].handler.stream.bio.sent
    ensures var p := Head(app, lfd, tls, others, passes); var r := RunPass(p, next);
      !ScriptOf(next, x).writeCalls.wantWrite ==>
        && Connected(r, x) && Established(r.handlers[x].handler.stream)
        && Output(p.handlers[x].handler) <= r.handlers[x].handler.stream.bio.sent
        && Failures(r.log, x) == Failures(p.log, x)
  {
    AtHead(app, lfd, tls, others, passes, next);
    var p, script := Head(app, lfd, tls, others, passes), ScriptOf(next, x);
    var a, pf := Found(p, next, lfd, tls, others, x);
    var h, g := p.handlers[x].handler, a.handlers[x].handler;
    GrownOutput(h, g);
    var n := |Unsent(h.writeQueue)|;
    EventServes(a, pf, script, chunks, rest, n);
    var t := HandleEvent(a, pf, script).handlers[x].handler;
    SentPrefix(h, g, t.stream.bio.sent, Answer(a.app, Got(pf, chunks)));
    if !script.writeCalls.wantWrite {
      PassLeaves(p, next, lfd, others, x);
    }
  }

  /** Bytes sent in order, and enough of them, begin with what was to be sent first. */
  lemma SentPrefix(h: Handler, g: Handler, sent: Bytes, more: Bytes)
    requires Output(h) <= Output(g) && sent <= Output(g) + more
    requires |sent| >= |h.stream.bio.sent| + |Unsent(h.writeQueue)|
    ensures Output(h) <= sent
  {
    assert |Output(h)| == |h.stream.bio.sent| + |Unsent(h.writeQueue)|;
    assert Output(h) == Output(g)[..|Output(h)|] == (Output(g) + more)[..|Output(h)|] == sent[..|Output(h)|];
  }

  /** In the echo server that includes what it has just read: when there are as many calls as bytes its queue is empty
      after the pass, and all that has ever been delivered from the connection has been sent back. */
  lemma Echoes(
      lfd: int, tls: bool, others: set<int>, passes: seq<Pass>, next: Pass, x: int,
      chunks: seq<Bytes>, rest: seq<Answers>)
    requires GoesOn(Echo, lfd, tls, others, passes, next)
    requires var p, script := Head(Echo, lfd, tls, others, passes), ScriptOf(next, x);
      && Connected(p, x) && Reads(p, script, chunks, rest) && Writes(p, script, x) && !script.writeCalls.wantWrite
      && |Unsent(p.handlers[x].handler.writeQueue)| + |Flatten(Newly(script, chunks))| <= |script.writeCalls.calls|
    ensures var p, script := Head(Echo, lfd, tls, others, passes), ScriptOf(next, x); var r := RunPass(p, next);
      && Connected(r, x) && Established(r.handlers[x].handler.stream)
      && r.handlers[x].handler.writeQueue == []
      && Delivered(r.log, x) == Delivered(p.log, x) + Newly(script, chunks)
      && r.handlers[x].handler.stream.bio.sent == Flatten(Delivered(r.log, x))
  {
    AtHead(Echo, lfd, tls, others, passes, next);
    var p, script := Head(Echo, lfd, tls, others, passes), ScriptOf(next, x);
    var a, pf := Found(p, next, lfd, tls, others, x);
    assert Got(pf, chunks) == Newly(script, chunks);
    EventServes(a, pf, script, chunks, rest, |Unsent(p.handlers[x].handler.writeQueue)| + |Flatten(Newly(script, chunks))|);
    PassLeaves(p, next, lfd, others, x);
    EchoedAll(lfd, tls, others, passes, next, x);
  }

  /** After the pass, too, what is sent and queued is what was delivered. */
  lemma EchoedAll(lfd: int, tls: bool, others: set<int>, passes: seq<Pass>, next: Pass, x: int)
    requires GoesOn(Echo, lfd, tls, others, passes, next)
    ensures var r := RunPass(Head(Echo, lfd, tls, others, passes), next);
      Connected(r, x) ==> Output(r.handlers[x].handler) == Flatten(Delivered(r.log, x))
  {
    AtHead(Echo, lfd, tls, others, passes, next);
    RunLast(Start(Echo, lfd, tls, others), passes, next);
    EchoConservation(lfd, tls, others, passes + [next], x);
  }

  /** A write that fails is reported by on_error, once, and the connection is gone with its descriptor when the pass is
      over; a connection that is not readable then is given no time to lose anything else. */
  lemma Breaks(app: App, lfd: int, tls: bool, others: set<int>, passes: seq<Pass>, next: Pass, x: int)
    requires GoesOn(app, lfd, tls, others, passes, next)
    requires var p, script := Head(app, lfd, tls, others, passes), ScriptOf(next, x);
      && Connected(p, x) && Established(p.handlers[x].handler.stream) && p.handlers[x].handler.writeQueue != []
      && script.revents.writable && !script.revents.readable
      && script.writeCalls.calls != [] && script.writeCalls.calls[0].write.WriteFault?
    ensures var p := Head(app, lfd, tls, others, passes); var q, r := Scanned(p, next), RunPass(p, next);
      && Connected(q, x) && !IsOpen(q.handlers[x])
      && q.handlers[x].handler.stream.bio.sent == p.handlers[x].handler.stream.bio.sent
      && Failures(q.log, x) == Failures(p.log, x) + 1
      && x !in r.handlers && x !in r.kernel
  {
    AtHead(app, lfd, tls, others, passes, next);
    var p := Head(app, lfd, tls, others, passes);
    var a, pf := Found(p, next, lfd, tls, others, x);
    EventFails(a, pf, ScriptOf(next, x));
    Gone(app, lfd, tls, others, passes, next, x);
  }

  lemma Gone(app: App, lfd: int, tls: bool, others: set<int>, passes: seq<Pass>, next: Pass, x: int)
    requires GoesOn(app, lfd, tls, others, passes, next)
    ensures var p := Head(app, lfd, tls, others, passes); var q, r := Scanned(p, next), RunPass(p, next);
      x in q.handlers && !IsOpen(q.handlers[x]) ==> x !in r.handlers && x !in r.kernel
  {
    AtHead(app, lfd, tls, others, passes, next);
    BeforeRemoval(app, lfd, tls, others, passes, next);
    var q := Scanned(Head(app, lfd, tls, others, passes), next);
    if x in q.handlers {
      RemoveExact(q, lfd, others, x);
    }
  }

  /** So does a handshake that fails. */
  lemma Rejects(app: App, lfd: int, tls: bool, others: set<int>, passes: seq<Pass>, next: Pass, x: int)
    requires GoesOn(app, lfd, tls, others, passes, next)
    requires var p, script := Head(app, lfd, tls, others, passes), ScriptOf(next, x);
      && Connected(p, x) && p.handlers[x].handler.stream.state == HANDSHAKE && script.revents.readable
      && script.readCalls != [] && script.readCalls[0].handshake.Fails?
    ensures var p := Head(app, lfd, tls, others, passes); var q, r := Scanned(p, next), RunPass(p, next);
      && Failures(q.log, x) == Failures(p.log, x) + 1 && Delivered(q.log, x) == Delivered(p.log, x)
      && x !in r.handlers && x !in r.kernel
  {
    AtHead(app, lfd, tls, others, passes, next);
    var p := Head(app, lfd, tls, others, passes);
    var a, pf := Found(p, next, lfd, tls, others, x);
    EventRejects(a, pf, ScriptOf(next, x));
    Gone(app, lfd, tls, others, passes, next, x);
  }
}
