/** What the echo server and the chat server promise, over every run from their start. */
module ServerTheorems {
  import opened Wire
  import opened TcpStreams
  import opened Handlers
  import opened Pollers
  import opened Apps
  import opened Invariants = Connections
  import opened PollRuns
  import opened Ownership
  import opened EchoScans

  /** `main`, up to the call of event_loop: one listener on `lfd`, plain or TLS. */
  function Start(app: App, lfd: int, tls: bool, others: set<int>): Poller {
    Poller(others + {lfd}, map[lfd := Listener(true, tls)], app, [], true)
  }

  /** What the results need of the kernel: in no pass does the listener accept a descriptor below its own that
      had a handler at the head of that pass. */
  ghost predicate Environment(app: App, lfd: int, tls: bool, others: set<int>, passes: seq<Pass>) {
    lfd !in others && (app.Chat? ==> app.clients == {}) && Spared(Start(app, lfd, tls, others), passes, lfd)
  }

  lemma StartOk(app: App, lfd: int, tls: bool, others: set<int>)
    requires lfd !in others && (app.Chat? ==> app.clients == {})
    ensures var p := Start(app, lfd, tls, others); Settled(p, lfd, others) && AllOk(p)
  {
  }

  lemma StartRun(app: App, lfd: int, tls: bool, others: set<int>, passes: seq<Pass>)
    requires Environment(app, lfd, tls, others, passes)
    ensures var q := Run(Start(app, lfd, tls, others), passes);
      && Shape(q, lfd, others) && AllOk(q) && (q.running ==> Settled(q, lfd, others))
  {
    StartOk(app, lfd, tls, others);
    LoopKeeps(Start(app, lfd, tls, others), passes, lfd, others);
  }

  /** The environment of a run and one pass more. */
  lemma OneMore(app: App, lfd: int, tls: bool, others: set<int>, passes: seq<Pass>, last: Pass)
    requires Environment(app, lfd, tls, others, passes + [last])
    ensures Environment(app, lfd, tls, others, passes)
    ensures var p := Run(Start(app, lfd, tls, others), passes); p.running ==> !TakesKey(p, last, lfd)
  {
    SparedFront(Start(app, lfd, tls, others), passes + [last], lfd);
    assert (passes + [last])[..|passes|] == passes;
  }

  /** The state between the scan of a pass and the removal of what it closed. */
  function Scanned(p: Poller, pass: Pass): Poller {
    var fds := PassFds(p, pass);
    Scan(p, fds, CountActive(fds), pass)
  }

  /** After the scan of any pass of any run the descriptors, the callbacks and every connection are in order,
      those included that are about to be removed. */
  lemma BeforeRemoval(app: App, lfd: int, tls: bool, others: set<int>, passes: seq<Pass>, last: Pass)
    requires Environment(app, lfd, tls, others, passes + [last])
    ensures var p := Run(Start(app, lfd, tls, others), passes);
      p.running ==> Settled(p, lfd, others) && AllOk(p) && Shape(Scanned(p, last), lfd, others) && AllOk(Scanned(p, last))
  {
    OneMore(app, lfd, tls, others, passes, last);
    StartRun(app, lfd, tls, others, passes);
    var p := Run(Start(app, lfd, tls, others), passes);
    if p.running {
      ScanPass(p, last, lfd, others);
    }
  }

  // ------------------------------------------------------------------ the echo server

  /** Echo conservation at every loop head: for every connection, the bytes its stream has accepted followed by
      those still queued are the chunks delivered from it, in order, and "KILLME" is not among them. */
  lemma EchoConservation(lfd: int, tls: bool, others: set<int>, passes: seq<Pass>, fd: int)
    requires Environment(Echo, lfd, tls, others, passes)
    ensures var q := Run(Start(Echo, lfd, tls, others), passes);
      q.running && fd in q.handlers && q.handlers[fd].Conn? ==>
        var h := q.handlers[fd].handler; var chunks := Delivered(q.log, fd);
        && h.stream.bio.sent + Unsent(h.writeQueue) == Flatten(chunks)
        && KILLME !in chunks
  {
    StartRun(Echo, lfd, tls, others, passes);
    var q := Run(Start(Echo, lfd, tls, others), passes);
    assert FdOk(q, fd);
    if q.running && fd in q.handlers && q.handlers[fd].Conn? {
      KeptAll(Delivered(q.log, fd));
    }
  }

  /** At a loop head no connection has said "KILLME". */
  lemma HeadUnkilled(p: Poller, lfd: int, others: set<int>, fd: int)
    requires Settled(p, lfd, others) && AllOk(p) && p.app.Echo?
    ensures KILLME !in Delivered(p.log, fd)
  {
    assert FdOk(p, fd);
    NoneDelivered(p.log, fd);
  }

  /** Echo conservation in the middle of a pass, when the connections that it closed are still there: what is
      accepted and queued is every chunk delivered but "KILLME"; what is accepted was delivered before the first
      "KILLME"; and a connection that has said it is closed, has sent nothing since the head of the pass, before
      which it had not said it, and is gone with its descriptor at the end of the pass: it sends no byte more. */
  lemma EchoKilled(lfd: int, tls: bool, others: set<int>, passes: seq<Pass>, last: Pass, fd: int)
    requires Environment(Echo, lfd, tls, others, passes + [last]) && !last.pollFails
    ensures var p := Run(Start(Echo, lfd, tls, others), passes); var q := Scanned(p, last); var r := RunPass(p, last);
      p.running && fd in q.handlers && q.handlers[fd].Conn? ==>
        var h := q.handlers[fd].handler; var chunks := Delivered(q.log, fd);
        && h.stream.bio.sent + Unsent(h.writeQueue) == Flatten(Kept(chunks))
        && h.stream.bio.sent <= Flatten(BeforeKill(chunks))
        && (KILLME in chunks ==>
              && !h.stream.isOpen
              && fd in p.handlers && p.handlers[fd].Conn? && KILLME !in Delivered(p.log, fd)
              && h.stream.bio.sent == p.handlers[fd].handler.stream.bio.sent
              && (r.running ==> fd !in r.handlers && fd !in r.kernel))
  {
    BeforeRemoval(Echo, lfd, tls, others, passes, last);
    OneMore(Echo, lfd, tls, others, passes, last);
    var p := Run(Start(Echo, lfd, tls, others), passes);
    if p.running {
      HeadUnkilled(p, lfd, others, fd);
      ScanSilent(p, last, lfd, others, fd);
      assert FdOk(Scanned(p, last), fd);
      if Scanned(p, last).running && fd in Scanned(p, last).handlers {
        RemoveExact(Scanned(p, last), lfd, others, fd);
      }
    }
  }

  // ------------------------------------------------------------------ the chat server

  /** Chat broadcast: the clients are exactly the connections, and what each has been sent, followed by what
      is queued for it, is every chunk delivered from the others since it was opened, in order of delivery. */
  lemma ChatBroadcast(lfd: int, tls: bool, others: set<int>, passes: seq<Pass>, fd: int)
    requires Environment(Chat({}), lfd, tls, others, passes)
    ensures var q := Run(Start(Chat({}), lfd, tls, others), passes);
      && q.app.Chat?
      && (fd in q.app.clients <==> fd in q.handlers && q.handlers[fd].Conn?)
      && (fd in q.app.clients ==>
            var h := q.handlers[fd].handler;
            h.stream.bio.sent + Unsent(h.writeQueue) == Flatten(Heard(q.log, fd)))
  {
    StartRun(Chat({}), lfd, tls, others, passes);
    assert FdOk(Run(Start(Chat({}), lfd, tls, others), passes), fd);
  }

  // ------------------------------------------------------------------ either server

  /** Read delivery, the TLS gate and retry stability at every loop head: everything a stream returned has been
      delivered, and no entry of a write queue is used up, so that no empty span is offered by the write loop. */
  lemma Connections(app: App, lfd: int, tls: bool, others: set<int>, passes: seq<Pass>, fd: int)
    requires Environment(app, lfd, tls, others, passes)
    ensures var q := Run(Start(app, lfd, tls, others), passes);
      q.running && fd in q.handlers && q.handlers[fd].Conn? ==>
        var h := q.handlers[fd].handler;
        && h.stream.bio.received == Delivered(q.log, fd) && h.readQueue == []
        && (Delivered(q.log, fd) != [] || h.stream.bio.sent != [] ==> Cleared(h.stream))
        && RetryStable(h.offers)
        && (h.writeQueue != [] ==> NextSpan(h) != [])
  {
    StartRun(app, lfd, tls, others, passes);
    var q := Run(Start(app, lfd, tls, others), passes);
    assert FdOk(q, fd);
    if fd in q.handlers && q.handlers[fd].Conn? {
      SpanFilled(q.handlers[fd].handler);
    }
  }

  /** The same in the middle of a pass: nothing is lost between the stream and on_read; only a connection that
      has just been closed, by a read that threw, can have chunks that are never delivered. */
  lemma ConnectionsScanned(app: App, lfd: int, tls: bool, others: set<int>, passes: seq<Pass>, last: Pass, fd: int)
    requires Environment(app, lfd, tls, others, passes + [last])
    ensures var p := Run(Start(app, lfd, tls, others), passes); var q := Scanned(p, last);
      p.running && fd in q.handlers && q.handlers[fd].Conn? ==>
        var h := q.handlers[fd].handler;
        && h.stream.bio.received == Delivered(q.log, fd) + h.readQueue
        && (h.stream.isOpen ==> h.readQueue == [])
        && (Delivered(q.log, fd) != [] || h.readQueue != [] || h.stream.bio.sent != [] ==> Cleared(h.stream))
        && RetryStable(h.offers)
        && (h.writeQueue != [] ==> NextSpan(h) != [])
  {
    BeforeRemoval(app, lfd, tls, others, passes, last);
    var p := Run(Start(app, lfd, tls, others), passes);
    if p.running {
      var q := Scanned(p, last);
      assert FdOk(q, fd);
      if fd in q.handlers && q.handlers[fd].Conn? {
        SpanFilled(q.handlers[fd].handler);
      }
    }
  }

  /** Descriptor ownership, exactly: every loop head of a run has all handlers open and the kernel's descriptors
      in step with them if and only if no pass that led to one took a key. */
  lemma OwnershipExact(app: App, lfd: int, tls: bool, others: set<int>, passes: seq<Pass>)
    requires lfd !in others && (app.Chat? ==> app.clients == {})
    ensures var p := Start(app, lfd, tls, others);
      AlwaysSettled(p, passes, lfd, others) <==> SparedSoFar(p, passes, lfd)
  {
    StartOk(app, lfd, tls, others);
    RunExact(Start(app, lfd, tls, others), passes, lfd, others);
  }

  /** A kernel that gives out descriptors above the listener's only, takes no key ... */
  lemma AboveSpares(app: App, lfd: int, tls: bool, others: set<int>, passes: seq<Pass>)
    requires lfd !in others && (app.Chat? ==> app.clients == {})
    requires forall k :: 0 <= k < |passes| ==> Above(passes[k], lfd)
    ensures Environment(app, lfd, tls, others, passes)
  {
  }

  /** ... because the listener then comes first in every pass ... */
  lemma ListenerGoesFirst(app: App, lfd: int, tls: bool, others: set<int>, passes: seq<Pass>, next: Pass)
    requires lfd !in others && (app.Chat? ==> app.clients == {})
    requires forall k :: 0 <= k < |passes| ==> Above(passes[k], lfd)
    ensures var fds := PassFds(Run(Start(app, lfd, tls, others), passes), next);
      fds != [] && fds[0].fd == lfd
  {
    AboveSpares(app, lfd, tls, others, passes);
    StartRun(app, lfd, tls, others, passes);
    RunLowest(Start(app, lfd, tls, others), passes, lfd);
    ListenerFirst(Run(Start(app, lfd, tls, others), passes), next, lfd, others);
  }

  /** ... nor does one that in each pass gives out descriptors that had no handler at its head. */
  lemma FreeSpares(app: App, lfd: int, tls: bool, others: set<int>, passes: seq<Pass>)
    requires lfd !in others && (app.Chat? ==> app.clients == {})
    requires forall k :: 0 <= k < |passes| ==> Free(Run(Start(app, lfd, tls, others), passes[..k]), passes[k])
    ensures Environment(app, lfd, tls, others, passes)
  {
  }

  /** ... nor one that in each pass gives out descriptors that were not open at its head. */
  lemma {:induction false} FreshSpares(app: App, lfd: int, tls: bool, others: set<int>, passes: seq<Pass>)
    requires lfd !in others && (app.Chat? ==> app.clients == {})
    requires forall k :: 0 <= k < |passes| ==> Fresh(Run(Start(app, lfd, tls, others), passes[..k]), passes[k])
    ensures Environment(app, lfd, tls, others, passes)
    decreases |passes|
  {
    if passes != [] {
      var n := |passes| - 1;
      var p := Start(app, lfd, tls, others);
      assert forall k :: 0 <= k < n ==> passes[..n][..k] == passes[..k];
      FreshSpares(app, lfd, tls, others, passes[..n]);
      StartRun(app, lfd, tls, others, passes[..n]);
      forall k | 0 <= k < |passes| && Run(p, passes[..k]).running ensures !TakesKey(Run(p, passes[..k]), passes[k], lfd) {
        if k < n {
          assert !TakesKey(Run(p, passes[..n][..k]), passes[..n][k], lfd);
        } else {
          FreshKey(Run(p, passes[..n]), lfd, others, ScriptOf(passes[n], lfd).accept);
        }
      }
    }
  }

  /** Descriptor ownership: while the loop runs, every handler is open, and the kernel has exactly the
      descriptors of the handlers open, besides the others. */
  lemma DescriptorOwnership(app: App, lfd: int, tls: bool, others: set<int>, passes: seq<Pass>, fd: int)
    requires Environment(app, lfd, tls, others, passes)
    ensures var q := Run(Start(app, lfd, tls, others), passes);
      q.running ==>
        && lfd in q.handlers
        && (fd in q.handlers ==> IsOpen(q.handlers[fd]))
        && (fd in q.kernel <==> fd in q.handlers || fd in others)
        && (fd in q.handlers ==> fd !in others)
  {
    StartRun(app, lfd, tls, others, passes);
  }

  /** What is asked of poll at every loop head: every handler is asked to read, and to write exactly when
      something is queued for it or the BIO has something to write. */
  lemma Asked(app: App, lfd: int, tls: bool, others: set<int>, passes: seq<Pass>, next: Pass, fd: int)
    requires Environment(app, lfd, tls, others, passes)
    ensures var q := Run(Start(app, lfd, tls, others), passes);
      q.running && fd in q.handlers ==>
        exists pf ::
          && pf in PassFds(q, next) && pf.fd == fd
          && pf.events.readable
          && (pf.events.writable <==> q.handlers[fd].Conn? && (q.handlers[fd].handler.writeQueue != [] || ScriptOf(next, fd).bioWants.writable))
  {
    StartRun(app, lfd, tls, others, passes);
    var q := Run(Start(app, lfd, tls, others), passes);
    if q.running && fd in q.handlers {
      var i := Polled(q, next, fd);
      var pf := PassFds(q, next)[i];
      assert pf in PassFds(q, next) && IsOpen(q.handlers[fd]);
    }
  }

  /** Open/close bracketing: on_open and on_close alternate for every descriptor, on_read and on_error come
      in between, and a descriptor is between the two exactly while it has a connection. */
  lemma Bracketing(app: App, lfd: int, tls: bool, others: set<int>, passes: seq<Pass>, fd: int)
    requires Environment(app, lfd, tls, others, passes)
    ensures var q := Run(Start(app, lfd, tls, others), passes);
      && Bracketed(q.log)
      && (Live(q.log, fd) <==> fd in q.handlers && q.handlers[fd].Conn?)
  {
    StartRun(app, lfd, tls, others, passes);
    assert FdOk(Run(Start(app, lfd, tls, others), passes), fd);
  }
}
