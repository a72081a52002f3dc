/** The invariants of the poll loop over every run: who owns which descriptor, what every connection has
    been sent, and in which order the callbacks are called. */
module PollRuns {
  import opened Wire
  import opened TcpStreams
  import opened Handlers
  import opened Pollers
  import opened Apps
  import opened Callbacks
  import opened Connections

  /** One descriptor: the log, the handler map and the application agree about it. */
  predicate FdOk(p: Poller, x: int) {
    && (Live(p.log, x) <==> x in p.handlers && p.handlers[x].Conn?)
    && (p.app.Chat? ==> (x in p.app.clients <==> Live(p.log, x)))
    && (x in p.handlers && p.handlers[x].Conn? ==>
          ConnOk(p.handlers[x].handler, p.app, Delivered(p.log, x), Heard(p.log, x)))
  }

  /** No descriptor is opened, what is closed belongs to a handler that is now closed, and nothing reopens. */
  ghost predicate Quiet(p: Poller, q: Poller) {
    && SameKinds(p, q)
    && p.running == q.running
    && (forall fd :: fd in q.kernel ==> fd in p.kernel)
    && (forall fd :: fd in p.handlers && IsOpen(q.handlers[fd]) ==> IsOpen(p.handlers[fd]))
    && (forall fd :: fd in p.kernel && fd !in q.kernel ==> fd in p.handlers && !IsOpen(q.handlers[fd]))
    && (forall fd :: fd in p.handlers && p.handlers[fd].Listener? ==> q.handlers[fd] == p.handlers[fd])
  }

  // ------------------------------------------------------------------ handle_read

  lemma EchoReadFd(p: Poller, fd: int, bufs: seq<Bytes>, x: int)
    requires fd in p.handlers && p.handlers[fd].Conn? && Held(p, fd) && p.app.Echo?
    requires FdOk(p, x) || x == fd
    requires var h := p.handlers[fd].handler; var d := Delivered(p.log, fd);
      Live(p.log, fd) && HandlerOk(h) && Filled(h) && EchoOk(h, d) && h.readQueue == [] && h.stream.bio.received == d + bufs
    ensures FdOk(OnRead(p, fd, bufs), x)
  {
    LogDelivery(p.log, fd, bufs, x);
    var q := p.(log := p.log + [Delivery(fd, bufs)]);
    EchoEachEffect(q, fd, bufs);
    if x == fd {
      ConnEchoed(p.handlers[fd].handler, Delivered(p.log, fd), Heard(p.log, fd), bufs);
    }
  }

  lemma ChatReadFd(p: Poller, fd: int, bufs: seq<Bytes>, x: int)
    requires fd in p.handlers && p.handlers[fd].Conn? && p.app.Chat?
    requires FdOk(p, x) || x == fd
    requires var h := p.handlers[fd].handler;
      && Live(p.log, fd) && fd in p.app.clients && HandlerOk(h) && Filled(h) && h.readQueue == []
      && h.stream.bio.received == Delivered(p.log, fd) + bufs
      && Output(h) == Flatten(Heard(p.log, fd))
    ensures FdOk(OnRead(p, fd, bufs), x)
  {
    LogDelivery(p.log, fd, bufs, x);
    var q := p.(log := p.log + [Delivery(fd, bufs)]);
    if x in p.handlers {
      ChatEachEffect(q, Sorted(p.app.clients), fd, bufs, x);
      if p.handlers[x].Conn? && x != fd {
        NoEmptyTail(Delivered(p.log, fd), bufs);
        ConnTold(p.handlers[x].handler, p.app, Delivered(p.log, x), Heard(p.log, x), bufs);
      }
    } else {
      ChatEachEffect(q, Sorted(p.app.clients), fd, bufs, fd);
    }
  }

  /** The descriptors after a call of on_read. */
  lemma OnReadQuiet(p: Poller, fd: int, bufs: seq<Bytes>)
    requires fd in p.handlers && p.handlers[fd].Conn? && Held(p, fd)
    ensures Quiet(p, OnRead(p, fd, bufs))
    ensures OnRead(p, fd, bufs).log == p.log + [Delivery(fd, bufs)]
  {
    var q := p.(log := p.log + [Delivery(fd, bufs)]);
    if p.app.Echo? {
      EchoEachEffect(q, fd, bufs);
      EchoHandlerFrame(p.handlers[fd].handler, bufs);
    } else {
      var r := OnRead(p, fd, bufs);
      ChatEachEffect(q, Sorted(p.app.clients), fd, bufs, fd);
      forall x | x in p.handlers
        ensures IsOpen(r.handlers[x]) == IsOpen(p.handlers[x])
        ensures p.handlers[x].Listener? ==> r.handlers[x] == p.handlers[x]
      {
        ChatEachEffect(q, Sorted(p.app.clients), fd, bufs, x);
        if p.handlers[x].Conn? {
          EnqueueAllFrame(p.handlers[x].handler, bufs);
        }
      }
    }
  }

  lemma SetConnFd(p: Poller, fd: int, h: Handler, x: int)
    requires fd in p.handlers && p.handlers[fd].Conn? && FdOk(p, x)
    requires x == fd ==> ConnOk(h, p.app, Delivered(p.log, fd), Heard(p.log, fd))
    ensures FdOk(SetConn(p, fd, h), x)
  {
  }

  lemma ReadThrewFd(p: Poller, fd: int, script: seq<Answers>, x: int)
    requires fd in p.handlers && p.handlers[fd].Conn? && FdOk(p, fd) && FdOk(p, x)
    requires HandlerRead(p.handlers[fd].handler, script).1.Threw?
    ensures FdOk(HandleRead(p, fd, script).0, x)
  {
    var h := p.handlers[fd].handler;
    ConnReadThrew(h, p.app, Delivered(p.log, fd), Heard(p.log, fd), script);
    SetConnFd(p, fd, HandlerRead(h, script).0, x);
    LogFailed(p.log, fd, x);
  }

  /** The handler between the read and the call of on_read, its read queue emptied. */
  lemma ReadDone(h: Handler, app: App, d: seq<Bytes>, e: seq<Bytes>, script: seq<Answers>)
    requires ConnOk(h, app, d, e) && !HandlerRead(h, script).1.Threw?
    ensures var t := HandlerRead(h, script).0; var u := t.(readQueue := []);
      && HandlerOk(u) && Filled(u)
      && u.stream.bio.received == d + t.readQueue
      && (app.Echo? ==> EchoOk(u, d))
      && (app.Chat? ==> Output(u) == Flatten(e))
      && (t.readQueue == [] ==> ConnOk(u, app, d, e))
  {
    ReadFrame(h, script);
    ReadFilled(h, script);
    ReadDelivers(h, d, script);
  }

  /** Reading keeps every connection's invariant, its own and that of every other descriptor. */
  lemma HandleReadFd(p: Poller, fd: int, script: seq<Answers>, x: int)
    requires fd in p.handlers && p.handlers[fd].Conn? && Held(p, fd)
    requires FdOk(p, fd) && FdOk(p, x)
    ensures FdOk(HandleRead(p, fd, script).0, x)
  {
    var h := p.handlers[fd].handler;
    var (t, r) := HandlerRead(h, script);
    if r.Threw? {
      ReadThrewFd(p, fd, script, x);
    } else {
      ReadDone(h, p.app, Delivered(p.log, fd), Heard(p.log, fd), script);
      ReadFrame(h, script);
      var u := t.(readQueue := []);
      var q := SetConn(p, fd, u);
      if t.readQueue == [] {
        SetConnFd(p, fd, u, x);
      } else {
        if x != fd {
          SetConnFd(p, fd, u, x);
        }
        if p.app.Echo? {
          EchoReadFd(q, fd, t.readQueue, x);
        } else {
          ChatReadFd(q, fd, t.readQueue, x);
        }
      }
    }
  }

  lemma SetConnQuiet(p: Poller, fd: int, h: Handler)
    requires fd in p.handlers && p.handlers[fd].Conn? && (h.stream.isOpen ==> IsOpen(p.handlers[fd]))
    ensures Quiet(p, SetConn(p, fd, h))
  {
  }

  lemma HandleReadQuiet(p: Poller, fd: int, script: seq<Answers>)
    requires fd in p.handlers && p.handlers[fd].Conn? && Held(p, fd) && FdOk(p, fd)
    ensures var q := HandleRead(p, fd, script).0;
      Quiet(p, q) && (Bracketed(p.log) ==> Bracketed(q.log))
  {
    var h := p.handlers[fd].handler;
    var (t, r) := HandlerRead(h, script);
    ReadFrame(h, script);
    if r.Threw? {
      LogFailed(p.log, fd, fd);
    } else {
      var q := SetConn(p, fd, t.(readQueue := []));
      SetConnQuiet(p, fd, t.(readQueue := []));
      if t.readQueue != [] {
        OnReadQuiet(q, fd, t.readQueue);
        LogDelivery(p.log, fd, t.readQueue, fd);
        QuietTransitive(p, q, OnRead(q, fd, t.readQueue));
      }
    }
  }

  lemma QuietTransitive(p: Poller, q: Poller, r: Poller)
    requires Quiet(p, q) && Quiet(q, r)
    ensures Quiet(p, r)
  {
  }

  // ------------------------------------------------------------------ handle_write

  lemma HandleWriteFd(p: Poller, fd: int, script: WriteScript, x: int)
    requires fd in p.handlers && p.handlers[fd].Conn? && FdOk(p, fd) && FdOk(p, x)
    ensures FdOk(HandleWrite(p, fd, script), x)
  {
    ConnWrite(p.handlers[fd].handler, p.app, Delivered(p.log, fd), Heard(p.log, fd), script);
    SetConnFd(p, fd, HandlerWrite(p.handlers[fd].handler, script).0, x);
    LogFailed(p.log, fd, x);
  }

  lemma HandleWriteQuiet(p: Poller, fd: int, script: WriteScript)
    requires fd in p.handlers && p.handlers[fd].Conn? && FdOk(p, fd)
    ensures var q := HandleWrite(p, fd, script);
      Quiet(p, q) && (Bracketed(p.log) ==> Bracketed(q.log))
  {
  }

  // ------------------------------------------------------------------ accept and removal

  /** A connection on a descriptor that has no handler starts with nothing delivered, heard or sent. */
  lemma AddFd(p: Poller, tls: bool, fd: int, kernel: set<int>, x: int)
    requires fd !in p.handlers && FdOk(p, x) && FdOk(p, fd)
    ensures var h := NewHandler(if tls then TlsStream(false) else PlainStream(), BUFSIZ, BUFSIZ);
      FdOk(AddHandler(p.(kernel := kernel), fd, Conn(h)), x)
  {
    LogOpened(p.log, fd, x);
    ConnNew(tls, p.app);
  }

  lemma RemoveFd(p: Poller, fd: int, x: int)
    requires fd in p.handlers && p.handlers[fd].Conn? && FdOk(p, x)
    ensures FdOk(Remove(p, fd), x)
  {
    LogClosed(p.log, fd, x);
  }
}
