/** project/io/poller.hpp and tcp_listener_poll_handler.hpp as objects, with the callbacks of the two servers. */
module PollerObjects {
  import opened Wire
  import opened Files
  import opened TcpStreams
  import opened StreamObjects
  import opened Handlers
  import opened HandlerObjects
  import Spec = Pollers
  import opened Pollers
  import opened ServerTheorems

  class TcpListenerPollHandler {
    const listener: File
    const tls: bool

    constructor (listener: File, tls: bool)
      ensures this.listener == listener && this.tls == tls
    {
      this.listener := listener;
      this.tls := tls;
    }

    method Close(kernel: Kernel) returns (ok: bool)
      modifies listener, kernel
      ensures ok == (!old(listener.isOpen) || listener.fd in old(kernel.open))
      ensures kernel.open == if ok && old(listener.isOpen) then old(kernel.open) - {listener.fd} else old(kernel.open)
      ensures listener.isOpen == if ok then false else old(listener.isOpen)
    {
      ok := true;
      if listener.isOpen {
        ok := listener.Close(kernel);
      }
    }
  }

  /** The poll handlers: the two classes that override the abstract one. */
  datatype HandlerRef = ListenerRef(listening: TcpListenerPollHandler) | ConnRef(connection: TcpSocketPollHandler)

  function FileOf(r: HandlerRef): File {
    match r
    case ListenerRef(l) => l.listener
    case ConnRef(h) => h.stream.socket
  }

  ghost function ObjectsOf(r: HandlerRef): set<object> {
    match r
    case ListenerRef(l) => {l, l.listener}
    case ConnRef(h) => h.Objects()
  }

  ghost function ValueOf(r: HandlerRef): PollHandler
    reads ObjectsOf(r)
  {
    match r
    case ListenerRef(l) => Listener(l.listener.isOpen, l.tls)
    case ConnRef(h) => Conn(h.Value())
  }

  /** The virtual call of `close`. */
  method CloseRef(r: HandlerRef, kernel: Kernel) returns (ok: bool)
    modifies FileOf(r), kernel
    ensures ok == (!old(FileOf(r).isOpen) || FileOf(r).fd in old(kernel.open))
    ensures kernel.open == if ok && old(FileOf(r).isOpen) then old(kernel.open) - {FileOf(r).fd} else old(kernel.open)
    ensures ValueOf(r) == if ok && old(FileOf(r).isOpen) then AsClosed(old(ValueOf(r))) else old(ValueOf(r))
  {
    match r {
      case ListenerRef(l) => ok := l.Close(kernel);
      case ConnRef(h) => ok := h.Close(kernel);
    }
  }

  /** A handler for a socket that has just been accepted. */
  method NewConnection(tls: bool, fd: int) returns (h: TcpSocketPollHandler)
    ensures fresh(h.Objects()) && h.stream.socket.fd == fd
    ensures h.Value() == NewHandler(if tls then TlsStream(false) else PlainStream(), BUFSIZ, BUFSIZ)
  {
    var file := new File(fd);
    var stream: TcpStream;
    if tls {
      stream := new TcpStream.Tls(file, false);
    } else {
      stream := new TcpStream.Plain(file);
    }
    h := new TcpSocketPollHandler(stream, BUFSIZ, BUFSIZ);
  }

  class Poller {
    const kernel: Kernel
    var handlers: map<int, HandlerRef>
    var app: App
    var running: bool
    ghost var log: seq<Event>

    /** The objects of all the handlers. */
    ghost function Objects(): set<object>
      reads this`handlers
    {
      set x, o | x in handlers && o in ObjectsOf(handlers[x]) :: o
    }

    ghost function Footprint(): set<object>
      reads this`handlers
    {
      {this, kernel} + Objects()
    }

    /** Every handler is kept under its own descriptor; no two of them share an object, then. */
    ghost predicate Valid()
      reads this`handlers
    {
      && this !in Objects() && kernel !in Objects()
      && forall x :: x in handlers ==> FileOf(handlers[x]).fd == x
    }

    ghost function Values(): map<int, PollHandler>
      reads this`handlers, Objects()
    {
      map x | x in handlers :: ValueOf(handlers[x])
    }

    ghost function Value(): Spec.Poller
      reads this, kernel, Objects()
    {
      Spec.Poller(kernel.open, Values(), app, log, running)
    }

    lemma Apart(x: int, y: int)
      requires Valid() && x in handlers && y in handlers && x != y
      ensures ObjectsOf(handlers[x]) !! ObjectsOf(handlers[y])
    {
    }

    lemma Owned(x: int)
      requires x in handlers
      ensures forall o :: o in ObjectsOf(handlers[x]) ==> o in Objects()
    {
    }

    constructor (kernel: Kernel, app: App)
      ensures Valid() && this.kernel == kernel && handlers == map[] && this.app == app && running && log == []
    {
      this.kernel := kernel;
      this.app := app;
      handlers, running, log := map[], true, [];
    }

    /** When nothing but the objects of one handler has changed, only its value has. */
    twostate lemma OneChanged(fd: int)
      requires old(Valid()) && handlers == old(handlers) && fd in handlers
      requires forall o: object | o in old(Objects()) && o !in ObjectsOf(handlers[fd]) :: unchanged(o)
      ensures Values() == old(Values())[fd := ValueOf(handlers[fd])]
    {
      forall x | x in handlers && x != fd ensures ValueOf(handlers[x]) == old(ValueOf(handlers[x])) {
        Apart(x, fd);
        Owned(x);
      }
    }

    static lemma SameValue(m: map<int, PollHandler>, fd: int)
      requires fd in m
      ensures m[fd := m[fd]] == m
    {
    }

    /** `write`. */
    method Write(fd: int, data: Bytes)
      requires Valid()
      modifies Footprint()
      ensures Valid() && handlers == old(handlers)
      ensures Value() == PollerWrite(old(Value()), fd, data)
    {
      if fd in handlers && handlers[fd].ConnRef? {
        var handler := handlers[fd].connection;
        Owned(fd);
        assert handler in ObjectsOf(handlers[fd]);
        handler.Enqueue(data);
        OneChanged(fd);
      }
    }

    /** The virtual call of `close` on the handler of a descriptor. */
    method CloseHandlerOf(fd: int) returns (ok: bool)
      requires Valid() && fd in handlers
      modifies kernel, ObjectsOf(handlers[fd])
      ensures unchanged(this)
      ensures ok == (IsOpen(old(Values())[fd]) ==> fd in old(kernel.open))
      ensures kernel.open == if ok && IsOpen(old(Values())[fd]) then old(kernel.open) - {fd} else old(kernel.open)
      ensures Values() == if ok && IsOpen(old(Values())[fd]) then old(Values())[fd := AsClosed(old(Values())[fd])] else old(Values())
    {
      assert FileOf(handlers[fd]) in ObjectsOf(handlers[fd]);
      ok := CloseRef(handlers[fd], kernel);
      OneChanged(fd);
      SameValue(old(Values()), fd);
    }

    /** `close`; when ::close fails the exception ends the process. */
    method Close(fd: int)
      requires Valid()
      modifies Footprint()
      ensures Valid() && handlers == old(handlers)
      ensures Value() == PollerClose(old(Value()), fd)
    {
      if fd in handlers {
        Owned(fd);
        var ok := CloseHandlerOf(fd);
        if !ok {
          running := false;
        }
      }
    }

    // ---------------------------------------------------------------- on_read

    /** The callback of the echo server. */
    method EchoOnRead(fd: int, bufs: seq<Bytes>)
      requires Valid()
      modifies Footprint()
      ensures Valid() && handlers == old(handlers)
      ensures Value() == EchoEach(old(Value()), fd, bufs)
    {
      var i := 0;
      while i < |bufs|
        invariant i <= |bufs| && Valid() && handlers == old(handlers)
        invariant EchoEach(Value(), fd, bufs[i..]) == EchoEach(old(Value()), fd, bufs)
      {
        assert bufs[i..][1..] == bufs[i + 1..];
        if bufs[i] == KILLME {
          Close(fd);
        } else {
          Write(fd, bufs[i]);
        }
        i := i + 1;
      }
    }

    method SendToOthers(clients: seq<int>, fd: int, data: Bytes)
      requires Valid()
      modifies Footprint()
      ensures Valid() && handlers == old(handlers)
      ensures Value() == Broadcast(old(Value()), clients, fd, data)
    {
      var i := 0;
      while i < |clients|
        invariant i <= |clients| && Valid() && handlers == old(handlers)
        invariant Broadcast(Value(), clients[i..], fd, data) == Broadcast(old(Value()), clients, fd, data)
      {
        assert clients[i..][1..] == clients[i + 1..];
        if clients[i] != fd {
          Write(clients[i], data);
        }
        i := i + 1;
      }
    }

    /** The callback of the chat server. */
    method ChatOnRead(clients: seq<int>, fd: int, bufs: seq<Bytes>)
      requires Valid()
      modifies Footprint()
      ensures Valid() && handlers == old(handlers)
      ensures Value() == ChatEach(old(Value()), clients, fd, bufs)
    {
      var i := 0;
      while i < |bufs|
        invariant i <= |bufs| && Valid() && handlers == old(handlers)
        invariant ChatEach(Value(), clients, fd, bufs[i..]) == ChatEach(old(Value()), clients, fd, bufs)
      {
        assert bufs[i..][1..] == bufs[i + 1..];
        SendToOthers(clients, fd, bufs[i]);
        i := i + 1;
      }
    }

    method OnRead(fd: int, bufs: seq<Bytes>)
      requires Valid()
      modifies Footprint()
      ensures Valid() && handlers == old(handlers)
      ensures Value() == Spec.OnRead(old(Value()), fd, bufs)
    {
      log := log + [Delivery(fd, bufs)];
      match app {
        case Echo => EchoOnRead(fd, bufs);
        case Chat(clients) => ChatOnRead(Sorted(clients), fd, bufs);
      }
    }

    // ---------------------------------------------------------------- handle_read, handle_write

    /** The call of on_error. */
    method LogFailure(fd: int)
      requires Valid()
      modifies this`log
      ensures Value() == OnError(old(Value()), fd)
    {
      log := log + [Failed(fd)];
    }

    /** The loop that dequeues what was read. */
    method DequeueAll(h: TcpSocketPollHandler) returns (bufs: seq<Bytes>)
      modifies h
      ensures bufs == old(h.readQueue) && h.Value() == old(h.Value()).(readQueue := [])
    {
      bufs := [];
      while h.readQueue != []
        invariant h.Value() == old(h.Value()).(readQueue := h.readQueue) && bufs + h.readQueue == old(h.readQueue)
        decreases |h.readQueue|
      {
        var buf := h.Dequeue();
        bufs := bufs + buf;
      }
    }

    /** The virtual call of `read`, and the loop that dequeues what was read. */
    method ReadFrom(fd: int, script: seq<Answers>) returns (r: Outcome<bool>, bufs: seq<Bytes>)
      requires Valid() && fd in handlers && handlers[fd].ConnRef?
      modifies ObjectsOf(handlers[fd])
      ensures unchanged(this) && unchanged(kernel)
      ensures (Value(), r, bufs) == Spec.ReadFrom(old(Value()), fd, script)
    {
      var h := handlers[fd].connection;
      r := h.Read(script);
      bufs := [];
      if !r.Threw? {
        bufs := DequeueAll(h);
      }
      OneChanged(fd);
      ghost var p, t := old(Value()), HandlerRead(old(Values())[fd].handler, script).0;
      assert Value() == SetConn(p, fd, if r.Threw? then t else t.(readQueue := []));
    }

    /** `handle_read`. */
    method HandleRead(fd: int, script: seq<Answers>) returns (go: bool)
      requires Valid() && fd in handlers && handlers[fd].ConnRef?
      modifies Footprint()
      ensures Valid() && handlers == old(handlers)
      ensures (Value(), go) == Spec.HandleRead(old(Value()), fd, script)
    {
      Owned(fd);
      var r, bufs := ReadFrom(fd, script);
      if r.Threw? {
        LogFailure(fd);
        return false;
      }
      ghost var q := Value();
      go := r == Ok(true);
      assert Spec.HandleRead(old(Value()), fd, script) == (if bufs == [] then q else Spec.OnRead(q, fd, bufs), go);
      if bufs != [] {
        OnRead(fd, bufs);
        assert Value() == Spec.OnRead(q, fd, bufs);
      }
    }

    method WriteTo(fd: int, script: WriteScript) returns (r: Outcome<bool>)
      requires Valid() && fd in handlers && handlers[fd].ConnRef?
      modifies ObjectsOf(handlers[fd])
      ensures unchanged(this) && unchanged(kernel)
      ensures (Value(), r) == Spec.WriteTo(old(Value()), fd, script)
    {
      var h := handlers[fd].connection;
      r := h.Write(script);
      OneChanged(fd);
    }

    /** `handle_write`. */
    method HandleWrite(fd: int, script: WriteScript)
      requires Valid() && fd in handlers && handlers[fd].ConnRef?
      modifies Footprint()
      ensures Valid() && handlers == old(handlers)
      ensures Value() == Spec.HandleWrite(old(Value()), fd, script)
    {
      Owned(fd);
      var r := WriteTo(fd, script);
      if r.Threw? {
        LogFailure(fd);
      }
    }

    // ---------------------------------------------------------------- add_handler and accept

    /** `add_handler`: the handler that had the key, if any, is destroyed. */
    method AddHandler(r: HandlerRef)
      requires Valid() && Outside(r)
      modifies this, kernel, Objects()
      ensures Valid() && handlers == old(handlers)[FileOf(r).fd := r]
      ensures Value() == Spec.AddHandler(old(Value()), FileOf(r).fd, old(ValueOf(r)))
    {
      var fd := FileOf(r).fd;
      if fd in handlers {
        Replace(r);
      } else {
        Install(r);
      }
      if r.ConnRef? {
        OnOpen(fd);
      }
    }

    /** The handler that is replaced is destroyed when the other is in its place. */
    method Replace(r: HandlerRef)
      requires Valid() && Outside(r) && FileOf(r).fd in handlers
      modifies this`handlers, kernel, Objects()
      ensures Valid() && handlers == old(handlers)[FileOf(r).fd := r]
      ensures Values() == old(Values())[FileOf(r).fd := old(ValueOf(r))]
      ensures kernel.open == if IsOpen(old(Values())[FileOf(r).fd]) then old(kernel.open) else old(kernel.open) - {FileOf(r).fd}
    {
      var was := handlers[FileOf(r).fd];
      Owned(FileOf(r).fd);
      Alone(FileOf(r).fd);
      assert FileOf(was) in ObjectsOf(was);
      Install(r);
      DestroyRef(was);
    }

    method Install(r: HandlerRef)
      requires Valid() && this !in ObjectsOf(r) && kernel !in ObjectsOf(r)
      modifies this`handlers
      ensures Valid() && handlers == old(handlers)[FileOf(r).fd := r]
      ensures Values() == old(Values())[FileOf(r).fd := old(ValueOf(r))]
    {
      handlers := handlers[FileOf(r).fd := r];
      forall x | x in handlers ensures ValueOf(handlers[x]) == old(if x == FileOf(r).fd then ValueOf(r) else Values()[x]) {
      }
    }

    method OnOpen(fd: int)
      requires Valid()
      modifies this`log, this`app
      ensures Value() == Spec.OnOpen(old(Value()), fd)
    {
      log := log + [Opened(fd)];
      if app.Chat? {
        app := Chat(app.clients + {fd});
      }
    }

    /** The end of a handler that has left the map: its file's destructor. */
    method DestroyRef(r: HandlerRef)
      requires Valid() && Outside(r)
      modifies kernel, FileOf(r)
      ensures unchanged(this) && Values() == old(Values())
      ensures kernel.open == if IsOpen(old(ValueOf(r))) then old(kernel.open) else old(kernel.open) - {FileOf(r).fd}
    {
      assert FileOf(r) in ObjectsOf(r);
      FileOf(r).Destroy(kernel);
      forall x | x in handlers ensures ValueOf(handlers[x]) == old(ValueOf(handlers[x])) {
        Owned(x);
      }
    }

    /** A handler that shares no object with the poller and its map. */
    ghost predicate Outside(r: HandlerRef)
      reads this`handlers
    {
      ObjectsOf(r) !! Objects() && this !in ObjectsOf(r) && kernel !in ObjectsOf(r)
    }

    /** The other handlers share nothing with one of them. */
    lemma Alone(fd: int)
      requires Valid() && fd in handlers
      ensures this !in ObjectsOf(handlers[fd]) && kernel !in ObjectsOf(handlers[fd])
      ensures forall x :: x in handlers && x != fd ==> ObjectsOf(handlers[x]) !! ObjectsOf(handlers[fd])
    {
      Owned(fd);
      forall x | x in handlers && x != fd ensures ObjectsOf(handlers[x]) !! ObjectsOf(handlers[fd]) {
        Apart(x, fd);
      }
    }

    /** `TcpListenerPollHandler::read`: accept, and add a handler for the new socket. An accept that fails
        throws, and nothing catches that before event_loop is left. */
    method ListenerRead(tls: bool, answer: AcceptAnswer)
      requires Valid()
      modifies this, kernel, Objects()
      ensures Valid()
      ensures forall o :: o in Objects() && o !in old(Objects()) ==> fresh(o)
      ensures forall x :: x in old(handlers) ==> x in handlers
      ensures Value() == Spec.ListenerRead(old(Value()), tls, answer)
    {
      if answer.AcceptFails? || answer.fd in kernel.open {
        running := false;
        return;
      }
      kernel.Opened(answer.fd);
      var handler := NewConnection(tls, answer.fd);
      ghost var p := old(Value());
      assert Value() == p.(kernel := p.kernel + {answer.fd});
      AddHandler(ConnRef(handler));
    }

    // ---------------------------------------------------------------- event_loop

    /** `handle_event`. */
    method HandleEvent(pf: PollFd, script: FdScript)
      requires Valid() && pf.fd in handlers
      modifies this, kernel, Objects()
      ensures Valid()
      ensures forall o :: o in Objects() && o !in old(Objects()) ==> fresh(o)
      ensures forall x :: x in old(handlers) ==> x in handlers
      ensures Value() == Spec.HandleEvent(old(Value()), pf, script)
    {
      match handlers[pf.fd] {
        case ListenerRef(l) =>
          if pf.revents.readable {
            ListenerRead(l.tls, script.accept);
          }
        case ConnRef(_) =>
          if pf.revents.readable {
            var go := HandleRead(pf.fd, script.readCalls);
            if !go {
              return;
            }
          }
          if pf.revents.writable {
            HandleWrite(pf.fd, script.writeCalls);
          }
      }
    }

    /** The keys of the handler map, in its order. */
    method SortedKeys() returns (keys: seq<int>)
      ensures keys == KeysInOrder(Value()) && Value() == old(Value())
    {
      keys := Sorted(handlers.Keys);
      AscendingUnique(keys, KeysInOrder(Value()));
    }

    /** The virtual calls of `want_read` and `want_write`. */
    method WantsOf(fd: int, bio: Flags) returns (wants: Flags)
      requires fd in handlers
      ensures wants == Wants(Values()[fd], bio) && Value() == old(Value())
    {
      match handlers[fd] {
        case ListenerRef(_) =>
          wants := Flags(true, false, true);
        case ConnRef(h) =>
          var open := h.stream.socket.isOpen;
          wants := Flags(open || bio.readable, open && (h.writeQueue != [] || bio.writable), true);
      }
    }

    /** `make_poll_fds`. */
    method MakePollFds(keys: seq<int>, pass: Pass) returns (fds: seq<PollFd>)
      requires Valid() && KeysOf(Value(), keys)
      ensures fds == Spec.MakePollFds(Value(), keys, pass) && Value() == old(Value())
    {
      ghost var made := Spec.MakePollFds(Value(), keys, pass);
      fds := [];
      var i := 0;
      while i < |keys|
        invariant i <= |keys|
        invariant fds == made[..i]
      {
        MadeAt(Value(), keys, pass, i);
        PrefixNext(made, i);
        var wants := WantsOf(keys[i], ScriptOf(pass, keys[i]).bioWants);
        var pf := PollFd(keys[i], wants, NOTHING);
        assert pf == made[i];
        fds := fds + [pf];
        i := i + 1;
      }
    }

    static lemma {:induction false} MadeAt(p: Spec.Poller, keys: seq<int>, pass: Pass, i: nat)
      requires KeysOf(p, keys) && i < |keys|
      ensures Spec.MakePollFds(p, keys, pass)[i] ==
              PollFd(keys[i], Wants(p.handlers[keys[i]], ScriptOf(pass, keys[i]).bioWants), NOTHING)
    {
      if i > 0 {
        MadeAt(p, keys[1..], pass, i - 1);
      }
    }

    /** The scan of the polled descriptors. */
    method Scan(fds: seq<PollFd>, count: int, pass: Pass)
      requires Valid() && Known(Value(), fds)
      modifies this, kernel, Objects()
      ensures Valid()
      ensures forall o :: o in Objects() && o !in old(Objects()) ==> fresh(o)
      ensures Value() == Spec.Scan(old(Value()), fds, count, pass)
    {
      var i, active := 0, count;
      while i < |fds|
        invariant i <= |fds| && Valid()
        invariant forall o :: o in Objects() && o !in old(Objects()) ==> fresh(o)
        invariant Known(Value(), fds[i..])
        invariant Spec.Scan(Value(), fds[i..], active, pass) == Spec.Scan(old(Value()), fds, count, pass)
      {
        assert fds[i..][0] == fds[i] && fds[i..][1..] == fds[i + 1..];
        if fds[i].revents != NOTHING {
          HandleEvent(fds[i], ScriptOf(pass, fds[i].fd));
          if !running {
            return;
          }
          active := active - 1;
          if active == 0 {
            return;
          }
        }
        i := i + 1;
      }
    }

    /** `find_closed_handler_fds`. */
    method FindClosedHandlerFds(keys: seq<int>) returns (fds: seq<int>)
      requires Valid() && KeysOf(Value(), keys)
      ensures fds == ClosedFds(Value(), keys) && Value() == old(Value())
    {
      ghost var p := Value();
      fds := [];
      var i := 0;
      while i < |keys|
        invariant i <= |keys|
        invariant fds == ClosedFds(p, keys[..i])
      {
        assert keys[..i + 1][..i] == keys[..i];
        OpenFlag(keys[i]);
        if !FileOf(handlers[keys[i]]).isOpen {
          fds := fds + [keys[i]];
        }
        i := i + 1;
      }
      assert keys[..i] == keys;
    }

    lemma OpenFlag(fd: int)
      requires fd in handlers
      ensures FileOf(handlers[fd]).isOpen == IsOpen(Values()[fd])
    {
    }

    /** One round of `remove_closed_handlers`: erase, on_close, then the destructor. */
    method RemoveHandler(fd: int)
      requires Valid() && fd in handlers
      modifies this, kernel, Objects()
      ensures Valid() && handlers == old(handlers) - {fd}
      ensures Value() == Remove(old(Value()), fd)
    {
      var r := handlers[fd];
      Owned(fd);
      Alone(fd);
      assert FileOf(r) in ObjectsOf(r);
      Forget(fd);
      if r.ConnRef? {
        OnClose(fd);
      }
      DestroyRef(r);
    }

    method Forget(fd: int)
      requires Valid() && fd in handlers
      modifies this`handlers
      ensures Valid() && handlers == old(handlers) - {fd}
      ensures Values() == old(Values()) - {fd}
    {
      handlers := handlers - {fd};
      forall x | x in handlers ensures ValueOf(handlers[x]) == old(Values()[x]) {
      }
    }

    method OnClose(fd: int)
      requires Valid()
      modifies this`log, this`app
      ensures Value() == Spec.OnClose(old(Value()), fd)
    {
      log := log + [Closed(fd)];
      if app.Chat? {
        app := Chat(app.clients - {fd});
      }
    }

    /** `remove_closed_handlers`. */
    method RemoveClosedHandlers(fds: seq<int>)
      requires Valid() && Ascending(fds) && KeysOf(Value(), fds)
      modifies this, kernel, Objects()
      ensures Valid() && forall o :: o in Objects() ==> o in old(Objects())
      ensures Value() == RemoveAll(old(Value()), fds)
    {
      var i := 0;
      while i < |fds|
        invariant i <= |fds| && Valid() && Ascending(fds[i..])
        invariant forall o :: o in Objects() ==> o in old(Objects())
        invariant KeysOf(Value(), fds[i..])
        invariant RemoveAll(Value(), fds[i..]) == RemoveAll(old(Value()), fds)
      {
        assert fds[i..][0] == fds[i] && fds[i..][1..] == fds[i + 1..];
        RemoveStep(Value(), fds[i..]);
        RemoveHandler(fds[i]);
        i := i + 1;
      }
    }

    /** `event_loop`: one turn for each pass that the environment has answers for. */
    method EventLoop(passes: seq<Pass>)
      requires Valid()
      modifies this, kernel, Objects()
      ensures Valid()
      ensures Value() == Run(old(Value()), passes)
    {
      var i := 0;
      while running && i < |passes|
        invariant i <= |passes| && Valid()
        invariant forall o :: o in Objects() && o !in old(Objects()) ==> fresh(o)
        invariant Run(Value(), passes[i..]) == Run(old(Value()), passes)
      {
        assert passes[i..][0] == passes[i] && passes[i..][1..] == passes[i + 1..];
        OnePass(passes[i]);
        i := i + 1;
      }
    }

    method OnePass(pass: Pass)
      requires Valid()
      modifies this, kernel, Objects()
      ensures Valid()
      ensures forall o :: o in Objects() && o !in old(Objects()) ==> fresh(o)
      ensures Value() == RunPass(old(Value()), pass)
    {
      if pass.pollFails {
        running := false;
        return;
      }
      var fds := Poll(pass);
      Scan(fds, CountActive(fds), pass);
      if running {
        RemoveClosed();
      }
    }

    /** `make_poll_fds`, then the kernel's answers. */
    method Poll(pass: Pass) returns (fds: seq<PollFd>)
      requires Valid()
      ensures fds == PassFds(Value(), pass) && Value() == old(Value())
    {
      var keys := SortedKeys();
      fds := MakePollFds(keys, pass);
      fds := PollKernel(fds, pass);
    }

    /** The closed handlers are found first, and removed then. */
    method RemoveClosed()
      requires Valid()
      modifies this, kernel, Objects()
      ensures Valid() && forall o :: o in Objects() ==> o in old(Objects())
      ensures Value() == Spec.RemoveClosed(old(Value()))
    {
      ghost var p := Value();
      var keys := SortedKeys();
      var closed := FindClosedHandlerFds(keys);
      ClosedFdsExact(p, keys);
      RemoveClosedHandlers(closed);
    }
  }

  /** `main` of echo-server.cpp and chat-server.cpp: a poller with one listener, whose socket has just been
      opened, runs its loop. */
  method Serve(kernel: Kernel, app: App, lfd: int, tls: bool, passes: seq<Pass>) returns (p: Poller)
    requires lfd !in kernel.open
    modifies kernel
    ensures p.Value() == Run(Start(app, lfd, tls, old(kernel.open)), passes)
  {
    ghost var others := kernel.open;
    kernel.Opened(lfd);
    var file := new File(lfd);
    var listener := new TcpListenerPollHandler(file, tls);
    p := new Poller(kernel, app);
    p.AddHandler(ListenerRef(listener));
    assert p.Value() == Start(app, lfd, tls, others);
    p.EventLoop(passes);
  }
}
