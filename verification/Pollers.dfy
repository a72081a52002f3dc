/** project/io/poller.hpp with the callbacks of echo-server.cpp and chat-server.cpp: the poll loop as a
    function of its state and of what the kernel answers. */
module Pollers {
  import opened Wire
  import opened TcpStreams
  import opened Handlers

  /** The application behind the callbacks: the echo server, or the chat server with its set of clients. */
  datatype App = Echo | Chat(clients: set<int>)

  datatype PollHandler = Listener(isOpen: bool, tls: bool) | Conn(handler: Handler)

  /** The calls of on_open, on_read, on_error and on_close, in order. */
  datatype Event = Opened(fd: int) | Delivery(fd: int, bufs: seq<Bytes>) | Failed(fd: int) | Closed(fd: int)

  /** `kernel` is the set of descriptors that the process has open; a poller that is no longer running has
      been left by an exception. */
  datatype Poller = Poller(
    kernel: set<int>,
    handlers: map<int, PollHandler>,
    app: App,
    log: seq<Event>,
    running: bool)

  const KILLME: Bytes := "KILLME"
  const BUFSIZ: nat := 8096

  function IsOpen(ph: PollHandler): bool {
    match ph
    case Listener(isOpen, _) => isOpen
    case Conn(h) => h.stream.isOpen
  }

  // ------------------------------------------------------------------ the operations given to callbacks

  /** The same application, and the same descriptors, with the same kind of handler each. */
  ghost predicate SameKinds(p: Poller, q: Poller) {
    && p.app.Echo? == q.app.Echo?
    && (forall fd :: fd in p.handlers <==> fd in q.handlers)
    && forall fd :: fd in p.handlers ==> (p.handlers[fd].Conn? <==> q.handlers[fd].Conn?)
  }

  function OnOpen(p: Poller, fd: int): Poller {
    p.(log := p.log + [Opened(fd)], app := if p.app.Chat? then Chat(p.app.clients + {fd}) else p.app)
  }

  function OnClose(p: Poller, fd: int): Poller {
    p.(log := p.log + [Closed(fd)], app := if p.app.Chat? then Chat(p.app.clients - {fd}) else p.app)
  }

  /** `add_handler`. A handler that is replaced is destroyed, and its destructor closes the descriptor when
      its file is not open. */
  function AddHandler(p: Poller, fd: int, ph: PollHandler): Poller {
    var kernel := if fd in p.handlers && !IsOpen(p.handlers[fd]) then p.kernel - {fd} else p.kernel;
    var q := p.(kernel := kernel, handlers := p.handlers[fd := ph]);
    if ph.Conn? then OnOpen(q, fd) else q
  }

  /** `write`: enqueue on the connection, if there is one. */
  function PollerWrite(p: Poller, fd: int, data: Bytes): (q: Poller)
    ensures SameKinds(p, q)
  {
    if fd in p.handlers && p.handlers[fd].Conn? then
      p.(handlers := p.handlers[fd := Conn(Enqueue(p.handlers[fd].handler, data))])
    else p
  }

  /** `close`: closes an open file; a failing ::close would end the process. */
  function PollerClose(p: Poller, fd: int): (q: Poller)
    ensures SameKinds(p, q)
  {
    if fd !in p.handlers || !IsOpen(p.handlers[fd]) then p
    else if fd !in p.kernel then p.(running := false)
    else p.(kernel := p.kernel - {fd}, handlers := p.handlers[fd := AsClosed(p.handlers[fd])])
  }

  function AsClosed(ph: PollHandler): PollHandler {
    match ph
    case Listener(_, tls) => Listener(false, tls)
    case Conn(h) => Conn(CloseHandler(h))
  }

  // ------------------------------------------------------------------ on_read

  /** The echo server: write each chunk back, or close on "KILLME". */
  function EchoEach(p: Poller, fd: int, bufs: seq<Bytes>): (q: Poller)
    ensures SameKinds(p, q)
    decreases |bufs|
  {
    if bufs == [] then p
    else EchoEach(if bufs[0] == KILLME then PollerClose(p, fd) else PollerWrite(p, fd, bufs[0]), fd, bufs[1..])
  }

  /** The chat server: write one chunk to every client but its sender. */
  function Broadcast(p: Poller, clients: seq<int>, fd: int, data: Bytes): (q: Poller)
    ensures SameKinds(p, q)
    decreases |clients|
  {
    if clients == [] then p
    else Broadcast(if clients[0] != fd then PollerWrite(p, clients[0], data) else p, clients[1..], fd, data)
  }

  function ChatEach(p: Poller, clients: seq<int>, fd: int, bufs: seq<Bytes>): (q: Poller)
    ensures SameKinds(p, q)
    decreases |bufs|
  {
    if bufs == [] then p else ChatEach(Broadcast(p, clients, fd, bufs[0]), clients, fd, bufs[1..])
  }

  function OnRead(p: Poller, fd: int, bufs: seq<Bytes>): (r: Poller)
    ensures SameKinds(p, r)
  {
    var q := p.(log := p.log + [Delivery(fd, bufs)]);
    match p.app
    case Echo => EchoEach(q, fd, bufs)
    case Chat(clients) => ChatEach(q, Sorted(clients), fd, bufs)
  }

  // ------------------------------------------------------------------ one event

  datatype Flags = Flags(readable: bool, writable: bool, other: bool)

  datatype PollFd = PollFd(fd: int, events: Flags, revents: Flags)

  datatype AcceptAnswer = Accepts(fd: int) | AcceptFails

  /** What the environment answers about one descriptor during one pass. */
  datatype FdScript = FdScript(
    bioWants: Flags,
    revents: Flags,
    accept: AcceptAnswer,
    readCalls: seq<Answers>,
    writeCalls: WriteScript)

  const NOTHING := Flags(false, false, false)
  const QUIET := FdScript(NOTHING, NOTHING, AcceptFails, [], WriteScript([], false, IDLE))

  datatype Pass = Pass(pollFails: bool, fds: map<int, FdScript>)

  function ScriptOf(pass: Pass, fd: int): FdScript {
    if fd in pass.fds then pass.fds[fd] else QUIET
  }

  /** `TcpListenerPollHandler::read`. The kernel never accepts on a descriptor that is in use. */
  function ListenerRead(p: Poller, tls: bool, answer: AcceptAnswer): Poller {
    match answer
    case AcceptFails => p.(running := false)
    case Accepts(fd) =>
      if fd in p.kernel then p.(running := false)
      else
        var stream := if tls then TlsStream(false) else PlainStream();
        AddHandler(p.(kernel := p.kernel + {fd}), fd, Conn(NewHandler(stream, BUFSIZ, BUFSIZ)))
  }

  function SetConn(p: Poller, fd: int, h: Handler): Poller {
    p.(handlers := p.handlers[fd := Conn(h)])
  }

  /** Reading from a connection and dequeuing all that was read. */
  function ReadFrom(p: Poller, fd: int, script: seq<Answers>): (Poller, Outcome<bool>, seq<Bytes>)
    requires fd in p.handlers && p.handlers[fd].Conn?
  {
    var (h, r) := HandlerRead(p.handlers[fd].handler, script);
    if r.Threw? then (SetConn(p, fd, h), r, []) else (SetConn(p, fd, h.(readQueue := [])), r, h.readQueue)
  }

  function OnError(p: Poller, fd: int): Poller {
    p.(log := p.log + [Failed(fd)])
  }

  /** `handle_read` on a connection: read, dequeue everything, call on_read. */
  function HandleRead(p: Poller, fd: int, script: seq<Answers>): (r: (Poller, bool))
    requires fd in p.handlers && p.handlers[fd].Conn?
    ensures SameKinds(p, r.0)
  {
    var (q, o, bufs) := ReadFrom(p, fd, script);
    if o.Threw? then (OnError(q, fd), false)
    else (if bufs == [] then q else OnRead(q, fd, bufs), o == Ok(true))
  }

  function WriteTo(p: Poller, fd: int, script: WriteScript): (Poller, Outcome<bool>)
    requires fd in p.handlers && p.handlers[fd].Conn?
  {
    var (h, r) := HandlerWrite(p.handlers[fd].handler, script);
    (SetConn(p, fd, h), r)
  }

  /** `handle_write` on a connection. */
  function HandleWrite(p: Poller, fd: int, script: WriteScript): Poller
    requires fd in p.handlers && p.handlers[fd].Conn?
  {
    var (q, r) := WriteTo(p, fd, script);
    if r.Threw? then OnError(q, fd) else q
  }

  /** `handle_event`: the handler looked up must exist. */
  function HandleEvent(p: Poller, pf: PollFd, script: FdScript): (r: Poller)
    requires pf.fd in p.handlers
    ensures r.app.Echo? == p.app.Echo?
    ensures forall fd :: fd in p.handlers ==> fd in r.handlers
  {
    match p.handlers[pf.fd]
    case Listener(_, tls) => if pf.revents.readable then ListenerRead(p, tls, script.accept) else p
    case Conn(_) =>
      var (q, go) := if pf.revents.readable then HandleRead(p, pf.fd, script.readCalls) else (p, true);
      if go && pf.revents.writable then HandleWrite(q, pf.fd, script.writeCalls) else q
  }

  // ------------------------------------------------------------------ one pass

  predicate KeysOf(p: Poller, keys: seq<int>) {
    forall i :: 0 <= i < |keys| ==> keys[i] in p.handlers
  }

  function KeysInOrder(p: Poller): (keys: seq<int>)
    ensures Ascending(keys) && KeysOf(p, keys)
    ensures forall fd :: fd in keys <==> fd in p.handlers
  {
    Sorted(p.handlers.Keys)
  }

  /** `want_read` and `want_write`, given what the BIO wants. */
  function Wants(ph: PollHandler, bio: Flags): Flags {
    match ph
    case Listener(_, _) => Flags(true, false, true)
    case Conn(h) =>
      Flags(h.stream.isOpen || bio.readable, h.stream.isOpen && (h.writeQueue != [] || bio.writable), true)
  }

  /** `make_poll_fds`: what each handler wants, in key order. */
  function MakePollFds(p: Poller, keys: seq<int>, pass: Pass): (fds: seq<PollFd>)
    requires KeysOf(p, keys)
    ensures |fds| == |keys| && forall i :: 0 <= i < |fds| ==> fds[i].fd == keys[i]
  {
    if keys == [] then []
    else
      var wants := Wants(p.handlers[keys[0]], ScriptOf(pass, keys[0]).bioWants);
      [PollFd(keys[0], wants, NOTHING)] + MakePollFds(p, keys[1..], pass)
  }

  function And(a: Flags, b: Flags): Flags {
    Flags(a.readable && b.readable, a.writable && b.writable, a.other && b.other)
  }

  /** `::poll`: the kernel reports only what was asked for. */
  function PollKernel(fds: seq<PollFd>, pass: Pass): (r: seq<PollFd>)
    ensures |r| == |fds| && forall i :: 0 <= i < |fds| ==> r[i].fd == fds[i].fd
  {
    if fds == [] then []
    else
      [fds[0].(revents := And(fds[0].events, ScriptOf(pass, fds[0].fd).revents))] + PollKernel(fds[1..], pass)
  }

  /** The count that `::poll` returns. */
  function CountActive(fds: seq<PollFd>): nat {
    if fds == [] then 0 else (if fds[0].revents != NOTHING then 1 else 0) + CountActive(fds[1..])
  }

  predicate Known(p: Poller, fds: seq<PollFd>) {
    forall i :: 0 <= i < |fds| ==> fds[i].fd in p.handlers
  }

  /** The scan of `event_loop`, which stops when the count of active descriptors is used up. */
  function Scan(p: Poller, fds: seq<PollFd>, active: int, pass: Pass): (r: Poller)
    requires Known(p, fds)
    ensures r.app.Echo? == p.app.Echo?
    decreases |fds|
  {
    if fds == [] then p
    else if fds[0].revents == NOTHING then Scan(p, fds[1..], active, pass)
    else
      var q := HandleEvent(p, fds[0], ScriptOf(pass, fds[0].fd));
      if !q.running || active - 1 == 0 then q else Scan(q, fds[1..], active - 1, pass)
  }

  /** `find_closed_handler_fds`. */
  function ClosedFds(p: Poller, keys: seq<int>): seq<int> {
    if keys == [] then []
    else
      var i := |keys| - 1;
      var fd := keys[i];
      ClosedFds(p, keys[..i]) + if fd in p.handlers && !IsOpen(p.handlers[fd]) then [fd] else []
  }

  /** They are the closed ones among the keys, in order. */
  lemma {:induction false} ClosedFdsExact(p: Poller, keys: seq<int>)
    requires Ascending(keys) && KeysOf(p, keys)
    ensures Ascending(ClosedFds(p, keys))
    ensures forall fd :: fd in ClosedFds(p, keys) <==> fd in keys && !IsOpen(p.handlers[fd])
    ensures KeysOf(p, ClosedFds(p, keys))
  {
    if keys != [] {
      var i := |keys| - 1;
      assert keys == keys[..i] + [keys[i]];
      ClosedFdsExact(p, keys[..i]);
      var before := ClosedFds(p, keys[..i]);
      assert forall k :: 0 <= k < |before| ==> before[k] in before;
    }
  }

  lemma {:induction false} NoneClosed(p: Poller, keys: seq<int>)
    requires forall i :: 0 <= i < |keys| ==> keys[i] in p.handlers && IsOpen(p.handlers[keys[i]])
    ensures ClosedFds(p, keys) == []
  {
    if keys != [] {
      NoneClosed(p, keys[..|keys| - 1]);
    }
  }

  /** One round of `remove_closed_handlers`: erase, on_close, then the destructor closes the descriptor of a
      file that is not open. */
  function Remove(p: Poller, fd: int): Poller
    requires fd in p.handlers
  {
    var ph := p.handlers[fd];
    var q := p.(handlers := p.handlers - {fd});
    var r := if ph.Conn? then OnClose(q, fd) else q;
    if IsOpen(ph) then r else r.(kernel := r.kernel - {fd})
  }

  lemma RemoveStep(p: Poller, fds: seq<int>)
    requires Ascending(fds) && KeysOf(p, fds) && fds != []
    ensures Ascending(fds[1..]) && KeysOf(Remove(p, fds[0]), fds[1..])
  {
  }

  function RemoveAll(p: Poller, fds: seq<int>): (r: Poller)
    requires Ascending(fds) && KeysOf(p, fds)
    ensures r.app.Echo? == p.app.Echo?
    decreases |fds|
  {
    if fds == [] then p
    else
      RemoveStep(p, fds);
      RemoveAll(Remove(p, fds[0]), fds[1..])
  }

  /** What one pass polls, with the kernel's answers. */
  function PassFds(p: Poller, pass: Pass): (fds: seq<PollFd>)
    ensures Known(p, fds)
    ensures forall i, j :: 0 <= i < j < |fds| ==> fds[i].fd < fds[j].fd
  {
    PollKernel(MakePollFds(p, KeysInOrder(p), pass), pass)
  }

  /** `remove_closed_handlers`, both of them. */
  function RemoveClosed(p: Poller): (r: Poller)
    ensures r.app.Echo? == p.app.Echo?
  {
    var keys := KeysInOrder(p);
    ClosedFdsExact(p, keys);
    RemoveAll(p, ClosedFds(p, keys))
  }

  /** One turn of the loop of `event_loop`. */
  function RunPass(p: Poller, pass: Pass): (r: Poller)
    ensures r.app.Echo? == p.app.Echo?
  {
    if pass.pollFails then p.(running := false)
    else
      var fds := PassFds(p, pass);
      var q := Scan(p, fds, CountActive(fds), pass);
      if q.running then RemoveClosed(q) else q
  }

  /** `event_loop`, for as many turns as the environment has answers for. */
  function Run(p: Poller, passes: seq<Pass>): (r: Poller)
    ensures r.app.Echo? == p.app.Echo?
    decreases |passes|
  {
    if passes == [] || !p.running then p else Run(RunPass(p, passes[0]), passes[1..])
  }
}
