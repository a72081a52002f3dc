/** project/server.cpp: the edge-triggered echo server as functions of what the kernel answers. */
module EpollServer {
  import opened Wire

  // ------------------------------------------------------------------ one client

  /** The front of `buffers` is the newest buffer, the back the oldest. The other fields record what has been
      read and written, and whether the last write would have blocked. */
  datatype Client = Client(buffers: seq<Entry>, read: Bytes, written: Bytes, blocked: bool)

  const NEW_CLIENT := Client([], [], [], false)

  const BUFFER_SIZE: nat := 100

  /** `read` returns bytes, at most a buffer full; none at all means end of file. */
  datatype ReadAnswer = Got(data: Bytes) | ReadAgain | ReadError

  /** `write` takes a number of bytes; when it takes none the error number decides, whatever it is. */
  datatype WriteAnswer = Took(count: nat, again: bool)

  datatype ReadState = READ_OK | READ_WOULD_BLOCK | END_OF_FILE | READ_ERROR

  datatype WriteState = WRITE_OK | NOTHING_TO_WRITE | WRITE_WOULD_BLOCK | WRITE_ERROR

  function ClientRead(c: Client, answer: ReadAnswer): (Client, ReadState) {
    match answer
    case ReadAgain => (c, READ_WOULD_BLOCK)
    case ReadError => (c, READ_ERROR)
    case Got(data) =>
      var chunk := data[..Min(|data|, BUFFER_SIZE)];
      if chunk == [] then (c, END_OF_FILE)
      else (c.(buffers := [Entry(chunk, 0)] + c.buffers, read := c.read + chunk), READ_OK)
  }

  /** `client_reads`, until it is over; no more answers means that reading would block. */
  function ClientReads(c: Client, script: seq<ReadAnswer>): (Client, bool)
    decreases |script|
  {
    if script == [] then (c, true)
    else
      var (d, state) := ClientRead(c, script[0]);
      match state
      case READ_OK => ClientReads(d, script[1..])
      case READ_WOULD_BLOCK => (d, true)
      case _ => (d, false)
  }

  function ClientWrite(c: Client, answer: WriteAnswer): (Client, WriteState) {
    if c.buffers == [] then (c, NOTHING_TO_WRITE)
    else
      var last := |c.buffers| - 1;
      var buffer := c.buffers[last];
      var n := Min(answer.count, |buffer.data| - buffer.offset);
      if n == 0 then (c.(blocked := answer.again), if answer.again then WRITE_WOULD_BLOCK else WRITE_ERROR)
      else
        (Client(
           Advanced(c.buffers, n),
           c.read,
           c.written + buffer.data[buffer.offset..buffer.offset + n],
           false), WRITE_OK)
  }

  /** The oldest buffer moves on by what was written, and goes when it is used up. */
  function Advanced(buffers: seq<Entry>, n: nat): seq<Entry>
    requires buffers != [] && buffers[|buffers| - 1].offset + n <= |buffers[|buffers| - 1].data|
  {
    var last := |buffers| - 1;
    var offset := buffers[last].offset + n;
    buffers[..last] + if offset == |buffers[last].data| then [] else [Entry(buffers[last].data, offset)]
  }

  /** `client_writes`, until it is over; no more answers means that writing would block. */
  function ClientWrites(c: Client, script: seq<WriteAnswer>): (Client, bool)
    decreases |script|
  {
    var (d, state) := ClientWrite(c, if script == [] then Took(0, true) else script[0]);
    match state
    case WRITE_OK => if script == [] then (d, true) else ClientWrites(d, script[1..])
    case NOTHING_TO_WRITE => (d, true)
    case WRITE_WOULD_BLOCK => (d, true)
    case WRITE_ERROR => (d, false)
  }

  // ------------------------------------------------------------------ the server

  /** `open` are the descriptors of the process, `interest` those that epoll watches; `quit` records that the
      signal descriptor has been closed. */
  datatype Server = Server(
    listener: int,
    signal: int,
    clients: map<int, Client>,
    interest: set<int>,
    open: set<int>,
    quit: bool)

  datatype AcceptAnswer = Accepted(fd: int, nonBlocking: bool, watched: bool) | AcceptAgain | AcceptError

  datatype SignalAnswer = Interrupted | QuitRequested | SignalAgain | SignalError

  datatype ListenState = LISTEN_OK | LISTEN_WOULD_BLOCK | LISTEN_ERROR

  /** `accept_client`. The kernel never accepts on a descriptor that is in use; a descriptor that cannot be
      made non-blocking or watched stays open, and belongs to nobody. */
  function AcceptClient(s: Server, answer: AcceptAnswer): (Server, ListenState) {
    match answer
    case AcceptAgain => (s, LISTEN_WOULD_BLOCK)
    case AcceptError => (s, LISTEN_ERROR)
    case Accepted(fd, nonBlocking, watched) =>
      if fd in s.open then (s, LISTEN_ERROR)
      else
        var t := s.(open := s.open + {fd});
        if !nonBlocking || !watched then (t, LISTEN_ERROR)
        else (t.(interest := t.interest + {fd}, clients := t.clients[fd := NEW_CLIENT]), LISTEN_OK)
  }

  function AcceptClients(s: Server, script: seq<AcceptAnswer>): (Server, bool)
    decreases |script|
  {
    if script == [] then (s, true)
    else
      var (t, state) := AcceptClient(s, script[0]);
      match state
      case LISTEN_OK => AcceptClients(t, script[1..])
      case LISTEN_WOULD_BLOCK => (t, true)
      case LISTEN_ERROR => (t, false)
  }

  /** `read_signals`: on SIGQUIT the signal descriptor is closed, and so is no longer watched. */
  function ReadSignals(s: Server, script: seq<SignalAnswer>): (Server, bool)
    decreases |script|
  {
    if script == [] then (s, true)
    else
      match script[0]
      case Interrupted => ReadSignals(s, script[1..])
      case SignalAgain => (s, true)
      case SignalError => (s, false)
      case QuitRequested => (s.(open := s.open - {s.signal}, interest := s.interest - {s.signal}, quit := true), false)
  }

  datatype Event = Event(
    fd: int,
    readable: bool,
    writable: bool,
    readScript: seq<ReadAnswer>,
    writeScript: seq<WriteAnswer>,
    accepts: seq<AcceptAnswer>,
    signals: seq<SignalAnswer>)

  /** The client is taken out of epoll, closed and erased. */
  function Drop(s: Server, fd: int): Server {
    s.(interest := s.interest - {fd}, open := s.open - {fd}, clients := s.clients - {fd})
  }

  /** `read_write_client`: the entry of a client that is not in the map is made on the way. */
  function ReadWriteClient(s: Server, e: Event): Server {
    var c := if e.fd in s.clients then s.clients[e.fd] else NEW_CLIENT;
    var (d, open) := Serve(c, e);
    if open then s.(clients := s.clients[e.fd := d]) else Drop(s, e.fd)
  }

  /** Reading, and then writing, as the event says. */
  function Serve(c: Client, e: Event): (Client, bool) {
    var (d, open) := if e.readable then ClientReads(c, e.readScript) else (c, true);
    if open && e.writable then ClientWrites(d, e.writeScript) else (d, open)
  }

  /** `handle_event`, and whether to go on listening. */
  function HandleEvent(s: Server, e: Event): (Server, bool) {
    if e.fd == s.listener then AcceptClients(s, e.accepts)
    else if e.fd == s.signal then ReadSignals(s, e.signals)
    else (if e.readable || e.writable then ReadWriteClient(s, e) else s, true)
  }

  /** The loop over the events of one epoll_wait; only the last answer decides whether to go on. */
  function HandleEvents(s: Server, events: seq<Event>, listening: bool): (Server, bool)
    decreases |events|
  {
    if events == [] then (s, listening)
    else
      var (t, next) := HandleEvent(s, events[0]);
      HandleEvents(t, events[1..], next)
  }

  /** `::epoll_wait`: only what is watched is reported, and each descriptor once. */
  function EpollWait(interest: set<int>, events: seq<Event>): seq<Event>
    decreases |events|
  {
    if events == [] then []
    else if events[0].fd in interest then [events[0]] + EpollWait(interest - {events[0].fd}, events[1..])
    else EpollWait(interest, events[1..])
  }

  datatype Wait = WaitFails | TimedOut | Ready(events: seq<Event>)

  /** The loop of `main`, for as many turns as the environment has answers for. */
  function Run(s: Server, listening: bool, waits: seq<Wait>): (Server, bool)
    decreases |waits|
  {
    if waits == [] || !listening then (s, listening)
    else
      match waits[0]
      case WaitFails => (s, false)
      case TimedOut => Run(s, true, waits[1..])
      case Ready(events) =>
        var (t, next) := HandleEvents(s, EpollWait(s.interest, events), true);
        Run(t, next, waits[1..])
  }
}
