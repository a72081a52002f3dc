/** project/server.cpp with clients as objects: queues and offsets that the loops change in place. */
module EpollServerObjects {
  import opened Wire
  import Spec = EpollServer
  import opened EpollServer

  class ClientState {
    var buffers: seq<Entry>
    var read: Bytes
    var written: Bytes
    var blocked: bool

    ghost function Value(): Client
      reads this
    {
      Client(buffers, read, written, blocked)
    }

    constructor ()
      ensures Value() == NEW_CLIENT
    {
      buffers, read, written, blocked := [], [], [], false;
    }

    /** `client_read`: a buffer full goes to the front of the queue. */
    method Read(answer: ReadAnswer) returns (state: ReadState)
      modifies this
      ensures (Value(), state) == ClientRead(old(Value()), answer)
    {
      match answer {
        case ReadAgain => return READ_WOULD_BLOCK;
        case ReadError => return READ_ERROR;
        case Got(data) =>
          var chunk := data[..Min(|data|, BUFFER_SIZE)];
          if chunk == [] {
            return END_OF_FILE;
          }
          buffers := [Entry(chunk, 0)] + buffers;
          read := read + chunk;
          return READ_OK;
      }
    }

    /** `client_reads`; false when the client is to be closed. */
    method Reads(script: seq<ReadAnswer>) returns (ok: bool)
      modifies this
      ensures (Value(), ok) == ClientReads(old(Value()), script)
    {
      var i := 0;
      while i < |script|
        invariant i <= |script|
        invariant ClientReads(Value(), script[i..]) == ClientReads(old(Value()), script)
      {
        assert script[i..][0] == script[i] && script[i..][1..] == script[i + 1..];
        var state := Read(script[i]);
        match state {
          case READ_OK => i := i + 1;
          case READ_WOULD_BLOCK => return true;
          case END_OF_FILE => return false;
          case READ_ERROR => return false;
        }
      }
      return true;
    }

    /** `client_write`: part of the buffer at the back is written. */
    method Write(answer: WriteAnswer) returns (state: WriteState)
      modifies this
      ensures (Value(), state) == ClientWrite(old(Value()), answer)
    {
      if buffers == [] {
        return NOTHING_TO_WRITE;
      }
      var last := |buffers| - 1;
      var buffer := buffers[last];
      var n := Min(answer.count, |buffer.data| - buffer.offset);
      if n == 0 {
        blocked := answer.again;
        return if answer.again then WRITE_WOULD_BLOCK else WRITE_ERROR;
      }
      written := written + buffer.data[buffer.offset..buffer.offset + n];
      blocked := false;
      var offset := buffer.offset + n;
      buffers := buffers[..last];
      if offset != |buffer.data| {
        buffers := buffers + [Entry(buffer.data, offset)];
      } else {
        assert buffers + [] == buffers;
      }
      return WRITE_OK;
    }

    /** `client_writes`; false when the client is to be closed. */
    method Writes(script: seq<WriteAnswer>) returns (ok: bool)
      modifies this
      ensures (Value(), ok) == ClientWrites(old(Value()), script)
    {
      var i := 0;
      while true
        invariant i <= |script|
        invariant ClientWrites(Value(), script[i..]) == ClientWrites(old(Value()), script)
        decreases |script| - i
      {
        var state := Write(if i == |script| then Took(0, true) else script[i]);
        match state {
          case WRITE_OK =>
            assert script[i..][0] == script[i] && script[i..][1..] == script[i + 1..];
            i := i + 1;
          case NOTHING_TO_WRITE => return true;
          case WRITE_WOULD_BLOCK => return true;
          case WRITE_ERROR => return false;
        }
      }
    }
  }

  class EpollEchoServer {
    const listener: int
    const signal: int
    var clients: map<int, ClientState>
    var interest: set<int>
    var open: set<int>
    var quit: bool

    ghost predicate Valid()
      reads this`clients
    {
      && this !in Objects()
      && forall a, b :: a in clients && b in clients && a != b ==> clients[a] != clients[b]
    }

    ghost function Objects(): set<object>
      reads this`clients
    {
      set x | x in clients :: clients[x]
    }

    ghost function Clients(): map<int, Client>
      reads this`clients, Objects()
    {
      map x | x in clients :: clients[x].Value()
    }

    ghost function Value(): Server
      reads this, Objects()
    {
      Server(listener, signal, Clients(), interest, open, quit)
    }

    constructor (listener: int, signal: int, open: set<int>)
      ensures Valid() && clients == map[] && Value() == Server(listener, signal, map[], {listener, signal}, open, false)
    {
      this.listener, this.signal := listener, signal;
      clients, interest, this.open, quit := map[], {listener, signal}, open, false;
    }

    /** A client object is put under a key. */
    method Put(fd: int, c: ClientState)
      requires Valid() && forall x :: x in clients && x != fd ==> clients[x] != c
      modifies this`clients
      ensures Valid() && clients == old(clients)[fd := c]
      ensures Clients() == old(Clients())[fd := c.Value()]
    {
      clients := clients[fd := c];
    }

    /** `accept_client`. */
    method AcceptClient(answer: AcceptAnswer) returns (state: ListenState)
      requires Valid()
      modifies this
      ensures Valid() && forall o :: o in Objects() && o !in old(Objects()) ==> fresh(o)
      ensures (Value(), state) == Spec.AcceptClient(old(Value()), answer)
    {
      match answer {
        case AcceptAgain => return LISTEN_WOULD_BLOCK;
        case AcceptError => return LISTEN_ERROR;
        case Accepted(fd, nonBlocking, watched) =>
          if fd in open {
            return LISTEN_ERROR;
          }
          open := open + {fd};
          if !nonBlocking || !watched {
            return LISTEN_ERROR;
          }
          interest := interest + {fd};
          var c := new ClientState();
          Put(fd, c);
          return LISTEN_OK;
      }
    }

    /** `accept_clients`. */
    method AcceptClients(script: seq<AcceptAnswer>) returns (ok: bool)
      requires Valid()
      modifies this
      ensures Valid() && forall o :: o in Objects() && o !in old(Objects()) ==> fresh(o)
      ensures (Value(), ok) == Spec.AcceptClients(old(Value()), script)
    {
      var i := 0;
      while i < |script|
        invariant i <= |script| && Valid()
        invariant forall o :: o in Objects() && o !in old(Objects()) ==> fresh(o)
        invariant Spec.AcceptClients(Value(), script[i..]) == Spec.AcceptClients(old(Value()), script)
      {
        assert script[i..][0] == script[i] && script[i..][1..] == script[i + 1..];
        var state := AcceptClient(script[i]);
        match state {
          case LISTEN_OK => i := i + 1;
          case LISTEN_WOULD_BLOCK => return true;
          case LISTEN_ERROR => return false;
        }
      }
      return true;
    }

    /** `read_signals`. */
    method ReadSignals(script: seq<SignalAnswer>) returns (ok: bool)
      requires Valid()
      modifies this`interest, this`open, this`quit
      ensures (Value(), ok) == Spec.ReadSignals(old(Value()), script)
    {
      var i := 0;
      while i < |script|
        invariant i <= |script| && Value() == old(Value())
        invariant Spec.ReadSignals(Value(), script[i..]) == Spec.ReadSignals(Value(), script)
      {
        assert script[i..][0] == script[i] && script[i..][1..] == script[i + 1..];
        match script[i] {
          case Interrupted => i := i + 1;
          case SignalAgain => return true;
          case SignalError => return false;
          case QuitRequested =>
            open := open - {signal};
            interest := interest - {signal};
            quit := true;
            return false;
        }
      }
      return true;
    }

    /** The reads and writes of one client object. */
    method ServeClient(fd: int, e: Event) returns (ok: bool)
      requires Valid() && fd in clients
      modifies clients[fd]
      ensures unchanged(this)
      ensures ok == Serve(old(Clients())[fd], e).1
      ensures Clients() == old(Clients())[fd := Serve(old(Clients())[fd], e).0]
    {
      ok := true;
      if e.readable {
        ok := clients[fd].Reads(e.readScript);
      }
      if ok && e.writable {
        ok := clients[fd].Writes(e.writeScript);
      }
      forall x | x in clients && x != fd ensures clients[x].Value() == old(clients[x].Value()) {
      }
      assert clients[fd].Value() == Serve(old(Clients())[fd], e).0;
    }

    /** `epoll_ctl` with EPOLL_CTL_DEL, `close`, and `erase`. */
    method Drop(fd: int)
      requires Valid()
      modifies this
      ensures Valid() && forall o :: o in Objects() ==> o in old(Objects())
      ensures Value() == Spec.Drop(old(Value()), fd)
    {
      interest := interest - {fd};
      open := open - {fd};
      clients := clients - {fd};
    }

    /** `clients[fd]`, which makes an entry when there is none. */
    method MakeEntry(fd: int)
      requires Valid()
      modifies this`clients
      ensures Valid() && fd in clients
      ensures forall o :: o in Objects() && o !in old(Objects()) ==> fresh(o)
      ensures Clients() == if fd in old(clients) then old(Clients()) else old(Clients())[fd := NEW_CLIENT]
    {
      if fd !in clients {
        var c := new ClientState();
        Put(fd, c);
      }
    }

    /** `read_write_client`. */
    method ReadWriteClient(e: Event)
      requires Valid()
      modifies this, Objects()
      ensures Valid() && forall o :: o in Objects() && o !in old(Objects()) ==> fresh(o)
      ensures Value() == Spec.ReadWriteClient(old(Value()), e)
    {
      MakeEntry(e.fd);
      ghost var c := Clients()[e.fd];
      var ok := ServeClient(e.fd, e);
      assert Value() == old(Value()).(clients := old(Clients())[e.fd := Serve(c, e).0]);
      if !ok {
        Drop(e.fd);
        assert old(Clients())[e.fd := Serve(c, e).0] - {e.fd} == old(Clients()) - {e.fd};
      }
    }

    /** `handle_event`. */
    method HandleEvent(e: Event) returns (listening: bool)
      requires Valid()
      modifies this, Objects()
      ensures Valid() && forall o :: o in Objects() && o !in old(Objects()) ==> fresh(o)
      ensures (Value(), listening) == Spec.HandleEvent(old(Value()), e)
    {
      if e.fd == listener {
        listening := AcceptClients(e.accepts);
        return;
      }
      if e.fd == signal {
        listening := ReadSignals(e.signals);
        return;
      }
      if e.readable || e.writable {
        ReadWriteClient(e);
      }
      return true;
    }

    /** The events of one epoll_wait. */
    method HandleEvents(events: seq<Event>) returns (listening: bool)
      requires Valid()
      modifies this, Objects()
      ensures Valid() && forall o :: o in Objects() && o !in old(Objects()) ==> fresh(o)
      ensures (Value(), listening) == Spec.HandleEvents(old(Value()), events, true)
    {
      listening := true;
      var i := 0;
      while i < |events|
        invariant i <= |events| && Valid()
        invariant forall o :: o in Objects() && o !in old(Objects()) ==> fresh(o)
        invariant Spec.HandleEvents(Value(), events[i..], listening) == Spec.HandleEvents(old(Value()), events, true)
      {
        assert events[i..][0] == events[i] && events[i..][1..] == events[i + 1..];
        listening := HandleEvent(events[i]);
        i := i + 1;
      }
    }

    /** The loop of `main`. */
    method Loop(waits: seq<Wait>) returns (listening: bool)
      requires Valid()
      modifies this, Objects()
      ensures Valid()
      ensures (Value(), listening) == Run(old(Value()), true, waits)
    {
      listening := true;
      var i := 0;
      while listening && i < |waits|
        invariant i <= |waits| && Valid()
        invariant forall o :: o in Objects() && o !in old(Objects()) ==> fresh(o)
        invariant Run(Value(), listening, waits[i..]) == Run(old(Value()), true, waits)
      {
        assert waits[i..][0] == waits[i] && waits[i..][1..] == waits[i + 1..];
        match waits[i] {
          case WaitFails => listening := false;
          case TimedOut =>
          case Ready(events) => listening := HandleEvents(EpollWait(interest, events));
        }
        i := i + 1;
      }
    }
  }
}
