/** What project/server.cpp does for a client: when it keeps it and when it gives it up, what it reads and writes. */
module EpollClients {
  import opened Basics
  import opened Wire
  import opened EpollServer
  import opened EpollServerTheorems

  // ------------------------------------------------------------------ reading

  /** The end of the file, or an error, comes before reading would block. */
  predicate ReadsFail(script: seq<ReadAnswer>)
    decreases |script|
  {
    script != [] &&
    match script[0]
    case Got(data) => data == [] || ReadsFail(script[1..])
    case ReadAgain => false
    case ReadError => true
  }

  /** The chunks that come before anything else. */
  function Chunks(script: seq<ReadAnswer>): seq<Bytes>
    decreases |script|
  {
    if script == [] || !script[0].Got? || script[0].data == [] then []
    else [script[0].data[..Min(|script[0].data|, 100)]] + Chunks(script[1..])
  }

  function Entries(chunks: seq<Bytes>): seq<Entry> {
    if chunks == [] then [] else [Entry(chunks[0], 0)] + Entries(chunks[1..])
  }

  lemma OneRead(c: Client, data: Bytes)
    requires data != []
    ensures var (d, state) := ClientRead(c, Got(data)); var chunk := data[..Min(|data|, 100)];
      && state == READ_OK && d.read == c.read + chunk && d.written == c.written && d.blocked == c.blocked
      && OldestFirst(d.buffers) == OldestFirst(c.buffers) + [Entry(chunk, 0)]
  {
    PushFront(Entry(data[..Min(|data|, 100)], 0), c.buffers);
  }

  /** client_reads fails if and only if the end or an error comes before reading would block; and it has read, and
      queued behind the rest, exactly the chunks that came first. */
  lemma {:induction false} ReadsExact(c: Client, script: seq<ReadAnswer>)
    ensures var (d, ok) := ClientReads(c, script);
      && (ok <==> !ReadsFail(script))
      && d.read == c.read + Flatten(Chunks(script)) && d.written == c.written && d.blocked == c.blocked
      && OldestFirst(d.buffers) == OldestFirst(c.buffers) + Entries(Chunks(script))
    decreases |script|
  {
    if script != [] && script[0].Got? && script[0].data != [] {
      var data := script[0].data;
      var d := ClientRead(c, script[0]).0;
      var chunk := data[..Min(|data|, 100)];
      OneRead(c, data);
      ReadsExact(d, script[1..]);
      Associate(c.read, chunk, Flatten(Chunks(script[1..])));
      Associate(OldestFirst(c.buffers), [Entry(chunk, 0)], Entries(Chunks(script[1..])));
    } else {
      assert c.read + [] == c.read && OldestFirst(c.buffers) + [] == OldestFirst(c.buffers);
    }
  }

  // ------------------------------------------------------------------ writing

  /** A queue when so many bytes of its first entry have been taken. */
  function Shorter(queue: seq<Entry>, count: nat): seq<Entry>
    requires queue != []
  {
    var e := queue[0];
    if e.offset + count >= |e.data| then queue[1..] else [Entry(e.data, e.offset + count)] + queue[1..]
  }

  /** A write fails while there is something to write, before one would block. */
  predicate WritesFail(queue: seq<Entry>, script: seq<WriteAnswer>)
    decreases |script|
  {
    queue != [] && script != [] &&
    if script[0].count == 0 then !script[0].again else WritesFail(Shorter(queue, script[0].count), script[1..])
  }

  lemma OneWrite(c: Client, answer: WriteAnswer)
    requires ClientOk(c) && c.buffers != []
    ensures var (d, state) := ClientWrite(c, answer); var queue := OldestFirst(c.buffers);
      && queue != []
      && (answer.count > 0 ==> state == WRITE_OK && OldestFirst(d.buffers) == Shorter(queue, answer.count))
      && (answer.count > 0 ==> |d.written| > |c.written|)
      && (answer.count == 0 ==>
            d == c.(blocked := answer.again) && state == if answer.again then WRITE_WOULD_BLOCK else WRITE_ERROR)
  {
    var last := |c.buffers| - 1;
    if answer.count > 0 {
      var e := c.buffers[last];
      var n := Min(answer.count, |e.data| - e.offset);
      if e.offset + n == |e.data| {
        assert Advanced(c.buffers, n) == c.buffers[..last];
      } else {
        PushBack(c.buffers[..last], Entry(e.data, e.offset + n));
      }
    }
  }

  lemma OldestEmpty(buffers: seq<Entry>)
    ensures OldestFirst(buffers) == [] <==> buffers == []
  {
  }

  /** client_writes fails if and only if a write fails while there is something to write, before one would block. */
  lemma {:induction false} WritesExact(c: Client, script: seq<WriteAnswer>)
    requires ClientOk(c)
    ensures ClientWrites(c, script).1 <==> !WritesFail(OldestFirst(c.buffers), script)
    decreases |script|
  {
    OldestEmpty(c.buffers);
    if c.buffers != [] {
      var answer := if script == [] then Took(0, true) else script[0];
      OneWrite(c, answer);
      if script != [] && answer.count > 0 {
        WriteKeeps(c, answer);
        WritesExact(ClientWrite(c, answer).0, script[1..]);
      }
    }
  }

  /** A write that would block changes nothing but that it is noted. */
  lemma WritesPause(c: Client, script: seq<WriteAnswer>)
    requires ClientOk(c) && c.buffers != [] && (script == [] || script[0] == Took(0, true))
    ensures ClientWrites(c, script) == (c.(blocked := true), true)
  {
    OneWrite(c, Took(0, true));
  }

  /** When each call takes something, and there are as many as bytes, everything is written. */
  lemma {:induction false} WritesDrain(c: Client, script: seq<WriteAnswer>)
    requires ClientOk(c) && |Unsent(OldestFirst(c.buffers))| <= |script|
    requires forall i :: 0 <= i < |script| ==> script[i].count >= 1
    ensures var (d, ok) := ClientWrites(c, script); ok && d.buffers == [] && d.written == c.read && d.read == c.read
    decreases |script|
  {
    OldestEmpty(c.buffers);
    if c.buffers == [] {
      assert c.written + [] == c.written;
    } else {
      SomeUnwritten(c);
      OneWrite(c, script[0]);
      WriteKeeps(c, script[0]);
      var d := ClientWrite(c, script[0]).0;
      assert |c.read| == |c.written| + |Unsent(OldestFirst(c.buffers))|;
      assert |d.read| == |d.written| + |Unsent(OldestFirst(d.buffers))|;
      WritesDrain(d, script[1..]);
    }
  }

  lemma SomeUnwritten(c: Client)
    requires ClientOk(c) && c.buffers != []
    ensures |Unsent(OldestFirst(c.buffers))| >= 1
  {
    UnsentCons(c.buffers[|c.buffers| - 1], OldestFirst(c.buffers[..|c.buffers| - 1]));
  }

  // ------------------------------------------------------------------ one event of a client

  /** What is queued when an event comes to write. */
  function Queued(c: Client, e: Event): seq<Entry> {
    OldestFirst(c.buffers) + if e.readable then Entries(Chunks(e.readScript)) else []
  }

  /** The event ends the client: it is read to its end, or a write fails. */
  predicate Ends(c: Client, e: Event) {
    (e.readable && ReadsFail(e.readScript)) || (e.writable && WritesFail(Queued(c, e), e.writeScript))
  }

  lemma ServeExact(c: Client, e: Event)
    requires ClientOk(c)
    ensures var (d, ok) := Serve(c, e);
      && (ok <==> !Ends(c, e))
      && d.read == c.read + (if e.readable then Flatten(Chunks(e.readScript)) else [])
  {
    ReadsExact(c, e.readScript);
    ReadsKeep(c, e.readScript);
    var d := if e.readable then ClientReads(c, e.readScript).0 else c;
    assert Queued(c, e) == OldestFirst(d.buffers);
    WritesExact(d, e.writeScript);
    WritesRead(d, e.writeScript);
  }

  lemma {:induction false} WritesRead(c: Client, script: seq<WriteAnswer>)
    ensures ClientWrites(c, script).0.read == c.read
    decreases |script|
  {
    var answer := if script == [] then Took(0, true) else script[0];
    if script != [] && ClientWrite(c, answer).1 == WRITE_OK {
      WritesRead(ClientWrite(c, answer).0, script[1..]);
    }
  }

  /** An event that can read and write, in which nothing fails and each call takes something, echoes everything. */
  lemma ServeEchoes(c: Client, e: Event)
    requires ClientOk(c) && e.writable && (e.readable ==> !ReadsFail(e.readScript))
    requires |Unsent(Queued(c, e))| <= |e.writeScript|
    requires forall i :: 0 <= i < |e.writeScript| ==> e.writeScript[i].count >= 1
    ensures var (d, ok) := Serve(c, e);
      && ok && d.buffers == [] && d.written == d.read
      && d.read == c.read + (if e.readable then Flatten(Chunks(e.readScript)) else [])
  {
    ServeExact(c, e);
    ReadsExact(c, e.readScript);
    ReadsKeep(c, e.readScript);
    var d := if e.readable then ClientReads(c, e.readScript).0 else c;
    assert Queued(c, e) == OldestFirst(d.buffers);
    WritesDrain(d, e.writeScript);
  }

  /** A client leaves the map in its event if and only if the event ends it, and then also epoll and the process; and
      the event is nobody else's business. */
  lemma LeavesExact(s: Server, e: Event, fd: int)
    requires ServerOk(s) && e.fd in s.clients && e.fd != s.signal
    ensures var t := HandleEvent(s, e).0;
      && (if Ends(s.clients[e.fd], e) then e.fd !in t.clients && e.fd !in t.interest && e.fd !in t.open
          else
            && e.fd in t.clients && e.fd in t.interest && e.fd in t.open
            && t.clients[e.fd].read == s.clients[e.fd].read + (if e.readable then Flatten(Chunks(e.readScript)) else []))
      && (fd != e.fd ==>
            && (fd in t.clients <==> fd in s.clients) && (fd in t.clients ==> t.clients[fd] == s.clients[fd])
            && (fd in t.interest <==> fd in s.interest) && (fd in t.open <==> fd in s.open))
  {
    ServeExact(s.clients[e.fd], e);
    assert s.clients[e.fd].read + [] == s.clients[e.fd].read;
  }

  // ------------------------------------------------------------------ the events of a batch

  /** An event of another descriptor leaves a client alone. */
  lemma OthersLeave(s: Server, e: Event, fd: int)
    requires ServerOk(s) && fd in s.clients && fd != s.signal && e.fd != fd && (e.fd != s.signal ==> e.fd in s.interest)
    ensures var t := HandleEvent(s, e).0; fd in t.clients && t.clients[fd] == s.clients[fd]
  {
    if e.fd == s.listener {
      AcceptsLeave(s, e.accepts, fd);
    } else if e.fd == s.signal {
      SignalsKeep(s, e.signals);
    }
  }

  lemma {:induction false} AcceptsLeave(s: Server, script: seq<AcceptAnswer>, fd: int)
    requires fd in s.clients && fd in s.open
    ensures var t := AcceptClients(s, script).0; fd in t.clients && t.clients[fd] == s.clients[fd]
    decreases |script|
  {
    if script != [] {
      var (t, state) := AcceptClient(s, script[0]);
      if state == LISTEN_OK {
        AcceptsLeave(t, script[1..], fd);
      }
    }
  }

  /** A descriptor without a client has none after the event of another, or a new one. */
  lemma OnlyNew(s: Server, e: Event, fd: int)
    requires ServerOk(s) && e.fd != fd && (e.fd != s.signal ==> e.fd in s.interest)
    requires fd !in s.clients || s.clients[fd] == NEW_CLIENT
    ensures var t := HandleEvent(s, e).0; fd !in t.clients || t.clients[fd] == NEW_CLIENT
  {
    if e.fd == s.listener {
      AcceptsNew(s, e.accepts, fd);
    } else if e.fd == s.signal {
      SignalsKeep(s, e.signals);
    }
  }

  lemma {:induction false} AcceptsNew(s: Server, script: seq<AcceptAnswer>, fd: int)
    requires fd !in s.clients || s.clients[fd] == NEW_CLIENT
    ensures var t := AcceptClients(s, script).0; fd !in t.clients || t.clients[fd] == NEW_CLIENT
    decreases |script|
  {
    if script != [] {
      var (t, state) := AcceptClient(s, script[0]);
      if state == LISTEN_OK {
        AcceptsNew(t, script[1..], fd);
      }
    }
  }

  lemma {:induction false} RestNew(s: Server, events: seq<Event>, listening: bool, fd: int)
    requires ServerOk(s) && Rest(s, events) && forall i :: 0 <= i < |events| ==> events[i].fd != fd
    requires fd !in s.clients || s.clients[fd] == NEW_CLIENT
    ensures var t := HandleEvents(s, events, listening).0; fd !in t.clients || t.clients[fd] == NEW_CLIENT
    decreases |events|
  {
    if events != [] {
      OnlyNew(s, events[0], fd);
      EventKeeps(s, events[0]);
      var (t, next) := HandleEvent(s, events[0]);
      RestNew(t, events[1..], next, fd);
    }
  }

  lemma {:induction false} RestLeaves(s: Server, events: seq<Event>, listening: bool, fd: int)
    requires ServerOk(s) && Rest(s, events) && forall i :: 0 <= i < |events| ==> events[i].fd != fd
    requires fd in s.clients && fd != s.signal
    ensures var t := HandleEvents(s, events, listening).0; fd in t.clients && t.clients[fd] == s.clients[fd]
    decreases |events|
  {
    if events != [] {
      OthersLeave(s, events[0], fd);
      EventKeeps(s, events[0]);
      var (t, next) := HandleEvent(s, events[0]);
      RestLeaves(t, events[1..], next, fd);
    }
  }

  /** The event of a client in a batch decides about it: if it ends it, the client is gone, and the descriptor has at
      most a new one; if not, the client is there, with what it has sent. */
  lemma {:induction false} BatchExact(s: Server, events: seq<Event>, listening: bool, e: Event)
    requires ServerOk(s) && Rest(s, events) && e in events && e.fd in s.clients && e.fd != s.signal
    ensures After(s, e, HandleEvents(s, events, listening).0)
    decreases |events|
  {
    EventKeeps(s, events[0]);
    var (t, next) := HandleEvent(s, events[0]);
    if events[0] == e {
      LeavesExact(s, e, e.fd);
      if Ends(s.clients[e.fd], e) {
        RestNew(t, events[1..], next, e.fd);
      } else {
        RestLeaves(t, events[1..], next, e.fd);
      }
    } else {
      assert e in events[1..];
      var i :| 0 <= i < |events[1..]| && events[1..][i] == e;
      OthersLeave(s, events[0], e.fd);
      BatchExact(t, events[1..], next, e);
    }
  }

  // ------------------------------------------------------------------ every run

  /** One more turn of a run that is still listening. */
  lemma {:induction false} RunNext(s: Server, listening: bool, waits: seq<Wait>, last: Wait)
    ensures var (t, on) := Run(s, listening, waits);
      Run(s, listening, waits + [last]) ==
        if !on then (t, false)
        else
          match last
          case WaitFails => (t, false)
          case TimedOut => (t, true)
          case Ready(events) => HandleEvents(t, EpollWait(t.interest, events), true)
    decreases |waits|
  {
    if waits == [] {
      assert [] + [last] == [last] && [last][1..] == [];
    } else {
      assert (waits + [last])[1..] == waits[1..] + [last];
      if listening {
        match waits[0]
        case WaitFails =>
        case TimedOut => RunNext(s, true, waits[1..], last);
        case Ready(events) =>
          var (t, next) := HandleEvents(s, EpollWait(s.interest, events), true);
          RunNext(t, next, waits[1..], last);
      }
    }
  }

  /** What the event of a client leaves of it: nothing, or a new client, if it ends it, and else the client with what it
      has sent. */
  predicate After(s: Server, e: Event, t: Server)
    requires e.fd in s.clients
  {
    if Ends(s.clients[e.fd], e) then e.fd !in t.clients || t.clients[e.fd] == NEW_CLIENT
    else
      && e.fd in t.clients
      && t.clients[e.fd].read == s.clients[e.fd].read + (if e.readable then Flatten(Chunks(e.readScript)) else [])
  }

  /** In every run, from one turn to the next: a client is kept, with what it has sent, if and only if its event does
      not end it; one without an event is kept as it is. */
  lemma Kept(listener: int, signal: int, others: set<int>, waits: seq<Wait>, events: seq<Event>, fd: int)
    requires listener != signal
    ensures var start := Start(listener, signal, others);
      var (s, on) := Run(start, true, waits); var batch := EpollWait(s.interest, events);
      var t := Run(start, true, waits + [Ready(events)]).0;
      on && fd in s.clients && fd != signal ==>
        && (forall i :: 0 <= i < |batch| && batch[i].fd == fd ==> After(s, batch[i], t))
        && ((forall i :: 0 <= i < |batch| ==> batch[i].fd != fd) ==> fd in t.clients && t.clients[fd] == s.clients[fd])
  {
    var start := Start(listener, signal, others);
    RunKeeps(start, true, waits);
    RunReuse(start, true, waits);
    RunNext(start, true, waits, Ready(events));
    var (s, on) := Run(start, true, waits);
    var batch := EpollWait(s.interest, events);
    WaitGivesBatch(s.interest, events);
    if on && fd in s.clients && fd != signal {
      forall i | 0 <= i < |batch| && batch[i].fd == fd ensures After(s, batch[i], HandleEvents(s, batch, true).0) {
        BatchExact(s, batch, true, batch[i]);
      }
      if forall i :: 0 <= i < |batch| ==> batch[i].fd != fd {
        RestLeaves(s, batch, true, fd);
      }
    }
  }

  /** What epoll has, and nothing else, is reported. */
  lemma {:induction false} Reported(interest: set<int>, events: seq<Event>)
    requires Distinct(events) && forall i :: 0 <= i < |events| ==> events[i].fd in interest
    ensures EpollWait(interest, events) == events
    decreases |events|
  {
    if events != [] {
      Reported(interest - {events[0].fd}, events[1..]);
    }
  }

  /** A client becomes one by an accept, and by nothing else. */
  lemma {:induction false} AcceptedExact(s: Server, script: seq<AcceptAnswer>, fd: int)
    ensures var t := AcceptClients(s, script).0; var accepted := AcceptsSignal(s.open, fd, script);
      && (fd in t.clients <==> fd in s.clients || accepted)
      && (fd in t.interest <==> fd in s.interest || accepted)
      && (accepted ==> t.clients[fd] == NEW_CLIENT && fd in t.open)
    decreases |script|
  {
    if script != [] {
      var (t, state) := AcceptClient(s, script[0]);
      if state == LISTEN_OK {
        AcceptedExact(t, script[1..], fd);
        AcceptsLeaveOpen(t, script[1..], script[0].fd);
      }
    }
  }

  lemma {:induction false} AcceptsLeaveOpen(s: Server, script: seq<AcceptAnswer>, fd: int)
    requires fd in s.open
    ensures var t := AcceptClients(s, script).0;
      && fd in t.open && (fd in s.clients ==> fd in t.clients && t.clients[fd] == s.clients[fd])
      && !AcceptsSignal(s.open, fd, script)
    decreases |script|
  {
    if script != [] {
      var (t, state) := AcceptClient(s, script[0]);
      if state == LISTEN_OK {
        AcceptsLeaveOpen(t, script[1..], fd);
      }
    }
  }

  /** Signals: SIGQUIT closes the descriptor and ends the listening; interrupts are passed over; an error ends it too. */
  lemma {:induction false} SignalsExact(s: Server, script: seq<SignalAnswer>)
    ensures var (t, go) := ReadSignals(s, script);
      && (go <==> !Quits(script) && !SignalsFail(script))
      && t == (if Quits(script)
               then s.(open := s.open - {s.signal}, interest := s.interest - {s.signal}, quit := true)
               else s)
    decreases |script|
  {
    if script != [] && script[0].Interrupted? {
      SignalsExact(s, script[1..]);
    }
  }

  predicate SignalsFail(script: seq<SignalAnswer>)
    decreases |script|
  {
    script != [] && (script[0].SignalError? || (script[0].Interrupted? && SignalsFail(script[1..])))
  }

  /** Timeouts change nothing, and the server goes on listening. */
  lemma {:induction false} IdleRun(s: Server, waits: seq<Wait>)
    requires forall i :: 0 <= i < |waits| ==> waits[i].TimedOut?
    ensures Run(s, true, waits) == (s, true)
    decreases |waits|
  {
    if waits != [] {
      IdleRun(s, waits[1..]);
    }
  }
}
