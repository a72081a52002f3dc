/** What project/server.cpp keeps over every run. */
module EpollServerTheorems {
  import opened Basics
  import opened Wire
  import opened EpollServer

  // ------------------------------------------------------------------ one client is a byte stream

  /** The buffers in the order in which they are written. */
  function OldestFirst(buffers: seq<Entry>): seq<Entry> {
    if buffers == [] then [] else [buffers[|buffers| - 1]] + OldestFirst(buffers[..|buffers| - 1])
  }

  /** The byte stream: what has been written, followed by what the buffers still hold, is what has been read;
      no buffer is used up or larger than it can be. */
  predicate ClientOk(c: Client) {
    && c.written + Unsent(OldestFirst(c.buffers)) == c.read
    && forall i :: 0 <= i < |c.buffers| ==> c.buffers[i].offset < |c.buffers[i].data| <= BUFFER_SIZE
  }

  lemma {:induction false} PushFront(e: Entry, buffers: seq<Entry>)
    ensures OldestFirst([e] + buffers) == OldestFirst(buffers) + [e]
  {
    if buffers == [] {
      assert [e] + buffers == [e] && [e][..0] == [];
    } else {
      var n := |buffers| - 1;
      assert ([e] + buffers)[..n + 1] == [e] + buffers[..n];
      PushFront(e, buffers[..n]);
    }
  }

  lemma PushBack(buffers: seq<Entry>, e: Entry)
    ensures OldestFirst(buffers + [e]) == [e] + OldestFirst(buffers)
  {
  }

  lemma UnsentCons(e: Entry, rest: seq<Entry>)
    ensures Unsent([e] + rest) == e.data[e.offset..] + Unsent(rest)
  {
  }

  lemma ReadKeepsStream(c: Client, answer: ReadAnswer)
    requires ClientOk(c)
    ensures var d := ClientRead(c, answer).0; d.written + Unsent(OldestFirst(d.buffers)) == d.read
  {
    if ClientRead(c, answer).1 == READ_OK {
      var e := Entry(answer.data[..Min(|answer.data|, BUFFER_SIZE)], 0);
      PushFront(e, c.buffers);
      UnsentConcat(OldestFirst(c.buffers), [e]);
      UnsentCons(e, []);
      assert e.data[0..] + [] == e.data;
      Associate(c.written, Unsent(OldestFirst(c.buffers)), e.data);
    }
  }

  lemma ReadKeeps(c: Client, answer: ReadAnswer)
    requires ClientOk(c)
    ensures ClientOk(ClientRead(c, answer).0)
  {
    ReadKeepsStream(c, answer);
  }

  lemma {:induction false} ReadsKeep(c: Client, script: seq<ReadAnswer>)
    requires ClientOk(c)
    ensures ClientOk(ClientReads(c, script).0)
    decreases |script|
  {
    if script != [] {
      ReadKeeps(c, script[0]);
      var (d, state) := ClientRead(c, script[0]);
      if state == READ_OK {
        ReadsKeep(d, script[1..]);
      }
    }
  }

  /** The oldest buffer: what is written of it, and what is left. */
  lemma OldestWritten(buffers: seq<Entry>, n: nat)
    requires buffers != [] && buffers[|buffers| - 1].offset + n <= |buffers[|buffers| - 1].data|
    ensures var b := buffers[|buffers| - 1];
      Unsent(OldestFirst(buffers)) == b.data[b.offset..b.offset + n] + Unsent(OldestFirst(Advanced(buffers, n)))
  {
    var last := |buffers| - 1;
    var b := buffers[last];
    var offset := b.offset + n;
    var rest := OldestFirst(buffers[..last]);
    UnsentCons(b, rest);
    SplitAt(b.data, b.offset, offset);
    if offset == |b.data| {
      assert buffers[..last] + [] == buffers[..last] && b.data[offset..] == [];
    } else {
      PushBack(buffers[..last], Entry(b.data, offset));
      UnsentCons(Entry(b.data, offset), rest);
      assert b.data[b.offset..offset] + b.data[offset..] + Unsent(rest) == b.data[b.offset..offset] + (b.data[offset..] + Unsent(rest));
    }
  }

  lemma WriteKeepsStream(c: Client, answer: WriteAnswer)
    requires ClientOk(c)
    ensures var d := ClientWrite(c, answer).0; d.written + Unsent(OldestFirst(d.buffers)) == d.read
  {
    if ClientWrite(c, answer).1 == WRITE_OK {
      var b := c.buffers[|c.buffers| - 1];
      var n := Min(answer.count, |b.data| - b.offset);
      var rest := Unsent(OldestFirst(Advanced(c.buffers, n)));
      OldestWritten(c.buffers, n);
      assert c.written + (b.data[b.offset..b.offset + n] + rest) == (c.written + b.data[b.offset..b.offset + n]) + rest;
    }
  }

  lemma WriteKeeps(c: Client, answer: WriteAnswer)
    requires ClientOk(c)
    ensures ClientOk(ClientWrite(c, answer).0)
  {
    WriteKeepsStream(c, answer);
  }

  /** Writing keeps the byte stream; and a client that survives it has nothing left to write, or its last
      write would have blocked. */
  lemma {:induction false} WritesKeep(c: Client, script: seq<WriteAnswer>)
    requires ClientOk(c)
    ensures var (d, ok) := ClientWrites(c, script); ClientOk(d) && (ok ==> d.buffers == [] || d.blocked)
    decreases |script|
  {
    var answer := if script == [] then Took(0, true) else script[0];
    WriteKeeps(c, answer);
    var (d, state) := ClientWrite(c, answer);
    if state == WRITE_OK && script != [] {
      WritesKeep(d, script[1..]);
    }
  }

  // ------------------------------------------------------------------ the server

  ghost predicate AllStreams(s: Server) {
    forall fd :: fd in s.clients ==> ClientOk(s.clients[fd])
  }

  /** Who is watched: the listener and the clients, all of them open; and the signal descriptor, until SIGQUIT.
      Of a client that is given the signal descriptor afterwards nothing is said. */
  ghost predicate Watched(s: Server) {
    && s.listener != s.signal && s.listener in s.interest
    && (forall fd :: fd != s.signal ==> (fd in s.clients <==> fd in s.interest && fd != s.listener))
    && (forall fd :: fd in s.interest ==> fd in s.open)
    && (!s.quit ==> s.signal in s.interest && s.signal !in s.clients)
  }

  lemma {:induction false} AcceptsKeep(s: Server, script: seq<AcceptAnswer>)
    requires AllStreams(s)
    ensures var t := AcceptClients(s, script).0;
      && AllStreams(t) && (Watched(s) ==> Watched(t))
      && t.quit == s.quit && t.listener == s.listener && t.signal == s.signal
      && (forall fd :: fd in s.interest ==> fd in t.interest)
    decreases |script|
  {
    if script != [] {
      var (t, state) := AcceptClient(s, script[0]);
      assert ClientOk(NEW_CLIENT);
      if state == LISTEN_OK {
        AcceptsKeep(t, script[1..]);
      }
    }
  }

  lemma {:induction false} SignalsKeep(s: Server, script: seq<SignalAnswer>)
    ensures var (t, ok) := ReadSignals(s, script);
      && (t == s || (t.quit && !ok && t == s.(open := s.open - {s.signal}, interest := s.interest - {s.signal}, quit := true)))
    decreases |script|
  {
    if script != [] && script[0].Interrupted? {
      SignalsKeep(s, script[1..]);
    }
  }

  /** A watched descriptor that is neither the listener's nor the signals' has its client in the map. */
  lemma LookupFinds(s: Server, fd: int)
    requires Watched(s) && fd in s.interest && fd != s.listener && fd != s.signal
    ensures fd in s.clients
  {
  }

  lemma ServeKeeps(c: Client, e: Event)
    requires ClientOk(c)
    ensures var (d, open) := Serve(c, e); ClientOk(d) && (open && e.writable ==> d.buffers == [] || d.blocked)
  {
    ReadsKeep(c, e.readScript);
    WritesKeep(if e.readable then ClientReads(c, e.readScript).0 else c, e.writeScript);
  }

  /** A client that survives an event that it can write in has nothing left to write, or its last write would
      have blocked. */
  lemma ReadWriteKeeps(s: Server, e: Event)
    requires AllStreams(s)
    ensures var t := ReadWriteClient(s, e);
      && AllStreams(t)
      && (e.fd in t.clients && e.writable ==> t.clients[e.fd].buffers == [] || t.clients[e.fd].blocked)
  {
    assert ClientOk(NEW_CLIENT);
    var c := if e.fd in s.clients then s.clients[e.fd] else NEW_CLIENT;
    ServeKeeps(c, e);
    var (d, open) := Serve(c, e);
    assert ReadWriteClient(s, e) == if open then s.(clients := s.clients[e.fd := d]) else Drop(s, e.fd);
  }

  lemma ReadWriteWatched(s: Server, e: Event)
    requires Watched(s) && e.fd in s.clients && e.fd != s.signal
    ensures var t := ReadWriteClient(s, e);
      && Watched(t) && t.quit == s.quit
      && (forall fd :: fd in s.interest && fd != e.fd ==> fd in t.interest)
  {
  }

  // ------------------------------------------------------------------ one event, one batch

  /** The state of a run: every client is a byte stream, and the clients are what is watched. */
  ghost predicate ServerOk(s: Server) {
    AllStreams(s) && Watched(s)
  }

  lemma EventKeeps(s: Server, e: Event)
    requires ServerOk(s) && (e.fd != s.signal ==> e.fd in s.interest)
    ensures var t := HandleEvent(s, e).0;
      && ServerOk(t) && (s.quit ==> t.quit) && t.listener == s.listener && t.signal == s.signal
      && (forall fd :: fd in s.interest && fd != e.fd && fd != s.signal ==> fd in t.interest)
  {
    if e.fd == s.listener {
      AcceptsKeep(s, e.accepts);
    } else if e.fd == s.signal {
      SignalsKeep(s, e.signals);
    } else if e.readable || e.writable {
      ReadWriteKeeps(s, e);
      LookupFinds(s, e.fd);
      ReadWriteWatched(s, e);
    }
  }

  /** The events of a batch: distinct, and all watched. */
  ghost predicate Batch(interest: set<int>, events: seq<Event>) {
    (forall i :: 0 <= i < |events| ==> events[i].fd in interest) && Distinct(events)
  }

  predicate Distinct(events: seq<Event>) {
    forall i, j :: 0 <= i < j < |events| ==> events[i].fd != events[j].fd
  }

  lemma {:induction false} WaitGivesBatch(interest: set<int>, events: seq<Event>)
    ensures Batch(interest, EpollWait(interest, events))
    decreases |events|
  {
    if events != [] {
      if events[0].fd in interest {
        WaitGivesBatch(interest - {events[0].fd}, events[1..]);
      } else {
        WaitGivesBatch(interest, events[1..]);
      }
    }
  }

  /** What is left of a batch: the descriptors are watched, all but the signals', which may have been closed. */
  ghost predicate Rest(s: Server, events: seq<Event>) {
    && (forall i :: 0 <= i < |events| && events[i].fd != s.signal ==> events[i].fd in s.interest)
    && Distinct(events)
  }

  lemma {:induction false} EventsKeep(s: Server, events: seq<Event>, listening: bool)
    requires ServerOk(s) && Rest(s, events)
    ensures ServerOk(HandleEvents(s, events, listening).0)
    decreases |events|
  {
    if events != [] {
      EventKeeps(s, events[0]);
      var (t, next) := HandleEvent(s, events[0]);
      EventsKeep(t, events[1..], next);
    }
  }

  lemma {:induction false} RunKeeps(s: Server, listening: bool, waits: seq<Wait>)
    requires ServerOk(s)
    ensures ServerOk(Run(s, listening, waits).0)
    decreases |waits|
  {
    if waits != [] && listening {
      match waits[0]
      case WaitFails =>
      case TimedOut => RunKeeps(s, true, waits[1..]);
      case Ready(events) =>
        WaitGivesBatch(s.interest, events);
        EventsKeep(s, EpollWait(s.interest, events), true);
        var (t, next) := HandleEvents(s, EpollWait(s.interest, events), true);
        RunKeeps(t, next, waits[1..]);
    }
  }

  // ------------------------------------------------------------------ the main results

  function Start(listener: int, signal: int, others: set<int>): Server {
    Server(listener, signal, map[], {listener, signal}, others + {listener, signal}, false)
  }

  /** The server refines the byte stream: for every client of every run, the bytes written, followed by its
      buffers read from the back to the front, are the bytes read. And the clients are exactly what epoll watches,
      besides the listener and the signal descriptor; the latter is no client's before SIGQUIT has been read. */
  lemma EpollEcho(listener: int, signal: int, others: set<int>, waits: seq<Wait>, fd: int)
    requires listener != signal
    ensures var s := Run(Start(listener, signal, others), true, waits).0;
      && (fd in s.clients ==> s.clients[fd].written + Unsent(OldestFirst(s.clients[fd].buffers)) == s.clients[fd].read)
      && (fd != s.signal ==> (fd in s.clients <==> fd in s.interest && fd != s.listener))
      && (fd in s.interest ==> fd in s.open)
      && (!s.quit ==> s.signal in s.interest && s.signal !in s.clients)
  {
    RunKeeps(Start(listener, signal, others), true, waits);
  }

  /** Whether the loop goes on after a batch is what its last event says, whatever the others said. */
  lemma {:induction false} LastEventDecides(s: Server, events: seq<Event>, listening: bool)
    requires events != []
    ensures var before := HandleEvents(s, events[..|events| - 1], listening).0;
      HandleEvents(s, events, listening) == HandleEvent(before, events[|events| - 1])
    decreases |events|
  {
    var (t, next) := HandleEvent(s, events[0]);
    if |events| == 1 {
      assert events[..0] == [] && events[1..] == [];
    } else {
      assert events[..|events| - 1][1..] == events[1..][..|events| - 2];
      assert events[1..][|events| - 2] == events[|events| - 1];
      LastEventDecides(t, events[1..], next);
    }
  }

  // ------------------------------------------------------------------ SIGQUIT

  /** The signals that are read have a SIGQUIT first, but for interrupts. */
  predicate Quits(script: seq<SignalAnswer>)
    decreases |script|
  {
    script != [] && (script[0].QuitRequested? || (script[0].Interrupted? && Quits(script[1..])))
  }

  lemma {:induction false} QuitsExact(s: Server, script: seq<SignalAnswer>)
    ensures var (t, go) := ReadSignals(s, script); (Quits(script) ==> t.quit && !go) && (s.quit ==> t.quit)
    decreases |script|
  {
    if script != [] && script[0].Interrupted? {
      QuitsExact(s, script[1..]);
    }
  }

  /** One of the answers of accept is a failure, or what it gives cannot be made a client. */
  predicate AcceptsFail(open: set<int>, script: seq<AcceptAnswer>)
    decreases |script|
  {
    script != [] &&
    match script[0]
    case AcceptAgain => false
    case AcceptError => true
    case Accepted(fd, nonBlocking, watched) =>
      fd in open || !nonBlocking || !watched || AcceptsFail(open + {fd}, script[1..])
  }

  lemma {:induction false} AcceptsExact(s: Server, script: seq<AcceptAnswer>)
    ensures AcceptClients(s, script).1 <==> !AcceptsFail(s.open, script)
    decreases |script|
  {
    if script != [] {
      var (t, state) := AcceptClient(s, script[0]);
      if state == LISTEN_OK {
        AcceptsExact(t, script[1..]);
      }
    }
  }

  lemma {:induction false} AcceptsFrame(s: Server, script: seq<AcceptAnswer>)
    ensures var t := AcceptClients(s, script).0; t.listener == s.listener && t.signal == s.signal && t.quit == s.quit
    decreases |script|
  {
    if script != [] {
      var (t, state) := AcceptClient(s, script[0]);
      if state == LISTEN_OK {
        AcceptsFrame(t, script[1..]);
      }
    }
  }

  lemma EventFrame(s: Server, e: Event)
    ensures var t := HandleEvent(s, e).0; t.listener == s.listener && t.signal == s.signal && (s.quit ==> t.quit)
  {
    AcceptsFrame(s, e.accepts);
    SignalsKeep(s, e.signals);
  }

  lemma {:induction false} EventsFrame(s: Server, events: seq<Event>, listening: bool)
    ensures var t := HandleEvents(s, events, listening).0;
      && t.listener == s.listener && t.signal == s.signal && (s.quit ==> t.quit)
    decreases |events|
  {
    if events != [] {
      EventFrame(s, events[0]);
      var (t, next) := HandleEvent(s, events[0]);
      EventsFrame(t, events[1..], next);
    }
  }

  lemma {:induction false} QuitStays(s: Server, events: seq<Event>, listening: bool, i: nat)
    requires i < |events| && events[i].fd == s.signal && s.signal != s.listener && Quits(events[i].signals)
    ensures HandleEvents(s, events, listening).0.quit
    decreases |events|
  {
    var (t, next) := HandleEvent(s, events[0]);
    EventFrame(s, events[0]);
    if i == 0 {
      QuitsExact(s, events[0].signals);
      EventsFrame(t, events[1..], next);
    } else {
      QuitStays(t, events[1..], next, i - 1);
    }
  }

  /** A SIGQUIT in a batch, wherever it stands in it: the signal descriptor is closed, but the loop goes on if and
      only if the last event is a client's, or it is the listener's and its accepts do not fail. */
  lemma QuitLost(s: Server, events: seq<Event>, listening: bool, i: nat)
    requires s.listener != s.signal && Distinct(events)
    requires i < |events| && events[i].fd == s.signal && Quits(events[i].signals)
    ensures var n := |events| - 1; var last := events[n]; var before := HandleEvents(s, events[..n], listening).0;
      var (t, go) := HandleEvents(s, events, listening);
      && t.quit
      && (go <==> last.fd != s.signal && (last.fd == s.listener ==> !AcceptsFail(before.open, last.accepts)))
  {
    var n := |events| - 1;
    var before := HandleEvents(s, events[..n], listening).0;
    LastEventDecides(s, events, listening);
    QuitStays(s, events, listening, i);
    EventsFrame(s, events[..n], listening);
    if events[n].fd == s.listener {
      AcceptsExact(before, events[n].accepts);
    } else if events[n].fd == s.signal {
      QuitsExact(before, events[n].signals);
    }
  }

  // ------------------------------------------------------------------ the signal descriptor as a client's

  /** One of the accepts makes a client on the signal descriptor. */
  predicate AcceptsSignal(open: set<int>, signal: int, script: seq<AcceptAnswer>)
    decreases |script|
  {
    script != [] && script[0].Accepted? && script[0].fd !in open && script[0].nonBlocking && script[0].watched &&
    (script[0].fd == signal || AcceptsSignal(open + {script[0].fd}, signal, script[1..]))
  }

  ghost predicate Idle(s: Server) {
    s.signal in s.clients ==> s.clients[s.signal] == NEW_CLIENT
  }

  lemma {:induction false} AcceptsSignalExact(s: Server, script: seq<AcceptAnswer>)
    ensures var t := AcceptClients(s, script).0;
      && (s.signal in t.clients <==> s.signal in s.clients || AcceptsSignal(s.open, s.signal, script))
      && (Idle(s) ==> Idle(t))
    decreases |script|
  {
    if script != [] {
      var (t, state) := AcceptClient(s, script[0]);
      if state == LISTEN_OK {
        AcceptsSignalExact(t, script[1..]);
      }
    }
  }

  /** In a batch, and in a run: some accept makes a client on the signal descriptor. */
  predicate Reuses(s: Server, events: seq<Event>)
    decreases |events|
  {
    events != [] &&
    ((events[0].fd == s.listener && AcceptsSignal(s.open, s.signal, events[0].accepts))
     || Reuses(HandleEvent(s, events[0]).0, events[1..]))
  }

  predicate RunReuses(s: Server, listening: bool, waits: seq<Wait>)
    decreases |waits|
  {
    waits != [] && listening &&
    match waits[0]
    case WaitFails => false
    case TimedOut => RunReuses(s, true, waits[1..])
    case Ready(events) =>
      var batch := EpollWait(s.interest, events);
      var (t, next) := HandleEvents(s, batch, true);
      Reuses(s, batch) || RunReuses(t, next, waits[1..])
  }

  lemma EventReuses(s: Server, e: Event)
    ensures var t := HandleEvent(s, e).0;
      && (s.signal in t.clients <==> s.signal in s.clients || (e.fd == s.listener && AcceptsSignal(s.open, s.signal, e.accepts)))
      && (Idle(s) ==> Idle(t))
  {
    EventFrame(s, e);
    if e.fd == s.listener {
      AcceptsSignalExact(s, e.accepts);
    } else if e.fd == s.signal {
      SignalsKeep(s, e.signals);
    }
  }

  lemma {:induction false} EventsReuse(s: Server, events: seq<Event>, listening: bool)
    ensures var t := HandleEvents(s, events, listening).0;
      && (s.signal in t.clients <==> s.signal in s.clients || Reuses(s, events))
      && (Idle(s) ==> Idle(t))
    decreases |events|
  {
    if events != [] {
      EventFrame(s, events[0]);
      EventReuses(s, events[0]);
      var (t, next) := HandleEvent(s, events[0]);
      EventsReuse(t, events[1..], next);
      EventsFrame(t, events[1..], next);
    }
  }

  lemma {:induction false} RunReuse(s: Server, listening: bool, waits: seq<Wait>)
    ensures var t := Run(s, listening, waits).0;
      && t.signal == s.signal
      && (s.signal in t.clients <==> s.signal in s.clients || RunReuses(s, listening, waits))
      && (Idle(s) ==> Idle(t))
    decreases |waits|
  {
    if waits != [] && listening {
      match waits[0]
      case WaitFails =>
      case TimedOut => RunReuse(s, true, waits[1..]);
      case Ready(events) =>
        var batch := EpollWait(s.interest, events);
        EventsFrame(s, batch, true);
        EventsReuse(s, batch, true);
        var (t, next) := HandleEvents(s, batch, true);
        RunReuse(t, next, waits[1..]);
    }
  }

  /** Over every run, before and after SIGQUIT: the clients stay in step with what is watched if and only if no
      accept has made a client on the signal descriptor. Such a client is never served: its events are taken for
      signals, and it stays as it was made. */
  lemma SignalReused(listener: int, signal: int, others: set<int>, waits: seq<Wait>)
    requires listener != signal
    ensures var start := Start(listener, signal, others); var s := Run(start, true, waits).0;
      && ((forall fd :: fd in s.clients <==> fd in s.interest && fd != s.listener && fd != s.signal)
          <==> !RunReuses(start, true, waits))
      && (s.signal in s.clients ==> s.quit && s.clients[s.signal] == NEW_CLIENT)
  {
    var start := Start(listener, signal, others);
    RunKeeps(start, true, waits);
    RunReuse(start, true, waits);
  }
}
