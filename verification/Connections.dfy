/** The invariant of one connection, kept by everything the poll loop does to it. */
module Connections {
  import opened Wire
  import opened TcpStreams
  import opened Handlers
  import opened Pollers
  import opened Apps

  predicate NoEmptyChunk(chunks: seq<Bytes>) {
    forall i :: 0 <= i < |chunks| ==> chunks[i] != []
  }

  /** No chunk received and no entry of the write queue is empty. */
  predicate Filled(h: Handler) {
    NoEmptyChunk(h.stream.bio.received) && NoEmptyEntry(h.writeQueue) && h.writeSize == BUFSIZ
  }

  /** So the span that the write loop offers next is not empty. */
  lemma SpanFilled(h: Handler)
    requires Filled(h)
    ensures h.writeQueue != [] ==> NextSpan(h) != []
  {
  }

  lemma {:induction false} ReadFilled(h: Handler, script: seq<Answers>)
    requires StreamOk(h.stream) && Filled(h)
    ensures Filled(ReadLoop(h, script).0)
    decreases |script|
  {
    if h.stream.isOpen {
      ReadKeepsOk(h.stream, h.readSize, Next(script));
      var (s, r) := Read(h.stream, h.readSize, Next(script));
      if r.Ok? {
        ReadFilled(h.(stream := s, readQueue := h.readQueue + [r.value]), Later(script));
      }
    }
  }

  lemma NoEmptyTail(a: seq<Bytes>, b: seq<Bytes>)
    requires NoEmptyChunk(a + b)
    ensures NoEmptyChunk(b)
  {
    assert forall i :: 0 <= i < |b| ==> b[i] == (a + b)[|a| + i];
  }

  lemma {:induction false} EchoFilled(h: Handler, bufs: seq<Bytes>)
    requires NoEmptyEntry(h.writeQueue) && NoEmptyChunk(bufs)
    ensures NoEmptyEntry(EchoHandler(h, bufs).writeQueue)
    decreases |bufs|
  {
    if bufs != [] {
      EchoFilled(if bufs[0] == KILLME then CloseHandler(h) else Enqueue(h, bufs[0]), bufs[1..]);
    }
  }

  lemma {:induction false} TellFilled(h: Handler, bufs: seq<Bytes>)
    requires NoEmptyEntry(h.writeQueue) && NoEmptyChunk(bufs)
    ensures NoEmptyEntry(EnqueueAll(h, bufs).writeQueue)
    decreases |bufs|
  {
    if bufs != [] {
      TellFilled(Enqueue(h, bufs[0]), bufs[1..]);
    }
  }

  /** Given the chunks delivered from this connection and those heard from all others: the handler is
      sound, deliveries lose and repeat nothing, and the output is what the application says it is. */
  predicate ConnOk(h: Handler, app: App, delivered: seq<Bytes>, heard: seq<Bytes>) {
    && HandlerOk(h) && Filled(h)
    && h.stream.bio.received == delivered + h.readQueue
    && (h.stream.isOpen ==> h.readQueue == [])
    && match app
       case Echo => EchoOk(h, delivered)
       case Chat(_) => Output(h) == Flatten(heard)
  }

  lemma ConnNew(tls: bool, app: App)
    ensures ConnOk(NewHandler(if tls then TlsStream(false) else PlainStream(), BUFSIZ, BUFSIZ), app, [], [])
  {
  }

  lemma ReadDelivers(h: Handler, delivered: seq<Bytes>, script: seq<Answers>)
    requires StreamOk(h.stream) && h.stream.bio.received == delivered + h.readQueue
    ensures var t := ReadLoop(h, script).0; t.stream.bio.received == delivered + t.readQueue
  {
    ReadLoopDelivers(h, script);
    var t := ReadLoop(h, script).0;
    assert t.readQueue == h.readQueue + t.readQueue[|h.readQueue|..];
  }

  /** What reading leaves alone. */
  lemma ReadFrame(h: Handler, script: seq<Answers>)
    requires HandlerOk(h)
    ensures var (t, r) := HandlerRead(h, script);
      && HandlerOk(t) && HandlerOk(t.(readQueue := []))
      && t == h.(stream := t.stream, readQueue := t.readQueue)
      && t.stream.bio.sent == h.stream.bio.sent
      && (t.stream.isOpen ==> h.stream.isOpen)
      && (if r.Threw? then !t.stream.isOpen else r == Ok(t.stream.isOpen))
  {
    ReadLoopStream(h, script);
    ReadKeepsHandler(h, script);
  }

  /** A read that throws closes the connection; what it had queued is never delivered. */
  lemma ConnReadThrew(h: Handler, app: App, delivered: seq<Bytes>, heard: seq<Bytes>, script: seq<Answers>)
    requires ConnOk(h, app, delivered, heard)
    requires HandlerRead(h, script).1.Threw?
    ensures ConnOk(HandlerRead(h, script).0, app, delivered, heard)
  {
    ReadFrame(h, script);
    ReadFilled(h, script);
    ReadDelivers(h, delivered, script);
  }

  lemma ConnEchoed(h: Handler, delivered: seq<Bytes>, heard: seq<Bytes>, bufs: seq<Bytes>)
    requires HandlerOk(h) && Filled(h) && EchoOk(h, delivered)
    requires h.readQueue == [] && h.stream.bio.received == delivered + bufs
    ensures ConnOk(EchoHandler(h, bufs), Echo, delivered + bufs, heard)
  {
    NoEmptyTail(delivered, bufs);
    EchoFilled(h, bufs);
    EchoDeliver(h, delivered, bufs);
    EchoHandlerFrame(h, bufs);
    EchoHandlerKeepsOk(h, bufs);
  }

  lemma ConnTold(h: Handler, app: App, delivered: seq<Bytes>, heard: seq<Bytes>, bufs: seq<Bytes>)
    requires app.Chat? && ConnOk(h, app, delivered, heard) && NoEmptyChunk(bufs)
    ensures ConnOk(EnqueueAll(h, bufs), app, delivered, heard + bufs)
  {
    TellFilled(h, bufs);
    EnqueueAllFrame(h, bufs);
    EnqueueAllKeeps(h, bufs);
    EnqueueAllOutput(h, bufs);
    FlattenConcat(heard, bufs);
  }

  lemma ConnWrite(h: Handler, app: App, delivered: seq<Bytes>, heard: seq<Bytes>, w: WriteScript)
    requires ConnOk(h, app, delivered, heard)
    ensures ConnOk(HandlerWrite(h, w).0, app, delivered, heard)
    ensures HandlerWrite(h, w).0.stream.isOpen ==> h.stream.isOpen
  {
    WriteFrame(h, w);
    WriteKeepsHandler(h, w);
    WriteLoopNoEmptyEntry(h, w.calls);
    if app.Echo? {
      EchoWrite(h, delivered, w);
    }
  }
}
