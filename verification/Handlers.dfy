/** project/io/tcp_socket_poll_handler.hpp: the read and write queues of one connection. */
module Handlers {
  import opened Basics
  import opened Wire
  import opened TcpStreams

  /** One span given to the stream by the write loop: where in the connection's output it starts, and
      whether the stream took nothing because it would have blocked. */
  datatype Offer = Offer(position: nat, span: Bytes, blocked: bool)

  datatype Handler = Handler(
    stream: Stream,
    readQueue: seq<Bytes>,
    writeQueue: seq<Entry>,
    readSize: nat,
    writeSize: nat,
    offers: seq<Offer>)

  datatype WriteScript = WriteScript(calls: seq<Answers>, wantWrite: bool, flush: Answers)

  function NewHandler(stream: Stream, readSize: nat, writeSize: nat): Handler {
    Handler(stream, [], [], readSize, writeSize, [])
  }

  /** The environment's next answers; a script that has run out answers "would block". */
  function Next(script: seq<Answers>): Answers {
    if script == [] then IDLE else script[0]
  }

  function Later(script: seq<Answers>): seq<Answers> {
    if script == [] then [] else script[1..]
  }

  function CloseHandler(h: Handler): Handler {
    h.(stream := Close(h.stream))
  }

  /** The loop of `read`; the flag says that an exception left it. */
  function ReadLoop(h: Handler, script: seq<Answers>): (Handler, bool)
    decreases |script|
  {
    if !h.stream.isOpen then (h, false)
    else
      var (s, r) := Read(h.stream, h.readSize, Next(script));
      match r
      case Ok(chunk) => ReadLoop(h.(stream := s, readQueue := h.readQueue + [chunk]), Later(script))
      case Threw => (h.(stream := Close(s)), true)
      case _ => (h.(stream := s), false)
  }

  /** The part of the front buffer that the write loop offers next. */
  function NextSpan(h: Handler): Bytes
    requires h.writeQueue != []
  {
    var front := h.writeQueue[0];
    front.data[front.offset..front.offset + Min(|front.data| - front.offset, h.writeSize)]
  }

  /** The front buffer advances by what was written, and is dropped when it is used up. */
  function Advanced(queue: seq<Entry>, n: nat): seq<Entry>
    requires queue != [] && queue[0].offset + n <= |queue[0].data|
  {
    var offset := queue[0].offset + n;
    if offset == |queue[0].data| then queue[1..] else [Entry(queue[0].data, offset)] + queue[1..]
  }

  function Offered(h: Handler, blocked: bool): seq<Offer>
    requires h.writeQueue != []
  {
    h.offers + [Offer(|h.stream.bio.sent|, NextSpan(h), blocked)]
  }

  /** One call of the stream by the write loop, with the front of the queue. */
  function OfferFront(h: Handler, e: Answers): (Handler, Outcome<nat>)
    requires h.writeQueue != []
  {
    WroteAtMost(h.stream, NextSpan(h), e);
    var (s, r) := Write(h.stream, NextSpan(h), e);
    var offered := h.(stream := s, offers := Offered(h, r.Blocked?));
    match r
    case Ok(n) => (offered.(writeQueue := Advanced(h.writeQueue, n)), r)
    case Threw => (CloseHandler(offered), r)
    case _ => (offered, r)
  }

  /** The loop of `write`; the flag says that an exception left it. */
  function WriteLoop(h: Handler, script: seq<Answers>): (Handler, bool)
    decreases |script|
  {
    if !h.stream.isOpen || h.writeQueue == [] then (h, false)
    else
      var (t, r) := OfferFront(h, Next(script));
      if r.Ok? then WriteLoop(t, Later(script)) else (t, r.Threw?)
  }

  lemma WroteAtMost(s: Stream, span: Bytes, e: Answers)
    ensures var r := Write(s, span, e).1; r.Ok? ==> 1 <= r.value <= |span|
  {
  }

  /** `read`: the loop, then whether the socket is still open. */
  function HandlerRead(h: Handler, script: seq<Answers>): (Handler, Outcome<bool>) {
    var (h1, threw) := ReadLoop(h, script);
    (h1, if threw then Threw else Ok(h1.stream.isOpen))
  }

  /** The end of `write`: one call with an empty span when the BIO still wants to write. */
  function Flush(h: Handler, wantWrite: bool, e: Answers): (Handler, Outcome<bool>) {
    if h.stream.isOpen && wantWrite then
      var (s, r) := Write(h.stream, [], e);
      if r.Threw? then (h.(stream := Close(s)), Threw) else (h.(stream := s), Ok(s.isOpen))
    else (h, Ok(h.stream.isOpen))
  }

  /** `write`: the loop, then the flush, then whether the socket is still open. */
  function HandlerWrite(h: Handler, w: WriteScript): (Handler, Outcome<bool>) {
    var (h1, threw) := WriteLoop(h, w.calls);
    if threw then (h1, Threw) else Flush(h1, w.wantWrite, w.flush)
  }

  function Enqueue(h: Handler, data: Bytes): Handler {
    h.(writeQueue := h.writeQueue + [Entry(data, 0)])
  }

  function Dequeue(h: Handler): Handler {
    if h.readQueue == [] then h else h.(readQueue := h.readQueue[1..])
  }

  // ------------------------------------------------------------------ invariants

  predicate RetryStable(offers: seq<Offer>) {
    forall i :: 0 < i < |offers| && offers[i-1].blocked ==>
      offers[i].position == offers[i-1].position && offers[i].span == offers[i-1].span
  }

  predicate SpansFit(offers: seq<Offer>, writeSize: nat) {
    forall i :: 0 <= i < |offers| ==> |offers[i].span| <= writeSize
  }

  /** A blocked offer is still waiting at the front of the queue. */
  predicate BlockedPending(h: Handler) {
    h.offers != [] && h.offers[|h.offers| - 1].blocked ==>
      && h.writeQueue != []
      && h.offers[|h.offers| - 1].span == NextSpan(h)
      && h.offers[|h.offers| - 1].position == |h.stream.bio.sent|
  }

  predicate HandlerOk(h: Handler) {
    && StreamOk(h.stream)
    && RetryStable(h.offers)
    && SpansFit(h.offers, h.writeSize)
    && BlockedPending(h)
  }

  predicate NoEmptyEntry(queue: seq<Entry>) {
    forall i :: 0 <= i < |queue| ==> queue[i].offset < |queue[i].data|
  }

  /** All bytes ever given to this connection: those accepted, then those still queued. */
  function Output(h: Handler): Bytes {
    h.stream.bio.sent + Unsent(h.writeQueue)
  }

  lemma UnsentFront(e: Entry, rest: seq<Entry>)
    ensures Unsent([e] + rest) == e.data[e.offset..] + Unsent(rest)
  {
  }

  lemma AdvancedUnsent(queue: seq<Entry>, n: nat)
    requires queue != [] && queue[0].offset + n <= |queue[0].data|
    ensures Unsent(queue) == queue[0].data[queue[0].offset..queue[0].offset + n] + Unsent(Advanced(queue, n))
  {
    var e := queue[0];
    var k := e.offset + n;
    assert Unsent(queue) == e.data[e.offset..] + Unsent(queue[1..]);
    if k == |e.data| {
      assert Advanced(queue, n) == queue[1..] && e.data[e.offset..k] == e.data[e.offset..];
    } else {
      UnsentFront(Entry(e.data, k), queue[1..]);
      SplitAt(e.data, e.offset, k);
      Associate(e.data[e.offset..k], e.data[k..], Unsent(queue[1..]));
    }
  }

  // ------------------------------------------------------------------ read

  lemma {:induction false} ReadLoopStream(h: Handler, script: seq<Answers>)
    requires StreamOk(h.stream)
    ensures var (t, threw) := ReadLoop(h, script);
      && StreamOk(t.stream) && Advances(h.stream, t.stream)
      && t.stream.bio.sent == h.stream.bio.sent
      && t == h.(stream := t.stream, readQueue := t.readQueue)
      && (threw ==> !t.stream.isOpen)
      && (!h.stream.isOpen ==> t == h && !threw)
    decreases |script|
  {
    if h.stream.isOpen {
      ReadKeepsOk(h.stream, h.readSize, Next(script));
      var (s, r) := Read(h.stream, h.readSize, Next(script));
      if r.Ok? {
        var h1 := h.(stream := s, readQueue := h.readQueue + [r.value]);
        ReadLoopStream(h1, Later(script));
        AdvancesTransitive(h.stream, s, ReadLoop(h1, Later(script)).0.stream);
      }
    }
  }

  /** Every chunk the stream returned is queued, once and in order, and nothing else is. */
  lemma {:induction false} ReadLoopDelivers(h: Handler, script: seq<Answers>)
    requires StreamOk(h.stream)
    ensures var t := ReadLoop(h, script).0;
      && h.readQueue <= t.readQueue
      && t.stream.bio.received == h.stream.bio.received + t.readQueue[|h.readQueue|..]
    decreases |script|
  {
    if h.stream.isOpen {
      ReadKeepsOk(h.stream, h.readSize, Next(script));
      var (s, r) := Read(h.stream, h.readSize, Next(script));
      if r.Ok? {
        var h1 := h.(stream := s, readQueue := h.readQueue + [r.value]);
        ReadLoopDelivers(h1, Later(script));
        var t := ReadLoop(h1, Later(script)).0;
        assert t.readQueue[|h.readQueue|..] == [r.value] + t.readQueue[|h1.readQueue|..];
      }
    }
  }

  /** The answers of a BIO at which these chunks arrive. */
  function Arrivals(chunks: seq<Bytes>): seq<Answers> {
    if chunks == [] then [] else [IDLE.(read := Incoming(chunks[0]))] + Arrivals(chunks[1..])
  }

  /** The read loop goes on for as long as chunks arrive, and queues them all. */
  lemma {:induction false} ReadLoopTakes(h: Handler, chunks: seq<Bytes>, script: seq<Answers>)
    requires h.stream.isOpen && h.stream.state in {START, DATA}
    requires forall i :: 0 <= i < |chunks| ==> 1 <= |chunks[i]| <= h.readSize
    ensures var s := h.stream.(bio := h.stream.bio.(received := h.stream.bio.received + chunks));
      ReadLoop(h, Arrivals(chunks) + script) == ReadLoop(h.(stream := s, readQueue := h.readQueue + chunks), script)
    decreases |chunks|
  {
    if chunks == [] {
      assert h.stream.bio.received + [] == h.stream.bio.received && h.readQueue + [] == h.readQueue;
      assert Arrivals(chunks) + script == script;
    } else {
      var first := IDLE.(read := Incoming(chunks[0]));
      var (s, r) := Read(h.stream, h.readSize, first);
      assert chunks[0][..|chunks[0]|] == chunks[0];
      assert Later(Arrivals(chunks) + script) == Arrivals(chunks[1..]) + script;
      ReadLoopTakes(h.(stream := s, readQueue := h.readQueue + [chunks[0]]), chunks[1..], script);
      assert chunks == [chunks[0]] + chunks[1..];
      Associate(h.stream.bio.received, [chunks[0]], chunks[1..]);
      Associate(h.readQueue, [chunks[0]], chunks[1..]);
    }
  }

  lemma ReadKeepsHandler(h: Handler, script: seq<Answers>)
    requires HandlerOk(h)
    ensures HandlerOk(HandlerRead(h, script).0)
  {
    ReadLoopStream(h, script);
  }

  // ------------------------------------------------------------------ write

  lemma OfferStable(h: Handler, blocked: bool)
    requires HandlerOk(h) && h.writeQueue != []
    ensures RetryStable(Offered(h, blocked)) && SpansFit(Offered(h, blocked), h.writeSize)
  {
  }

  lemma TakenOutput(h: Handler, e: Answers)
    requires StreamOk(h.stream) && h.stream.isOpen && h.writeQueue != [] && OfferFront(h, e).1.Ok?
    ensures Output(OfferFront(h, e).0) == Output(h)
  {
    WriteKeepsOk(h.stream, NextSpan(h), e);
    var n := Write(h.stream, NextSpan(h), e).1.value;
    var front := h.writeQueue[0];
    AdvancedUnsent(h.writeQueue, n);
    assert NextSpan(h)[..n] == front.data[front.offset..front.offset + n];
    Associate(h.stream.bio.sent, NextSpan(h)[..n], Unsent(Advanced(h.writeQueue, n)));
  }

  /** The stream took part of the span: what it took moves from the queue to the sent bytes. */
  lemma OfferTaken(h: Handler, e: Answers)
    requires HandlerOk(h) && h.stream.isOpen && h.writeQueue != [] && OfferFront(h, e).1.Ok?
    ensures var t := OfferFront(h, e).0;
      && HandlerOk(t) && Output(t) == Output(h) && Advances(h.stream, t.stream)
      && |h.stream.bio.sent| < |t.stream.bio.sent|
      && t.stream.bio.received == h.stream.bio.received
  {
    WriteKeepsOk(h.stream, NextSpan(h), e);
    OfferStable(h, false);
    TakenOutput(h, e);
  }

  /** The stream took nothing: the queue and the sent bytes are as before. */
  lemma OfferRefused(h: Handler, e: Answers)
    requires HandlerOk(h) && h.stream.isOpen && h.writeQueue != [] && !OfferFront(h, e).1.Ok?
    ensures var (t, r) := OfferFront(h, e);
      && HandlerOk(t) && Output(t) == Output(h) && Advances(h.stream, t.stream)
      && t.stream.bio.sent == h.stream.bio.sent && t.stream.bio.received == h.stream.bio.received
      && (!r.Blocked? ==> !t.stream.isOpen)
  {
    WriteKeepsOk(h.stream, NextSpan(h), e);
    OfferStable(h, Write(h.stream, NextSpan(h), e).1.Blocked?);
  }

  /** What an offer leaves alone, and what it records. */
  lemma OfferFrame(h: Handler, e: Answers)
    requires h.writeQueue != []
    ensures var (t, r) := OfferFront(h, e);
      && t == h.(stream := t.stream, writeQueue := t.writeQueue, offers := t.offers)
      && t.offers == Offered(h, r.Blocked?)
      && (NoEmptyEntry(h.writeQueue) ==> NoEmptyEntry(t.writeQueue))
  {
  }

  /** Conservation: whatever the stream answers, the write loop neither loses, repeats nor reorders a byte. */
  lemma {:induction false} WriteLoopKeeps(h: Handler, script: seq<Answers>)
    requires HandlerOk(h)
    ensures var (t, threw) := WriteLoop(h, script);
      && HandlerOk(t) && Output(t) == Output(h) && Advances(h.stream, t.stream)
      && t.stream.bio.received == h.stream.bio.received
      && (threw ==> !t.stream.isOpen)
    decreases |script|
  {
    if h.stream.isOpen && h.writeQueue != [] {
      var (t, r) := OfferFront(h, Next(script));
      if r.Ok? {
        OfferTaken(h, Next(script));
        WriteLoopKeeps(t, Later(script));
        AdvancesTransitive(h.stream, t.stream, WriteLoop(t, Later(script)).0.stream);
      } else {
        OfferRefused(h, Next(script));
      }
    }
  }

  lemma {:induction false} WriteLoopFrame(h: Handler, script: seq<Answers>)
    ensures var (t, threw) := WriteLoop(h, script);
      && t == h.(stream := t.stream, writeQueue := t.writeQueue, offers := t.offers)
      && (!h.stream.isOpen ==> t == h && !threw)
    decreases |script|
  {
    if h.stream.isOpen && h.writeQueue != [] {
      OfferFrame(h, Next(script));
      var (t, r) := OfferFront(h, Next(script));
      if r.Ok? {
        WriteLoopFrame(t, Later(script));
      }
    }
  }

  /** An offer is one more entry in the record, and sends a byte unless it is refused. */
  lemma OfferCounts(h: Handler, e: Answers)
    requires StreamOk(h.stream) && h.stream.isOpen && h.writeQueue != []
    ensures var (t, r) := OfferFront(h, e);
      && StreamOk(t.stream)
      && t.offers == Offered(h, r.Blocked?)
      && |h.stream.bio.sent| + (if r.Ok? then 1 else 0) <= |t.stream.bio.sent|
      && (r.Ok? || r.Blocked? || !t.stream.isOpen)
  {
    WriteKeepsOk(h.stream, NextSpan(h), e);
  }

  /** The loop makes at most one call per byte it sends, and one more. */
  lemma {:induction false} WriteLoopCount(h: Handler, script: seq<Answers>)
    requires StreamOk(h.stream)
    ensures var t := WriteLoop(h, script).0;
      |h.offers| <= |t.offers| <= |h.offers| + |t.stream.bio.sent| - |h.stream.bio.sent| + 1
    decreases |script|
  {
    if h.stream.isOpen && h.writeQueue != [] {
      OfferCounts(h, Next(script));
      var (t, r) := OfferFront(h, Next(script));
      if r.Ok? {
        WriteLoopCount(t, Later(script));
      }
    }
  }

  /** When the loop returns normally the queue is empty, the socket is closed, or the last call of this loop
      was blocked. */
  lemma {:induction false} WriteLoopStops(h: Handler, script: seq<Answers>)
    requires StreamOk(h.stream)
    ensures var (t, threw) := WriteLoop(h, script);
      threw || t.writeQueue == [] || !t.stream.isOpen || (|h.offers| < |t.offers| && t.offers[|t.offers| - 1].blocked)
    decreases |script|
  {
    if h.stream.isOpen && h.writeQueue != [] {
      OfferCounts(h, Next(script));
      var (t, r) := OfferFront(h, Next(script));
      if r.Ok? {
        WriteLoopStops(t, Later(script));
      }
    }
  }

  /** No entry is ever used up and left in the queue, nor was one empty to begin with. */
  lemma {:induction false} WriteLoopNoEmptyEntry(h: Handler, script: seq<Answers>)
    requires NoEmptyEntry(h.writeQueue)
    ensures NoEmptyEntry(WriteLoop(h, script).0.writeQueue)
    decreases |script|
  {
    if h.stream.isOpen && h.writeQueue != [] {
      OfferFrame(h, Next(script));
      var (t, r) := OfferFront(h, Next(script));
      if r.Ok? {
        WriteLoopNoEmptyEntry(t, Later(script));
      }
    }
  }

  /** Without counting answers: the loop ends after at most one call per unsent byte, plus one. */
  lemma WriteLoopBound(h: Handler, script: seq<Answers>)
    requires HandlerOk(h)
    ensures |WriteLoop(h, script).0.offers| <= |h.offers| + |Unsent(h.writeQueue)| + 1
  {
    WriteLoopKeeps(h, script);
    WriteLoopCount(h, script);
    var t := WriteLoop(h, script).0;
    assert |Output(t)| == |t.stream.bio.sent| + |Unsent(t.writeQueue)|;
  }

  lemma SomethingUnsent(queue: seq<Entry>)
    requires NoEmptyEntry(queue) && queue != []
    ensures |Unsent(queue)| >= 1
  {
  }

  /** When the stream goes on accepting, however little each time, everything queued is sent. */
  lemma {:induction false} WriteLoopDrains(h: Handler, script: seq<Answers>)
    requires HandlerOk(h) && h.stream.isOpen && h.stream.state in {START, DATA}
    requires NoEmptyEntry(h.writeQueue) && h.writeSize >= 1 && |Unsent(h.writeQueue)| <= |script|
    requires forall i :: 0 <= i < |script| ==> script[i].write.Takes? && script[i].write.count >= 1
    ensures var (t, threw) := WriteLoop(h, script);
      !threw && t.stream.isOpen && t.writeQueue == [] && t.stream.bio.sent == Output(h)
    decreases |script|
  {
    if h.writeQueue == [] {
      assert Output(h) == h.stream.bio.sent;
    } else {
      SomethingUnsent(h.writeQueue);
      OfferTaken(h, script[0]);
      OfferFrame(h, script[0]);
      WriteKeepsOk(h.stream, NextSpan(h), script[0]);
      WriteLoopDrains(OfferFront(h, script[0]).0, script[1..]);
    }
  }

  /** The flush moves no application byte. */
  lemma FlushKeeps(h: Handler, wantWrite: bool, e: Answers)
    requires HandlerOk(h)
    ensures var (t, r) := Flush(h, wantWrite, e);
      && t == h.(stream := t.stream)
      && t.stream.bio.sent == h.stream.bio.sent && t.stream.bio.received == h.stream.bio.received
      && HandlerOk(t) && Output(t) == Output(h) && Advances(h.stream, t.stream)
      && (r.Threw? ==> !t.stream.isOpen)
      && (!h.stream.isOpen ==> t == h && r == Ok(false))
  {
    if h.stream.isOpen && wantWrite {
      WriteKeepsOk(h.stream, [], e);
    }
  }

  lemma WriteFrame(h: Handler, w: WriteScript)
    ensures var (t, r) := HandlerWrite(h, w);
      && t == h.(stream := t.stream, writeQueue := t.writeQueue, offers := t.offers)
      && (!h.stream.isOpen ==> t == h && r == Ok(false))
  {
    WriteLoopFrame(h, w.calls);
  }

  lemma WriteKeepsHandler(h: Handler, w: WriteScript)
    requires HandlerOk(h)
    ensures var (t, r) := HandlerWrite(h, w);
      && HandlerOk(t) && Output(t) == Output(h) && Advances(h.stream, t.stream)
      && t.stream.bio.received == h.stream.bio.received
      && (r.Threw? ==> !t.stream.isOpen)
  {
    WriteLoopKeeps(h, w.calls);
    var (h1, threw) := WriteLoop(h, w.calls);
    if !threw {
      FlushKeeps(h1, w.wantWrite, w.flush);
      AdvancesTransitive(h.stream, h1.stream, Flush(h1, w.wantWrite, w.flush).0.stream);
    }
  }

  // ------------------------------------------------------------------ every run of one handler

  datatype Op = ReadOp(script: seq<Answers>) | WriteOp(w: WriteScript) | EnqueueOp(data: Bytes) | DequeueOp | CloseOp

  function Apply(h: Handler, op: Op): Handler {
    match op
    case ReadOp(script) => HandlerRead(h, script).0
    case WriteOp(w) => HandlerWrite(h, w).0
    case EnqueueOp(data) => Enqueue(h, data)
    case DequeueOp => Dequeue(h)
    case CloseOp => CloseHandler(h)
  }

  function ApplyAll(h: Handler, ops: seq<Op>): Handler
    decreases |ops|
  {
    if ops == [] then h else ApplyAll(Apply(h, ops[0]), ops[1..])
  }

  function Enqueued(op: Op): Bytes {
    if op.EnqueueOp? then op.data else []
  }

  function AllEnqueued(ops: seq<Op>): Bytes {
    if ops == [] then [] else Enqueued(ops[0]) + AllEnqueued(ops[1..])
  }

  function Dequeued(h: Handler, op: Op): seq<Bytes> {
    if op.DequeueOp? && h.readQueue != [] then [h.readQueue[0]] else []
  }

  function AllDequeued(h: Handler, ops: seq<Op>): seq<Bytes>
    decreases |ops|
  {
    if ops == [] then [] else Dequeued(h, ops[0]) + AllDequeued(Apply(h, ops[0]), ops[1..])
  }

  lemma EnqueueOutput(h: Handler, data: Bytes)
    ensures Output(Enqueue(h, data)) == Output(h) + data
  {
    UnsentEnqueue(h.writeQueue, data);
  }

  lemma EnqueueOk(h: Handler, data: Bytes)
    requires HandlerOk(h)
    ensures HandlerOk(Enqueue(h, data))
  {
  }

  lemma ApplyKeeps(h: Handler, op: Op)
    requires HandlerOk(h)
    ensures var t := Apply(h, op);
      && HandlerOk(t) && Advances(h.stream, t.stream)
      && Output(t) == Output(h) + Enqueued(op)
  {
    match op
    case ReadOp(script) => ReadLoopStream(h, script);
    case WriteOp(w) => WriteFrame(h, w); WriteKeepsHandler(h, w);
    case EnqueueOp(data) => EnqueueOk(h, data); EnqueueOutput(h, data);
    case DequeueOp =>
    case CloseOp =>
  }

  lemma ApplyDelivers(h: Handler, op: Op, before: seq<Bytes>)
    requires HandlerOk(h) && h.stream.bio.received == before + h.readQueue
    ensures Apply(h, op).stream.bio.received == before + Dequeued(h, op) + Apply(h, op).readQueue
  {
    match op
    case ReadOp(script) => ReadLoopDelivers(h, script);
    case WriteOp(w) => WriteFrame(h, w); WriteKeepsHandler(h, w);
    case EnqueueOp(data) =>
    case DequeueOp =>
    case CloseOp =>
  }

  /** Whatever is done to a handler, its invariant stays and its stream only advances. */
  lemma {:induction false} RunKeeps(h: Handler, ops: seq<Op>)
    requires HandlerOk(h)
    ensures HandlerOk(ApplyAll(h, ops)) && Advances(h.stream, ApplyAll(h, ops).stream)
    decreases |ops|
  {
    if ops != [] {
      var h1 := Apply(h, ops[0]);
      ApplyKeeps(h, ops[0]);
      RunKeeps(h1, ops[1..]);
      AdvancesTransitive(h.stream, h1.stream, ApplyAll(h, ops).stream);
    }
  }

  /** The bytes accepted followed by those still queued are the bytes enqueued, in order. */
  lemma {:induction false} RunConserves(h: Handler, ops: seq<Op>)
    requires HandlerOk(h)
    ensures Output(ApplyAll(h, ops)) == Output(h) + AllEnqueued(ops)
    decreases |ops|
  {
    if ops != [] {
      ApplyKeeps(h, ops[0]);
      RunConserves(Apply(h, ops[0]), ops[1..]);
      Associate(Output(h), Enqueued(ops[0]), AllEnqueued(ops[1..]));
    }
  }

  /** Chunks dequeued, followed by those still queued, are the chunks the stream returned. */
  lemma {:induction false} RunDelivers(h: Handler, ops: seq<Op>, before: seq<Bytes>)
    requires HandlerOk(h) && h.stream.bio.received == before + h.readQueue
    ensures var t := ApplyAll(h, ops);
      t.stream.bio.received == before + AllDequeued(h, ops) + t.readQueue
    decreases |ops|
  {
    if ops != [] {
      ApplyKeeps(h, ops[0]);
      ApplyDelivers(h, ops[0], before);
      RunDelivers(Apply(h, ops[0]), ops[1..], before + Dequeued(h, ops[0]));
    }
  }

  /** Over every run of a new handler: a span that was refused because the stream blocked is offered again as
      it was, at the same place in the output, before anything else; and no span is longer than allowed. */
  lemma RetryStability(stream: Stream, readSize: nat, writeSize: nat, ops: seq<Op>)
    requires stream == PlainStream() || stream == TlsStream(false) || stream == TlsStream(true)
    ensures var offers := ApplyAll(NewHandler(stream, readSize, writeSize), ops).offers;
      RetryStable(offers) && SpansFit(offers, writeSize)
  {
    var h := NewHandler(stream, readSize, writeSize);
    RunKeeps(h, ops);
    RunSizes(h, ops);
  }

  lemma {:induction false} RunSizes(h: Handler, ops: seq<Op>)
    requires HandlerOk(h)
    ensures ApplyAll(h, ops).writeSize == h.writeSize
    decreases |ops|
  {
    if ops != [] {
      ApplyKeeps(h, ops[0]);
      ApplySizes(h, ops[0]);
      RunSizes(Apply(h, ops[0]), ops[1..]);
    }
  }

  lemma ApplySizes(h: Handler, op: Op)
    requires HandlerOk(h)
    ensures Apply(h, op).writeSize == h.writeSize
  {
    match op
    case ReadOp(script) => ReadLoopStream(h, script);
    case WriteOp(w) => WriteFrame(h, w); WriteKeepsHandler(h, w);
    case _ =>
  }

  /** When only non-empty buffers are enqueued, no entry of the write queue is ever used up. */
  lemma {:induction false} RunNoEmptyEntry(h: Handler, ops: seq<Op>)
    requires NoEmptyEntry(h.writeQueue)
    requires forall i :: 0 <= i < |ops| && ops[i].EnqueueOp? ==> ops[i].data != []
    ensures NoEmptyEntry(ApplyAll(h, ops).writeQueue)
    decreases |ops|
  {
    if ops != [] {
      ApplyNoEmptyEntry(h, ops[0]);
      RunNoEmptyEntry(Apply(h, ops[0]), ops[1..]);
    }
  }

  lemma ApplyNoEmptyEntry(h: Handler, op: Op)
    requires NoEmptyEntry(h.writeQueue) && (op.EnqueueOp? ==> op.data != [])
    ensures NoEmptyEntry(Apply(h, op).writeQueue)
  {
    match op
    case ReadOp(script) => ReadLoopQueue(h, script);
    case WriteOp(w) => WriteLoopNoEmptyEntry(h, w.calls);
    case _ =>
  }

  lemma {:induction false} ReadLoopQueue(h: Handler, script: seq<Answers>)
    ensures ReadLoop(h, script).0.writeQueue == h.writeQueue
    decreases |script|
  {
    if h.stream.isOpen {
      var (s, r) := Read(h.stream, h.readSize, Next(script));
      if r.Ok? {
        ReadLoopQueue(h.(stream := s, readQueue := h.readQueue + [r.value]), Later(script));
      }
    }
  }

  /** The TLS gate over every run of a new client-side handler: a chunk received or a byte sent means that
      the handshake was over and the peer had been verified; and when the handshake is over without that, the
      socket is closed, and whatever is done later nothing is received, delivered or sent. */
  lemma TlsGate(readSize: nat, writeSize: nat, ops: seq<Op>, later: seq<Op>)
    ensures var t := ApplyAll(NewHandler(TlsStream(true), readSize, writeSize), ops);
      && (Carried(t.stream) || t.readQueue != [] ==> t.stream.bio.handshaken && t.stream.bio.verified)
      && (t.stream.state != HANDSHAKE && !t.stream.bio.verified ==>
            && !t.stream.isOpen
            && var u := ApplyAll(t, later); !u.stream.isOpen && !Carried(u.stream) && u.readQueue == [])
  {
    var h := NewHandler(TlsStream(true), readSize, writeSize);
    var t := ApplyAll(h, ops);
    RunKeeps(h, ops);
    RunDelivers(h, ops, []);
    if t.stream.state != HANDSHAKE && !t.stream.bio.verified {
      RejectedForever(t, later);
      RunDelivers(t, later, []);
    }
  }

  /** Once the peer has been rejected, no run ever receives a chunk, sends a byte, verifies or reopens. */
  lemma RejectedForever(h: Handler, ops: seq<Op>)
    requires HandlerOk(h) && Rejected(h.stream)
    ensures var t := ApplyAll(h, ops);
      && Rejected(t.stream) && !t.stream.isOpen && !Carried(t.stream)
  {
    RunKeeps(h, ops);
    RejectedStays(h, ops);
  }

  lemma {:induction false} RejectedStays(h: Handler, ops: seq<Op>)
    requires HandlerOk(h) && Rejected(h.stream)
    ensures Rejected(ApplyAll(h, ops).stream)
    decreases |ops|
  {
    if ops != [] {
      ApplyKeeps(h, ops[0]);
      ClosedIsFrozen(h, ops[0]);
      RejectedStays(Apply(h, ops[0]), ops[1..]);
    }
  }

  /** No operation changes the stream of a closed handler. */
  lemma ClosedIsFrozen(h: Handler, op: Op)
    requires HandlerOk(h) && !h.stream.isOpen
    ensures Apply(h, op).stream == h.stream
  {
  }
}
