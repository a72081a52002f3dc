/** What holds of every run of a file handler. */
module FileTheorems {
  import opened Wire
  import opened Files
  import opened TcpStreams
  import opened Handlers
  import opened FileHandlerObjects

  /** Where the file handler throws, the socket handler would have reported that it is closed; so the
      descriptor is given up in both. */
  lemma {:induction false} FaultCloses(h: Handler, calls: seq<ReadCall>)
    requires h.stream.isOpen && !h.stream.bio.ssl && h.stream.state == START
    ensures var (t, r) := HandlerRead(h, ForReads(calls));
      Faults(calls, h.readSize) ==> !t.stream.isOpen && r == Ok(false)
    decreases |calls|
  {
    if Faults(calls, h.readSize) && calls[0].Got? {
      var (s, r) := Plain.Read(h.stream, h.readSize, ForRead(calls[0]));
      assert ForReads(calls)[1..] == ForReads(calls[1..]);
      FaultCloses(h.(stream := s, readQueue := h.readQueue + [r.value]), calls[1..]);
    }
  }

  // ------------------------------------------------------------------ every run of a file handler

  datatype FileOp =
    | ReadFile(readCalls: seq<ReadCall>)
    | WriteFile(writeCalls: seq<WriteCall>)
    | EnqueueFile(data: Bytes)
    | DequeueFile
    | CloseFile

  /** One operation, and whether it throws. */
  function ApplyFile(h: Handler, op: FileOp): (Handler, bool) {
    match op
    case ReadFile(calls) => var (t, r) := FileRead(h, calls); (t, r.Threw?)
    case WriteFile(calls) => var (t, r) := HandlerWrite(h, ForWriteLoop(calls)); (t, r.Threw?)
    case EnqueueFile(data) => (Handlers.Enqueue(h, data), false)
    case DequeueFile => (Handlers.Dequeue(h), false)
    case CloseFile => (CloseHandler(h), false)
  }

  function ApplyFiles(h: Handler, ops: seq<FileOp>): Handler
    decreases |ops|
  {
    if ops == [] then h else ApplyFiles(ApplyFile(h, ops[0]).0, ops[1..])
  }

  /** The operation of a plain socket handler that does the same. */
  function AsOp(op: FileOp): Op {
    match op
    case ReadFile(calls) => ReadOp(ForReads(calls))
    case WriteFile(calls) => WriteOp(ForWriteLoop(calls))
    case EnqueueFile(data) => EnqueueOp(data)
    case DequeueFile => DequeueOp
    case CloseFile => CloseOp
  }

  function AsOps(ops: seq<FileOp>): seq<Op> {
    if ops == [] then [] else [AsOp(ops[0])] + AsOps(ops[1..])
  }

  /** A file handler refines the socket handler over a plain stream, run by run. */
  lemma {:induction false} FileRefines(h: Handler, ops: seq<FileOp>)
    ensures ApplyFiles(h, ops) == ApplyAll(h, AsOps(ops))
    decreases |ops|
  {
    if ops != [] {
      assert AsOps(ops)[1..] == AsOps(ops[1..]);
      FileRefines(ApplyFile(h, ops[0]).0, ops[1..]);
    }
  }

  /** What an operation of a sound handler leaves; one that throws has closed the file. */
  lemma FileOpKeeps(h: Handler, op: FileOp)
    requires HandlerOk(h) && !h.stream.bio.ssl
    ensures var (t, threw) := ApplyFile(h, op);
      && t == Apply(h, AsOp(op)) && HandlerOk(t) && !t.stream.bio.ssl
      && (threw ==> !t.stream.isOpen)
      && (!h.stream.isOpen ==> t.stream == h.stream)
  {
    ApplyKeeps(h, AsOp(op));
    if !h.stream.isOpen {
      ClosedIsFrozen(h, AsOp(op));
    }
    match op
    case ReadFile(calls) =>
      ReadLoopStream(h, ForReads(calls));
      if h.stream.isOpen {
        FaultCloses(h, calls);
      }
    case WriteFile(calls) => WriteKeepsHandler(h, ForWriteLoop(calls));
    case _ =>
  }

  lemma {:induction false} ClosedStays(h: Handler, ops: seq<FileOp>)
    requires HandlerOk(h) && !h.stream.bio.ssl && !h.stream.isOpen
    ensures ApplyFiles(h, ops).stream == h.stream
    decreases |ops|
  {
    if ops != [] {
      FileOpKeeps(h, ops[0]);
      ClosedStays(ApplyFile(h, ops[0]).0, ops[1..]);
    }
  }

  /** Every run of a file handler: what was written and is queued is what was enqueued, what was dequeued and is
      queued is what was read, and a span refused because the file blocked is offered again. */
  lemma FileRun(readSize: nat, writeSize: nat, ops: seq<FileOp>)
    ensures var h := NewHandler(PlainStream(), readSize, writeSize);
      var t := ApplyFiles(h, ops);
      && Output(t) == AllEnqueued(AsOps(ops))
      && t.stream.bio.received == AllDequeued(h, AsOps(ops)) + t.readQueue
      && RetryStable(t.offers) && SpansFit(t.offers, writeSize)
  {
    var h := NewHandler(PlainStream(), readSize, writeSize);
    FileRefines(h, ops);
    assert Output(ApplyFiles(h, ops)) == AllEnqueued(AsOps(ops)) by {
      RunConserves(h, AsOps(ops));
      assert Output(h) == [];
    }
    assert ApplyFiles(h, ops).stream.bio.received == AllDequeued(h, AsOps(ops)) + ApplyFiles(h, ops).readQueue by {
      RunDelivers(h, AsOps(ops), []);
      assert [] + AllDequeued(h, AsOps(ops)) == AllDequeued(h, AsOps(ops));
    }
    RetryStability(PlainStream(), readSize, writeSize, AsOps(ops));
  }

  /** When an operation of a run throws, the file is closed, and nothing is read or written after it. */
  lemma FileThrown(readSize: nat, writeSize: nat, ops: seq<FileOp>, op: FileOp, later: seq<FileOp>)
    ensures var h := NewHandler(PlainStream(), readSize, writeSize);
      var (s, threw) := ApplyFile(ApplyFiles(h, ops), op);
      var t := ApplyFiles(s, later);
      threw ==> !t.stream.isOpen && t.stream == s.stream
  {
    var h := NewHandler(PlainStream(), readSize, writeSize);
    var before := ApplyFiles(h, ops);
    FileRefines(h, ops);
    RunKeeps(h, AsOps(ops));
    FileOpKeeps(before, op);
    var (s, threw) := ApplyFile(before, op);
    if threw {
      ClosedStays(s, later);
    }
  }

  // ------------------------------------------------------------------ what a file handler wants

  /** A handler of a file that can be written wants to write exactly when a write would send something: if it does,
      a call that takes any bytes at all sends so much of the next span; if not, no write does anything. */
  lemma WantsWriteExact(h: Handler, oflag: OpenFlag, count: nat, calls: seq<WriteCall>)
    requires HandlerOk(h) && h.stream.state == START && NoEmptyEntry(h.writeQueue) && h.writeSize >= 1
    requires oflag != READ_ONLY && count >= 1
    ensures WantsWrite(h, oflag) ==>
      && NextSpan(h) != []
      && HandlerWrite(h, ForWriteLoop([Took(count)])).0.stream.bio.sent ==
         h.stream.bio.sent + NextSpan(h)[..Min(count, |NextSpan(h)|)]
    ensures !WantsWrite(h, oflag) ==> HandlerWrite(h, ForWriteLoop(calls)).0 == h
  {
    if WantsWrite(h, oflag) {
      var script := ForWrites([Took(count)]);
      assert [Took(count)][1..] == [] && script == [ForWrite(Took(count))] + ForWrites([]);
      assert script[1..] == [];
      var t := OfferFront(h, script[0]).0;
      OfferTaken(h, script[0]);
      NothingMore(t);
    }
  }

  lemma NothingMore(h: Handler)
    requires h.stream.state == START
    ensures WriteLoop(h, []).0.stream.bio.sent == h.stream.bio.sent
  {
  }

  /** The calls of ::read at which these chunks arrive. */
  function Gets(chunks: seq<Bytes>): seq<ReadCall> {
    if chunks == [] then [] else [Got(chunks[0])] + Gets(chunks[1..])
  }

  lemma {:induction false} GetsArrive(chunks: seq<Bytes>)
    ensures ForReads(Gets(chunks)) == Arrivals(chunks)
  {
    if chunks != [] {
      assert Gets(chunks)[1..] == Gets(chunks[1..]);
      GetsArrive(chunks[1..]);
    }
  }

  /** And a handler of a file that can be read wants to read exactly when a read would give something: if it does,
      whatever arrives in chunks that fit is queued; if not, no read does anything. */
  lemma WantsReadExact(h: Handler, oflag: OpenFlag, chunks: seq<Bytes>, calls: seq<ReadCall>)
    requires h.stream.state == START && !h.stream.bio.ssl && h.readSize >= 1
    requires oflag != WRITE_ONLY
    requires forall i :: 0 <= i < |chunks| ==> 1 <= |chunks[i]| <= h.readSize
    ensures WantsRead(h, oflag) ==> FileRead(h, Gets(chunks)).0.readQueue == h.readQueue + chunks
    ensures !WantsRead(h, oflag) ==> FileRead(h, calls).0 == h
  {
    if WantsRead(h, oflag) {
      GetsArrive(chunks);
      assert Arrivals(chunks) + [] == Arrivals(chunks);
      ReadLoopTakes(h, chunks, []);
    }
  }
}
