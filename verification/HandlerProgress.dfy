/** What a handler gets done, answer by answer: what it reads and sends, when it waits, and when it gives up. */
module HandlerProgress {
  import opened Basics
  import opened Wire
  import opened TcpStreams
  import opened Handlers

  /** The stream is open, and application data flows. */
  predicate Established(s: Stream) {
    s.isOpen && s.state in {START, DATA}
  }

  /** The answer takes at least one byte of what is written. */
  predicate Accepting(e: Answers) {
    e.write.Takes? && e.write.count >= 1
  }

  // ------------------------------------------------------------------ reading

  /** Nothing more can be read now. */
  predicate Pauses(script: seq<Answers>) {
    script == [] || script[0].read.ReadRetry?
  }

  lemma ReadPauses(h: Handler, script: seq<Answers>)
    requires StreamOk(h.stream) && Established(h.stream) && Pauses(script)
    ensures HandlerRead(h, script) == (h, Ok(true))
  {
    WouldBlock(h.stream, h.readSize, [], Next(script));
  }

  predicate Fit(chunks: seq<Bytes>, size: nat) {
    forall i :: 0 <= i < |chunks| ==> 1 <= |chunks[i]| <= size
  }

  /** The handler when chunks have been read into it. */
  function With(h: Handler, chunks: seq<Bytes>): Handler {
    h.(stream := h.stream.(bio := h.stream.bio.(received := h.stream.bio.received + chunks)),
       readQueue := h.readQueue + chunks)
  }

  /** Chunks that arrive are read, and then reading pauses with the socket open. */
  lemma ReadsChunks(h: Handler, chunks: seq<Bytes>, rest: seq<Answers>)
    requires HandlerOk(h) && Established(h.stream) && Fit(chunks, h.readSize) && Pauses(rest)
    ensures HandlerRead(h, Arrivals(chunks) + rest) == (With(h, chunks), Ok(true))
  {
    ReadLoopTakes(h, chunks, rest);
    StillOk(h.stream, chunks);
    ReadPauses(With(h, chunks), rest);
  }

  lemma StillOk(s: Stream, chunks: seq<Bytes>)
    requires StreamOk(s) && Established(s)
    ensures StreamOk(s.(bio := s.bio.(received := s.bio.received + chunks)))
  {
  }

  /** Or they are read, and then the socket fails: what was read stays, the socket is closed, nothing throws. */
  lemma ReadsToTheEnd(h: Handler, chunks: seq<Bytes>, rest: seq<Answers>)
    requires HandlerOk(h) && Established(h.stream) && Fit(chunks, h.readSize)
    requires rest != [] && (rest[0].read.ReadFault? || (rest[0].read.ZeroReturn? && !h.stream.bio.ssl))
    ensures HandlerRead(h, Arrivals(chunks) + rest) == (CloseHandler(With(h, chunks)), Ok(false))
  {
    ReadLoopTakes(h, chunks, rest);
    StillOk(h.stream, chunks);
    ReadExact(With(h, chunks).stream, h.readSize, rest[0]);
  }

  /** When the peer ends a TLS session the handler goes on with the shutdown: it is done, goes on, or throws. */
  lemma ReadsShutdown(h: Handler, chunks: seq<Bytes>, rest: seq<Answers>)
    requires HandlerOk(h) && Established(h.stream) && Fit(chunks, h.readSize)
    requires rest != [] && rest[0].read.ZeroReturn? && h.stream.bio.ssl
    ensures var (t, r) := HandlerRead(h, Arrivals(chunks) + rest); var step := rest[0].shutdown;
      && t.readQueue == h.readQueue + chunks
      && t.stream.state == (if step.Done? then STOP else SHUTDOWN)
      && (r.Threw? <==> step.Fails?)
      && (t.stream.isOpen <==> r == Ok(true)) && (r == Ok(true) <==> step in {NotYet, WantIO})
  {
    ReadLoopTakes(h, chunks, rest);
    StillOk(h.stream, chunks);
    ReadExact(With(h, chunks).stream, h.readSize, rest[0]);
  }

  /** While the handshake goes on nothing is read, and the handler waits. */
  lemma ReadWaits(h: Handler, script: seq<Answers>)
    requires StreamOk(h.stream) && h.stream.isOpen && HandshakeWaits(h.stream, Next(script))
    ensures HandlerRead(h, script) == (h, Ok(true))
  {
    ReadExact(h.stream, h.readSize, Next(script));
  }

  /** When it is done, and any check passes, the stream is established, and reading goes on from there. */
  lemma ReadShakes(h: Handler, script: seq<Answers>)
    requires StreamOk(h.stream) && h.stream.isOpen && h.stream.state == HANDSHAKE
    requires script != [] && Ready(h.stream, script[0]) && script[0].read.ReadRetry?
    ensures HandlerRead(h, script) == (h.(stream := Shaken(h.stream, script[0])), Ok(true))
    ensures Established(Shaken(h.stream, script[0]))
  {
    ReadExact(h.stream, h.readSize, script[0]);
  }

  /** When it fails, or the check does, the handler throws, with the socket closed and nothing read. */
  lemma ReadRejects(h: Handler, script: seq<Answers>)
    requires StreamOk(h.stream) && h.stream.isOpen && HandshakeFails(h.stream, Next(script))
    ensures HandlerRead(h, script) == (CloseHandler(h.(stream := Shaken(h.stream, Next(script)))), Threw)
  {
    ReadExact(h.stream, h.readSize, Next(script));
  }

  // ------------------------------------------------------------------ writing

  /** The span that is offered is the beginning of what is unsent: all that is left of the front buffer, or as much
      of it as one call may offer. */
  lemma SpanExact(h: Handler)
    requires h.writeQueue != []
    ensures NextSpan(h) <= Unsent(h.writeQueue)
    ensures |NextSpan(h)| == Min(|h.writeQueue[0].data| - h.writeQueue[0].offset, h.writeSize)
  {
    var front := h.writeQueue[0];
    var n := |NextSpan(h)|;
    SplitAt(front.data, front.offset, front.offset + n);
    Associate(NextSpan(h), front.data[front.offset + n..], Unsent(h.writeQueue[1..]));
  }

  /** One call that takes bytes leaves the stream established. */
  lemma OfferGoesOn(h: Handler, e: Answers)
    requires HandlerOk(h) && Established(h.stream) && NoEmptyEntry(h.writeQueue) && h.writeSize >= 1
    requires h.writeQueue != [] && Accepting(e)
    ensures var (t, r) := OfferFront(h, e);
      && r.Ok? && Established(t.stream) && HandlerOk(t) && NoEmptyEntry(t.writeQueue) && t.writeSize == h.writeSize
      && Output(t) == Output(h) && |t.stream.bio.sent| > |h.stream.bio.sent|
      && |Unsent(t.writeQueue)| < |Unsent(h.writeQueue)|
  {
    WriteExact(h.stream, NextSpan(h), e);
    OfferTaken(h, e);
    OfferFrame(h, e);
    OutputLength(h, OfferFront(h, e).0);
  }

  lemma OutputLength(h: Handler, t: Handler)
    requires Output(t) == Output(h) && |t.stream.bio.sent| > |h.stream.bio.sent|
    ensures |Unsent(t.writeQueue)| < |Unsent(h.writeQueue)|
  {
    assert |Output(h)| == |h.stream.bio.sent| + |Unsent(h.writeQueue)|;
    assert |Output(t)| == |t.stream.bio.sent| + |Unsent(t.writeQueue)|;
  }

  /** A write that would block leaves the handler as it was, open and with its queue, and notes the offer. */
  lemma WritePauses(h: Handler, script: seq<Answers>)
    requires StreamOk(h.stream) && Established(h.stream) && h.writeQueue != []
    requires script == [] || script[0].write.WriteRetry?
    ensures WriteLoop(h, script) == (h.(offers := Offered(h, true)), false)
  {
    WouldBlock(h.stream, 0, NextSpan(h), Next(script));
  }

  /** A write that fails closes the socket and throws; the queue is as it was. */
  lemma WriteFails(h: Handler, script: seq<Answers>)
    requires StreamOk(h.stream) && Established(h.stream) && h.writeQueue != []
    requires script != [] && script[0].write.WriteFault?
    ensures WriteLoop(h, script) == (CloseHandler(h.(offers := Offered(h, false))), true)
  {
    WriteExact(h.stream, NextSpan(h), script[0]);
  }

  /** A write of which no byte is taken closes the socket, and does not throw. */
  lemma WriteEnds(h: Handler, script: seq<Answers>)
    requires StreamOk(h.stream) && Established(h.stream) && h.writeQueue != []
    requires script != [] && script[0].write == Takes(0)
    ensures WriteLoop(h, script) == (CloseHandler(h.(offers := Offered(h, false))), false)
  {
    WriteExact(h.stream, NextSpan(h), script[0]);
  }

  /** While the handshake goes on nothing is written. */
  lemma WriteWaits(h: Handler, script: seq<Answers>)
    requires StreamOk(h.stream) && h.stream.isOpen && HandshakeWaits(h.stream, Next(script)) && h.writeQueue != []
    ensures WriteLoop(h, script) == (h.(offers := Offered(h, true)), false)
  {
    WriteExact(h.stream, NextSpan(h), Next(script));
  }

  /** Answers that take bytes, or would block, never close a socket, whatever is queued. */
  lemma {:induction false} WriteStaysOpen(h: Handler, script: seq<Answers>)
    requires HandlerOk(h) && Established(h.stream) && NoEmptyEntry(h.writeQueue) && h.writeSize >= 1
    requires forall i :: 0 <= i < |script| ==> Accepting(script[i]) || script[i].write.WriteRetry?
    ensures var (t, threw) := WriteLoop(h, script); !threw && Established(t.stream)
    decreases |script|
  {
    if h.writeQueue != [] {
      if script == [] || script[0].write.WriteRetry? {
        WritePauses(h, script);
      } else {
        OfferGoesOn(h, script[0]);
        WriteStaysOpen(OfferFront(h, script[0]).0, script[1..]);
      }
    }
  }

  /** Each answer that takes anything moves the output on by a byte at least, until there is nothing left. */
  lemma {:induction false} WriteSends(h: Handler, script: seq<Answers>, n: nat)
    requires HandlerOk(h) && Established(h.stream) && NoEmptyEntry(h.writeQueue) && h.writeSize >= 1
    requires forall i :: 0 <= i < |script| ==> Accepting(script[i])
    requires n <= |script| && n <= |Unsent(h.writeQueue)|
    ensures |WriteLoop(h, script).0.stream.bio.sent| >= |h.stream.bio.sent| + n
    decreases |script|
  {
    if n == 0 {
      WriteLoopKeeps(h, script);
    } else if h.writeQueue != [] {
      OfferGoesOn(h, script[0]);
      var t := OfferFront(h, script[0]).0;
      assert |Output(h)| == |h.stream.bio.sent| + |Unsent(h.writeQueue)|;
      assert |Output(t)| == |t.stream.bio.sent| + |Unsent(t.writeQueue)|;
      WriteSends(t, script[1..], Min(n - 1, |Unsent(t.writeQueue)|));
    }
  }

  // ------------------------------------------------------------------ the flush

  /** After the loop the BIO gets one call with an empty span exactly when it wants one: a handshake or a shutdown
      that is pending moves on, and what it makes of the socket is reported. */
  lemma FlushExact(h: Handler, wantWrite: bool, e: Answers)
    requires HandlerOk(h)
    ensures var (t, r) := Flush(h, wantWrite, e);
      if h.stream.isOpen && wantWrite then
        && (h.stream.state == SHUTDOWN ==>
              && t.stream.state == (if e.shutdown.Done? then STOP else SHUTDOWN)
              && (t.stream.isOpen <==> e.shutdown in {NotYet, WantIO})
              && (r.Threw? <==> e.shutdown.Fails?))
        && (h.stream.state == HANDSHAKE && e.handshake.Done? && e.write.WriteRetry? && Ready(h.stream, e) ==>
              t.stream == Shaken(h.stream, e) && r == Ok(true))
        && (HandshakeWaits(h.stream, e) ==> t == h && r == Ok(true))
        && (HandshakeFails(h.stream, e) ==> !t.stream.isOpen && r.Threw?)
        && (h.stream.state in {START, DATA} ==>
              if e.write.WriteRetry? then t == h && r == Ok(true)
              else t == CloseHandler(h) && (r.Threw? <==> e.write.WriteFault?) && (r == Ok(false) <==> e.write.Takes?))
      else t == h && r == Ok(h.stream.isOpen)
  {
    if h.stream.isOpen && wantWrite {
      WriteExact(h.stream, [], e);
    }
  }

  /** A write throws exactly when its loop does, or the flush behind it. */
  lemma WriteThrows(h: Handler, w: WriteScript)
    ensures var (h1, threw) := WriteLoop(h, w.calls);
      HandlerWrite(h, w).1.Threw? <==> threw || Flush(h1, w.wantWrite, w.flush).1.Threw?
  {
  }

  /** All that is queued is sent, when the stream accepts, and the handler stays open. */
  lemma WritesAll(h: Handler, w: WriteScript)
    requires HandlerOk(h) && Established(h.stream) && NoEmptyEntry(h.writeQueue) && h.writeSize >= 1
    requires (forall i :: 0 <= i < |w.calls| ==> Accepting(w.calls[i])) && !w.wantWrite
    requires |Unsent(h.writeQueue)| <= |w.calls|
    ensures var (t, r) := HandlerWrite(h, w);
      r == Ok(true) && t.stream.isOpen && t.writeQueue == [] && t.stream.bio.sent == Output(h)
  {
    WriteLoopDrains(h, w.calls);
  }
}
