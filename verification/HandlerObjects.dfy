/** project/io/tcp_socket_poll_handler.hpp as an object: two queues that its loops change in place. */
module HandlerObjects {
  import opened Wire
  import opened Files
  import opened TcpStreams
  import opened StreamObjects
  import opened Handlers

  class TcpSocketPollHandler {
    const stream: TcpStream
    const readSize: nat
    const writeSize: nat
    var readQueue: seq<Bytes>
    var writeQueue: seq<Entry>
    ghost var offers: seq<Offer>

    ghost function Value(): Handler
      reads this, stream, stream.socket
    {
      Handler(stream.Value(), readQueue, writeQueue, readSize, writeSize, offers)
    }

    ghost function Objects(): set<object> {
      {this, stream, stream.socket}
    }

    constructor (stream: TcpStream, readSize: nat, writeSize: nat)
      ensures this.stream == stream
      ensures Value() == NewHandler(stream.Value(), readSize, writeSize)
    {
      this.stream := stream;
      this.readSize := readSize;
      this.writeSize := writeSize;
      readQueue, writeQueue, offers := [], [], [];
    }

    /** Reads until the stream blocks, ends or throws. */
    method Read(script: seq<Answers>) returns (r: Outcome<bool>)
      modifies this, stream, stream.socket
      ensures (Value(), r) == HandlerRead(old(Value()), script)
    {
      var rest, canRead := script, true;
      while canRead && stream.socket.isOpen
        invariant canRead ==> ReadLoop(Value(), rest) == ReadLoop(old(Value()), script)
        invariant !canRead ==> (Value(), false) == ReadLoop(old(Value()), script)
        decreases |rest|, canRead
      {
        var got := stream.Read(readSize, Next(rest));
        match got {
          case Ok(chunk) =>
            readQueue := readQueue + [chunk];
            rest := Later(rest);
          case Threw =>
            stream.socket.isOpen := false;
            return Threw;
          case _ =>
            canRead := false;
        }
      }
      return Ok(stream.socket.isOpen);
    }

    /** Writes from the front of the queue until it is empty or the stream blocks, ends or throws; then
        flushes the BIO if it wants to. */
    method Write(w: WriteScript) returns (r: Outcome<bool>)
      modifies this, stream, stream.socket
      ensures (Value(), r) == HandlerWrite(old(Value()), w)
    {
      var rest, canWrite := w.calls, true;
      while canWrite && stream.socket.isOpen && writeQueue != []
        invariant canWrite ==> WriteLoop(Value(), rest) == WriteLoop(old(Value()), w.calls)
        invariant !canWrite ==> (Value(), false) == WriteLoop(old(Value()), w.calls)
        decreases |rest|, canWrite
      {
        var wrote := WriteFront(Next(rest));
        match wrote {
          case Ok(_) => rest := Later(rest);
          case Threw => return Threw;
          case _ => canWrite := false;
        }
      }
      r := Flush(w.wantWrite, w.flush);
    }

    /** The body of the write loop: at most a buffer full from the front of the queue. */
    method WriteFront(e: Answers) returns (wrote: Outcome<nat>)
      requires writeQueue != []
      modifies this, stream, stream.socket
      ensures (Value(), wrote) == OfferFront(old(Value()), e)
    {
      var front := writeQueue[0];
      var count := Min(|front.data| - front.offset, writeSize);
      var span := front.data[front.offset..front.offset + count];
      WroteAtMost(stream.Value(), span, e);
      ghost var position := |stream.bio.sent|;
      wrote := stream.Write(span, e);
      offers := offers + [Offer(position, span, wrote.Blocked?)];
      match wrote {
        case Ok(n) => Advance(n);
        case Threw => stream.socket.isOpen := false;
        case _ =>
      }
    }

    /** Moves the front buffer's offset by what was written, and drops the buffer when it is used up. */
    method Advance(n: nat)
      requires writeQueue != [] && writeQueue[0].offset + n <= |writeQueue[0].data|
      modifies this`writeQueue
      ensures writeQueue == Advanced(old(writeQueue), n)
    {
      var front := writeQueue[0];
      var offset := front.offset + n;
      if offset == |front.data| {
        writeQueue := writeQueue[1..];
      } else {
        writeQueue := [Entry(front.data, offset)] + writeQueue[1..];
      }
    }

    /** The end of `write`: some TLS writes may be pending, typically at shutdown. */
    method Flush(wantWrite: bool, e: Answers) returns (r: Outcome<bool>)
      modifies this, stream, stream.socket
      ensures (Value(), r) == Handlers.Flush(old(Value()), wantWrite, e)
    {
      if stream.socket.isOpen && wantWrite {
        var flushed := stream.Write([], e);
        if flushed.Threw? {
          stream.socket.isOpen := false;
          return Threw;
        }
      }
      return Ok(stream.socket.isOpen);
    }

    /** Closes an open socket; a failing ::close throws. */
    method Close(kernel: Kernel) returns (ok: bool)
      modifies stream.socket, kernel
      ensures ok == (!old(stream.socket.isOpen) || stream.socket.fd in old(kernel.open))
      ensures kernel.open == if ok && old(stream.socket.isOpen) then old(kernel.open) - {stream.socket.fd} else old(kernel.open)
      ensures Value() == if ok then CloseHandler(old(Value())) else old(Value())
    {
      ok := true;
      if stream.socket.isOpen {
        ok := stream.socket.Close(kernel);
      }
    }

    method Dequeue() returns (buf: seq<Bytes>)
      modifies this
      ensures buf == old(readQueue[..Min(1, |readQueue|)])
      ensures Value() == Handlers.Dequeue(old(Value()))
    {
      buf := [];
      if readQueue != [] {
        buf := [readQueue[0]];
        readQueue := readQueue[1..];
      }
    }

    method Enqueue(data: Bytes)
      modifies this
      ensures Value() == Handlers.Enqueue(old(Value()), data)
    {
      writeQueue := writeQueue + [Entry(data, 0)];
    }
  }
}
