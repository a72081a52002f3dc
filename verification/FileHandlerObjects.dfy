/** project/io/file_stream.hpp and file_poll_handler.hpp: the queues of the socket handler once more, over a
    file. They behave as the socket handler does over a plain stream, but that a faulty read throws. */
module FileHandlerObjects {
  import opened Wire
  import opened Files
  import Plain = TcpStreams
  import opened TcpStreams
  import opened Handlers

  /** The answers of ::read and ::write; a count of zero is the end of the file. */
  datatype ReadCall = Got(data: Bytes) | ReadAgain | ReadError
  datatype WriteCall = Took(count: nat) | WriteAgain | WriteError

  /** The answers that the BIO of a plain stream gives in the same place. */
  function ForRead(call: ReadCall): Answers {
    IDLE.(read := match call
      case Got(data) => Incoming(data)
      case ReadAgain => ReadRetry
      case ReadError => ReadFault)
  }

  function ForWrite(call: WriteCall): Answers {
    IDLE.(write := match call
      case Took(count) => Takes(count)
      case WriteAgain => WriteRetry
      case WriteError => WriteFault)
  }

  function ForReads(calls: seq<ReadCall>): seq<Answers> {
    if calls == [] then [] else [ForRead(calls[0])] + ForReads(calls[1..])
  }

  function ForWrites(calls: seq<WriteCall>): seq<Answers> {
    if calls == [] then [] else [ForWrite(calls[0])] + ForWrites(calls[1..])
  }

  /** The write of a file handler has no flush. */
  function ForWriteLoop(calls: seq<WriteCall>): WriteScript {
    WriteScript(ForWrites(calls), false, IDLE)
  }

  /** A loop of reads comes to a fault before it comes to an end. */
  predicate Faults(calls: seq<ReadCall>, len: nat) {
    calls != [] && (calls[0].ReadError? || (calls[0].Got? && Min(|calls[0].data|, len) > 0 && Faults(calls[1..], len)))
  }

  /** `read` of a file handler: as over a plain stream, but that it throws on a fault. */
  function FileRead(h: Handler, calls: seq<ReadCall>): (Handler, Outcome<bool>) {
    var (t, r) := HandlerRead(h, ForReads(calls));
    (t, if h.stream.isOpen && Faults(calls, h.readSize) then Threw else r)
  }

  /** `want_read` and `want_write`. */
  predicate WantsRead(h: Handler, oflag: OpenFlag) {
    h.stream.isOpen && oflag in {READ_ONLY, READ_WRITE}
  }

  predicate WantsWrite(h: Handler, oflag: OpenFlag) {
    h.stream.isOpen && oflag in {WRITE_ONLY, READ_WRITE} && h.writeQueue != []
  }

  class FileStream {
    const file: File
    ghost var received: seq<Bytes>
    ghost var sent: Bytes

    ghost function Value(): Stream
      reads this, file
    {
      Stream(Bio(false, false, false, received, sent), false, START, file.isOpen)
    }

    constructor (file: File)
      requires file.isOpen
      ensures this.file == file && Value() == PlainStream()
    {
      this.file := file;
      received, sent := [], [];
    }

    method Read(len: nat, call: ReadCall) returns (r: Outcome<Bytes>)
      modifies this, file
      ensures (Value(), if call.ReadError? then Eof else r) == Plain.Read(old(Value()), len, ForRead(call))
      ensures r.Threw? <==> call.ReadError?
    {
      match call {
        case ReadError =>
          file.isOpen := false;
          return Threw;
        case ReadAgain =>
          return Blocked;
        case Got(data) =>
          var buf := data[..Min(|data|, len)];
          if buf == [] {
            file.isOpen := false;
            return Eof;
          }
          received := received + [buf];
          return Ok(buf);
      }
    }

    method Write(span: Bytes, call: WriteCall) returns (r: Outcome<nat>)
      modifies this, file
      ensures (Value(), r) == Plain.Write(old(Value()), span, ForWrite(call))
    {
      match call {
        case WriteError =>
          file.isOpen := false;
          return Threw;
        case WriteAgain =>
          return Blocked;
        case Took(count) =>
          var n := Min(count, |span|);
          if n == 0 {
            file.isOpen := false;
            return Eof;
          }
          sent := sent + span[..n];
          return Ok(n);
      }
    }
  }

  class FilePollHandler {
    const stream: FileStream
    const readSize: nat
    const writeSize: nat
    var readQueue: seq<Bytes>
    var writeQueue: seq<Entry>
    ghost var offers: seq<Offer>

    ghost function Value(): Handler
      reads this, stream, stream.file
    {
      Handler(stream.Value(), readQueue, writeQueue, readSize, writeSize, offers)
    }

    constructor (stream: FileStream, readSize: nat, writeSize: nat)
      ensures this.stream == stream && Value() == NewHandler(stream.Value(), readSize, writeSize)
    {
      this.stream := stream;
      this.readSize := readSize;
      this.writeSize := writeSize;
      readQueue, writeQueue, offers := [], [], [];
    }

    method WantRead() returns (wants: bool)
      ensures wants == WantsRead(Value(), stream.file.oflag) && Value() == old(Value())
    {
      wants := stream.file.CanRead();
    }

    method WantWrite() returns (wants: bool)
      ensures wants == WantsWrite(Value(), stream.file.oflag) && Value() == old(Value())
    {
      wants := stream.file.CanWrite() && writeQueue != [];
    }

    method Read(calls: seq<ReadCall>) returns (r: Outcome<bool>)
      modifies this, stream, stream.file
      ensures (Value(), r) == FileRead(old(Value()), calls)
    {
      ghost var h := Value();
      var rest, canRead := calls, true;
      while canRead && stream.file.isOpen
        invariant canRead ==> ReadLoop(Value(), ForReads(rest)) == ReadLoop(h, ForReads(calls))
        invariant !canRead ==> (Value(), false) == ReadLoop(h, ForReads(calls))
        invariant h.stream.isOpen && Faults(calls, readSize) <==> canRead && stream.file.isOpen && Faults(rest, readSize)
        decreases |rest|, canRead
      {
        var got := stream.Read(readSize, if rest == [] then ReadAgain else rest[0]);
        match got {
          case Ok(chunk) =>
            readQueue := readQueue + [chunk];
            rest := rest[1..];
          case Threw =>
            stream.file.isOpen := false;
            return Threw;
          case _ =>
            canRead := false;
        }
      }
      return Ok(stream.file.isOpen);
    }

    method Write(calls: seq<WriteCall>) returns (r: Outcome<bool>)
      modifies this, stream, stream.file
      ensures (Value(), r) == HandlerWrite(old(Value()), ForWriteLoop(calls))
    {
      var rest, canWrite := calls, true;
      while canWrite && stream.file.isOpen && writeQueue != []
        invariant canWrite ==> WriteLoop(Value(), ForWrites(rest)) == WriteLoop(old(Value()), ForWrites(calls))
        invariant !canWrite ==> (Value(), false) == WriteLoop(old(Value()), ForWrites(calls))
        decreases |rest|, canWrite
      {
        var wrote := WriteFront(if rest == [] then WriteAgain else rest[0]);
        match wrote {
          case Ok(_) => rest := rest[1..];
          case Threw => return Threw;
          case _ => canWrite := false;
        }
      }
      return Ok(stream.file.isOpen);
    }

    /** The body of the write loop. */
    method WriteFront(call: WriteCall) returns (wrote: Outcome<nat>)
      requires writeQueue != []
      modifies this, stream, stream.file
      ensures (Value(), wrote) == OfferFront(old(Value()), ForWrite(call))
    {
      var front := writeQueue[0];
      var count := Min(|front.data| - front.offset, writeSize);
      var span := front.data[front.offset..front.offset + count];
      WroteAtMost(stream.Value(), span, ForWrite(call));
      ghost var position := |stream.sent|;
      wrote := stream.Write(span, call);
      offers := offers + [Offer(position, span, wrote.Blocked?)];
      match wrote {
        case Ok(n) => Advance(n);
        case Threw => stream.file.isOpen := false;
        case _ =>
      }
    }

    method Advance(n: nat)
      requires writeQueue != [] && writeQueue[0].offset + n <= |writeQueue[0].data|
      modifies this`writeQueue
      ensures writeQueue == Advanced(old(writeQueue), n)
    {
      var front := writeQueue[0];
      var offset := front.offset + n;
      if offset == |front.data| {
        writeQueue := writeQueue[1..];
      } else {
        writeQueue := [Entry(front.data, offset)] + writeQueue[1..];
      }
    }

    method Close(kernel: Kernel) returns (ok: bool)
      modifies stream.file, kernel
      ensures ok == (!old(stream.file.isOpen) || stream.file.fd in old(kernel.open))
      ensures kernel.open == if ok && old(stream.file.isOpen) then old(kernel.open) - {stream.file.fd} else old(kernel.open)
      ensures Value() == if ok then CloseHandler(old(Value())) else old(Value())
    {
      ok := true;
      if stream.file.isOpen {
        ok := stream.file.Close(kernel);
      }
    }

    method Dequeue() returns (buf: seq<Bytes>)
      modifies this
      ensures buf == old(readQueue[..Min(1, |readQueue|)])
      ensures Value() == Handlers.Dequeue(old(Value()))
    {
      buf := [];
      if readQueue != [] {
        buf := [readQueue[0]];
        readQueue := readQueue[1..];
      }
    }

    method Enqueue(data: Bytes)
      modifies this
      ensures Value() == Handlers.Enqueue(old(Value()), data)
    {
      writeQueue := writeQueue + [Entry(data, 0)];
    }
  }
}
