/** project/io/tcp_stream.hpp as an object whose methods change its state and its socket's open flag. */
module StreamObjects {
  import opened Wire
  import opened Files
  import Spec = TcpStreams
  import opened TcpStreams

  class TcpStream {
    const socket: File
    const shouldVerify: bool
    var state: State
    var bio: Bio

    ghost function Value(): Stream
      reads this, socket
    {
      Stream(bio, shouldVerify, state, socket.isOpen)
    }

    constructor Plain(socket: File)
      requires socket.isOpen
      ensures this.socket == socket && Value() == PlainStream()
    {
      this.socket := socket;
      shouldVerify := false;
      state := START;
      bio := Bio(false, false, false, [], []);
    }

    constructor Tls(socket: File, isClient: bool)
      requires socket.isOpen
      ensures this.socket == socket && Value() == TlsStream(isClient)
    {
      this.socket := socket;
      shouldVerify := isClient;
      state := HANDSHAKE;
      bio := Bio(true, false, false, [], []);
    }

    method DoHandshake(e: Answers) returns (r: Outcome<bool>)
      modifies this
      ensures (Value(), r) == Spec.DoHandshake(old(Value()), e)
    {
      if !bio.ssl || state != HANDSHAKE {
        return Ok(true);
      }
      match e.handshake {
        case Fails => return Threw;
        case WantIO => return Ok(false);
        case NotYet => return Ok(false);
        case Done =>
      }
      bio := bio.(handshaken := true);
      state := DATA;
      if shouldVerify {
        if !e.verifies {
          return Threw;
        }
        bio := bio.(verified := true);
      }
      return Ok(true);
    }

    method HandleShutdown(e: Answers) returns (r: Outcome<bool>)
      modifies this, socket
      ensures (Value(), r) == Spec.HandleShutdown(old(Value()), e)
    {
      if !bio.ssl {
        state := STOP;
        return Ok(true);
      }
      match e.shutdown {
        case Fails => return Threw;
        case WantIO => return Ok(false);
        case NotYet => return Ok(false);
        case Done =>
      }
      socket.isOpen := false;
      state := STOP;
      return Ok(true);
    }

    method DoShutdown(e: Answers) returns (r: Outcome<bool>)
      modifies this, socket
      ensures (Value(), r) == Spec.DoShutdown(old(Value()), e)
    {
      if state == DATA {
        state := SHUTDOWN;
      }
      if state == STOP {
        return Ok(true);
      }
      if state != SHUTDOWN {
        return Threw;
      }
      r := HandleShutdown(e);
    }

    method Read(len: nat, e: Answers) returns (r: Outcome<Bytes>)
      modifies this, socket
      ensures (Value(), r) == Spec.Read(old(Value()), len, e)
    {
      if state == HANDSHAKE {
        var ready := DoHandshake(e);
        if ready.Threw? {
          return Threw;
        }
        if ready == Ok(false) {
          return Blocked;
        }
      }
      if state == SHUTDOWN {
        var done := HandleShutdown(e);
        return if done.Threw? then Threw else if done == Ok(true) then Eof else Blocked;
      }
      match e.read {
        case ReadRetry =>
          return Blocked;
        case ZeroReturn =>
          if bio.ssl {
            state := SHUTDOWN;
            var done := HandleShutdown(e);
            return if done.Threw? then Threw else if done == Ok(true) then Eof else Blocked;
          }
          socket.isOpen := false;
          return Eof;
        case ReadFault =>
          socket.isOpen := false;
          return Eof;
        case Incoming(data) =>
          var chunk := data[..Min(|data|, len)];
          if chunk == [] {
            socket.isOpen := false;
            return Eof;
          }
          bio := bio.(received := bio.received + [chunk]);
          return Ok(chunk);
      }
    }

    method Write(span: Bytes, e: Answers) returns (r: Outcome<nat>)
      modifies this, socket
      ensures (Value(), r) == Spec.Write(old(Value()), span, e)
    {
      if state == HANDSHAKE {
        var ready := DoHandshake(e);
        if ready.Threw? {
          return Threw;
        }
        if ready == Ok(false) {
          return Blocked;
        }
      }
      if state == SHUTDOWN {
        var done := HandleShutdown(e);
        return if done.Threw? then Threw else if done == Ok(true) then Eof else Blocked;
      }
      match e.write {
        case WriteRetry =>
          return Blocked;
        case WriteFault =>
          socket.isOpen := false;
          return Threw;
        case Takes(count) =>
          var n := Min(count, |span|);
          if n == 0 {
            socket.isOpen := false;
            return Eof;
          }
          bio := bio.(sent := bio.sent + span[..n]);
          return Ok(n);
      }
    }
  }
}
