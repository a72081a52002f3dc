/** project/io/tcp_stream.hpp: the TLS state machine over a non-blocking BIO. */
module TcpStreams {
  import opened Wire

  datatype State = START | HANDSHAKE | DATA | SHUTDOWN | STOP

  /** What the BIO, that is the socket and the OpenSSL session on top of it, has done so far. */
  datatype Bio = Bio(ssl: bool, handshaken: bool, verified: bool, received: seq<Bytes>, sent: Bytes)

  datatype Stream = Stream(bio: Bio, shouldVerify: bool, state: State, isOpen: bool)

  /** The answers of the BIO and of OpenSSL. */
  datatype Step = Done | NotYet | WantIO | Fails
  datatype ReadAnswer = Incoming(data: Bytes) | ReadRetry | ZeroReturn | ReadFault
  datatype WriteAnswer = Takes(count: nat) | WriteRetry | WriteFault

  /** All the answers that one call of `read` or `write` can ask for. */
  datatype Answers = Answers(handshake: Step, verifies: bool, read: ReadAnswer, write: WriteAnswer, shutdown: Step)

  const IDLE := Answers(WantIO, false, ReadRetry, WriteRetry, WantIO)

  /** A value, end of file, would block, or an exception. */
  datatype Outcome<T> = Ok(value: T) | Eof | Blocked | Threw

  /** The three ways a stream is made: plain, TLS server side, TLS client side. */
  function PlainStream(): Stream {
    Stream(Bio(false, false, false, [], []), false, START, true)
  }

  function TlsStream(isClient: bool): Stream {
    Stream(Bio(true, false, false, [], []), isClient, HANDSHAKE, true)
  }

  function Close(s: Stream): Stream {
    s.(isOpen := false)
  }

  function DoHandshake(s: Stream, e: Answers): (Stream, Outcome<bool>) {
    if !s.bio.ssl || s.state != HANDSHAKE then (s, Ok(true))
    else match e.handshake
      case Fails => (s, Threw)
      case WantIO => (s, Ok(false))
      case NotYet => (s, Ok(false))
      case Done =>
        var done := s.(state := DATA, bio := s.bio.(handshaken := true));
        if !s.shouldVerify then (done, Ok(true))
        else if e.verifies then (done.(bio := done.bio.(verified := true)), Ok(true))
        else (done, Threw)
  }

  function HandleShutdown(s: Stream, e: Answers): (Stream, Outcome<bool>) {
    if !s.bio.ssl then (s.(state := STOP), Ok(true))
    else match e.shutdown
      case Fails => (s, Threw)
      case WantIO => (s, Ok(false))
      case NotYet => (s, Ok(false))
      case Done => (s.(state := STOP, isOpen := false), Ok(true))
  }

  /** `do_shutdown`, which the poll handlers never call. */
  function DoShutdown(s: Stream, e: Answers): (Stream, Outcome<bool>) {
    var s1 := if s.state == DATA then s.(state := SHUTDOWN) else s;
    if s1.state == STOP then (s1, Ok(true))
    else if s1.state != SHUTDOWN then (s1, Threw)
    else HandleShutdown(s1, e)
  }

  /** What `read` and `write` return once a shutdown is under way. */
  function ShutdownOutcome<T>(s: Stream, e: Answers): (Stream, Outcome<T>) {
    var (s1, r) := HandleShutdown(s, e);
    (s1, match r case Ok(done) => (if done then Eof else Blocked) case _ => Threw)
  }

  function Read(s: Stream, len: nat, e: Answers): (Stream, Outcome<Bytes>) {
    var (s1, ready) := DoHandshake(s, e);
    if ready.Threw? then (s1, Threw)
    else if ready == Ok(false) then (s1, Blocked)
    else if s1.state == SHUTDOWN then ShutdownOutcome(s1, e)
    else match e.read
      case ReadRetry => (s1, Blocked)
      case ZeroReturn =>
        if s1.bio.ssl then ShutdownOutcome(s1.(state := SHUTDOWN), e) else (Close(s1), Eof)
      case ReadFault => (Close(s1), Eof)
      case Incoming(data) =>
        var chunk := data[..Min(|data|, len)];
        if chunk == [] then (Close(s1), Eof)
        else (s1.(bio := s1.bio.(received := s1.bio.received + [chunk])), Ok(chunk))
  }

  function Write(s: Stream, span: Bytes, e: Answers): (Stream, Outcome<nat>) {
    var (s1, ready) := DoHandshake(s, e);
    if ready.Threw? then (s1, Threw)
    else if ready == Ok(false) then (s1, Blocked)
    else if s1.state == SHUTDOWN then ShutdownOutcome(s1, e)
    else match e.write
      case WriteRetry => (s1, Blocked)
      case WriteFault => (Close(s1), Threw)
      case Takes(count) =>
        var n := Min(count, |span|);
        if n == 0 then (Close(s1), Eof)
        else (s1.(bio := s1.bio.(sent := s1.bio.sent + span[..n])), Ok(n))
  }

  // ------------------------------------------------------------------ invariants

  function Rank(state: State): nat {
    match state
    case START => 0
    case HANDSHAKE => 1
    case DATA => 2
    case SHUTDOWN => 3
    case STOP => 4
  }

  /** Application data may flow: there is no TLS, or the handshake is over and any check has passed. */
  predicate Cleared(s: Stream) {
    s.bio.ssl ==> s.bio.handshaken && (s.shouldVerify ==> s.bio.verified)
  }

  predicate Carried(s: Stream) {
    s.bio.received != [] || s.bio.sent != []
  }

  /** What is true of a stream between two calls of its handler. */
  predicate StreamOk(s: Stream) {
    && (s.state == START <==> !s.bio.ssl)
    && (s.shouldVerify ==> s.bio.ssl)
    && (s.state == STOP ==> !s.isOpen)
    && (s.bio.ssl ==> (s.bio.handshaken <==> s.state != HANDSHAKE))
    && (s.bio.verified ==> s.bio.handshaken)
    && (s.isOpen && s.state != HANDSHAKE ==> Cleared(s))
    && (Carried(s) ==> Cleared(s))
  }

  /** The state only moves forward, and neither the open flag nor the TLS results are ever taken back. */
  predicate Advances(s: Stream, t: Stream) {
    && Rank(s.state) <= Rank(t.state)
    && (s.state == START <==> t.state == START)
    && (t.isOpen ==> s.isOpen)
    && t.bio.ssl == s.bio.ssl && t.shouldVerify == s.shouldVerify
    && (s.bio.handshaken ==> t.bio.handshaken)
    && (s.bio.verified ==> t.bio.verified)
    && s.bio.received <= t.bio.received
    && s.bio.sent <= t.bio.sent
  }

  /** A stream whose peer failed the check: it has left HANDSHAKE and is not verified. Nothing here says that it
      is closed; that is what its handler sees to. */
  predicate Rejected(s: Stream) {
    s.shouldVerify && s.bio.ssl && s.state != HANDSHAKE && !s.bio.verified
  }

  lemma HandshakeKeepsOk(s: Stream, e: Answers)
    requires StreamOk(s) && s.isOpen
    ensures var (t, r) := DoHandshake(s, e);
      && StreamOk(if r.Threw? then Close(t) else t) && Advances(s, t)
      && t.bio.received == s.bio.received && t.bio.sent == s.bio.sent
      && t.isOpen && (r.Threw? || r.Ok?)
      && (r == Ok(true) ==> Cleared(t) && t.state != HANDSHAKE)
  {
  }

  lemma ShutdownKeepsOk(s: Stream, e: Answers)
    requires StreamOk(s) && s.isOpen && s.bio.ssl && s.state == SHUTDOWN
    ensures var (t, r) := HandleShutdown(s, e);
      && StreamOk(if r.Threw? then Close(t) else t) && Advances(s, t)
      && t.bio == s.bio && (r.Threw? || r.Ok?)
  {
  }

  lemma AdvancesTransitive(s: Stream, t: Stream, u: Stream)
    requires Advances(s, t) && Advances(t, u)
    ensures Advances(s, u)
  {
  }

  lemma ReadKeepsOk(s: Stream, len: nat, e: Answers)
    requires StreamOk(s) && s.isOpen
    ensures var (t, r) := Read(s, len, e);
      && StreamOk(if r.Threw? then Close(t) else t) && Advances(s, t)
      && t.bio.sent == s.bio.sent
      && t.bio.received == s.bio.received + (if r.Ok? then [r.value] else [])
      && (r.Ok? ==> 1 <= |r.value| <= len && t.isOpen && t.state in {START, DATA} && Cleared(t))
  {
    HandshakeKeepsOk(s, e);
    var (s1, ready) := DoHandshake(s, e);
    var (t, r) := Read(s, len, e);
    if ready == Ok(true) {
      var s2 := if s1.state != SHUTDOWN && e.read.ZeroReturn? && s1.bio.ssl then s1.(state := SHUTDOWN) else s1;
      assert Advances(s, s2) && StreamOk(s2);
      if s2.state == SHUTDOWN {
        ShutdownKeepsOk(s2, e);
      }
      assert Advances(s2, t);
      AdvancesTransitive(s, s2, t);
    }
  }

  lemma WriteKeepsOk(s: Stream, span: Bytes, e: Answers)
    requires StreamOk(s) && s.isOpen
    ensures var (t, r) := Write(s, span, e);
      && StreamOk(if r.Threw? then Close(t) else t) && Advances(s, t)
      && t.bio.received == s.bio.received
      && (if r.Ok? then 1 <= r.value <= |span| && t.bio.sent == s.bio.sent + span[..r.value] else t.bio.sent == s.bio.sent)
      && (r.Ok? ==> t.isOpen && t.state in {START, DATA} && Cleared(t))
  {
    HandshakeKeepsOk(s, e);
    var (s1, ready) := DoHandshake(s, e);
    var (t, r) := Write(s, span, e);
    if ready == Ok(true) {
      if s1.state == SHUTDOWN {
        ShutdownKeepsOk(s1, e);
      }
      assert Advances(s1, t);
      AdvancesTransitive(s, s1, t);
    }
  }

  /** End of file means that the socket is closed; data and "would block" mean that it is not. */
  lemma EofMeansClosed(s: Stream, len: nat, span: Bytes, e: Answers)
    requires StreamOk(s) && s.isOpen
    ensures var (t, r) := Read(s, len, e); (r.Eof? ==> !t.isOpen) && (r.Ok? || r.Blocked? ==> t.isOpen)
    ensures var (t, r) := Write(s, span, e); (r.Eof? ==> !t.isOpen) && (r.Ok? || r.Blocked? ==> t.isOpen)
  {
  }

  /** `do_shutdown` keeps the state machine too; on a plain stream, and before the handshake, it throws. */
  lemma DoShutdownKeepsOk(s: Stream, e: Answers)
    requires StreamOk(s) && s.isOpen
    ensures var (t, r) := DoShutdown(s, e);
      && StreamOk(if r.Threw? then Close(t) else t) && Advances(s, t)
      && (s.state in {START, HANDSHAKE} ==> r.Threw? && t == s)
      && (r == Ok(true) ==> t.state == STOP && !t.isOpen)
  {
  }

  // ------------------------------------------------------------------ which answer has which outcome

  /** There is no handshake to wait for in this call. */
  predicate Ready(s: Stream, e: Answers) {
    s.state == HANDSHAKE ==> e.handshake.Done? && (s.shouldVerify ==> e.verifies)
  }

  predicate HandshakeWaits(s: Stream, e: Answers) {
    s.state == HANDSHAKE && e.handshake in {NotYet, WantIO}
  }

  predicate HandshakeFails(s: Stream, e: Answers) {
    s.state == HANDSHAKE && (e.handshake.Fails? || (e.handshake.Done? && s.shouldVerify && !e.verifies))
  }

  /** A read goes on with the shutdown: it was under way, or the peer has ended the session. */
  predicate Ending(s: Stream, e: Answers) {
    s.state == SHUTDOWN || (s.bio.ssl && e.read.ZeroReturn?)
  }

  /** What a call leaves when it waits: of a handshake that it has finished, the result, and else nothing new. */
  function Shaken(s: Stream, e: Answers): Stream {
    if s.state == HANDSHAKE && e.handshake.Done? then
      s.(state := DATA, bio := s.bio.(handshaken := true, verified := s.bio.verified || (s.shouldVerify && e.verifies)))
    else s
  }

  /** When a read throws, waits, gives data or closes the socket, and in which state it leaves the stream. */
  lemma ReadExact(s: Stream, len: nat, e: Answers)
    requires StreamOk(s) && s.isOpen
    ensures var (t, r) := Read(s, len, e);
      && (r.Threw? <==> HandshakeFails(s, e) || (Ready(s, e) && Ending(s, e) && e.shutdown.Fails?))
      && (r.Blocked? <==>
            || HandshakeWaits(s, e)
            || (Ready(s, e) && if Ending(s, e) then e.shutdown in {NotYet, WantIO} else e.read.ReadRetry?))
      && (r.Ok? <==> Ready(s, e) && !Ending(s, e) && e.read.Incoming? && e.read.data != [] && len > 0)
      && (r.Ok? ==> r.value == e.read.data[..Min(|e.read.data|, len)])
      && (!t.isOpen <==>
            Ready(s, e) && if Ending(s, e) then e.shutdown.Done? else !r.Ok? && !e.read.ReadRetry?)
    ensures var (t, r) := Read(s, len, e);
      && (HandshakeWaits(s, e) ==> t == s)
      && (HandshakeFails(s, e) ==> t == Shaken(s, e))
      && (Ready(s, e) && !Ending(s, e) ==>
            t == Shaken(s, e).(isOpen := t.isOpen, bio := Shaken(s, e).bio.(received := t.bio.received)))
      && (Ready(s, e) && Ending(s, e) ==>
            t == Shaken(s, e).(isOpen := t.isOpen, state := if e.shutdown.Done? then STOP else SHUTDOWN))
  {
  }

  /** And a write. */
  lemma WriteExact(s: Stream, span: Bytes, e: Answers)
    requires StreamOk(s) && s.isOpen
    ensures var (t, r) := Write(s, span, e); var ending := s.state == SHUTDOWN;
      && (r.Threw? <==>
            || HandshakeFails(s, e)
            || (Ready(s, e) && if ending then e.shutdown.Fails? else e.write.WriteFault?))
      && (r.Blocked? <==>
            || HandshakeWaits(s, e)
            || (Ready(s, e) && if ending then e.shutdown in {NotYet, WantIO} else e.write.WriteRetry?))
      && (r.Ok? <==> Ready(s, e) && !ending && e.write.Takes? && e.write.count > 0 && span != [])
      && (r.Ok? ==> r.value == Min(e.write.count, |span|))
      && (!t.isOpen <==>
            Ready(s, e) && if ending then e.shutdown.Done? else !r.Ok? && !e.write.WriteRetry?)
    ensures var (t, r) := Write(s, span, e); var ending := s.state == SHUTDOWN;
      && (HandshakeWaits(s, e) ==> t == s)
      && (HandshakeFails(s, e) ==> t == Shaken(s, e))
      && (Ready(s, e) && !ending ==>
            t == Shaken(s, e).(isOpen := t.isOpen, bio := Shaken(s, e).bio.(sent := t.bio.sent)))
      && (Ready(s, e) && ending ==> t == s.(isOpen := t.isOpen, state := if e.shutdown.Done? then STOP else SHUTDOWN))
  {
  }

  /** In data transfer nothing but an answer of the socket counts: one that would block changes nothing at all. */
  lemma WouldBlock(s: Stream, len: nat, span: Bytes, e: Answers)
    requires StreamOk(s) && s.isOpen && s.state in {START, DATA}
    ensures e.read.ReadRetry? ==> Read(s, len, e) == (s, Blocked)
    ensures e.write.WriteRetry? ==> Write(s, span, e) == (s, Blocked)
  {
    ReadExact(s, len, e);
    WriteExact(s, span, e);
  }

  /** `do_shutdown` on an open stream, by state and answer. */
  lemma DoShutdownExact(s: Stream, e: Answers)
    requires StreamOk(s) && s.isOpen
    ensures var (t, r) := DoShutdown(s, e); var may := s.state in {DATA, SHUTDOWN};
      && (r.Threw? <==> !may || e.shutdown.Fails?)
      && (r == Ok(true) <==> may && e.shutdown.Done?)
      && (r == Ok(false) <==> may && e.shutdown in {NotYet, WantIO})
      && t == s.(isOpen := r != Ok(true), state := if !may then s.state else if r == Ok(true) then STOP else SHUTDOWN)
  {
  }

  /** The peer finishes its handshake in this call, and fails the check. */
  predicate FailsCheck(s: Stream, e: Answers) {
    s.bio.ssl && s.state == HANDSHAKE && e.handshake.Done? && s.shouldVerify && !e.verifies
  }

  /** Exactly when a stream alone keeps the gate, whatever it is asked: unless the peer fails the check in that
      call. Then an open stream that has left HANDSHAKE is left behind. */
  lemma GateExact(s: Stream, len: nat, span: Bytes, e: Answers)
    requires StreamOk(s) && s.isOpen
    ensures StreamOk(Read(s, len, e).0) <==> !FailsCheck(s, e)
    ensures StreamOk(Write(s, span, e).0) <==> !FailsCheck(s, e)
    ensures FailsCheck(s, e) ==>
      && Read(s, len, e).1.Threw? && Read(s, len, e).0.isOpen && Rejected(Read(s, len, e).0)
      && Write(s, span, e).1.Threw? && Write(s, span, e).0.isOpen && Rejected(Write(s, span, e).0)
  {
    HandshakeKeepsOk(s, e);
    ReadKeepsOk(s, len, e);
    WriteKeepsOk(s, span, e);
  }

  /** The stream alone does not guard the gate: when the check fails its state is DATA and its socket is
      open, so that a second call would return data. The handler must close the socket in between. */
  lemma GateNeedsHandler()
    ensures var s := TlsStream(true);
      var failed := Answers(Done, false, ReadRetry, WriteRetry, WantIO);
      var data := Answers(WantIO, false, Incoming("x"), WriteRetry, WantIO);
      var (t, r) := Read(s, 1, failed);
      r.Threw? && t.isOpen && !Cleared(t) && Read(t, 1, data).1 == Ok("x")
  {
    assert "x"[..1] == "x";
  }
}
