/** What happens when the kernel may give out a descriptor below the listener's: the order of the scan no
    longer protects the new connection. */
module LowDescriptor {
  import opened Wire
  import opened TcpStreams
  import opened Handlers
  import opened Pollers
  import opened Apps
  import opened Callbacks
  import opened Ownership
  import opened ServerTheorems

  const LISTENER := 5
  const CLIENT := 3

  const FRESH := Conn(NewHandler(PlainStream(), BUFSIZ, BUFSIZ))

  /** The echo server with one connection, on a descriptor below the listener's. */
  const BEFORE := Poller({LISTENER, CLIENT}, map[LISTENER := Listener(true, false), CLIENT := FRESH], Echo, [Opened(CLIENT)], true)

  const READABLE := Flags(true, false, false)
  const KILL := Answers(WantIO, false, Incoming(KILLME), WriteRetry, WantIO)

  /** The client sends "KILLME" while another one is waiting to be accepted. */
  const PASS := Pass(false, map[
    CLIENT := FdScript(NOTHING, READABLE, AcceptFails, [KILL], WriteScript([], false, IDLE)),
    LISTENER := FdScript(NOTHING, READABLE, Accepts(CLIENT), [], WriteScript([], false, IDLE))])

  /** The connection reads "KILLME", and the callback closes its descriptor in the kernel. */
  lemma Killed()
    ensures var h := FRESH.handler;
      HandleRead(BEFORE, CLIENT, [KILL]) == (BEFORE.(
        kernel := {LISTENER},
        handlers := BEFORE.handlers[CLIENT := Conn(CloseHandler(h.(stream := h.stream.(bio := h.stream.bio.(received := [KILLME])))))],
        log := [Opened(CLIENT), Delivery(CLIENT, [KILLME])]), true)
  {
    var h := FRESH.handler;
    var s := h.stream.(bio := h.stream.bio.(received := [KILLME]));
    assert Min(|KILLME|, BUFSIZ) == 6 && KILLME[..6] == KILLME && [] + [KILLME] == [KILLME];
    assert Read(h.stream, BUFSIZ, KILL) == (s, Ok(KILLME));
    var h1 := h.(stream := s, readQueue := [KILLME]);
    assert ReadLoop(h1, []) == (h1, false);
    assert Later([KILL]) == [];
    assert ReadLoop(h, [KILL]) == ReadLoop(h1, []);
    var q := SetConn(BEFORE, CLIENT, h1.(readQueue := []));
    var q1 := q.(log := [Opened(CLIENT), Delivery(CLIENT, [KILLME])]);
    assert q1 == q.(log := q.log + [Delivery(CLIENT, [KILLME])]);
    assert OnRead(q, CLIENT, [KILLME]) == EchoEach(q1, CLIENT, [KILLME]);
    EchoEachEffect(q1, CLIENT, [KILLME]);
    assert {LISTENER, CLIENT} - {CLIENT} == {LISTENER};
    assert [KILLME][1..] == [];
    var closed := CloseHandler(h.(stream := s));
    assert q1.handlers[CLIENT := Conn(closed)] == BEFORE.handlers[CLIENT := Conn(closed)];
    assert EchoHandler(q1.handlers[CLIENT].handler, [KILLME]) == CloseHandler(q1.handlers[CLIENT].handler);
  }

  lemma Keys()
    ensures KeysInOrder(BEFORE) == [CLIENT, LISTENER]
  {
    AscendingUnique(KeysInOrder(BEFORE), [CLIENT, LISTENER]);
  }

  const CLIENT_READY := PollFd(CLIENT, Flags(true, false, true), READABLE)
  const LISTENER_READY := PollFd(LISTENER, Flags(true, false, true), READABLE)

  lemma Polled()
    ensures PollKernel(MakePollFds(BEFORE, [CLIENT, LISTENER], PASS), PASS) == [CLIENT_READY, LISTENER_READY]
    ensures CountActive([CLIENT_READY, LISTENER_READY]) == 2
  {
    var wants := Flags(true, false, true);
    var client, listener := PollFd(CLIENT, wants, NOTHING), PollFd(LISTENER, wants, NOTHING);
    assert [CLIENT, LISTENER][1..] == [LISTENER] && [LISTENER][1..] == [];
    assert MakePollFds(BEFORE, [LISTENER], PASS) == [listener];
    assert MakePollFds(BEFORE, [CLIENT, LISTENER], PASS) == [client, listener];
    assert [client, listener][1..] == [listener] && [listener][1..] == [];
    assert PollKernel([listener], PASS) == [LISTENER_READY];
    assert [CLIENT_READY, LISTENER_READY][1..] == [LISTENER_READY] && [LISTENER_READY][1..] == [];
    assert CountActive([LISTENER_READY]) == 1;
  }

  /** The connection goes first, so that its descriptor is free when the listener accepts. */
  lemma Scanned()
    ensures var q := Scan(BEFORE, [CLIENT_READY, LISTENER_READY], 2, PASS);
      && q.running && CLIENT in q.handlers && CLIENT !in q.kernel
      && forall fd :: fd in q.handlers ==> IsOpen(q.handlers[fd])
  {
    Killed();
    var p1 := HandleRead(BEFORE, CLIENT, [KILL]).0;
    assert HandleEvent(BEFORE, CLIENT_READY, ScriptOf(PASS, CLIENT)) == p1;
    assert {LISTENER} + {CLIENT} == {LISTENER, CLIENT};
    var p2 := AddHandler(p1.(kernel := {LISTENER, CLIENT}), CLIENT, FRESH);
    assert HandleEvent(p1, LISTENER_READY, ScriptOf(PASS, LISTENER)) == p2;
    assert [CLIENT_READY, LISTENER_READY][1..] == [LISTENER_READY];
    assert Scan(p1, [LISTENER_READY], 1, PASS) == p2;
  }

  /** The new handler takes the key of the old one, whose destructor closes the descriptor under it. */
  lemma DescriptorLost()
    ensures var q := RunPass(BEFORE, PASS); q.running && Lost(q, CLIENT)
  {
    Keys();
    Polled();
    Scanned();
    var q := Scan(BEFORE, [CLIENT_READY, LISTENER_READY], 2, PASS);
    NoneClosed(q, KeysInOrder(q));
  }

  /** The pass before it: the first client is given the low descriptor. */
  const FIRST := Pass(false, map[LISTENER := FdScript(NOTHING, READABLE, Accepts(CLIENT), [], WriteScript([], false, IDLE))])

  lemma Reached()
    ensures RunPass(Start(Echo, LISTENER, false, {}), FIRST) == BEFORE
  {
    var p := Start(Echo, LISTENER, false, {});
    AscendingUnique(KeysInOrder(p), [LISTENER]);
    assert [LISTENER][1..] == [];
    var made := PollFd(LISTENER, Flags(true, false, true), NOTHING);
    assert MakePollFds(p, [LISTENER], FIRST) == [made];
    assert [made][1..] == [] && PassFds(p, FIRST) == [LISTENER_READY];
    assert [LISTENER_READY][1..] == [] && CountActive([LISTENER_READY]) == 1;
    assert HandleEvent(p, LISTENER_READY, ScriptOf(FIRST, LISTENER)) == BEFORE;
    NoneClosed(BEFORE, KeysInOrder(BEFORE));
  }

  lemma TwoPasses(p: Poller, a: Pass, b: Pass)
    requires p.running && RunPass(p, a).running
    ensures Run(p, [a, b]) == RunPass(RunPass(p, a), b)
  {
    RunLast(p, [], a);
    RunLast(p, [a], b);
    assert [] + [a] == [a] && [a] + [b] == [a, b];
  }

  /** From its start the echo server comes to this in two passes. */
  lemma RunLoses()
    ensures var q := Run(Start(Echo, LISTENER, false, {}), [FIRST, PASS]); q.running && Lost(q, CLIENT)
  {
    Reached();
    DescriptorLost();
    TwoPasses(Start(Echo, LISTENER, false, {}), FIRST, PASS);
  }
}
