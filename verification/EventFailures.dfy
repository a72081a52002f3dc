/** Runs of the event loop that an exception leaves although nothing is wrong with the descriptors. */
module EventFailures {
  import opened EventLoops
  import opened EventMasks
  import opened EventRuns

  /** At the first wait epoll has every descriptor, with what is pending for it. */
  lemma FirstWait(start: seq<Registration>, open: set<int>, fd: int)
    requires var fds := Begin(start, open).loop.fds; fd in fds && forall x :: x in fds ==> x in open
    ensures var m := Begin(start, open); var (n, ok) := Monitor(m);
      && HeadOk(m) && ok && n.loop == m.loop
      && fd in n.epoll && (n.epoll[fd].reading <==> Pending(m.loop.fds, fd, READ) != [])
  {
    var m := Begin(start, open);
    CanMonitorExact(m);
    WatchedExact(m, fd);
    MasksAtEveryWait(start, open, [], (c, n) => Reaction([], {}, {}), fd);
  }

  /** An event that epoll can report is reported. */
  lemma Answered(epoll: Masks, fd: int)
    requires fd in epoll && epoll[fd].reading
    ensures var wait := Ready([Event(fd, true, false)]); Answer(epoll, wait) == wait
  {
    var e := Event(fd, true, false);
    assert [e][1..] == [] && EpollWait(epoll, [e]) == [e] + EpollWait(epoll - {fd}, []);
  }

  lemma OneRegistered(l: Loop, r: Registration)
    ensures RegisterAll(l, [r]) == Register(l, r)
  {
    assert [r][1..] == [] && RegisterAll(Register(l, r), []) == Register(l, r);
  }

  lemma TwoRegistered(a: Registration, b: Registration)
    ensures RegisterAll(EMPTY, [a]) == Register(EMPTY, a)
    ensures RegisterAll(EMPTY, [a, b]) == Register(Register(EMPTY, a), b)
  {
    OneRegistered(EMPTY, a);
    OneRegistered(Register(EMPTY, a), b);
    assert [a, b][1..] == [b];
  }

  // ------------------------------------------------------------------ a callback that closes its descriptor

  const READABLE := OnFd(7, READ, 0)

  /** What a callback does that has come to the end of a file: it closes the descriptor, and registers nothing. */
  const CLOSING: Effect := (c, n) => Reaction([], {7}, {})

  lemma OneCall(l: Loop, r: Registration, effect: Effect)
    ensures var reaction := effect(r.callback, |l.called|);
      && CallAll(l, [r], effect) == RegisterAll(l.(called := l.called + [r]), reaction.registers)
      && Closed(l, [r], effect) == reaction.closes
  {
    assert [r][1..] == [];
  }

  /** One event that takes one callback, which registers nothing. */
  lemma OneEvent(l: Loop, fd: int, callback: Callback, effect: Effect)
    requires fd in l.fds && l.fds[fd] == map[READ := [callback]]
    requires effect(callback, |l.called|).registers == []
    ensures var e := Event(fd, true, false);
      && DispatchAll(l, [e], effect).fds == l.fds - {fd}
      && DispatchAllCloses(l, [e], effect) == effect(callback, |l.called|).closes
  {
    var e := Event(fd, true, false);
    var r := OnFd(fd, READ, callback);
    assert [callback][1..] == [] && Tagged(fd, READ, [callback]) == [r] + [];
    assert Taken(l.fds, e) == [r];
    assert Without(l.fds, fd, READ)[fd] == map[] && Left(l.fds, e) == l.fds - {fd};
    OneCall(l.(fds := Left(l.fds, e)), r, effect);
    assert [e][1..] == [];
  }

  /** The kernel has dropped the descriptor, so that prune_events asks for a deletion that epoll refuses. */
  lemma ClosingThrows()
    ensures Run(Begin([READABLE], {7}), [Ready([Event(7, true, false)])], CLOSING).1 == Thrown
  {
    var start, wait := [READABLE], Ready([Event(7, true, false)]);
    var m := Begin(start, {7});
    TwoRegistered(READABLE, READABLE);
    assert [] + [0] == [0];
    assert m.loop.fds == map[7 := map[READ := [0]]];
    FirstWait(start, {7}, 7);
    Answered(Monitor(m).0.epoll, 7);
    OneEvent(m.loop, 7, 0, CLOSING);
    assert Known(m, 7) && 7 in DispatchAllCloses(m.loop, wait.events, CLOSING);
    TurnExact(m, wait, CLOSING);
  }

  // ------------------------------------------------------------------ two descriptors that drain one after the other

  const SILENT: Effect := (c, n) => Reaction([], {}, {})
  const TWO := [OnFd(3, READ, 0), OnFd(4, READ, 1)]
  const FIRST := Event(3, true, false)
  const SECOND := Event(4, true, false)

  lemma TwoPending()
    ensures Begin(TWO, {3, 4}).loop.fds == map[3 := map[READ := [0]], 4 := map[READ := [1]]]
  {
    TwoRegistered(TWO[0], TWO[1]);
    assert [] + [0] == [0] && [] + [1] == [1];
  }

  lemma FirstAnswer()
    ensures var m := Begin(TWO, {3, 4});
      && HeadOk(m) && Monitor(m).1 && AnswerTo(m, Ready([FIRST])) == Ready([FIRST])
      && 4 in Monitor(m).0.epoll
  {
    TwoPending();
    FirstWait(TWO, {3, 4}, 3);
    FirstWait(TWO, {3, 4}, 4);
    Answered(Monitor(Begin(TWO, {3, 4})).0.epoll, 3);
  }

  lemma FirstDispatch()
    ensures DispatchAll(Begin(TWO, {3, 4}).loop, [FIRST], SILENT).fds == map[4 := map[READ := [1]]]
    ensures DispatchAllCloses(Begin(TWO, {3, 4}).loop, [FIRST], SILENT) == {}
  {
    TwoPending();
    OneEvent(Begin(TWO, {3, 4}).loop, 3, 0, SILENT);
  }

  lemma FirstSurvives()
    ensures Survives(Begin(TWO, {3, 4}), Ready([FIRST]), SILENT)
  {
    var m := Begin(TWO, {3, 4});
    FirstAnswer();
    FirstDispatch();
    CanMonitorExact(m);
    assert forall fd :: !Unwatched(m, fd);
    assert CanClean(m, [FIRST], SILENT);
  }

  /** The first turn gets through, and the first descriptor is deleted from epoll. */
  lemma FirstTurn()
    ensures var m := Begin(TWO, {3, 4}); var (n, ok) := Turn(m, Ready([FIRST]), SILENT);
      && ok && HeadOk(n) && Unwatched(n, 3) && !Unwatched(n, 4) && n.loop.fds == map[4 := map[READ := [1]]]
  {
    var m, wait := Begin(TWO, {3, 4}), Ready([FIRST]);
    TwoPending();
    FirstAnswer();
    FirstDispatch();
    FirstSurvives();
    TurnExact(m, wait, SILENT);
    TurnHead(m, wait, SILENT);
    TurnWatches(m, wait, SILENT, 3);
    TurnWatches(m, wait, SILENT, 4);
    assert Turn(m, wait, SILENT).0.loop == DispatchAll(m.loop, [FIRST], SILENT);
  }

  lemma FirstRun()
    ensures var m := Begin(TWO, {3, 4}); Run(m, [Ready([FIRST])], SILENT) == (Turn(m, Ready([FIRST]), SILENT).0, Waiting)
  {
    TwoPending();
    FirstTurn();
    assert [Ready([FIRST])][1..] == [];
  }

  /** At the second one prune_events asks for that once more. */
  lemma SecondTurnThrows()
    ensures var n := Turn(Begin(TWO, {3, 4}), Ready([FIRST]), SILENT).0; !Turn(n, Ready([SECOND]), SILENT).1
  {
    FirstTurn();
    FirstRun();
    var n := Turn(Begin(TWO, {3, 4}), Ready([FIRST]), SILENT).0;
    if Monitor(n).1 {
      MonitorKeeps(n, 4);
      MasksAtEveryWait(TWO, {3, 4}, [Ready([FIRST])], SILENT, 4);
      Answered(Monitor(n).0.epoll, 4);
      OneEvent(n.loop, 4, 1, SILENT);
      TurnExact(n, Ready([SECOND]), SILENT);
    }
  }

  lemma SecondPruneThrows()
    ensures Run(Begin(TWO, {3, 4}), [Ready([FIRST]), Ready([SECOND])], SILENT).1 == Thrown
  {
    TwoPending();
    FirstTurn();
    SecondTurnThrows();
    assert [Ready([FIRST]), Ready([SECOND])][1..] == [Ready([SECOND])];
  }
}
