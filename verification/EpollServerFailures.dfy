/** Runs of project/server.cpp in which a SIGQUIT does not stop the server. */
module EpollServerFailures {
  import opened EpollServer
  import opened EpollServerTheorems

  function Quit(signal: int): Event {
    Event(signal, true, false, [], [], [], [QuitRequested])
  }

  function Knock(listener: int, accepts: seq<AcceptAnswer>): Event {
    Event(listener, true, false, [], [], accepts, [])
  }

  /** The server after SIGQUIT, with no client. */
  function Quitted(listener: int, signal: int, others: set<int>): Server {
    var s := Start(listener, signal, others);
    s.(open := s.open - {signal}, interest := s.interest - {signal}, quit := true)
  }

  lemma TwoReported(interest: set<int>, a: Event, b: Event)
    requires a.fd in interest && b.fd in interest && a.fd != b.fd
    ensures EpollWait(interest, [a, b]) == [a, b]
  {
    assert [a, b][1..] == [b] && [b][1..] == [];
    assert EpollWait(interest - {a.fd}, [b]) == [b] + EpollWait(interest - {a.fd} - {b.fd}, []);
  }

  lemma QuitBatch(listener: int, signal: int, others: set<int>)
    requires listener != signal
    ensures HandleEvents(Start(listener, signal, others), [Quit(signal), Knock(listener, [])], true)
            == (Quitted(listener, signal, others), true)
  {
    var s, t := Start(listener, signal, others), Quitted(listener, signal, others);
    var events := [Quit(signal), Knock(listener, [])];
    assert events[1..] == [events[1]] && events[1..][1..] == [];
    assert HandleEvent(s, events[0]) == (t, false);
    assert HandleEvent(t, events[1]) == (t, true);
    assert HandleEvents(t, [events[1]], false) == HandleEvents(t, [], true);
  }

  /** The signal is read, and then the listener has nothing to accept: the server goes on. */
  lemma QuitOutlived(listener: int, signal: int, others: set<int>)
    requires listener != signal
    ensures var (s, listening) := Run(Start(listener, signal, others), true, [Ready([Quit(signal), Knock(listener, [])])]);
      s == Quitted(listener, signal, others) && s.quit && listening
  {
    var s := Start(listener, signal, others);
    TwoReported(s.interest, Quit(signal), Knock(listener, []));
    QuitBatch(listener, signal, others);
    assert [Ready([Quit(signal), Knock(listener, [])])][1..] == [];
  }

  lemma ReusedBatch(listener: int, signal: int, others: set<int>)
    requires listener != signal
    ensures var t := Quitted(listener, signal, others); var e := Knock(listener, [Accepted(signal, true, true)]);
      && EpollWait(t.interest, [e]) == [e]
      && var (u, go) := HandleEvents(t, [e], true); go && signal in u.clients && u.clients[signal] == NEW_CLIENT
  {
    var t, e := Quitted(listener, signal, others), Knock(listener, [Accepted(signal, true, true)]);
    assert [e][1..] == [] && e.accepts[1..] == [];
    assert EpollWait(t.interest, [e]) == [e] + EpollWait(t.interest - {listener}, []);
    var u := AcceptClient(t, e.accepts[0]).0;
    assert AcceptClients(t, e.accepts) == AcceptClients(u, []);
    assert HandleEvents(t, [e], true) == HandleEvents(u, [], true);
  }

  /** And the next client is accepted on the descriptor that the signals had. */
  lemma ClientOnSignal(listener: int, signal: int, others: set<int>)
    requires listener != signal
    ensures var waits := [
        Ready([Quit(signal), Knock(listener, [])]),
        Ready([Knock(listener, [Accepted(signal, true, true)])])];
      var start := Start(listener, signal, others);
      var (s, listening) := Run(start, true, waits);
      listening && signal in s.clients && s.clients[signal] == NEW_CLIENT && RunReuses(start, true, waits)
  {
    var start, t := Start(listener, signal, others), Quitted(listener, signal, others);
    var first, second := Ready([Quit(signal), Knock(listener, [])]), Ready([Knock(listener, [Accepted(signal, true, true)])]);
    TwoReported(start.interest, Quit(signal), Knock(listener, []));
    QuitBatch(listener, signal, others);
    ReusedBatch(listener, signal, others);
    assert [first, second][1..] == [second] && [second][1..] == [];
    assert Run(start, true, [first, second]) == Run(t, true, [second]);
    RunReuse(start, true, [first, second]);
  }
}
