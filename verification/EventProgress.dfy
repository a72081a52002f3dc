/** What the event loop gets done: which callbacks one event, one wait and one turn call, and in which order. */
module EventProgress {
  import opened Wire
  import opened EventLoops
  import opened EventMasks
  import opened EventRuns

  // ------------------------------------------------------------------ one event

  lemma {:induction false} TaggedAt(fd: int, event: EventType, callbacks: seq<Callback>, i: nat)
    requires i < |callbacks|
    ensures |Tagged(fd, event, callbacks)| == |callbacks| && Tagged(fd, event, callbacks)[i] == OnFd(fd, event, callbacks[i])
  {
    if i > 0 {
      TaggedAt(fd, event, callbacks[1..], i - 1);
    } else if |callbacks| > 1 {
      TaggedAt(fd, event, callbacks[1..], 0);
    }
  }

  function PendingFor(fds: map<int, FdEntry>, e: Event, event: EventType): seq<Callback> {
    if (if event == READ then e.readable else e.writable) then Pending(fds, e.fd, event) else []
  }

  lemma TakenOrder(fds: map<int, FdEntry>, e: Event, i: nat)
    requires i < |PendingFor(fds, e, READ)| + |PendingFor(fds, e, WRITE)|
    ensures var rs, ws := PendingFor(fds, e, READ), PendingFor(fds, e, WRITE);
      && |Taken(fds, e)| == |rs| + |ws|
      && Taken(fds, e)[i] == if i < |rs| then OnFd(e.fd, READ, rs[i]) else OnFd(e.fd, WRITE, ws[i - |rs|])
  {
    var rs, ws := PendingFor(fds, e, READ), PendingFor(fds, e, WRITE);
    if rs != [] {
      TaggedAt(e.fd, READ, rs, if i < |rs| then i else 0);
    }
    if ws != [] {
      TaggedAt(e.fd, WRITE, ws, if i < |rs| then 0 else i - |rs|);
    }
  }

  lemma NoneTaken(fds: map<int, FdEntry>, e: Event)
    requires PendingFor(fds, e, READ) == [] && PendingFor(fds, e, WRITE) == []
    ensures Taken(fds, e) == []
  {
  }

  /** One event calls what is pending to read, in order of registration, and then what is pending to write. */
  lemma CallOrder(l: Loop, e: Event, effect: Effect)
    ensures var called := Dispatch(l, e, effect).called;
      var rs, ws := PendingFor(l.fds, e, READ), PendingFor(l.fds, e, WRITE); var n := |l.called|;
      && |called| == n + |rs| + |ws| && called[..n] == l.called
      && (forall i :: 0 <= i < |rs| ==> called[n + i] == OnFd(e.fd, READ, rs[i]))
      && (forall i :: 0 <= i < |ws| ==> called[n + |rs| + i] == OnFd(e.fd, WRITE, ws[i]))
  {
    var rs, ws := PendingFor(l.fds, e, READ), PendingFor(l.fds, e, WRITE);
    CallAllCalls(l.(fds := Left(l.fds, e)), Taken(l.fds, e), effect);
    if rs == [] && ws == [] {
      NoneTaken(l.fds, e);
    } else {
      TakenOrder(l.fds, e, 0);
    }
    forall i | 0 <= i < |rs| + |ws|
      ensures Taken(l.fds, e)[i] == if i < |rs| then OnFd(e.fd, READ, rs[i]) else OnFd(e.fd, WRITE, ws[i - |rs|])
    {
      TakenOrder(l.fds, e, i);
    }
  }

  // ------------------------------------------------------------------ all events of one wait

  lemma {:induction false} RegisterAllPending(l: Loop, rs: seq<Registration>, fd: int, event: EventType)
    ensures Pending(l.fds, fd, event) <= Pending(RegisterAll(l, rs).fds, fd, event)
    decreases |rs|
  {
    if rs != [] {
      RegisterAllPending(Register(l, rs[0]), rs[1..], fd, event);
    }
  }

  lemma {:induction false} CallAllPending(l: Loop, calls: seq<Registration>, effect: Effect, fd: int, event: EventType)
    ensures Pending(l.fds, fd, event) <= Pending(CallAll(l, calls, effect).fds, fd, event)
    decreases |calls|
  {
    if calls != [] {
      var l1 := l.(called := l.called + [calls[0]]);
      var more := effect(calls[0].callback, |l.called|).registers;
      RegisterAllPending(l1, more, fd, event);
      CallAllPending(RegisterAll(l1, more), calls[1..], effect, fd, event);
    }
  }

  /** What one event calls for a descriptor and type is what is pending, if it hits them, and else nothing; and what it
      does not call stays pending. */
  lemma DispatchCalls(l: Loop, e: Event, effect: Effect, fd: int, event: EventType)
    ensures var n := Dispatch(l, e, effect);
      && For(n.called, fd, event) ==
         For(l.called, fd, event) + (if Hits(e, fd, event) then Pending(l.fds, fd, event) else [])
      && (!Hits(e, fd, event) ==> Pending(l.fds, fd, event) <= Pending(n.fds, fd, event))
  {
    CallAllCalls(l.(fds := Left(l.fds, e)), Taken(l.fds, e), effect);
    ForConcat(l.called, Taken(l.fds, e), fd, event);
    TakenExact(l.fds, e, fd, event);
    LeftExact(l.fds, e, fd, event);
    CallAllPending(l.(fds := Left(l.fds, e)), Taken(l.fds, e), effect, fd, event);
  }

  lemma {:induction false} CalledGrows(l: Loop, events: seq<Event>, effect: Effect, fd: int, event: EventType)
    ensures For(l.called, fd, event) <= For(DispatchAll(l, events, effect).called, fd, event)
    decreases |events|
  {
    if events != [] {
      DispatchCalls(l, events[0], effect, fd, event);
      CalledGrows(Dispatch(l, events[0], effect), events[1..], effect, fd, event);
    }
  }

  /** Everything that is pending for a reported descriptor and type is called, in order. */
  lemma {:induction false} ReportedCalled(l: Loop, events: seq<Event>, e: Event, effect: Effect, fd: int, event: EventType)
    requires e in events && Hits(e, fd, event)
    ensures For(l.called, fd, event) + Pending(l.fds, fd, event) <= For(DispatchAll(l, events, effect).called, fd, event)
    decreases |events|
  {
    var n := Dispatch(l, events[0], effect);
    DispatchCalls(l, events[0], effect, fd, event);
    if Hits(events[0], fd, event) {
      CalledGrows(n, events[1..], effect, fd, event);
    } else {
      assert e in events[1..];
      ReportedCalled(n, events[1..], e, effect, fd, event);
      NothingMore(For(l.called, fd, event));
      Extended(For(l.called, fd, event), Pending(l.fds, fd, event), Pending(n.fds, fd, event),
               For(DispatchAll(l, events, effect).called, fd, event));
    }
  }

  lemma NothingMore<T>(a: seq<T>)
    ensures a + [] == a
  {
  }

  lemma Extended<T>(a: seq<T>, b: seq<T>, c: seq<T>, d: seq<T>)
    requires b <= c && a + c <= d
    ensures a + b <= d
  {
    assert a + b == (a + c)[..|a + b|];
  }

  // ------------------------------------------------------------------ one turn

  /** What epoll watches and is asked for, and happens, is reported. */
  lemma {:induction false} WaitReports(epoll: Masks, events: seq<Event>, i: nat)
    requires i < |events| && events[i].fd in epoll
    requires forall j :: 0 <= j < i ==> events[j].fd != events[i].fd
    ensures Reported(events[i], epoll[events[i].fd]) in EpollWait(epoll, events)
    decreases |events|
  {
    if i > 0 {
      var rest := if events[0].fd in epoll then epoll - {events[0].fd} else epoll;
      WaitReports(rest, events[1..], i - 1);
    }
  }

  lemma TurnReports(m: Machine, wait: Wait, effect: Effect, e: Event, fd: int, event: EventType)
    requires HeadOk(m) && Monitor(m).1
    requires var answer := AnswerTo(m, wait); answer.Ready? && e in answer.events && Hits(e, fd, event)
    ensures For(m.loop.called, fd, event) + Pending(m.loop.fds, fd, event) <= For(Turn(m, wait, effect).0.loop.called, fd, event)
  {
    MonitorKeeps(m, fd);
    ReportedCalled(m.loop, AnswerTo(m, wait).events, e, effect, fd, event);
  }

  /** Over every run: what is pending for a descriptor that epoll has, and that becomes ready, is called in the turn in
      which it does, all of it and in order of registration. */
  lemma DueCalled(
      start: seq<Registration>, open: set<int>, waits: seq<Wait>, events: seq<Event>, effect: Effect,
      i: nat, event: EventType)
    requires i < |events| && forall j :: 0 <= j < i ==> events[j].fd != events[i].fd
    requires if event == READ then events[i].readable else events[i].writable
    ensures var (m, end) := Run(Begin(start, open), waits, effect); var (n, ok) := Monitor(m); var fd := events[i].fd;
      end == Waiting && ok && fd in n.epoll && Pending(m.loop.fds, fd, event) != [] ==>
        For(m.loop.called, fd, event) + Pending(m.loop.fds, fd, event) <=
        For(Turn(m, Ready(events), effect).0.loop.called, fd, event)
  {
    var (m, end) := Run(Begin(start, open), waits, effect);
    var (n, ok) := Monitor(m);
    var fd := events[i].fd;
    if end == Waiting && ok && fd in n.epoll && Pending(m.loop.fds, fd, event) != [] {
      RunWatches(Begin(start, open), waits, effect, fd);
      MonitorKeeps(m, fd);
      MasksAtEveryWait(start, open, waits, effect, fd);
      WaitReports(n.epoll, events, i);
      TurnReports(m, Ready(events), effect, Reported(events[i], n.epoll[fd]), fd, event);
    }
  }

  /** When the time runs out every timeout callback is called once, in order, and no other. */
  lemma TimeoutsCalled(m: Machine, effect: Effect, fd: int, event: EventType)
    requires HeadOk(m) && Monitor(m).1
    ensures var n := Turn(m, TimedOut, effect).0.loop;
      && ForTimeout(n.called) == ForTimeout(m.loop.called) + m.loop.timeouts
      && For(n.called, fd, event) == For(m.loop.called, fd, event)
  {
    MonitorKeeps(m, fd);
    CallAllCalls(m.loop.(timeouts := []), Timers(m.loop.timeouts), effect);
    ForConcat(m.loop.called, Timers(m.loop.timeouts), fd, event);
    TimersFor(m.loop.timeouts, fd, event);
  }

  // ------------------------------------------------------------------ runs, turn by turn

  /** How a run goes on: it ends when nothing is pending, and else takes the next turn. */
  lemma {:induction false} RunNext(m: Machine, waits: seq<Wait>, last: Wait, effect: Effect)
    ensures var (n, end) := Run(m, waits, effect);
      Run(m, waits + [last], effect) ==
        if end != Waiting then (n, end)
        else
          var (r, ok) := Turn(n, last, effect);
          (r, if !ok then Thrown else if r.loop.fds == map[] then Finished else Waiting)
    ensures Run(m, [], effect) == (m, if m.loop.fds == map[] then Finished else Waiting)
    decreases |waits|
  {
    if waits == [] {
      assert [] + [last] == [last] && [last][1..] == [];
    } else {
      assert (waits + [last])[1..] == waits[1..] + [last];
      if m.loop.fds != map[] {
        var (m1, ok) := Turn(m, waits[0], effect);
        if ok {
          RunNext(m1, waits[1..], last, effect);
        }
      }
    }
  }

  /** A run is left by an exception if and only if one of its turns could not get through. */
  lemma ThrownExact(start: seq<Registration>, open: set<int>, waits: seq<Wait>, last: Wait, effect: Effect)
    ensures var (m, end) := Run(Begin(start, open), waits, effect);
      Run(Begin(start, open), waits + [last], effect).1 == Thrown <==>
      end == Thrown || (end == Waiting && !Survives(m, last, effect))
  {
    RunNext(Begin(start, open), waits, last, effect);
    NextTurnExact(start, open, waits, last, effect);
  }

  // ------------------------------------------------------------------ what a refused call leaves

  /** What prepare_events leaves of one descriptor when it stops at another: those before that have been seen to, that
      one is remembered with its new mask, those behind it are as they were. */
  predicate StoppedAt(
      fds: map<int, FdEntry>, keys: seq<int>, masks: Masks, epoll: Masks, m: Masks, e: Masks, fd: int, x: int)
    requires KeysIn(keys, fds)
  {
    && (if x in keys && x <= fd then x in fds && x in m && m[x] == MaskFor(fds[x], masks, x)
        else (x in m <==> x in masks) && (x in masks ==> m[x] == masks[x]))
    && (if x in keys && x < fd then x in e <==> x in epoll || x !in masks
        else (x in e <==> x in epoll) && (x in epoll ==> e[x] == epoll[x]))
  }

  /** prepare_events stops at the first descriptor that epoll does not accept. */
  lemma {:induction false} PrepareIntoStops(
      fds: map<int, FdEntry>, keys: seq<int>, masks: Masks, epoll: Masks, open: set<int>, fd: int, x: int)
    requires KeysIn(keys, fds) && Ascending(keys)
    requires fd in keys && !Accepted(fds[fd], masks, epoll, open, fd)
    requires forall y :: y in keys && y < fd ==> Accepted(fds[y], masks, epoll, open, y)
    ensures var (m, e, ok) := PrepareInto(fds, keys, masks, epoll, open);
      !ok && StoppedAt(fds, keys, masks, epoll, m, e, fd, x)
    decreases |keys|
  {
    var k := keys[0];
    AscendingTail(keys);
    OneAccepted(fds[k], masks, epoll, open, k);
    if k != fd {
      var r := Ctl(open, epoll, OpFor(fds[k], masks, k)).get;
      var next := masks[k := MaskFor(fds[k], masks, k)];
      forall y | y in keys[1..] ensures Accepted(fds[y], next, r, open, y) == Accepted(fds[y], masks, epoll, open, y) {
        SameAccepted(fds[y], masks, epoll, next, r, open, y);
      }
      PrepareIntoStops(fds, keys[1..], next, r, open, fd, x);
      var (m, e, _) := PrepareInto(fds, keys[1..], next, r, open);
      StoppedLater(fds, keys, masks, epoll, next, r, m, e, fd, x);
    }
  }

  lemma StoppedLater(
      fds: map<int, FdEntry>, keys: seq<int>, masks: Masks, epoll: Masks, next: Masks, r: Masks, m: Masks, e: Masks,
      fd: int, x: int)
    requires KeysIn(keys, fds) && Ascending(keys) && keys != [] && keys[0] < fd
    requires next == masks[keys[0] := MaskFor(fds[keys[0]], masks, keys[0])]
    requires forall y :: y != keys[0] ==> (y in r <==> y in epoll) && (y in epoll ==> r[y] == epoll[y])
    requires keys[0] in r <==> keys[0] in epoll || keys[0] !in masks
    requires StoppedAt(fds, keys[1..], next, r, m, e, fd, x)
    ensures StoppedAt(fds, keys, masks, epoll, m, e, fd, x)
  {
    AscendingTail(keys);
  }
}
