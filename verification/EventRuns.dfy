/** project/io/event_loop.hpp, start: every run of the loop. */
module EventRuns {
  import opened Wire
  import opened EventLoops
  import opened EventMasks

  /** What epoll_wait answers. */
  datatype Wait = WaitFails | TimedOut | Ready(events: seq<Event>)

  /** How a run ends: nothing is pending, an exception, or it is still waiting. */
  datatype End = Finished | Thrown | Waiting

  /** The loop with the masks it remembers, the ones that epoll has, and the descriptors that are open and of a kind
      that epoll can watch. */
  datatype Machine = Machine(loop: Loop, masks: Masks, epoll: Masks, open: set<int>)

  /** `prepare_events`, with epoll's reaction; an operation that epoll refuses throws, and leaves what was done
      before it. */
  function Monitor(m: Machine): (Machine, bool) {
    var (masks, epoll, ok) := PrepareInto(m.loop.fds, Sorted(m.loop.fds.Keys), m.masks, m.epoll, m.open);
    (m.(masks := masks, epoll := epoll), ok)
  }

  /** `prune_events`, which leaves the remembered masks alone. */
  function Clean(m: Machine): (Machine, bool) {
    var (epoll, ok) := Emit(m.epoll, Prune(m.loop.fds, Sorted(m.masks.Keys)));
    (m.(epoll := epoll), ok)
  }

  /** `::epoll_wait`: only what epoll has is reported, each descriptor once, and only what its mask asks for. */
  function EpollWait(epoll: Masks, events: seq<Event>): seq<Event>
    decreases |events|
  {
    if events == [] then []
    else if events[0].fd !in epoll then EpollWait(epoll, events[1..])
    else [Reported(events[0], epoll[events[0].fd])] + EpollWait(epoll - {events[0].fd}, events[1..])
  }

  function Reported(e: Event, mask: Mask): Event {
    e.(readable := e.readable && mask.reading, writable := e.writable && mask.writing)
  }

  /** The answer that the loop gets: when there is nothing to report the time runs out. */
  function Answer(epoll: Masks, wait: Wait): Wait {
    if wait.Ready? then
      var events := EpollWait(epoll, wait.events);
      if events == [] then TimedOut else Ready(events)
    else wait
  }

  /** The callbacks of one turn. A descriptor that is closed is dropped from epoll by the kernel. */
  function Calls(m: Machine, answer: Wait, effect: Effect): Machine {
    match answer
    case WaitFails => m
    case TimedOut =>
      m.(loop := TimeOut(m.loop, effect),
         epoll := m.epoll - TimeOutCloses(m.loop, effect),
         open := TimeOutOpen(m.loop, effect, m.open))
    case Ready(events) =>
      m.(loop := DispatchAll(m.loop, events, effect),
         epoll := m.epoll - DispatchAllCloses(m.loop, events, effect),
         open := DispatchAllOpen(m.loop, events, effect, m.open))
  }

  /** One turn of the loop; the flag says that no exception left it. */
  function Turn(m: Machine, wait: Wait, effect: Effect): (Machine, bool) {
    var (m1, ok) := Monitor(m);
    if !ok then (m1, false)
    else
      var answer := Answer(m1.epoll, wait);
      var m2 := Calls(m1, answer, effect);
      match answer
      case WaitFails => (m2, false)
      case TimedOut => (m2, true)
      case Ready(_) => Clean(m2)
  }

  /** `start`, for as many turns as the environment has answers for. */
  function Run(m: Machine, waits: seq<Wait>, effect: Effect): (Machine, End)
    decreases |waits|
  {
    if m.loop.fds == map[] then (m, Finished)
    else if waits == [] then (m, Waiting)
    else
      var (m1, ok) := Turn(m, waits[0], effect);
      if ok then Run(m1, waits[1..], effect) else (m1, Thrown)
  }

  // ------------------------------------------------------------------ what every run keeps

  predicate Sound(l: Loop, fd: int, event: EventType) {
    ConservedFor(l, [], fd, event) && ConservedTimeouts(l, [])
  }

  lemma SoundMeans(l: Loop, fd: int, event: EventType)
    requires Sound(l, fd, event)
    ensures For(l.registered, fd, event) == For(l.called, fd, event) + Pending(l.fds, fd, event)
    ensures ForTimeout(l.registered) == ForTimeout(l.called) + l.timeouts
  {
  }

  lemma TurnKeeps(m: Machine, wait: Wait, effect: Effect, fd: int, event: EventType)
    requires Sound(m.loop, fd, event) && NoEmptyEntry(m.loop.fds)
    ensures var l := Turn(m, wait, effect).0.loop; Sound(l, fd, event) && NoEmptyEntry(l.fds)
  {
    match Answer(Monitor(m).0.epoll, wait)
    case WaitFails =>
    case TimedOut =>
      TimeOutKeeps(m.loop, effect, fd, event);
      CallAllNoEmpty(m.loop.(timeouts := []), Timers(m.loop.timeouts), effect);
    case Ready(events) =>
      DispatchAllKeeps(m.loop, events, effect, fd, event);
      DispatchAllNoEmpty(m.loop, events, effect);
  }

  lemma {:induction false} RunKeeps(m: Machine, waits: seq<Wait>, effect: Effect, fd: int, event: EventType)
    requires Sound(m.loop, fd, event) && NoEmptyEntry(m.loop.fds)
    ensures var l := Run(m, waits, effect).0.loop; Sound(l, fd, event) && NoEmptyEntry(l.fds)
    decreases |waits|
  {
    if m.loop.fds != map[] && waits != [] {
      TurnKeeps(m, waits[0], effect, fd, event);
      var (m1, ok) := Turn(m, waits[0], effect);
      if ok {
        RunKeeps(m1, waits[1..], effect, fd, event);
      }
    }
  }

  lemma {:induction false} FinishedExact(m: Machine, waits: seq<Wait>, effect: Effect)
    ensures var (r, end) := Run(m, waits, effect); end == Finished ==> r.loop.fds == map[]
    ensures var (r, end) := Run(m, waits, effect); end == Waiting ==> r.loop.fds != map[]
    decreases |waits|
  {
    if m.loop.fds != map[] && waits != [] {
      var (m1, ok) := Turn(m, waits[0], effect);
      if ok {
        FinishedExact(m1, waits[1..], effect);
      }
    }
  }

  /** The machine after some registrations, before `start`. */
  function Begin(start: seq<Registration>, open: set<int>): Machine {
    Machine(RegisterAll(EMPTY, start), map[], map[], open)
  }

  lemma BeginSound(start: seq<Registration>, open: set<int>, fd: int, event: EventType)
    ensures Sound(Begin(start, open).loop, fd, event) && NoEmptyEntry(Begin(start, open).loop.fds)
  {
    RegisterAllKeeps(EMPTY, [], start, fd, event);
    RegisterAllNoEmpty(EMPTY, start);
  }

  // ------------------------------------------------------------------ the main results

  /** Callback conservation: after any registrations and any run, even when callbacks register more while
      they are called, every callback registered for a descriptor and type has been called exactly once, in
      order of registration, or is still pending under that descriptor and type; and so for timeouts. */
  lemma CallbackConservation(start: seq<Registration>, open: set<int>, waits: seq<Wait>, effect: Effect, fd: int, event: EventType)
    ensures var l := Run(Begin(start, open), waits, effect).0.loop;
      && For(l.registered, fd, event) == For(l.called, fd, event) + Pending(l.fds, fd, event)
      && ForTimeout(l.registered) == ForTimeout(l.called) + l.timeouts
  {
    BeginSound(start, open, fd, event);
    RunKeeps(Begin(start, open), waits, effect, fd, event);
    SoundMeans(Run(Begin(start, open), waits, effect).0.loop, fd, event);
  }

  /** While the loop is not left by an exception, it goes on exactly as long as a callback is pending for
      some descriptor. */
  lemma EndsWhenDone(start: seq<Registration>, open: set<int>, waits: seq<Wait>, effect: Effect)
    ensures var (m, end) := Run(Begin(start, open), waits, effect);
      end != Thrown ==> (end == Finished <==> forall fd, event :: Pending(m.loop.fds, fd, event) == [])
  {
    BeginSound(start, open, 0, READ);
    RunKeeps(Begin(start, open), waits, effect, 0, READ);
    FinishedExact(Begin(start, open), waits, effect);
    NothingPending(Run(Begin(start, open), waits, effect).0.loop.fds);
  }

  // ------------------------------------------------------------------ what epoll watches

  /** `prepare_events` gets through if and only if epoll accepts every pending descriptor: those that were
      never seen are open and it does not have them, and it has those whose mask must change. */
  lemma MonitorExact(m: Machine)
    ensures Monitor(m).1 <==> forall fd :: fd in m.loop.fds ==> Accepted(m.loop.fds[fd], m.masks, m.epoll, m.open, fd)
  {
    PrepareIntoExact(m.loop.fds, Sorted(m.loop.fds.Keys), m.masks, m.epoll, m.open);
  }

  /** And `prune_events` if and only if epoll still has everything that has drained. */
  lemma CleanExact(m: Machine)
    ensures Clean(m).1 <==> forall fd :: fd in m.masks && fd !in m.loop.fds ==> fd in m.epoll
  {
    PruneExact(m.loop.fds, m.masks, m.epoll);
  }

  /** The loop remembers a mask for it, but epoll does not have it: it has been pruned, or closed. */
  predicate Unwatched(m: Machine, fd: int) {
    fd in m.masks && fd !in m.epoll
  }

  /** What holds at the head of the loop: epoll watches nothing but what is pending, with the masks that are
      remembered. */
  ghost predicate HeadOk(m: Machine) {
    InStep(m.masks, m.epoll) && forall fd :: fd in m.epoll ==> fd in m.loop.fds
  }

  /** After prepare_events a pending descriptor is watched by epoll if and only if it was before, or had never been
      seen: one that was pruned and is registered again is not, or the call throws. */
  lemma WatchedExact(m: Machine, fd: int)
    requires fd in m.loop.fds
    ensures var (n, ok) := Monitor(m); ok ==> (fd in n.epoll <==> fd in m.epoll || fd !in m.masks)
    ensures Unwatched(m, fd) && MaskFor(m.loop.fds[fd], m.masks, fd) != m.masks[fd] ==> !Monitor(m).1
  {
    var keys := Sorted(m.loop.fds.Keys);
    assert fd in keys;
    PrepareIntoWatches(m.loop.fds, keys, m.masks, m.epoll, m.open, fd);
    MonitorExact(m);
  }

  lemma MonitorKeeps(m: Machine, fd: int)
    requires HeadOk(m)
    ensures var (n, ok) := Monitor(m);
      && InStep(n.masks, n.epoll) && n.loop == m.loop
      && (Unwatched(m, fd) ==> Unwatched(n, fd))
      && (ok ==> (Unwatched(n, fd) <==> Unwatched(m, fd)) && (fd in n.masks <==> fd in m.masks || fd in m.loop.fds))
      && (ok && fd in n.epoll ==> fd in m.loop.fds)
  {
    PrepareIntoWatches(m.loop.fds, Sorted(m.loop.fds.Keys), m.masks, m.epoll, m.open, fd);
  }

  lemma CleanKeeps(m: Machine, fd: int)
    requires InStep(m.masks, m.epoll)
    ensures var (n, ok) := Clean(m);
      && InStep(n.masks, n.epoll) && n.loop == m.loop
      && (Unwatched(m, fd) ==> Unwatched(n, fd))
      && (ok ==> (Unwatched(n, fd) <==> Unwatched(m, fd) || (fd in m.masks && fd !in m.loop.fds)) && (fd in n.epoll ==> fd in m.loop.fds))
  {
    PruneInto(m.loop.fds, Sorted(m.masks.Keys), m.epoll);
  }

  lemma {:induction false} RegisterAllGrows(l: Loop, rs: seq<Registration>, fd: int)
    requires fd in l.fds
    ensures fd in RegisterAll(l, rs).fds
    decreases |rs|
  {
    if rs != [] {
      RegisterAllGrows(Register(l, rs[0]), rs[1..], fd);
    }
  }

  lemma {:induction false} CallAllGrows(l: Loop, calls: seq<Registration>, effect: Effect, fd: int)
    requires fd in l.fds
    ensures fd in CallAll(l, calls, effect).fds
    decreases |calls|
  {
    if calls != [] {
      var l1 := l.(called := l.called + [calls[0]]);
      var more := effect(calls[0].callback, |l.called|).registers;
      RegisterAllGrows(l1, more, fd);
      CallAllGrows(RegisterAll(l1, more), calls[1..], effect, fd);
    }
  }

  /** The loop remembers the descriptor after prepare_events. */
  predicate Known(m: Machine, fd: int) {
    fd in m.masks || fd in m.loop.fds
  }

  /** What the callbacks of a turn close, given what epoll_wait answers. */
  function Closes(m: Machine, answer: Wait, effect: Effect): set<int> {
    match answer
    case WaitFails => {}
    case TimedOut => TimeOutCloses(m.loop, effect)
    case Ready(events) => DispatchAllCloses(m.loop, events, effect)
  }

  /** The answer of epoll_wait in a turn from here. */
  function AnswerTo(m: Machine, wait: Wait): Wait {
    Answer(Monitor(m).0.epoll, wait)
  }

  /** What a turn leaves: what is unwatched stays so; and what a callback closes joins it, and what has drained when
      prune_events runs. */
  ghost predicate WatchedAfter(m: Machine, wait: Wait, effect: Effect, n: Machine, ok: bool, fd: int) {
    var answer := AnswerTo(m, wait);
    && InStep(n.masks, n.epoll)
    && (Unwatched(m, fd) ==> Unwatched(n, fd))
    && (ok && fd in n.epoll ==> fd in n.loop.fds)
    && (ok ==> (Unwatched(n, fd) <==>
          || Unwatched(m, fd)
          || (Known(m, fd) && (fd in Closes(m, answer, effect) || (answer.Ready? && fd !in n.loop.fds)))))
  }

  lemma CallsWatch(m: Machine, answer: Wait, effect: Effect, fd: int)
    requires InStep(m.masks, m.epoll)
    ensures var n := Calls(m, answer, effect);
      && InStep(n.masks, n.epoll) && n.masks == m.masks
      && (Unwatched(n, fd) <==> Unwatched(m, fd) || (fd in m.masks && fd in Closes(m, answer, effect)))
      && (fd in n.epoll ==> fd in m.epoll)
      && (answer.TimedOut? && fd in m.loop.fds ==> fd in n.loop.fds)
  {
    if answer.TimedOut? && fd in m.loop.fds {
      CallAllGrows(m.loop.(timeouts := []), Timers(m.loop.timeouts), effect, fd);
    }
  }

  lemma TurnGoesOn(m: Machine, wait: Wait, effect: Effect, fd: int)
    requires HeadOk(m) && Monitor(m).1
    ensures var (n, ok) := Turn(m, wait, effect); WatchedAfter(m, wait, effect, n, ok, fd)
  {
    MonitorKeeps(m, fd);
    var m1 := Monitor(m).0;
    var answer := Answer(m1.epoll, wait);
    CallsWatch(m1, answer, effect, fd);
    if answer.Ready? {
      CleanKeeps(Calls(m1, answer, effect), fd);
    }
  }

  lemma TurnWatches(m: Machine, wait: Wait, effect: Effect, fd: int)
    requires HeadOk(m)
    ensures var (n, ok) := Turn(m, wait, effect); WatchedAfter(m, wait, effect, n, ok, fd)
  {
    if Monitor(m).1 {
      TurnGoesOn(m, wait, effect, fd);
    } else {
      MonitorKeeps(m, fd);
    }
  }

  lemma TurnHead(m: Machine, wait: Wait, effect: Effect)
    requires HeadOk(m) && Turn(m, wait, effect).1
    ensures HeadOk(Turn(m, wait, effect).0)
  {
    var n := Turn(m, wait, effect).0;
    TurnWatches(m, wait, effect, 0);
    forall fd | fd in n.epoll ensures fd in n.loop.fds {
      TurnWatches(m, wait, effect, fd);
    }
  }

  /** Nothing in the way of prepare_events: what is pending and has never been seen is open, and every unwatched
      descriptor that is pending has the mask it had. */
  ghost predicate CanMonitor(m: Machine) {
    && (forall fd :: fd in m.loop.fds && fd !in m.masks ==> fd in m.open)
    && (forall fd :: fd in m.loop.fds && Unwatched(m, fd) ==> MaskFor(m.loop.fds[fd], m.masks, fd) == m.masks[fd])
  }

  /** Nothing in the way of prune_events after these events: each unwatched descriptor, and each known one that a
      callback closes, is pending after the callbacks. */
  ghost predicate CanClean(m: Machine, events: seq<Event>, effect: Effect) {
    forall fd :: Unwatched(m, fd) || (Known(m, fd) && fd in DispatchAllCloses(m.loop, events, effect)) ==>
      fd in DispatchAll(m.loop, events, effect).fds
  }

  ghost predicate Survives(m: Machine, wait: Wait, effect: Effect) {
    var answer := AnswerTo(m, wait);
    CanMonitor(m) && !answer.WaitFails? && (answer.Ready? ==> CanClean(m, answer.events, effect))
  }

  lemma CanMonitorExact(m: Machine)
    requires HeadOk(m)
    ensures Monitor(m).1 <==> CanMonitor(m)
  {
    MonitorExact(m);
    forall fd | fd in m.loop.fds
      ensures Accepted(m.loop.fds[fd], m.masks, m.epoll, m.open, fd) <==>
        && (fd !in m.masks ==> fd in m.open)
        && (Unwatched(m, fd) ==> MaskFor(m.loop.fds[fd], m.masks, fd) == m.masks[fd])
    {
    }
  }

  lemma CanCleanExact(m: Machine, events: seq<Event>, effect: Effect)
    requires HeadOk(m) && Monitor(m).1
    ensures Clean(Calls(Monitor(m).0, Ready(events), effect)).1 <==> CanClean(m, events, effect)
  {
    var m1 := Monitor(m).0;
    var m2 := Calls(m1, Ready(events), effect);
    MonitorKeeps(m, 0);
    forall fd ensures Unwatched(m2, fd) <==> Unwatched(m, fd) || (Known(m, fd) && fd in DispatchAllCloses(m.loop, events, effect)) {
      MonitorKeeps(m, fd);
      CallsWatch(m1, Ready(events), effect, fd);
    }
    CleanExact(m2);
    assert Clean(m2).1 <==> forall fd :: Unwatched(m2, fd) ==> fd in m2.loop.fds;
  }

  /** Exactly when a turn gets through. */
  lemma TurnExact(m: Machine, wait: Wait, effect: Effect)
    requires HeadOk(m)
    ensures Turn(m, wait, effect).1 <==> Survives(m, wait, effect)
  {
    CanMonitorExact(m);
    var answer := AnswerTo(m, wait);
    if Monitor(m).1 && answer.Ready? {
      CanCleanExact(m, answer.events, effect);
    }
  }

  lemma {:induction false} RunWatches(m: Machine, waits: seq<Wait>, effect: Effect, fd: int)
    requires HeadOk(m)
    ensures var (n, end) := Run(m, waits, effect);
      && InStep(n.masks, n.epoll) && (end != Thrown ==> HeadOk(n))
      && (Unwatched(m, fd) ==> Unwatched(n, fd))
    decreases |waits|
  {
    if m.loop.fds != map[] && waits != [] {
      TurnWatches(m, waits[0], effect, fd);
      var (m1, ok) := Turn(m, waits[0], effect);
      if ok {
        TurnHead(m, waits[0], effect);
        RunWatches(m1, waits[1..], effect, fd);
      }
    }
  }

  /** Over every run: what epoll watches at a loop head is pending, and has the remembered mask; and the next turn
      gets through if and only if nothing that has once been pruned is in the way. */
  lemma NextTurnExact(start: seq<Registration>, open: set<int>, waits: seq<Wait>, wait: Wait, effect: Effect)
    ensures var (m, end) := Run(Begin(start, open), waits, effect);
      end == Waiting ==> HeadOk(m) && (Turn(m, wait, effect).1 <==> Survives(m, wait, effect))
  {
    RunWatches(Begin(start, open), waits, effect, 0);
    var (m, end) := Run(Begin(start, open), waits, effect);
    if end == Waiting {
      TurnExact(m, wait, effect);
    }
  }

  lemma {:induction false} NotReported(epoll: Masks, events: seq<Event>, fd: int)
    requires fd !in epoll
    ensures forall i :: 0 <= i < |EpollWait(epoll, events)| ==> EpollWait(epoll, events)[i].fd != fd
    decreases |events|
  {
    if events != [] {
      NotReported(if events[0].fd in epoll then epoll - {events[0].fd} else epoll, events[1..], fd);
    }
  }

  lemma TurnSilent(m: Machine, wait: Wait, effect: Effect, fd: int, event: EventType)
    requires HeadOk(m) && Unwatched(m, fd)
    ensures For(Turn(m, wait, effect).0.loop.called, fd, event) == For(m.loop.called, fd, event)
  {
    MonitorKeeps(m, fd);
    var (m1, ok) := Monitor(m);
    match Answer(m1.epoll, wait)
    case WaitFails =>
    case TimedOut => TimeOutSilent(m.loop, effect, fd, event);
    case Ready(events) =>
      NotReported(m1.epoll, wait.events, fd);
      DispatchAllSilent(m.loop, events, effect, fd, event);
  }

  /** While a descriptor is not watched nothing that is registered for it is called. */
  lemma {:induction false} RunSilent(m: Machine, waits: seq<Wait>, effect: Effect, fd: int, event: EventType)
    requires HeadOk(m) && Unwatched(m, fd)
    ensures For(Run(m, waits, effect).0.loop.called, fd, event) == For(m.loop.called, fd, event)
    decreases |waits|
  {
    if m.loop.fds != map[] && waits != [] {
      TurnSilent(m, waits[0], effect, fd, event);
      TurnWatches(m, waits[0], effect, fd);
      var (m1, ok) := Turn(m, waits[0], effect);
      if ok {
        TurnHead(m, waits[0], effect);
        RunSilent(m1, waits[1..], effect, fd, event);
      }
    }
  }

  /** A descriptor that has drained when prune_events runs, or that a callback has closed, is never watched again,
      however the run goes on; and nothing that is registered for it, before or after, is called any more. */
  lemma NeverAgain(
      start: seq<Registration>, open: set<int>, waits: seq<Wait>, wait: Wait, later: seq<Wait>, effect: Effect, fd: int, event: EventType)
    ensures var (m, end) := Run(Begin(start, open), waits, effect); var (n, ok) := Turn(m, wait, effect);
      var answer := AnswerTo(m, wait); var r := Run(n, later, effect).0;
      end == Waiting && ok && Known(m, fd) && (fd in Closes(m, answer, effect) || (answer.Ready? && fd !in n.loop.fds)) ==>
        && Unwatched(n, fd) && Unwatched(r, fd)
        && For(r.loop.called, fd, event) == For(n.loop.called, fd, event)
  {
    RunWatches(Begin(start, open), waits, effect, fd);
    var (m, end) := Run(Begin(start, open), waits, effect);
    var (n, ok) := Turn(m, wait, effect);
    if end == Waiting && ok {
      TurnWatches(m, wait, effect, fd);
      TurnHead(m, wait, effect);
      RunWatches(n, later, effect, fd);
      if Unwatched(n, fd) {
        RunSilent(n, later, effect, fd, event);
      }
    }
  }

  /** `start` on a loop that has run before, and has been given more callbacks: epoll is made anew, but what is
      remembered is kept. */
  function Again(m: Machine, more: seq<Registration>): Machine {
    m.(loop := RegisterAll(m.loop, more), epoll := map[])
  }

  /** So in a second run no descriptor of the first is watched, and nothing is called for it, from start to end. */
  lemma SecondStart(
      start: seq<Registration>, open: set<int>, waits: seq<Wait>, more: seq<Registration>, later: seq<Wait>, effect: Effect, fd: int,
      event: EventType)
    ensures var m := Run(Begin(start, open), waits, effect).0; var r := Run(Again(m, more), later, effect).0;
      fd in m.masks ==>
        && Unwatched(Again(m, more), fd) && Unwatched(r, fd)
        && For(r.loop.called, fd, event) == For(m.loop.called, fd, event)
  {
    var m := Run(Begin(start, open), waits, effect).0;
    RunWatches(Again(m, more), later, effect, fd);
    if fd in m.masks {
      RunSilent(Again(m, more), later, effect, fd, event);
      RegisterAllCalls(m.loop, more);
    }
  }

  // ------------------------------------------------------------------ the masks at every wait

  lemma {:induction false} RunMasks(m: Machine, waits: seq<Wait>, effect: Effect)
    requires MasksOk(m.masks) && NoEmptyEntry(m.loop.fds)
    ensures var (n, end) := Run(m, waits, effect); end != Thrown ==> MasksOk(n.masks) && NoEmptyEntry(n.loop.fds)
    decreases |waits|
  {
    if m.loop.fds != map[] && waits != [] {
      var (m1, ok) := Turn(m, waits[0], effect);
      if ok {
        TurnMasks(m, waits[0], effect);
        RunMasks(m1, waits[1..], effect);
      }
    }
  }

  lemma MonitorMasks(m: Machine)
    requires Monitor(m).1
    ensures Monitor(m).0.masks == PrepareEvents(m.loop.fds, m.masks).0
  {
    PrepareIntoReplays(m.loop.fds, Sorted(m.loop.fds.Keys), m.masks, m.epoll, m.open);
  }

  lemma TurnMasks(m: Machine, wait: Wait, effect: Effect)
    requires MasksOk(m.masks) && NoEmptyEntry(m.loop.fds) && Turn(m, wait, effect).1
    ensures var n := Turn(m, wait, effect).0; MasksOk(n.masks) && NoEmptyEntry(n.loop.fds)
  {
    MonitorMasks(m);
    MasksStayOk(m.loop.fds, m.masks);
    match AnswerTo(m, wait)
    case TimedOut => CallAllNoEmpty(m.loop.(timeouts := []), Timers(m.loop.timeouts), effect);
    case Ready(events) => DispatchAllNoEmpty(m.loop, events, effect);
    case WaitFails =>
  }

  /** At every wait of every run the mask of each pending descriptor asks for exactly what is pending, and for what
      is always asked; and where epoll watches the descriptor it has that mask. */
  lemma MasksAtEveryWait(start: seq<Registration>, open: set<int>, waits: seq<Wait>, effect: Effect, fd: int)
    ensures var (m, end) := Run(Begin(start, open), waits, effect); var (n, ok) := Monitor(m);
      end == Waiting && ok && fd in m.loop.fds ==>
        && fd in n.masks && MaskOk(n.masks[fd])
        && (n.masks[fd].reading <==> Pending(n.loop.fds, fd, READ) != [])
        && (n.masks[fd].writing <==> Pending(n.loop.fds, fd, WRITE) != [])
        && (fd in n.epoll ==> n.epoll[fd] == n.masks[fd])
  {
    BeginSound(start, open, 0, READ);
    RunMasks(Begin(start, open), waits, effect);
    RunWatches(Begin(start, open), waits, effect, fd);
    var (m, end) := Run(Begin(start, open), waits, effect);
    if end == Waiting && Monitor(m).1 {
      MonitorMasks(m);
      MonitorKeeps(m, fd);
      MaskDerivation(m.loop.fds, m.masks, fd);
    }
  }
}
