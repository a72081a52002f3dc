/** project/io/event_loop.hpp: callbacks that are registered for a descriptor and called once. */
module EventLoops {
  import opened Basics
  import opened Wire

  datatype EventType = READ | WRITE

  /** Callbacks are known by number. */
  type Callback = nat

  datatype Registration = OnFd(fd: int, event: EventType, callback: Callback) | OnTimeout(callback: Callback)

  /** What a callback does: it registers others, closes descriptors, and opens some and leaves them open. */
  datatype Reaction = Reaction(registers: seq<Registration>, closes: set<int>, opens: set<int>)

  /** What each callback does, given how many calls have been made before this one. */
  type Effect = (Callback, nat) -> Reaction

  type FdEntry = map<EventType, seq<Callback>>

  /** The callbacks that are pending, and two records: of all registrations, and of all calls. */
  datatype Loop = Loop(
    fds: map<int, FdEntry>,
    timeouts: seq<Callback>,
    registered: seq<Registration>,
    called: seq<Registration>)

  const EMPTY := Loop(map[], [], [], [])

  // ------------------------------------------------------------------ registering

  /** `add_fd_callback`. */
  function AddFd(fds: map<int, FdEntry>, fd: int, event: EventType, callback: Callback): map<int, FdEntry> {
    var entry := if fd in fds then fds[fd] else map[];
    fds[fd := entry[event := (if event in entry then entry[event] else []) + [callback]]]
  }

  function Register(l: Loop, r: Registration): Loop {
    var l1 := l.(registered := l.registered + [r]);
    match r
    case OnFd(fd, event, callback) => l1.(fds := AddFd(l.fds, fd, event, callback))
    case OnTimeout(callback) => l1.(timeouts := l.timeouts + [callback])
  }

  function RegisterAll(l: Loop, rs: seq<Registration>): Loop
    decreases |rs|
  {
    if rs == [] then l else RegisterAll(Register(l, rs[0]), rs[1..])
  }

  // ------------------------------------------------------------------ taking and calling

  function Pending(fds: map<int, FdEntry>, fd: int, event: EventType): seq<Callback> {
    if fd in fds && event in fds[fd] then fds[fd][event] else []
  }

  lemma AddPending(fds: map<int, FdEntry>, x: int, t: EventType, callback: Callback, fd: int, event: EventType)
    ensures Pending(AddFd(fds, x, t, callback), fd, event) ==
            Pending(fds, fd, event) + if fd == x && event == t then [callback] else []
  {
  }

  /** `take_fd_event_callbacks`: the entry of a descriptor that has none is made on the way. */
  function Without(fds: map<int, FdEntry>, fd: int, event: EventType): map<int, FdEntry> {
    var entry := if fd in fds then fds[fd] else map[];
    fds[fd := entry - {event}]
  }

  lemma WithoutPending(fds: map<int, FdEntry>, x: int, t: EventType, fd: int, event: EventType)
    ensures Pending(Without(fds, x, t), fd, event) == if fd == x && event == t then [] else Pending(fds, fd, event)
  {
  }

  datatype Event = Event(fd: int, readable: bool, writable: bool)

  function Tagged(fd: int, event: EventType, callbacks: seq<Callback>): seq<Registration> {
    if callbacks == [] then [] else [OnFd(fd, event, callbacks[0])] + Tagged(fd, event, callbacks[1..])
  }

  /** The callbacks that `take_fd_callbacks` takes: those for reading first. */
  function Taken(fds: map<int, FdEntry>, e: Event): seq<Registration> {
    (if e.readable then Tagged(e.fd, READ, Pending(fds, e.fd, READ)) else [])
    + (if e.writable then Tagged(e.fd, WRITE, Pending(fds, e.fd, WRITE)) else [])
  }

  /** What `take_fd_callbacks` leaves: an entry that has become empty is erased. */
  function Left(fds: map<int, FdEntry>, e: Event): map<int, FdEntry> {
    var a := if e.readable then Without(fds, e.fd, READ) else fds;
    var b := if e.writable then Without(a, e.fd, WRITE) else a;
    if e.fd !in b || b[e.fd] == map[] then b - {e.fd} else b
  }

  /** Calling callbacks one after the other; each may register more. */
  function CallAll(l: Loop, calls: seq<Registration>, effect: Effect): Loop
    decreases |calls|
  {
    if calls == [] then l
    else
      var l1 := RegisterAll(l.(called := l.called + [calls[0]]), effect(calls[0].callback, |l.called|).registers);
      CallAll(l1, calls[1..], effect)
  }

  /** The descriptors that they close. */
  function Closed(l: Loop, calls: seq<Registration>, effect: Effect): set<int>
    decreases |calls|
  {
    if calls == [] then {}
    else
      var reaction := effect(calls[0].callback, |l.called|);
      var l1 := RegisterAll(l.(called := l.called + [calls[0]]), reaction.registers);
      reaction.closes + Closed(l1, calls[1..], effect)
  }

  /** The descriptors that are open after them. */
  function Open(l: Loop, calls: seq<Registration>, effect: Effect, open: set<int>): set<int>
    decreases |calls|
  {
    if calls == [] then open
    else
      var reaction := effect(calls[0].callback, |l.called|);
      var l1 := RegisterAll(l.(called := l.called + [calls[0]]), reaction.registers);
      Open(l1, calls[1..], effect, open - reaction.closes + reaction.opens)
  }

  function Dispatch(l: Loop, e: Event, effect: Effect): Loop {
    CallAll(l.(fds := Left(l.fds, e)), Taken(l.fds, e), effect)
  }

  function DispatchAll(l: Loop, events: seq<Event>, effect: Effect): Loop
    decreases |events|
  {
    if events == [] then l else DispatchAll(Dispatch(l, events[0], effect), events[1..], effect)
  }

  function DispatchCloses(l: Loop, e: Event, effect: Effect): set<int> {
    Closed(l.(fds := Left(l.fds, e)), Taken(l.fds, e), effect)
  }

  function DispatchAllCloses(l: Loop, events: seq<Event>, effect: Effect): set<int>
    decreases |events|
  {
    if events == [] then {}
    else DispatchCloses(l, events[0], effect) + DispatchAllCloses(Dispatch(l, events[0], effect), events[1..], effect)
  }

  function DispatchOpen(l: Loop, e: Event, effect: Effect, open: set<int>): set<int> {
    Open(l.(fds := Left(l.fds, e)), Taken(l.fds, e), effect, open)
  }

  function DispatchAllOpen(l: Loop, events: seq<Event>, effect: Effect, open: set<int>): set<int>
    decreases |events|
  {
    if events == [] then open
    else DispatchAllOpen(Dispatch(l, events[0], effect), events[1..], effect, DispatchOpen(l, events[0], effect, open))
  }

  function Timers(callbacks: seq<Callback>): seq<Registration> {
    if callbacks == [] then [] else [OnTimeout(callbacks[0])] + Timers(callbacks[1..])
  }

  /** Nothing happened for a while: all timeout callbacks are taken, and called. */
  function TimeOut(l: Loop, effect: Effect): Loop {
    CallAll(l.(timeouts := []), Timers(l.timeouts), effect)
  }

  function TimeOutCloses(l: Loop, effect: Effect): set<int> {
    Closed(l.(timeouts := []), Timers(l.timeouts), effect)
  }

  function TimeOutOpen(l: Loop, effect: Effect, open: set<int>): set<int> {
    Open(l.(timeouts := []), Timers(l.timeouts), effect, open)
  }

  // ------------------------------------------------------------------ conservation

  /** The callbacks of one descriptor and type in a record, in order. */
  function For(record: seq<Registration>, fd: int, event: EventType): seq<Callback> {
    if record == [] then []
    else
      var r := record[|record| - 1];
      For(record[..|record| - 1], fd, event)
      + if r.OnFd? && r.fd == fd && r.event == event then [r.callback] else []
  }

  function ForTimeout(record: seq<Registration>): seq<Callback> {
    if record == [] then []
    else
      var r := record[|record| - 1];
      ForTimeout(record[..|record| - 1]) + if r.OnTimeout? then [r.callback] else []
  }

  /** With `inHand` taken and not called yet: what was registered is what was called, then what is in hand,
      then what is pending. */
  predicate ConservedFor(l: Loop, inHand: seq<Registration>, fd: int, event: EventType) {
    For(l.registered, fd, event) == For(l.called, fd, event) + For(inHand, fd, event) + Pending(l.fds, fd, event)
  }

  predicate ConservedTimeouts(l: Loop, inHand: seq<Registration>) {
    ForTimeout(l.registered) == ForTimeout(l.called) + ForTimeout(inHand) + l.timeouts
  }

  /** No descriptor has an empty entry, and no type an empty list. */
  predicate NoEmptyEntry(fds: map<int, FdEntry>) {
    forall fd :: fd in fds ==> fds[fd] != map[] && forall event :: event in fds[fd] ==> fds[fd][event] != []
  }

  lemma ForAppend(record: seq<Registration>, r: Registration, fd: int, event: EventType)
    ensures For(record + [r], fd, event) ==
            For(record, fd, event) + if r.OnFd? && r.fd == fd && r.event == event then [r.callback] else []
    ensures ForTimeout(record + [r]) == ForTimeout(record) + if r.OnTimeout? then [r.callback] else []
  {
  }

  lemma {:induction false} ForCons(r: Registration, record: seq<Registration>, fd: int, event: EventType)
    ensures For([r] + record, fd, event) == For([r], fd, event) + For(record, fd, event)
    ensures ForTimeout([r] + record) == ForTimeout([r]) + ForTimeout(record)
  {
    if record == [] {
      assert [r] + record == [r];
    } else {
      var n := |record| - 1;
      var last := record[n];
      ForCons(r, record[..n], fd, event);
      assert [r] + record == ([r] + record[..n]) + [last] && record == record[..n] + [last];
      ForAppend([r] + record[..n], last, fd, event);
      ForAppend(record[..n], last, fd, event);
    }
  }

  // ------------------------------------------------------------------ every step conserves

  lemma RegisterKeeps(l: Loop, inHand: seq<Registration>, r: Registration, fd: int, event: EventType)
    requires ConservedFor(l, inHand, fd, event) && ConservedTimeouts(l, inHand)
    ensures ConservedFor(Register(l, r), inHand, fd, event) && ConservedTimeouts(Register(l, r), inHand)
  {
    ForAppend(l.registered, r, fd, event);
    match r
    case OnFd(x, t, callback) =>
      AddPending(l.fds, x, t, callback, fd, event);
      Associate(For(l.called, fd, event) + For(inHand, fd, event), Pending(l.fds, fd, event), [callback]);
    case OnTimeout(callback) =>
      Associate(ForTimeout(l.called) + ForTimeout(inHand), l.timeouts, [callback]);
  }

  lemma {:induction false} RegisterAllKeeps(l: Loop, inHand: seq<Registration>, rs: seq<Registration>, fd: int, event: EventType)
    requires ConservedFor(l, inHand, fd, event) && ConservedTimeouts(l, inHand)
    ensures ConservedFor(RegisterAll(l, rs), inHand, fd, event) && ConservedTimeouts(RegisterAll(l, rs), inHand)
    decreases |rs|
  {
    if rs != [] {
      RegisterKeeps(l, inHand, rs[0], fd, event);
      RegisterAllKeeps(Register(l, rs[0]), inHand, rs[1..], fd, event);
    }
  }

  lemma ForFirst(calls: seq<Registration>, fd: int, event: EventType)
    requires calls != []
    ensures var r := calls[0];
      && For(calls, fd, event) ==
         (if r.OnFd? && r.fd == fd && r.event == event then [r.callback] else []) + For(calls[1..], fd, event)
      && ForTimeout(calls) == (if r.OnTimeout? then [r.callback] else []) + ForTimeout(calls[1..])
  {
    ForAppend([], calls[0], fd, event);
    assert [] + [calls[0]] == [calls[0]] && calls == [calls[0]] + calls[1..];
    ForCons(calls[0], calls[1..], fd, event);
  }

  /** A call moves one callback from the hand to the record of calls. */
  lemma CallKeeps(l: Loop, calls: seq<Registration>, fd: int, event: EventType)
    requires calls != []
    requires ConservedFor(l, calls, fd, event) && ConservedTimeouts(l, calls)
    ensures var l1 := l.(called := l.called + [calls[0]]);
      ConservedFor(l1, calls[1..], fd, event) && ConservedTimeouts(l1, calls[1..])
  {
    var r := calls[0];
    ForAppend(l.called, r, fd, event);
    ForFirst(calls, fd, event);
    Associate(For(l.called, fd, event), if r.OnFd? && r.fd == fd && r.event == event then [r.callback] else [],
              For(calls[1..], fd, event));
    Associate(ForTimeout(l.called), if r.OnTimeout? then [r.callback] else [], ForTimeout(calls[1..]));
  }

  lemma {:induction false} CallAllKeeps(l: Loop, calls: seq<Registration>, effect: Effect, fd: int, event: EventType)
    requires ConservedFor(l, calls, fd, event) && ConservedTimeouts(l, calls)
    ensures ConservedFor(CallAll(l, calls, effect), [], fd, event) && ConservedTimeouts(CallAll(l, calls, effect), [])
    decreases |calls|
  {
    if calls != [] {
      var l1 := l.(called := l.called + [calls[0]]);
      var more := effect(calls[0].callback, |l.called|).registers;
      CallKeeps(l, calls, fd, event);
      RegisterAllKeeps(l1, calls[1..], more, fd, event);
      CallAllKeeps(RegisterAll(l1, more), calls[1..], effect, fd, event);
    }
  }

  lemma {:induction false} TaggedFor(x: int, e: EventType, callbacks: seq<Callback>, fd: int, event: EventType)
    ensures For(Tagged(x, e, callbacks), fd, event) == if x == fd && e == event then callbacks else []
    ensures ForTimeout(Tagged(x, e, callbacks)) == []
  {
    if callbacks != [] {
      var r := OnFd(x, e, callbacks[0]);
      TaggedFor(x, e, callbacks[1..], fd, event);
      ForCons(r, Tagged(x, e, callbacks[1..]), fd, event);
      ForAppend([], r, fd, event);
      assert [] + [r] == [r];
    }
  }

  lemma {:induction false} TimersFor(callbacks: seq<Callback>, fd: int, event: EventType)
    ensures For(Timers(callbacks), fd, event) == [] && ForTimeout(Timers(callbacks)) == callbacks
  {
    if callbacks != [] {
      var r := OnTimeout(callbacks[0]);
      TimersFor(callbacks[1..], fd, event);
      ForCons(r, Timers(callbacks[1..]), fd, event);
      ForAppend([], r, fd, event);
      assert [] + [r] == [r];
    }
  }

  lemma {:induction false} ForConcat(a: seq<Registration>, b: seq<Registration>, fd: int, event: EventType)
    ensures For(a + b, fd, event) == For(a, fd, event) + For(b, fd, event)
    ensures ForTimeout(a + b) == ForTimeout(a) + ForTimeout(b)
  {
    if b == [] {
      assert a + b == a;
    } else {
      var n := |b| - 1;
      ForConcat(a, b[..n], fd, event);
      assert a + b == (a + b[..n]) + [b[n]] && b == b[..n] + [b[n]];
      var r := b[n];
      ForAppend(a + b[..n], r, fd, event);
      ForAppend(b[..n], r, fd, event);
      Associate(For(a, fd, event), For(b[..n], fd, event), if r.OnFd? && r.fd == fd && r.event == event then [r.callback] else []);
      Associate(ForTimeout(a), ForTimeout(b[..n]), if r.OnTimeout? then [r.callback] else []);
    }
  }

  predicate Hits(e: Event, fd: int, event: EventType) {
    fd == e.fd && if event == READ then e.readable else e.writable
  }

  /** What one event takes is what was pending for it. */
  lemma TakenExact(fds: map<int, FdEntry>, e: Event, fd: int, event: EventType)
    ensures For(Taken(fds, e), fd, event) == if Hits(e, fd, event) then Pending(fds, fd, event) else []
    ensures ForTimeout(Taken(fds, e)) == []
  {
    var forReading := if e.readable then Tagged(e.fd, READ, Pending(fds, e.fd, READ)) else [];
    var forWriting := if e.writable then Tagged(e.fd, WRITE, Pending(fds, e.fd, WRITE)) else [];
    TaggedFor(e.fd, READ, Pending(fds, e.fd, READ), fd, event);
    TaggedFor(e.fd, WRITE, Pending(fds, e.fd, WRITE), fd, event);
    ForConcat(forReading, forWriting, fd, event);
    assert For([], fd, event) == [];
  }

  /** What it leaves is all the rest. */
  lemma LeftExact(fds: map<int, FdEntry>, e: Event, fd: int, event: EventType)
    ensures Pending(Left(fds, e), fd, event) == if Hits(e, fd, event) then [] else Pending(fds, fd, event)
  {
    var a := if e.readable then Without(fds, e.fd, READ) else fds;
    var b := if e.writable then Without(a, e.fd, WRITE) else a;
    WithoutPending(fds, e.fd, READ, fd, event);
    WithoutPending(a, e.fd, WRITE, fd, event);
    assert e.fd in b && b[e.fd] == map[] ==> event !in b[e.fd];
    assert Pending(Left(fds, e), fd, event) == Pending(b, fd, event);
  }

  /** Taking moves callbacks from what is pending to the hand. */
  lemma TakeKeeps(l: Loop, e: Event, fd: int, event: EventType)
    requires ConservedFor(l, [], fd, event) && ConservedTimeouts(l, [])
    ensures var l1 := l.(fds := Left(l.fds, e));
      ConservedFor(l1, Taken(l.fds, e), fd, event) && ConservedTimeouts(l1, Taken(l.fds, e))
  {
    TakenExact(l.fds, e, fd, event);
    LeftExact(l.fds, e, fd, event);
    var called, pending := For(l.called, fd, event), Pending(l.fds, fd, event);
    assert called + [] == called && pending + [] == pending && called + pending + [] == called + pending;
  }

  lemma DispatchKeeps(l: Loop, e: Event, effect: Effect, fd: int, event: EventType)
    requires ConservedFor(l, [], fd, event) && ConservedTimeouts(l, [])
    ensures ConservedFor(Dispatch(l, e, effect), [], fd, event) && ConservedTimeouts(Dispatch(l, e, effect), [])
  {
    TakeKeeps(l, e, fd, event);
    CallAllKeeps(l.(fds := Left(l.fds, e)), Taken(l.fds, e), effect, fd, event);
  }

  lemma {:induction false} DispatchAllKeeps(l: Loop, events: seq<Event>, effect: Effect, fd: int, event: EventType)
    requires ConservedFor(l, [], fd, event) && ConservedTimeouts(l, [])
    ensures ConservedFor(DispatchAll(l, events, effect), [], fd, event) && ConservedTimeouts(DispatchAll(l, events, effect), [])
    decreases |events|
  {
    if events != [] {
      DispatchKeeps(l, events[0], effect, fd, event);
      DispatchAllKeeps(Dispatch(l, events[0], effect), events[1..], effect, fd, event);
    }
  }

  lemma TimeOutKeeps(l: Loop, effect: Effect, fd: int, event: EventType)
    requires ConservedFor(l, [], fd, event) && ConservedTimeouts(l, [])
    ensures ConservedFor(TimeOut(l, effect), [], fd, event) && ConservedTimeouts(TimeOut(l, effect), [])
  {
    TimersFor(l.timeouts, fd, event);
    CallAllKeeps(l.(timeouts := []), Timers(l.timeouts), effect, fd, event);
  }

  lemma {:induction false} RegisterAllCalls(l: Loop, rs: seq<Registration>)
    ensures RegisterAll(l, rs).called == l.called
    decreases |rs|
  {
    if rs != [] {
      RegisterAllCalls(Register(l, rs[0]), rs[1..]);
    }
  }

  /** What has been taken is called, all of it and in that order, whatever is registered meanwhile. */
  lemma {:induction false} CallAllCalls(l: Loop, calls: seq<Registration>, effect: Effect)
    ensures CallAll(l, calls, effect).called == l.called + calls
    decreases |calls|
  {
    if calls != [] {
      var l1 := l.(called := l.called + [calls[0]]);
      RegisterAllCalls(l1, effect(calls[0].callback, |l.called|).registers);
      CallAllCalls(RegisterAll(l1, effect(calls[0].callback, |l.called|).registers), calls[1..], effect);
      assert l.called + [calls[0]] + calls[1..] == l.called + calls;
    }
  }

  /** No event of one descriptor calls what is registered for another. */
  lemma DispatchSilent(l: Loop, e: Event, effect: Effect, fd: int, event: EventType)
    requires e.fd != fd
    ensures For(Dispatch(l, e, effect).called, fd, event) == For(l.called, fd, event)
  {
    CallAllCalls(l.(fds := Left(l.fds, e)), Taken(l.fds, e), effect);
    ForConcat(l.called, Taken(l.fds, e), fd, event);
    TakenExact(l.fds, e, fd, event);
  }

  lemma {:induction false} DispatchAllSilent(l: Loop, events: seq<Event>, effect: Effect, fd: int, event: EventType)
    requires forall i :: 0 <= i < |events| ==> events[i].fd != fd
    ensures For(DispatchAll(l, events, effect).called, fd, event) == For(l.called, fd, event)
    decreases |events|
  {
    if events != [] {
      DispatchSilent(l, events[0], effect, fd, event);
      DispatchAllSilent(Dispatch(l, events[0], effect), events[1..], effect, fd, event);
    }
  }

  lemma TimeOutSilent(l: Loop, effect: Effect, fd: int, event: EventType)
    ensures For(TimeOut(l, effect).called, fd, event) == For(l.called, fd, event)
  {
    CallAllCalls(l.(timeouts := []), Timers(l.timeouts), effect);
    ForConcat(l.called, Timers(l.timeouts), fd, event);
    TimersFor(l.timeouts, fd, event);
  }

  // ------------------------------------------------------------------ no empty entries

  lemma {:induction false} RegisterAllNoEmpty(l: Loop, rs: seq<Registration>)
    requires NoEmptyEntry(l.fds)
    ensures NoEmptyEntry(RegisterAll(l, rs).fds)
    decreases |rs|
  {
    if rs != [] {
      RegisterAllNoEmpty(Register(l, rs[0]), rs[1..]);
    }
  }

  lemma {:induction false} CallAllNoEmpty(l: Loop, calls: seq<Registration>, effect: Effect)
    requires NoEmptyEntry(l.fds)
    ensures NoEmptyEntry(CallAll(l, calls, effect).fds)
    decreases |calls|
  {
    if calls != [] {
      var l1 := l.(called := l.called + [calls[0]]);
      var more := effect(calls[0].callback, |l.called|).registers;
      RegisterAllNoEmpty(l1, more);
      CallAllNoEmpty(RegisterAll(l1, more), calls[1..], effect);
    }
  }

  lemma LeftNoEmpty(fds: map<int, FdEntry>, e: Event)
    requires NoEmptyEntry(fds)
    ensures NoEmptyEntry(Left(fds, e))
  {
  }

  lemma {:induction false} DispatchAllNoEmpty(l: Loop, events: seq<Event>, effect: Effect)
    requires NoEmptyEntry(l.fds)
    ensures NoEmptyEntry(DispatchAll(l, events, effect).fds)
    decreases |events|
  {
    if events != [] {
      LeftNoEmpty(l.fds, events[0]);
      CallAllNoEmpty(l.(fds := Left(l.fds, events[0])), Taken(l.fds, events[0]), effect);
      DispatchAllNoEmpty(Dispatch(l, events[0], effect), events[1..], effect);
    }
  }

  lemma NothingPending(fds: map<int, FdEntry>)
    requires NoEmptyEntry(fds)
    ensures fds == map[] <==> forall fd, event :: Pending(fds, fd, event) == []
  {
    if fds != map[] {
      var fd := Member(fds.Keys);
      var event := Member(fds[fd].Keys);
      assert Pending(fds, fd, event) != [];
    }
  }
}
