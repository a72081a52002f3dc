/** project/io/event_loop.hpp as an object whose maps and vectors change inside its loop. */
module EventLoopObjects {
  import opened Wire
  import opened EventLoops
  import opened EventMasks
  import Spec = EventRuns
  import opened EventRuns

  class EventLoop {
    const effect: Effect
    var fdCallbacks: map<int, FdEntry>
    var timeoutCallbacks: seq<Callback>
    var eventState: Masks
    var epoll: Masks
    var open: set<int>
    var registered: seq<Registration>
    var called: seq<Registration>

    ghost function Loop(): Loop
      reads this
    {
      EventLoops.Loop(fdCallbacks, timeoutCallbacks, registered, called)
    }

    ghost function Value(): Machine
      reads this
    {
      Machine(Loop(), eventState, epoll, open)
    }

    constructor (effect: Effect, open: set<int>)
      ensures this.effect == effect && Value() == Begin([], open)
    {
      this.effect, this.open := effect, open;
      fdCallbacks, timeoutCallbacks, eventState, epoll := map[], [], map[], map[];
      registered, called := [], [];
    }

    method AddFdCallback(fd: int, event: EventType, callback: Callback)
      modifies this`fdCallbacks, this`registered
      ensures Loop() == Register(old(Loop()), OnFd(fd, event, callback))
    {
      registered := registered + [OnFd(fd, event, callback)];
      if fd !in fdCallbacks {
        fdCallbacks := fdCallbacks[fd := map[]];
      }
      if event !in fdCallbacks[fd] {
        fdCallbacks := fdCallbacks[fd := fdCallbacks[fd][event := [callback]]];
      } else {
        fdCallbacks := fdCallbacks[fd := fdCallbacks[fd][event := fdCallbacks[fd][event] + [callback]]];
      }
      assert [] + [callback] == [callback];
      assert fdCallbacks == AddFd(old(fdCallbacks), fd, event, callback);
    }

    method AddTimeoutCallback(callback: Callback)
      modifies this`timeoutCallbacks, this`registered
      ensures Loop() == Register(old(Loop()), OnTimeout(callback))
    {
      registered := registered + [OnTimeout(callback)];
      timeoutCallbacks := timeoutCallbacks + [callback];
    }

    /** One call of a callback, which registers others, and closes and opens descriptors. */
    method Call(r: Registration)
      modifies this`fdCallbacks, this`timeoutCallbacks, this`registered, this`called, this`epoll, this`open
      ensures var reaction := effect(r.callback, |old(called)|);
        && Loop() == RegisterAll(old(Loop()).(called := old(called) + [r]), reaction.registers)
        && epoll == old(epoll) - reaction.closes
        && open == old(open) - reaction.closes + reaction.opens
    {
      var reaction := effect(r.callback, |called|);
      var more := reaction.registers;
      called := called + [r];
      epoll := epoll - reaction.closes;
      open := open - reaction.closes + reaction.opens;
      ghost var start := Loop();
      var i := 0;
      while i < |more|
        invariant i <= |more|
        invariant RegisterAll(Loop(), more[i..]) == RegisterAll(start, more)
        invariant epoll == old(epoll) - reaction.closes && open == old(open) - reaction.closes + reaction.opens
      {
        assert more[i..][0] == more[i] && more[i..][1..] == more[i + 1..];
        match more[i] {
          case OnFd(fd, event, callback) => AddFdCallback(fd, event, callback);
          case OnTimeout(callback) => AddTimeoutCallback(callback);
        }
        i := i + 1;
      }
    }

    method CallEach(calls: seq<Registration>)
      modifies this`fdCallbacks, this`timeoutCallbacks, this`registered, this`called, this`epoll, this`open
      ensures Loop() == CallAll(old(Loop()), calls, effect)
      ensures epoll == old(epoll) - Closed(old(Loop()), calls, effect)
      ensures open == Open(old(Loop()), calls, effect, old(open))
    {
      ghost var l, e, o := Loop(), epoll, open;
      var i := 0;
      while i < |calls|
        invariant i <= |calls|
        invariant CallAll(Loop(), calls[i..], effect) == CallAll(l, calls, effect)
        invariant epoll - Closed(Loop(), calls[i..], effect) == e - Closed(l, calls, effect)
        invariant Open(Loop(), calls[i..], effect, open) == Open(l, calls, effect, o)
      {
        assert calls[i..][0] == calls[i] && calls[i..][1..] == calls[i + 1..];
        ghost var reaction := effect(calls[i].callback, |called|);
        ghost var before, now := epoll, Loop();
        Call(calls[i]);
        ghost var rest := Closed(Loop(), calls[i + 1..], effect);
        assert Closed(now, calls[i..], effect) == reaction.closes + rest;
        assert before - reaction.closes - rest == before - (reaction.closes + rest);
        i := i + 1;
      }
    }

    /** `take_fd_event_callbacks`: appends what is pending, and erases it. */
    method TakeFdEventCallbacks(dest: seq<Registration>, fd: int, event: EventType) returns (r: seq<Registration>)
      modifies this`fdCallbacks
      ensures r == dest + Tagged(fd, event, Pending(old(fdCallbacks), fd, event))
      ensures fdCallbacks == Without(old(fdCallbacks), fd, event)
    {
      if fd !in fdCallbacks {
        fdCallbacks := fdCallbacks[fd := map[]];
      }
      if event !in fdCallbacks[fd] {
        fdCallbacks := fdCallbacks[fd := fdCallbacks[fd][event := []]];
      }
      var callbacks := fdCallbacks[fd][event];
      r := dest;
      var i := 0;
      while i < |callbacks|
        invariant i <= |callbacks|
        invariant r + Tagged(fd, event, callbacks[i..]) == dest + Tagged(fd, event, callbacks)
      {
        var one := [OnFd(fd, event, callbacks[i])];
        assert callbacks[i..][0] == callbacks[i] && callbacks[i..][1..] == callbacks[i + 1..];
        assert r + (one + Tagged(fd, event, callbacks[i + 1..])) == (r + one) + Tagged(fd, event, callbacks[i + 1..]);
        r := r + one;
        i := i + 1;
      }
      assert r + [] == r;
      fdCallbacks := fdCallbacks[fd := fdCallbacks[fd] - {event}];
      ghost var was := old(fdCallbacks);
      assert fdCallbacks[fd] == (if fd in was then was[fd] else map[]) - {event};
      assert fdCallbacks == Without(was, fd, event);
    }

    /** `take_fd_callbacks`. */
    method TakeFdCallbacks(e: Event) returns (r: seq<Registration>)
      modifies this`fdCallbacks
      ensures r == Taken(old(fdCallbacks), e) && fdCallbacks == Left(old(fdCallbacks), e)
    {
      r := [];
      if e.readable {
        r := TakeFdEventCallbacks(r, e.fd, READ);
      }
      if e.writable {
        r := TakeFdEventCallbacks(r, e.fd, WRITE);
      }
      EraseIfEmpty(e.fd);
    }

    method EraseIfEmpty(fd: int)
      modifies this`fdCallbacks
      ensures var was := old(fdCallbacks);
        fdCallbacks == if fd !in was || was[fd] == map[] then was - {fd} else was
    {
      if fd !in fdCallbacks {
        fdCallbacks := fdCallbacks[fd := map[]];
      }
      if fdCallbacks[fd] == map[] {
        fdCallbacks := fdCallbacks - {fd};
      }
    }

    /** `epoll_ctl`. */
    method EpollCtl(op: Op) returns (ok: bool)
      modifies this`epoll
      ensures var r := Ctl(open, old(epoll), [op]); ok == r.Some? && epoll == if ok then r.get else old(epoll)
    {
      OneReplayed(epoll, op);
      match op {
        case Add(fd, mask) =>
          ok := fd !in epoll && fd in open;
          if ok {
            epoll := epoll[fd := mask];
          }
        case Mod(fd, mask) =>
          ok := fd in epoll;
          if ok {
            epoll := epoll[fd := mask];
          }
        case Del(fd) =>
          ok := fd in epoll;
          if ok {
            epoll := epoll - {fd};
          }
      }
    }

    /** The body of the loop of `prepare_events`, for one descriptor. */
    method PrepareOne(fd: int) returns (ok: bool)
      requires fd in fdCallbacks
      modifies this`eventState, this`epoll
      ensures eventState == old(eventState)[fd := MaskFor(fdCallbacks[fd], old(eventState), fd)]
      ensures var r := Ctl(open, old(epoll), OpFor(fdCallbacks[fd], old(eventState), fd));
        ok == r.Some? && epoll == if ok then r.get else old(epoll)
    {
      var entry := fdCallbacks[fd];
      ok := true;
      if fd !in eventState {
        var events := ALWAYS;
        if READ in entry {
          events := events.(reading := true);
        }
        if WRITE in entry {
          events := events.(writing := true);
        }
        eventState := eventState[fd := events];
        ok := EpollCtl(Add(fd, events));
      } else {
        var events := eventState[fd];
        events := events.(reading := READ in entry);
        events := events.(writing := WRITE in entry);
        if events != eventState[fd] {
          eventState := eventState[fd := events];
          ok := EpollCtl(Mod(fd, events));
        } else {
          assert eventState[fd := events] == eventState;
        }
      }
    }

    method PrepareAll(keys: seq<int>) returns (ok: bool)
      requires KeysIn(keys, fdCallbacks)
      modifies this`eventState, this`epoll
      ensures (eventState, epoll, ok) == PrepareInto(fdCallbacks, keys, old(eventState), old(epoll), open)
    {
      var i := 0;
      while i < |keys|
        invariant i <= |keys|
        invariant PrepareInto(fdCallbacks, keys[i..], eventState, epoll, open) ==
                  PrepareInto(fdCallbacks, keys, old(eventState), old(epoll), open)
      {
        assert keys[i..][0] == keys[i] && keys[i..][1..] == keys[i + 1..];
        ok := PrepareOne(keys[i]);
        if !ok {
          return false;
        }
        i := i + 1;
      }
      return true;
    }

    /** `prepare_events`; throws when epoll_ctl fails, after what it has done. */
    method PrepareEvents() returns (ok: bool)
      modifies this`eventState, this`epoll
      ensures (Value(), ok) == Monitor(old(Value()))
    {
      ok := PrepareAll(Sorted(fdCallbacks.Keys));
    }

    /** What has drained, among the monitored descriptors. */
    method FindDrained(keys: seq<int>) returns (fds: seq<int>)
      ensures Deletions(fds) == Prune(fdCallbacks, keys)
    {
      fds := [];
      var i := 0;
      while i < |keys|
        invariant i <= |keys|
        invariant Deletions(fds) == Prune(fdCallbacks, keys[..i])
      {
        PruneNext(fdCallbacks, keys, i);
        if keys[i] !in fdCallbacks {
          DeletionsNext(fds, keys[i]);
          fds := fds + [keys[i]];
        }
        i := i + 1;
      }
      assert keys[..i] == keys;
    }

    static lemma {:induction false} PruneNext(fds: map<int, FdEntry>, keys: seq<int>, i: nat)
      requires i < |keys|
      ensures Prune(fds, keys[..i + 1]) == Prune(fds, keys[..i]) + if keys[i] in fds then [] else [Del(keys[i])]
    {
      if i == 0 {
        assert keys[..1][1..] == [];
      } else {
        assert keys[..i + 1][1..] == keys[1..][..i] && keys[..i][1..] == keys[1..][..i - 1];
        PruneNext(fds, keys[1..], i - 1);
      }
    }

    /** `prune_events`: finds what has drained, then deletes it from epoll; throws when epoll_ctl fails. */
    method PruneEvents() returns (ok: bool)
      modifies this`epoll
      ensures (Value(), ok) == Clean(old(Value()))
    {
      var deletable := FindDrained(Sorted(eventState.Keys));
      ok := DeleteAll(deletable);
    }

    static function Deletions(fds: seq<int>): seq<Op> {
      if fds == [] then [] else [Del(fds[0])] + Deletions(fds[1..])
    }

    static lemma {:induction false} DeletionsNext(fds: seq<int>, fd: int)
      ensures Deletions(fds + [fd]) == Deletions(fds) + [Del(fd)]
    {
      if fds == [] {
        assert [] + [fd] == [fd] && [fd][1..] == [];
      } else {
        assert (fds + [fd])[1..] == fds[1..] + [fd];
        DeletionsNext(fds[1..], fd);
      }
    }

    method DeleteAll(fds: seq<int>) returns (ok: bool)
      modifies this`epoll
      ensures (epoll, ok) == Emit(old(epoll), Deletions(fds))
    {
      var i := 0;
      while i < |fds|
        invariant i <= |fds|
        invariant Emit(epoll, Deletions(fds[i..])) == Emit(old(epoll), Deletions(fds))
      {
        assert fds[i..][0] == fds[i] && fds[i..][1..] == fds[i + 1..];
        assert Deletions(fds[i..])[..1] == [Del(fds[i])] && Deletions(fds[i..])[1..] == Deletions(fds[i + 1..]);
        ok := EpollCtl(Del(fds[i]));
        if !ok {
          return false;
        }
        i := i + 1;
      }
      return true;
    }

    /** One turn of the loop of `start`. */
    method Turn(wait: Wait) returns (ok: bool)
      modifies this
      ensures (Value(), ok) == Spec.Turn(old(Value()), wait, effect)
    {
      ok := PrepareEvents();
      if !ok {
        return false;
      }
      match Answer(epoll, wait) {
        case WaitFails =>
          return false;
        case TimedOut =>
          var callbacks := Timers(timeoutCallbacks);
          timeoutCallbacks := [];
          CallEach(callbacks);
          return true;
        case Ready(events) =>
          DispatchEvents(events);
          ok := PruneEvents();
      }
    }

    /** The events of one epoll_wait. */
    method DispatchEvents(events: seq<Event>)
      modifies this`fdCallbacks, this`timeoutCallbacks, this`registered, this`called, this`epoll, this`open
      ensures Loop() == DispatchAll(old(Loop()), events, effect)
      ensures epoll == old(epoll) - DispatchAllCloses(old(Loop()), events, effect)
      ensures open == DispatchAllOpen(old(Loop()), events, effect, old(open))
    {
      ghost var l, e, o := Loop(), epoll, open;
      var i := 0;
      while i < |events|
        invariant i <= |events|
        invariant DispatchAll(Loop(), events[i..], effect) == DispatchAll(l, events, effect)
        invariant epoll - DispatchAllCloses(Loop(), events[i..], effect) == e - DispatchAllCloses(l, events, effect)
        invariant DispatchAllOpen(Loop(), events[i..], effect, open) == DispatchAllOpen(l, events, effect, o)
      {
        assert events[i..][0] == events[i] && events[i..][1..] == events[i + 1..];
        ghost var before, now := epoll, Loop();
        DispatchOne(events[i]);
        ghost var closed, rest := DispatchCloses(now, events[i], effect), DispatchAllCloses(Loop(), events[i + 1..], effect);
        assert DispatchAllCloses(now, events[i..], effect) == closed + rest;
        assert before - closed - rest == before - (closed + rest);
        i := i + 1;
      }
    }

    method DispatchOne(e: Event)
      modifies this`fdCallbacks, this`timeoutCallbacks, this`registered, this`called, this`epoll, this`open
      ensures Loop() == Dispatch(old(Loop()), e, effect)
      ensures epoll == old(epoll) - DispatchCloses(old(Loop()), e, effect)
      ensures open == DispatchOpen(old(Loop()), e, effect, old(open))
    {
      var callbacks := TakeFdCallbacks(e);
      CallEach(callbacks);
    }

    /** `start`, with a new epoll. */
    method Start(waits: seq<Wait>) returns (end: End)
      modifies this
      ensures (Value(), end) == Run(Again(old(Value()), []), waits, effect)
    {
      epoll := map[];
      var i := 0;
      while fdCallbacks != map[] && i < |waits|
        invariant i <= |waits|
        invariant Run(Value(), waits[i..], effect) == Run(Again(old(Value()), []), waits, effect)
      {
        assert waits[i..][0] == waits[i] && waits[i..][1..] == waits[i + 1..];
        var ok := Turn(waits[i]);
        if !ok {
          return Thrown;
        }
        i := i + 1;
      }
      return if fdCallbacks == map[] then Finished else Waiting;
    }
  }
}
