/** project/io/event_loop.hpp, prepare_events and prune_events: what is asked of epoll. */
module EventMasks {
  import opened Basics
  import opened Wire
  import opened EventLoops

  /** The bits of an epoll mask that the loop uses. */
  datatype Mask = Mask(reading: bool, writing: bool, pri: bool, err: bool, hup: bool, edge: bool)

  /** EPOLLPRI | EPOLLERR | EPOLLHUP | EPOLLET. */
  const ALWAYS := Mask(false, false, true, true, true, true)

  datatype Op = Add(fd: int, mask: Mask) | Mod(fd: int, mask: Mask) | Del(fd: int)

  type Masks = map<int, Mask>

  /** The mask for a descriptor: from scratch when it is not monitored, else the one it has with the bits for
      reading and writing put right. */
  function MaskFor(entry: FdEntry, masks: Masks, fd: int): Mask {
    if fd !in masks then ALWAYS.(reading := READ in entry, writing := WRITE in entry)
    else
      var m := if READ in entry then masks[fd].(reading := true) else masks[fd].(reading := false);
      if WRITE in entry then m.(writing := true) else m.(writing := false)
  }

  /** What is asked for one descriptor: nothing when its mask is already right. */
  function OpFor(entry: FdEntry, masks: Masks, fd: int): seq<Op> {
    var mask := MaskFor(entry, masks, fd);
    if fd !in masks then [Add(fd, mask)] else if masks[fd] != mask then [Mod(fd, mask)] else []
  }

  predicate KeysIn(keys: seq<int>, fds: map<int, FdEntry>) {
    forall i :: 0 <= i < |keys| ==> keys[i] in fds
  }

  /** `prepare_events`, descriptor by descriptor: the new masks, and the calls of epoll_ctl. */
  function Prepare(fds: map<int, FdEntry>, keys: seq<int>, masks: Masks): (Masks, seq<Op>)
    requires KeysIn(keys, fds)
    decreases |keys|
  {
    if keys == [] then (masks, [])
    else
      var fd := keys[0];
      var (after, ops) := Prepare(fds, keys[1..], masks[fd := MaskFor(fds[fd], masks, fd)]);
      (after, OpFor(fds[fd], masks, fd) + ops)
  }

  function PrepareEvents(fds: map<int, FdEntry>, masks: Masks): (Masks, seq<Op>) {
    Prepare(fds, Sorted(fds.Keys), masks)
  }

  /** `prune_events`: the monitored descriptors that nothing is pending for. */
  function Prune(fds: map<int, FdEntry>, keys: seq<int>): seq<Op> {
    if keys == [] then [] else (if keys[0] in fds then [] else [Del(keys[0])]) + Prune(fds, keys[1..])
  }

  // ------------------------------------------------------------------ the masks

  predicate MaskOk(mask: Mask) {
    mask.pri && mask.err && mask.hup && mask.edge
  }

  predicate MasksOk(masks: Masks) {
    forall fd :: fd in masks ==> MaskOk(masks[fd])
  }

  /** The mask asks for what the entry waits for, and for what is always asked. */
  predicate Right(mask: Mask, entry: FdEntry) {
    (mask.reading <==> READ in entry) && (mask.writing <==> WRITE in entry) && MaskOk(mask)
  }

  lemma {:induction false} PrepareAt(fds: map<int, FdEntry>, keys: seq<int>, masks: Masks, fd: int)
    requires KeysIn(keys, fds) && Ascending(keys)
    ensures var after := Prepare(fds, keys, masks).0;
      && (fd in keys ==> fd in fds && fd in after && after[fd] == MaskFor(fds[fd], masks, fd))
      && (fd !in keys ==> (fd in after <==> fd in masks) && (fd in masks ==> after[fd] == masks[fd]))
    decreases |keys|
  {
    if keys != [] {
      AscendingTail(keys);
      PrepareAt(fds, keys[1..], masks[keys[0] := MaskFor(fds[keys[0]], masks, keys[0])], fd);
    }
  }

  /** After prepare_events every pending descriptor is asked for exactly what is pending, and no other mask
      has changed. */
  lemma MaskDerivation(fds: map<int, FdEntry>, masks: Masks, fd: int)
    requires NoEmptyEntry(fds) && MasksOk(masks)
    ensures var after := PrepareEvents(fds, masks).0;
      && (fd in fds ==>
            && fd in after && MaskOk(after[fd])
            && (after[fd].reading <==> Pending(fds, fd, READ) != [])
            && (after[fd].writing <==> Pending(fds, fd, WRITE) != []))
      && (fd !in fds ==> (fd in after <==> fd in masks) && (fd in masks ==> after[fd] == masks[fd]))
  {
    var keys := Sorted(fds.Keys);
    PrepareAt(fds, keys, masks, fd);
    if fd in fds {
      assert Right(MaskFor(fds[fd], masks, fd), fds[fd]);
    }
  }

  lemma MasksStayOk(fds: map<int, FdEntry>, masks: Masks)
    requires NoEmptyEntry(fds) && MasksOk(masks)
    ensures MasksOk(PrepareEvents(fds, masks).0)
  {
    forall fd | fd in PrepareEvents(fds, masks).0 ensures MaskOk(PrepareEvents(fds, masks).0[fd]) {
      MaskDerivation(fds, masks, fd);
    }
  }

  // ------------------------------------------------------------------ the operations

  /** What epoll makes of the calls: an addition must be new; a change or a deletion must not. */
  function Replay(masks: Masks, ops: seq<Op>): Maybe<Masks>
    decreases |ops|
  {
    if ops == [] then Some(masks)
    else
      match ops[0]
      case Add(fd, mask) => if fd in masks then None else Replay(masks[fd := mask], ops[1..])
      case Mod(fd, mask) => if fd in masks then Replay(masks[fd := mask], ops[1..]) else None
      case Del(fd) => if fd in masks then Replay(masks - {fd}, ops[1..]) else None
  }

  lemma {:induction false} PrepareReplays(fds: map<int, FdEntry>, keys: seq<int>, masks: Masks)
    requires KeysIn(keys, fds)
    ensures var (after, ops) := Prepare(fds, keys, masks); Replay(masks, ops) == Some(after)
    decreases |keys|
  {
    if keys != [] {
      var fd := keys[0];
      var next := masks[fd := MaskFor(fds[fd], masks, fd)];
      PrepareReplays(fds, keys[1..], next);
      var op, rest := OpFor(fds[fd], masks, fd), Prepare(fds, keys[1..], next).1;
      if op == [] {
        assert next == masks && op + rest == rest;
      } else {
        assert (op + rest)[1..] == rest;
      }
    }
  }

  /** Replaying the emitted operations on the old masks is accepted, and gives the new ones. */
  lemma OperationsReplay(fds: map<int, FdEntry>, masks: Masks)
    ensures var (after, ops) := PrepareEvents(fds, masks); Replay(masks, ops) == Some(after)
  {
    PrepareReplays(fds, Sorted(fds.Keys), masks);
  }

  lemma {:induction false} ReplaySplit(epoll: Masks, a: seq<Op>, b: seq<Op>)
    ensures Replay(epoll, a + b) == if Replay(epoll, a).None? then None else Replay(Replay(epoll, a).get, b)
    decreases |a|
  {
    if a == [] {
      assert a + b == b;
    } else {
      assert (a + b)[1..] == a[1..] + b;
      match a[0]
      case Add(fd, mask) => ReplaySplit(epoll[fd := mask], a[1..], b);
      case Mod(fd, mask) => ReplaySplit(epoll[fd := mask], a[1..], b);
      case Del(fd) => ReplaySplit(epoll - {fd}, a[1..], b);
    }
  }

  // ------------------------------------------------------------------ operations that may be refused

  /** One call of epoll_ctl, if any: only what is open can be added. */
  function Ctl(open: set<int>, epoll: Masks, op: seq<Op>): Maybe<Masks> {
    if op != [] && op[0].Add? && op[0].fd !in open then None else Replay(epoll, op)
  }

  /** `prepare_events` with epoll's reaction, up to the first call that epoll refuses. What is remembered is
      changed before the call is made. */
  function PrepareInto(fds: map<int, FdEntry>, keys: seq<int>, masks: Masks, epoll: Masks, open: set<int>): (Masks, Masks, bool)
    requires KeysIn(keys, fds)
    decreases |keys|
  {
    if keys == [] then (masks, epoll, true)
    else
      var fd := keys[0];
      var next := masks[fd := MaskFor(fds[fd], masks, fd)];
      match Ctl(open, epoll, OpFor(fds[fd], masks, fd))
      case None => (next, epoll, false)
      case Some(e) => PrepareInto(fds, keys[1..], next, e, open)
  }

  /** Calls of epoll_ctl, up to the first that epoll refuses. */
  function Emit(epoll: Masks, ops: seq<Op>): (Masks, bool)
    decreases |ops|
  {
    if ops == [] then (epoll, true)
    else
      match Replay(epoll, ops[..1])
      case None => (epoll, false)
      case Some(e) => Emit(e, ops[1..])
  }

  /** When nothing is refused this is `prepare_events`, and the replay of what it asks for. */
  lemma {:induction false} PrepareIntoReplays(fds: map<int, FdEntry>, keys: seq<int>, masks: Masks, epoll: Masks, open: set<int>)
    requires KeysIn(keys, fds)
    ensures var (after, ops) := Prepare(fds, keys, masks); var (m, e, ok) := PrepareInto(fds, keys, masks, epoll, open);
      ok ==> m == after && Replay(epoll, ops) == Some(e)
    decreases |keys|
  {
    if keys != [] {
      var fd := keys[0];
      var next := masks[fd := MaskFor(fds[fd], masks, fd)];
      var op, rest := OpFor(fds[fd], masks, fd), Prepare(fds, keys[1..], next).1;
      ReplaySplit(epoll, op, rest);
      if Ctl(open, epoll, op).Some? {
        PrepareIntoReplays(fds, keys[1..], next, Ctl(open, epoll, op).get, open);
      }
    }
  }

  /** What is remembered of what epoll has is right. */
  ghost predicate InStep(masks: Masks, epoll: Masks) {
    forall fd :: fd in epoll ==> fd in masks && epoll[fd] == masks[fd]
  }

  /** epoll accepts what is asked for one descriptor: a new one that is open and that it does not
      have, or a change to one it has. */
  predicate Accepted(entry: FdEntry, masks: Masks, epoll: Masks, open: set<int>, fd: int) {
    if fd !in masks then fd !in epoll && fd in open else MaskFor(entry, masks, fd) != masks[fd] ==> fd in epoll
  }

  lemma OneReplayed(epoll: Masks, op: Op)
    ensures op.Add? ==> Replay(epoll, [op]) == if op.fd in epoll then None else Some(epoll[op.fd := op.mask])
    ensures op.Mod? ==> Replay(epoll, [op]) == if op.fd in epoll then Some(epoll[op.fd := op.mask]) else None
    ensures op.Del? ==> Replay(epoll, [op]) == if op.fd in epoll then Some(epoll - {op.fd}) else None
  {
    assert [op][1..] == [];
  }

  /** One descriptor: whether epoll accepts it, and what becomes of the two records of it and of others. */
  lemma OneAccepted(entry: FdEntry, masks: Masks, epoll: Masks, open: set<int>, fd: int)
    ensures var r := Ctl(open, epoll, OpFor(entry, masks, fd)); var next := masks[fd := MaskFor(entry, masks, fd)];
      && (r.Some? <==> Accepted(entry, masks, epoll, open, fd))
      && (r.Some? ==>
            && (fd in r.get <==> fd in epoll || fd !in masks)
            && (forall x :: x != fd ==> (x in r.get <==> x in epoll) && (x in epoll ==> r.get[x] == epoll[x]))
            && (InStep(masks, epoll) ==> InStep(next, r.get)))
      && (r.None? && InStep(masks, epoll) ==> InStep(next, epoll))
  {
    var mask := MaskFor(entry, masks, fd);
    OneReplayed(epoll, Add(fd, mask));
    OneReplayed(epoll, Mod(fd, mask));
  }

  lemma SameAccepted(entry: FdEntry, masks: Masks, epoll: Masks, masks2: Masks, epoll2: Masks, open: set<int>, fd: int)
    requires (fd in masks <==> fd in masks2) && (fd in masks ==> masks[fd] == masks2[fd])
    requires fd in epoll <==> fd in epoll2
    ensures Accepted(entry, masks2, epoll2, open, fd) == Accepted(entry, masks, epoll, open, fd)
  {
  }

  /** Exactly when `prepare_events` gets through. */
  lemma {:induction false} PrepareIntoExact(fds: map<int, FdEntry>, keys: seq<int>, masks: Masks, epoll: Masks, open: set<int>)
    requires KeysIn(keys, fds) && Ascending(keys)
    ensures PrepareInto(fds, keys, masks, epoll, open).2 <==> forall fd :: fd in keys ==> fd in fds && Accepted(fds[fd], masks, epoll, open, fd)
    decreases |keys|
  {
    if keys != [] {
      var fd := keys[0];
      AscendingTail(keys);
      OneAccepted(fds[fd], masks, epoll, open, fd);
      var r := Ctl(open, epoll, OpFor(fds[fd], masks, fd));
      if r.Some? {
        var next := masks[fd := MaskFor(fds[fd], masks, fd)];
        PrepareIntoExact(fds, keys[1..], next, r.get, open);
        forall x | x in keys[1..] && x in fds ensures Accepted(fds[x], next, r.get, open, x) == Accepted(fds[x], masks, epoll, open, x) {
          SameAccepted(fds[x], masks, epoll, next, r.get, open, x);
        }
      }
    }
  }

  /** What it leaves: it watches what it did, and what it had never seen; and it stays in step, even when it is
      refused. */
  lemma {:induction false} PrepareIntoWatches(fds: map<int, FdEntry>, keys: seq<int>, masks: Masks, epoll: Masks, open: set<int>, fd: int)
    requires KeysIn(keys, fds) && Ascending(keys)
    ensures var (m, e, ok) := PrepareInto(fds, keys, masks, epoll, open);
      && (InStep(masks, epoll) ==> InStep(m, e))
      && (fd in masks ==> fd in m && (fd in e <==> fd in epoll))
      && (ok ==> (fd in e <==> fd in epoll || (fd in keys && fd !in masks)) && (fd in m <==> fd in masks || fd in keys))
    decreases |keys|
  {
    if keys != [] {
      var k := keys[0];
      AscendingTail(keys);
      OneAccepted(fds[k], masks, epoll, open, k);
      var r := Ctl(open, epoll, OpFor(fds[k], masks, k));
      if r.Some? {
        PrepareIntoWatches(fds, keys[1..], masks[k := MaskFor(fds[k], masks, k)], r.get, open, fd);
      }
    }
  }

  lemma {:induction false} NothingToDo(fds: map<int, FdEntry>, keys: seq<int>, masks: Masks)
    requires KeysIn(keys, fds)
    requires forall i :: 0 <= i < |keys| ==> keys[i] in masks && masks[keys[i]] == MaskFor(fds[keys[i]], masks, keys[i])
    ensures Prepare(fds, keys, masks) == (masks, [])
    decreases |keys|
  {
    if keys != [] {
      var next := masks[keys[0] := MaskFor(fds[keys[0]], masks, keys[0])];
      assert next == masks;
      NothingToDo(fds, keys[1..], masks);
      assert OpFor(fds[keys[0]], masks, keys[0]) + [] == [];
    }
  }

  lemma MaskForStable(entry: FdEntry, masks: Masks, after: Masks, fd: int)
    requires fd in after && after[fd] == MaskFor(entry, masks, fd)
    ensures MaskFor(entry, after, fd) == after[fd]
  {
  }

  /** A second call changes nothing and asks for nothing. */
  lemma PrepareTwice(fds: map<int, FdEntry>, masks: Masks)
    ensures var after := PrepareEvents(fds, masks).0; PrepareEvents(fds, after) == (after, [])
  {
    var keys := Sorted(fds.Keys);
    var after := PrepareEvents(fds, masks).0;
    forall i | 0 <= i < |keys| ensures keys[i] in after && after[keys[i]] == MaskFor(fds[keys[i]], after, keys[i]) {
      assert keys[i] in keys;
      PrepareAt(fds, keys, masks, keys[i]);
      MaskForStable(fds[keys[i]], masks, after, keys[i]);
    }
    NothingToDo(fds, keys, after);
  }

  // ------------------------------------------------------------------ pruning

  /** Exactly when `prune_events` gets through, and what it leaves. */
  lemma {:induction false} PruneInto(fds: map<int, FdEntry>, keys: seq<int>, epoll: Masks)
    requires Ascending(keys)
    ensures var (e, ok) := Emit(epoll, Prune(fds, keys));
      && (ok <==> forall fd :: fd in keys && fd !in fds ==> fd in epoll)
      && (forall fd :: fd in e ==> fd in epoll && e[fd] == epoll[fd])
      && (ok ==> forall fd :: fd in e <==> fd in epoll && (fd in keys ==> fd in fds))
    decreases |keys|
  {
    if keys != [] {
      AscendingTail(keys);
      var ops := Prune(fds, keys);
      if keys[0] in fds {
        assert ops == Prune(fds, keys[1..]);
        PruneInto(fds, keys[1..], epoll);
      } else {
        assert ops[..1] == [Del(keys[0])] && ops[1..] == Prune(fds, keys[1..]);
        OneReplayed(epoll, Del(keys[0]));
        if keys[0] in epoll {
          PruneInto(fds, keys[1..], epoll - {keys[0]});
        }
      }
    }
  }

  /** prune_events gets through if and only if epoll still has everything that has drained, and then takes away
      just that; the loop goes on remembering it, so that when the two agreed before they agree afterwards exactly
      if nothing had drained. */
  lemma PruneExact(fds: map<int, FdEntry>, masks: Masks, epoll: Masks)
    ensures var (e, ok) := Emit(epoll, Prune(fds, Sorted(masks.Keys)));
      && (ok <==> forall fd :: fd in masks && fd !in fds ==> fd in epoll)
      && (ok ==> forall fd :: fd in e <==> fd in epoll && (fd in masks ==> fd in fds))
      && (ok && (forall fd :: fd in masks ==> fd in epoll) ==>
            ((forall fd :: fd in masks ==> fd in e) <==> (forall fd :: fd in masks ==> fd in fds)))
  {
    PruneInto(fds, Sorted(masks.Keys), epoll);
  }

  /** After one prune that got through, another gets through if and only if everything that had drained at the
      first one is pending at the second. */
  lemma SecondPruneExact(fds: map<int, FdEntry>, later: map<int, FdEntry>, masks: Masks, epoll: Masks)
    requires forall fd :: fd in masks && fd in fds ==> fd in epoll
    requires Emit(epoll, Prune(fds, Sorted(masks.Keys))).1
    ensures var e := Emit(epoll, Prune(fds, Sorted(masks.Keys))).0;
      Emit(e, Prune(later, Sorted(masks.Keys))).1 <==> forall fd :: fd in masks && fd !in fds ==> fd in later
  {
    PruneExact(fds, masks, epoll);
    PruneExact(later, masks, Emit(epoll, Prune(fds, Sorted(masks.Keys))).0);
  }
}
