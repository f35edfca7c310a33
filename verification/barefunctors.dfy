/** send() and shutdown() called by another thread queue a functor bound to the connection's bare address
    (src/TcpConnection.cpp lines 75 and 154), which does not keep the connection alive. This module says
    exactly when such a functor can be started after its connection has been freed. */
module BareFunctors {
  import opened Kernel
  import opened Registry
  import opened Naming
  import opened ThreadPool
  import opened Lifecycle
  import opened LifeProofs
  import opened LifeTheorems

  // ------------------------------------------------------------------ what a step does to a loop's queue

  /** What a step of loop l itself does to its phase, its active list and its queues. */
  function LocalMove(ls: LoopState, step: Step, l: LoopId): LoopState {
    match step
    case PollReturn(k, active) => if k == l then ls.(phase := Handling, active := active) else ls
    case Handle(k, _) => if k == l && ls.active != [] then ls.(active := ls.active[1..]) else ls
    case Swap(k) => if k == l then ls.(phase := Calling, batch := ls.pending, next := 0, pending := []) else ls
    case RunNext(k) => if k == l then StartNext(ls) else ls
    case Leave(k) => if k == l then ls.(phase := Polling, batch := [], next := 0) else ls
    case _ => ls
  }

  /** The functor a step queues, and on which loop; no step queues two. */
  ghost function Posted(s: Server, step: Step): Option<(LoopId, Task)>
    requires Enabled(s, step)
  {
    match step
    case Accept(_) => if NextLoop(s.pool) == s.pool.base then None else Some((NextLoop(s.pool), Establish(s.nextId)))
    case Handle(l, close) =>
      if !close then None
      else if l == s.pool.base then Some((l, Destroy(s.loops[l].active[0])))
      else Some((s.pool.base, Remove(s.loops[l].active[0])))
    case Write(l, c, _, notify) => if notify then Some((l, Notice(c))) else None
    case Post(c) => Some((s.info[c].loop, Notice(c)))
    case PostBare(c) => Some((s.info[c].loop, Bare(c)))
    case RunNext(l) =>
      var t := s.loops[l].batch[s.loops[l].next];
      if t.Remove? then Some((s.info[t.c].loop, Destroy(t.c))) else None
    case _ => None
  }

  ghost function PostedTo(s: Server, step: Step, l: LoopId): seq<Task>
    requires Enabled(s, step)
  {
    var p := Posted(s, step);
    if p.Some? && p.value.0 == l then [p.value.1] else []
  }

  /** Loop l after a step: its own move, then what the step queues on it; registries aside. */
  ghost predicate QueuesMove(s: Server, step: Step, l: LoopId, after: LoopState)
    requires Enabled(s, step) && l in s.loops
  {
    var b := LocalMove(s.loops[l], step, l);
    after == b.(reg := after.reg, pending := b.pending + PostedTo(s, step, l))
  }

  lemma AcceptQueues(s: Server, fd: int, l: LoopId)
    requires Enabled(s, Accept(fd)) && l in s.loops
    ensures l in Apply(s, Accept(fd)).loops && QueuesMove(s, Accept(fd), l, Apply(s, Accept(fd)).loops[l])
  {
    hide After, ConnName;
    assert s.loops[l].pending + [] == s.loops[l].pending;
  }

  lemma HandleQueues(s: Server, k: LoopId, close: bool, l: LoopId)
    requires Enabled(s, Handle(k, close)) && l in s.loops
    ensures l in Apply(s, Handle(k, close)).loops && QueuesMove(s, Handle(k, close), l, Apply(s, Handle(k, close)).loops[l])
  {
    hide After, ConnName;
    assert s.loops[l].pending + [] == s.loops[l].pending;
  }

  lemma RunNextQueues(s: Server, k: LoopId, l: LoopId)
    requires Enabled(s, RunNext(k)) && l in s.loops
    ensures l in Apply(s, RunNext(k)).loops && QueuesMove(s, RunNext(k), l, Apply(s, RunNext(k)).loops[l])
  {
    hide After, ConnName;
    assert s.loops[l].pending + [] == s.loops[l].pending;
  }

  lemma StepQueues(s: Server, step: Step, l: LoopId)
    requires Enabled(s, step) && l in s.loops
    ensures l in Apply(s, step).loops && QueuesMove(s, step, l, Apply(s, step).loops[l])
  {
    hide After, ConnName, LibraryHolds, Known, DoAccept, DoTask, DoClose;
    match step
    case Accept(fd) => AcceptQueues(s, fd, l);
    case Handle(k, close) => HandleQueues(s, k, close, l);
    case RunNext(k) => RunNextQueues(s, k, l);
    case _ => assert LocalMove(s.loops[l], step, l).pending + [] == LocalMove(s.loops[l], step, l).pending;
  }

  // ------------------------------------------------------------------ tickets

  /** The functors not yet started, in the order in which they will be. */
  function Waiting(ls: LoopState): seq<Task>
    requires ls.next <= |ls.batch|
  {
    ls.batch[ls.next..] + ls.pending
  }

  /** Functors are numbered by loop as they will be started. Number n of loop l is a bare functor of c,
      and has not been started. */
  predicate Waits(s: Server, l: LoopId, n: nat, c: ConnId) {
    && l in s.loops && s.loops[l].next <= |s.loops[l].batch|
    && s.loops[l].started <= n < s.loops[l].started + |Waiting(s.loops[l])|
    && Waiting(s.loops[l])[n - s.loops[l].started] == Bare(c)
  }

  predicate InBatch(ls: LoopState, n: nat) {
    n - ls.started < |ls.batch| - ls.next
  }

  /** Number n is the next to be started, and its connection is gone. */
  predicate StartsFreed(s: Server, l: LoopId, n: nat, c: ConnId) {
    && l in s.loops && s.loops[l].phase.Calling? && s.loops[l].next < |s.loops[l].batch|
    && s.loops[l].started == n && s.loops[l].batch[s.loops[l].next] == Bare(c) && c in s.freed
  }

  /** connections_ holds c, or an owning functor in the queue does, or, for a bare functor that is already
      in the batch, an owning functor in that batch. */
  predicate Guarded(s: Server, l: LoopId, n: nat, c: ConnId)
    requires l in s.loops
  {
    || c in s.connections.Values
    || OwnerIn(s.loops[l].pending, c)
    || (InBatch(s.loops[l], n) && OwnerIn(s.loops[l].batch, c))
  }

  lemma LocalWaiting(ls: LoopState, step: Step, l: LoopId)
    requires PhaseFits(ls) && (step == Swap(l) ==> ls.phase.Handling?) && (step == Leave(l) ==> ls.next == |ls.batch|)
    requires step == RunNext(l) ==> ls.next < |ls.batch|
    ensures var b, d := LocalMove(ls, step, l), if step == RunNext(l) then 1 else 0;
            && b.next <= |b.batch| && b.started == ls.started + d && d <= |Waiting(ls)|
            && Waiting(b) == Waiting(ls)[d..]
  {
    var b := LocalMove(ls, step, l);
    if step == RunNext(l) {
      assert (ls.batch[ls.next..] + ls.pending)[1..] == ls.batch[ls.next + 1..] + ls.pending;
    } else if step == Swap(l) {
      assert ls.batch[ls.next..] + ls.pending == ls.pending == ls.pending[0..] + [];
    } else if step == Leave(l) {
      assert ls.batch[ls.next..] + ls.pending == [] + ls.pending;
    }
  }

  lemma PushedWaiting(b: LoopState, after: LoopState, p: seq<Task>)
    requires b.next <= |b.batch| && after == b.(reg := after.reg, pending := b.pending + p)
    ensures Waiting(after) == Waiting(b) + p
  {
    assert b.batch[b.next..] + (b.pending + p) == (b.batch[b.next..] + b.pending) + p;
  }

  lemma WaitingMoves(s: Server, step: Step, l: LoopId)
    requires Enabled(s, step) && l in s.loops && PhaseFits(s.loops[l])
    ensures l in Apply(s, step).loops
    ensures var ls, ls', d := s.loops[l], Apply(s, step).loops[l], if step == RunNext(l) then 1 else 0;
            && ls'.next <= |ls'.batch| && ls'.started == ls.started + d && d <= |Waiting(ls)|
            && Waiting(ls') == Waiting(ls)[d..] + PostedTo(s, step, l)
  {
    hide Apply, LocalMove, Waiting, PostedTo, LibraryHolds, Watched, Known;
    StepQueues(s, step, l);
    LocalWaiting(s.loops[l], step, l);
    PushedWaiting(LocalMove(s.loops[l], step, l), Apply(s, step).loops[l], PostedTo(s, step, l));
  }

  lemma Shifted(w: seq<Task>, d: nat, p: seq<Task>, k: nat)
    requires d <= k < |w|
    ensures k - d < |w[d..] + p| && (w[d..] + p)[k - d] == w[k]
  {
  }

  /** A bare functor keeps its number until it is started. */
  lemma TicketStays(s: Server, step: Step, l: LoopId, n: nat, c: ConnId)
    requires Enabled(s, step) && Waits(s, l, n, c) && PhaseFits(s.loops[l])
    requires !(step == RunNext(l) && s.loops[l].started == n)
    ensures Waits(Apply(s, step), l, n, c)
  {
    hide Apply, Enabled, Waiting, PostedTo, PhaseFits;
    WaitingMoves(s, step, l);
    Shifted(Waiting(s.loops[l]), if step == RunNext(l) then 1 else 0, PostedTo(s, step, l), n - s.loops[l].started);
  }

  // ------------------------------------------------------------------ each functor is on its own loop

  ghost predicate AtHome(s: Server, l: LoopId, t: Task) {
    t.c in s.info && l == if t.Remove? then s.pool.base else s.info[t.c].loop
  }

  ghost predicate Home(s: Server) {
    forall l, t :: l in s.loops && (t in s.loops[l].pending || t in s.loops[l].batch) ==> AtHome(s, l, t)
  }

  lemma PostedIsAtHome(s: Server, step: Step)
    requires Inv(s, NoCredit) && Home(s) && Enabled(s, step) && Posted(s, step).Some?
    ensures var p := Posted(s, step).value; AtHome(Apply(s, step), p.0, p.1)
  {
    hide Inv, After, ConnName, LibraryHolds, Home, DoClose, DoTask;
    var p := Posted(s, step).value;
    match step
    case Accept(fd) =>
    case Handle(l, close) => CloseFixes(s, l, close);
    case RunNext(l) => TaskFixes(s, l);
    case _ =>
  }

  lemma HomeStays(s: Server, step: Step)
    requires Inv(s, NoCredit) && Home(s) && Enabled(s, step)
    ensures Home(Apply(s, step))
  {
    hide Inv, Apply, Enabled, LocalMove;
    var s' := Apply(s, step);
    forall l, t | l in s'.loops && (t in s'.loops[l].pending || t in s'.loops[l].batch)
      ensures AtHome(s', l, t)
    {
      StepFixes(s, step, t.c);
      StepQueues(s, step, l);
      OldOrPosted(s, step, l, s'.loops[l], t);
      if t in s.loops[l].pending || t in s.loops[l].batch {
        assert AtHome(s, l, t);
      } else {
        PostedIsAtHome(s, step);
      }
    }
  }

  lemma OldOrPosted(s: Server, step: Step, l: LoopId, after: LoopState, t: Task)
    requires Enabled(s, step) && l in s.loops && QueuesMove(s, step, l, after)
    requires t in after.pending || t in after.batch
    ensures t in s.loops[l].pending || t in s.loops[l].batch || Posted(s, step) == Some((l, t))
  {
    hide Enabled;
  }

  lemma {:induction false} RunIsHome(run: seq<Server>, i: nat)
    requires IsRun(run) && i < |run|
    ensures Home(run[i])
  {
    hide Inv, Apply, Enabled;
    if i > 0 {
      RunIsHome(run, i - 1);
      RunKeeps(run, i - 1);
      assert Next(run[i - 1], run[i]);
      var step :| Enabled(run[i - 1], step) && run[i] == Apply(run[i - 1], step);
      HomeStays(run[i - 1], step);
    }
  }

  // ------------------------------------------------------------------ the map

  lemma MapValues(s: Server, c: ConnId)
    requires Records(s)
    ensures s.stage.Keys == s.info.Keys
    ensures c in s.connections.Values <==> c in s.info && InMap(s.stage[c])
  {
    hide RegInv, FdInv, HistoryInv, AliveInv, ConnName;
    if c in s.connections.Values {
      var n :| n in s.connections && s.connections[n] == c;
    }
    if c in s.info && InMap(s.stage[c]) {
      assert s.connections[NameOf(s, c)] == c;
    }
  }

  /** A connection that is not in the map does not come back. */
  lemma StaysOut(s: Server, step: Step, c: ConnId)
    requires Inv(s, NoCredit) && Enabled(s, step) && c in s.info && c !in s.connections.Values
    ensures c !in Apply(s, step).connections.Values
  {
    hide Inv, Apply, Enabled, Records;
    RecordsAfter(s, step);
    MapValues(s, c);
    MapValues(Apply(s, step), c);
    StepMovesForward(s, step, c);
  }

  /** The value under another name stays when one name goes. */
  lemma OtherNameStays(s: Server, c: ConnId, d: ConnId)
    requires Records(s) && c in s.connections.Values && c != d
    ensures c in (s.connections - {NameOf(s, d)}).Values
  {
    hide RegInv, FdInv, HistoryInv, AliveInv, ConnName;
    var n :| n in s.connections && s.connections[n] == c;
    NamesAreDistinct(s.name, s.ipPort, c, d);
    var m := s.connections - {NameOf(s, d)};
    assert n in m && m[n] == c;
  }

  lemma NewNameAddsOnly(s: Server, c: ConnId)
    requires Records(s) && c in s.connections.Values
    ensures c in s.connections[NameOf(s, s.nextId) := s.nextId].Values
  {
    hide RegInv, FdInv, HistoryInv, AliveInv, ConnName;
    var n :| n in s.connections && s.connections[n] == c;
    NamesAreDistinct(s.name, s.ipPort, c, s.nextId);
    var m := s.connections[NameOf(s, s.nextId) := s.nextId];
    assert n in m && m[n] == c;
  }

  lemma AcceptMap(s: Server, fd: int)
    requires Enabled(s, Accept(fd))
    ensures Apply(s, Accept(fd)).connections == s.connections[NameOf(s, s.nextId) := s.nextId]
  {
    hide After, ConnName;
  }

  lemma HandleMap(s: Server, l: LoopId, close: bool)
    requires Enabled(s, Handle(l, close))
    ensures var m, c := Apply(s, Handle(l, close)).connections, s.loops[l].active[0];
            && (close && l == s.pool.base ==> m == s.connections - {NameOf(s, c)})
            && (!close || l != s.pool.base ==> m == s.connections)
  {
    hide After, ConnName;
  }

  lemma RunNextMap(s: Server, l: LoopId)
    requires Enabled(s, RunNext(l))
    ensures var m, t := Apply(s, RunNext(l)).connections, s.loops[l].batch[s.loops[l].next];
            m == if t.Remove? then s.connections - {NameOf(s, t.c)} else s.connections
  {
    hide After, ConnName;
  }

  /** What a step does to the map. */
  lemma MapMoves(s: Server, step: Step)
    requires Enabled(s, step)
    ensures var m := Apply(s, step).connections;
            match step
            case Accept(_) => m == s.connections[NameOf(s, s.nextId) := s.nextId]
            case _ => m == s.connections || exists c ::
              c in s.info && m == s.connections - {NameOf(s, c)} && Posted(s, step) == Some((s.info[c].loop, Destroy(c)))
  {
    hide After, ConnName, LibraryHolds, Watched, DoAccept, DoTask, DoClose;
    match step
    case Accept(fd) => AcceptMap(s, fd);
    case Handle(l, close) =>
      var c := s.loops[l].active[0];
      HandleMap(s, l, close);
      assert close && l == s.pool.base ==> c in s.info && Posted(s, step) == Some((s.info[c].loop, Destroy(c)));
    case RunNext(l) =>
      var t := s.loops[l].batch[s.loops[l].next];
      RunNextMap(s, l);
      assert t.Remove? ==> t.c in s.info && Posted(s, step) == Some((s.info[t.c].loop, Destroy(t.c)));
    case _ =>
  }

  /** The step that takes a connection out of the map queues its connectDestroyed. */
  lemma LeavingPostsDestroy(s: Server, step: Step, c: ConnId)
    requires Inv(s, NoCredit) && Enabled(s, step)
    requires c in s.connections.Values && c !in Apply(s, step).connections.Values
    ensures c in s.info && Posted(s, step) == Some((s.info[c].loop, Destroy(c)))
  {
    hide Inv, Apply, Enabled, Records, ConnName, Posted;
    RecordsOf(s);
    MapMoves(s, step);
    if step.Accept? {
      NewNameAddsOnly(s, c);
    } else {
      var d :| d in s.info && Apply(s, step).connections == s.connections - {NameOf(s, d)}
               && Posted(s, step) == Some((s.info[d].loop, Destroy(d)));
      if c != d {
        OtherNameStays(s, c, d);
      }
    }
  }

  // ------------------------------------------------------------------ a guarded functor is safe

  lemma WaiterIsAtHome(s: Server, l: LoopId, n: nat, c: ConnId)
    requires Home(s) && Waits(s, l, n, c)
    ensures c in s.info && s.info[c].loop == l
  {
    var ls := s.loops[l];
    assert Bare(c) in Waiting(ls);
    assert Bare(c) in ls.pending || Bare(c) in ls.batch;
    assert AtHome(s, l, Bare(c));
  }

  /** What the queues of loop l hold of c after a step that starts another functor or none. */
  lemma OwnersMove(s: Server, step: Step, l: LoopId, n: nat, c: ConnId, after: LoopState)
    requires Enabled(s, step) && Waits(s, l, n, c) && PhaseFits(s.loops[l]) && QueuesMove(s, step, l, after)
    requires !(step == RunNext(l) && s.loops[l].started == n)
    ensures OwnerIn(after.pending, c) <==>
              OwnerIn(PostedTo(s, step, l), c) || (OwnerIn(s.loops[l].pending, c) && step != Swap(l))
    ensures step == Swap(l) ==> InBatch(after, n) && after.batch == s.loops[l].pending && !InBatch(s.loops[l], n)
    ensures step != Swap(l) ==> (InBatch(after, n) <==> InBatch(s.loops[l], n))
    ensures step != Swap(l) && InBatch(s.loops[l], n) ==> after.batch == s.loops[l].batch
  {
    var b, p := LocalMove(s.loops[l], step, l), PostedTo(s, step, l);
    forall t | t in p
      ensures t in b.pending + p
    {
    }
    assert forall t :: t in after.pending <==> t in b.pending || t in p;
    assert step == Swap(l) ==> p == [];
  }

  lemma GuardStays(s: Server, step: Step, l: LoopId, n: nat, c: ConnId)
    requires Inv(s, NoCredit) && Home(s) && Enabled(s, step) && Waits(s, l, n, c) && Guarded(s, l, n, c)
    requires !(step == RunNext(l) && s.loops[l].started == n)
    ensures Waits(Apply(s, step), l, n, c) && Guarded(Apply(s, step), l, n, c)
  {
    hide Inv, Apply, Enabled, OwnerIn, QueuesMove, Home, Posted;
    var s' := Apply(s, step);
    LoopFits(s, l, NoCredit);
    TicketStays(s, step, l, n, c);
    StepQueues(s, step, l);
    OwnersMove(s, step, l, n, c, s'.loops[l]);
    if c in s.connections.Values && c !in s'.connections.Values {
      LeavingPostsDestroy(s, step, c);
      WaiterIsAtHome(s, l, n, c);
      SingleOwner(c);
    }
  }

  lemma SingleOwner(c: ConnId)
    ensures OwnerIn([Destroy(c)], c)
  {
    assert Destroy(c) in [Destroy(c)];
  }

  // ------------------------------------------------------------------ continuations

  ghost predicate Playable(s: Server, steps: seq<Step>)
    decreases |steps|
  {
    steps == [] || (Enabled(s, steps[0]) && Playable(Apply(s, steps[0]), steps[1..]))
  }

  ghost function Final(s: Server, steps: seq<Step>): Server
    requires Playable(s, steps)
    decreases |steps|
  {
    if steps == [] then s else Final(Apply(s, steps[0]), steps[1..])
  }

  /** A functor that is guarded, or has been started, never meets a freed connection later. */
  lemma {:induction false} GuardedIsSafe(s: Server, steps: seq<Step>, l: LoopId, n: nat, c: ConnId)
    requires Inv(s, NoCredit) && Home(s) && Playable(s, steps) && l in s.loops
    requires (Waits(s, l, n, c) && Guarded(s, l, n, c)) || s.loops[l].started > n
    ensures !StartsFreed(Final(s, steps), l, n, c)
    decreases |steps|
  {
    hide Inv, Apply, Enabled, Home, TaskHolds;
    if steps == [] {
      if s.loops[l].started <= n {
        GuardedLives(s, l, n, c);
      }
    } else {
      var s' := Apply(s, steps[0]);
      StepKeeps(s, steps[0]);
      HomeStays(s, steps[0]);
      LoopFits(s, l, NoCredit);
      WaitingMoves(s, steps[0], l);
      if s.loops[l].started <= n && !(steps[0] == RunNext(l) && s.loops[l].started == n) {
        GuardStays(s, steps[0], l, n, c);
      }
      GuardedIsSafe(s', steps[1..], l, n, c);
    }
  }

  lemma GuardedLives(s: Server, l: LoopId, n: nat, c: ConnId)
    requires Inv(s, NoCredit) && l in s.loops && Guarded(s, l, n, c)
    ensures c !in s.freed
  {
    hide Inv;
    HeldLives(s, l, c);
  }

  // ------------------------------------------------------------------ an unguarded one is not

  /** A bare functor that nothing guards, in a state of a run. */
  ghost predicate Exposed(s: Server, l: LoopId, n: nat, c: ConnId) {
    Inv(s, NoCredit) && Home(s) && Waits(s, l, n, c) && !Guarded(s, l, n, c)
  }

  /** It stays exposed as long as nothing new comes to own its connection. */
  lemma ExposedStays(s: Server, step: Step, l: LoopId, n: nat, c: ConnId)
    requires Exposed(s, l, n, c) && Enabled(s, step) && !OwnerIn(PostedTo(s, step, l), c)
    requires !(step == RunNext(l) && s.loops[l].started == n)
    ensures Exposed(Apply(s, step), l, n, c)
  {
    hide Inv, Apply, Enabled, OwnerIn, QueuesMove, Home, Posted;
    var s' := Apply(s, step);
    LoopFits(s, l, NoCredit);
    TicketStays(s, step, l, n, c);
    StepQueues(s, step, l);
    OwnersMove(s, step, l, n, c, s'.loops[l]);
    WaiterIsAtHome(s, l, n, c);
    StaysOut(s, step, c);
    StepKeeps(s, step);
    HomeStays(s, step);
  }

  lemma CanRun(s: Server, l: LoopId)
    requires Inv(s, NoCredit) && l in s.loops && s.loops[l].phase.Calling? && s.loops[l].next < |s.loops[l].batch|
    ensures Enabled(s, RunNext(l))
  {
    hide Records, Queues;
    LoopFits(s, l, NoCredit);
    var t := s.loops[l].batch[s.loops[l].next];
    if Owns(t) {
      ChannelFits(s, t.c);
    }
  }

  lemma CanHandle(s: Server, l: LoopId)
    requires Inv(s, NoCredit) && l in s.loops && s.loops[l].active != []
    ensures Enabled(s, Handle(l, false))
  {
    hide Records, Queues;
    LoopFits(s, l, NoCredit);
    HeadOfActive(s, l);
    ChannelFits(s, s.loops[l].active[0]);
  }

  /** A removal that is still to run is that of a connection in the map. */
  lemma RemovalIsMapped(s: Server, k: LoopId, c: ConnId)
    requires Inv(s, NoCredit) && k in s.loops && s.loops[k].next <= |s.loops[k].batch|
    requires Remove(c) in s.loops[k].batch[s.loops[k].next..] || Remove(c) in s.loops[k].pending
    ensures c in s.connections.Values
  {
    hide RegInv, FdInv, HistoryInv, AliveInv, MapInv, HeldInv, ActiveInv;
    assert Owed(s, k)[Remove(c)] > 0;
    assert Owed(s, k)[Remove(c)] + Extra(NoCredit, k, Remove(c)) == Expected(s, k, Remove(c));
    MapValues(s, c);
  }

  lemma RunNextIsQuiet(s: Server, k: LoopId, l: LoopId, c: ConnId)
    requires Inv(s, NoCredit) && Enabled(s, RunNext(k)) && c !in s.connections.Values
    ensures !OwnerIn(PostedTo(s, RunNext(k), l), c)
  {
    hide Inv;
    var t := s.loops[k].batch[s.loops[k].next];
    if t == Remove(c) {
      assert Remove(c) in s.loops[k].batch[s.loops[k].next..];
      RemovalIsMapped(s, k, c);
    }
  }

  // ------------------------------------------------------------------ the continuation, step by step

  /** How far loop l is from starting number n, and the base loop, when it is another, from leaving its batch. */
  function Distance(ls: LoopState, n: nat): nat {
    (if ls.started <= n then n - ls.started else 0)
    + match ls.phase
      case Polling => 2
      case Handling => 1 + |ls.active|
      case Calling => if InBatch(ls, n) then 0 else 3
  }

  function Left(ls: LoopState): nat {
    if ls.phase.Calling? && ls.next <= |ls.batch| then |ls.batch| - ls.next + 1 else 0
  }

  function BaseLeft(s: Server, l: LoopId): nat {
    if s.pool.base != l && s.pool.base in s.loops then Left(s.loops[s.pool.base]) else 0
  }

  function Alive(s: Server, c: ConnId): nat {
    if c in s.freed then 0 else 1
  }

  function Kept(s: Server, c: ConnId): nat {
    if c in s.userHolds then 1 else 0
  }

  /** The step brings the freeing of c, or else the start of number n, nearer. */
  ghost predicate Nearer(s: Server, step: Step, l: LoopId, n: nat, c: ConnId)
    requires Enabled(s, step) && l in s.loops && l in Apply(s, step).loops
  {
    var s' := Apply(s, step);
    || Alive(s', c) < Alive(s, c)
    || (Alive(s', c) == Alive(s, c) && Kept(s', c) < Kept(s, c))
    || (Alive(s', c) == Alive(s, c) && Kept(s', c) == Kept(s, c) && BaseLeft(s', l) < BaseLeft(s, l))
    || (Alive(s', c) == Alive(s, c) && Kept(s', c) == Kept(s, c) && BaseLeft(s', l) == BaseLeft(s, l)
        && Distance(s'.loops[l], n) < Distance(s.loops[l], n))
  }

  /** A move of loop k alone. */
  predicate MoveOf(step: Step, k: LoopId) {
    step == RunNext(k) || step == Leave(k) || step == Swap(k) || step == PollReturn(k, []) || step == Handle(k, false)
  }

  lemma MoveOfFixes(s: Server, step: Step, k: LoopId)
    requires Enabled(s, step) && MoveOf(step, k)
    ensures var s' := Apply(s, step); s'.freed == s.freed && s'.userHolds == s.userHolds && s'.pool == s.pool
    ensures step != RunNext(k) ==> Posted(s, step).None?
  {
    hide After, ConnName, LibraryHolds, Watched, DoTask;
    if step == RunNext(k) {
      DoTaskFixes(SetLoop(s, k, StartNext(s.loops[k])), s.loops[k].batch[s.loops[k].next]);
    }
  }

  lemma DoTaskFixes(s: Server, t: Task)
    requires Owns(t) ==> Known(s, t.c)
    ensures var s' := DoTask(s, t); s'.freed == s.freed && s'.userHolds == s.userHolds && s'.pool == s.pool
  {
    hide After, ConnName;
  }

  /** The move of loop k that leads on, when it has one to make. */
  lemma LoopMove(s: Server, k: LoopId) returns (step: Step)
    requires Inv(s, NoCredit) && k in s.loops
    ensures Enabled(s, step) && MoveOf(step, k)
    ensures var ls := s.loops[k];
            step == match ls.phase
              case Polling => PollReturn(k, [])
              case Handling => if ls.active != [] then Handle(k, false) else Swap(k)
              case Calling => if ls.next < |ls.batch| then RunNext(k) else Leave(k)
  {
    hide Inv;
    var ls := s.loops[k];
    assert PhaseFits(ls) by { LoopFits(s, k, NoCredit); }
    match ls.phase
    case Polling => step := PollReturn(k, []);
    case Handling =>
      if ls.active != [] {
        CanHandle(s, k);
        step := Handle(k, false);
      } else {
        step := Swap(k);
      }
    case Calling =>
      if ls.next < |ls.batch| {
        CanRun(s, k);
        step := RunNext(k);
      } else {
        step := Leave(k);
      }
  }

  lemma QuietMove(s: Server, step: Step, k: LoopId, l: LoopId, c: ConnId)
    requires Inv(s, NoCredit) && Enabled(s, step) && MoveOf(step, k) && c !in s.connections.Values
    ensures !OwnerIn(PostedTo(s, step, l), c)
  {
    hide Inv, Enabled;
    MoveOfFixes(s, step, k);
    if step == RunNext(k) {
      RunNextIsQuiet(s, k, l, c);
    }
  }

  /** Loop l comes nearer to number n. */
  lemma OwnMoveIsNearer(s: Server, l: LoopId, n: nat, c: ConnId) returns (step: Step)
    requires Exposed(s, l, n, c) && !StartsFreed(s, l, n, c)
    requires c !in s.freed ==> s.loops[l].phase.Calling? && !InBatch(s.loops[l], n)
    ensures Enabled(s, step) && !OwnerIn(PostedTo(s, step, l), c) && !(step == RunNext(l) && s.loops[l].started == n)
    ensures l in Apply(s, step).loops && Nearer(s, step, l, n, c)
  {
    hide Inv, Home, Apply, Enabled, OwnerIn, Posted;
    step := LoopMove(s, l);
    QuietMove(s, step, l, l, c);
    MoveOfFixes(s, step, l);
    StepQueues(s, step, l);
    LoopFits(s, l, NoCredit);
    DistanceFalls(s, step, l, n, c, Apply(s, step).loops[l]);
    if s.pool.base != l && s.pool.base in s.loops {
      StepQueues(s, step, s.pool.base);
    }
    StepFixes(s, step, c);
  }

  lemma DistanceFalls(s: Server, step: Step, l: LoopId, n: nat, c: ConnId, after: LoopState)
    requires Enabled(s, step) && MoveOf(step, l) && Waits(s, l, n, c) && PhaseFits(s.loops[l])
    requires QueuesMove(s, step, l, after) && !StartsFreed(s, l, n, c)
    requires c !in s.freed ==> s.loops[l].phase.Calling? && !InBatch(s.loops[l], n)
    requires var ls := s.loops[l];
             step == match ls.phase
               case Polling => PollReturn(l, [])
               case Handling => if ls.active != [] then Handle(l, false) else Swap(l)
               case Calling => if ls.next < |ls.batch| then RunNext(l) else Leave(l)
    ensures Distance(after, n) < Distance(s.loops[l], n) && !(step == RunNext(l) && s.loops[l].started == n)
  {
    hide Enabled, Posted;
  }

  /** The base loop comes nearer to dropping its batch. */
  lemma BaseMoveIsNearer(s: Server, l: LoopId, n: nat, c: ConnId) returns (step: Step)
    requires Exposed(s, l, n, c) && s.pool.base != l && s.pool.base in s.loops && s.loops[s.pool.base].phase.Calling?
    ensures Enabled(s, step) && !OwnerIn(PostedTo(s, step, l), c) && !(step == RunNext(l) && s.loops[l].started == n)
    ensures l in Apply(s, step).loops && Nearer(s, step, l, n, c)
  {
    hide Inv, Home, Apply, Enabled, OwnerIn, Posted;
    var base := s.pool.base;
    LoopFits(s, base, NoCredit);
    step := LoopMove(s, base);
    QuietMove(s, step, base, l, c);
    MoveOfFixes(s, step, base);
    StepQueues(s, step, base);
    StepFixes(s, step, c);
  }

  /** When neither loop has a batch left that could hold c, nothing in the library holds it. */
  lemma NothingHolds(s: Server, l: LoopId, n: nat, c: ConnId)
    requires Exposed(s, l, n, c)
    requires s.loops[l].phase.Calling? ==> InBatch(s.loops[l], n)
    requires s.pool.base != l ==> s.pool.base in s.loops && !s.loops[s.pool.base].phase.Calling?
    ensures !LibraryHolds(s, c)
  {
    WaiterIsAtHome(s, l, n, c);
    hide Records, Queues, MapInv, OwnerIn;
    forall k | k in s.loops
      ensures !TaskHolds(s, k, c)
    {
      LoopFits(s, k, NoCredit);
      if k == l {
        EmptyOwnsNothing(c);
      } else {
        ElsewhereUnheld(s, l, k, c);
      }
    }
  }

  lemma EmptyOwnsNothing(c: ConnId)
    ensures !OwnerIn([], c)
  {
  }

  lemma ElsewhereUnheld(s: Server, l: LoopId, k: LoopId, c: ConnId)
    requires Inv(s, NoCredit) && Home(s) && k in s.loops && k != l && c in s.info && s.info[c].loop == l
    requires c !in s.connections.Values
    requires k == s.pool.base ==> !s.loops[k].phase.Calling?
    ensures !TaskHolds(s, k, c)
  {
    hide Inv;
    LoopFits(s, k, NoCredit);
    var ls := s.loops[k];
    forall t | (t in ls.pending || t in ls.batch) && Owns(t)
      ensures t.c != c
    {
      assert AtHome(s, k, t);
      if t.c == c {
        assert t == Remove(c) && k == s.pool.base && t in ls.pending;
        RemovalIsMapped(s, k, c);
      }
    }
  }

  lemma FreeIsNearer(s: Server, l: LoopId, n: nat, c: ConnId)
    requires Exposed(s, l, n, c) && c !in s.freed && c !in s.userHolds && !LibraryHolds(s, c)
    ensures Enabled(s, Free(c)) && l in Apply(s, Free(c)).loops && Nearer(s, Free(c), l, n, c)
  {
    hide Inv, LibraryHolds;
    WaiterIsAtHome(s, l, n, c);
  }

  lemma ReleaseIsNearer(s: Server, l: LoopId, n: nat, c: ConnId)
    requires Exposed(s, l, n, c) && c in s.userHolds
    ensures Enabled(s, Release(c)) && l in Apply(s, Release(c)).loops && Nearer(s, Release(c), l, n, c)
  {
    hide Inv, Home;
  }

  /** The next step towards the start of an exposed functor after its connection is gone. */
  lemma NextMove(s: Server, l: LoopId, n: nat, c: ConnId) returns (step: Step)
    requires Exposed(s, l, n, c) && !StartsFreed(s, l, n, c)
    ensures Enabled(s, step) && !OwnerIn(PostedTo(s, step, l), c) && !(step == RunNext(l) && s.loops[l].started == n)
    ensures l in Apply(s, step).loops && Nearer(s, step, l, n, c)
  {
    hide Inv, Home, Apply, Enabled, OwnerIn, LibraryHolds, Waits, Guarded, Nearer, StartsFreed;
    assert l in s.loops && s.pool.base in s.loops by { InLoops(s, l, n, c); }
    EmptyOwnsNothing(c);
    if c in s.freed {
      step := OwnMoveIsNearer(s, l, n, c);
    } else if c in s.userHolds {
      step := Release(c);
      ReleaseIsNearer(s, l, n, c);
    } else if s.pool.base != l && s.loops[s.pool.base].phase.Calling? {
      step := BaseMoveIsNearer(s, l, n, c);
    } else if s.loops[l].phase.Calling? && !InBatch(s.loops[l], n) {
      step := OwnMoveIsNearer(s, l, n, c);
    } else {
      step := Free(c);
      NothingHolds(s, l, n, c);
      FreeIsNearer(s, l, n, c);
    }
  }

  lemma InLoops(s: Server, l: LoopId, n: nat, c: ConnId)
    requires Exposed(s, l, n, c)
    ensures l in s.loops && s.pool.base in s.loops
  {
    hide Records, Queues, Home, Guarded;
    RecordsOf(s);
    ShapeOf(s);
  }

  lemma {:induction false} Meet(s: Server, l: LoopId, n: nat, c: ConnId) returns (steps: seq<Step>)
    requires Exposed(s, l, n, c) && l in s.loops
    ensures Playable(s, steps) && StartsFreed(Final(s, steps), l, n, c)
    decreases Alive(s, c), Kept(s, c), BaseLeft(s, l), Distance(s.loops[l], n)
  {
    hide Exposed, Apply, Enabled, OwnerIn, Posted, StartsFreed, Alive, Kept, BaseLeft, Distance;
    if StartsFreed(s, l, n, c) {
      steps := [];
    } else {
      var step := NextMove(s, l, n, c);
      ExposedStays(s, step, l, n, c);
      var rest := Meet(Apply(s, step), l, n, c);
      steps := [step] + rest;
      assert steps[1..] == rest;
    }
  }

  // ------------------------------------------------------------------ exactly when

  /** A waiting bare functor can be started after its connection is freed, in some continuation of the run,
      exactly when connections_ no longer holds the connection and no owning functor of it waits on the
      same loop, nor, once the bare functor is in the running batch, belongs to that batch. */
  lemma MeetsFreedIff(run: seq<Server>, i: nat, l: LoopId, n: nat, c: ConnId)
    requires IsRun(run) && i < |run| && Waits(run[i], l, n, c)
    ensures (exists steps :: Playable(run[i], steps) && StartsFreed(Final(run[i], steps), l, n, c)) <==>
            !Guarded(run[i], l, n, c)
  {
    hide Inv, Home, Playable, StartsFreed, Guarded;
    RunKeeps(run, i);
    RunIsHome(run, i);
    if Guarded(run[i], l, n, c) {
      forall steps | Playable(run[i], steps)
        ensures !StartsFreed(Final(run[i], steps), l, n, c)
      {
        GuardedIsSafe(run[i], steps, l, n, c);
      }
    } else {
      var steps := Meet(run[i], l, n, c);
    }
  }

  // ------------------------------------------------------------------ it happens

  lemma Extend(run: seq<Server>, step: Step) returns (longer: seq<Server>)
    requires IsRun(run) && Enabled(run[|run| - 1], step)
    ensures IsRun(longer) && longer == run + [Apply(run[|run| - 1], step)]
  {
    hide Apply, Enabled, Fresh;
    var s := run[|run| - 1];
    longer := run + [Apply(s, step)];
    assert Next(s, Apply(s, step));
    forall i | 0 <= i < |longer| - 1
      ensures Next(longer[i], longer[i + 1])
    {
      assert i < |run| - 1 ==> Next(run[i], run[i + 1]);
    }
  }

  lemma {:induction false} PlayOn(run: seq<Server>, steps: seq<Step>) returns (longer: seq<Server>)
    requires IsRun(run) && Playable(run[|run| - 1], steps)
    ensures IsRun(longer) && longer[|longer| - 1] == Final(run[|run| - 1], steps)
    decreases |steps|
  {
    hide IsRun, Apply, Enabled;
    longer := run;
    if steps != [] {
      longer := Extend(run, steps[0]);
      longer := PlayOn(longer, steps[1..]);
    }
  }

  /** A server without sub-loops. */
  function Alone(): Server {
    Server("server", "127.0.0.1:8000", Pool(0, [], 0), 1, map[],
           map[0 := LoopState(Polling, [], [], 0, [], Registry(map[], map[], map[], 0), 0)],
           map[], {}, {}, map[], [], [])
  }

  /** Loop 0 of that server, with nothing running, and connection 1 at a stage. */
  predicate Quiet(s: Server, phase: Phase, stage: Stage, pending: seq<Task>) {
    && s.pool == Pool(0, [], 0) && s.freed == {} && 0 in s.loops
    && s.loops[0].phase == phase && s.loops[0].active == [] && s.loops[0].batch == [] && s.loops[0].next == 0
    && s.loops[0].pending == pending && s.loops[0].started == 0
    && 1 in s.info && s.info[1].loop == 0 && 1 in s.stage && s.stage[1] == stage
  }

  lemma AcceptsInline(s: Server)
    requires s.pool == Pool(0, [], 0) && s.freed == {} && s.info == map[] && s.nextId == 1 && s.loops.Keys == {0}
    requires s.loops[0] == LoopState(Handling, [], [], 0, [], Registry(map[], map[], map[], 0), 0)
    ensures Enabled(s, Accept(3)) && Quiet(Apply(s, Accept(3)), Handling, Established, [])
  {
    hide ConnName, After;
  }

  /** It accepts a connection, and the pass ends. */
  lemma AcceptsOne() returns (run: seq<Server>)
    ensures IsRun(run) && Quiet(run[|run| - 1], Polling, Established, [])
  {
    hide IsRun, ConnName, After, LibraryHolds, DoAccept;
    run := [Alone()];
    assert IsRun(run) by { AloneIsARun(); }
    run := Extend(run, PollReturn(0, []));
    AcceptsInline(run[|run| - 1]);
    run := Extend(run, Accept(3));
    run := Extend(run, Swap(0));
    run := Extend(run, Leave(0));
  }

  lemma AloneIsARun()
    ensures IsRun([Alone()])
  {
  }

  /** An established connection can be reported by poll. */
  lemma EstablishedIsWatched(s: Server, l: LoopId, c: ConnId)
    requires Inv(s, NoCredit) && l in s.loops && c in s.info && c in s.stage && s.stage[c].Established? && s.info[c].loop == l
    ensures Watched(s.loops[l].reg, c)
  {
    hide Records, Queues, RegFits;
    RegOf(s, l);
    FitsIsWatched(s.loops[l].reg, l, s.info, s.stage, s.freed, c);
  }

  lemma FitsIsWatched(r: Registry<ConnId>, l: LoopId, info: map<ConnId, Info>, stage: map<ConnId, Stage>, freed: set<ConnId>, c: ConnId)
    requires stage.Keys == info.Keys && RegFits(r, l, info, stage, freed)
    requires c in info && stage[c].Established? && info[c].loop == l && c !in freed
    ensures Watched(r, c)
  {
    assert ChannelAgrees(r, c) && IndexFits(stage[c], r.chans[c]);
    assert r.kernel[r.chans[c].fd].ptr == c;
  }

  /** The connection hangs up and is handled: it leaves the map and its connectDestroyed is queued. */
  lemma ClosesIt(run: seq<Server>) returns (longer: seq<Server>)
    requires IsRun(run) && Quiet(run[|run| - 1], Polling, Established, [])
    ensures IsRun(longer) && Quiet(longer[|longer| - 1], Handling, Erased, [Destroy(1)])
  {
    hide IsRun, Inv, ConnName, After, LibraryHolds, Watched;
    RunIsNotEmpty(run);
    var s := run[|run| - 1];
    RunKeeps(run, |run| - 1);
    EstablishedIsWatched(s, 0, 1);
    longer := Extend(run, PollReturn(0, [1]));
    s := longer[|longer| - 1];
    assert s.loops[0].active == [1] && s.loops[0].active[0] == 1;
    RunKeeps(longer, |longer| - 1);
    HandleToClose(s, 0);
    longer := Extend(longer, Handle(0, true));
  }

  lemma HandleToClose(s: Server, l: LoopId)
    requires Inv(s, NoCredit) && l in s.loops && s.loops[l].active != []
    ensures Enabled(s, Handle(l, true))
  {
    hide Inv;
    CanHandle(s, l);
  }

  /** While its connectDestroyed is about to run, another thread that still holds the connection queues a
      shutdownInLoop. Nothing guards that functor. */
  lemma PostsTooLate(run: seq<Server>) returns (longer: seq<Server>)
    requires IsRun(run) && Quiet(run[|run| - 1], Handling, Erased, [Destroy(1)])
    ensures IsRun(longer)
    ensures var s := longer[|longer| - 1];
            Waits(s, 0, 1, 1) && !Guarded(s, 0, 1, 1)
  {
    hide IsRun, Inv, Records, Queues, ConnName, After, LibraryHolds;
    longer := Extend(run, Swap(0));
    longer := Extend(longer, PostBare(1));
    var s := longer[|longer| - 1];
    assert s.loops[0].batch == [Destroy(1)] && s.loops[0].pending == [Bare(1)];
    assert Waiting(s.loops[0]) == [Destroy(1), Bare(1)];
    RunKeeps(longer, |longer| - 1);
    RecordsOf(s);
    MapValues(s, 1);
  }

  /** So it happens: in some run a bare functor is started whose connection has been freed. */
  lemma BareCanMeetFreed()
    ensures exists run :: IsRun(run) && StartsFreed(run[|run| - 1], 0, 1, 1)
  {
    hide IsRun, StartsFreed, Playable, Waits, Guarded, Quiet;
    var run := AcceptsOne();
    run := ClosesIt(run);
    run := PostsTooLate(run);
    assert run != [] by { RunIsNotEmpty(run); }
    MeetsFreedIff(run, |run| - 1, 0, 1, 1);
    var steps :| Playable(run[|run| - 1], steps) && StartsFreed(Final(run[|run| - 1], steps), 0, 1, 1);
    run := PlayOn(run, steps);
  }

  lemma RunIsNotEmpty(run: seq<Server>)
    requires IsRun(run)
    ensures run != []
  {
  }
}
