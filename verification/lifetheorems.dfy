/** What holds of every connection in every interleaving of the loops. */
module LifeTheorems {
  import opened Kernel
  import opened Registry
  import opened Naming
  import opened ThreadPool
  import opened Lifecycle
  import opened LifeProofs

  // ------------------------------------------------------------------ stages and obligations

  predicate Coherent(s: Server) {
    s.stage.Keys == s.info.Keys && forall l :: l in s.loops ==> s.loops[l].next <= |s.loops[l].batch|
  }

  lemma RunIsCoherent(run: seq<Server>, i: nat)
    requires IsRun(run) && i < |run|
    ensures Coherent(run[i])
  {
    RunKeeps(run, i);
  }

  lemma OwedTable(s: Server, c: ConnId, l: LoopId)
    requires Inv(s, NoCredit) && c in s.info && l in s.loops
    ensures Coherent(s)
    ensures Owed(s, l)[Establish(c)] == if l == s.info[c].loop && s.stage[c].Accepted? then 1 else 0
    ensures Owed(s, l)[Remove(c)] == if l == s.pool.base && s.stage[c].Closed? then 1 else 0
    ensures Owed(s, l)[Destroy(c)] == if l == s.info[c].loop && s.stage[c].Erased? then 1 else 0
  {
    hide RegInv, MapInv, FdInv, HistoryInv, HeldInv, ActiveInv;
    assert Owed(s, l)[Establish(c)] + Extra(NoCredit, l, Establish(c)) == Expected(s, l, Establish(c));
    assert Owed(s, l)[Remove(c)] + Extra(NoCredit, l, Remove(c)) == Expected(s, l, Remove(c));
    assert Owed(s, l)[Destroy(c)] + Extra(NoCredit, l, Destroy(c)) == Expected(s, l, Destroy(c));
  }

  /** Every accepted connection is at one stage, and the stage says all: whether it is in the map, what
      each loop owes it, and how its channel is registered. Each obligation is owed once and by one loop. */
  lemma StageSaysAll(run: seq<Server>, i: nat, c: ConnId)
    requires IsRun(run) && i < |run| && c in run[i].info
    ensures Coherent(run[i])
    ensures var s, own, base := run[i], run[i].info[c].loop, run[i].pool.base;
            && (NameOf(s, c) in s.connections && s.connections[NameOf(s, c)] == c <==> InMap(s.stage[c]))
            && (forall l :: l in s.loops ==>
                  && Owed(s, l)[Establish(c)] == (if l == own && s.stage[c].Accepted? then 1 else 0)
                  && Owed(s, l)[Remove(c)] == (if l == base && s.stage[c].Closed? then 1 else 0)
                  && Owed(s, l)[Destroy(c)] == (if l == own && s.stage[c].Erased? then 1 else 0))
            && (c !in s.freed ==>
                  own in s.loops && c in s.loops[own].reg.chans && IndexFits(s.stage[c], s.loops[own].reg.chans[c]))
            && (!s.stage[c].Destroyed? ==> c !in s.freed)
  {
    hide Queues, Records, IndexFits, Owed, Inv, ConnName;
    var s := run[i];
    RunKeeps(run, i);
    RunIsCoherent(run, i);
    RecordsOf(s);
    forall l | l in s.loops
      ensures && Owed(s, l)[Establish(c)] == (if l == s.info[c].loop && s.stage[c].Accepted? then 1 else 0)
              && Owed(s, l)[Remove(c)] == (if l == s.pool.base && s.stage[c].Closed? then 1 else 0)
              && Owed(s, l)[Destroy(c)] == (if l == s.info[c].loop && s.stage[c].Erased? then 1 else 0)
    {
      OwedTable(s, c, l);
    }
    if c !in s.freed {
      ChannelFits(s, c);
    }
    MapSide(s, c);
  }

  lemma RecordsOf(s: Server)
    requires Inv(s, NoCredit)
    ensures Records(s) && s.stage.Keys == s.info.Keys
    ensures forall c :: c in s.info && !s.stage[c].Destroyed? ==> c !in s.freed
  {
  }

  lemma MapSide(s: Server, c: ConnId)
    requires Records(s) && c in s.info
    ensures s.stage.Keys == s.info.Keys
    ensures NameOf(s, c) in s.connections && s.connections[NameOf(s, c)] == c <==> InMap(s.stage[c])
  {
  }

  lemma TaskMovesForward(s: Server, l: LoopId, c: ConnId)
    requires Inv(s, NoCredit) && Enabled(s, RunNext(l)) && c in s.stage
    ensures c in Apply(s, RunNext(l)).stage && Rank(s.stage[c]) <= Rank(Apply(s, RunNext(l)).stage[c])
  {
    hide Records, Queues, After;
    var t := s.loops[l].batch[s.loops[l].next];
    var d := SetLoop(s, l, StartNext(s.loops[l]));
    PopKeeps(s, l);
    if IsDuty(t) {
      InHand(d, l, t);
    }
  }

  lemma CloseMovesForward(s: Server, l: LoopId, close: bool, c: ConnId)
    requires Inv(s, NoCredit) && Enabled(s, Handle(l, close)) && c in s.stage
    ensures c in Apply(s, Handle(l, close)).stage && Rank(s.stage[c]) <= Rank(Apply(s, Handle(l, close)).stage[c])
  {
    hide Inv, After, ConnName;
    HeadOfActive(s, l);
  }

  lemma AcceptMovesForward(s: Server, fd: int, c: ConnId)
    requires Inv(s, NoCredit) && Enabled(s, Accept(fd)) && c in s.stage
    ensures c in Apply(s, Accept(fd)).stage && Rank(s.stage[c]) <= Rank(Apply(s, Accept(fd)).stage[c])
  {
    hide Inv, After, ConnName;
    assert s.nextId !in s.info && s.stage.Keys == s.info.Keys by {
      RecordsOf(s);
      ShapeOf(s);
    }
  }

  lemma StepMovesForward(s: Server, step: Step, c: ConnId)
    requires Inv(s, NoCredit) && Enabled(s, step) && c in s.stage
    ensures c in Apply(s, step).stage && Rank(s.stage[c]) <= Rank(Apply(s, step).stage[c])
  {
    hide Inv, After, ConnName, DoTask, DoClose, DoAccept;
    match step
    case RunNext(l) => TaskMovesForward(s, l, c);
    case Handle(l, close) => CloseMovesForward(s, l, close, c);
    case Accept(fd) => AcceptMovesForward(s, fd, c);
    case _ =>
  }

  /** Stages only move forward. */
  lemma {:induction false} StagesMoveForward(run: seq<Server>, i: nat, j: nat, c: ConnId)
    requires IsRun(run) && i <= j < |run| && c in run[i].stage
    ensures c in run[j].stage && Rank(run[i].stage[c]) <= Rank(run[j].stage[c])
    decreases j - i
  {
    hide Inv, Apply, Enabled;
    if i < j {
      StagesMoveForward(run, i, j - 1, c);
      RunKeeps(run, j - 1);
      assert Next(run[j - 1], run[j]);
      var step :| Enabled(run[j - 1], step) && run[j] == Apply(run[j - 1], step);
      StepMovesForward(run[j - 1], step, c);
    }
  }

  /** The server removes a connection at most once and connectDestroyed runs at most once, the second
      only after the first, and memory and descriptor are given up only after both. */
  lemma RemovedAndDestroyedOnce(run: seq<Server>, i: nat, c: ConnId)
    requires IsRun(run) && i < |run|
    ensures multiset(run[i].destructions)[c] <= multiset(run[i].erasures)[c] <= 1
    ensures c in run[i].erasures <==> c in run[i].stage && Rank(run[i].stage[c]) >= Rank(Erased)
    ensures c in run[i].destructions <==> c in run[i].stage && run[i].stage[c].Destroyed?
    ensures c in run[i].freed ==> c in run[i].destructions
  {
    RunKeeps(run, i);
    OnceHelper(run[i], c);
  }

  lemma OnceHelper(s: Server, c: ConnId)
    requires ShapeInv(s) && HistoryInv(s) && AliveInv(s)
    ensures multiset(s.destructions)[c] <= multiset(s.erasures)[c] <= 1
    ensures c in s.erasures <==> c in s.stage && Rank(s.stage[c]) >= Rank(Erased)
    ensures c in s.destructions <==> c in s.stage && s.stage[c].Destroyed?
    ensures c in s.freed ==> c in s.destructions
  {
    assert c in s.erasures <==> multiset(s.erasures)[c] > 0;
    assert c in s.destructions <==> multiset(s.destructions)[c] > 0;
  }

  // ------------------------------------------------------------------ the server's map

  /** The map is the accepted connections minus the removed ones, each under its own generated name. */
  lemma MapIsAcceptedMinusRemoved(run: seq<Server>, i: nat, n: string, c: ConnId)
    requires IsRun(run) && i < |run|
    ensures n in run[i].connections && run[i].connections[n] == c <==>
            1 <= c < run[i].nextId && c !in run[i].erasures && n == NameOf(run[i], c)
  {
    hide Queues, RegInv, MapInv;
    var s := run[i];
    RunKeeps(run, i);
    OnceHelper(s, c);
    if 1 <= c < s.nextId {
      MapSide(s, c);
    }
    if n in s.connections {
      MapOnlyKnown(s, n);
    }
  }

  lemma MapOnlyKnown(s: Server, n: string)
    requires Records(s) && n in s.connections
    ensures var c := s.connections[n]; 1 <= c < s.nextId && n == NameOf(s, c)
  {
  }

  // ------------------------------------------------------------------ ownership

  /** Loop l's poller, the kernel's set, or the active channels still to be handled refer to c. */
  ghost predicate Mentions(s: Server, l: LoopId, c: ConnId)
    requires l in s.loops
  {
    || (exists fd :: fd in s.loops[l].reg.mapped && s.loops[l].reg.mapped[fd] == c)
    || Watched(s.loops[l].reg, c)
    || c in s.loops[l].active
  }

  /** A descriptor is mapped by loop l's poller exactly to the living connection of that loop that has it
      and is past its establishment and not destroyed. */
  ghost predicate Registered(s: Server, l: LoopId, fd: int, c: ConnId) {
    c in s.info && c in s.stage && s.info[c] == Info(fd, l) && 1 <= Rank(s.stage[c]) <= 3
  }

  lemma MappedFits(r: Registry<ConnId>, l: LoopId, info: map<ConnId, Info>, stage: map<ConnId, Stage>, freed: set<ConnId>,
                   fd: int, c: ConnId)
    requires stage.Keys == info.Keys && RegFits(r, l, info, stage, freed)
    requires c in info && !stage[c].Destroyed? ==> c !in freed
    ensures fd in r.mapped && r.mapped[fd] == c <==>
            c in info && info[c] == Info(fd, l) && 1 <= Rank(stage[c]) <= 3
  {
    if c in r.chans {
      assert ChannelAgrees(r, c) && IndexFits(stage[c], r.chans[c]);
    }
  }

  lemma RegOf(s: Server, l: LoopId)
    requires Records(s) && l in s.loops
    ensures s.stage.Keys == s.info.Keys && RegFits(s.loops[l].reg, l, s.info, s.stage, s.freed)
    ensures forall c :: c in s.info && !s.stage[c].Destroyed? ==> c !in s.freed
  {
    hide RegFits, MapInv, HistoryInv, FdInv;
    assert RegInv(s, l);
  }

  lemma MappedIsRegistered(s: Server, l: LoopId, fd: int, c: ConnId)
    requires Records(s) && l in s.loops
    ensures fd in s.loops[l].reg.mapped && s.loops[l].reg.mapped[fd] == c <==> Registered(s, l, fd, c)
  {
    hide Records, RegFits;
    RegOf(s, l);
    MappedFits(s.loops[l].reg, l, s.info, s.stage, s.freed, fd, c);
  }

  lemma MappedIsUndestroyed(s: Server, l: LoopId, fd: int)
    requires Records(s) && l in s.loops && fd in s.loops[l].reg.mapped
    ensures var c := s.loops[l].reg.mapped[fd];
            c in s.info && c in s.stage && s.info[c].loop == l && c !in s.freed && !s.stage[c].Destroyed?
  {
    hide Records, RegFits;
    RegOf(s, l);
    MappedIsRegistered(s, l, fd, s.loops[l].reg.mapped[fd]);
  }

  lemma MentionedIsUndestroyed(s: Server, l: LoopId, c: ConnId)
    requires Inv(s, NoCredit) && l in s.loops && Mentions(s, l, c)
    ensures c in s.info && c in s.stage && s.info[c].loop == l && c !in s.freed && !s.stage[c].Destroyed?
  {
    hide Records;
    if c in s.loops[l].active {
      RecordsOf(s);
      assert ActiveInv(s, l);
    } else if Watched(s.loops[l].reg, c) {
      WatchedIsEstablished(s, l, c);
      RecordsOf(s);
    } else {
      var fd :| fd in s.loops[l].reg.mapped && s.loops[l].reg.mapped[fd] == c;
      MappedIsUndestroyed(s, l, fd);
    }
  }

  /** A channel that any poller, any kernel set or any list of reported events refers to belongs to a
      connection of that loop that is alive and held by the server's map, a queued functor or the
      running batch, whether or not user code holds it too. */
  lemma ReferredChannelsAreOwned(run: seq<Server>, i: nat, l: LoopId, c: ConnId)
    requires IsRun(run) && i < |run| && l in run[i].loops && Mentions(run[i], l, c)
    ensures LibraryHolds(run[i], c) && c !in run[i].freed && c in run[i].info && run[i].info[c].loop == l
  {
    hide Inv;
    var s := run[i];
    RunKeeps(run, i);
    MentionedIsUndestroyed(s, l, c);
    if !LibraryHolds(s, c) {
      UnheldIsDestroyed(s, c);
    }
  }

  /** From the moment poll reports a channel until it is handled it stays registered with the kernel, and
      it is established; so its handler meets a living connection. */
  lemma ReportedStaysRegistered(run: seq<Server>, i: nat, l: LoopId, k: nat)
    requires IsRun(run) && i < |run| && l in run[i].loops && k < |run[i].loops[l].active|
    ensures var s, c := run[i], run[i].loops[l].active[k];
            && c in s.loops[l].reg.chans && InKernel(s.loops[l].reg, c) && IsMapped(s.loops[l].reg, c)
            && c in s.stage && s.stage[c].Established? && c !in s.freed
  {
    var s, c := run[i], run[i].loops[l].active[k];
    RunKeeps(run, i);
    ActiveIsRegistered(s, l, c);
  }

  lemma ActiveIsRegistered(s: Server, l: LoopId, c: ConnId)
    requires Inv(s, NoCredit) && l in s.loops && c in s.loops[l].active
    ensures c in s.loops[l].reg.chans && InKernel(s.loops[l].reg, c) && IsMapped(s.loops[l].reg, c)
    ensures c in s.stage && s.stage[c].Established? && c !in s.freed
  {
    hide OwedInv, HeldInv, MapInv, HistoryInv, FdInv;
    assert RegInv(s, l) && ActiveInv(s, l);
    assert ChannelAgrees(s.loops[l].reg, c);
  }

  /** No step that the code would take is stuck on a connection that is gone: a reported channel can be
      handled, and a started batch can go on, for an owning functor finds its connection alive. A bare one
      finds it freed only if neither the map nor any functor of its loop holds it. */
  lemma NothingDangles(run: seq<Server>, i: nat, l: LoopId)
    requires IsRun(run) && i < |run| && l in run[i].loops
    ensures run[i].loops[l].active != [] ==>
              Enabled(run[i], Handle(l, true)) && Enabled(run[i], Handle(l, false))
    ensures run[i].loops[l].phase.Calling? && run[i].loops[l].next < |run[i].loops[l].batch| ==>
              && Enabled(run[i], RunNext(l))
              && var t := run[i].loops[l].batch[run[i].loops[l].next];
                 && (Owns(t) ==> t.c !in run[i].freed)
                 && (t.c in run[i].freed ==> t.c !in run[i].connections.Values && !TaskHolds(run[i], l, t.c))
  {
    hide Records, Queues;
    var s := run[i];
    RunKeeps(run, i);
    if s.loops[l].active != [] {
      HeadOfActive(s, l);
      ChannelFits(s, s.loops[l].active[0]);
    }
    LoopFits(s, l, NoCredit);
    if s.loops[l].phase.Calling? && s.loops[l].next < |s.loops[l].batch| {
      var t := s.loops[l].batch[s.loops[l].next];
      if Owns(t) {
        ChannelFits(s, t.c);
      }
      HeldLives(s, l, t.c);
    }
  }

  /** What the map or a functor holds has not been freed. */
  lemma HeldLives(s: Server, l: LoopId, c: ConnId)
    requires Inv(s, NoCredit) && l in s.loops
    ensures c in s.connections.Values || TaskHolds(s, l, c) ==> c in s.info && c !in s.freed
  {
    hide RegInv, FdInv, HistoryInv, PhaseInv, OwedInv, ActiveInv, TaskHolds;
    if c in s.connections.Values {
      var n :| n in s.connections && s.connections[n] == c;
    }
  }

  // ------------------------------------------------------------------ descriptors

  lemma AcceptFixes(s: Server, fd: int, c: ConnId)
    requires Enabled(s, Accept(fd)) && s.nextId !in s.info
    ensures var s' := Apply(s, Accept(fd));
            && s'.loops.Keys == s.loops.Keys && s'.pool.base == s.pool.base && s'.freed == s.freed
            && (c in s.info ==> c in s'.info && s'.info[c] == s.info[c])
  {
    hide After, ConnName;
  }

  lemma TaskFixes(s: Server, l: LoopId)
    requires Enabled(s, RunNext(l))
    ensures var s' := Apply(s, RunNext(l));
            && s'.loops.Keys == s.loops.Keys && s'.pool == s.pool && s'.nextId == s.nextId
            && s'.freed == s.freed && s'.info == s.info
  {
    hide After, ConnName;
  }

  lemma CloseFixes(s: Server, l: LoopId, close: bool)
    requires Enabled(s, Handle(l, close))
    ensures var s' := Apply(s, Handle(l, close));
            && s'.loops.Keys == s.loops.Keys && s'.pool == s.pool && s'.nextId == s.nextId
            && s'.freed == s.freed && s'.info == s.info
  {
    hide After, ConnName;
  }

  lemma PlainFixes(s: Server, step: Step)
    requires Enabled(s, step) && !step.Accept? && !step.RunNext? && !step.Handle? && !step.Free?
    ensures var s' := Apply(s, step);
            && s'.loops.Keys == s.loops.Keys && s'.pool == s.pool && s'.nextId == s.nextId
            && s'.freed == s.freed && s'.info == s.info
  {
    hide After, Watched;
  }

  lemma FreeFixes(s: Server, d: ConnId)
    requires Inv(s, NoCredit) && Enabled(s, Free(d))
    ensures var s' := Apply(s, Free(d));
            && s'.loops.Keys == s.loops.Keys && s'.pool == s.pool && s'.info == s.info && s'.freed == s.freed + {d}
    ensures d in s.stage && s.stage[d].Destroyed?
  {
    hide Inv, LibraryHolds;
    UnheldIsDestroyed(s, d);
  }

  lemma UndestroyedLives(s: Server, c: ConnId)
    requires Inv(s, NoCredit)
    ensures s.nextId !in s.info
    ensures c in s.info && c in s.stage && !s.stage[c].Destroyed? ==> c !in s.freed
  {
    hide Inv, Records;
    RecordsOf(s);
    ShapeOf(s);
  }

  /** What no step changes. */
  lemma StepFixes(s: Server, step: Step, c: ConnId)
    requires Inv(s, NoCredit) && Enabled(s, step)
    ensures Apply(s, step).loops.Keys == s.loops.Keys && Apply(s, step).pool.base == s.pool.base
    ensures c in s.info ==> c in Apply(s, step).info && Apply(s, step).info[c] == s.info[c]
    ensures c in s.info && c in s.stage && !s.stage[c].Destroyed? ==> c !in Apply(s, step).freed
  {
    hide Inv, Apply, Enabled;
    UndestroyedLives(s, c);
    match step
    case Accept(fd) => AcceptFixes(s, fd, c);
    case RunNext(l) => TaskFixes(s, l);
    case Handle(l, close) => CloseFixes(s, l, close);
    case Free(d) => FreeFixes(s, d);
    case _ => PlainFixes(s, step);
  }

  lemma RecordsAfter(s: Server, step: Step)
    requires Inv(s, NoCredit) && Enabled(s, step)
    ensures Records(s) && Records(Apply(s, step)) && s.stage.Keys == s.info.Keys
    ensures var s' := Apply(s, step);
            s'.stage.Keys == s'.info.Keys && forall c :: c in s'.info && !s'.stage[c].Destroyed? ==> c !in s'.freed
  {
    hide Inv, Apply, Enabled;
    StepKeeps(s, step);
    RecordsOf(s);
    RecordsOf(Apply(s, step));
  }

  lemma SameDescriptor(s: Server, c: ConnId, d: ConnId)
    requires Records(s) && c in s.info && d in s.info && c !in s.freed && d !in s.freed && s.info[c].fd == s.info[d].fd
    ensures c == d
  {
  }

  /** In one step an entry of a poller's map stays, or its own connection is destroyed and nothing takes
      its place. */
  lemma EntryStays(s: Server, step: Step, l: LoopId, fd: int)
    requires Inv(s, NoCredit) && Enabled(s, step) && l in s.loops && fd in s.loops[l].reg.mapped
    ensures var c, s' := s.loops[l].reg.mapped[fd], Apply(s, step);
            && l in s'.loops && c in s.stage && !s.stage[c].Destroyed? && c in s'.stage
            && if fd in s'.loops[l].reg.mapped then s'.loops[l].reg.mapped[fd] == c else s'.stage[c].Destroyed?
  {
    hide Inv, Apply, Enabled, Records;
    var c, s' := s.loops[l].reg.mapped[fd], Apply(s, step);
    RecordsAfter(s, step);
    StepFixes(s, step, c);
    MappedIsRegistered(s, l, fd, c);
    StepMovesForward(s, step, c);
    MappedIsRegistered(s', l, fd, c);
    if fd in s'.loops[l].reg.mapped {
      var d := s'.loops[l].reg.mapped[fd];
      MappedIsRegistered(s', l, fd, d);
      SameDescriptor(s', c, d);
    }
  }

  /** An entry that is new is that of a connection not registered before. */
  lemma EntryIsNew(s: Server, step: Step, l: LoopId, fd: int)
    requires Inv(s, NoCredit) && Enabled(s, step) && l in s.loops && l in Apply(s, step).loops
    requires fd in Apply(s, step).loops[l].reg.mapped && fd !in s.loops[l].reg.mapped
    ensures var c := Apply(s, step).loops[l].reg.mapped[fd];
            c !in s.stage || s.stage[c].Accepted?
  {
    hide Inv, Apply, Enabled, Records;
    var s' := Apply(s, step);
    var c := s'.loops[l].reg.mapped[fd];
    RecordsAfter(s, step);
    MappedIsRegistered(s', l, fd, c);
    if c in s.stage {
      StepFixes(s, step, c);
      StepMovesForward(s, step, c);
      MappedIsRegistered(s, l, fd, c);
    }
  }

  /** Descriptors are recycled safely. In every step of every run, on every loop: an entry of the poller's
      map keeps its connection, or goes because that connection is destroyed, and nothing replaces it in
      that step; an entry that appears is that of a connection registered for the first time; and no
      epoll_ctl call has been refused. */
  lemma DescriptorReuseIsSafe(run: seq<Server>, i: nat, l: LoopId, fd: int)
    requires IsRun(run) && i < |run| - 1 && l in run[i].loops
    ensures l in run[i + 1].loops && run[i].loops[l].reg.faults == run[i + 1].loops[l].reg.faults == 0
    ensures var s, s' := run[i], run[i + 1];
            && (fd in s.loops[l].reg.mapped ==>
                  var c := s.loops[l].reg.mapped[fd];
                  && c in s.stage && !s.stage[c].Destroyed? && c in s'.stage
                  && if fd in s'.loops[l].reg.mapped then s'.loops[l].reg.mapped[fd] == c else s'.stage[c].Destroyed?)
            && (fd in s'.loops[l].reg.mapped && fd !in s.loops[l].reg.mapped ==>
                  var c := s'.loops[l].reg.mapped[fd];
                  c !in s.stage || s.stage[c].Accepted?)
  {
    hide Inv, Apply, Enabled;
    RunKeeps(run, i);
    RunKeeps(run, i + 1);
    assert Next(run[i], run[i + 1]);
    var step :| Enabled(run[i], step) && run[i + 1] == Apply(run[i], step);
    StepFixes(run[i], step, 0);
    RecordsOf(run[i]);
    RecordsOf(run[i + 1]);
    NoFaults(run[i], l);
    NoFaults(run[i + 1], l);
    if fd in run[i].loops[l].reg.mapped {
      EntryStays(run[i], step, l, fd);
    } else if fd in run[i + 1].loops[l].reg.mapped {
      EntryIsNew(run[i], step, l, fd);
    }
  }

  /** So over a whole run an entry lasts until its own connection is destroyed. */
  lemma {:induction false} EntriesLast(run: seq<Server>, i: nat, j: nat, l: LoopId, fd: int)
    requires IsRun(run) && i <= j < |run| && l in run[i].loops && fd in run[i].loops[l].reg.mapped
    ensures var c := run[i].loops[l].reg.mapped[fd];
            && l in run[j].loops && c in run[i].stage && c in run[j].stage
            && (!run[j].stage[c].Destroyed? ==>
                  fd in run[j].loops[l].reg.mapped && run[j].loops[l].reg.mapped[fd] == c)
    decreases j - i
  {
    hide Inv, Apply, Enabled, IsRun;
    var c := run[i].loops[l].reg.mapped[fd];
    RunKeeps(run, i);
    MappedIsRegisteredIn(run[i], l, fd, c);
    if i < j {
      EntriesLast(run, i, j - 1, l, fd);
      LoopsStay(run, j - 1, l);
      StagesMoveForward(run, j - 1, j, c);
      if !run[j].stage[c].Destroyed? {
        DescriptorReuseIsSafe(run, j - 1, l, fd);
      }
    }
  }

  lemma LoopsStay(run: seq<Server>, i: nat, l: LoopId)
    requires IsRun(run) && i < |run| - 1 && l in run[i].loops
    ensures l in run[i + 1].loops
  {
    DescriptorReuseIsSafe(run, i, l, 0);
  }

  lemma MappedIsRegisteredIn(s: Server, l: LoopId, fd: int, c: ConnId)
    requires Inv(s, NoCredit) && l in s.loops
    ensures fd in s.loops[l].reg.mapped && s.loops[l].reg.mapped[fd] == c ==> Registered(s, l, fd, c)
  {
    hide Inv, Records;
    RecordsOf(s);
    MappedIsRegistered(s, l, fd, c);
  }

  /** A connectEstablished about to run finds its descriptor free in its loop's poller, and a
      connectDestroyed finds its own channel under it. */
  lemma DutiesFindTheirDescriptor(run: seq<Server>, i: nat, l: LoopId, c: ConnId)
    requires IsRun(run) && i < |run| && l in run[i].loops
    ensures Coherent(run[i])
    ensures Owed(run[i], l)[Establish(c)] > 0 ==>
              c in run[i].info && run[i].info[c].fd !in run[i].loops[l].reg.mapped
              && run[i].info[c].fd !in run[i].loops[l].reg.kernel
    ensures Owed(run[i], l)[Destroy(c)] > 0 ==>
              c in run[i].info && run[i].info[c].fd in run[i].loops[l].reg.mapped
              && run[i].loops[l].reg.mapped[run[i].info[c].fd] == c
  {
    RunKeeps(run, i);
    RunIsCoherent(run, i);
    if Owed(run[i], l)[Establish(c)] > 0 {
      EstablishFindsFree(run[i], l, c);
    }
    if Owed(run[i], l)[Destroy(c)] > 0 {
      DestroyFindsOwn(run[i], l, c);
    }
  }

  lemma NoFaults(s: Server, l: LoopId)
    requires Records(s) && l in s.loops
    ensures Agree(s.loops[l].reg) && s.loops[l].reg.faults == 0
  {
    assert RegInv(s, l);
  }

  lemma EstablishFindsFree(s: Server, l: LoopId, c: ConnId)
    requires Inv(s, NoCredit) && Coherent(s) && l in s.loops && Owed(s, l)[Establish(c)] > 0
    ensures c in s.info && s.info[c].fd !in s.loops[l].reg.mapped && s.info[c].fd !in s.loops[l].reg.kernel
  {
    hide RegInv, FdInv, HistoryInv, HeldInv, MapInv, Agree;
    assert Owed(s, l)[Establish(c)] + Extra(NoCredit, l, Establish(c)) == Expected(s, l, Establish(c));
    ClearIn(s, c);
    ChannelFits(s, c);
    NoFaults(s, l);
    assert s.loops[l].reg.chans[c].fd == s.info[c].fd by {
      FdOf(s, c);
    }
    OnlyMappedInKernel(s.loops[l].reg, s.info[c].fd);
  }

  lemma FdOf(s: Server, c: ConnId)
    requires Records(s) && c in s.info && c !in s.freed && Known(s, c)
    ensures s.loops[s.info[c].loop].reg.chans[c].fd == s.info[c].fd
  {
    assert RegInv(s, s.info[c].loop);
  }

  lemma OnlyMappedInKernel(r: Registry<ConnId>, fd: int)
    requires Agree(r)
    ensures fd in r.kernel ==> fd in r.mapped
  {
  }

  lemma DestroyFindsOwn(s: Server, l: LoopId, c: ConnId)
    requires Inv(s, NoCredit) && Coherent(s) && l in s.loops && Owed(s, l)[Destroy(c)] > 0
    ensures c in s.info && s.info[c].fd in s.loops[l].reg.mapped && s.loops[l].reg.mapped[s.info[c].fd] == c
  {
    hide RegInv, FdInv, HistoryInv, HeldInv, MapInv;
    assert Owed(s, l)[Destroy(c)] + Extra(NoCredit, l, Destroy(c)) == Expected(s, l, Destroy(c));
    ChannelFits(s, c);
    NoFaults(s, l);
    FdOf(s, c);
    assert ChannelAgrees(s.loops[l].reg, c);
  }

  // ------------------------------------------------------------------ assignment to loops

  /** The pool has been asked once for every connection accepted so far, and each connection has the
      loop its own call returned. */
  ghost predicate Assigned(p: Pool, s: Server)
    requires p.Valid()
  {
    && s.nextId >= 1 && s.pool == AfterCalls(p, s.nextId - 1)
    && forall c :: c in s.info ==> 1 <= c < s.nextId && s.info[c].loop == NextLoop(AfterCalls(p, c - 1))
  }

  lemma AcceptAssigns(p: Pool, s: Server, fd: int)
    requires p.Valid() && Assigned(p, s) && Enabled(s, Accept(fd))
    ensures Assigned(p, Apply(s, Accept(fd)))
  {
    hide ConnName, After, AfterCalls, LibraryHolds;
    NextCall(p, s.nextId);
  }

  lemma NextCall(p: Pool, k: nat)
    requires p.Valid() && k >= 1
    ensures AfterCalls(p, k) == Advance(AfterCalls(p, k - 1))
  {
  }

  lemma StepAssigns(p: Pool, s: Server, step: Step)
    requires p.Valid() && Inv(s, NoCredit) && Assigned(p, s) && Enabled(s, step)
    ensures Assigned(p, Apply(s, step))
  {
    hide Inv, Apply, Enabled, AfterCalls;
    if step.Accept? {
      AcceptAssigns(p, s, step.fd);
    } else {
      OnlyAcceptAdds(s, step);
    }
  }

  lemma OnlyAcceptAdds(s: Server, step: Step)
    requires Enabled(s, step) && !step.Accept?
    ensures Apply(s, step).info == s.info && Apply(s, step).pool == s.pool && Apply(s, step).nextId == s.nextId
  {
    hide ConnName, After, LibraryHolds, Watched, Known, DoTask, DoClose;
    match step
    case RunNext(l) => TaskFixes(s, l);
    case Handle(l, close) => CloseFixes(s, l, close);
    case Free(c) =>
    case _ => PlainFixes(s, step);
  }

  lemma {:induction false} RunAssigns(run: seq<Server>, i: nat)
    requires IsRun(run) && i < |run|
    ensures run[0].pool.Valid() && Assigned(run[0].pool, run[i])
  {
    hide Inv, Apply, Enabled;
    if i > 0 {
      RunAssigns(run, i - 1);
      RunKeeps(run, i - 1);
      assert Next(run[i - 1], run[i]);
      var step :| Enabled(run[i - 1], step) && run[i] == Apply(run[i - 1], step);
      StepAssigns(run[0].pool, run[i - 1], step);
    }
  }

  /** With n > 0 sub-loops the c-th connection, counted from 1, belongs to sub-loop (c - 1) mod n for
      good, whatever happens in between; with none it belongs to the base loop. */
  lemma LoopsTakeTurns(run: seq<Server>, i: nat, c: ConnId)
    requires IsRun(run) && i < |run| && c in run[i].info && run[0].pool.next == 0
    ensures c >= 1
    ensures var p := run[0].pool;
            run[i].info[c].loop == if p.loops == [] then p.base else p.loops[(c - 1) % |p.loops|]
  {
    RunAssigns(run, i);
    if run[0].pool.loops != [] {
      KthLoop(run[0].pool, c - 1);
    }
  }

  // ------------------------------------------------------------------ every loop goes round

  /** The loop's thread takes its next step: it takes up what poll reports, handles the first reported
      channel, takes over its whole queue, starts the next functor, or goes back to poll. Meanwhile its
      queue may get longer. */
  predicate GoesOn(a: LoopState, b: LoopState) {
    match a.phase
    case Polling => b == a.(phase := Handling, active := b.active, pending := b.pending, reg := b.reg) && a.pending <= b.pending
    case Handling =>
      if a.active != [] then b == a.(active := a.active[1..], pending := b.pending, reg := b.reg) && a.pending <= b.pending
      else b == a.(phase := Calling, batch := a.pending, next := 0, pending := [], reg := b.reg)
    case Calling =>
      if a.next < |a.batch| then
        b == a.(next := a.next + 1, started := a.started + 1, pending := b.pending, reg := b.reg) && a.pending <= b.pending
      else b == a.(phase := Polling, batch := [], next := 0, pending := b.pending, reg := b.reg) && a.pending <= b.pending
  }

  /** The loop's thread stays where it is; functors may be queued. */
  predicate Waits(a: LoopState, b: LoopState) {
    b == a.(pending := b.pending, reg := b.reg) && a.pending <= b.pending
  }

  lemma HandleGoesOn(s: Server, k: LoopId, close: bool, l: LoopId)
    requires Enabled(s, Handle(k, close)) && l in s.loops
    ensures var s' := Apply(s, Handle(k, close));
            l in s'.loops && if k == l then GoesOn(s.loops[l], s'.loops[l]) else Waits(s.loops[l], s'.loops[l])
  {
    hide After, ConnName;
  }

  lemma TaskWaits(s: Server, t: Task, l: LoopId)
    requires (Owns(t) ==> Known(s, t.c)) && l in s.loops
    ensures l in DoTask(s, t).loops && Waits(s.loops[l], DoTask(s, t).loops[l])
  {
    hide After, ConnName;
  }

  lemma TaskGoesOn(s: Server, k: LoopId, l: LoopId)
    requires Enabled(s, RunNext(k)) && l in s.loops
    ensures var s' := Apply(s, RunNext(k));
            l in s'.loops && if k == l then GoesOn(s.loops[l], s'.loops[l]) else Waits(s.loops[l], s'.loops[l])
  {
    hide After, ConnName, DoTask, LibraryHolds, Watched, InUse;
    TaskWaits(SetLoop(s, k, StartNext(s.loops[k])), s.loops[k].batch[s.loops[k].next], l);
  }

  lemma AcceptWaits(s: Server, fd: int, l: LoopId)
    requires Enabled(s, Accept(fd)) && l in s.loops
    ensures var s' := Apply(s, Accept(fd)); l in s'.loops && Waits(s.loops[l], s'.loops[l])
  {
    hide After, ConnName;
  }

  lemma OtherGoesOn(s: Server, step: Step, l: LoopId)
    requires Enabled(s, step) && l in s.loops && !step.Handle? && !step.RunNext? && !step.Accept?
    ensures var s' := Apply(s, step);
            l in s'.loops && (GoesOn(s.loops[l], s'.loops[l]) || Waits(s.loops[l], s'.loops[l]))
  {
    hide After, ConnName, LibraryHolds, Watched;
  }

  /** In every step of every run, every loop's thread stays where it is or goes on as EventLoop::loop does:
      no reported channel and no queued functor is passed over, lost or taken twice. */
  lemma LoopsGoRound(run: seq<Server>, i: nat, l: LoopId)
    requires IsRun(run) && i < |run| - 1 && l in run[i].loops
    ensures l in run[i + 1].loops
    ensures GoesOn(run[i].loops[l], run[i + 1].loops[l]) || Waits(run[i].loops[l], run[i + 1].loops[l])
  {
    hide Enabled, Apply, GoesOn, Waits;
    assert Next(run[i], run[i + 1]);
    var step :| Enabled(run[i], step) && run[i + 1] == Apply(run[i], step);
    match step
    case Handle(k, close) => HandleGoesOn(run[i], k, close, l);
    case RunNext(k) => TaskGoesOn(run[i], k, l);
    case Accept(fd) => AcceptWaits(run[i], fd, l);
    case _ => OtherGoesOn(run[i], step, l);
  }

  /** No loop is ever stuck: in every state of every run each of them can go on. */
  lemma NoLoopIsStuck(run: seq<Server>, i: nat, l: LoopId)
    requires IsRun(run) && i < |run| && l in run[i].loops
    ensures exists s' :: Next(run[i], s') && l in s'.loops && GoesOn(run[i].loops[l], s'.loops[l])
  {
    hide Inv, GoesOn, Waits;
    var s, ls := run[i], run[i].loops[l];
    var step := match ls.phase
                case Polling => PollReturn(l, [])
                case Handling => if ls.active != [] then Handle(l, false) else Swap(l)
                case Calling => if ls.next < |ls.batch| then RunNext(l) else Leave(l);
    RunIsCoherent(run, i);
    NothingDangles(run, i, l);
    assert Enabled(s, step);
    hide Enabled, Apply;
    if step.Handle? {
      HandleGoesOn(s, l, false, l);
    } else if step.RunNext? {
      TaskGoesOn(s, l, l);
    } else {
      OwnStepGoesOn(s, step, l);
    }
    assert Next(s, Apply(s, step));
  }

  lemma OwnStepGoesOn(s: Server, step: Step, l: LoopId)
    requires Enabled(s, step) && l in s.loops && (step.PollReturn? || step.Swap? || step.Leave?) && step.l == l
    ensures var s' := Apply(s, step); l in s'.loops && GoesOn(s.loops[l], s'.loops[l])
  {
    hide Watched;
  }
}
