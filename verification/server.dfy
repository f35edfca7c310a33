/** TcpServer as an object (src/TcpServer.cpp): its own fields, and the loops it posts functors to. Its
    methods keep the lifecycle invariant, and those that begin and end a connection are steps of module
    Lifecycle, so that what is proved of every run holds of them. */
module TcpServerObject {
  import opened Kernel
  import opened Registry
  import opened Naming
  import opened ThreadPool
  import opened Lifecycle
  import opened LifeProofs
  import opened LifeTheorems
  import opened BareFunctors

  // ------------------------------------------------------------------ what the steps mean

  /** A connection just accepted: a new name, one more entry, and, on the base loop, a watched socket. */
  lemma AcceptMeans(s: Server, fd: int)
    requires Inv(s, NoCredit) && Enabled(s, Accept(fd))
    ensures var s', c := Apply(s, Accept(fd)), s.nextId;
            && NameOf(s, c) !in s.connections && c !in s.info && c in s'.info && s'.info[c] == Info(fd, NextLoop(s.pool))
            && s'.connections == s.connections[NameOf(s, c) := c]
            && (NextLoop(s.pool) == s.pool.base ==> Watched(s'.loops[s.pool.base].reg, c))
  {
    hide Records, Queues, ConnName, After;
    RecordsOf(s);
    ShapeOf(s);
    NewName(s);
    AcceptMap(s, fd);
    AcceptKeeps(s, fd);
    if NextLoop(s.pool) == s.pool.base {
      EstablishedIsWatched(Apply(s, Accept(fd)), s.pool.base, s.nextId);
    }
  }

  lemma AcceptQueuesOne(s: Server, fd: int)
    requires Enabled(s, Accept(fd))
    ensures var s', own := Apply(s, Accept(fd)), NextLoop(s.pool);
            && own in s'.loops && s'.loops.Keys == s.loops.Keys
            && s'.loops[own].pending ==
                 (if own == s.pool.base then s.loops[own].pending else s.loops[own].pending + [Establish(s.nextId)])
            && (forall l :: l in s.loops && l != own ==> s'.loops[l] == s.loops[l])
  {
    hide ConnName, After;
  }

  lemma NewName(s: Server)
    requires Records(s)
    ensures NameOf(s, s.nextId) !in s.connections && s.nextId !in s.info
  {
    hide RegInv, FdInv, HistoryInv, AliveInv, ConnName;
    if NameOf(s, s.nextId) in s.connections {
      NamesAreDistinct(s.name, s.ipPort, s.connections[NameOf(s, s.nextId)], s.nextId);
    }
  }

  /** A removal in hand: the connection is in the map under its own name, and alive. */
  lemma RemovalInHand(s: Server, c: ConnId)
    requires Inv(s, Credit(s.pool.base, Remove(c)))
    ensures c in s.info && c !in s.freed && Known(s, c) && s.pool.base in s.loops
    ensures NameOf(s, c) in s.connections && s.connections[NameOf(s, c)] == c && c in s.connections.Values
  {
    hide Records, Queues, ConnName;
    assert s.pool.base in s.loops by { ShapeOf(s); }
    InHand(s, s.pool.base, Remove(c));
    MapSide(s, c);
  }

  /** After the removal: exactly that entry is gone, exactly one connectDestroyed is owed, by the
      connection's own loop, and it keeps the connection alive. */
  lemma RemovalMeans(s: Server, c: ConnId)
    requires Inv(s, Credit(s.pool.base, Remove(c)))
    ensures c in s.info && Known(s, c) && NameOf(s, c) in s.connections
    ensures var s', own := DoRemove(s, c), s.info[c].loop;
            && Inv(s', NoCredit) && Coherent(s') && s'.connections == s.connections - {NameOf(s, c)}
            && |s'.connections| == |s.connections| - 1 && c !in s'.connections.Values
            && (forall d :: d in s.connections.Values && d != c ==> d in s'.connections.Values)
            && (forall l :: l in s'.loops ==> Owed(s', l)[Destroy(c)] == if l == own then 1 else 0)
            && TaskHolds(s', own, c) && c !in s'.freed
  {
    hide Records, Queues, ConnName;
    RemovalInHand(s, c);
    RemoveKeeps(s, s.pool.base, c);
    var s', own := DoRemove(s, c), s.info[c].loop;
    RecordsOf(s');
    CoherentOf(s');
    assert s'.connections.Keys == s.connections.Keys - {NameOf(s, c)};
    MapValues(s', c);
    forall d | d in s.connections.Values && d != c
      ensures d in s'.connections.Values
    {
      OtherNameStays(s, d, c);
    }
    forall l | l in s'.loops
      ensures Owed(s', l)[Destroy(c)] == if l == own then 1 else 0
    {
      OwedTable(s', c, l);
    }
    OwedHolds(s', own, Destroy(c));
  }

  lemma CoherentOf(s: Server)
    requires Inv(s, NoCredit)
    ensures Coherent(s)
  {
  }

  /** A removal that has been queued: the entry stays, and exactly one removal is owed, by the base loop. */
  lemma QueuedRemovalMeans(s: Server, c: ConnId)
    requires Inv(s, Credit(s.pool.base, Remove(c))) && s.pool.base in s.loops
    ensures var s' := Push(s, s.pool.base, Remove(c));
            && Inv(s', NoCredit) && Coherent(s') && s'.connections == s.connections && c in s'.connections.Values
            && (forall l :: l in s'.loops ==> Owed(s', l)[Remove(c)] == if l == s.pool.base then 1 else 0)
            && TaskHolds(s', s.pool.base, c) && c !in s'.freed
  {
    hide Records, Queues, ConnName;
    RemovalInHand(s, c);
    PushKeeps(s, s.pool.base, Remove(c), Credit(s.pool.base, Remove(c)));
    var s' := Push(s, s.pool.base, Remove(c));
    RecordsOf(s');
    CoherentOf(s');
    MapValues(s', c);
    StageInHand(s, c);
    forall l | l in s'.loops
      ensures Owed(s', l)[Remove(c)] == if l == s.pool.base then 1 else 0
    {
      OwedTable(s', c, l);
    }
    OwedHolds(s', s.pool.base, Remove(c));
  }

  lemma StageInHand(s: Server, c: ConnId)
    requires Inv(s, Credit(s.pool.base, Remove(c))) && s.pool.base in s.loops
    ensures c in s.stage && s.stage[c].Closed?
  {
    hide Records, Queues;
    InHand(s, s.pool.base, Remove(c));
  }

  /** After a close the kernel does not report the connection again, and the base loop owes it exactly one
      functor: the removal, while it is in the map, or already its connectDestroyed. */
  lemma CloseMeans(s: Server, l: LoopId)
    requires Inv(s, NoCredit) && Enabled(s, Handle(l, true))
    ensures var s', c := Apply(s, Handle(l, true)), s.loops[l].active[0];
            && Inv(s', NoCredit) && Coherent(s') && l in s'.loops && s'.pool.base in s'.loops && c in s.info && s.info[c].loop == l
            && !Watched(s'.loops[l].reg, c) && c !in s'.freed
            && (c in s'.connections.Values <==> l != s.pool.base)
            && (forall k :: k in s'.loops ==>
                  Owed(s', k)[Remove(c)] + Owed(s', k)[Destroy(c)] == if k == s.pool.base then 1 else 0)
  {
    hide Records, Queues, ConnName, After, LibraryHolds;
    var s', c := Apply(s, Handle(l, true)), s.loops[l].active[0];
    HeadOfActive(s, l);
    CloseFixes(s, l, true);
    HandleKeeps(s, l, true);
    RecordsOf(s');
    CoherentOf(s');
    MapValues(s', c);
    assert s'.stage[c] == if l == s.pool.base then Erased else Closed;
    if Watched(s'.loops[l].reg, c) {
      WatchedIsEstablished(s', l, c);
    }
    forall k | k in s'.loops
      ensures Owed(s', k)[Remove(c)] + Owed(s', k)[Destroy(c)] == if k == s.pool.base then 1 else 0
    {
      OwedTable(s', c, k);
    }
  }

  // ------------------------------------------------------------------ the class

  class TcpServer {
    const name: string
    const ipPort: string
    const threadPool: EventLoopThreadPool
    var nextConnId: nat
    var connections: map<string, ConnId>

    // the loops with their queues and pollers, and the connections' own fields
    var loops: map<LoopId, LoopState>
    var info: map<ConnId, Info>
    var freed: set<ConnId>
    var userHolds: set<ConnId>

    // histories
    ghost var stage: map<ConnId, Stage>
    ghost var erasures: seq<ConnId>
    ghost var destructions: seq<ConnId>

    ghost function Abs(): Server
      reads this, threadPool
    {
      Server(name, ipPort, threadPool.Abs(), nextConnId, connections, loops, info, freed, userHolds,
             stage, erasures, destructions)
    }

    /** The lifecycle invariant; `cr` is a task in hand. */
    ghost predicate Valid(cr: Credit)
      reads this, threadPool
    {
      Inv(Abs(), cr)
    }

    constructor (name: string, ipPort: string, threadPool: EventLoopThreadPool, running: set<LoopId>)
      requires threadPool.Valid() && threadPool.baseLoop in running
      requires forall l :: l in threadPool.loops ==> l in running
      ensures Valid(NoCredit) && Fresh(Abs())
      ensures this.name == name && this.ipPort == ipPort && this.threadPool == threadPool
    {
      this.name, this.ipPort, this.threadPool := name, ipPort, threadPool;
      nextConnId, connections := 1, map[];
      loops := map l | l in running :: LoopState(Polling, [], [], 0, [], Registry(map[], map[], map[], 0), 0);
      info, freed, userHolds := map[], {}, {};
      stage, erasures, destructions := map[], [], [];
      new;
      FreshInv(Abs());
    }

    /** queueInLoop of loop l. */
    method QueueInLoop(l: LoopId, t: Task)
      requires l in loops
      modifies this`loops
      ensures Abs() == Push(old(Abs()), l, t)
    {
      loops := loops[l := loops[l].(pending := loops[l].pending + [t])];
    }

    /** A channel of loop l asks its poller, and its connection is then at another stage. */
    method SetInterest(c: ConnId, q: Request, ghost st: Stage)
      requires Known(Abs(), c)
      modifies this`loops, this`stage
      ensures Abs() == SetStage(Lifecycle.SetInterest(old(Abs()), old(info[c].loop), c, q), c, st)
    {
      var l := info[c].loop;
      loops := loops[l := loops[l].(reg := After(loops[l].reg, Ask(c, q)))];
      stage := stage[c := st];
    }

    /** The TcpConnection constructor, and the entry in connections_. */
    method Construct(c: ConnId, connName: string, sockfd: int, ioLoop: LoopId)
      requires ioLoop in loops
      modifies this`info, this`stage, this`loops, this`connections
      ensures connections == old(connections)[connName := c]
      ensures info == old(info)[c := Info(sockfd, ioLoop)] && stage == old(stage)[c := Accepted]
      ensures loops == var ls := old(loops)[ioLoop];
                       old(loops)[ioLoop := ls.(reg := ls.reg.(chans := ls.reg.chans[c := ChannelState(sockfd, NONE_EVENT, New)]))]
    {
      info := info[c := Info(sockfd, ioLoop)];
      stage := stage[c := Accepted];
      var ls := loops[ioLoop];
      loops := loops[ioLoop := ls.(reg := ls.reg.(chans := ls.reg.chans[c := ChannelState(sockfd, NONE_EVENT, New)]))];
      connections := connections[connName := c];
    }

    method Admit(sockfd: int) returns (c: ConnId, ioLoop: LoopId)
      requires threadPool.Valid() && NextLoop(threadPool.Abs()) in loops
      modifies this, threadPool`next
      ensures Abs() == Lifecycle.Admit(old(Abs()), sockfd)
      ensures c == old(nextConnId) && ioLoop == NextLoop(old(threadPool.Abs()))
    {
      ioLoop := threadPool.GetNextLoop();
      c := nextConnId;
      var connName := ConnName(name, ipPort, c);
      nextConnId := nextConnId + 1;
      Construct(c, connName, sockfd, ioLoop);
    }

    /** newConnection, called by the acceptor's handler on the base loop with a descriptor that is not in
        use. The connection gets the next loop and a name no other has, exactly one entry is added, and it
        is watched at once when the base loop keeps it, or waits as the last functor of its own loop. */
    method NewConnection(sockfd: int) returns (ghost c: ConnId)
      requires Valid(NoCredit) && threadPool.baseLoop in loops
      requires loops[threadPool.baseLoop].phase.Handling? && !InUse(Abs(), sockfd)
      modifies this, threadPool`next
      ensures Valid(NoCredit)
      ensures Enabled(old(Abs()), Accept(sockfd)) && Abs() == Apply(old(Abs()), Accept(sockfd))
      ensures c !in old(info) && c in info && info[c] == Info(sockfd, NextLoop(old(threadPool.Abs())))
      ensures ConnName(name, ipPort, c) !in old(connections)
      ensures connections == old(connections)[ConnName(name, ipPort, c) := c]
      ensures var own := info[c].loop;
              && own in loops && own in old(loops)
              && (own == threadPool.baseLoop ==>
                    Watched(loops[own].reg, c) && loops[own].pending == old(loops)[own].pending)
              && (own != threadPool.baseLoop ==> loops[own].pending == old(loops)[own].pending + [Establish(c)])
              && (forall l :: l in old(loops) && l != own ==> l in loops && loops[l] == old(loops)[l])
    {
      hide Inv, ConnName, After, InUse, Watched, Lifecycle.Admit;
      ghost var s := Abs();
      PoolRuns(s);
      AcceptMeans(s, sockfd);
      AcceptQueuesOne(s, sockfd);
      AcceptKeeps(s, sockfd);
      var id, ioLoop := Admit(sockfd);
      c := id;
      NewIsKnown(s, sockfd);
      if ioLoop == threadPool.baseLoop {
        SetInterest(id, EnableReading, Established);
      } else {
        QueueInLoop(ioLoop, Establish(id));
      }
    }

    /** removeConnection, called on loop `current` with the close in hand. On the base loop the entry goes
        at once; from any other loop exactly one removal is then owed by the base loop, and until it runs
        the entry stays. */
    method RemoveConnection(c: ConnId, current: LoopId)
      requires Valid(Credit(threadPool.baseLoop, Remove(c)))
      modifies this
      ensures Valid(NoCredit) && Coherent(Abs()) && c in info && c !in freed && info == old(info)
      ensures current == threadPool.baseLoop ==>
                && Known(old(Abs()), c) && Abs() == DoRemove(old(Abs()), c)
                && c !in connections.Values && |connections| == |old(connections)| - 1
                && (forall l :: l in loops ==> Owed(Abs(), l)[Destroy(c)] == if l == info[c].loop then 1 else 0)
      ensures current != threadPool.baseLoop ==>
                && threadPool.baseLoop in old(loops) && Abs() == Push(old(Abs()), threadPool.baseLoop, Remove(c))
                && connections == old(connections) && c in connections.Values
                && (forall l :: l in loops ==> Owed(Abs(), l)[Remove(c)] == if l == threadPool.baseLoop then 1 else 0)
    {
      hide Inv, DoRemove, ConnName, Coherent, Owed, TaskHolds;
      RemovalInHand(Abs(), c);
      if current == threadPool.baseLoop {
        RemoveConnectionInLoop(c);
      } else {
        QueuedRemovalMeans(Abs(), c);
        QueueInLoop(threadPool.baseLoop, Remove(c));
      }
    }

    /** removeConnectionInLoop. Exactly the connection's own entry is erased, whatever others the map
        holds; its own loop then owes exactly one connectDestroyed, which keeps it alive. */
    method RemoveConnectionInLoop(c: ConnId)
      requires Valid(Credit(threadPool.baseLoop, Remove(c)))
      modifies this
      ensures Valid(NoCredit) && Coherent(Abs()) && c in info && info == old(info) && loops.Keys == old(loops.Keys)
      ensures Known(old(Abs()), c) && Abs() == DoRemove(old(Abs()), c)
      ensures c in old(connections).Values && c !in connections.Values && |connections| == |old(connections)| - 1
      ensures forall d :: d in old(connections).Values && d != c ==> d in connections.Values
      ensures forall l :: l in loops ==> Owed(Abs(), l)[Destroy(c)] == if l == info[c].loop then 1 else 0
      ensures info[c].loop in loops && TaskHolds(Abs(), info[c].loop, c) && c !in freed
    {
      hide Inv, ConnName, Coherent, Owed, TaskHolds;
      RemovalInHand(Abs(), c);
      RemovalMeans(Abs(), c);
      connections := connections - {ConnName(name, ipPort, c)};
      erasures := erasures + [c];
      stage := stage[c := Erased];
      var ioLoop := info[c].loop;
      QueueInLoop(ioLoop, Destroy(c));
    }

    /** The handling of the first active channel of loop l ends in handleClose, with this server's
        removeConnection as closeCallback_. The kernel does not watch the connection any more, it is still
        alive, and the base loop owes it exactly one functor. */
    method HandleClose(l: LoopId) returns (c: ConnId)
      requires Valid(NoCredit) && l in loops && loops[l].phase.Handling? && loops[l].active != []
      modifies this
      ensures Valid(NoCredit) && Coherent(Abs()) && c == old(loops[l].active[0]) && c in info && info[c].loop == l
      ensures Enabled(old(Abs()), Handle(l, true)) && Abs() == Apply(old(Abs()), Handle(l, true))
      ensures l in loops && !Watched(loops[l].reg, c) && c !in freed
      ensures c in connections.Values <==> l != threadPool.baseLoop
      ensures forall k :: k in loops ==>
                Owed(Abs(), k)[Remove(c)] + Owed(Abs(), k)[Destroy(c)] == if k == threadPool.baseLoop then 1 else 0
    {
      hide Inv, ConnName, After, Coherent, Owed, Watched, DoRemove;
      ghost var s := Abs();
      HandleToClose(s, l);
      CloseMeans(s, l);
      c := loops[l].active[0];
      loops := loops[l := loops[l].(active := loops[l].active[1..])];
      ClosesInHand(s, l);
      SetInterest(c, DisableAll, Closed);
      RemoveConnection(c, l);
    }
  }

  /** handleClose up to its last line: the removal is in hand. */
  lemma ClosesInHand(s: Server, l: LoopId)
    requires Inv(s, NoCredit) && l in s.loops && s.loops[l].phase.Handling? && s.loops[l].active != []
    ensures var c, d := s.loops[l].active[0], SetLoop(s, l, s.loops[l].(active := s.loops[l].active[1..]));
            && c in s.info && s.info[c].loop == l && Known(d, c)
            && Inv(SetStage(Lifecycle.SetInterest(d, l, c, DisableAll), c, Closed), Credit(s.pool.base, Remove(c)))
  {
    hide Inv, After;
    HeadOfActive(s, l);
    TakeActiveKeeps(s, l);
    TakenOff(s, l, s.loops[l].active[0]);
    CloseBegins(SetLoop(s, l, s.loops[l].(active := s.loops[l].active[1..])), s.loops[l].active[0]);
  }

  lemma NewIsKnown(s: Server, fd: int)
    requires s.pool.Valid() && NextLoop(s.pool) in s.loops
    ensures var d := Admit(s, fd); Known(d, s.nextId) && d.info[s.nextId].loop == NextLoop(s.pool)
  {
    hide ConnName;
  }

  lemma PoolRuns(s: Server)
    requires Inv(s, NoCredit)
    ensures s.pool.Valid() && NextLoop(s.pool) in s.loops
  {
    hide Records, Queues;
    RecordsOf(s);
    ShapeOf(s);
  }
}
