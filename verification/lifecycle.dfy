/** The life of connections across loops (src/TcpServer.cpp with src/TcpConnection.cpp, src/EventLoop.cpp
    and src/EPollPoller.cpp): accepted on the base loop, established, closed and destroyed on their own
    loop, removed on the base loop. Any number of connections and loops, every interleaving. */
module Lifecycle {
  import opened Kernel
  import opened Registry
  import opened Naming
  import opened ThreadPool

  type ConnId = nat

  /** Establish and Destroy are the functors of connectEstablished and connectDestroyed, Remove that of
      removeConnectionInLoop, Notice any other functor bound to a shared_ptr of the connection. Bare is
      one bound to the connection's bare address: sendInLoop and shutdownInLoop, queued by another thread. */
  datatype Task = Establish(c: ConnId) | Remove(c: ConnId) | Destroy(c: ConnId) | Notice(c: ConnId) | Bare(c: ConnId)

  /** The functor keeps its connection alive. */
  predicate Owns(t: Task) {
    !t.Bare?
  }

  datatype Phase = Polling | Handling | Calling

  /** One loop: active channels not yet handled, the batch being run and how much of it was started, the
      queue, and the poller's records. started is a history: how many functors the loop has started. */
  datatype LoopState = LoopState(
    phase: Phase, active: seq<ConnId>, batch: seq<Task>, next: nat, pending: seq<Task>, reg: Registry<ConnId>,
    started: nat)

  function StartNext(ls: LoopState): LoopState {
    ls.(next := ls.next + 1, started := ls.started + 1)
  }

  datatype Stage = Accepted | Established | Closed | Erased | Destroyed

  function Rank(s: Stage): nat {
    match s
    case Accepted => 0
    case Established => 1
    case Closed => 2
    case Erased => 3
    case Destroyed => 4
  }

  datatype Info = Info(fd: int, loop: LoopId)

  /** connections is the server's map; freed are the connections whose last shared_ptr is gone and whose
      descriptor is closed; userHolds those of which user code keeps a shared_ptr. stage, erasures and
      destructions are histories. */
  datatype Server = Server(
    name: string, ipPort: string, pool: Pool, nextId: nat, connections: map<string, ConnId>,
    loops: map<LoopId, LoopState>, info: map<ConnId, Info>, freed: set<ConnId>, userHolds: set<ConnId>,
    stage: map<ConnId, Stage>, erasures: seq<ConnId>, destructions: seq<ConnId>)

  function NameOf(s: Server, c: ConnId): string {
    ConnName(s.name, s.ipPort, c)
  }

  // ------------------------------------------------------------------ building blocks

  function Push(s: Server, l: LoopId, t: Task): Server
    requires l in s.loops
  {
    s.(loops := s.loops[l := s.loops[l].(pending := s.loops[l].pending + [t])])
  }

  function SetStage(s: Server, c: ConnId, st: Stage): Server {
    s.(stage := s.stage[c := st])
  }

  /** A channel of loop l asks its poller to watch it with other events. */
  function SetInterest(s: Server, l: LoopId, c: ConnId, q: Request): Server
    requires l in s.loops && c in s.loops[l].reg.chans
  {
    s.(loops := s.loops[l := s.loops[l].(reg := After(s.loops[l].reg, Ask(c, q)))])
  }

  predicate Known(s: Server, c: ConnId) {
    c in s.info && c in s.stage && s.info[c].loop in s.loops && c in s.loops[s.info[c].loop].reg.chans
  }

  function DoEstablish(s: Server, c: ConnId): Server
    requires Known(s, c)
  {
    SetStage(SetInterest(s, s.info[c].loop, c, EnableReading), c, Established)
  }

  /** removeConnectionInLoop. */
  function DoRemove(s: Server, c: ConnId): Server
    requires Known(s, c)
  {
    Push(SetStage(s.(connections := s.connections - {NameOf(s, c)}, erasures := s.erasures + [c]), c, Erased),
         s.info[c].loop, Destroy(c))
  }

  /** handleClose on loop l, with the server's removeConnection: inline on the base loop, queued otherwise. */
  function DoClose(s: Server, l: LoopId, c: ConnId): Server
    requires Known(s, c) && l == s.info[c].loop && s.pool.base in s.loops
  {
    var d := SetStage(SetInterest(s, l, c, DisableAll), c, Closed);
    if l == s.pool.base then DoRemove(d, c) else Push(d, s.pool.base, Remove(c))
  }

  /** connectDestroyed. */
  function DoDestroy(s: Server, c: ConnId): Server
    requires Known(s, c)
  {
    var l := s.info[c].loop;
    SetStage(s.(loops := s.loops[l := s.loops[l].(reg := After(s.loops[l].reg, Drop(c)))],
                destructions := s.destructions + [c]), c, Destroyed)
  }

  /** A bare functor does to the connection's own fields what module ConnModel says, and nothing here. That
      holds while the connection lives; what the code does after that is undefined, and module
      BareFunctors says when it can come to that. */
  function DoTask(s: Server, t: Task): Server
    requires Owns(t) ==> Known(s, t.c)
  {
    match t
    case Establish(c) => DoEstablish(s, c)
    case Remove(c) => DoRemove(s, c)
    case Destroy(c) => DoDestroy(s, c)
    case Notice(_) => s
    case Bare(_) => s
  }

  /** The new connection before it is handed to its loop. */
  function Admit(s: Server, fd: int): Server
    requires s.pool.Valid() && NextLoop(s.pool) in s.loops
  {
    var c, l := s.nextId, NextLoop(s.pool);
    var reg := s.loops[l].reg;
    s.(pool := Advance(s.pool), nextId := c + 1, connections := s.connections[NameOf(s, c) := c],
       info := s.info[c := Info(fd, l)], stage := s.stage[c := Accepted],
       loops := s.loops[l := s.loops[l].(reg := reg.(chans := reg.chans[c := ChannelState(fd, NONE_EVENT, New)]))])
  }

  /** newConnection: runInLoop establishes at once when the base loop keeps the connection. */
  function DoAccept(s: Server, fd: int): Server
    requires s.pool.Valid() && NextLoop(s.pool) in s.loops
  {
    var c, l := s.nextId, NextLoop(s.pool);
    if l == s.pool.base then DoEstablish(Admit(s, fd), c) else Push(Admit(s, fd), l, Establish(c))
  }

  // ------------------------------------------------------------------ ownership

  /** A functor that owns c is among these. */
  predicate OwnerIn(tasks: seq<Task>, c: ConnId) {
    exists t :: t in tasks && Owns(t) && t.c == c
  }

  /** A functor that owns c sits in l's queue, or in l's batch, which keeps it until the batch is over. */
  predicate TaskHolds(s: Server, l: LoopId, c: ConnId)
    requires l in s.loops
  {
    OwnerIn(s.loops[l].pending, c) || OwnerIn(s.loops[l].batch, c)
  }

  /** The library itself keeps c alive. */
  ghost predicate LibraryHolds(s: Server, c: ConnId) {
    c in s.connections.Values || exists l :: l in s.loops && TaskHolds(s, l, c)
  }

  /** The kernel would return this channel pointer. */
  ghost predicate Watched(r: Registry<ConnId>, c: ConnId) {
    exists fd :: fd in r.kernel && r.kernel[fd].ptr == c
  }

  // ------------------------------------------------------------------ steps

  datatype Step =
    | Accept(fd: int)                                  // the acceptor's handler on the base loop
    | PollReturn(l: LoopId, active: seq<ConnId>)
    | Handle(l: LoopId, close: bool)                   // the first active channel is handled
    | Write(l: LoopId, c: ConnId, q: Request, notify: bool)  // output on an established connection
    | Post(c: ConnId)                                  // any thread queues a functor that owns c
    | PostBare(c: ConnId)                              // another thread queues sendInLoop or shutdownInLoop
    | Swap(l: LoopId)
    | RunNext(l: LoopId)
    | Leave(l: LoopId)
    | Hold(c: ConnId)
    | Release(c: ConnId)
    | Free(c: ConnId)                                  // the last shared_ptr goes

  predicate InUse(s: Server, fd: int) {
    exists c :: c in s.info && c !in s.freed && s.info[c].fd == fd
  }

  ghost predicate Enabled(s: Server, step: Step) {
    match step
    case Accept(fd) =>
      s.pool.Valid() && NextLoop(s.pool) in s.loops && s.pool.base in s.loops
      && s.loops[s.pool.base].phase.Handling? && !InUse(s, fd)
    case PollReturn(l, active) =>
      && l in s.loops && s.loops[l].phase.Polling?
      && (forall i :: 0 <= i < |active| ==> Watched(s.loops[l].reg, active[i]))
      && (forall i, j :: 0 <= i < j < |active| ==> active[i] != active[j])
    case Handle(l, close) =>
      && l in s.loops && s.loops[l].phase.Handling? && s.loops[l].active != []
      && Known(s, s.loops[l].active[0]) && s.info[s.loops[l].active[0]].loop == l && s.pool.base in s.loops
    case Write(l, c, q, notify) =>
      && l in s.loops && !s.loops[l].phase.Polling? && Known(s, c) && s.info[c].loop == l
      && s.stage[c].Established? && (q.EnableWriting? || q.DisableWriting?)
    case Post(c) => c in s.info && c !in s.freed && s.info[c].loop in s.loops
    case PostBare(c) => c in s.info && c !in s.freed && s.info[c].loop in s.loops
    case Swap(l) => l in s.loops && s.loops[l].phase.Handling? && s.loops[l].active == []
    case RunNext(l) =>
      && l in s.loops && s.loops[l].phase.Calling? && s.loops[l].next < |s.loops[l].batch|
      && (Owns(s.loops[l].batch[s.loops[l].next]) ==> Known(s, s.loops[l].batch[s.loops[l].next].c))
    case Leave(l) => l in s.loops && s.loops[l].phase.Calling? && s.loops[l].next == |s.loops[l].batch|
    case Hold(c) => c in s.info && c !in s.freed
    case Release(c) => c in s.userHolds
    case Free(c) => c in s.info && c !in s.freed && c !in s.userHolds && !LibraryHolds(s, c)
                    && s.info[c].loop in s.loops
  }

  function SetLoop(s: Server, l: LoopId, ls: LoopState): Server {
    s.(loops := s.loops[l := ls])
  }

  function Apply(s: Server, step: Step): Server
    requires Enabled(s, step)
  {
    match step
    case Accept(fd) => DoAccept(s, fd)
    case PollReturn(l, active) => SetLoop(s, l, s.loops[l].(phase := Handling, active := active))
    case Handle(l, close) =>
      var c := s.loops[l].active[0];
      var d := SetLoop(s, l, s.loops[l].(active := s.loops[l].active[1..]));
      if close then DoClose(d, l, c) else d
    case Write(l, c, q, notify) =>
      var d := SetInterest(s, l, c, q);
      if notify then Push(d, l, Notice(c)) else d
    case Post(c) => Push(s, s.info[c].loop, Notice(c))
    case PostBare(c) => Push(s, s.info[c].loop, Bare(c))
    case Swap(l) =>
      SetLoop(s, l, s.loops[l].(phase := Calling, batch := s.loops[l].pending, next := 0, pending := []))
    case RunNext(l) =>
      DoTask(SetLoop(s, l, StartNext(s.loops[l])), s.loops[l].batch[s.loops[l].next])
    case Leave(l) => SetLoop(s, l, s.loops[l].(phase := Polling, batch := [], next := 0))
    case Hold(c) => s.(userHolds := s.userHolds + {c})
    case Release(c) => s.(userHolds := s.userHolds - {c})
    case Free(c) =>
      var l := s.info[c].loop;
      var reg := s.loops[l].reg;
      SetLoop(s, l, s.loops[l].(reg := reg.(chans := reg.chans - {c}))).(freed := s.freed + {c})
  }

  // ------------------------------------------------------------------ runs

  predicate IdleLoop(ls: LoopState) {
    ls == LoopState(Polling, [], [], 0, [], Registry(map[], map[], map[], 0), 0)
  }

  /** A started server: its loops run and no connection has been accepted; nextConnId_ starts at 1. */
  ghost predicate Fresh(s: Server) {
    && s.pool.Valid() && s.pool.base in s.loops && (forall l :: l in s.pool.loops ==> l in s.loops)
    && s.nextId == 1 && s.connections == map[] && s.info == map[] && s.freed == {} && s.userHolds == {}
    && s.stage == map[] && s.erasures == [] && s.destructions == []
    && (forall l :: l in s.loops ==> IdleLoop(s.loops[l]))
  }

  ghost predicate Next(s: Server, s': Server) {
    exists step :: Enabled(s, step) && s' == Apply(s, step)
  }

  ghost predicate IsRun(run: seq<Server>) {
    && run != [] && Fresh(run[0])
    && forall i :: 0 <= i < |run| - 1 ==> Next(run[i], run[i + 1])
  }
}
