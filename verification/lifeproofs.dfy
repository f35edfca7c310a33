/** What every interleaving of the connection lifecycle keeps. */
module LifeProofs {
  import opened Kernel
  import opened Registry
  import opened Naming
  import opened ThreadPool
  import opened Lifecycle

  // ------------------------------------------------------------------ obligations

  /** The functors a loop has still to start. */
  function OwedBy(ls: LoopState): multiset<Task>
    requires ls.next <= |ls.batch|
  {
    multiset(ls.batch[ls.next..]) + multiset(ls.pending)
  }

  function Owed(s: Server, l: LoopId): multiset<Task>
    requires l in s.loops && s.loops[l].next <= |s.loops[l].batch|
  {
    OwedBy(s.loops[l])
  }

  /** The functors that take a connection from stage to stage. */
  predicate IsDuty(t: Task) {
    t.Establish? || t.Remove? || t.Destroy?
  }

  /** How often loop l must owe task t: an accepted connection is owed one connectEstablished by its own
      loop, a closed one one removal by the base loop, an erased one one connectDestroyed by its own loop. */
  function Expected(s: Server, l: LoopId, t: Task): nat {
    if t.c in s.stage && t.c in s.info then
      match t
      case Establish(c) => if s.stage[c].Accepted? && l == s.info[c].loop then 1 else 0
      case Remove(c) => if s.stage[c].Closed? && l == s.pool.base then 1 else 0
      case Destroy(c) => if s.stage[c].Erased? && l == s.info[c].loop then 1 else 0
      case Notice(_) => 0
      case Bare(_) => 0
    else 0
  }

  /** A task that has been taken up, or is about to be queued or run inline: it still counts as owed. */
  datatype Credit = NoCredit | Credit(l: LoopId, t: Task)

  function Extra(cr: Credit, l: LoopId, t: Task): nat {
    if cr.Credit? && cr.l == l && cr.t == t then 1 else 0
  }

  ghost predicate PhaseInv(s: Server) {
    forall l :: l in s.loops ==>
      && s.loops[l].next <= |s.loops[l].batch|
      && (!s.loops[l].phase.Calling? ==> s.loops[l].batch == [] && s.loops[l].next == 0)
      && (!s.loops[l].phase.Handling? ==> s.loops[l].active == [])
  }

  ghost predicate OwedInv(s: Server, cr: Credit)
    requires PhaseInv(s)
  {
    forall l: LoopId, t: Task :: l in s.loops && IsDuty(t) ==> Owed(s, l)[t] + Extra(cr, l, t) == Expected(s, l, t)
  }

  // ------------------------------------------------------------------ structure

  ghost predicate ShapeInv(s: Server) {
    && s.pool.Valid() && s.pool.base in s.loops && (forall l :: l in s.pool.loops ==> l in s.loops)
    && s.nextId >= 1 && s.stage.Keys == s.info.Keys
    && (forall c :: c in s.info <==> 1 <= c < s.nextId)
    && (forall c :: c in s.info ==> s.info[c].loop in s.loops)
    && s.freed <= s.info.Keys && s.userHolds <= s.info.Keys
  }

  predicate InMap(st: Stage) {
    st.Accepted? || st.Established? || st.Closed?
  }

  /** The map holds exactly the connections accepted and not removed, each under its own name. */
  ghost predicate MapInv(s: Server)
    requires s.stage.Keys == s.info.Keys
  {
    && (forall c :: c in s.info && InMap(s.stage[c]) ==> NameOf(s, c) in s.connections && s.connections[NameOf(s, c)] == c)
    && (forall n :: n in s.connections ==>
          s.connections[n] in s.info && InMap(s.stage[s.connections[n]]) && n == NameOf(s, s.connections[n]))
  }

  /** Whatever refers to a connection refers to one that has not been freed. */
  ghost predicate HeldInv(s: Server)
    requires s.stage.Keys == s.info.Keys
  {
    forall l, c :: l in s.loops && TaskHolds(s, l, c) ==> c in s.info && c !in s.freed
  }

  ghost predicate AliveInv(s: Server)
    requires s.stage.Keys == s.info.Keys
  {
    forall c :: c in s.info && !s.stage[c].Destroyed? ==> c !in s.freed
  }

  predicate IndexFits(st: Stage, ch: ChannelState) {
    match st
    case Established => ch.index.Added? && IsReading(ch.events)
    case Closed => ch.index.Deleted?
    case Erased => ch.index.Deleted?
    case _ => ch.index.New?
  }

  /** A registry of loop l: it agrees, knows exactly the loop's living connections, and has each where
      its stage says. */
  ghost predicate RegFits(r: Registry<ConnId>, l: LoopId, info: map<ConnId, Info>, stage: map<ConnId, Stage>, freed: set<ConnId>)
    requires stage.Keys == info.Keys
  {
    && Agree(r)
    && (forall c :: c in r.chans <==> c in info && info[c].loop == l && c !in freed)
    && (forall c :: c in r.chans ==> r.chans[c].fd == info[c].fd && IndexFits(stage[c], r.chans[c]))
  }

  ghost predicate RegInv(s: Server, l: LoopId)
    requires l in s.loops && s.stage.Keys == s.info.Keys
  {
    RegFits(s.loops[l].reg, l, s.info, s.stage, s.freed)
  }

  /** Channels reported and not yet handled are established ones of the loop, each listed once. */
  ghost predicate ActiveInv(s: Server, l: LoopId)
    requires l in s.loops && s.stage.Keys == s.info.Keys
  {
    var a := s.loops[l].active;
    && (forall i :: 0 <= i < |a| ==> a[i] in s.info && s.stage[a[i]].Established? && s.info[a[i]].loop == l)
    && (forall i, j :: 0 <= i < j < |a| ==> a[i] != a[j])
  }

  /** Descriptors in use are distinct. */
  ghost predicate FdInv(s: Server) {
    forall c, d :: c in s.info && d in s.info && c !in s.freed && d !in s.freed && s.info[c].fd == s.info[d].fd ==> c == d
  }

  ghost predicate HistoryInv(s: Server)
    requires s.stage.Keys == s.info.Keys
  {
    && (forall c :: multiset(s.erasures)[c] == if c in s.info && Rank(s.stage[c]) >= 3 then 1 else 0)
    && (forall c :: multiset(s.destructions)[c] == if c in s.info && Rank(s.stage[c]) >= 4 then 1 else 0)
  }

  /** What does not depend on the queues and active lists. */
  ghost predicate Records(s: Server) {
    && ShapeInv(s) && MapInv(s) && AliveInv(s) && FdInv(s) && HistoryInv(s)
    && (forall l :: l in s.loops ==> RegInv(s, l))
  }

  /** What the queues, batches and active lists must hold. */
  ghost predicate Queues(s: Server, cr: Credit)
    requires s.stage.Keys == s.info.Keys
  {
    PhaseInv(s) && OwedInv(s, cr) && HeldInv(s) && (forall l :: l in s.loops ==> ActiveInv(s, l))
  }

  ghost predicate Inv(s: Server, cr: Credit) {
    Records(s) && Queues(s, cr)
  }

  lemma FreshInv(s: Server)
    requires Fresh(s)
    ensures Inv(s, NoCredit)
  {
  }

  // ------------------------------------------------------------------ requests on a channel

  /** A channel after a request that its poller accepts. */
  function Watches(ch: ChannelState, q: Request): ChannelState {
    var events := NewEvents(ch.events, q);
    ChannelState(ch.fd, events, if ch.index.Added? && events == NONE_EVENT then Deleted else Added)
  }

  lemma AskEffect<C>(r: Registry<C>, c: C, q: Request)
    requires c in r.chans && Agree(r) && Clear(r, c)
    ensures Agree(After(r, Ask(c, q)))
    ensures After(r, Ask(c, q)).chans == r.chans[c := Watches(r.chans[c], q)]
  {
    UpdateAgrees(r, c, NewEvents(r.chans[c].events, q));
  }

  lemma ClearIn(s: Server, c: ConnId)
    requires ShapeInv(s) && FdInv(s) && c in s.info && c !in s.freed
    requires RegInv(s, s.info[c].loop)
    ensures Known(s, c) && Clear(s.loops[s.info[c].loop].reg, c)
  {
    var r := s.loops[s.info[c].loop].reg;
    assert ChannelAgrees(r, c);
  }

  // ------------------------------------------------------------------ queues

  lemma QueuesKeepRegs(s: Server, l: LoopId, ls: LoopState)
    requires s.stage.Keys == s.info.Keys && l in s.loops && ls.reg == s.loops[l].reg
    requires forall k :: k in s.loops ==> RegInv(s, k)
    ensures forall k :: k in s.loops ==> RegInv(SetLoop(s, l, ls), k)
  {
    hide RegFits;
    forall k | k in s.loops
      ensures RegInv(SetLoop(s, l, ls), k)
    {
      assert RegInv(s, k);
    }
  }

  lemma QueuesKeepMap(s: Server, l: LoopId, ls: LoopState)
    requires s.stage.Keys == s.info.Keys && MapInv(s) && HistoryInv(s)
    ensures MapInv(SetLoop(s, l, ls)) && HistoryInv(SetLoop(s, l, ls))
  {
    hide ConnName;
  }

  lemma QueuesKeepShape(s: Server, l: LoopId, ls: LoopState)
    requires ShapeInv(s) && AliveInv(s) && FdInv(s) && l in s.loops
    ensures ShapeInv(SetLoop(s, l, ls)) && AliveInv(SetLoop(s, l, ls)) && FdInv(SetLoop(s, l, ls))
  {
  }

  lemma QueuesKeepRecords(s: Server, l: LoopId, ls: LoopState)
    requires Records(s) && l in s.loops && ls.reg == s.loops[l].reg
    ensures Records(SetLoop(s, l, ls))
  {
    hide RegInv, MapInv, HistoryInv, FdInv, AliveInv;
    QueuesKeepMap(s, l, ls);
    QueuesKeepShape(s, l, ls);
    QueuesKeepRegs(s, l, ls);
  }

  predicate PhaseFits(ls: LoopState) {
    && ls.next <= |ls.batch|
    && (!ls.phase.Calling? ==> ls.batch == [] && ls.next == 0)
    && (!ls.phase.Handling? ==> ls.active == [])
  }

  ghost predicate ActiveFits(s: Server, l: LoopId, a: seq<ConnId>)
    requires s.stage.Keys == s.info.Keys
  {
    && (forall i :: 0 <= i < |a| ==> a[i] in s.info && s.stage[a[i]].Established? && s.info[a[i]].loop == l)
    && (forall i, j :: 0 <= i < j < |a| ==> a[i] != a[j])
  }

  ghost predicate TasksFit(s: Server, tasks: seq<Task>) {
    forall t :: t in tasks && Owns(t) ==> t.c in s.info && t.c !in s.freed
  }

  /** Tasks taken from, or given to, loop l's queues show up as credit. */
  ghost predicate SameAccount(old_: LoopState, ls: LoopState, l: LoopId, cr: Credit, cr': Credit)
    requires old_.next <= |old_.batch| && ls.next <= |ls.batch|
  {
    && (forall t: Task :: IsDuty(t) ==> OwedBy(ls)[t] + Extra(cr', l, t) == OwedBy(old_)[t] + Extra(cr, l, t))
    && (forall k: LoopId, t: Task :: k != l ==> Extra(cr', k, t) == Extra(cr, k, t))
  }

  lemma ExpectedIgnoresQueues(s: Server, l: LoopId, ls: LoopState, k: LoopId, t: Task)
    ensures Expected(SetLoop(s, l, ls), k, t) == Expected(s, k, t)
  {
  }

  lemma QueueStepOwed(s: Server, l: LoopId, ls: LoopState, cr: Credit, cr': Credit)
    requires l in s.loops && PhaseInv(s) && OwedInv(s, cr) && PhaseFits(ls)
    requires SameAccount(s.loops[l], ls, l, cr, cr')
    ensures PhaseInv(SetLoop(s, l, ls)) && OwedInv(SetLoop(s, l, ls), cr')
  {
    hide Expected, OwedBy, Extra;
    var s' := SetLoop(s, l, ls);
    forall k: LoopId, t: Task | k in s'.loops && IsDuty(t)
      ensures Owed(s', k)[t] + Extra(cr', k, t) == Expected(s', k, t)
    {
      ExpectedIgnoresQueues(s, l, ls, k, t);
      assert Owed(s, k)[t] + Extra(cr, k, t) == Expected(s, k, t);
    }
  }

  lemma QueueStepHeld(s: Server, l: LoopId, ls: LoopState)
    requires s.stage.Keys == s.info.Keys && HeldInv(s) && l in s.loops
    requires TasksFit(s, ls.pending) && TasksFit(s, ls.batch)
    ensures HeldInv(SetLoop(s, l, ls))
  {
    var s' := SetLoop(s, l, ls);
    forall k, c | k in s'.loops && TaskHolds(s', k, c)
      ensures c in s'.info && c !in s'.freed
    {
      assert k != l ==> TaskHolds(s, k, c);
    }
  }

  lemma QueueStepActive(s: Server, l: LoopId, ls: LoopState)
    requires l in s.loops && s.stage.Keys == s.info.Keys && ActiveFits(s, l, ls.active)
    requires forall k :: k in s.loops ==> ActiveInv(s, k)
    ensures forall k :: k in s.loops ==> ActiveInv(SetLoop(s, l, ls), k)
  {
    forall k | k in s.loops
      ensures ActiveInv(SetLoop(s, l, ls), k)
    {
      assert ActiveInv(s, k);
    }
  }

  /** Any change of one loop's queues, batch and active list that fits keeps everything. */
  lemma QueueStepKeeps(s: Server, l: LoopId, ls: LoopState, cr: Credit, cr': Credit)
    requires Inv(s, cr) && l in s.loops && ls.reg == s.loops[l].reg && PhaseFits(ls)
    requires SameAccount(s.loops[l], ls, l, cr, cr')
    requires TasksFit(s, ls.pending) && TasksFit(s, ls.batch) && ActiveFits(s, l, ls.active)
    ensures Inv(SetLoop(s, l, ls), cr')
  {
    QueuesKeepRecords(s, l, ls);
    QueueStepOwed(s, l, ls, cr, cr');
    QueueStepHeld(s, l, ls);
    QueueStepActive(s, l, ls);
  }

  /** What the invariant says about one loop. */
  lemma LoopFits(s: Server, l: LoopId, cr: Credit)
    requires Inv(s, cr) && l in s.loops
    ensures PhaseFits(s.loops[l]) && TasksFit(s, s.loops[l].pending) && TasksFit(s, s.loops[l].batch)
    ensures ActiveFits(s, l, s.loops[l].active)
  {
    var ls := s.loops[l];
    forall t | (t in ls.pending || t in ls.batch) && Owns(t)
      ensures t.c in s.info && t.c !in s.freed
    {
      assert TaskHolds(s, l, t.c);
    }
    assert ActiveInv(s, l);
  }

  lemma PushAccount(old_: LoopState, l: LoopId, t: Task, cr: Credit)
    requires old_.next <= |old_.batch| && (!IsDuty(t) || cr == Credit(l, t))
    ensures SameAccount(old_, old_.(pending := old_.pending + [t]), l, cr, if !IsDuty(t) then cr else NoCredit)
  {
    assert OwedBy(old_.(pending := old_.pending + [t])) == OwedBy(old_) + multiset{t};
  }

  /** Queuing the task that is still to be accounted for, or a notice. */
  lemma PushKeeps(s: Server, l: LoopId, t: Task, cr: Credit)
    requires Inv(s, cr) && l in s.loops && (Owns(t) ==> t.c in s.info && t.c !in s.freed)
    requires !IsDuty(t) || cr == Credit(l, t)
    ensures Inv(Push(s, l, t), if !IsDuty(t) then cr else NoCredit)
  {
    hide Inv;
    var ls := s.loops[l].(pending := s.loops[l].pending + [t]);
    LoopFits(s, l, cr);
    PushAccount(s.loops[l], l, t, cr);
    QueueStepKeeps(s, l, ls, cr, if !IsDuty(t) then cr else NoCredit);
  }

  /** The swap moves what is owed from the queue to the batch. */
  lemma SwapKeeps(s: Server, l: LoopId)
    requires Inv(s, NoCredit) && Enabled(s, Swap(l))
    ensures Inv(Apply(s, Swap(l)), NoCredit)
  {
    hide Inv;
    var ls := s.loops[l].(phase := Calling, batch := s.loops[l].pending, next := 0, pending := []);
    LoopFits(s, l, NoCredit);
    assert ls.batch[0..] == s.loops[l].pending && s.loops[l].batch[s.loops[l].next..] == [];
    assert OwedBy(ls) == OwedBy(s.loops[l]);
    QueueStepKeeps(s, l, ls, NoCredit, NoCredit);
  }

  lemma LeaveKeeps(s: Server, l: LoopId)
    requires Inv(s, NoCredit) && Enabled(s, Leave(l))
    ensures Inv(Apply(s, Leave(l)), NoCredit)
  {
    hide Inv;
    var ls := s.loops[l].(phase := Polling, batch := [], next := 0);
    LoopFits(s, l, NoCredit);
    assert OwedBy(ls) == OwedBy(s.loops[l]);
    QueueStepKeeps(s, l, ls, NoCredit, NoCredit);
  }

  function CreditFor(l: LoopId, t: Task): Credit {
    if !IsDuty(t) then NoCredit else Credit(l, t)
  }

  lemma PopAccount(old_: LoopState, l: LoopId)
    requires old_.next < |old_.batch|
    ensures SameAccount(old_, StartNext(old_), l, NoCredit, CreditFor(l, old_.batch[old_.next]))
  {
    var n, batch := old_.next, old_.batch;
    assert batch[n..] == [batch[n]] + batch[n + 1..];
    assert OwedBy(old_) == OwedBy(StartNext(old_)) + multiset{batch[n]};
  }

  /** Starting the next functor of a batch turns it into credit. */
  lemma PopKeeps(s: Server, l: LoopId)
    requires Inv(s, NoCredit) && Enabled(s, RunNext(l))
    ensures Inv(SetLoop(s, l, StartNext(s.loops[l])),
                CreditFor(l, s.loops[l].batch[s.loops[l].next]))
  {
    hide Inv;
    LoopFits(s, l, NoCredit);
    PopAccount(s.loops[l], l);
    QueueStepKeeps(s, l, StartNext(s.loops[l]), NoCredit,
                   CreditFor(l, s.loops[l].batch[s.loops[l].next]));
  }

  /** Only established channels are in the kernel's set. */
  lemma WatchedIsEstablished(s: Server, l: LoopId, c: ConnId)
    requires Records(s) && l in s.loops && Watched(s.loops[l].reg, c)
    ensures c in s.info && s.info[c].loop == l && c !in s.freed && s.stage[c].Established?
  {
    var r := s.loops[l].reg;
    var fd :| fd in r.kernel && r.kernel[fd].ptr == c;
    assert RegInv(s, l);
    assert r.kernel[fd].ptr == r.mapped[fd] && c in r.chans && r.chans[c].fd == fd;
    assert ChannelAgrees(r, c);
  }

  lemma PollKeeps(s: Server, l: LoopId, active: seq<ConnId>)
    requires Inv(s, NoCredit) && Enabled(s, PollReturn(l, active))
    ensures Inv(Apply(s, PollReturn(l, active)), NoCredit)
  {
    var ls := s.loops[l].(phase := Handling, active := active);
    LoopFits(s, l, NoCredit);
    forall i | 0 <= i < |active|
      ensures active[i] in s.info && s.stage[active[i]].Established? && s.info[active[i]].loop == l
    {
      WatchedIsEstablished(s, l, active[i]);
    }
    assert OwedBy(ls) == OwedBy(s.loops[l]);
    QueueStepKeeps(s, l, ls, NoCredit, NoCredit);
  }

  /** Handling the first active channel takes it off the list. */
  lemma TakeActiveKeeps(s: Server, l: LoopId)
    requires Inv(s, NoCredit) && l in s.loops && s.loops[l].phase.Handling? && s.loops[l].active != []
    ensures Inv(SetLoop(s, l, s.loops[l].(active := s.loops[l].active[1..])), NoCredit)
  {
    hide Inv;
    var ls := s.loops[l].(active := s.loops[l].active[1..]);
    LoopFits(s, l, NoCredit);
    assert OwedBy(ls) == OwedBy(s.loops[l]);
    QueueStepKeeps(s, l, ls, NoCredit, NoCredit);
  }

  // ------------------------------------------------------------------ stages

  /** The task a connection is owed at a stage. */
  function Due(s: Server, c: ConnId, st: Stage): Credit
    requires c in s.info
  {
    match st
    case Accepted => Credit(s.info[c].loop, Establish(c))
    case Closed => Credit(s.pool.base, Remove(c))
    case Erased => Credit(s.info[c].loop, Destroy(c))
    case _ => NoCredit
  }

  /** A connection may move to another stage when what it was owed is in hand; then it is owed what the
      new stage calls for. */
  lemma MoveStageOwed(s: Server, c: ConnId, st: Stage)
    requires c in s.info && c in s.stage && PhaseInv(s) && OwedInv(s, Due(s, c, s.stage[c]))
    ensures OwedInv(SetStage(s, c, st), Due(s, c, st))
  {
    var s', cr, cr' := SetStage(s, c, st), Due(s, c, s.stage[c]), Due(s, c, st);
    forall k: LoopId, t: Task | k in s'.loops && IsDuty(t)
      ensures Owed(s', k)[t] + Extra(cr', k, t) == Expected(s', k, t)
    {
      assert Owed(s, k)[t] + Extra(cr, k, t) == Expected(s, k, t);
      if t.c == c {
        assert Extra(cr, k, t) == Expected(s, k, t);
        assert Extra(cr', k, t) == Expected(s', k, t);
      }
    }
  }

  /** A task in hand tells the stage of its connection, and that its own loop is the one that runs it. */
  lemma CreditTellsStage(s: Server, l: LoopId, t: Task)
    requires PhaseInv(s) && OwedInv(s, Credit(l, t)) && l in s.loops && IsDuty(t)
    ensures t.c in s.info && t.c in s.stage && Due(s, t.c, s.stage[t.c]) == Credit(l, t)
  {
    assert Owed(s, l)[t] + Extra(Credit(l, t), l, t) == Expected(s, l, t);
  }

  lemma AskFits(r: Registry<ConnId>, l: LoopId, info: map<ConnId, Info>, stage: map<ConnId, Stage>, freed: set<ConnId>,
                c: ConnId, q: Request, st: Stage)
    requires stage.Keys == info.Keys && RegFits(r, l, info, stage, freed)
    requires c in r.chans && Clear(r, c) && IndexFits(st, Watches(r.chans[c], q))
    ensures RegFits(After(r, Ask(c, q)), l, info, stage[c := st], freed)
  {
    hide Agree, IndexFits, After;
    AskEffect(r, c, q);
  }

  /** The other loops' registries know nothing of the connection. */
  lemma OtherRegFits(r: Registry<ConnId>, k: LoopId, info: map<ConnId, Info>, stage: map<ConnId, Stage>, freed: set<ConnId>,
                     c: ConnId, st: Stage)
    requires stage.Keys == info.Keys && RegFits(r, k, info, stage, freed) && c in info && info[c].loop != k
    ensures RegFits(r, k, info, stage[c := st], freed)
  {
    hide Agree, IndexFits;
  }

  /** A change of one channel's interest together with its connection's stage. */
  lemma InterestKeepsRegs(s: Server, c: ConnId, q: Request, st: Stage)
    requires Records(s) && c in s.info && c !in s.freed && Known(s, c)
    requires IndexFits(st, Watches(s.loops[s.info[c].loop].reg.chans[c], q))
    ensures var s' := SetStage(SetInterest(s, s.info[c].loop, c, q), c, st);
            s'.stage.Keys == s'.info.Keys && forall k :: k in s'.loops ==> RegInv(s', k)
  {
    hide RegFits, Agree, IndexFits, Watches, After;
    var l := s.info[c].loop;
    var s' := SetStage(SetInterest(s, l, c, q), c, st);
    ClearIn(s, c);
    forall k | k in s'.loops
      ensures RegInv(s', k)
    {
      assert RegInv(s, k);
      if k == l {
        AskFits(s.loops[l].reg, l, s.info, s.stage, s.freed, c, q, st);
      } else {
        OtherRegFits(s.loops[k].reg, k, s.info, s.stage, s.freed, c, st);
      }
    }
  }

  /** A new registry leaves the queues as they are. */
  lemma RegChangeKeepsQueues(s: Server, l: LoopId, reg: Registry<ConnId>, cr: Credit)
    requires s.stage.Keys == s.info.Keys && Queues(s, cr) && l in s.loops
    ensures Queues(SetLoop(s, l, s.loops[l].(reg := reg)), cr)
  {
    var s' := SetLoop(s, l, s.loops[l].(reg := reg));
    forall k: LoopId, t: Task | k in s'.loops && IsDuty(t)
      ensures Owed(s', k)[t] + Extra(cr, k, t) == Expected(s', k, t)
    {
      assert Owed(s, k)[t] + Extra(cr, k, t) == Expected(s, k, t);
    }
    forall k, c | k in s'.loops && TaskHolds(s', k, c)
      ensures c in s'.info && c !in s'.freed
    {
      assert TaskHolds(s, k, c);
    }
    forall k | k in s'.loops
      ensures ActiveInv(s', k)
    {
      assert ActiveInv(s, k);
    }
  }

  /** A new stage, the old stage's task being in hand, leaves the queues fitting. */
  lemma StageKeepsQueues(s: Server, c: ConnId, st: Stage)
    requires s.stage.Keys == s.info.Keys && c in s.info && Queues(s, Due(s, c, s.stage[c]))
    requires forall l :: l in s.loops ==> c !in s.loops[l].active
    ensures Queues(SetStage(s, c, st), Due(s, c, st))
  {
    var s' := SetStage(s, c, st);
    MoveStageOwed(s, c, st);
    forall k, d | k in s'.loops && TaskHolds(s', k, d)
      ensures d in s'.info && d !in s'.freed
    {
      assert TaskHolds(s, k, d);
    }
    forall k | k in s'.loops
      ensures ActiveInv(s', k)
    {
      assert ActiveInv(s, k);
    }
  }

  /** A connection that is not established is on no active list. */
  lemma OnlyEstablishedActive(s: Server, c: ConnId, cr: Credit)
    requires s.stage.Keys == s.info.Keys && c in s.info && Queues(s, cr) && !s.stage[c].Established?
    ensures forall l :: l in s.loops ==> c !in s.loops[l].active
  {
    forall l | l in s.loops
      ensures c !in s.loops[l].active
    {
      assert ActiveInv(s, l);
    }
  }

  /** The records after a request on a channel and a new stage on the same side of the removal. */
  lemma InterestKeepsRecords(s: Server, c: ConnId, q: Request, st: Stage)
    requires Records(s) && c in s.info && c !in s.freed && Known(s, c)
    requires IndexFits(st, Watches(s.loops[s.info[c].loop].reg.chans[c], q))
    requires InMap(st) && InMap(s.stage[c])
    ensures Records(SetStage(SetInterest(s, s.info[c].loop, c, q), c, st))
  {
    hide RegInv, IndexFits, Watches, After, ConnName, MapInv, HistoryInv, InMap;
    InterestKeepsRegs(s, c, q, st);
    var d := SetInterest(s, s.info[c].loop, c, q);
    InterestKeepsMap(s, c, q);
    StageKeepsMap(d, c, st);
    StageKeepsRest(d, c, st);
  }

  lemma InterestKeepsMap(s: Server, c: ConnId, q: Request)
    requires s.stage.Keys == s.info.Keys && MapInv(s) && HistoryInv(s) && Known(s, c)
    ensures var d := SetInterest(s, s.info[c].loop, c, q);
            MapInv(d) && HistoryInv(d) && d.stage == s.stage && d.info == s.info
  {
    hide ConnName, After;
  }

  lemma StageKeepsRest(s: Server, c: ConnId, st: Stage)
    requires ShapeInv(s) && AliveInv(s) && FdInv(s) && c in s.info && InMap(s.stage[c])
    ensures ShapeInv(SetStage(s, c, st)) && AliveInv(SetStage(s, c, st)) && FdInv(SetStage(s, c, st))
  {
  }

  lemma StageKeepsMap(s: Server, c: ConnId, st: Stage)
    requires s.stage.Keys == s.info.Keys && MapInv(s) && HistoryInv(s) && c in s.info && InMap(st) && InMap(s.stage[c])
    ensures MapInv(SetStage(s, c, st)) && HistoryInv(SetStage(s, c, st))
  {
    hide ConnName;
  }

  lemma InterestKeepsQueues(s: Server, c: ConnId, q: Request, st: Stage)
    requires s.stage.Keys == s.info.Keys && Known(s, c) && Queues(s, Due(s, c, s.stage[c]))
    requires forall l :: l in s.loops ==> c !in s.loops[l].active
    ensures Queues(SetStage(SetInterest(s, s.info[c].loop, c, q), c, st), Due(s, c, st))
  {
    hide Queues;
    var l := s.info[c].loop;
    var d := SetInterest(s, l, c, q);
    RegChangeKeepsQueues(s, l, After(s.loops[l].reg, Ask(c, q)), Due(s, c, s.stage[c]));
    assert d == SetLoop(s, l, s.loops[l].(reg := After(s.loops[l].reg, Ask(c, q))));
    StageKeepsQueues(d, c, st);
  }

  // ------------------------------------------------------------------ the transitions

  lemma EstablishFits(ch: ChannelState)
    requires IndexFits(Accepted, ch)
    ensures IndexFits(Established, Watches(ch, EnableReading))
  {
    RequestsMeanWhatTheySay(ch.events);
  }

  lemma CloseFits(ch: ChannelState)
    requires IndexFits(Established, ch)
    ensures IndexFits(Closed, Watches(ch, DisableAll))
  {
  }

  lemma WriteFits(ch: ChannelState, q: Request)
    requires IndexFits(Established, ch) && (q.EnableWriting? || q.DisableWriting?)
    ensures IndexFits(Established, Watches(ch, q))
  {
    RequestsMeanWhatTheySay(ch.events);
    assert !IsReading(NONE_EVENT);
  }

  /** A living connection's channel is where its stage says. */
  lemma ChannelFits(s: Server, c: ConnId)
    requires Records(s) && c in s.info && c !in s.freed
    ensures Known(s, c) && s.stage.Keys == s.info.Keys && c in s.stage
    ensures IndexFits(s.stage[c], s.loops[s.info[c].loop].reg.chans[c])
  {
    ClearIn(s, c);
    assert RegInv(s, s.info[c].loop);
  }

  /** A task in hand: its connection lives, is at the stage that calls for it, and is on no active list. */
  lemma InHand(s: Server, l: LoopId, t: Task)
    requires Inv(s, Credit(l, t)) && l in s.loops && IsDuty(t)
    ensures s.stage.Keys == s.info.Keys && t.c in s.info && t.c !in s.freed && Known(s, t.c)
    ensures Due(s, t.c, s.stage[t.c]) == Credit(l, t)
    ensures forall k :: k in s.loops ==> t.c !in s.loops[k].active
  {
    CreditTellsStage(s, l, t);
    ChannelFits(s, t.c);
    OnlyEstablishedActive(s, t.c, Credit(l, t));
  }

  /** connectEstablished, with its task in hand. */
  lemma EstablishKeeps(s: Server, l: LoopId, c: ConnId)
    requires Inv(s, Credit(l, Establish(c))) && l in s.loops
    ensures c in s.info && Known(s, c) && Inv(DoEstablish(s, c), NoCredit)
  {
    hide Records, Queues, IndexFits, Watches, After;
    InHand(s, l, Establish(c));
    ChannelFits(s, c);
    EstablishFits(s.loops[s.info[c].loop].reg.chans[c]);
    InterestKeepsRecords(s, c, EnableReading, Established);
    InterestKeepsQueues(s, c, EnableReading, Established);
  }

  /** The first part of handleClose; the removal is then in hand. */
  lemma CloseBegins(s: Server, c: ConnId)
    requires Inv(s, NoCredit) && c in s.info && c in s.stage && s.stage[c].Established? && c !in s.freed
    requires forall l :: l in s.loops ==> c !in s.loops[l].active
    ensures Known(s, c)
    ensures Inv(SetStage(SetInterest(s, s.info[c].loop, c, DisableAll), c, Closed), Credit(s.pool.base, Remove(c)))
  {
    hide Records, Queues, IndexFits, Watches, After;
    ChannelFits(s, c);
    CloseFits(s.loops[s.info[c].loop].reg.chans[c]);
    InterestKeepsRecords(s, c, DisableAll, Closed);
    InterestKeepsQueues(s, c, DisableAll, Closed);
  }

  /** Output on an established connection. */
  lemma WriteKeeps(s: Server, c: ConnId, q: Request)
    requires Inv(s, NoCredit) && c in s.info && c in s.stage && s.stage[c].Established? && c !in s.freed
    requires q.EnableWriting? || q.DisableWriting?
    ensures Known(s, c) && Inv(SetInterest(s, s.info[c].loop, c, q), NoCredit)
  {
    hide Records, Queues, IndexFits, Watches, After;
    ChannelFits(s, c);
    var l := s.info[c].loop;
    WriteFits(s.loops[l].reg.chans[c], q);
    InterestKeepsRecords(s, c, q, Established);
    RegChangeKeepsQueues(s, l, After(s.loops[l].reg, Ask(c, q)), NoCredit);
    var d := SetInterest(s, l, c, q);
    assert SetStage(d, c, Established) == d by {
      assert d.stage[c := Established] == d.stage;
    }
  }

  /** The map after an erase: the name of no other connection goes. */
  lemma EraseFromMap(s: Server, c: ConnId)
    requires s.stage.Keys == s.info.Keys && MapInv(s) && c in s.info && s.stage[c].Closed?
    ensures MapInv(SetStage(s.(connections := s.connections - {NameOf(s, c)}, erasures := s.erasures + [c]), c, Erased))
  {
    forall d | d in s.info
      ensures NameOf(s, d) == NameOf(s, c) <==> d == c
    {
      NamesAreDistinct(s.name, s.ipPort, d, c);
    }
  }

  /** A closed channel and an erased one's are both kDeleted. */
  lemma EraseFits(r: Registry<ConnId>, l: LoopId, info: map<ConnId, Info>, stage: map<ConnId, Stage>, freed: set<ConnId>, c: ConnId)
    requires stage.Keys == info.Keys && RegFits(r, l, info, stage, freed) && c in info && stage[c].Closed?
    ensures RegFits(r, l, info, stage[c := Erased], freed)
  {
    hide Agree;
  }

  lemma EraseRegs(s: Server, c: ConnId)
    requires Records(s) && c in s.info && s.stage[c].Closed?
    ensures forall k :: k in s.loops ==> RegFits(s.loops[k].reg, k, s.info, s.stage[c := Erased], s.freed)
  {
    hide RegFits;
    forall k | k in s.loops
      ensures RegFits(s.loops[k].reg, k, s.info, s.stage[c := Erased], s.freed)
    {
      assert RegInv(s, k);
      EraseFits(s.loops[k].reg, k, s.info, s.stage, s.freed, c);
    }
  }

  /** The server's map, history and stage in removeConnectionInLoop, before connectDestroyed is queued. */
  function Erase(s: Server, c: ConnId): Server {
    SetStage(s.(connections := s.connections - {NameOf(s, c)}, erasures := s.erasures + [c]), c, Erased)
  }

  lemma EraseHistory(s: Server, c: ConnId)
    requires s.stage.Keys == s.info.Keys && HistoryInv(s) && c in s.info && s.stage[c].Closed?
    ensures HistoryInv(Erase(s, c))
  {
  }

  lemma EraseKeepsRecords(s: Server, c: ConnId)
    requires Records(s) && c in s.info && s.stage[c].Closed?
    ensures Records(Erase(s, c))
  {
    hide RegFits, HistoryInv, MapInv;
    EraseFromMap(s, c);
    EraseHistory(s, c);
    EraseRegs(s, c);
  }

  /** The queues do not depend on the server's map and histories. */
  lemma MapKeepsQueues(s: Server, connections: map<string, ConnId>, erasures: seq<ConnId>, destructions: seq<ConnId>, cr: Credit)
    requires s.stage.Keys == s.info.Keys && Queues(s, cr)
    ensures Queues(s.(connections := connections, erasures := erasures, destructions := destructions), cr)
  {
    var s' := s.(connections := connections, erasures := erasures, destructions := destructions);
    forall k: LoopId, t: Task | k in s'.loops && IsDuty(t)
      ensures Owed(s', k)[t] + Extra(cr, k, t) == Expected(s', k, t)
    {
      assert Owed(s, k)[t] + Extra(cr, k, t) == Expected(s, k, t);
    }
    forall k, c | k in s'.loops && TaskHolds(s', k, c)
      ensures c in s'.info && c !in s'.freed
    {
      assert TaskHolds(s, k, c);
    }
    forall k | k in s'.loops
      ensures ActiveInv(s', k)
    {
      assert ActiveInv(s, k);
    }
  }

  /** removeConnectionInLoop, with its task in hand. */
  lemma RemoveKeeps(s: Server, l: LoopId, c: ConnId)
    requires Inv(s, Credit(l, Remove(c))) && l in s.loops
    ensures c in s.info && Known(s, c) && Inv(DoRemove(s, c), NoCredit)
  {
    hide Records, Queues;
    InHand(s, l, Remove(c));
    EraseKeepsRecords(s, c);
    var s1 := s.(connections := s.connections - {NameOf(s, c)}, erasures := s.erasures + [c]);
    MapKeepsQueues(s, s1.connections, s1.erasures, s.destructions, Credit(l, Remove(c)));
    StageKeepsQueues(s1, c, Erased);
    PushKeeps(Erase(s, c), s.info[c].loop, Destroy(c), Credit(s.info[c].loop, Destroy(c)));
  }

  lemma DropFits(r: Registry<ConnId>, l: LoopId, info: map<ConnId, Info>, stage: map<ConnId, Stage>, freed: set<ConnId>, c: ConnId)
    requires stage.Keys == info.Keys && RegFits(r, l, info, stage, freed) && c in r.chans && Clear(r, c)
    ensures RegFits(After(r, Drop(c)), l, info, stage[c := Destroyed], freed)
  {
    hide Agree;
    DropKeepsAgreementIff(r, c);
  }

  lemma DestroyRegs(s: Server, c: ConnId)
    requires Records(s) && c in s.info && s.stage[c].Erased?
    ensures Known(s, c) && forall k :: k in DoDestroy(s, c).loops ==>
              RegFits(DoDestroy(s, c).loops[k].reg, k, s.info, s.stage[c := Destroyed], s.freed)
  {
    hide RegFits, After;
    var l := s.info[c].loop;
    ClearIn(s, c);
    var s' := DoDestroy(s, c);
    forall k | k in s'.loops
      ensures RegFits(s'.loops[k].reg, k, s.info, s.stage[c := Destroyed], s.freed)
    {
      assert RegInv(s, k);
      if k == l {
        DropFits(s.loops[l].reg, l, s.info, s.stage, s.freed, c);
      } else {
        OtherRegFits(s.loops[k].reg, k, s.info, s.stage, s.freed, c, Destroyed);
      }
    }
  }

  lemma DestroyHistory(s: Server, c: ConnId)
    requires s.stage.Keys == s.info.Keys && HistoryInv(s) && c in s.info && s.stage[c].Erased? && Known(s, c)
    ensures HistoryInv(DoDestroy(s, c))
  {
    hide After;
  }

  /** connectDestroyed on the records. */
  lemma DestroyKeepsRecords(s: Server, c: ConnId)
    requires Records(s) && c in s.info && s.stage[c].Erased?
    ensures Known(s, c) && Records(DoDestroy(s, c))
  {
    hide RegFits, HistoryInv, MapInv, FdInv, After, ConnName;
    DestroyRegs(s, c);
    DestroyHistory(s, c);
    DestroyMap(s, c);
  }

  lemma DestroyMap(s: Server, c: ConnId)
    requires s.stage.Keys == s.info.Keys && MapInv(s) && FdInv(s) && c in s.info && s.stage[c].Erased? && Known(s, c)
    ensures MapInv(DoDestroy(s, c)) && FdInv(DoDestroy(s, c))
  {
    hide ConnName, After;
  }

  lemma DestroyKeeps(s: Server, l: LoopId, c: ConnId)
    requires Inv(s, Credit(l, Destroy(c))) && l in s.loops
    ensures c in s.info && Known(s, c) && Inv(DoDestroy(s, c), NoCredit)
  {
    hide Records, Queues, After;
    InHand(s, l, Destroy(c));
    DestroyKeepsRecords(s, c);
    var reg := After(s.loops[l].reg, Drop(c));
    RegChangeKeepsQueues(s, l, reg, Credit(l, Destroy(c)));
    var s1 := SetLoop(s, l, s.loops[l].(reg := reg));
    MapKeepsQueues(s1, s.connections, s.erasures, s.destructions + [c], Credit(l, Destroy(c)));
    StageKeepsQueues(s1.(destructions := s.destructions + [c]), c, Destroyed);
  }

  /** handleClose with the server's removeConnection, on the base loop inline and elsewhere queued. */
  lemma CloseKeeps(s: Server, l: LoopId, c: ConnId)
    requires Inv(s, NoCredit) && c in s.info && c in s.stage && s.stage[c].Established? && c !in s.freed
    requires l == s.info[c].loop && s.pool.base in s.loops
    requires forall k :: k in s.loops ==> c !in s.loops[k].active
    ensures Known(s, c) && Inv(DoClose(s, l, c), NoCredit)
  {
    hide Inv, After;
    CloseBegins(s, c);
    var d := SetStage(SetInterest(s, l, c, DisableAll), c, Closed);
    if l == s.pool.base {
      RemoveKeeps(d, l, c);
    } else {
      PushKeeps(d, s.pool.base, Remove(c), Credit(s.pool.base, Remove(c)));
    }
  }

  lemma TakenOff(s: Server, l: LoopId, c: ConnId)
    requires s.stage.Keys == s.info.Keys && l in s.loops && s.loops[l].active != [] && c == s.loops[l].active[0]
    requires forall k :: k in s.loops ==> ActiveInv(s, k)
    ensures forall k :: k in s.loops ==> c !in SetLoop(s, l, s.loops[l].(active := s.loops[l].active[1..])).loops[k].active
  {
    assert ActiveInv(s, l);
    forall k | k in s.loops && k != l
      ensures c !in s.loops[k].active
    {
      assert ActiveInv(s, k);
    }
  }

  /** What the head of an active list is. */
  lemma HeadOfActive(s: Server, l: LoopId)
    requires Inv(s, NoCredit) && l in s.loops && s.loops[l].active != []
    ensures s.stage.Keys == s.info.Keys
    ensures var c := s.loops[l].active[0];
            c in s.info && s.stage[c].Established? && s.info[c].loop == l && c !in s.freed && s.pool.base in s.loops
    ensures forall k :: k in s.loops ==> ActiveInv(s, k)
  {
    assert ActiveInv(s, l);
  }

  lemma HandleKeeps(s: Server, l: LoopId, close: bool)
    requires Inv(s, NoCredit) && Enabled(s, Handle(l, close))
    ensures Inv(Apply(s, Handle(l, close)), NoCredit)
  {
    hide Inv, DoClose;
    var c := s.loops[l].active[0];
    HeadOfActive(s, l);
    TakeActiveKeeps(s, l);
    TakenOff(s, l, c);
    if close {
      CloseKeeps(SetLoop(s, l, s.loops[l].(active := s.loops[l].active[1..])), l, c);
    }
  }

  lemma RunNextKeeps(s: Server, l: LoopId)
    requires Inv(s, NoCredit) && Enabled(s, RunNext(l))
    ensures Inv(Apply(s, RunNext(l)), NoCredit)
  {
    hide Inv, DoEstablish, DoRemove, DoDestroy;
    var t := s.loops[l].batch[s.loops[l].next];
    var d := SetLoop(s, l, StartNext(s.loops[l]));
    PopKeeps(s, l);
    match t
    case Establish(c) => EstablishKeeps(d, l, c);
    case Remove(c) => RemoveKeeps(d, l, c);
    case Destroy(c) => DestroyKeeps(d, l, c);
    case _ =>
  }

  // ------------------------------------------------------------------ a new connection

  lemma AdmitFits(r: Registry<ConnId>, l: LoopId, info: map<ConnId, Info>, stage: map<ConnId, Stage>, freed: set<ConnId>,
                  c: ConnId, fd: int)
    requires stage.Keys == info.Keys && RegFits(r, l, info, stage, freed) && c !in info && c !in freed
    ensures RegFits(r.(chans := r.chans[c := ChannelState(fd, NONE_EVENT, New)]), l,
                    info[c := Info(fd, l)], stage[c := Accepted], freed)
  {
    var r' := r.(chans := r.chans[c := ChannelState(fd, NONE_EVENT, New)]);
    forall d | d in r'.chans
      ensures ChannelAgrees(r', d)
    {
      assert d != c ==> ChannelAgrees(r, d);
    }
  }

  lemma AdmitOtherFits(r: Registry<ConnId>, k: LoopId, info: map<ConnId, Info>, stage: map<ConnId, Stage>, freed: set<ConnId>,
                       c: ConnId, fd: int, l: LoopId)
    requires stage.Keys == info.Keys && RegFits(r, k, info, stage, freed) && c !in info && k != l
    ensures RegFits(r, k, info[c := Info(fd, l)], stage[c := Accepted], freed)
  {
    hide Agree;
  }

  lemma AdmitRegs(s: Server, fd: int)
    requires Records(s) && NextLoop(s.pool) in s.loops
    ensures var s' := Admit(s, fd); s'.stage.Keys == s'.info.Keys && forall k :: k in s'.loops ==> RegInv(s', k)
  {
    hide RegFits;
    var s', c, l := Admit(s, fd), s.nextId, NextLoop(s.pool);
    forall k | k in s'.loops
      ensures RegInv(s', k)
    {
      assert RegInv(s, k);
      if k == l {
        AdmitFits(s.loops[k].reg, k, s.info, s.stage, s.freed, c, fd);
      } else {
        AdmitOtherFits(s.loops[k].reg, k, s.info, s.stage, s.freed, c, fd, l);
      }
    }
  }

  /** The generated name is new, so the insertion overwrites nothing. */
  lemma AdmitMap(s: Server, fd: int)
    requires ShapeInv(s) && MapInv(s) && NextLoop(s.pool) in s.loops
    ensures NameOf(s, s.nextId) !in s.connections && MapInv(Admit(s, fd))
  {
    forall d: ConnId
      ensures NameOf(s, d) == NameOf(s, s.nextId) <==> d == s.nextId
    {
      NamesAreDistinct(s.name, s.ipPort, d, s.nextId);
    }
  }

  lemma AdmitShape(s: Server, fd: int)
    requires ShapeInv(s) && AliveInv(s) && FdInv(s) && NextLoop(s.pool) in s.loops && !InUse(s, fd)
    ensures ShapeInv(Admit(s, fd)) && AliveInv(Admit(s, fd)) && FdInv(Admit(s, fd))
  {
    hide ConnName;
  }

  lemma AdmitHistory(s: Server, fd: int)
    requires ShapeInv(s) && HistoryInv(s) && NextLoop(s.pool) in s.loops
    ensures HistoryInv(Admit(s, fd))
  {
    hide ConnName;
    assert s.nextId !in s.info;
  }

  lemma AdmitKeepsRecords(s: Server, fd: int)
    requires Records(s) && NextLoop(s.pool) in s.loops && !InUse(s, fd)
    ensures Records(Admit(s, fd))
  {
    hide ShapeInv, RegInv, MapInv, HistoryInv, FdInv, AliveInv, Admit;
    AdmitShape(s, fd);
    AdmitRegs(s, fd);
    AdmitMap(s, fd);
    AdmitHistory(s, fd);
  }

  /** Of the new connection only its connectEstablished is owed, and for others nothing changes. */
  lemma AdmitExpected(s: Server, fd: int, k: LoopId, t: Task)
    requires ShapeInv(s) && NextLoop(s.pool) in s.loops && IsDuty(t)
    ensures Expected(Admit(s, fd), k, t) == Expected(s, k, t) + Extra(Credit(NextLoop(s.pool), Establish(s.nextId)), k, t)
  {
    hide ConnName;
    assert s.nextId !in s.info;
  }

  lemma AdmitOwed(s: Server, fd: int)
    requires ShapeInv(s) && PhaseInv(s) && OwedInv(s, NoCredit) && NextLoop(s.pool) in s.loops
    ensures PhaseInv(Admit(s, fd)) && OwedInv(Admit(s, fd), Credit(NextLoop(s.pool), Establish(s.nextId)))
  {
    hide ConnName, Expected;
    var s' := Admit(s, fd);
    var cr := Credit(NextLoop(s.pool), Establish(s.nextId));
    forall k: LoopId, t: Task | k in s'.loops && IsDuty(t)
      ensures Owed(s', k)[t] + Extra(cr, k, t) == Expected(s', k, t)
    {
      AdmitExpected(s, fd, k, t);
      assert Owed(s, k)[t] + Extra(NoCredit, k, t) == Expected(s, k, t);
      assert Owed(s', k) == Owed(s, k);
    }
  }

  lemma AdmitHeld(s: Server, fd: int)
    requires ShapeInv(s) && HeldInv(s) && NextLoop(s.pool) in s.loops
    requires forall l :: l in s.loops ==> ActiveInv(s, l)
    ensures var s' := Admit(s, fd);
            s'.stage.Keys == s'.info.Keys && HeldInv(s') && forall l :: l in s'.loops ==> ActiveInv(s', l)
  {
    hide ConnName;
    var s' := Admit(s, fd);
    forall k, d | k in s'.loops && TaskHolds(s', k, d)
      ensures d in s'.info && d !in s'.freed
    {
      assert TaskHolds(s, k, d);
    }
    forall k | k in s'.loops
      ensures ActiveInv(s', k)
    {
      assert ActiveInv(s, k);
    }
  }

  lemma AdmitKeepsQueues(s: Server, fd: int)
    requires ShapeInv(s) && Queues(s, NoCredit) && NextLoop(s.pool) in s.loops
    ensures var s' := Admit(s, fd);
            s'.stage.Keys == s'.info.Keys && Queues(s', Credit(NextLoop(s.pool), Establish(s.nextId)))
  {
    hide PhaseInv, OwedInv, HeldInv, ActiveInv, Admit;
    AdmitOwed(s, fd);
    AdmitHeld(s, fd);
  }

  lemma AcceptKeeps(s: Server, fd: int)
    requires Inv(s, NoCredit) && Enabled(s, Accept(fd))
    ensures Inv(Apply(s, Accept(fd)), NoCredit)
  {
    hide Records, Queues, DoEstablish;
    var c, l := s.nextId, NextLoop(s.pool);
    assert ShapeInv(s) by { ShapeOf(s); }
    AdmitKeepsRecords(s, fd);
    AdmitKeepsQueues(s, fd);
    var d := Admit(s, fd);
    if l == s.pool.base {
      EstablishKeeps(d, l, c);
    } else {
      InHand(d, l, Establish(c));
      PushKeeps(d, l, Establish(c), Credit(l, Establish(c)));
    }
  }

  lemma ShapeOf(s: Server)
    requires Records(s)
    ensures ShapeInv(s)
  {
  }

  // ------------------------------------------------------------------ the last owner goes

  lemma FreeFits(r: Registry<ConnId>, l: LoopId, info: map<ConnId, Info>, stage: map<ConnId, Stage>, freed: set<ConnId>, c: ConnId)
    requires stage.Keys == info.Keys && RegFits(r, l, info, stage, freed) && c in r.chans && stage[c].Destroyed?
    ensures RegFits(r.(chans := r.chans - {c}), l, info, stage, freed + {c})
  {
    var r' := r.(chans := r.chans - {c});
    assert ChannelAgrees(r, c);
    forall d | d in r'.chans
      ensures ChannelAgrees(r', d)
    {
      assert ChannelAgrees(r, d);
    }
  }

  lemma FreeOtherFits(r: Registry<ConnId>, k: LoopId, info: map<ConnId, Info>, stage: map<ConnId, Stage>, freed: set<ConnId>, c: ConnId)
    requires stage.Keys == info.Keys && RegFits(r, k, info, stage, freed) && c in info && info[c].loop != k
    ensures RegFits(r, k, info, stage, freed + {c})
  {
    hide Agree;
  }

  /** A task that is owed holds its connection. */
  lemma OwedHolds(s: Server, l: LoopId, t: Task)
    requires l in s.loops && s.loops[l].next <= |s.loops[l].batch| && Owed(s, l)[t] > 0 && Owns(t)
    ensures TaskHolds(s, l, t.c)
  {
    assert t in s.loops[l].batch[s.loops[l].next..] || t in s.loops[l].pending;
  }

  lemma ErasedIsHeld(s: Server, c: ConnId)
    requires ShapeInv(s) && Queues(s, NoCredit) && c in s.info && s.stage[c].Erased?
    ensures TaskHolds(s, s.info[c].loop, c)
  {
    var l, t := s.info[c].loop, Destroy(c);
    assert Owed(s, l)[t] + Extra(NoCredit, l, t) == Expected(s, l, t);
    OwedHolds(s, l, t);
  }

  lemma MappedIsHeld(s: Server, c: ConnId)
    requires s.stage.Keys == s.info.Keys && MapInv(s) && c in s.info && InMap(s.stage[c])
    ensures c in s.connections.Values
  {
    assert s.connections[NameOf(s, c)] == c;
  }

  /** A connection that nothing in the library holds has been destroyed. */
  lemma UnheldIsDestroyed(s: Server, c: ConnId)
    requires Inv(s, NoCredit) && c in s.info && !LibraryHolds(s, c)
    ensures s.stage.Keys == s.info.Keys && s.stage[c].Destroyed?
  {
    hide Queues, RegInv, FdInv, HistoryInv, TaskHolds, MapInv;
    if InMap(s.stage[c]) {
      MappedIsHeld(s, c);
    } else if s.stage[c].Erased? {
      ErasedIsHeld(s, c);
    }
  }

  lemma FreeKeepsRecords(s: Server, c: ConnId)
    requires Records(s) && Enabled(s, Free(c)) && s.stage[c].Destroyed?
    ensures Records(Apply(s, Free(c)))
  {
    hide RegFits, HistoryInv, MapInv;
    var s', l := Apply(s, Free(c)), s.info[c].loop;
    FreeKeepsMap(s, c);
    ClearIn(s, c);
    forall k | k in s'.loops
      ensures RegInv(s', k)
    {
      assert RegInv(s, k);
      if k == l {
        FreeFits(s.loops[k].reg, k, s.info, s.stage, s.freed, c);
      } else {
        FreeOtherFits(s.loops[k].reg, k, s.info, s.stage, s.freed, c);
      }
    }
  }

  lemma FreeKeepsMap(s: Server, c: ConnId)
    requires ShapeInv(s) && MapInv(s) && HistoryInv(s) && Enabled(s, Free(c))
    ensures MapInv(Apply(s, Free(c))) && HistoryInv(Apply(s, Free(c)))
  {
  }

  lemma FreeKeepsOwed(s: Server, c: ConnId)
    requires PhaseInv(s) && OwedInv(s, NoCredit) && Enabled(s, Free(c))
    ensures PhaseInv(Apply(s, Free(c))) && OwedInv(Apply(s, Free(c)), NoCredit)
  {
    hide LibraryHolds;
    var s' := Apply(s, Free(c));
    forall k: LoopId, t: Task | k in s'.loops && IsDuty(t)
      ensures Owed(s', k)[t] + Extra(NoCredit, k, t) == Expected(s', k, t)
    {
      assert Owed(s, k)[t] + Extra(NoCredit, k, t) == Expected(s, k, t);
    }
  }

  lemma FreeKeepsHeld(s: Server, c: ConnId)
    requires s.stage.Keys == s.info.Keys && HeldInv(s) && Enabled(s, Free(c))
    requires forall k :: k in s.loops ==> ActiveInv(s, k)
    ensures HeldInv(Apply(s, Free(c))) && forall k :: k in s.loops ==> k in Apply(s, Free(c)).loops && ActiveInv(Apply(s, Free(c)), k)
  {
    hide OwnerIn;
    var s' := Apply(s, Free(c));
    forall k, d | k in s'.loops && TaskHolds(s', k, d)
      ensures d in s'.info && d !in s'.freed
    {
      assert TaskHolds(s, k, d);
    }
    forall k | k in s.loops
      ensures ActiveInv(s', k)
    {
      assert ActiveInv(s, k);
    }
  }

  lemma FreeKeepsQueues(s: Server, c: ConnId)
    requires s.stage.Keys == s.info.Keys && Queues(s, NoCredit) && Enabled(s, Free(c))
    ensures Queues(Apply(s, Free(c)), NoCredit)
  {
    hide OwedInv, HeldInv, ActiveInv, LibraryHolds;
    FreeKeepsOwed(s, c);
    FreeKeepsHeld(s, c);
  }

  lemma FreeKeeps(s: Server, c: ConnId)
    requires Inv(s, NoCredit) && Enabled(s, Free(c))
    ensures Inv(Apply(s, Free(c)), NoCredit)
  {
    hide Records, Queues;
    UnheldIsDestroyed(s, c);
    FreeKeepsRecords(s, c);
    FreeKeepsQueues(s, c);
  }

  lemma HoldKeepsRecords(s: Server, holds: set<ConnId>)
    requires Records(s) && holds <= s.info.Keys
    ensures Records(s.(userHolds := holds))
  {
    var s' := s.(userHolds := holds);
    forall k | k in s'.loops
      ensures RegInv(s', k)
    {
      assert RegInv(s, k);
    }
  }

  lemma HoldKeeps(s: Server, step: Step)
    requires Inv(s, NoCredit) && Enabled(s, step) && (step.Hold? || step.Release?)
    ensures Inv(Apply(s, step), NoCredit)
  {
    hide Records, Queues;
    assert ShapeInv(s) by { ShapeOf(s); }
    var s' := Apply(s, step);
    HoldKeepsRecords(s, s'.userHolds);
    HoldKeepsQueues(s, s'.userHolds);
  }

  lemma HoldKeepsQueues(s: Server, holds: set<ConnId>)
    requires s.stage.Keys == s.info.Keys && Queues(s, NoCredit)
    ensures Queues(s.(userHolds := holds), NoCredit)
  {
    var s' := s.(userHolds := holds);
    forall k: LoopId, t: Task | k in s'.loops && IsDuty(t)
      ensures Owed(s', k)[t] + Extra(NoCredit, k, t) == Expected(s', k, t)
    {
      assert Owed(s, k)[t] + Extra(NoCredit, k, t) == Expected(s, k, t);
    }
    forall k, d | k in s'.loops && TaskHolds(s', k, d)
      ensures d in s'.info && d !in s'.freed
    {
      assert TaskHolds(s, k, d);
    }
    forall k | k in s'.loops
      ensures ActiveInv(s', k)
    {
      assert ActiveInv(s, k);
    }
  }

  // ------------------------------------------------------------------ every step, every run

  lemma EstablishedLives(s: Server, c: ConnId)
    requires Inv(s, NoCredit) && c in s.info && c in s.stage && s.stage[c].Established?
    ensures c !in s.freed
  {
  }

  lemma WriteStepKeeps(s: Server, l: LoopId, c: ConnId, q: Request, notify: bool)
    requires Inv(s, NoCredit) && Enabled(s, Write(l, c, q, notify))
    ensures Inv(Apply(s, Write(l, c, q, notify)), NoCredit)
  {
    hide Inv, After;
    EstablishedLives(s, c);
    WriteKeeps(s, c, q);
    if notify {
      PushKeeps(SetInterest(s, l, c, q), l, Notice(c), NoCredit);
    }
  }

  lemma StepKeeps(s: Server, step: Step)
    requires Inv(s, NoCredit) && Enabled(s, step)
    ensures Inv(Apply(s, step), NoCredit)
  {
    hide Inv;
    match step
    case Accept(fd) => AcceptKeeps(s, fd);
    case PollReturn(l, active) => PollKeeps(s, l, active);
    case Handle(l, close) => HandleKeeps(s, l, close);
    case Write(l, c, q, notify) => WriteStepKeeps(s, l, c, q, notify);
    case Post(c) => PushKeeps(s, s.info[c].loop, Notice(c), NoCredit);
    case PostBare(c) => PushKeeps(s, s.info[c].loop, Bare(c), NoCredit);
    case Swap(l) => SwapKeeps(s, l);
    case RunNext(l) => RunNextKeeps(s, l);
    case Leave(l) => LeaveKeeps(s, l);
    case Hold(c) => HoldKeeps(s, step);
    case Release(c) => HoldKeeps(s, step);
    case Free(c) => FreeKeeps(s, c);
  }

  lemma {:induction false} RunKeeps(run: seq<Server>, i: nat)
    requires IsRun(run) && i < |run|
    ensures Inv(run[i], NoCredit)
  {
    hide Inv;
    if i == 0 {
      FreshInv(run[0]);
    } else {
      RunKeeps(run, i - 1);
      assert Next(run[i - 1], run[i]);
      var step :| Enabled(run[i - 1], step) && run[i] == Apply(run[i - 1], step);
      StepKeeps(run[i - 1], step);
    }
  }
}
