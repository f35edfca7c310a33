/** One connection's part of a run of the whole server is a run of the connection machine: the same
    channel records at every moment, and the same closes, removals and destructions in the same order. */
module Projection {
  import opened Kernel
  import opened Registry
  import opened Reactor
  import opened Naming
  import opened ThreadPool
  import opened Lifecycle
  import opened LifeProofs
  import opened LifeTheorems
  import ConnModel
  import ConnProofs

  /** Lifecycle leaves out bytes and callbacks; a connection of a user who sets neither notification. */
  const SILENT: ConnModel.Settings := ConnModel.Settings(false, false, 0)

  // ------------------------------------------------------------------ the two views agree

  function StateOf(st: Stage): ConnModel.State {
    match st
    case Accepted => ConnModel.Connecting
    case Established => ConnModel.Connected
    case _ => ConnModel.Disconnected
  }

  /** State and obligations of the connection machine at a stage. */
  predicate Tallies(st: Stage, k: ConnModel.Conn) {
    && k.cfg == SILENT && k.inflight == multiset{} && k.state == StateOf(st)
    && k.closes == (if Rank(st) >= Rank(Closed) then 1 else 0)
    && k.removalsOwed == (if st.Closed? then 1 else 0)
    && k.queue == (if st.Erased? then [ConnModel.DestroyTask] else [])
    && k.destroys == (if st.Destroyed? then 1 else 0)
  }

  /** What connection c's poller and the kernel hold about it. */
  function SliceIn(s: Server, c: ConnId): Slice
    requires Known(s, c)
  {
    SliceOf(s.loops[s.info[c].loop].reg, c)
  }

  predicate Agrees(s: Server, c: ConnId, k: ConnModel.Conn) {
    && c in s.info && c in s.stage && Tallies(s.stage[c], k)
    && (c !in s.freed ==> Known(s, c) && k.chan == SliceIn(s, c))
  }

  // ------------------------------------------------------------------ a step's part in one connection

  const QUIET: ConnModel.Reaction := ConnModel.Reaction(ReadError, WouldBlock, [])

  function Draining(k: ConnModel.Conn): ConnModel.Reaction {
    ConnModel.Reaction(ReadError, Wrote(|k.output|), [])
  }

  /** Enabling the write interest is a message the kernel does not take, disabling it a full drain. */
  function WritePart(k: ConnModel.Conn, q: Request): seq<ConnModel.Event> {
    if q.EnableWriting? && !ConnModel.Writing(k) then [ConnModel.InLoop(ConnModel.Send([0], WouldBlock))]
    else if q.DisableWriting? && ConnModel.Writing(k) then [ConnModel.Io(EPOLLOUT, Draining(k))]
    else []
  }

  /** A close is a hang-up, and on the base loop the removal follows at once. */
  function ClosePart(inline: bool): seq<ConnModel.Event> {
    [ConnModel.Io(EPOLLHUP, QUIET)] + if inline then [ConnModel.Removed] else []
  }

  function TaskPart(t: Task): seq<ConnModel.Event> {
    match t
    case Establish(_) => [ConnModel.Establish([])]
    case Remove(_) => [ConnModel.Removed]
    case Destroy(_) => [ConnModel.Task(WouldBlock, [])]
    case _ => []
  }

  function NextTask(s: Server, l: LoopId): Task
    requires l in s.loops && s.loops[l].next < |s.loops[l].batch|
  {
    s.loops[l].batch[s.loops[l].next]
  }

  /** The step is one of connection c: it is accepted, it is closed, its write interest changes, or a functor that takes it
      to its next stage is run. */
  ghost predicate Concerns(s: Server, step: Step, c: ConnId)
    requires Enabled(s, step)
  {
    match step
    case Accept(_) => c == s.nextId
    case Handle(l, close) => close && s.loops[l].active[0] == c
    case Write(_, d, _, _) => d == c
    case RunNext(l) => NextTask(s, l).c == c && IsDuty(NextTask(s, l))
    case _ => false
  }

  /** What a step of the server is for connection c. */
  ghost function Part(s: Server, step: Step, c: ConnId, k: ConnModel.Conn): seq<ConnModel.Event>
    requires Enabled(s, step)
  {
    if !Concerns(s, step, c) then []
    else
      match step
      case Accept(_) => if NextLoop(s.pool) == s.pool.base then [ConnModel.Establish([])] else []
      case Handle(l, _) => ClosePart(l == s.pool.base)
      case Write(_, _, q, _) => WritePart(k, q)
      case RunNext(l) => TaskPart(NextTask(s, l))
      case _ => []
  }

  /** The events can happen one after the other from k, and lead to k2. */
  ghost predicate Leads(k: ConnModel.Conn, events: seq<ConnModel.Event>, k2: ConnModel.Conn)
    decreases |events|
  {
    if events == [] then k2 == k
    else ConnModel.Enabled(k, events[0]) && Leads(ConnModel.Apply(k, events[0]), events[1..], k2)
  }

  // ------------------------------------------------------------------ what a step does to the registries

  /** The operation a step asks of a registry, and on which loop; accepting and freeing apart. */
  ghost function Asked(s: Server, step: Step): Option<(LoopId, Op<ConnId>)>
    requires Enabled(s, step)
  {
    match step
    case Handle(l, close) => if close then Some((l, Ask(s.loops[l].active[0], DisableAll))) else None
    case Write(l, c, q, _) => Some((l, Ask(c, q)))
    case RunNext(l) =>
      var t := s.loops[l].batch[s.loops[l].next];
      if t.Establish? then Some((s.info[t.c].loop, Ask(t.c, EnableReading)))
      else if t.Destroy? then Some((s.info[t.c].loop, Drop(t.c)))
      else None
    case _ => None
  }

  predicate Ordinary(step: Step) {
    !step.Accept? && !step.Free?
  }

  ghost predicate RegIs(s: Server, step: Step, l: LoopId)
    requires Enabled(s, step) && l in s.loops
  {
    var asked, s' := Asked(s, step), Apply(s, step);
    && l in s'.loops
    && if asked.Some? && asked.value.0 == l
       then asked.value.1.c in s.loops[l].reg.chans && s'.loops[l].reg == After(s.loops[l].reg, asked.value.1)
       else s'.loops[l].reg == s.loops[l].reg
  }

  lemma HandleRegs(s: Server, k: LoopId, close: bool, l: LoopId)
    requires Enabled(s, Handle(k, close)) && l in s.loops
    ensures RegIs(s, Handle(k, close), l)
  {
    hide After, ConnName;
  }

  lemma TaskRegs(s: Server, k: LoopId, l: LoopId)
    requires Enabled(s, RunNext(k)) && l in s.loops
    ensures RegIs(s, RunNext(k), l)
  {
    hide After, ConnName;
  }

  lemma StepRegs(s: Server, step: Step, l: LoopId)
    requires Enabled(s, step) && Ordinary(step) && l in s.loops
    ensures RegIs(s, step, l)
  {
    hide After, ConnName, DoTask, DoClose, LibraryHolds, Watched;
    match step
    case Handle(k, close) => HandleRegs(s, k, close, l);
    case RunNext(k) => TaskRegs(s, k, l);
    case _ =>
  }

  lemma KnownClear(s: Server, l: LoopId, c: ConnId)
    requires Records(s) && l in s.loops && c in s.loops[l].reg.chans
    ensures Agree(s.loops[l].reg) && Clear(s.loops[l].reg, c)
  {
    assert RegInv(s, l);
    ClearIn(s, c);
  }

  /** A step changes what is held about its own connection and about no other. */
  lemma StepSlice(s: Server, step: Step, c: ConnId)
    requires Inv(s, NoCredit) && Enabled(s, step) && Ordinary(step) && Known(s, c)
    ensures Known(Apply(s, step), c)
    ensures var asked := Asked(s, step);
            SliceIn(Apply(s, step), c) ==
            if asked.Some? && asked.value.1.c == c && asked.value.0 == s.info[c].loop
            then SliceAfter(SliceIn(s, c), asked.value.1) else SliceIn(s, c)
  {
    hide Records, Queues, Apply, Enabled, After, SliceOf, Agree, Clear;
    var l, asked := s.info[c].loop, Asked(s, step);
    StepFixes(s, step, c);
    StepMovesForward(s, step, c);
    StepRegs(s, step, l);
    if asked.Some? && asked.value.0 == l {
      KnownClear(s, l, asked.value.1.c);
      AfterIsLocal(s.loops[l].reg, asked.value.1, c);
    }
  }

  // ------------------------------------------------------------------ the connection's side

  lemma LeadsOne(k: ConnModel.Conn, e: ConnModel.Event)
    requires ConnModel.Enabled(k, e)
    ensures Leads(k, [e], ConnModel.Apply(k, e))
  {
    assert [e][1..] == [];
  }

  lemma LeadsTwo(k: ConnModel.Conn, e: ConnModel.Event, f: ConnModel.Event)
    requires ConnModel.Enabled(k, e) && ConnModel.Enabled(ConnModel.Apply(k, e), f)
    ensures Leads(k, [e, f], ConnModel.Apply(ConnModel.Apply(k, e), f))
  {
    assert [e, f][1..] == [f];
    LeadsOne(ConnModel.Apply(k, e), f);
  }

  lemma HangUpCloses()
    ensures Dispatch(EPOLLHUP) == [OnClose] && !HangUpWithUrgentOnly(EPOLLHUP)
    ensures Dispatch(EPOLLOUT) == [OnWrite] && !HangUpWithUrgentOnly(EPOLLOUT)
  {
  }

  lemma OneCallback(k: ConnModel.Conn, cb: Callback, r: ConnModel.Reaction)
    ensures ConnModel.ReactAll(k, [cb], r) == ConnModel.React(k, cb, r)
  {
    assert [cb][..0] == [];
  }

  /** A hang-up is a close, and the server may then carry out the removal. */
  lemma Closing(k: ConnModel.Conn)
    requires Tallies(Established, k) && ConnProofs.ChannelInv(k)
    ensures var e := ConnModel.Io(EPOLLHUP, QUIET);
            && ConnModel.Enabled(k, e) && Tallies(Closed, ConnModel.Apply(k, e))
            && ConnModel.Apply(k, e).chan == SliceAfter(k.chan, Ask(0, DisableAll))
  {
    HangUpCloses();
    OneCallback(k, OnClose, QUIET);
  }

  lemma Removing(k: ConnModel.Conn)
    requires Tallies(Closed, k)
    ensures ConnModel.Enabled(k, ConnModel.Removed)
    ensures Tallies(Erased, ConnModel.Apply(k, ConnModel.Removed)) && ConnModel.Apply(k, ConnModel.Removed).chan == k.chan
  {
  }

  lemma Establishing(k: ConnModel.Conn)
    requires Tallies(Accepted, k)
    ensures var e := ConnModel.Establish([]);
            && ConnModel.Enabled(k, e) && Tallies(Established, ConnModel.Apply(k, e))
            && ConnModel.Apply(k, e).chan == SliceAfter(k.chan, Ask(0, EnableReading))
  {
  }

  lemma Destroying(k: ConnModel.Conn)
    requires Tallies(Erased, k)
    ensures var e := ConnModel.Task(WouldBlock, []);
            && ConnModel.Enabled(k, e) && Tallies(Destroyed, ConnModel.Apply(k, e))
            && ConnModel.Apply(k, e).chan == SliceAfter(k.chan, Drop(0))
  {
  }

  /** Asking for the write interest again changes nothing. */
  lemma WritingAlready(k: ConnModel.Conn, q: Request)
    requires Tallies(Established, k) && ConnProofs.ChannelInv(k)
    requires (q.EnableWriting? && ConnModel.Writing(k)) || (q.DisableWriting? && !ConnModel.Writing(k))
    ensures SliceAfter(k.chan, Ask(0, q)) == k.chan
  {
    ConnProofs.Masks();
    assert (READ_EVENT | WRITE_EVENT) | WRITE_EVENT == READ_EVENT | WRITE_EVENT;
    assert READ_EVENT & !WRITE_EVENT == READ_EVENT;
  }

  lemma Storing(k: ConnModel.Conn)
    requires Tallies(Established, k) && ConnProofs.ChannelInv(k) && ConnProofs.ShutInv(k) && !ConnModel.Writing(k)
    ensures var e := ConnModel.InLoop(ConnModel.Send([0], WouldBlock));
            && ConnModel.Enabled(k, e) && Tallies(Established, ConnModel.Apply(k, e))
            && ConnModel.Apply(k, e).chan == SliceAfter(k.chan, Ask(0, EnableWriting))
  {
    ConnProofs.Masks();
    assert k.output == [];
  }

  lemma Drained(k: ConnModel.Conn)
    requires Tallies(Established, k) && ConnProofs.ChannelInv(k) && ConnProofs.ShutInv(k) && ConnModel.Writing(k)
    ensures var e := ConnModel.Io(EPOLLOUT, Draining(k));
            && ConnModel.Enabled(k, e) && Tallies(Established, ConnModel.Apply(k, e))
            && ConnModel.Apply(k, e).chan == SliceAfter(k.chan, Ask(0, DisableWriting))
  {
    ConnProofs.Masks();
    HangUpCloses();
    OneCallback(k, OnWrite, Draining(k));
    assert k.output != [] && k.output[|k.output|..] == [];
  }

  // ------------------------------------------------------------------ every step projects

  lemma AdmitKeepsSlice(s: Server, fd: int, c: ConnId)
    requires Records(s) && NextLoop(s.pool) in s.loops && Known(s, c) && c in s.info && s.pool.Valid()
    ensures Known(Admit(s, fd), c) && SliceIn(Admit(s, fd), c) == SliceIn(s, c)
  {
    hide ConnName, RegInv, MapInv;
    assert c != s.nextId;
  }

  lemma AcceptProjects(s: Server, fd: int, c: ConnId, k: ConnModel.Conn)
    requires Inv(s, NoCredit) && Enabled(s, Accept(fd)) && Agrees(s, c, k)
    ensures Agrees(Apply(s, Accept(fd)), c, k) && c != s.nextId
  {
    hide Records, Queues, After, SliceOf, ConnName, Agree, Clear, Tallies;
    var d, n := Admit(s, fd), s.nextId;
    StepFixes(s, Accept(fd), c);
    ShapeOf(s);
    assert c != n;
    if c !in s.freed {
      AdmitKeepsSlice(s, fd, c);
      if NextLoop(s.pool) == s.pool.base {
        AdmitKeepsRecords(s, fd);
        KnownClear(d, s.pool.base, n);
        if s.info[c].loop == s.pool.base {
          AfterIsLocal(d.loops[s.pool.base].reg, Ask(n, EnableReading), c);
        }
      }
    }
  }

  lemma FreeProjects(s: Server, d: ConnId, c: ConnId, k: ConnModel.Conn)
    requires Inv(s, NoCredit) && Enabled(s, Free(d)) && Agrees(s, c, k)
    ensures Agrees(Apply(s, Free(d)), c, k)
  {
    hide Records, Queues, Tallies, LibraryHolds;
    ShapeOf(s);
  }

  lemma CloseRuns(inline: bool, k: ConnModel.Conn) returns (k2: ConnModel.Conn)
    requires Tallies(Established, k) && ConnProofs.ChannelInv(k)
    ensures Leads(k, ClosePart(inline), k2) && Tallies(if inline then Erased else Closed, k2)
    ensures k2.chan == SliceAfter(k.chan, Ask(0, DisableAll))
  {
    hide ConnModel.Apply, ConnModel.Enabled, Tallies, Leads, NewEvents, UpdateSlice, ConnProofs.ChannelInv;
    var e := ConnModel.Io(EPOLLHUP, QUIET);
    Closing(k);
    k2 := ConnModel.Apply(k, e);
    if inline {
      Removing(k2);
      LeadsTwo(k, e, ConnModel.Removed);
      assert ClosePart(inline) == [e, ConnModel.Removed];
      k2 := ConnModel.Apply(k2, ConnModel.Removed);
    } else {
      LeadsOne(k, e);
      assert ClosePart(inline) == [e];
    }
  }

  lemma ClosedStage(s: Server, l: LoopId)
    requires Enabled(s, Handle(l, true))
    ensures var s', c := Apply(s, Handle(l, true)), s.loops[l].active[0];
            && c in s'.info && s'.info[c] == s.info[c] && c in s'.stage && s'.freed == s.freed
            && s'.stage[c] == if l == s.pool.base then Erased else Closed
  {
    hide After, ConnName;
  }

  lemma HandleProjects(s: Server, l: LoopId, c: ConnId, k: ConnModel.Conn) returns (k2: ConnModel.Conn)
    requires Inv(s, NoCredit) && Enabled(s, Handle(l, true)) && Agrees(s, c, k) && ConnProofs.Inv(k, 0)
    requires Concerns(s, Handle(l, true), c)
    ensures Leads(k, Part(s, Handle(l, true), c, k), k2) && Agrees(Apply(s, Handle(l, true)), c, k2)
  {
    hide Inv, Apply, After, SliceOf, Tallies, Leads, NewEvents, UpdateSlice, DoClose, ClosePart;
    HeadOfActive(s, l);
    StepSlice(s, Handle(l, true), c);
    ClosedStage(s, l);
    k2 := CloseRuns(l == s.pool.base, k);
  }

  /** The next functor of a batch finds its connection at the stage that calls for it. */
  lemma NextFitsStage(s: Server, l: LoopId)
    requires Inv(s, NoCredit) && Enabled(s, RunNext(l)) && IsDuty(NextTask(s, l))
    ensures l in s.loops && s.loops[l].next < |s.loops[l].batch|
    ensures var t := NextTask(s, l);
            && t.c in s.info && t.c in s.stage && t.c !in s.freed && Due(s, t.c, s.stage[t.c]) == Credit(l, t)
  {
    hide Records, Queues;
    PopKeeps(s, l);
    InHand(SetLoop(s, l, StartNext(s.loops[l])), l, NextTask(s, l));
  }

  lemma DutyRuns(t: Task, st: Stage, k: ConnModel.Conn) returns (k2: ConnModel.Conn)
    requires Tallies(st, k) && IsDuty(t)
    requires t.Establish? ==> st.Accepted?
    requires t.Remove? ==> st.Closed?
    requires t.Destroy? ==> st.Erased?
    ensures Leads(k, TaskPart(t), k2)
    ensures Tallies(if t.Establish? then Established else if t.Remove? then Erased else Destroyed, k2)
    ensures k2.chan == (if t.Establish? then SliceAfter(k.chan, Ask(t.c, EnableReading))
                        else if t.Remove? then k.chan else SliceAfter(k.chan, Drop(t.c)))
  {
    hide ConnModel.Apply, ConnModel.Enabled, Tallies, Leads, NewEvents, UpdateSlice;
    var e := TaskPart(t)[0];
    if t.Establish? {
      Establishing(k);
    } else if t.Remove? {
      Removing(k);
    } else {
      Destroying(k);
    }
    LeadsOne(k, e);
    k2 := ConnModel.Apply(k, e);
  }

  lemma TaskStage(s: Server, l: LoopId)
    requires Enabled(s, RunNext(l)) && IsDuty(NextTask(s, l))
    ensures var s', t := Apply(s, RunNext(l)), NextTask(s, l);
            && t.c in s'.info && s'.info[t.c] == s.info[t.c] && t.c in s'.stage && s'.freed == s.freed
            && s'.stage[t.c] == if t.Establish? then Established else if t.Remove? then Erased else Destroyed
  {
    hide After, ConnName;
  }

  lemma TaskProjects(s: Server, l: LoopId, c: ConnId, k: ConnModel.Conn) returns (k2: ConnModel.Conn)
    requires Inv(s, NoCredit) && Enabled(s, RunNext(l)) && Agrees(s, c, k) && Concerns(s, RunNext(l), c)
    ensures Leads(k, Part(s, RunNext(l), c, k), k2) && Agrees(Apply(s, RunNext(l)), c, k2)
  {
    hide Inv, Apply, Enabled, After, SliceOf, Tallies, Leads, NewEvents, UpdateSlice;
    NextFitsStage(s, l);
    var t := NextTask(s, l);
    StepSlice(s, RunNext(l), c);
    TaskStage(s, l);
    k2 := DutyRuns(t, s.stage[c], k);
  }

  lemma WriteProjects(s: Server, l: LoopId, c: ConnId, q: Request, notify: bool, k: ConnModel.Conn)
    returns (k2: ConnModel.Conn)
    requires Inv(s, NoCredit) && Enabled(s, Write(l, c, q, notify)) && Agrees(s, c, k) && ConnProofs.Inv(k, 0)
    ensures Leads(k, WritePart(k, q), k2) && Agrees(Apply(s, Write(l, c, q, notify)), c, k2)
  {
    hide Inv, After, SliceOf, ConnName, ConnModel.Apply, ConnModel.Enabled, Tallies, NewEvents, UpdateSlice,
         ConnModel.Writing;
    UndestroyedLives(s, c);
    StepSlice(s, Write(l, c, q, notify), c);
    StepFixes(s, Write(l, c, q, notify), c);
    k2 := k;
    if q.EnableWriting? && !ConnModel.Writing(k) {
      Storing(k);
    } else if q.DisableWriting? && ConnModel.Writing(k) {
      Drained(k);
    } else {
      WritingAlready(k, q);
    }
    if WritePart(k, q) != [] {
      LeadsOne(k, WritePart(k, q)[0]);
      k2 := ConnModel.Apply(k, WritePart(k, q)[0]);
    }
  }

  lemma OtherHandled(s: Server, l: LoopId, close: bool, c: ConnId)
    requires Enabled(s, Handle(l, close)) && c in s.info && c in s.stage && !Concerns(s, Handle(l, close), c)
    ensures c in Apply(s, Handle(l, close)).stage && Apply(s, Handle(l, close)).stage[c] == s.stage[c]
  {
    hide After, ConnName;
  }

  lemma OtherRun(s: Server, l: LoopId, c: ConnId)
    requires Enabled(s, RunNext(l)) && c in s.info && c in s.stage && !Concerns(s, RunNext(l), c)
    ensures c in Apply(s, RunNext(l)).stage && Apply(s, RunNext(l)).stage[c] == s.stage[c]
  {
    hide After, ConnName;
  }

  lemma OtherStage(s: Server, step: Step, c: ConnId)
    requires Enabled(s, step) && Ordinary(step) && c in s.info && c in s.stage && !Concerns(s, step, c)
    ensures var s' := Apply(s, step);
            c in s'.info && s'.info[c] == s.info[c] && c in s'.stage && s'.stage[c] == s.stage[c] && s'.freed == s.freed
  {
    hide After, ConnName, LibraryHolds, Watched, DoTask, DoClose;
    match step
    case Handle(l, close) => OtherHandled(s, l, close, c); CloseFixes(s, l, close);
    case RunNext(l) => OtherRun(s, l, c); TaskFixes(s, l);
    case _ =>
  }

  lemma OtherAsks(s: Server, step: Step, c: ConnId)
    requires Enabled(s, step) && !Concerns(s, step, c)
    ensures Asked(s, step).Some? ==> Asked(s, step).value.1.c != c
  {
  }

  /** A step that is none of c's own leaves c as it is. */
  lemma OtherProjects(s: Server, step: Step, c: ConnId, k: ConnModel.Conn)
    requires Inv(s, NoCredit) && Enabled(s, step) && Ordinary(step) && Agrees(s, c, k) && !Concerns(s, step, c)
    ensures Agrees(Apply(s, step), c, k)
  {
    hide Inv, Apply, Enabled, After, SliceOf, Tallies, Concerns, Asked;
    OtherStage(s, step, c);
    if c !in s.freed {
      OtherAsks(s, step, c);
      StepSlice(s, step, c);
    }
  }

  /** Every step of the server is, for every connection it knows, a sequence of events of that connection
      that can happen, and both views agree again afterwards. */
  lemma StepProjects(s: Server, step: Step, c: ConnId, k: ConnModel.Conn) returns (k2: ConnModel.Conn)
    requires Inv(s, NoCredit) && Enabled(s, step) && Agrees(s, c, k) && ConnProofs.Inv(k, 0)
    ensures Leads(k, Part(s, step, c, k), k2) && Agrees(Apply(s, step), c, k2)
  {
    hide Inv, Apply, Enabled, Agrees, ConnProofs.Inv, WritePart, TaskPart;
    k2 := k;
    UndestroyedLives(s, c);
    if step.Accept? {
      AcceptProjects(s, step.fd, c, k);
    } else if step.Free? {
      FreeProjects(s, step.c, c, k);
    } else if !Concerns(s, step, c) {
      OtherProjects(s, step, c, k);
    } else {
      match step
      case Handle(l, _) => k2 := HandleProjects(s, l, c, k);
      case Write(l, _, q, notify) => k2 := WriteProjects(s, l, c, q, notify, k);
      case RunNext(l) => k2 := TaskProjects(s, l, c, k);
    }
  }

  // ------------------------------------------------------------------ runs

  /** A channel just made is not in its poller's records. */
  lemma NewSlice(r: Registry<ConnId>, c: ConnId, fd: int)
    requires Agree(r) && c !in r.chans
    ensures var ch := ChannelState(fd, NONE_EVENT, New);
            SliceOf(r.(chans := r.chans[c := ch]), c) == Slice(ch, false, None)
  {
  }

  lemma NotYetKnown(s: Server, l: LoopId)
    requires Records(s) && l in s.loops
    ensures Agree(s.loops[l].reg) && s.nextId !in s.loops[l].reg.chans
  {
    hide MapInv, HistoryInv, FdInv, AliveInv, Agree;
    assert RegInv(s, l);
  }

  lemma AdmittedSlice(s: Server, fd: int)
    requires Records(s) && s.pool.Valid() && NextLoop(s.pool) in s.loops
    ensures Known(Admit(s, fd), s.nextId) && SliceIn(Admit(s, fd), s.nextId) == ConnModel.NewConn(SILENT, fd).chan
  {
    hide Records, ConnName, Agree, SliceOf;
    NotYetKnown(s, NextLoop(s.pool));
    NewSlice(s.loops[NextLoop(s.pool)].reg, s.nextId, fd);
  }

  lemma BornStage(s: Server, fd: int)
    requires Enabled(s, Accept(fd))
    ensures var s', c, d, inline := Apply(s, Accept(fd)), s.nextId, Admit(s, fd), NextLoop(s.pool) == s.pool.base;
            && Known(s', c) && Known(d, c) && d.info[c].loop == s'.info[c].loop == NextLoop(s.pool)
            && s'.stage[c] == (if inline then Established else Accepted)
            && s'.loops[NextLoop(s.pool)].reg ==
               (if inline then After(d.loops[NextLoop(s.pool)].reg, Ask(c, EnableReading)) else d.loops[NextLoop(s.pool)].reg)
  {
    hide After, ConnName;
  }

  /** Accepting c starts its connection machine, and establishes it when the base loop keeps it. */
  lemma BirthProjects(s: Server, fd: int, k: ConnModel.Conn) returns (k2: ConnModel.Conn)
    requires Inv(s, NoCredit) && Enabled(s, Accept(fd)) && k == ConnModel.NewConn(SILENT, fd)
    ensures Leads(k, Part(s, Accept(fd), s.nextId, k), k2) && Agrees(Apply(s, Accept(fd)), s.nextId, k2)
  {
    hide Records, Queues, Apply, After, SliceOf, ConnName, Agree, Clear, NewEvents, UpdateSlice,
         Admit, ConnModel.Apply;
    var c, l, d := s.nextId, NextLoop(s.pool), Admit(s, fd);
    BornStage(s, fd);
    AdmittedSlice(s, fd);
    if l == s.pool.base {
      AdmitKeepsRecords(s, fd);
      KnownClear(d, l, c);
      AfterIsLocal(d.loops[l].reg, Ask(c, EnableReading), c);
      Establishing(k);
      LeadsOne(k, ConnModel.Establish([]));
      k2 := ConnModel.Apply(k, ConnModel.Establish([]));
    } else {
      k2 := k;
    }
  }

  /** A run of the connection machine in step with the first n steps of the server's run: at[i] is where it
      stands at the server's i-th state, both agree there, and the events in between are that step's part. */
  ghost predicate InStep(run: seq<Server>, n: nat, c: ConnId, conn: seq<ConnModel.Conn>, events: seq<ConnModel.Event>,
                         at: seq<nat>)
    requires n < |run|
  {
    && ConnModel.IsRun(conn, events) && |at| == n + 1 && at[n] == |conn| - 1
    && (forall i :: 0 <= i <= n ==> StandsAt(run[i], c, conn, at[i]))
    && (forall i :: 0 <= i < n ==> StepIsPart(run[i], run[i + 1], c, conn, events, at[i], at[i + 1]))
  }

  predicate StandsAt(s: Server, c: ConnId, conn: seq<ConnModel.Conn>, a: nat) {
    a < |conn| && if c in s.info then Agrees(s, c, conn[a]) else a == 0
  }

  ghost predicate StepIsPart(s: Server, s': Server, c: ConnId, conn: seq<ConnModel.Conn>, events: seq<ConnModel.Event>,
                             a: nat, b: nat) {
    && a <= b <= |events| && a < |conn|
    && exists step :: Enabled(s, step) && s' == Apply(s, step) && events[a..b] == Part(s, step, c, conn[a])
  }

  /** Events that can happen next extend a run. */
  lemma {:induction false} Extend(conn: seq<ConnModel.Conn>, events: seq<ConnModel.Event>, part: seq<ConnModel.Event>,
                                  k2: ConnModel.Conn) returns (more: seq<ConnModel.Conn>)
    requires ConnModel.IsRun(conn, events) && Leads(conn[|conn| - 1], part, k2)
    ensures |more| == |part| && ConnModel.IsRun(conn + more, events + part) && (conn + more)[|conn + more| - 1] == k2
    decreases |part|
  {
    if part == [] {
      more := [];
      assert conn + more == conn && events + part == events;
    } else {
      var next := ConnModel.Apply(conn[|conn| - 1], part[0]);
      ExtendOne(conn, events, part[0]);
      var rest := Extend(conn + [next], events + [part[0]], part[1..], k2);
      more := [next] + rest;
      assert conn + [next] + rest == conn + more && events + [part[0]] + part[1..] == events + part;
    }
  }

  lemma ExtendOne(conn: seq<ConnModel.Conn>, events: seq<ConnModel.Event>, e: ConnModel.Event)
    requires ConnModel.IsRun(conn, events) && ConnModel.Enabled(conn[|conn| - 1], e)
    ensures ConnModel.IsRun(conn + [ConnModel.Apply(conn[|conn| - 1], e)], events + [e])
  {
    hide ConnModel.Apply, ConnModel.Enabled;
    var conn2, events2 := conn + [ConnModel.Apply(conn[|conn| - 1], e)], events + [e];
    assert conn2[0] == conn[0];
    forall i | 0 <= i < |events2|
      ensures ConnModel.Enabled(conn2[i], events2[i]) && conn2[i + 1] == ConnModel.Apply(conn2[i], events2[i])
    {
      if i < |events| {
        assert conn2[i] == conn[i] && conn2[i + 1] == conn[i + 1] && events2[i] == events[i];
      }
    }
  }

  lemma SameDescriptorNumber(s: Server, step: Step, c: ConnId)
    requires Inv(s, NoCredit) && Enabled(s, step) && c in Apply(s, step).info && c !in s.info
    ensures step.Accept? && c == s.nextId && Apply(s, step).info[c].fd == step.fd
  {
    hide Inv, After, ConnName;
    if !step.Accept? {
      OnlyAcceptAdds(s, step);
    }
  }

  /** Part of a step in the life of c up to and including its acceptance. */
  lemma BeforeProjects(s: Server, step: Step, c: ConnId, fd: int) returns (k2: ConnModel.Conn)
    requires Inv(s, NoCredit) && Enabled(s, step) && c !in s.info
    requires c in Apply(s, step).info ==> Apply(s, step).info[c].fd == fd
    ensures Leads(ConnModel.NewConn(SILENT, fd), Part(s, step, c, ConnModel.NewConn(SILENT, fd)), k2)
    ensures if c in Apply(s, step).info then Agrees(Apply(s, step), c, k2)
            else k2 == ConnModel.NewConn(SILENT, fd) && Part(s, step, c, k2) == []
  {
    hide Inv, Apply, Enabled, Agrees, WritePart, TaskPart;
    k2 := ConnModel.NewConn(SILENT, fd);
    if c in Apply(s, step).info {
      SameDescriptorNumber(s, step, c);
      k2 := BirthProjects(s, step.fd, k2);
    } else {
      UnknownIsIdle(s, step, c);
    }
  }

  lemma UnknownIsIdle(s: Server, step: Step, c: ConnId)
    requires Inv(s, NoCredit) && Enabled(s, step) && c !in s.info && c !in Apply(s, step).info
    ensures !Concerns(s, step, c)
  {
    hide Records, Queues, After, ConnName;
    match step
    case Handle(l, close) => HeadOfActive(s, l);
    case RunNext(l) =>
    case _ =>
  }

  /** The server's next step is `part` for c, and c's machine can do it. */
  ghost predicate Continues(s: Server, s': Server, c: ConnId, k: ConnModel.Conn, part: seq<ConnModel.Event>, k2: ConnModel.Conn)
  {
    && Leads(k, part, k2)
    && (exists step :: Enabled(s, step) && s' == Apply(s, step) && part == Part(s, step, c, k))
    && if c in s'.info then Agrees(s', c, k2) else part == []
  }

  lemma NextProjects(s: Server, s': Server, c: ConnId, fd: int, k: ConnModel.Conn)
    returns (part: seq<ConnModel.Event>, k2: ConnModel.Conn)
    requires Inv(s, NoCredit) && Next(s, s') && (c in s'.info ==> s'.info[c].fd == fd)
    requires if c in s.info then Agrees(s, c, k) && ConnProofs.Inv(k, 0) else k == ConnModel.NewConn(SILENT, fd)
    ensures Continues(s, s', c, k, part, k2)
  {
    hide Inv, Apply, Enabled, Agrees, ConnProofs.Inv, Leads;
    var step :| Enabled(s, step) && s' == Apply(s, step);
    StepFixes(s, step, c);
    part := Part(s, step, c, k);
    if c in s.info {
      k2 := StepProjects(s, step, c, k);
    } else {
      k2 := BeforeProjects(s, step, c, fd);
    }
  }

  lemma Grow(run: seq<Server>, n: nat, c: ConnId, conn: seq<ConnModel.Conn>, events: seq<ConnModel.Event>, at: seq<nat>,
             part: seq<ConnModel.Event>, more: seq<ConnModel.Conn>)
    requires n < |run| - 1 && InStep(run, n, c, conn, events, at)
    requires |more| == |part| && ConnModel.IsRun(conn + more, events + part)
    requires Continues(run[n], run[n + 1], c, conn[|conn| - 1], part, (conn + more)[|conn + more| - 1])
    requires c !in run[n + 1].info ==> c !in run[n].info
    ensures InStep(run, n + 1, c, conn + more, events + part, at + [|conn + more| - 1])
  {
    hide ConnModel.IsRun, Agrees, Leads, Apply, Enabled;
    var conn2, events2, at2 := conn + more, events + part, at + [|conn + more| - 1];
    LengthsOf(conn, events);
    LengthsOf(conn2, events2);
    forall i | 0 <= i <= n + 1
      ensures StandsAt(run[i], c, conn2, at2[i])
    {
      if i <= n {
        assert StandsAt(run[i], c, conn, at[i]);
      } else if c !in run[n + 1].info {
        assert StandsAt(run[n], c, conn, at[n]);
      }
    }
    forall i | 0 <= i < n + 1
      ensures StepIsPart(run[i], run[i + 1], c, conn2, events2, at2[i], at2[i + 1])
    {
      if i < n {
        assert StepIsPart(run[i], run[i + 1], c, conn, events, at[i], at[i + 1]);
        assert events2[at[i]..at[i + 1]] == events[at[i]..at[i + 1]];
      } else {
        assert events2[at2[n]..at2[n + 1]] == part;
      }
    }
  }

  lemma LengthsOf(conn: seq<ConnModel.Conn>, events: seq<ConnModel.Event>)
    requires ConnModel.IsRun(conn, events)
    ensures |conn| == |events| + 1
  {
  }

  lemma {:induction false} Follow(run: seq<Server>, n: nat, c: ConnId, fd: int)
    returns (conn: seq<ConnModel.Conn>, events: seq<ConnModel.Event>, at: seq<nat>)
    requires IsRun(run) && n < |run| && (c in run[n].info ==> run[n].info[c].fd == fd)
    ensures InStep(run, n, c, conn, events, at) && conn[0] == ConnModel.NewConn(SILENT, fd)
  {
    hide Inv, Apply, Enabled, Agrees, ConnProofs.Inv, Leads, Part, StepIsPart, ConnModel.IsRun, Continues;
    if n == 0 {
      conn, events, at := [ConnModel.NewConn(SILENT, fd)], [], [0];
      FirstOf(fd);
    } else {
      RunKeeps(run, n - 1);
      assert Next(run[n - 1], run[n]);
      InfoStays(run[n - 1], run[n], c);
      conn, events, at := Follow(run, n - 1, c, fd);
      assert StandsAt(run[n - 1], c, conn, at[n - 1]);
      ConnProofs.RunKeeps(conn, events, at[n - 1]);
      var part, k2 := NextProjects(run[n - 1], run[n], c, fd, conn[at[n - 1]]);
      ContinuesLeads(run[n - 1], run[n], c, conn[at[n - 1]], part, k2);
      var more := Extend(conn, events, part, k2);
      Grow(run, n - 1, c, conn, events, at, part, more);
      at := at + [|conn + more| - 1];
      conn, events := conn + more, events + part;
    }
  }

  lemma ContinuesLeads(s: Server, s': Server, c: ConnId, k: ConnModel.Conn, part: seq<ConnModel.Event>, k2: ConnModel.Conn)
    requires Continues(s, s', c, k, part, k2)
    ensures Leads(k, part, k2)
  {
  }

  lemma FirstOf(fd: int)
    ensures ConnModel.IsRun([ConnModel.NewConn(SILENT, fd)], [])
  {
  }

  lemma InfoStays(s: Server, s': Server, c: ConnId)
    requires Inv(s, NoCredit) && Next(s, s')
    ensures c in s.info ==> c in s'.info && s'.info[c] == s.info[c]
  {
    hide Inv, Apply, Enabled;
    var step :| Enabled(s, step) && s' == Apply(s, step);
    StepFixes(s, step, c);
  }

  /** Each connection's part of a run of the whole server, with any number of loops and other connections
      and in every interleaving, is a run of the connection machine. */
  lemma PartIsARun(run: seq<Server>, n: nat, c: ConnId)
    requires IsRun(run) && n < |run| && c in run[n].info
    ensures exists conn, events, at :: InStep(run, n, c, conn, events, at)
  {
    hide InStep;
    var conn, events, at := Follow(run, n, c, run[n].info[c].fd);
  }
}
