/** What every run of a connection keeps (src/TcpConnection.cpp). */
module ConnProofs {
  import opened Kernel
  import opened Registry
  import opened Reactor
  import opened ConnModel

  // ------------------------------------------------------------------ reading histories

  /** How far a connection's callbacks have got: UP, then messages, then DOWN; notifications of
      completed writes and of the high-water mark may also follow. */
  datatype Phase = Before | Open | Closed | Violated

  function PhaseAfter(upcalls: seq<Upcall>): Phase {
    if upcalls == [] then Before
    else NextPhase(PhaseAfter(upcalls[..|upcalls| - 1]), upcalls[|upcalls| - 1])
  }

  function NextPhase(p: Phase, u: Upcall): Phase {
    match p
    case Before => if u.Up? then Open else Violated
    case Open => if u.Up? then Violated else if u.Down? then Closed else Open
    case Closed => if u.WriteComplete? || u.HighWater? then Closed else Violated
    case Violated => Violated
  }

  /** Of a history of backlog sizes: the sizes at its upward crossings of the mark, the number of its
      downward crossings, its drops to empty, and the bytes taken off in all. */
  function Crossed(levels: seq<nat>, mark: nat): seq<nat> {
    if |levels| < 2 then []
    else
      var before := Crossed(levels[..|levels| - 1], mark);
      if levels[|levels| - 2] < mark <= levels[|levels| - 1] then before + [levels[|levels| - 1]] else before
  }

  function DownCrossings(levels: seq<nat>, mark: nat): nat {
    if |levels| < 2 then 0
    else DownCrossings(levels[..|levels| - 1], mark)
         + if levels[|levels| - 1] < mark <= levels[|levels| - 2] then 1 else 0
  }

  function Drains(levels: seq<nat>): nat {
    if |levels| < 2 then 0
    else Drains(levels[..|levels| - 1])
         + if levels[|levels| - 1] == 0 < levels[|levels| - 2] then 1 else 0
  }

  function Fallen(levels: seq<nat>): nat {
    if |levels| < 2 then 0
    else Fallen(levels[..|levels| - 1])
         + if levels[|levels| - 1] < levels[|levels| - 2] then levels[|levels| - 2] - levels[|levels| - 1] else 0
  }

  /** Of a history of sendInLoop calls: how many messages the kernel took whole at once, and the bytes
      it took at once in all. */
  function AtOnce(sends: seq<Record>): nat {
    if sends == [] then 0
    else
      var last := sends[|sends| - 1];
      AtOnce(sends[..|sends| - 1]) + if last.wrote == Some(|last.msg|) then 1 else 0
  }

  function WrittenAtOnce(sends: seq<Record>): nat {
    if sends == [] then 0
    else
      var last := sends[|sends| - 1];
      WrittenAtOnce(sends[..|sends| - 1]) + if last.wrote.Some? then last.wrote.value else 0
  }

  /** The levels of the high-water callbacks made, and of those whose functor still waits. */
  function Notified(upcalls: seq<Upcall>): seq<nat> {
    if upcalls == [] then []
    else
      var before, last := Notified(upcalls[..|upcalls| - 1]), upcalls[|upcalls| - 1];
      if last.HighWater? then before + [last.level] else before
  }

  function Awaited(queue: seq<Task>): seq<nat> {
    if queue == [] then []
    else if queue[0].HighWaterTask? then [queue[0].level] + Awaited(queue[1..])
    else Awaited(queue[1..])
  }

  // ------------------------------------------------------------------ the invariant

  predicate Live(c: Conn) {
    c.state.Connected? || c.state.Disconnecting?
  }

  /** Read interest always, write interest exactly while there is a backlog. */
  function Interests(output: Bytes): Mask {
    if output == [] then READ_EVENT else READ_EVENT | WRITE_EVENT
  }

  predicate ChannelInv(c: Conn) {
    var ch := c.chan;
    match c.state
    case Connecting => ch.state.index.New? && !ch.mapped && ch.interest.None? && ch.state.events == NONE_EVENT
    case Disconnected =>
      !ch.state.index.Added? && (ch.mapped <==> ch.state.index.Deleted?)
      && ch.interest.None? && ch.state.events == NONE_EVENT
    case _ =>
      ch.state.index.Added? && ch.mapped && ch.state.events == Interests(c.output)
      && ch.interest == Some(ch.state.events)
  }

  predicate BytesInv(c: Conn) {
    && c.stream + c.output == Accepted(c.sends)
    && c.consumed + c.input == c.received
    && (c.state.Connecting? ==> c.output == [] && c.queue == [] && c.inflight == multiset{})
  }

  predicate ShutdownPending(c: Conn) {
    ShutdownTask in c.queue || ShutdownTask in c.inflight
  }

  predicate ShutInv(c: Conn) {
    && (c.shut || ShutdownPending(c) ==> c.state.Disconnecting? || c.state.Disconnected?)
    && (c.shut && Live(c) ==> c.output == [])
    && (c.state.Disconnecting? && c.output == [] && !ShutdownPending(c) ==> c.shut)
  }

  predicate LogInv(c: Conn) {
    PhaseAfter(c.upcalls) ==
    match c.state
    case Connecting => Before
    case Disconnected => Closed
    case _ => Open
  }

  /** The close is owed to the server, or connectDestroyed is queued, or it has run; `closing` is 1
      while handleClose has yet to ask the server. */
  predicate DutyInv(c: Conn, closing: nat) {
    && c.closes == (if c.state.Disconnected? then 1 else 0)
    && closing + c.removalsOwed + multiset(c.queue)[DestroyTask] + c.destroys == c.closes
    && (forall t :: t in c.inflight ==> t.SendTask? || t.ShutdownTask?)
    && (c.state.Disconnected? ==> (c.chan.state.index.New? <==> c.destroys == 1))
  }

  /** The backlog's history ends at the backlog, and every byte of the stream was either written at
      once or taken off the backlog. */
  predicate Levels(levels: seq<nat>, output: Bytes, stream: Bytes, sends: seq<Record>) {
    && levels != [] && levels[0] == 0 && levels[|levels| - 1] == |output|
    && |stream| == WrittenAtOnce(sends) + Fallen(levels)
  }

  predicate LevelInv(c: Conn) {
    Levels(c.levels, c.output, c.stream, c.sends)
  }

  /** The high-water callbacks made, followed by those queued, are the upward crossings. */
  predicate Crossings(cfg: Settings, upcalls: seq<Upcall>, queue: seq<Task>, levels: seq<nat>) {
    Notified(upcalls) + Awaited(queue) == if cfg.onHighWater then Crossed(levels, cfg.mark) else []
  }

  /** Write-completes made and queued are as many as drains and messages written at once. */
  predicate Completions(cfg: Settings, upcalls: seq<Upcall>, queue: seq<Task>, completions: seq<Stamp>,
                        levels: seq<nat>, sends: seq<Record>)
  {
    && multiset(upcalls)[WriteComplete] + multiset(queue)[WriteCompleteTask] == |completions|
    && |completions| == (if cfg.onWriteComplete then Drains(levels) + AtOnce(sends) else 0)
    && (forall i :: 0 <= i < |completions| ==> completions[i].inKernel == completions[i].accepted)
  }

  predicate NoticeInv(c: Conn) {
    && Crossings(c.cfg, c.upcalls, c.queue, c.levels)
    && Completions(c.cfg, c.upcalls, c.queue, c.completions, c.levels, c.sends)
  }

  predicate Inv(c: Conn, closing: nat) {
    ChannelInv(c) && BytesInv(c) && ShutInv(c) && LogInv(c) && DutyInv(c, closing) && LevelInv(c) && NoticeInv(c)
  }

  lemma NewConnInv(cfg: Settings, fd: int)
    ensures Inv(NewConn(cfg, fd), 0)
  {
  }

  // ------------------------------------------------------------------ small facts

  lemma Masks()
    ensures NewEvents(NONE_EVENT, EnableReading) == READ_EVENT
    ensures NewEvents(READ_EVENT, EnableWriting) == READ_EVENT | WRITE_EVENT
    ensures NewEvents(READ_EVENT | WRITE_EVENT, DisableWriting) == READ_EVENT
    ensures READ_EVENT != NONE_EVENT && READ_EVENT | WRITE_EVENT != NONE_EVENT
    ensures !IsWriting(NONE_EVENT) && !IsWriting(READ_EVENT) && IsWriting(READ_EVENT | WRITE_EVENT)
  {
  }

  lemma Appended<T>(s: seq<T>, x: T)
    ensures (s + [x])[..|s + [x]| - 1] == s
  {
  }

  lemma SendsAppend(sends: seq<Record>, r: Record)
    ensures Accepted(sends + [r]) == Accepted(sends) + if r.refused then [] else r.msg
    ensures AtOnce(sends + [r]) == AtOnce(sends) + if r.wrote == Some(|r.msg|) then 1 else 0
    ensures WrittenAtOnce(sends + [r]) == WrittenAtOnce(sends) + if r.wrote.Some? then r.wrote.value else 0
  {
    Appended(sends, r);
  }

  lemma LevelAppend(levels: seq<nat>, x: nat, mark: nat)
    requires levels != []
    ensures var last := levels[|levels| - 1];
            && Crossed(levels + [x], mark) == (if last < mark <= x then Crossed(levels, mark) + [x] else Crossed(levels, mark))
            && Drains(levels + [x]) == Drains(levels) + (if x == 0 < last then 1 else 0)
            && Fallen(levels + [x]) == Fallen(levels) + (if x < last then last - x else 0)
  {
    Appended(levels, x);
  }

  lemma LogAppend(log: seq<Upcall>, u: Upcall)
    ensures PhaseAfter(log + [u]) == NextPhase(PhaseAfter(log), u)
  {
    Appended(log, u);
  }

  lemma NotifiedAppend(log: seq<Upcall>, u: Upcall)
    ensures Notified(log + [u]) == if u.HighWater? then Notified(log) + [u.level] else Notified(log)  {
    Appended(log, u);
  }

  lemma WritingIffBacklog(c: Conn)
    requires ChannelInv(c)
    ensures Live(c) ==> (Writing(c) <==> c.output != [])
    ensures !Live(c) ==> !Writing(c)
  {
    Masks();
  }

  // ------------------------------------------------------------------ every operation keeps it

  lemma QueueAppend(q: seq<Task>, t: Task)
    ensures multiset(q + [t])[DestroyTask] == multiset(q)[DestroyTask] + if t.DestroyTask? then 1 else 0
    ensures multiset(q + [t])[WriteCompleteTask] == multiset(q)[WriteCompleteTask] + if t.WriteCompleteTask? then 1 else 0
    ensures ShutdownTask in q + [t] <==> ShutdownTask in q || t.ShutdownTask?
  {
  }

  lemma {:induction false} AwaitedAppend(q: seq<Task>, t: Task)
    ensures Awaited(q + [t]) == if t.HighWaterTask? then Awaited(q) + [t.level] else Awaited(q)
  {
    assert (q + [t])[0] == if q == [] then t else q[0];
    if q != [] {
      AwaitedAppend(q[1..], t);
      assert (q + [t])[1..] == q[1..] + [t];
    } else {
      assert (q + [t])[1..] == [];
    }
  }

  lemma PopTask(q: seq<Task>)
    requires q != []
    ensures multiset(q)[DestroyTask] == multiset(q[1..])[DestroyTask] + if q[0].DestroyTask? then 1 else 0
    ensures multiset(q)[WriteCompleteTask] == multiset(q[1..])[WriteCompleteTask] + if q[0].WriteCompleteTask? then 1 else 0
    ensures ShutdownTask in q <==> ShutdownTask in q[1..] || q[0].ShutdownTask?
  {
    assert q == [q[0]] + q[1..];
  }

  // ------------------------------------------------------------------ histories and notifications

  lemma Regroup(a: seq<nat>, b: seq<nat>, c: seq<nat>)
    ensures (a + b) + c == a + (b + c)
  {
  }

  /** The backlog changes to x: an upward crossing calls for a high-water notification. */
  lemma CrossingsLevel(cfg: Settings, upcalls: seq<Upcall>, queue: seq<Task>, levels: seq<nat>, x: nat)
    requires levels != [] && Crossings(cfg, upcalls, queue, levels)
    ensures var high := cfg.onHighWater && levels[|levels| - 1] < cfg.mark <= x;
            Crossings(cfg, upcalls, if high then queue + [HighWaterTask(x)] else queue, levels + [x])
  {
    LevelAppend(levels, x, cfg.mark);
    AwaitedAppend(queue, HighWaterTask(x));
    hide Notified, Awaited, Crossed;
    Regroup(Notified(upcalls), Awaited(queue), [x]);
  }

  /** Other functors and callbacks come and go. */
  lemma CrossingsOther(cfg: Settings, upcalls: seq<Upcall>, queue: seq<Task>, levels: seq<nat>, t: Task, u: Upcall)
    requires Crossings(cfg, upcalls, queue, levels) && !t.HighWaterTask? && !u.HighWater?
    ensures Crossings(cfg, upcalls, queue + [t], levels)
    ensures Crossings(cfg, upcalls + [u], queue, levels)
    ensures queue != [] && !queue[0].HighWaterTask? ==> Crossings(cfg, upcalls, queue[1..], levels)
  {
    AwaitedAppend(queue, t);
    NotifiedAppend(upcalls, u);
    hide Notified, Crossed;
  }

  /** A queued high-water notification is made. */
  lemma CrossingsRun(cfg: Settings, upcalls: seq<Upcall>, queue: seq<Task>, levels: seq<nat>)
    requires Crossings(cfg, upcalls, queue, levels) && queue != [] && queue[0].HighWaterTask?
    ensures Crossings(cfg, upcalls + [HighWater(queue[0].level)], queue[1..], levels)
  {
    NotifiedAppend(upcalls, HighWater(queue[0].level));
    assert Awaited(queue) == [queue[0].level] + Awaited(queue[1..]);
    hide Notified, Awaited, Crossed;
    Regroup(Notified(upcalls), [queue[0].level], Awaited(queue[1..]));
  }

  /** The backlog changes without becoming empty, or a message is not taken whole at once. */
  lemma CompletionsLevel(cfg: Settings, upcalls: seq<Upcall>, queue: seq<Task>, completions: seq<Stamp>,
                         levels: seq<nat>, sends: seq<Record>, x: nat, r: Record)
    requires levels != [] && Completions(cfg, upcalls, queue, completions, levels, sends)
    ensures x > 0 ==> Completions(cfg, upcalls, queue, completions, levels + [x], sends)
    ensures r.wrote != Some(|r.msg|) ==> Completions(cfg, upcalls, queue, completions, levels, sends + [r])
  {
    hide AtOnce, WrittenAtOnce, Drains, Crossed, Fallen, Accepted;
    LevelAppend(levels, x, cfg.mark);
    SendsAppend(sends, r);
  }

  lemma CompletionsOther(cfg: Settings, upcalls: seq<Upcall>, queue: seq<Task>, completions: seq<Stamp>,
                         levels: seq<nat>, sends: seq<Record>, t: Task, u: Upcall)
    requires Completions(cfg, upcalls, queue, completions, levels, sends) && !t.WriteCompleteTask? && !u.WriteComplete?
    ensures Completions(cfg, upcalls, queue + [t], completions, levels, sends)
    ensures Completions(cfg, upcalls + [u], queue, completions, levels, sends)
    ensures queue != [] && !queue[0].WriteCompleteTask? ==> Completions(cfg, upcalls, queue[1..], completions, levels, sends)
  {
    hide Drains, AtOnce;
    QueueAppend(queue, t);
    if queue != [] {
      PopTask(queue);
    }
  }

  /** A queued write-complete is made. */
  lemma CompletionsRun(cfg: Settings, upcalls: seq<Upcall>, queue: seq<Task>, completions: seq<Stamp>,
                       levels: seq<nat>, sends: seq<Record>)
    requires Completions(cfg, upcalls, queue, completions, levels, sends) && queue != [] && queue[0].WriteCompleteTask?
    ensures Completions(cfg, upcalls + [WriteComplete], queue[1..], completions, levels, sends)
  {
    hide Drains, AtOnce;
    PopTask(queue);
  }

  /** The backlog becomes empty, or a message is taken whole at once, and a write-complete is queued. */
  lemma CompletionsAdd(cfg: Settings, upcalls: seq<Upcall>, queue: seq<Task>, completions: seq<Stamp>,
                       levels: seq<nat>, sends: seq<Record>, stamp: Stamp, r: Record)
    requires levels != [] && Completions(cfg, upcalls, queue, completions, levels, sends) && stamp.inKernel == stamp.accepted
    ensures var q := if cfg.onWriteComplete then queue + [WriteCompleteTask] else queue;
            var done := if cfg.onWriteComplete then completions + [stamp] else completions;
            && (levels[|levels| - 1] > 0 ==> Completions(cfg, upcalls, q, done, levels + [0], sends))
            && (r.wrote == Some(|r.msg|) ==> Completions(cfg, upcalls, q, done, levels, sends + [r]))
  {
    hide AtOnce, WrittenAtOnce, Drains, Crossed, Fallen, Accepted;
    LevelAppend(levels, 0, cfg.mark);
    SendsAppend(sends, r);
    QueueAppend(queue, WriteCompleteTask);
  }

  /** Bytes enter the backlog, leave it for the stream, or go to the stream at once. */
  lemma LevelsMove(levels: seq<nat>, output: Bytes, stream: Bytes, sends: seq<Record>, rest: Bytes, n: nat)
    requires Levels(levels, output, stream, sends) && n <= |output|
    ensures Levels(levels + [|output| + |rest|], output + rest, stream, sends)
    ensures Levels(levels + [|output| - n], output[n..], stream + output[..n], sends)
  {
    hide WrittenAtOnce, Fallen, Drains, Crossed;
    LevelAppend(levels, |output| + |rest|, 0);
    LevelAppend(levels, |output| - n, 0);
  }

  lemma LevelsSend(levels: seq<nat>, output: Bytes, stream: Bytes, sends: seq<Record>, r: Record, more: Bytes)
    requires Levels(levels, output, stream, sends) && |more| == if r.wrote.Some? then r.wrote.value else 0
    ensures Levels(levels, output, stream + more, sends + [r])
  {
    hide WrittenAtOnce, Fallen, AtOnce, Accepted;
    SendsAppend(sends, r);
  }

  /** What Backlog does to a live connection that has something left to write. */
  lemma BacklogEffect(c: Conn, rest: Bytes)
    requires Live(c) && ChannelInv(c) && rest != []
    ensures var e := Backlog(c, rest);
            var high := c.cfg.onHighWater && |c.output| < c.cfg.mark <= |c.output| + |rest|;
            && e == c.(output := c.output + rest, levels := c.levels + [|c.output| + |rest|], chan := e.chan,
                       queue := c.queue + (if high then [HighWaterTask(|c.output| + |rest|)] else []))
            && ChannelInv(e)
  {
    Masks();
    assert c.queue + [] == c.queue;
  }

  lemma LevelsEnd(c: Conn)
    requires LevelInv(c)
    ensures c.levels != [] && c.levels[|c.levels| - 1] == |c.output|
  {
  }

  lemma StoredCrossings(c: Conn, level: nat, high: bool)
    requires LevelInv(c) && NoticeInv(c) && level > 0
    requires high == (c.cfg.onHighWater && |c.output| < c.cfg.mark <= level)
    ensures var queue := if high then c.queue + [HighWaterTask(level)] else c.queue;
            && Crossings(c.cfg, c.upcalls, queue, c.levels + [level])
            && Completions(c.cfg, c.upcalls, queue, c.completions, c.levels + [level], c.sends)
  {
    hide Levels, Crossings, Completions;
    LevelsEnd(c);
    CrossingsLevel(c.cfg, c.upcalls, c.queue, c.levels, level);
    CompletionsLevel(c.cfg, c.upcalls, c.queue, c.completions, c.levels, c.sends, level, Record([], true, None));
    CompletionsOther(c.cfg, c.upcalls, c.queue, c.completions, c.levels + [level], c.sends, HighWaterTask(level), Up);
  }

  lemma StoredNotices(c: Conn, rest: Bytes, high: bool)
    requires LevelInv(c) && NoticeInv(c)
    requires high == (c.cfg.onHighWater && |c.output| < c.cfg.mark <= |c.output| + |rest|) && rest != []
    ensures var level := |c.output| + |rest|;
            var queue := if high then c.queue + [HighWaterTask(level)] else c.queue;
            && Levels(c.levels + [level], c.output + rest, c.stream, c.sends)
            && Crossings(c.cfg, c.upcalls, queue, c.levels + [level])
            && Completions(c.cfg, c.upcalls, queue, c.completions, c.levels + [level], c.sends)
  {
    hide Levels, Crossings, Completions;
    StoredCrossings(c, |c.output| + |rest|, high);
    LevelsMove(c.levels, c.output, c.stream, c.sends, rest, 0);
  }

  lemma BacklogNotices(c: Conn, rest: Bytes)
    requires Live(c) && ChannelInv(c) && LevelInv(c) && NoticeInv(c)
    ensures LevelInv(Backlog(c, rest)) && NoticeInv(Backlog(c, rest))
  {
    hide Levels, Crossings, Completions, ChannelInv, UpdateSlice, NewEvents, Writing;
    if rest != [] {
      StoredNotices(c, rest, c.cfg.onHighWater && |c.output| < c.cfg.mark <= |c.output| + |rest|);
    }
  }

  lemma BacklogDuty(c: Conn, rest: Bytes, k: nat)
    requires Live(c) && ChannelInv(c) && DutyInv(c, k)
    ensures DutyInv(Backlog(c, rest), k)
    ensures ShutdownPending(Backlog(c, rest)) == ShutdownPending(c)
  {
    if rest != [] {
      BacklogEffect(c, rest);
      QueueAppend(c.queue, HighWaterTask(|c.output| + |rest|));
      assert c.queue + [] == c.queue;
    }
  }

  /** Storing the unwritten rest, once the whole message has been counted as accepted. */
  lemma BacklogKeeps(c: Conn, rest: Bytes, k: nat)
    requires Live(c) && !c.shut
    requires ChannelInv(c) && ShutInv(c) && LogInv(c) && DutyInv(c, k) && LevelInv(c) && NoticeInv(c)
    requires c.stream + c.output + rest == Accepted(c.sends) && c.consumed + c.input == c.received
    ensures Inv(Backlog(c, rest), k)
  {
    hide Levels, Crossings, Completions, Accepted, PhaseAfter, Backlog, ChannelInv, DutyInv, ShutdownPending;
    BacklogNotices(c, rest);
    BacklogDuty(c, rest, k);
    BacklogNothing(c);
    assert c.stream + (c.output + rest) == c.stream + c.output + rest;
    if rest != [] {
      BacklogEffect(c, rest);
    } else {
      assert c.output + rest == c.output;
    }
  }

  lemma BacklogNothing(c: Conn)
    ensures Backlog(c, []) == c
  {
  }

  lemma RefusalNotices(c: Conn, msg: Bytes)
    requires LevelInv(c) && NoticeInv(c)
    ensures LevelInv(Log(c, msg, true, None)) && NoticeInv(Log(c, msg, true, None))
  {
    hide Levels, Crossings, Completions;
    var r := Record(msg, true, None);
    LevelsEnd(c);
    LevelsSend(c.levels, c.output, c.stream, c.sends, r, []);
    assert c.stream + [] == c.stream;
    CompletionsLevel(c.cfg, c.upcalls, c.queue, c.completions, c.levels, c.sends, 0, r);
  }

  lemma RefusalRest(c: Conn, msg: Bytes, k: nat)
    requires ChannelInv(c) && ShutInv(c) && LogInv(c) && DutyInv(c, k)
    ensures var d := Log(c, msg, true, None); ChannelInv(d) && ShutInv(d) && LogInv(d) && DutyInv(d, k)
  {
    hide PhaseAfter;
  }

  lemma RefusalKeeps(c: Conn, msg: Bytes, k: nat)
    requires Inv(c, k)
    ensures Inv(Log(c, msg, true, None), k)
  {
    hide LevelInv, NoticeInv, ChannelInv, ShutdownPending, Accepted, AtOnce, WrittenAtOnce, PhaseAfter;
    RefusalRest(c, msg, k);
    RefusalNotices(c, msg);
    SendsAppend(c.sends, Record(msg, true, None));
  }

  lemma CompletionDuty(c: Conn, k: nat)
    requires DutyInv(c, k)
    ensures DutyInv(QueueWriteComplete(c), k)
    ensures ShutdownPending(QueueWriteComplete(c)) == ShutdownPending(c)
  {
    QueueAppend(c.queue, WriteCompleteTask);
  }

  /** The connection once the kernel has taken the first n bytes of a message at once. */
  function Taking(c: Conn, msg: Bytes, n: nat, wrote: Option<nat>): Conn
    requires n <= |msg|
  {
    Log(c, msg, false, wrote).(stream := c.stream + msg[..n])
  }

  lemma DirectNotices(c: Conn, msg: Bytes)
    requires LevelInv(c) && NoticeInv(c) && BytesInv(c) && c.output == []
    ensures var d := Taking(c, msg, |msg|, Some(|msg|));
            LevelInv(QueueWriteComplete(d)) && NoticeInv(QueueWriteComplete(d)) && d.stream == Accepted(d.sends)
  {
    var d, r := Taking(c, msg, |msg|, Some(|msg|)), Record(msg, false, Some(|msg|));
    hide Levels, Crossings, Completions;
    var stamp := Stamp(|d.stream|, |Accepted(d.sends)|);
    LevelsEnd(c);
    SendsAppend(c.sends, r);
    assert msg[..|msg|] == msg && c.stream + [] == c.stream;
    LevelsSend(c.levels, c.output, c.stream, c.sends, r, msg);
    CrossingsOther(c.cfg, c.upcalls, c.queue, c.levels, WriteCompleteTask, Up);
    CompletionsAdd(c.cfg, c.upcalls, c.queue, c.completions, c.levels, c.sends, stamp, r);
  }

  /** The whole message goes to the kernel at once. */
  lemma DirectKeeps(c: Conn, msg: Bytes, k: nat)
    requires Inv(c, k) && Live(c) && c.output == [] && !c.shut
    ensures Inv(QueueWriteComplete(Taking(c, msg, |msg|, Some(|msg|))), k)
  {
    hide Accepted, LevelInv, NoticeInv, PhaseAfter;
    var d := Taking(c, msg, |msg|, Some(|msg|));
    DirectNotices(c, msg);
    TakingBytes(c, msg, |msg|, Some(|msg|));
    assert d.stream + d.output + msg[|msg|..] == d.stream + d.output;
    CompletionDuty(d, k);
  }

  lemma TakingNotices(c: Conn, msg: Bytes, n: nat, wrote: Option<nat>)
    requires LevelInv(c) && NoticeInv(c) && n <= |msg|
    requires if wrote.Some? then wrote.value == n < |msg| else n == 0
    ensures LevelInv(Taking(c, msg, n, wrote)) && NoticeInv(Taking(c, msg, n, wrote))
  {
    hide Levels, Crossings, Completions;
    var r := Record(msg, false, wrote);
    LevelsEnd(c);
    LevelsSend(c.levels, c.output, c.stream, c.sends, r, msg[..n]);
    CompletionsLevel(c.cfg, c.upcalls, c.queue, c.completions, c.levels, c.sends, 0, r);
  }

  lemma Joined(stream: Bytes, output: Bytes, msg: Bytes, n: nat)
    requires n <= |msg| && (n > 0 ==> output == [])
    ensures (stream + msg[..n]) + output + msg[n..] == (stream + output) + msg
  {
    assert msg[..n] + msg[n..] == msg;
    if n == 0 {
      assert stream + msg[..0] == stream && msg[0..] == msg;
    } else {
      assert stream + output == stream && (stream + msg[..n]) + output == stream + msg[..n];
    }
  }

  lemma TakingBytes(c: Conn, msg: Bytes, n: nat, wrote: Option<nat>)
    requires BytesInv(c) && n <= |msg| && (n > 0 ==> c.output == [])
    ensures var d := Taking(c, msg, n, wrote);
            d.stream + d.output + msg[n..] == Accepted(d.sends) && d.consumed + d.input == d.received
  {
    hide Accepted, AtOnce, WrittenAtOnce;
    SendsAppend(c.sends, Record(msg, false, wrote));
    Joined(c.stream, c.output, msg, n);
  }

  lemma TakingRest(c: Conn, msg: Bytes, n: nat, wrote: Option<nat>, k: nat)
    requires ChannelInv(c) && ShutInv(c) && LogInv(c) && DutyInv(c, k) && n <= |msg|
    ensures var d := Taking(c, msg, n, wrote);
            ChannelInv(d) && ShutInv(d) && LogInv(d) && DutyInv(d, k)
  {
    hide PhaseAfter, Accepted;
  }

  /** The first n bytes go to the kernel and the rest to the backlog. */
  lemma StoreKeeps(c: Conn, msg: Bytes, n: nat, wrote: Option<nat>, k: nat)
    requires Inv(c, k) && Live(c) && !c.shut && n <= |msg| && (n > 0 ==> c.output == [])
    requires if wrote.Some? then wrote.value == n < |msg| else n == 0
    ensures Inv(Backlog(Taking(c, msg, n, wrote), msg[n..]), k)
  {
    hide ChannelInv, BytesInv, ShutInv, LogInv, DutyInv, LevelInv, NoticeInv, Backlog, Accepted;
    TakingNotices(c, msg, n, wrote);
    TakingBytes(c, msg, n, wrote);
    TakingRest(c, msg, n, wrote, k);
    BacklogKeeps(Taking(c, msg, n, wrote), msg[n..], k);
  }

  /** The three ways through sendInLoop. */
  predicate Refuses(c: Conn, msg: Bytes, wish: WriteAnswer) {
    c.state.Disconnected? || (c.output == [] && Write(c.shut, |msg|, wish).Broken?)
  }

  lemma SendShape(c: Conn, msg: Bytes, wish: WriteAnswer)
    requires ChannelInv(c) && !c.state.Connecting?
    ensures var n, wrote := TakenNow(c, msg, wish), WroteNow(c, msg, wish);
            SendInLoop(c, msg, wish) ==
              if Refuses(c, msg, wish) then Log(c, msg, true, None)
              else if wrote == Some(|msg|) then QueueWriteComplete(Taking(c, msg, n, wrote))
              else Backlog(Taking(c, msg, n, wrote), msg[n..])
  {
    WritingIffBacklog(c);
    assert c.stream + msg[..0] == c.stream && msg[0..] == msg;
  }

  /** What the direct write of sendInLoop returns, if there is one and it does not fail. */
  function WroteNow(c: Conn, msg: Bytes, wish: WriteAnswer): (wrote: Option<nat>)
    ensures wrote.Some? ==> c.output == [] && wrote.value <= |msg|
  {
    var answer := Write(c.shut, |msg|, wish);
    if c.output == [] && answer.Wrote? then Some(answer.n) else None
  }

  /** Bytes of the message that the kernel takes at once. */
  function TakenNow(c: Conn, msg: Bytes, wish: WriteAnswer): (n: nat)
    ensures n <= |msg|
  {
    var wrote := WroteNow(c, msg, wish);
    if wrote.Some? then wrote.value else 0
  }

  lemma SendInLoopKeeps(c: Conn, msg: Bytes, wish: WriteAnswer, k: nat)
    requires Inv(c, k) && !c.state.Connecting?
    ensures Inv(SendInLoop(c, msg, wish), k)
  {
    SendShape(c, msg, wish);
    var n, wrote := TakenNow(c, msg, wish), WroteNow(c, msg, wish);
    if Refuses(c, msg, wish) {
      RefusalKeeps(c, msg, k);
    } else if wrote == Some(|msg|) {
      DirectKeeps(c, msg, k);
    } else {
      StoreKeeps(c, msg, n, wrote, k);
    }
  }

  lemma SendKeepsState(c: Conn, msg: Bytes, wish: WriteAnswer)
    ensures SendInLoop(c, msg, wish).state == c.state
  {
  }

  lemma ShutdownInLoopKeeps(c: Conn, k: nat)
    requires ChannelInv(c) && BytesInv(c) && LogInv(c) && DutyInv(c, k) && LevelInv(c) && NoticeInv(c)
    requires c.shut || ShutdownPending(c) ==> c.state.Disconnecting? || c.state.Disconnected?
    requires c.shut && Live(c) ==> c.output == []
    requires c.state.Disconnecting? || c.state.Disconnected?
    ensures Inv(ShutdownInLoop(c), k)
  {
    hide Levels, Crossings, Completions;
    WritingIffBacklog(c);
  }

  /** The connection after the kernel took n bytes of the backlog. */
  function Drained(c: Conn, n: nat): Conn
    requires n <= |c.output|
  {
    c.(stream := c.stream + c.output[..n], output := c.output[n..], levels := c.levels + [|c.output| - n])
  }

  lemma PartDrainedNotices(c: Conn, n: nat)
    requires LevelInv(c) && NoticeInv(c) && 0 < n < |c.output|
    ensures LevelInv(Drained(c, n)) && NoticeInv(Drained(c, n))
  {
    hide Levels, Crossings, Completions;
    var x := |c.output| - n;
    LevelsEnd(c);
    LevelsMove(c.levels, c.output, c.stream, c.sends, [], n);
    DownNeedsNoNotice(c.cfg, c.upcalls, c.queue, c.levels, x);
    CompletionsLevel(c.cfg, c.upcalls, c.queue, c.completions, c.levels, c.sends, x, Record([], true, None));
  }

  lemma PartDrainedKeeps(c: Conn, n: nat)
    requires Inv(c, 0) && Live(c) && 0 < n < |c.output|
    ensures Inv(Drained(c, n), 0)
  {
    hide LevelInv, NoticeInv;
    Masks();
    PartDrainedNotices(c, n);
    assert c.stream + c.output[..n] + c.output[n..] == c.stream + c.output;
  }

  /** A falling backlog calls for no high-water notification. */
  lemma DownNeedsNoNotice(cfg: Settings, upcalls: seq<Upcall>, queue: seq<Task>, levels: seq<nat>, x: nat)
    requires levels != [] && Crossings(cfg, upcalls, queue, levels) && x <= levels[|levels| - 1]
    ensures Crossings(cfg, upcalls, queue, levels + [x])
  {
    CrossingsLevel(cfg, upcalls, queue, levels, x);
  }

  lemma EmptiedNotices(c: Conn, stamp: Stamp)
    requires LevelInv(c) && NoticeInv(c) && c.output != [] && stamp.inKernel == stamp.accepted
    ensures var queue := if c.cfg.onWriteComplete then c.queue + [WriteCompleteTask] else c.queue;
            var done := if c.cfg.onWriteComplete then c.completions + [stamp] else c.completions;
            && Levels(c.levels + [0], [], c.stream + c.output, c.sends)
            && Crossings(c.cfg, c.upcalls, queue, c.levels + [0])
            && Completions(c.cfg, c.upcalls, queue, done, c.levels + [0], c.sends)
  {
    hide Levels, Crossings, Completions;
    LevelsEnd(c);
    assert c.output[..|c.output|] == c.output && c.output[|c.output|..] == [];
    LevelsMove(c.levels, c.output, c.stream, c.sends, [], |c.output|);
    DownNeedsNoNotice(c.cfg, c.upcalls, c.queue, c.levels, 0);
    CrossingsOther(c.cfg, c.upcalls, c.queue, c.levels + [0], WriteCompleteTask, Up);
    CompletionsAdd(c.cfg, c.upcalls, c.queue, c.completions, c.levels, c.sends, stamp, Record([], true, None));
  }

  /** The connection once the whole backlog is gone: no write interest, and a write-complete is queued. */
  function Emptied(c: Conn): Conn {
    QueueWriteComplete(Watch(Drained(c, |c.output|), DisableWriting))
  }

  lemma EmptiedKeepsNotices(c: Conn)
    requires LevelInv(c) && NoticeInv(c) && c.stream + c.output == Accepted(c.sends) && c.output != []
    ensures LevelInv(Emptied(c)) && NoticeInv(Emptied(c))
  {
    hide Levels, Crossings, Completions, UpdateSlice, NewEvents;
    assert c.output[..|c.output|] == c.output && c.output[|c.output|..] == [];
    EmptiedNotices(c, Stamp(|c.stream + c.output|, |Accepted(c.sends)|));
  }

  lemma EmptiedChannel(c: Conn)
    requires ChannelInv(c) && Live(c) && c.output != []
    ensures ChannelInv(Emptied(c)) && ChannelInv(Emptied(c).(shut := true)) && !Writing(Emptied(c))
  {
    Masks();
  }

  lemma EmptiedRest(c: Conn)
    requires BytesInv(c) && LogInv(c) && DutyInv(c, 0) && Live(c)
    ensures BytesInv(Emptied(c)) && LogInv(Emptied(c)) && DutyInv(Emptied(c), 0)
    ensures ShutdownPending(Emptied(c)) == ShutdownPending(c)
    ensures Emptied(c).output == [] && Emptied(c).state == c.state && Emptied(c).shut == c.shut
  {
    hide Accepted, PhaseAfter, UpdateSlice, NewEvents;
    CompletionDuty(Watch(Drained(c, |c.output|), DisableWriting), 0);
    assert c.stream + c.output[..|c.output|] + [] == c.stream + c.output;
  }

  lemma AllDrainedKeeps(c: Conn)
    requires Inv(c, 0) && Live(c) && c.output != []
    ensures Inv(if c.state.Disconnecting? then ShutdownInLoop(Emptied(c)) else Emptied(c), 0)
    ensures Emptied(c).state == c.state
  {
    hide Levels, Crossings, Completions, Accepted, PhaseAfter, ChannelInv, Emptied, Writing, ShutdownPending;
    EmptiedChannel(c);
    EmptiedKeepsNotices(c);
    EmptiedRest(c);
    assert ShutdownPending(Emptied(c).(shut := true)) == ShutdownPending(Emptied(c)) by {
      SamePending(Emptied(c));
    }
  }

  lemma SamePending(c: Conn)
    ensures ShutdownPending(c.(shut := true)) == ShutdownPending(c)
  {
  }

  lemma HandleWriteKeeps(c: Conn, wish: WriteAnswer)
    requires Inv(c, 0)
    ensures Inv(HandleWrite(c, wish), 0)
  {
    hide Levels, Crossings, Completions;
    var answer := Write(c.shut, |c.output|, wish);
    assert Writing(c) ==> Live(c) && c.output != [] by { WritingIffBacklog(c); }
    hide Inv;
    if Writing(c) && answer.Wrote? && answer.n > 0 {
      if answer.n == |c.output| {
        AllDrainedKeeps(c);
      } else {
        PartDrainedKeeps(c, answer.n);
      }
    }
  }

  lemma ForeignSendKeeps(c: Conn, msg: Bytes, k: nat)
    requires Inv(c, k)
    ensures Inv(DoForeign(c, ForeignSend(msg)), k)
  {
    hide Levels, Crossings, Completions;
  }

  lemma ForeignShutdownKeeps(c: Conn, k: nat)
    requires Inv(c, k)
    ensures Inv(DoForeign(c, ForeignShutdown), k)
  {
    hide Levels, Crossings, Completions;
  }

  lemma ArrivalNotices(c: Conn, task: Task)
    requires NoticeInv(c) && (task.SendTask? || task.ShutdownTask?)
    ensures NoticeInv(c.(queue := c.queue + [task]))
  {
    CrossingsOther(c.cfg, c.upcalls, c.queue, c.levels, task, Up);
    CompletionsOther(c.cfg, c.upcalls, c.queue, c.completions, c.levels, c.sends, task, Up);
  }

  lemma ArrivalKeeps(c: Conn, task: Task, k: nat)
    requires Inv(c, k)
    ensures Inv(DoForeign(c, Queue(task)), k)
  {
    hide Levels, Crossings, Completions, Accepted, PhaseAfter;
    if task in c.inflight {
      QueueAppend(c.queue, task);
      ArrivalNotices(c, task);
    }
  }

  lemma ForeignKeeps(c: Conn, f: Foreign, k: nat)
    requires Inv(c, k)
    ensures Inv(DoForeign(c, f), k) && DoForeign(c, f).destroys == c.destroys
    ensures c.state.Disconnected? ==> DoForeign(c, f).state.Disconnected?
    ensures Live(c) ==> Live(DoForeign(c, f))
  {
    hide Inv;
    match f
    case ForeignSend(msg) => ForeignSendKeeps(c, msg, k);
    case ForeignShutdown => ForeignShutdownKeeps(c, k);
    case Queue(task) => ArrivalKeeps(c, task, k);
  }

  lemma CallKeeps(c: Conn, call: Call, k: nat)
    requires Inv(c, k)
    ensures Inv(DoCall(c, call), k)
    ensures c.state.Disconnected? ==> DoCall(c, call).state.Disconnected?
    ensures Live(c) ==> Live(DoCall(c, call))
  {
    hide Inv, SendInLoop;
    match call
    case Send(msg, wish) =>
      if c.state.Connected? {
        SendInLoopKeeps(c, msg, wish, k);
        SendKeepsState(c, msg, wish);
      }
    case Shutdown =>
      if c.state.Connected? { ShutdownKeeps(c, k); }
    case Retrieve(n) => RetrieveKeeps(c, n, k);
    case Slip(f) => ForeignKeeps(c, f, k);
  }

  lemma ShutdownKeeps(c: Conn, k: nat)
    requires Inv(c, k) && c.state.Connected?
    ensures Inv(ShutdownInLoop(c.(state := Disconnecting)), k)
  {
    hide Levels, Crossings, Completions;
    ShutdownInLoopKeeps(c.(state := Disconnecting), k);
  }

  lemma RetrieveKeeps(c: Conn, n: nat, k: nat)
    requires Inv(c, k)
    ensures Inv(DoCall(c, Retrieve(n)), k)
  {
    hide Levels, Crossings, Completions;
    if n < |c.input| {
      assert c.consumed + c.input[..n] + c.input[n..] == c.consumed + c.input;
    } else {
      assert c.consumed + c.input + [] == c.consumed + c.input;
    }
  }

  lemma {:induction false} CallsKeep(c: Conn, calls: seq<Call>, k: nat)
    requires Inv(c, k)
    ensures Inv(DoCalls(c, calls), k)
    ensures c.state.Disconnected? ==> DoCalls(c, calls).state.Disconnected?
    ensures Live(c) ==> Live(DoCalls(c, calls))
  {
    hide Levels, Crossings, Completions;
    if calls != [] {
      CallsKeep(c, calls[..|calls| - 1], k);
      CallKeeps(DoCalls(c, calls[..|calls| - 1]), calls[|calls| - 1], k);
    }
  }

  lemma LogNotices(c: Conn, u: Upcall)
    requires NoticeInv(c) && !u.WriteComplete? && !u.HighWater?
    ensures NoticeInv(Notify(c, u))
  {
    CrossingsOther(c.cfg, c.upcalls, c.queue, c.levels, DestroyTask, u);
    CompletionsOther(c.cfg, c.upcalls, c.queue, c.completions, c.levels, c.sends, DestroyTask, u);
  }

  lemma EstablishKeeps(c: Conn, calls: seq<Call>)
    requires Inv(c, 0) && c.state.Connecting?
    ensures Inv(ConnectEstablished(c, calls), 0) && Live(ConnectEstablished(c, calls))
  {
    hide Levels, Crossings, Completions;
    Masks();
    LogNotices(c, Up);
    LogAppend(c.upcalls, Up);
    CallsKeep(Notify(Watch(c.(state := Connected), EnableReading), Up), calls, 0);
  }

  lemma HandleCloseKeeps(c: Conn, calls: seq<Call>)
    requires Inv(c, 0) && Live(c)
    ensures Inv(HandleClose(c, calls), 0) && HandleClose(c, calls).state.Disconnected?
  {
    hide Levels, Crossings, Completions;
    Masks();
    LogNotices(c, Down);
    LogAppend(c.upcalls, Down);
    CallsKeep(CloseBegins(c), calls, 1);
  }

  lemma MessageKeeps(c: Conn, bytes: Bytes)
    requires Inv(c, 0) && Live(c)
    ensures Inv(Notify(Received(c, bytes), Message), 0)
  {
    hide Levels, Crossings, Completions;
    LogNotices(c, Message);
    LogAppend(c.upcalls, Message);
    assert c.consumed + (c.input + bytes) == (c.consumed + c.input) + bytes;
  }

  lemma HandleReadKeeps(c: Conn, answer: ReadAnswer, calls: seq<Call>)
    requires Inv(c, 0) && Live(c)
    ensures Inv(HandleRead(c, answer, calls), 0)
  {
    hide Inv, HandleClose, DoCalls;
    if answer.Data? {
      if answer.bytes == [] {
        HandleCloseKeeps(c, calls);
      } else {
        MessageKeeps(c, answer.bytes);
        CallsKeep(Notify(Received(c, answer.bytes), Message), calls, 0);
      }
    }
  }

  // ------------------------------------------------------------------ dispatch

  /** Callbacks that may end in handleClose. */
  predicate MayClose(cb: Callback) {
    cb.OnClose? || cb.OnRead?
  }

  /** At most one callback of a dispatch may end in handleClose. */
  predicate Orderly(cbs: seq<Callback>) {
    forall i, j :: 0 <= i < j < |cbs| ==> !(MayClose(cbs[i]) && MayClose(cbs[j]))
  }

  lemma DispatchIsOrderly(revents: Mask)
    requires !HangUpWithUrgentOnly(revents)
    ensures Orderly(Dispatch(revents))
  {
    ReadMask(revents);
  }

  lemma {:induction false} ReactAllKeeps(c: Conn, cbs: seq<Callback>, r: Reaction)
    requires Inv(c, 0) && Live(c) && Orderly(cbs)
    ensures Inv(ReactAll(c, cbs, r), 0)
    ensures (forall i :: 0 <= i < |cbs| ==> !MayClose(cbs[i])) ==> Live(ReactAll(c, cbs, r))
  {
    hide Levels, Crossings, Completions;
    if cbs != [] {
      var init, last := cbs[..|cbs| - 1], cbs[|cbs| - 1];
      ReactAllKeeps(c, init, r);
      var d := ReactAll(c, init, r);
      assert MayClose(last) ==> Live(d) by {
        assert MayClose(last) ==> forall i :: 0 <= i < |init| ==> !MayClose(cbs[i]);
      }
      match last
      case OnClose => HandleCloseKeeps(d, r.calls);
      case OnError =>
      case OnRead => HandleReadKeeps(d, r.answer, r.calls);
      case OnWrite =>
        HandleWriteKeeps(d, r.wish);
        assert HandleWrite(d, r.wish).state == d.state;
    }
  }

  lemma DestroyKeeps(c: Conn, calls: seq<Call>)
    requires ChannelInv(c) && BytesInv(c) && ShutInv(c) && LogInv(c) && LevelInv(c) && NoticeInv(c)
    requires c.state.Disconnected? && c.destroys == 0 && DutyInv(c, 1)
    ensures Inv(ConnectDestroyed(c, calls), 0)
  {
    hide Levels, Crossings, Completions;
  }

  lemma PopNotices(c: Conn)
    requires NoticeInv(c) && c.queue != [] && !c.queue[0].WriteCompleteTask? && !c.queue[0].HighWaterTask?
    ensures NoticeInv(c.(queue := c.queue[1..]))
  {
    CrossingsOther(c.cfg, c.upcalls, c.queue, c.levels, DestroyTask, Up);
    CompletionsOther(c.cfg, c.upcalls, c.queue, c.completions, c.levels, c.sends, DestroyTask, Up);
  }

  /** Taking up a functor that sends. */
  lemma PopKeeps(c: Conn)
    requires Inv(c, 0) && c.queue != [] && c.queue[0].SendTask?
    ensures Inv(c.(queue := c.queue[1..]), 0) && !c.state.Connecting?
  {
    hide Levels, Crossings, Completions;
    PopTask(c.queue);
    PopNotices(c);
  }

  lemma RunShutdownKeeps(c: Conn)
    requires Inv(c, 0) && c.queue != [] && c.queue[0].ShutdownTask?
    ensures Inv(ShutdownInLoop(c.(queue := c.queue[1..])), 0)
  {
    hide Levels, Crossings, Completions;
    PopTask(c.queue);
    PopNotices(c);
    ShutdownInLoopKeeps(c.(queue := c.queue[1..]), 0);
  }

  lemma RunDestroyKeeps(c: Conn, calls: seq<Call>)
    requires Inv(c, 0) && c.queue != [] && c.queue[0].DestroyTask?
    ensures Inv(ConnectDestroyed(c.(queue := c.queue[1..]), calls), 0)
  {
    hide Levels, Crossings, Completions;
    PopTask(c.queue);
    PopNotices(c);
    DestroyKeeps(c.(queue := c.queue[1..]), calls);
  }

  /** The user's callback for a notification. */
  function Upcalled(t: Task): Upcall
    requires t.WriteCompleteTask? || t.HighWaterTask?
  {
    if t.WriteCompleteTask? then WriteComplete else HighWater(t.level)
  }

  lemma NotificationNotices(c: Conn)
    requires NoticeInv(c) && c.queue != [] && (c.queue[0].WriteCompleteTask? || c.queue[0].HighWaterTask?)
    ensures NoticeInv(Notify(c.(queue := c.queue[1..]), Upcalled(c.queue[0])))
  {
    hide Crossings, Completions;
    if c.queue[0].WriteCompleteTask? {
      CompletionsRun(c.cfg, c.upcalls, c.queue, c.completions, c.levels, c.sends);
      CrossingsOther(c.cfg, c.upcalls, c.queue, c.levels, DestroyTask, WriteComplete);
      CrossingsOther(c.cfg, c.upcalls + [WriteComplete], c.queue, c.levels, DestroyTask, Up);
    } else {
      CrossingsRun(c.cfg, c.upcalls, c.queue, c.levels);
      CompletionsOther(c.cfg, c.upcalls, c.queue, c.completions, c.levels, c.sends, DestroyTask, Up);
      CompletionsOther(c.cfg, c.upcalls, c.queue[1..], c.completions, c.levels, c.sends, DestroyTask, Upcalled(c.queue[0]));
    }
  }

  lemma NotificationKeeps(c: Conn)
    requires Inv(c, 0) && c.queue != [] && (c.queue[0].WriteCompleteTask? || c.queue[0].HighWaterTask?)
    ensures Inv(Notify(c.(queue := c.queue[1..]), Upcalled(c.queue[0])), 0)
  {
    hide Levels, Crossings, Completions;
    PopTask(c.queue);
    NotificationNotices(c);
    LogAppend(c.upcalls, Upcalled(c.queue[0]));
  }

  lemma RunTaskKeeps(c: Conn, wish: WriteAnswer, calls: seq<Call>)
    requires Inv(c, 0) && c.queue != []
    ensures Inv(RunTask(c, wish, calls), 0)
  {
    hide Inv, SendInLoop, ConnectDestroyed, ShutdownInLoop, DoCalls;
    var d := c.(queue := c.queue[1..]);
    match c.queue[0]
    case SendTask(msg) =>
      PopKeeps(c);
      SendInLoopKeeps(d, msg, wish, 0);
    case ShutdownTask => RunShutdownKeeps(c);
    case WriteCompleteTask =>
      NotificationKeeps(c);
      CallsKeep(Notify(d, WriteComplete), calls, 0);
    case HighWaterTask(level) =>
      NotificationKeeps(c);
      CallsKeep(Notify(d, HighWater(level)), calls, 0);
    case DestroyTask => RunDestroyKeeps(c, calls);
  }

  lemma RemovedKeeps(c: Conn)
    requires Inv(c, 0) && c.removalsOwed > 0
    ensures Inv(Apply(c, Removed), 0)
  {
    hide Levels, Crossings, Completions;
    QueueAppend(c.queue, DestroyTask);
    CrossingsOther(c.cfg, c.upcalls, c.queue, c.levels, DestroyTask, Up);
    CompletionsOther(c.cfg, c.upcalls, c.queue, c.completions, c.levels, c.sends, DestroyTask, Up);
  }

  // ------------------------------------------------------------------ whole runs

  lemma StepKeeps(c: Conn, e: Event)
    requires Inv(c, 0) && Enabled(c, e)
    ensures Inv(Apply(c, e), 0)
  {
    match e
    case Establish(calls) => EstablishKeeps(c, calls);
    case InLoop(call) => CallKeeps(c, call, 0);
    case Elsewhere(f) => ForeignKeeps(c, f, 0);
    case Io(revents, r) =>
      DispatchIsOrderly(revents);
      ReactAllKeeps(c, Dispatch(revents), r);
    case Task(wish, calls) => RunTaskKeeps(c, wish, calls);
    case Removed => RemovedKeeps(c);
  }

  lemma {:induction false} RunKeeps(run: seq<Conn>, events: seq<Event>, i: nat)
    requires IsRun(run, events) && i < |run|
    ensures Inv(run[i], 0)
  {
    if i == 0 {
      var cfg, fd :| run[0] == NewConn(cfg, fd);
      NewConnInv(cfg, fd);
    } else {
      RunKeeps(run, events, i - 1);
      StepKeeps(run[i - 1], events[i - 1]);
    }
  }
}
