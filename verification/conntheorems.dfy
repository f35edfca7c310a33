/** What a user of a connection can rely on, over every run: any sends, shutdowns, kernel answers,
    callbacks and interleaving of other threads (src/TcpConnection.cpp). */
module ConnTheorems {
  import opened Kernel
  import opened Registry
  import opened Reactor
  import opened ConnModel
  import opened ConnProofs

  // ------------------------------------------------------------------ output

  /** Bytes in the kernel followed by the backlog are the messages not refused, in the order of the
      sendInLoop calls. */
  lemma OutputIsConserved(run: seq<Conn>, events: seq<Event>, i: nat)
    requires IsRun(run, events) && i < |run|
    ensures run[i].stream + run[i].output == Accepted(run[i].sends)
  {
    RunKeeps(run, events, i);
  }

  /** What the user took from the input buffer, followed by what is still there, is what readv delivered. */
  lemma InputIsConserved(run: seq<Conn>, events: seq<Event>, i: nat)
    requires IsRun(run, events) && i < |run|
    ensures run[i].consumed + run[i].input == run[i].received
  {
    RunKeeps(run, events, i);
  }

  /** A message is refused exactly when the connection is down or a direct write meets EPIPE or
      ECONNRESET; it is then dropped whole, and otherwise accepted whole. */
  lemma MessagesAreAllOrNothing(run: seq<Conn>, events: seq<Event>, i: nat, msg: Bytes, wish: WriteAnswer)
    requires IsRun(run, events) && i < |run| && !run[i].state.Connecting?
    ensures var c, d := run[i], SendInLoop(run[i], msg, wish);
            var refused := c.state.Disconnected? || (c.output == [] && Write(c.shut, |msg|, wish).Broken?);
            && (exists wrote :: d.sends == c.sends + [Record(msg, refused, wrote)])
            && d.stream + d.output == c.stream + c.output + if refused then [] else msg
  {
    var c, d := run[i], SendInLoop(run[i], msg, wish);
    RunKeeps(run, events, i);
    SendInLoopKeeps(c, msg, wish, 0);
    hide Levels, Crossings, Completions;
    var r := SendRecords(c, msg, wish);
    SendsAppend(c.sends, r);
  }

  /** sendInLoop puts one record into the history. */
  lemma SendRecords(c: Conn, msg: Bytes, wish: WriteAnswer) returns (r: Record)
    requires ChannelInv(c) && !c.state.Connecting?
    ensures SendInLoop(c, msg, wish).sends == c.sends + [r]
    ensures r.msg == msg && r.refused == Refuses(c, msg, wish)
  {
    SendShape(c, msg, wish);
    r := Record(msg, Refuses(c, msg, wish), if Refuses(c, msg, wish) then None else WroteNow(c, msg, wish));
  }

  /** The socket's stream is over: the write side is shut or the connection is down. */
  predicate Over(c: Conn) {
    c.shut || c.state.Disconnected?
  }

  /** From c to d the stream only grows, and not at all once it is over. */
  predicate Forward(c: Conn, d: Conn) {
    && c.stream <= d.stream
    && (Over(c) ==> Over(d) && d.stream == c.stream)
    && (c.shut ==> d.shut)
    && (c.state.Disconnected? ==> d.state.Disconnected?)
  }

  lemma SendForward(c: Conn, msg: Bytes, wish: WriteAnswer)
    ensures Forward(c, SendInLoop(c, msg, wish))
  {
  }

  lemma WriteForward(c: Conn, wish: WriteAnswer)
    requires ChannelInv(c)
    ensures Forward(c, HandleWrite(c, wish))
  {
    WritingIffBacklog(c);
  }

  lemma {:induction false} CallsForward(c: Conn, calls: seq<Call>)
    ensures Forward(c, DoCalls(c, calls))
  {
    if calls != [] {
      var d, last := DoCalls(c, calls[..|calls| - 1]), calls[|calls| - 1];
      CallsForward(c, calls[..|calls| - 1]);
      if last.Send? {
        SendForward(d, last.msg, last.wish);
      }
    }
  }

  /** While the connection is down, user code changes only the input buffer and the functor queue. */
  lemma {:induction false} DownCallsDoNothing(c: Conn, calls: seq<Call>)
    requires c.state.Disconnected?
    ensures var d := DoCalls(c, calls);
            d == c.(input := d.input, consumed := d.consumed, queue := d.queue, inflight := d.inflight)
  {
    if calls != [] {
      DownCallsDoNothing(c, calls[..|calls| - 1]);
    }
  }

  /** handleClose ends the stream, leaves it as it is, and touches neither the backlog nor the socket. */
  lemma CloseForward(c: Conn, calls: seq<Call>)
    ensures var d := HandleClose(c, calls);
            d.state.Disconnected? && d.stream == c.stream && d.output == c.output && d.shut == c.shut
            && d.sends == c.sends
  {
    DownCallsDoNothing(CloseBegins(c), calls);
  }

  lemma ReadForward(c: Conn, answer: ReadAnswer, calls: seq<Call>)
    requires Inv(c, 0) && Live(c)
    ensures Forward(c, HandleRead(c, answer, calls))
    ensures HandleRead(c, answer, calls).state.Disconnected? ==>
              HandleRead(c, answer, calls).shut == c.shut && HandleRead(c, answer, calls).output == c.output
  {
    if answer.Data? {
      if answer.bytes == [] {
        CloseForward(c, calls);
      } else {
        var d := Notify(Received(c, answer.bytes), Message);
        CallsForward(d, calls);
        CallsStayUp(d, calls);
      }
    }
  }

  lemma OneForward(c: Conn, cb: Callback, r: Reaction)
    requires Inv(c, 0) && (MayClose(cb) ==> Live(c))
    ensures Forward(c, React(c, cb, r))
    ensures React(c, cb, r).state.Disconnected? && !c.state.Disconnected? ==>
              React(c, cb, r).shut == c.shut && React(c, cb, r).output == c.output
  {
    hide Levels, Crossings, Completions, HandleRead, HandleClose;
    match cb
    case OnClose => CloseForward(c, r.calls);
    case OnError =>
    case OnRead => ReadForward(c, r.answer, r.calls);
    case OnWrite => WriteForward(c, r.wish);
  }

  /** When the last callback of an orderly dispatch may close, those before it left the connection up. */
  lemma LiveBefore(c: Conn, cbs: seq<Callback>, r: Reaction)
    requires Inv(c, 0) && Live(c) && Orderly(cbs) && cbs != []
    ensures Orderly(cbs[..|cbs| - 1])
    ensures MayClose(cbs[|cbs| - 1]) ==> Live(ReactAll(c, cbs[..|cbs| - 1], r))
  {
    hide Inv, ReactAll;
    ReactAllKeeps(c, cbs[..|cbs| - 1], r);
    assert MayClose(cbs[|cbs| - 1]) ==> forall i :: 0 <= i < |cbs| - 1 ==> !MayClose(cbs[i]);
  }

  /** What is half-closed by one callback on a connection that keeps the invariant had nothing left. */
  lemma OneHalfClose(c: Conn, cb: Callback, r: Reaction)
    requires Inv(c, 0) && Inv(React(c, cb, r), 0) && (MayClose(cb) ==> Live(c))
    ensures (c.shut ==> c.output == []) && React(c, cb, r).shut ==> React(c, cb, r).output == []
  {
    hide Levels, Crossings, Completions, React;
    OneForward(c, cb, r);
    if c.state.Disconnected? && !MayClose(cb) {
      WriteOnlyKeepsDown(c, cb, r);
    }
    assert React(c, cb, r).shut ==> React(c, cb, r).state.Disconnecting? || React(c, cb, r).state.Disconnected?;
  }

  /** One dispatch: the stream goes forward, and if it is half-closed then nothing was left to write. */
  lemma {:induction false} ReactForward(c: Conn, cbs: seq<Callback>, r: Reaction)
    requires Inv(c, 0) && Live(c) && Orderly(cbs)
    ensures Forward(c, ReactAll(c, cbs, r))
    ensures !c.shut && ReactAll(c, cbs, r).shut ==> ReactAll(c, cbs, r).output == []
  {
    hide Inv, React, Orderly;
    if cbs != [] {
      var init, last := cbs[..|cbs| - 1], cbs[|cbs| - 1];
      var d := ReactAll(c, init, r);
      LiveBefore(c, cbs, r);
      ReactForward(c, init, r);
      ReactAllKeeps(c, init, r);
      ReactAllKeeps(c, cbs, r);
      OneForward(d, last, r);
      OneHalfClose(d, last, r);
    }
  }

  /** On a connection that is down no callback but a close or a read changes anything. */
  lemma WriteOnlyKeepsDown(c: Conn, cb: Callback, r: Reaction)
    requires ChannelInv(c) && c.state.Disconnected? && !MayClose(cb)
    ensures React(c, cb, r) == c
  {
    WritingIffBacklog(c);
  }

  lemma DestroyForward(c: Conn, calls: seq<Call>)
    requires c.state.Disconnected?
    ensures Forward(c, ConnectDestroyed(c, calls))
  {
  }

  lemma TaskForward(c: Conn, wish: WriteAnswer, calls: seq<Call>)
    requires DutyInv(c, 0) && c.queue != []
    ensures Forward(c, RunTask(c, wish, calls))
  {
    hide SendInLoop, DoCalls, ConnectDestroyed;
    var d := c.(queue := c.queue[1..]);
    match c.queue[0]
    case SendTask(msg) => SendForward(d, msg, wish);
    case ShutdownTask =>
    case WriteCompleteTask => CallsForward(Notify(d, WriteComplete), calls);
    case HighWaterTask(level) => CallsForward(Notify(d, HighWater(level)), calls);
    case DestroyTask =>
      PopTask(c.queue);
      DestroyForward(d, calls);
  }

  lemma StepForward(c: Conn, e: Event)
    requires Inv(c, 0) && Enabled(c, e)
    ensures Forward(c, Apply(c, e))
  {
    hide ChannelInv, LevelInv, NoticeInv, LogInv, ShutInv, SendInLoop, DoCalls, ReactAll, RunTask;
    match e
    case Establish(calls) => CallsForward(Notify(Watch(c.(state := Connected), EnableReading), Up), calls);
    case InLoop(call) =>
      if call.Send? { SendForward(c, call.msg, call.wish); }
    case Elsewhere(f) =>
    case Io(revents, r) => IoForward(c, revents, r);
    case Task(wish, calls) => TaskForward(c, wish, calls);
    case Removed =>
  }

  lemma IoForward(c: Conn, revents: Mask, r: Reaction)
    requires Inv(c, 0) && Enabled(c, Io(revents, r))
    ensures Forward(c, HandleEvent(c, revents, r))
    ensures !c.shut && HandleEvent(c, revents, r).shut ==> HandleEvent(c, revents, r).output == []
  {
    hide LevelInv, NoticeInv, LogInv, ShutInv, ReactAll, Dispatch;
    DispatchIsOrderly(revents);
    ReactForward(c, Dispatch(revents), r);
  }

  /** The kernel's stream only ever grows, and not at all after shutdownWrite or from handleClose on;
      neither is ever taken back. */
  lemma {:induction false} StreamGrowsUntilOver(run: seq<Conn>, events: seq<Event>, i: nat, j: nat)
    requires IsRun(run, events) && i <= j < |run|
    ensures Forward(run[i], run[j])
    decreases j - i
  {
    hide Inv, Apply, Enabled;
    if i < j {
      StreamGrowsUntilOver(run, events, i, j - 1);
      RunKeeps(run, events, j - 1);
      StepForward(run[j - 1], events[j - 1]);
    }
  }

  // ------------------------------------------------------------------ half-close

  /** The next step calls shutdownWrite on a connection that is already down. */
  predicate LateShutdown(c: Conn, e: Event) {
    c.state.Disconnected? && e.Task? && c.queue != [] && c.queue[0].ShutdownTask?
  }

  lemma CallStaysUp(c: Conn, call: Call)
    requires !c.state.Disconnected?
    ensures !DoCall(c, call).state.Disconnected?
  {
    if call.Send? {
      SendKeepsState(c, call.msg, call.wish);
    }
  }

  lemma {:induction false} CallsStayUp(c: Conn, calls: seq<Call>)
    requires !c.state.Disconnected?
    ensures !DoCalls(c, calls).state.Disconnected?
  {
    hide DoCall;
    if calls != [] {
      CallsStayUp(c, calls[..|calls| - 1]);
      CallStaysUp(DoCalls(c, calls[..|calls| - 1]), calls[|calls| - 1]);
    }
  }

  lemma TaskStaysUp(c: Conn, wish: WriteAnswer, calls: seq<Call>)
    requires !c.state.Disconnected? && c.queue != [] && !c.queue[0].DestroyTask?
    ensures !RunTask(c, wish, calls).state.Disconnected?
  {
    var d := c.(queue := c.queue[1..]);
    match c.queue[0]
    case SendTask(msg) => SendKeepsState(d, msg, wish);
    case ShutdownTask =>
    case WriteCompleteTask => CallsStayUp(Notify(d, WriteComplete), calls);
    case HighWaterTask(level) => CallsStayUp(Notify(d, HighWater(level)), calls);
  }

  /** Only a dispatch takes a connection down. */
  lemma StaysUp(c: Conn, e: Event)
    requires DutyInv(c, 0) && Enabled(c, e) && !c.state.Disconnected? && !e.Io?
    ensures !Apply(c, e).state.Disconnected?
  {
    match e
    case Establish(calls) => CallsStayUp(Notify(Watch(c.(state := Connected), EnableReading), Up), calls);
    case InLoop(call) => CallsStayUp(c, [call]); Appended([], call);
    case Task(wish, calls) =>
      PopTask(c.queue);
      TaskStaysUp(c, wish, calls);
    case _ =>
  }

  lemma DownCallDoesNothing(c: Conn, call: Call)
    requires c.state.Disconnected?
    ensures DoCall(c, call).output == c.output && DoCall(c, call).shut == c.shut
  {
  }

  lemma DownTaskOnlyShutsLate(c: Conn, wish: WriteAnswer, calls: seq<Call>)
    requires ChannelInv(c) && c.state.Disconnected? && c.queue != []
    ensures RunTask(c, wish, calls).output == c.output
    ensures RunTask(c, wish, calls).shut == (c.shut || c.queue[0].ShutdownTask?)
  {
    hide DoCalls;
    WritingIffBacklog(c);
    var d := c.(queue := c.queue[1..]);
    match c.queue[0]
    case WriteCompleteTask => DownCallsDoNothing(Notify(d, WriteComplete), calls);
    case HighWaterTask(level) => DownCallsDoNothing(Notify(d, HighWater(level)), calls);
    case _ =>
  }

  /** Once it is down, only a late shutdownInLoop does anything to the socket, and nothing to the backlog. */
  lemma DownOnlyShutsLate(c: Conn, e: Event)
    requires ChannelInv(c) && Enabled(c, e) && c.state.Disconnected?
    ensures Apply(c, e).output == c.output
    ensures Apply(c, e).shut == (c.shut || LateShutdown(c, e))
  {
    hide RunTask, DoCall, DoCalls, HandleEvent, HangUpWithUrgentOnly;
    match e
    case InLoop(call) => DownCallDoesNothing(c, call);
    case Task(wish, calls) => DownTaskOnlyShutsLate(c, wish, calls);
    case _ =>
  }

  lemma StepHalfClose(c: Conn, e: Event)
    requires Inv(c, 0) && Enabled(c, e)
    requires !c.shut && Apply(c, e).shut
    ensures c.state.Disconnected? ==> LateShutdown(c, e) && Apply(c, e).output == c.output
    ensures !c.state.Disconnected? ==> Apply(c, e).output == []
  {
    StepKeeps(c, e);
    if c.state.Disconnected? {
      DownOnlyShutsLate(c, e);
    } else if e.Io? {
      IoForward(c, e.revents, e.r);
    } else {
      StaysUp(c, e);
    }
  }

  /** A half-close comes after every accepted byte is in the kernel, except exactly when a queued
      shutdownInLoop runs on a connection that went down with a backlog. */
  lemma HalfCloseIsGracefulIff(run: seq<Conn>, events: seq<Event>, i: nat)
    requires IsRun(run, events) && i < |events|
    requires !run[i].shut && run[i + 1].shut
    ensures run[i + 1].stream == Accepted(run[i + 1].sends) <==>
            !(run[i].state.Disconnected? && run[i].output != [])
  {
    RunKeeps(run, events, i);
    RunKeeps(run, events, i + 1);
    StepHalfClose(run[i], events[i]);
    var d := run[i + 1];
    assert |Accepted(d.sends)| == |d.stream| + |d.output|;
    if d.output == [] {
      assert d.stream + d.output == d.stream;
    }
  }

  lemma HangUpDispatch()
    ensures Dispatch(EPOLLHUP) == [OnClose] && !HangUpWithUrgentOnly(EPOLLHUP)
  {
    assert Has(EPOLLHUP, EPOLLHUP) && !Has(EPOLLHUP, EPOLLIN) && !Has(EPOLLHUP, EPOLLERR)
           && !Has(EPOLLHUP, EPOLLPRI) && !Has(EPOLLHUP, EPOLLIN | EPOLLPRI) && !Has(EPOLLHUP, EPOLLOUT);
  }

  /** A new connection is established, and one byte that the kernel will not take is stored. */
  lemma Stored(b: byte) returns (run: seq<Conn>, events: seq<Event>)
    ensures IsRun(run, events) && |run| == 3
    ensures var c := run[2];
            c.state.Connected? && c.output == [b] && c.stream == [] && !c.shut && c.queue == [] && c.inflight == multiset{}
  {
    var c0 := NewConn(Settings(false, false, 0), 3);
    Masks();
    var c1 := ConnectEstablished(c0, []);
    assert !Writing(c1) && c1.output == [] && c1.state.Connected? && !c1.shut;
    var c2 := SendInLoop(c1, [b], WouldBlock);
    assert c2.output == [b];
    run, events := [c0, c1, c2], [Establish([]), InLoop(Send([b], WouldBlock))];
    assert run[0] == NewConn(Settings(false, false, 0), 3);
  }

  lemma Extend(run: seq<Conn>, events: seq<Event>, e: Event) returns (longer: seq<Conn>, more: seq<Event>)
    requires IsRun(run, events) && Enabled(run[|run| - 1], e)
    ensures IsRun(longer, more) && longer == run + [Apply(run[|run| - 1], e)] && more == events + [e]
  {
    longer, more := run + [Apply(run[|run| - 1], e)], events + [e];
  }

  lemma HangUpCloses(c: Conn)
    ensures HandleEvent(c, EPOLLHUP, Reaction(ReadError, WouldBlock, [])) == HandleClose(c, [])
  {
    var r := Reaction(ReadError, WouldBlock, []);
    HangUpDispatch();
    React1(c, [], OnClose, r);
    assert [] + [OnClose] == [OnClose];
  }

  /** Then another thread's shutdown, and the shutdownInLoop it queues. */
  lemma StoredAndShutDown(b: byte) returns (run: seq<Conn>, events: seq<Event>)
    ensures IsRun(run, events) && |run| == 5
    ensures var c := run[4];
            Live(c) && c.output == [b] && c.stream == [] && !c.shut && c.queue == [ShutdownTask]
  {
    run, events := Stored(b);
    hide IsRun;
    var c2 := run[2];
    run, events := Extend(run, events, Elsewhere(ForeignShutdown));
    run, events := Extend(run, events, Elsewhere(Queue(ShutdownTask)));
    assert run[4] == c2.(state := Disconnecting, queue := [ShutdownTask]);
  }

  /** The exception happens: a byte is stored, another thread shuts down, the peer hangs up, and the
      queued shutdownInLoop then closes the write side with the byte still in outputBuffer_. */
  lemma LateHalfCloseLosesBacklog(b: byte)
    ensures exists run: seq<Conn>, events: seq<Event> ::
              IsRun(run, events) && |run| == 7 && run[6].shut && run[6].output == [b] && run[6].stream == []
  {
    hide IsRun, Inv, HandleEvent, HandleClose, HangUpWithUrgentOnly;
    var run, events := StoredAndShutDown(b);
    var c4 := run[4];
    RunKeeps(run, events, 4);
    assert c4.chan.interest.Some? by { LiveIsWatched(c4); }
    HangUpDispatch();
    HangUpCloses(c4);
    run, events := Extend(run, events, Io(EPOLLHUP, Reaction(ReadError, WouldBlock, [])));
    CloseForward(c4, []);
    assert run[5].queue == [ShutdownTask] by { PlainClose(c4); }
    RunKeeps(run, events, 5);
    DownOnlyShutsLate(run[5], Task(WouldBlock, []));
    assert Forward(run[5], Apply(run[5], Task(WouldBlock, []))) by { StepForward(run[5], Task(WouldBlock, [])); }
    run, events := Extend(run, events, Task(WouldBlock, []));
  }

  lemma LiveIsWatched(c: Conn)
    requires Inv(c, 0) && Live(c)
    ensures c.chan.interest.Some?
  {
  }

  lemma PlainClose(c: Conn)
    ensures HandleClose(c, []).queue == c.queue
  {
  }

  /** On a connection that is up, a shut write side means nothing is left to write; and a requested
      shutdown is never forgotten: once nothing is left and no shutdownInLoop is on its way, the write
      side has been shut. */
  lemma HalfCloseIsNeverForgotten(run: seq<Conn>, events: seq<Event>, i: nat)
    requires IsRun(run, events) && i < |run| && Live(run[i])
    ensures run[i].shut ==> run[i].state.Disconnecting? && run[i].stream == Accepted(run[i].sends)
    ensures run[i].state.Disconnecting? && run[i].output == [] && !ShutdownPending(run[i]) ==> run[i].shut
  {
    RunKeeps(run, events, i);
    assert run[i].stream + [] == run[i].stream;
  }

  // ------------------------------------------------------------------ channel

  /** While the connection is up its channel is registered with exactly its events, wants to read, and
      wants to write exactly while there is a backlog; before and afterwards the kernel does not watch
      it, and connectDestroyed leaves no trace of it in the poller. */
  lemma ChannelFollowsState(run: seq<Conn>, events: seq<Event>, i: nat)
    requires IsRun(run, events) && i < |run|
    ensures var c, ch := run[i], run[i].chan;
            && (Live(c) ==> ch.state.index.Added? && ch.mapped && ch.interest == Some(ch.state.events)
                            && IsReading(ch.state.events) && (IsWriting(ch.state.events) <==> c.output != []))
            && (ch.interest.Some? <==> Live(c))
            && (c.state.Disconnected? ==> (ch.mapped <==> c.destroys == 0))
  {
    RunKeeps(run, events, i);
    Masks();
  }

  // ------------------------------------------------------------------ callbacks

  /** UP first and once; after DOWN only notifications, so DOWN at most once and last of the rest. */
  ghost predicate Protocol(log: seq<Upcall>) {
    && (log != [] ==> log[0].Up?)
    && (forall i :: 0 < i < |log| ==> !log[i].Up?)
    && (forall i, j :: 0 <= i < j < |log| && log[i].Down? ==> log[j].WriteComplete? || log[j].HighWater?)
  }

  lemma {:induction false} ProtocolIsThePhases(log: seq<Upcall>)
    ensures Protocol(log) <==> PhaseAfter(log) != Violated
    ensures Protocol(log) ==> (PhaseAfter(log) == Before <==> log == [])
    ensures Protocol(log) ==> (PhaseAfter(log) == Closed <==> exists i :: 0 <= i < |log| && log[i].Down?)
  {
    if log != [] {
      var init, last := log[..|log| - 1], log[|log| - 1];
      ProtocolIsThePhases(init);
      assert log == init + [last];
      if Protocol(log) {
        assert Protocol(init);
      }
      if Protocol(init) && PhaseAfter(init) == Closed {
        var i :| 0 <= i < |init| && init[i].Down?;
        assert log[i].Down?;
      }
      if Protocol(init) && last.Down? {
        assert log[|log| - 1].Down?;
      }
    }
  }

  /** In every run the callbacks form UP, messages, at most one DOWN, and after it only notifications;
      DOWN has been called exactly when the connection is down; handleClose runs at most once. */
  lemma CallbacksFollowProtocol(run: seq<Conn>, events: seq<Event>, i: nat)
    requires IsRun(run, events) && i < |run|
    ensures Protocol(run[i].upcalls)
    ensures (exists k :: 0 <= k < |run[i].upcalls| && run[i].upcalls[k].Down?) <==> run[i].state.Disconnected?
    ensures run[i].upcalls == [] <==> run[i].state.Connecting?
    ensures run[i].closes == if run[i].state.Disconnected? then 1 else 0
  {
    RunKeeps(run, events, i);
    ProtocolIsThePhases(run[i].upcalls);
  }

  /** One close leads to one removal and one connectDestroyed: exactly one of the three is current. */
  lemma OneCloseOneDestruction(run: seq<Conn>, events: seq<Event>, i: nat)
    requires IsRun(run, events) && i < |run|
    ensures run[i].removalsOwed + multiset(run[i].queue)[DestroyTask] + run[i].destroys ==
            if run[i].state.Disconnected? then 1 else 0
  {
    RunKeeps(run, events, i);
  }

  /** handleClose runs at most once in a dispatch, whatever the kernel answers, exactly when the events
      are not a hang-up with urgent data and no ordinary data. */
  lemma ClosesOnceIff(c: Conn, revents: Mask)
    requires Inv(c, 0) && Live(c)
    ensures (forall r :: HandleEvent(c, revents, r).closes <= 1) <==> !HangUpWithUrgentOnly(revents)
  {
    if HangUpWithUrgentOnly(revents) {
      ClosesTwice(c, revents);
    } else {
      forall r
        ensures HandleEvent(c, revents, r).closes <= 1
      {
        ClosesAtMostOnce(c, revents, r);
      }
    }
  }

  lemma ClosesTwice(c: Conn, revents: Mask)
    requires DutyInv(c, 0) && Live(c) && HangUpWithUrgentOnly(revents)
    ensures HandleEvent(c, revents, Reaction(Data([]), WouldBlock, [])).closes == 2
  {
    hide ReactAll;
    ReadMask(revents);
    TwoCloses(c, Reaction(Data([]), WouldBlock, []), Has(revents, EPOLLERR), Has(revents, EPOLLOUT));
  }

  lemma ClosesAtMostOnce(c: Conn, revents: Mask, r: Reaction)
    requires Inv(c, 0) && Live(c) && !HangUpWithUrgentOnly(revents)
    ensures HandleEvent(c, revents, r).closes <= 1
  {
    hide Levels, Crossings, Completions, ChannelInv, BytesInv, ReactAll, Dispatch;
    DispatchIsOrderly(revents);
    ReactAllKeeps(c, Dispatch(revents), r);
  }

  lemma React1(c: Conn, cbs: seq<Callback>, cb: Callback, r: Reaction)
    ensures ReactAll(c, cbs + [cb], r) == React(ReactAll(c, cbs, r), cb, r)
  {
    Appended(cbs, cb);
  }

  lemma TwoCloses(c: Conn, r: Reaction, err: bool, out: bool)
    requires Live(c) && c.closes == 0 && r.answer == Data([]) && r.calls == []
    ensures ReactAll(c, Callbacks(true, err, true, out), r).closes == 2
  {
    var cbs := [OnClose];
    React1(c, [], OnClose, r);
    assert [] + [OnClose] == [OnClose];
    if err {
      React1(c, cbs, OnError, r);
      cbs := cbs + [OnError];
    }
    React1(c, cbs, OnRead, r);
    cbs := cbs + [OnRead];
    if out {
      React1(c, cbs, OnWrite, r);
      cbs := cbs + [OnWrite];
    }
    assert cbs == Callbacks(true, err, true, out);
  }

  // ------------------------------------------------------------------ notifications

  /** Between two upward crossings of the mark lies a downward one, and the other way round. */
  lemma {:induction false} CrossingsAlternate(levels: seq<nat>, mark: nat)
    requires levels != [] && levels[0] < mark
    ensures |Crossed(levels, mark)| ==
            DownCrossings(levels, mark) + if mark <= levels[|levels| - 1] then 1 else 0
  {
    if |levels| > 1 {
      CrossingsAlternate(levels[..|levels| - 1], mark);
    }
  }

  lemma {:induction false} CrossedReachTheMark(levels: seq<nat>, mark: nat)
    ensures forall k :: 0 <= k < |Crossed(levels, mark)| ==> Crossed(levels, mark)[k] >= mark
  {
    if |levels| > 1 {
      CrossedReachTheMark(levels[..|levels| - 1], mark);
    }
  }

  /** The high-water callbacks made, followed by those still queued, carry exactly the backlogs at its
      upward crossings of the mark, in order: one each, none below the mark, and with a drop below the
      mark between any two. Without the callback there are none. */
  lemma HighWaterIsUpCrossings(run: seq<Conn>, events: seq<Event>, i: nat)
    requires IsRun(run, events) && i < |run|
    ensures run[i].levels != [] && run[i].levels[|run[i].levels| - 1] == |run[i].output|
    ensures var c := run[i];
            var notices := Notified(c.upcalls) + Awaited(c.queue);
            && notices == (if c.cfg.onHighWater then Crossed(c.levels, c.cfg.mark) else [])
            && (forall k :: 0 <= k < |notices| ==> notices[k] >= c.cfg.mark)
            && (c.cfg.onHighWater && c.cfg.mark > 0 ==>
                  |notices| == DownCrossings(c.levels, c.cfg.mark) + if |c.output| >= c.cfg.mark then 1 else 0)
  {
    RunKeeps(run, events, i);
    CrossedReachTheMark(run[i].levels, run[i].cfg.mark);
    if run[i].cfg.mark > 0 {
      CrossingsAlternate(run[i].levels, run[i].cfg.mark);
    }
  }

  /** Write-complete callbacks made and still queued are together as many as drops of the backlog to
      empty and messages the kernel took whole at once; each was queued when all accepted bytes were in
      the kernel. Without the callback there are none. The histories this counts leave no byte out:
      what was written at once and what was taken off the backlog make up the stream. */
  lemma WriteCompleteIsDrains(run: seq<Conn>, events: seq<Event>, i: nat)
    requires IsRun(run, events) && i < |run|
    ensures var c := run[i];
            && multiset(c.upcalls)[WriteComplete] + multiset(c.queue)[WriteCompleteTask] ==
                 (if c.cfg.onWriteComplete then Drains(c.levels) + AtOnce(c.sends) else 0)
            && multiset(c.upcalls)[WriteComplete] + multiset(c.queue)[WriteCompleteTask] == |c.completions|
            && (forall k :: 0 <= k < |c.completions| ==> c.completions[k].inKernel == c.completions[k].accepted)
            && |c.stream| == WrittenAtOnce(c.sends) + Fallen(c.levels)
            && WriteCompleteTask !in c.inflight && (forall level :: HighWaterTask(level) !in c.inflight)
  {
    RunKeeps(run, events, i);
  }
}
