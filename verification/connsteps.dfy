/** What one event of a connection asks of its poller, whatever the kernel answers and the user does. */
module ConnSteps {
  import opened Kernel
  import opened Registry
  import opened Reactor
  import opened ConnModel
  import opened ConnProofs

  /** How far a connection is: before connectEstablished, up, or down. */
  function Progress(st: State): nat {
    match st
    case Connecting => 0
    case Disconnected => 2
    case _ => 1
  }

  /** What everything but connectEstablished, handleClose and connectDestroyed leaves alone. */
  predicate Steady(k: Conn, k2: Conn) {
    k2.chan.state.fd == k.chan.state.fd && k2.destroys == k.destroys && Progress(k2.state) == Progress(k.state)
  }

  lemma BacklogSteady(k: Conn, rest: Bytes)
    ensures Steady(k, Backlog(k, rest))
  {
  }

  lemma SendSteady(k: Conn, msg: Bytes, wish: WriteAnswer)
    ensures Steady(k, SendInLoop(k, msg, wish))
  {
    hide Backlog;
    BacklogSteady(Log(k, msg, false, None), msg);
    var answer := Write(k.shut, |msg|, wish);
    if answer.Wrote? {
      var d := Log(k, msg, false, Some(answer.n)).(stream := k.stream + msg[..answer.n]);
      BacklogSteady(d, msg[answer.n..]);
    }
  }

  lemma HandleWriteSteady(k: Conn, wish: WriteAnswer)
    ensures Steady(k, HandleWrite(k, wish))
  {
  }

  lemma CallSteady(k: Conn, call: Call)
    ensures Steady(k, DoCall(k, call))
  {
    hide SendInLoop;
    if call.Send? {
      SendSteady(k, call.msg, call.wish);
    }
  }

  lemma {:induction false} CallsSteady(k: Conn, calls: seq<Call>)
    ensures Steady(k, DoCalls(k, calls))
  {
    hide DoCall;
    if calls != [] {
      CallsSteady(k, calls[..|calls| - 1]);
      CallSteady(DoCalls(k, calls[..|calls| - 1]), calls[|calls| - 1]);
    }
  }

  /** A handler may also bring the connection down. */
  predicate Handled(k: Conn, k2: Conn) {
    k2.chan.state.fd == k.chan.state.fd && k2.destroys == k.destroys
    && (Progress(k2.state) == Progress(k.state) || k2.state.Disconnected?)
  }

  lemma ReactHandled(k: Conn, cb: Callback, r: Reaction)
    ensures Handled(k, React(k, cb, r))
  {
    hide DoCalls, HandleWrite;
    match cb
    case OnClose => CallsSteady(CloseBegins(k), r.calls);
    case OnError =>
    case OnRead =>
      CallsSteady(CloseBegins(k), r.calls);
      if r.answer.Data? {
        CallsSteady(Notify(Received(k, r.answer.bytes), Message), r.calls);
      }
    case OnWrite => HandleWriteSteady(k, r.wish);
  }

  lemma {:induction false} ReactAllHandled(k: Conn, cbs: seq<Callback>, r: Reaction)
    ensures Handled(k, ReactAll(k, cbs, r))
  {
    hide React;
    if cbs != [] {
      ReactAllHandled(k, cbs[..|cbs| - 1], r);
      ReactHandled(ReactAll(k, cbs[..|cbs| - 1], r), cbs[|cbs| - 1], r);
    }
  }

  /** The request that gives an established connection the write interest its backlog calls for. */
  function WriteRequest(k: Conn): Request {
    if k.output == [] then DisableWriting else EnableWriting
  }

  /** The operations on the poller's records that take the connection from k to k2. */
  function Asks(k: Conn, k2: Conn): seq<Op<()>> {
    match Progress(k2.state)
    case 0 => []
    case 1 => (if Progress(k.state) == 0 then [Ask((), EnableReading)] else []) + [Ask((), WriteRequest(k2))]
    case _ =>
      if Progress(k.state) < 2 then [Ask((), DisableAll)]
      else if k.destroys < k2.destroys then [Drop(())]
      else []
  }

  function SliceAfterAll(sl: Slice, ops: seq<Op<()>>): Slice
    decreases |ops|
  {
    if ops == [] then sl else SliceAfterAll(SliceAfter(sl, ops[0]), ops[1..])
  }

  lemma EstablishMoves(k: Conn, calls: seq<Call>)
    requires k.state.Connecting?
    ensures var k2 := ConnectEstablished(k, calls);
            k2.chan.state.fd == k.chan.state.fd && k2.destroys == k.destroys && Progress(k2.state) == 1
  {
    CallsSteady(Notify(Watch(k.(state := Connected), EnableReading), Up), calls);
  }

  lemma TaskMoves(k: Conn, wish: WriteAnswer, calls: seq<Call>)
    requires k.queue != [] && (k.queue[0].DestroyTask? ==> k.state.Disconnected?)
    ensures var k2 := RunTask(k, wish, calls);
            && k2.chan.state.fd == k.chan.state.fd && Progress(k2.state) == Progress(k.state)
            && k2.destroys == if k.queue[0].DestroyTask? then k.destroys + 1 else k.destroys
  {
    hide SendInLoop, DoCalls;
    var d := k.(queue := k.queue[1..]);
    match k.queue[0]
    case SendTask(msg) => SendSteady(d, msg, wish);
    case WriteCompleteTask => CallsSteady(Notify(d, WriteComplete), calls);
    case HighWaterTask(level) => CallsSteady(Notify(d, HighWater(level)), calls);
    case _ =>
  }

  lemma DestroyFindsDown(k: Conn)
    requires DutyInv(k, 0) && k.queue != [] && k.queue[0].DestroyTask?
    ensures k.state.Disconnected?
  {
    assert DestroyTask in k.queue;
  }

  /** A connection is established by connectEstablished alone, goes down in a dispatch alone, and is
      destroyed by its queued connectDestroyed alone; it never goes back. */
  lemma EventMoves(k: Conn, e: Event)
    requires Enabled(k, e) && Inv(k, 0)
    ensures var k2 := Apply(k, e);
            && k2.chan.state.fd == k.chan.state.fd
            && k2.destroys == (if e.Task? && k.queue[0].DestroyTask? then k.destroys + 1 else k.destroys)
            && Progress(k2.state) ==
               (if e.Establish? then 1 else if e.Io? && k2.state.Disconnected? then 2 else Progress(k.state))
  {
    hide ConnectEstablished, DoCall, DoForeign, HandleEvent, RunTask, ChannelInv, BytesInv, ShutInv, LogInv,
         LevelInv, NoticeInv;
    match e
    case Establish(calls) => EstablishMoves(k, calls);
    case InLoop(call) => CallSteady(k, call);
    case Elsewhere(f) => CallSteady(k, Slip(f)); SlipIs(k, f);
    case Io(revents, r) => IoMoves(k, revents, r);
    case Task(wish, calls) =>
      if k.queue[0].DestroyTask? {
        DestroyFindsDown(k);
      }
      TaskMoves(k, wish, calls);
    case Removed =>
  }

  lemma WatchedIsLive(k: Conn)
    requires ChannelInv(k)
    ensures k.chan.interest.Some? ==> Live(k)
  {
  }

  lemma SlipIs(k: Conn, f: Foreign)
    ensures DoCall(k, Slip(f)) == DoForeign(k, f)
  {
  }

  lemma IoMoves(k: Conn, revents: Mask, r: Reaction)
    ensures Handled(k, HandleEvent(k, revents, r))
  {
    hide ReactAll, Dispatch;
    ReactAllHandled(k, Dispatch(revents), r);
  }

  lemma OneAsk(sl: Slice, a: Op<()>)
    ensures SliceAfterAll(sl, [a]) == SliceAfter(sl, a)
  {
    assert [a][1..] == [];
  }

  lemma TwoAsks(sl: Slice, a: Op<()>, b: Op<()>)
    ensures SliceAfterAll(sl, [a] + [b]) == SliceAfter(SliceAfter(sl, a), b)
  {
    assert ([a] + [b])[1..] == [b];
    OneAsk(SliceAfter(sl, a), b);
  }

  /** Where the channel stands follows from state, backlog and destruction, so the requests of Asks get it there. */
  lemma AsksLead(k: Conn, k2: Conn)
    requires ChannelInv(k) && ChannelInv(k2) && DutyInv(k, 0) && DutyInv(k2, 0)
    requires k2.chan.state.fd == k.chan.state.fd
    requires Progress(k2.state) == 0 ==> Progress(k.state) == 0
    requires Progress(k2.state) == 1 ==> Progress(k.state) <= 1
    requires Progress(k2.state) == 2 ==> Progress(k.state) >= 1
    requires Progress(k.state) < 2 ==> k2.destroys == k.destroys
    requires k.destroys <= k2.destroys
    ensures k2.chan == SliceAfterAll(k.chan, Asks(k, k2))
  {
    Masks();
    assert (READ_EVENT | WRITE_EVENT) | WRITE_EVENT == READ_EVENT | WRITE_EVENT;
    assert READ_EVENT & !WRITE_EVENT == READ_EVENT;
    var q: Op<()> := Ask((), WriteRequest(k2));
    if Progress(k2.state) == 1 && Progress(k.state) == 0 {
      TwoAsks(k.chan, Ask((), EnableReading), q);
    } else if Progress(k2.state) == 1 {
      assert Asks(k, k2) == [q];
      OneAsk(k.chan, q);
    }
  }

  /** For every answer of the kernel and every behaviour of the user, an event of a connection has on its
      channel the effect of the requests that the lifecycle's steps make: reading enabled by
      connectEstablished, one change of the write interest while up, everything disabled by a close in a
      dispatch, removal by connectDestroyed, and nothing else. */
  lemma EventsAskWhatStepsDo(k: Conn, e: Event)
    requires Enabled(k, e) && Inv(k, 0)
    ensures var k2 := Apply(k, e);
            && k2.chan == SliceAfterAll(k.chan, Asks(k, k2))
            && (Progress(k.state) == 0 && Progress(k2.state) != 0 ==> e.Establish? && Progress(k2.state) == 1)
            && (Progress(k.state) == 1 && Progress(k2.state) != 1 ==> e.Io? && k2.state.Disconnected?)
            && (Progress(k.state) == 2 ==> k2.state.Disconnected?)
            && (k2.destroys != k.destroys ==> e.Task? && k.queue[0].DestroyTask? && k.state.Disconnected?)
  {
    hide Apply, ChannelInv, BytesInv, ShutInv, LogInv, LevelInv, NoticeInv, SliceAfterAll, Asks;
    WatchedIsLive(k);
    EventMoves(k, e);
    StepKeeps(k, e);
    AsksLead(k, Apply(k, e));
  }
}
