/** What each event does, in every state of every run, told by what can be seen afterwards: bytes in the
    stream and in the buffers, callbacks made, functors queued, the kernel's mask (src/TcpConnection.cpp). */
module ConnEffects {
  import opened Kernel
  import opened Registry
  import opened Reactor
  import opened ConnModel
  import opened ConnProofs
  import opened ConnTheorems

  // ------------------------------------------------------------------ what poll reports

  predicate Readable(revents: Mask) {
    revents & EPOLLIN != 0 || revents & EPOLLPRI != 0
  }

  predicate Writable(revents: Mask) {
    revents & EPOLLOUT != 0
  }

  predicate HungUp(revents: Mask) {
    revents & EPOLLHUP != 0 && revents & EPOLLIN == 0
  }

  /** The dispatch takes the connection down: a hang-up with no ordinary data, or the end of the stream. */
  predicate Ends(revents: Mask, answer: ReadAnswer) {
    HungUp(revents) || (Readable(revents) && answer == Data([]))
  }

  function Delivered(revents: Mask, answer: ReadAnswer): Bytes {
    if Readable(revents) && answer.Data? then answer.bytes else []
  }

  /** The kernel watches the connection: for ordinary and urgent data always, for room to write exactly
      while bytes wait, and for nothing else. */
  predicate Watches(c: Conn) {
    && c.chan.interest.Some?
    && var m := c.chan.interest.value;
       && m & EPOLLIN != 0 && m & EPOLLPRI != 0 && (m & EPOLLOUT != 0 <==> c.output != [])
       && m & !(EPOLLIN | EPOLLPRI | EPOLLOUT) == 0
  }

  lemma LiveWatches(c: Conn)
    requires ChannelInv(c)
    ensures Live(c) ==> Watches(c)
    ensures c.state.Disconnected? ==> c.chan.interest.None?
  {
  }

  /** The kernel's mask follows state and backlog in every state of every run. */
  lemma KernelMaskFollows(run: seq<Conn>, events: seq<Event>, i: nat)
    requires IsRun(run, events) && i < |run|
    ensures if Live(run[i]) then Watches(run[i]) else run[i].chan.interest.None?
  {
    RunKeeps(run, events, i);
    LiveWatches(run[i]);
  }

  // ------------------------------------------------------------------ calls leave most of it alone

  /** What user code on the loop's thread, and other threads, cannot change. */
  predicate SameHistory(c: Conn, d: Conn) {
    && d.upcalls == c.upcalls && d.received == c.received && d.removalsOwed == c.removalsOwed
    && d.closes == c.closes && d.destroys == c.destroys && (d.state.Disconnected? <==> c.state.Disconnected?)
    && (Live(c) ==> Live(d)) && c.queue <= d.queue
  }

  lemma BacklogSameHistory(c: Conn, rest: Bytes)
    ensures SameHistory(c, Backlog(c, rest))
  {
    hide NewEvents, UpdateSlice, IsWriting;
  }

  lemma SendSameHistory(c: Conn, msg: Bytes, wish: WriteAnswer)
    ensures SameHistory(c, SendInLoop(c, msg, wish))
  {
    hide Backlog, IsWriting, Accepted;
    BacklogSameHistory(Log(c, msg, false, None), msg);
    var answer := Write(c.shut, |msg|, wish);
    if answer.Wrote? {
      var d := Log(c, msg, false, Some(answer.n)).(stream := c.stream + msg[..answer.n]);
      BacklogSameHistory(d, msg[answer.n..]);
    }
  }

  lemma CallSameHistory(c: Conn, call: Call)
    ensures SameHistory(c, DoCall(c, call))
  {
    hide SendInLoop, IsWriting;
    match call
    case Send(msg, wish) =>
      SendSameHistory(c, msg, wish);
      SameAsItself(c);
    case Shutdown =>
    case Retrieve(_) =>
    case Slip(f) => SlipSameHistory(c, f);
  }

  lemma SameAsItself(c: Conn)
    ensures SameHistory(c, c)
  {
  }

  lemma SlipSameHistory(c: Conn, f: Foreign)
    ensures SameHistory(c, DoForeign(c, f))
  {
  }

  lemma {:induction false} CallsSameHistory(c: Conn, calls: seq<Call>)
    ensures SameHistory(c, DoCalls(c, calls))
  {
    hide DoCall;
    if calls != [] {
      CallsSameHistory(c, calls[..|calls| - 1]);
      CallSameHistory(DoCalls(c, calls[..|calls| - 1]), calls[|calls| - 1]);
    }
  }

  // ------------------------------------------------------------------ one dispatch, taken apart

  /** The dispatch up to the write callback. */
  function BeforeWrite(c: Conn, revents: Mask, r: Reaction): Conn {
    if HungUp(revents) then HandleClose(c, r.calls)
    else if Readable(revents) then HandleRead(c, r.answer, r.calls)
    else c
  }

  /** One more callback, if it is reported. */
  lemma ReactIf(c: Conn, cbs: seq<Callback>, cb: Callback, reported: bool, r: Reaction)
    ensures ReactAll(c, cbs + (if reported then [cb] else []), r) ==
            if reported then React(ReactAll(c, cbs, r), cb, r) else ReactAll(c, cbs, r)
  {
    hide React, ReactAll;
    if reported {
      React1(c, cbs, cb, r);
    } else {
      assert cbs + [] == cbs;
    }
  }

  lemma CallbacksApart(c: Conn, r: Reaction, close: bool, error: bool, read: bool, write: bool)
    requires !(close && read)
    ensures ReactAll(c, Callbacks(close, error, read, write), r) ==
            var e := if close then HandleClose(c, r.calls) else if read then HandleRead(c, r.answer, r.calls) else c;
            if write then HandleWrite(e, r.wish) else e
  {
    hide ReactAll, HandleClose, HandleRead, HandleWrite;
    var a := if close then [OnClose] else [];
    var b := a + if error then [OnError] else [];
    var d := b + if read then [OnRead] else [];
    assert [] + a == a;
    NoReaction(c, r);
    ReactIf(c, [], OnClose, close, r);
    ReactIf(c, a, OnError, error, r);
    ReactIf(c, b, OnRead, read, r);
    ReactIf(c, d, OnWrite, write, r);
  }

  lemma NoReaction(c: Conn, r: Reaction)
    ensures ReactAll(c, [], r) == c
  {
  }

  lemma DispatchApart(c: Conn, revents: Mask, r: Reaction)
    requires !HangUpWithUrgentOnly(revents)
    ensures HandleEvent(c, revents, r) ==
            var e := BeforeWrite(c, revents, r); if Writable(revents) then HandleWrite(e, r.wish) else e
  {
    hide HandleClose, HandleRead, HandleWrite, ReactAll;
    ReadMask(revents);
    CallbacksApart(c, r, HungUp(revents), revents & EPOLLERR != 0, Readable(revents), Writable(revents));
  }

  // ------------------------------------------------------------------ what a dispatch tells and receives

  /** What a dispatch that got this answer leaves of a live connection. */
  predicate Dispatched(c: Conn, d: Conn, revents: Mask, answer: ReadAnswer) {
    var ends, bytes := Ends(revents, answer), Delivered(revents, answer);
    && (if ends then d.state.Disconnected? && d.chan.interest.None? else Live(d) && Watches(d))
    && d.received == c.received + bytes
    && d.upcalls == c.upcalls + (if ends then [Down] else if bytes != [] then [Message] else [])
    && d.removalsOwed == c.removalsOwed + (if ends then 1 else 0)
    && d.destroys == c.destroys && c.queue <= d.queue
  }

  /** As Dispatched says, channel aside. */
  predicate Told(c: Conn, d: Conn, ends: bool, bytes: Bytes) {
    && (if ends then d.state.Disconnected? else Live(d))
    && d.received == c.received + bytes
    && d.upcalls == c.upcalls + (if ends then [Down] else if bytes != [] then [Message] else [])
    && d.removalsOwed == c.removalsOwed + (if ends then 1 else 0)
    && d.destroys == c.destroys && c.queue <= d.queue
  }

  lemma CloseTold(c: Conn, calls: seq<Call>)
    ensures Told(c, HandleClose(c, calls), true, [])
  {
    CallsSameHistory(CloseBegins(c), calls);
    assert c.received + [] == c.received;
  }

  lemma ReadTold(c: Conn, answer: ReadAnswer, calls: seq<Call>)
    requires Live(c)
    ensures Told(c, HandleRead(c, answer, calls), answer == Data([]), if answer.Data? then answer.bytes else [])
  {
    assert c.received + [] == c.received && c.upcalls + [] == c.upcalls;
    if answer == Data([]) {
      CloseTold(c, calls);
    } else if answer.Data? {
      CallsSameHistory(Notify(Received(c, answer.bytes), Message), calls);
    }
  }

  lemma WriteTellsNothing(c: Conn, wish: WriteAnswer)
    ensures SameHistory(c, HandleWrite(c, wish)) && HandleWrite(c, wish).state == c.state
  {
  }

  lemma ToldThenSame(c: Conn, e: Conn, d: Conn, ends: bool, bytes: Bytes)
    requires Told(c, e, ends, bytes) && SameHistory(e, d)
    ensures Told(c, d, ends, bytes)
  {
  }

  lemma BeforeWriteTold(c: Conn, revents: Mask, r: Reaction)
    requires Live(c) && !HangUpWithUrgentOnly(revents)
    ensures Told(c, BeforeWrite(c, revents, r), Ends(revents, r.answer), Delivered(revents, r.answer))
  {
    hide HandleClose, HandleRead, Told;
    if HungUp(revents) {
      CloseTold(c, r.calls);
      assert Delivered(revents, r.answer) == [];
    } else if Readable(revents) {
      ReadTold(c, r.answer, r.calls);
    } else {
      NothingTold(c);
    }
  }

  lemma NothingTold(c: Conn)
    requires Live(c)
    ensures Told(c, c, false, [])
  {
    assert c.received + [] == c.received && c.upcalls + [] == c.upcalls;
  }

  lemma DispatchTold(c: Conn, revents: Mask, r: Reaction)
    requires Live(c) && !HangUpWithUrgentOnly(revents)
    ensures Told(c, HandleEvent(c, revents, r), Ends(revents, r.answer), Delivered(revents, r.answer))
  {
    hide HandleEvent, BeforeWrite, HandleWrite, Told, SameHistory;
    DispatchApart(c, revents, r);
    BeforeWriteTold(c, revents, r);
    var e := BeforeWrite(c, revents, r);
    if Writable(revents) {
      WriteTellsNothing(e, r.wish);
      ToldThenSame(c, e, HandleEvent(c, revents, r), Ends(revents, r.answer), Delivered(revents, r.answer));
    }
  }

  /** A dispatch on a live connection, for every set of events and every answer of readv. Ordinary or
      urgent data, without a hang-up, is received whole and announced by one Message; a hang-up without
      ordinary data and an end of stream take the connection down, with one Down and one removal asked for;
      nothing else does, and a connection that stays up stays watched. */
  lemma DispatchSays(run: seq<Conn>, events: seq<Event>, i: nat, revents: Mask, r: Reaction)
    requires IsRun(run, events) && i < |run| && Live(run[i]) && !HangUpWithUrgentOnly(revents)
    ensures Enabled(run[i], Io(revents, r))
    ensures Dispatched(run[i], Apply(run[i], Io(revents, r)), revents, r.answer)
  {
    hide Inv, HandleEvent, Watches;
    var c := run[i];
    RunKeeps(run, events, i);
    InvWatches(c);
    DispatchTold(c, revents, r);
    StepKeeps(c, Io(revents, r));
    InvWatches(Apply(c, Io(revents, r)));
  }

  lemma InvWatches(c: Conn)
    requires Inv(c, 0)
    ensures Live(c) ==> Watches(c) && c.chan.interest.Some?
    ensures c.state.Disconnected? ==> c.chan.interest.None?
  {
    LiveWatches(c);
  }

  // ------------------------------------------------------------------ output moves

  /** d is the live connection c after the kernel had room and took what it chose to: exactly the first n
      waiting bytes are in the stream and the others wait. Nothing else changes until none waits; then
      the write interest is dropped, a write-complete is queued, and a requested half-close is made. */
  predicate Flushed(c: Conn, d: Conn, wish: WriteAnswer) {
    var n := Taken(Write(c.shut, |c.output|, wish));
    && d.stream == c.stream + c.output[..n] && d.output == c.output[n..]
    && d == c.(stream := d.stream, output := d.output, levels := d.levels, completions := d.completions,
               queue := d.queue, chan := d.chan, shut := d.shut)
    && Watches(d)
    && if n > 0 && d.output == [] then
         && d.shut == (c.shut || c.state.Disconnecting?)
         && d.queue == c.queue + (if c.cfg.onWriteComplete then [WriteCompleteTask] else [])
       else
         d.shut == c.shut && d.queue == c.queue && d.chan == c.chan
  }

  lemma WriteFlushes(c: Conn, wish: WriteAnswer)
    requires Live(c) && ChannelInv(c)
    ensures Flushed(c, HandleWrite(c, wish), wish)
  {
    hide Watches;
    WritingIffBacklog(c);
    var d, n := HandleWrite(c, wish), Taken(Write(c.shut, |c.output|, wish));
    assert c.stream + c.output[..0] == c.stream && c.output[0..] == c.output && c.queue + [] == c.queue;
    WriteKeepsChannel(c, wish);
    LiveWatches(d);
  }

  lemma WriteKeepsChannel(c: Conn, wish: WriteAnswer)
    requires Live(c) && ChannelInv(c)
    ensures ChannelInv(HandleWrite(c, wish)) && Live(HandleWrite(c, wish))
  {
    Masks();
  }

  /** Room to write, with nothing to read and no hang-up, on a live connection: for every answer of the
      kernel, whole or part, in kConnected and in kDisconnecting. */
  lemma RoomFlushes(run: seq<Conn>, events: seq<Event>, i: nat, revents: Mask, r: Reaction)
    requires IsRun(run, events) && i < |run| && Live(run[i])
    requires Writable(revents) && !Readable(revents) && !HungUp(revents)
    ensures Enabled(run[i], Io(revents, r)) && Flushed(run[i], Apply(run[i], Io(revents, r)), r.wish)
  {
    hide HandleEvent, HandleWrite, Flushed, Watches;
    RunKeeps(run, events, i);
    InvWatches(run[i]);
    DispatchApart(run[i], revents, r);
    WriteFlushes(run[i], r.wish);
  }

  /** With several events at once the read, or the close, comes first, and the write then finds what that
      left: the dispatch without room to write, followed by room to write alone; after a close the latter
      does nothing. */
  lemma WritesComeLast(run: seq<Conn>, events: seq<Event>, i: nat, revents: Mask, r: Reaction)
    requires IsRun(run, events) && i < |run| && Live(run[i]) && !HangUpWithUrgentOnly(revents) && Writable(revents)
    ensures !HangUpWithUrgentOnly(revents & !EPOLLOUT)
    ensures Enabled(run[i], Io(revents, r)) && Enabled(run[i], Io(revents & !EPOLLOUT, r))
    ensures var e, d := Apply(run[i], Io(revents & !EPOLLOUT, r)), Apply(run[i], Io(revents, r));
            if Ends(revents, r.answer) then d == e else Live(e) && Flushed(e, d, r.wish)
  {
    hide HandleEvent, HandleWrite, Flushed, Inv, BeforeWrite;
    var c := run[i];
    RunKeeps(run, events, i);
    InvWatches(c);
    WithoutRoom(c, revents, r);
    DispatchApart(c, revents, r);
    DispatchApart(c, revents & !EPOLLOUT, r);
    StepKeeps(c, Io(revents & !EPOLLOUT, r));
    var e := Apply(c, Io(revents & !EPOLLOUT, r));
    DispatchTold(c, revents & !EPOLLOUT, r);
    InvChannel(e);
    if Ends(revents, r.answer) {
      WriteOnlyKeepsDown(e, OnWrite, r);
    } else {
      WriteFlushes(e, r.wish);
    }
  }

  lemma InvChannel(c: Conn)
    requires Inv(c, 0)
    ensures ChannelInv(c)
  {
  }

  lemma WithoutRoom(c: Conn, revents: Mask, r: Reaction)
    ensures var m := revents & !EPOLLOUT;
            && !Writable(m) && (Readable(m) <==> Readable(revents)) && (HungUp(m) <==> HungUp(revents))
            && (HangUpWithUrgentOnly(m) <==> HangUpWithUrgentOnly(revents))
            && BeforeWrite(c, m, r) == BeforeWrite(c, revents, r)
            && Ends(m, r.answer) == Ends(revents, r.answer)
  {
    hide HandleClose, HandleRead;
    var m := revents & !EPOLLOUT;
    assert m & EPOLLIN == revents & EPOLLIN && m & EPOLLPRI == revents & EPOLLPRI && m & EPOLLHUP == revents & EPOLLHUP;
    assert m & EPOLLOUT == 0;
  }

  // ------------------------------------------------------------------ what the user's calls do

  /** d is the live connection c after sendInLoop(msg): the message goes whole to the stream and the
      backlog, or, when nothing waited and the kernel answered EPIPE or ECONNRESET, nowhere. What the
      kernel takes at once goes to the stream, and only if nothing waited. The notifications queued are a
      write-complete for a message taken whole, or a high-water notice for a backlog that reaches the mark. */
  predicate Sent(c: Conn, d: Conn, msg: Bytes, wish: WriteAnswer) {
    var answer := if c.output == [] then Write(c.shut, |msg|, wish) else WouldBlock;
    && d == c.(stream := d.stream, output := d.output, sends := d.sends, queue := d.queue, chan := d.chan,
               levels := d.levels, completions := d.completions)
    && d.stream == c.stream + msg[..Taken(answer)]
    && d.output == c.output + (if answer.Broken? then [] else msg[Taken(answer)..])
    && d.sends == c.sends + [Record(msg, answer.Broken?, if answer.Wrote? then Some(answer.n) else None)]
    && d.queue == c.queue
         + (if answer == Wrote(|msg|) && c.cfg.onWriteComplete then [WriteCompleteTask] else [])
         + (if c.cfg.onHighWater && |c.output| < c.cfg.mark <= |d.output| then [HighWaterTask(|d.output|)] else [])
    && Watches(d)
  }

  lemma SendSent(c: Conn, msg: Bytes, wish: WriteAnswer)
    requires Inv(c, 0) && Live(c)
    ensures Sent(c, SendInLoop(c, msg, wish), msg, wish)
  {
    hide Watches, Levels, Crossings, Completions;
    SendInLoopKeeps(c, msg, wish, 0);
    SendKeepsState(c, msg, wish);
    InvWatches(SendInLoop(c, msg, wish));
    SendMoves(c, msg, wish);
  }

  lemma SendMoves(c: Conn, msg: Bytes, wish: WriteAnswer)
    requires ChannelInv(c) && Live(c)
    ensures var d := SendInLoop(c, msg, wish);
            var answer := if c.output == [] then Write(c.shut, |msg|, wish) else WouldBlock;
            && d == c.(stream := d.stream, output := d.output, sends := d.sends, queue := d.queue, chan := d.chan,
                       levels := d.levels, completions := d.completions)
            && d.stream == c.stream + msg[..Taken(answer)]
            && d.output == c.output + (if answer.Broken? then [] else msg[Taken(answer)..])
            && d.sends == c.sends + [Record(msg, answer.Broken?, if answer.Wrote? then Some(answer.n) else None)]
            && d.queue == c.queue
                 + (if answer == Wrote(|msg|) && c.cfg.onWriteComplete then [WriteCompleteTask] else [])
                 + (if c.cfg.onHighWater && |c.output| < c.cfg.mark <= |d.output| then [HighWaterTask(|d.output|)] else [])
  {
    WritingIffBacklog(c);
    assert c.queue + [] == c.queue && c.stream + msg[..0] == c.stream && msg[0..] == msg && c.output + [] == c.output;
  }

  /** send() by the loop's own thread: in kConnected the message is sent, in any other state nothing happens. */
  lemma SendSays(run: seq<Conn>, events: seq<Event>, i: nat, msg: Bytes, wish: WriteAnswer)
    requires IsRun(run, events) && i < |run|
    ensures var c, d := run[i], Apply(run[i], InLoop(Send(msg, wish)));
            if c.state.Connected? then Sent(c, d, msg, wish) else d == c
  {
    hide Inv, SendInLoop, Sent;
    RunKeeps(run, events, i);
    if run[i].state.Connected? {
      SendSent(run[i], msg, wish);
    }
  }

  /** shutdown() by the loop's own thread: in kConnected no send is accepted any more, and the write side
      is shut at once exactly if nothing waits; in any other state nothing happens. */
  lemma ShutdownSays(run: seq<Conn>, events: seq<Event>, i: nat)
    requires IsRun(run, events) && i < |run|
    ensures var c, d := run[i], Apply(run[i], InLoop(Shutdown));
            if c.state.Connected? then d == c.(state := Disconnecting, shut := c.output == []) else d == c
  {
    RunKeeps(run, events, i);
    WritingIffBacklog(run[i]);
  }

  /** The user takes up to n bytes from the front of the input buffer, and changes nothing else. */
  lemma RetrieveSays(run: seq<Conn>, events: seq<Event>, i: nat, n: nat)
    requires IsRun(run, events) && i < |run|
    ensures var c, d := run[i], Apply(run[i], InLoop(Retrieve(n)));
            && d == c.(input := d.input, consumed := d.consumed)
            && |d.input| == (if n < |c.input| then |c.input| - n else 0)
            && c.input == c.input[..|c.input| - |d.input|] + d.input
            && d.consumed == c.consumed + c.input[..|c.input| - |d.input|]
  {
  }

  /** The functors on their way to the queue, and on it. */
  function Due(c: Conn, t: Task): nat {
    c.inflight[t] + multiset(c.queue)[t]
  }

  /** send() and shutdown() by another thread end in exactly one functor, in kConnected, and in nothing
      otherwise; queuing it puts it behind all others and makes it no more and no less. */
  lemma ForeignSays(run: seq<Conn>, events: seq<Event>, i: nat, f: Foreign)
    requires IsRun(run, events) && i < |run|
    ensures var c, d := run[i], Apply(run[i], Elsewhere(f));
            match f
            case ForeignSend(msg) =>
              && d == c.(inflight := d.inflight)
              && forall t :: Due(d, t) == Due(c, t) + if c.state.Connected? && t == SendTask(msg) then 1 else 0
            case ForeignShutdown =>
              && d == c.(inflight := d.inflight, state := if c.state.Connected? then Disconnecting else c.state)
              && forall t :: Due(d, t) == Due(c, t) + if c.state.Connected? && t == ShutdownTask then 1 else 0
            case Queue(task) =>
              && d == c.(inflight := d.inflight, queue := if task in c.inflight then c.queue + [task] else c.queue)
              && forall t :: Due(d, t) == Due(c, t)
  {
  }

  // ------------------------------------------------------------------ what the functors do

  /** The next functor leaves the queue and does its work: a send sends its own message, refused whole on
      a connection that is down; a shutdown shuts unless bytes wait on a live connection; a notification
      is told to the user; connectDestroyed leaves nothing with the poller. */
  lemma FunctorSays(run: seq<Conn>, events: seq<Event>, i: nat, wish: WriteAnswer)
    requires IsRun(run, events) && i < |run| && run[i].queue != []
    ensures var c, d := run[i].(queue := run[i].queue[1..]), Apply(run[i], Task(wish, []));
            match run[i].queue[0]
            case SendTask(msg) =>
              if Live(c) then Sent(c, d, msg, wish)
              else c.state.Disconnected? && d == c.(sends := c.sends + [Record(msg, true, None)])
            case ShutdownTask => d == c.(shut := c.shut || c.output == [] || c.state.Disconnected?)
            case WriteCompleteTask => d == c.(upcalls := c.upcalls + [WriteComplete])
            case HighWaterTask(level) => d == c.(upcalls := c.upcalls + [HighWater(level)])
            case DestroyTask =>
              && c.state.Disconnected? && d == c.(chan := d.chan, destroys := c.destroys + 1)
              && !d.chan.mapped && d.chan.interest.None?
  {
    hide SendInLoop, Sent, BytesInv, ShutInv, LogInv, LevelInv, NoticeInv;
    var c := run[i].(queue := run[i].queue[1..]);
    RunKeeps(run, events, i);
    PopTask(run[i].queue);
    match run[i].queue[0]
    case SendTask(msg) =>
      PopKeeps(run[i]);
      if Live(c) {
        SendSent(c, msg, wish);
      } else {
        DownRefuses(c, msg, wish);
      }
    case ShutdownTask => ShutdownFunctor(run[i]);
    case _ =>
  }

  lemma ShutdownFunctor(c: Conn)
    requires Inv(c, 0) && c.queue != [] && c.queue[0].ShutdownTask?
    ensures var d := c.(queue := c.queue[1..]);
            ShutdownInLoop(d) == d.(shut := c.shut || c.output == [] || c.state.Disconnected?)
  {
    hide LogInv, DutyInv, LevelInv, NoticeInv;
    WritingIffBacklog(c);
  }

  lemma DownRefuses(c: Conn, msg: Bytes, wish: WriteAnswer)
    requires c.state.Disconnected?
    ensures SendInLoop(c, msg, wish) == c.(sends := c.sends + [Record(msg, true, None)])
  {
  }

  /** connectEstablished: the connection is up, the user is told, and the kernel watches it for input. */
  lemma EstablishSays(run: seq<Conn>, events: seq<Event>, i: nat)
    requires IsRun(run, events) && i < |run| && run[i].state.Connecting?
    ensures var c, d := run[i], Apply(run[i], Establish([]));
            d == c.(state := Connected, upcalls := [Up], chan := d.chan) && Watches(d) && d.chan.mapped
  {
    hide BytesInv, ShutInv, LevelInv, NoticeInv, DutyInv;
    RunKeeps(run, events, i);
    EstablishKeeps(run[i], []);
    LiveWatches(ConnectEstablished(run[i], []));
  }

  /** The server's removal: connectDestroyed is queued, behind all else. */
  lemma RemovalSays(run: seq<Conn>, events: seq<Event>, i: nat)
    requires IsRun(run, events) && i < |run| && run[i].removalsOwed > 0
    ensures var c, d := run[i], Apply(run[i], Removed);
            d == c.(removalsOwed := 0, queue := c.queue + [DestroyTask])
  {
    hide Inv;
    RunKeeps(run, events, i);
    OneRemoval(run[i]);
  }

  lemma OneRemoval(c: Conn)
    requires Inv(c, 0)
    ensures c.removalsOwed <= 1
  {
    hide ChannelInv, BytesInv, ShutInv, LogInv, LevelInv, NoticeInv;
  }

  /** connectDestroyed on a connection that is still up, as at the end of the server: it goes out of the
      poller in any case, and the user is told exactly in kConnected. */
  lemma DestroyedWhileUp(run: seq<Conn>, events: seq<Event>, i: nat)
    requires IsRun(run, events) && i < |run| && Live(run[i])
    ensures var c, d := run[i], ConnectDestroyed(run[i], []);
            && !d.chan.mapped && d.chan.interest.None? && d.destroys == c.destroys + 1
            && d.upcalls == c.upcalls + (if c.state.Connected? then [Down] else [])
            && d.state == if c.state.Connected? then Disconnected else Disconnecting
  {
    assert run[i].upcalls + [] == run[i].upcalls;
  }

  // ------------------------------------------------------------------ callbacks and the queue

  /** Functors run in the order they were queued: an event takes at most the first, as a functor, and
      whatever it queues comes after all others. */
  lemma QueueIsFifo(run: seq<Conn>, events: seq<Event>, i: nat)
    requires IsRun(run, events) && i < |events|
    ensures events[i].Task? ==> run[i].queue != []
    ensures (if events[i].Task? then run[i].queue[1..] else run[i].queue) <= run[i + 1].queue
  {
    hide Inv, HandleEvent, RunTask, DoCall, DoCalls, Levels, Crossings, Completions;
    var c := run[i];
    match events[i]
    case Establish(calls) => CallsSameHistory(Notify(Watch(c.(state := Connected), EnableReading), Up), calls);
    case InLoop(call) => OneCallSame(c, call);
    case Elsewhere(f) => OneCallSame(c, Slip(f)); SlipDoes(c, f);
    case Io(revents, r) =>
      RunKeeps(run, events, i);
      IoIsLive(c, revents, r);
      DispatchTold(c, revents, r);
    case Task(wish, calls) => TaskAppends(c, wish, calls);
    case Removed =>
  }

  lemma IoIsLive(c: Conn, revents: Mask, r: Reaction)
    requires Inv(c, 0) && Enabled(c, Io(revents, r))
    ensures Live(c)
  {
  }

  lemma SlipDoes(c: Conn, f: Foreign)
    ensures DoCall(c, Slip(f)) == DoForeign(c, f)
  {
  }

  lemma OneCallSame(c: Conn, call: Call)
    ensures SameHistory(c, DoCall(c, call)) && DoCalls(c, [call]) == DoCall(c, call)
  {
    CallsSameHistory(c, [call]);
    assert [call][..0] == [];
  }

  lemma TaskAppends(c: Conn, wish: WriteAnswer, calls: seq<Call>)
    requires c.queue != []
    ensures c.queue[1..] <= RunTask(c, wish, calls).queue
  {
    hide SendInLoop, DoCalls;
    var d := c.(queue := c.queue[1..]);
    CallsSameHistory(Notify(d, WriteComplete), calls);
    match c.queue[0]
    case SendTask(msg) => SendSameHistory(d, msg, wish);
    case HighWaterTask(level) => CallsSameHistory(Notify(d, HighWater(level)), calls);
    case DestroyTask => CallsSameHistory(Notify(Watch(d.(state := Disconnected), DisableAll), Down), calls);
    case _ =>
  }

  /** The same event with user code that does nothing. */
  function Silent(e: Event): Event {
    match e
    case Establish(_) => Establish([])
    case Io(revents, r) => Io(revents, r.(calls := []))
    case Task(wish, _) => Task(wish, [])
    case _ => e
  }

  function CallsOf(e: Event): seq<Call> {
    match e
    case Establish(calls) => calls
    case Io(_, r) => r.calls
    case Task(_, calls) => calls
    case _ => []
  }

  /** The calls are made one after the other, each as an event of its own. */
  ghost predicate Made(path: seq<Conn>, calls: seq<Call>) {
    |path| == |calls| + 1
    && forall k :: 0 <= k < |calls| ==> path[k + 1] == Apply(path[k], InLoop(calls[k]))
  }

  lemma {:induction false} PathOf(c: Conn, calls: seq<Call>) returns (path: seq<Conn>)
    ensures Made(path, calls) && path[0] == c && path[|path| - 1] == DoCalls(c, calls)
  {
    hide DoCall;
    if calls == [] {
      path := [c];
    } else {
      var before := PathOf(c, calls[..|calls| - 1]);
      path := before + [DoCall(before[|before| - 1], calls[|calls| - 1])];
      forall k | 0 <= k < |calls|
        ensures path[k + 1] == Apply(path[k], InLoop(calls[k]))
      {
        assert k < |calls| - 1 ==> before[k + 1] == Apply(before[k], InLoop(calls[..|calls| - 1][k]));
      }
    }
  }

  lemma BacklogIgnoresRemovals(c: Conn, rest: Bytes, n: nat)
    ensures Backlog(c.(removalsOwed := n), rest) == Backlog(c, rest).(removalsOwed := n)
  {
    hide NewEvents, UpdateSlice, IsWriting;
  }

  lemma SendIgnoresRemovals(c: Conn, msg: Bytes, wish: WriteAnswer, n: nat)
    ensures SendInLoop(c.(removalsOwed := n), msg, wish) == SendInLoop(c, msg, wish).(removalsOwed := n)
  {
    hide Backlog, IsWriting, Accepted;
    BacklogIgnoresRemovals(Log(c, msg, false, None), msg, n);
    var answer := Write(c.shut, |msg|, wish);
    if answer.Wrote? {
      var d := Log(c, msg, false, Some(answer.n)).(stream := c.stream + msg[..answer.n]);
      BacklogIgnoresRemovals(d, msg[answer.n..], n);
    }
  }

  lemma CallIgnoresRemovals(c: Conn, call: Call, n: nat)
    ensures DoCall(c.(removalsOwed := n), call) == DoCall(c, call).(removalsOwed := n)
  {
    hide SendInLoop;
    match call
    case Send(msg, wish) => SendIgnoresRemovals(c, msg, wish, n);
    case _ =>
  }

  /** No call looks at what the server has been asked for. */
  lemma {:induction false} CallsIgnoreRemovals(c: Conn, calls: seq<Call>, n: nat)
    ensures DoCalls(c.(removalsOwed := n), calls) == DoCalls(c, calls).(removalsOwed := n)
  {
    hide DoCall;
    if calls != [] {
      CallsIgnoreRemovals(c, calls[..|calls| - 1], n);
      CallIgnoresRemovals(DoCalls(c, calls[..|calls| - 1]), calls[|calls| - 1], n);
    }
  }

  lemma CloseThenCalls(c: Conn, calls: seq<Call>)
    ensures HandleClose(c, calls) == DoCalls(HandleClose(c, []), calls)
  {
    hide CloseBegins, DoCalls;
    var d := CloseBegins(c);
    CloseBeginsAsks(c);
    CallsSameHistory(d, calls);
    CallsIgnoreRemovals(d, calls, c.removalsOwed + 1);
    NoCalls(d);
  }

  lemma CloseBeginsAsks(c: Conn)
    ensures CloseBegins(c).removalsOwed == c.removalsOwed
  {
  }

  /** Where user code ran, it ran right after the rest. */
  predicate ThenCalls(c: Conn, silent: Conn, d: Conn, calls: seq<Call>) {
    if silent.upcalls == c.upcalls then d == silent else d == DoCalls(silent, calls)
  }

  lemma ReadThenCalls(c: Conn, answer: ReadAnswer, calls: seq<Call>)
    ensures ThenCalls(c, HandleRead(c, answer, []), HandleRead(c, answer, calls), calls)
  {
    CloseThenCalls(c, calls);
  }

  lemma DispatchThenCalls(c: Conn, revents: Mask, r: Reaction)
    requires !HangUpWithUrgentOnly(revents) && !Writable(revents)
    ensures ThenCalls(c, HandleEvent(c, revents, r.(calls := [])), HandleEvent(c, revents, r), r.calls)
  {
    hide HandleEvent, HandleRead, HandleClose;
    DispatchApart(c, revents, r);
    DispatchApart(c, revents, r.(calls := []));
    CloseThenCalls(c, r.calls);
    CloseTold(c, []);
    ReadThenCalls(c, r.answer, r.calls);
  }

  lemma TaskThenCalls(c: Conn, wish: WriteAnswer, calls: seq<Call>)
    requires c.queue != [] && (c.queue[0].DestroyTask? ==> c.state.Disconnected?)
    ensures ThenCalls(c, RunTask(c, wish, []), RunTask(c, wish, calls), calls)
  {
    hide SendInLoop;
    if c.queue[0].SendTask? {
      SendSameHistory(c.(queue := c.queue[1..]), c.queue[0].msg, wish);
    }
  }

  lemma EventThenCalls(c: Conn, e: Event)
    requires DutyInv(c, 0) && Enabled(c, e) && (e.Io? ==> !Writable(e.revents))
    ensures Enabled(c, Silent(e)) && ThenCalls(c, Apply(c, Silent(e)), Apply(c, e), CallsOf(e))
  {
    hide HandleEvent, DoCalls, RunTask;
    match e
    case Establish(calls) => NoCalls(Notify(Watch(c.(state := Connected), EnableReading), Up));
    case Io(revents, r) => DispatchThenCalls(c, revents, r);
    case Task(wish, calls) =>
      if c.queue[0].DestroyTask? {
        PopTask(c.queue);
      }
      TaskThenCalls(c, wish, calls);
    case InLoop(call) => OneCallSame(c, call);
    case Elsewhere(f) => OneCallSame(c, Slip(f)); SlipDoes(c, f);
    case Removed =>
  }

  lemma NoCalls(c: Conn)
    ensures DoCalls(c, []) == c
  {
  }

  /** User code in a callback takes effect as if each of its calls were made on the loop's thread right
      after the event, in order; it runs exactly when a callback was made. (A write that is reported
      together with the callback comes after that: WritesComeLast.) */
  lemma CallsAreMade(run: seq<Conn>, events: seq<Event>, i: nat)
    requires IsRun(run, events) && i < |events| && (events[i].Io? ==> !Writable(events[i].revents))
    ensures Enabled(run[i], Silent(events[i]))
    ensures var silent := Apply(run[i], Silent(events[i]));
            if silent.upcalls == run[i].upcalls then run[i + 1] == silent
            else exists path :: Made(path, CallsOf(events[i])) && path[0] == silent && path[|path| - 1] == run[i + 1]
  {
    hide Apply, Enabled, Made, Levels, Crossings, Completions;
    RunKeeps(run, events, i);
    EventThenCalls(run[i], events[i]);
    var silent := Apply(run[i], Silent(events[i]));
    if silent.upcalls != run[i].upcalls {
      var path := PathOf(silent, CallsOf(events[i]));
    }
  }
}
