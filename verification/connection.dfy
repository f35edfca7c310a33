/** TcpConnection as an object over its channel, its poller and its two buffers (src/TcpConnection.cpp).
    Every method is tied to the function of module ConnModel that says what it does. */
module Connection {
  import opened Kernel
  import opened Registry
  import opened Reactor
  import ByteBuffer
  import M = ConnModel

  /** c with rest put in outputBuffer_, after the high-water test. */
  function Stored(c: M.Conn, rest: M.Bytes): M.Conn {
    var level := |c.output| + |rest|;
    var high := c.cfg.onHighWater && |c.output| < c.cfg.mark <= level;
    c.(output := c.output + rest, levels := c.levels + [level],
       queue := if high then c.queue + [M.HighWaterTask(level)] else c.queue)
  }

  lemma BacklogIsStored(c: M.Conn, rest: M.Bytes)
    ensures M.Backlog(c, rest) ==
            if rest == [] then c
            else if M.Writing(c) then Stored(c, rest)
            else M.Watch(Stored(c, rest), EnableWriting)
  {
  }

  lemma EventsOf(r: Registry<Channel>, c: Channel)
    requires c in r.chans
    ensures SliceOf(r, c).state == r.chans[c]
  {
  }

  /** d is c after the direct write of sendInLoop, if there was one, and rest is what it leaves to store. */
  ghost predicate Attempted(c: M.Conn, d: M.Conn, msg: M.Bytes, wish: WriteAnswer, rest: M.Bytes) {
    var answer := if !M.Writing(c) && c.output == [] then Write(c.shut, |msg|, wish) else WouldBlock;
    var done := answer.Wrote? && answer.n == |msg|;
    var sent := M.Log(c, msg, answer.Broken?, Returned(answer)).(stream := c.stream + msg[..Taken(answer)]);
    && rest == (if answer.Broken? then [] else msg[Taken(answer)..])
    && d == if done then M.QueueWriteComplete(sent) else sent
  }

  /** The number write(2) returned, if it was not -1. */
  function Returned(answer: WriteAnswer): Option<nat> {
    if answer.Wrote? then Some(answer.n) else None
  }

  lemma AttemptThenStore(c: M.Conn, d: M.Conn, msg: M.Bytes, wish: WriteAnswer, rest: M.Bytes)
    requires !c.state.Disconnected? && Attempted(c, d, msg, wish, rest)
    ensures M.SendInLoop(c, msg, wish) == M.Backlog(d, rest)
  {
    assert c.stream + msg[..0] == c.stream && msg[0..] == msg;
  }

  /** A read is preceded only by an error. */
  ghost predicate ReadsFirst(called: seq<Callback>) {
    forall i :: 0 <= i < |called| && called[i].OnRead? ==> forall k :: 0 <= k < i ==> called[k].OnError?
  }

  lemma ReadsComeFirst(revents: Mask)
    ensures ReadsFirst([])
    ensures !HangUpWithUrgentOnly(revents) ==> ReadsFirst(Dispatch(revents))
  {
    if !HangUpWithUrgentOnly(revents) {
      forall i | 0 <= i < |Dispatch(revents)| && Dispatch(revents)[i].OnRead?
        ensures forall k :: 0 <= k < i ==> Dispatch(revents)[k].OnError?
      {
        OnlyErrorsBeforeRead(revents, i);
      }
    }
  }

  lemma OneMoreCallback(c: M.Conn, called: seq<Callback>, i: nat, r: M.Reaction)
    requires i < |called|
    ensures M.ReactAll(c, called[..i + 1], r) == M.React(M.ReactAll(c, called[..i], r), called[i], r)
  {
    assert called[..i + 1][..i] == called[..i];
  }

  lemma NoCallbacks(c: M.Conn, r: M.Reaction)
    ensures M.ReactAll(c, [], r) == c
  {
  }

  /** A buffer always offers readv at least the stack block. */
  lemma AlwaysOffered(b: ByteBuffer.Buffer)
    requires b.Valid()
    ensures b.Abs().layout.Offered() >= ByteBuffer.EXTRA_BUF
  {
    ByteBuffer.OfferIsAmple(b.Abs().layout);
  }

  class TcpConnection {
    const channel: Channel
    const inputBuffer: ByteBuffer.Buffer
    const outputBuffer: ByteBuffer.Buffer
    const cfg: M.Settings
    var state: M.State

    // the socket's kernel side, and the functors of this connection
    var stream: M.Bytes
    var shut: bool
    var queue: seq<M.Task>
    var inflight: multiset<M.Task>
    var removalsOwed: nat

    // histories
    ghost var sends: seq<M.Record>
    ghost var levels: seq<nat>
    ghost var upcalls: seq<M.Upcall>
    ghost var completions: seq<M.Stamp>
    ghost var closes: nat
    ghost var destroys: nat
    ghost var received: M.Bytes
    ghost var consumed: M.Bytes

    /** `known` are the channels of the loop's poller. */
    ghost predicate Valid(known: set<Channel>)
      reads this, channel, channel.poller, inputBuffer, outputBuffer, known
    {
      && channel in known
      && Agree(channel.poller.Abs(known)) && Clear(channel.poller.Abs(known), channel)
      && inputBuffer != outputBuffer && inputBuffer.data != outputBuffer.data
      && inputBuffer.Valid() && outputBuffer.Valid()
    }

    ghost function Abs(known: set<Channel>): M.Conn
      requires Valid(known)
      reads this, channel, channel.poller, known
      reads inputBuffer, inputBuffer.data, outputBuffer, outputBuffer.data
    {
      M.Conn(cfg, state, SliceOf(channel.poller.Abs(known), channel),
             inputBuffer.Abs().contents, outputBuffer.Abs().contents,
             stream, shut, queue, inflight, removalsOwed,
             sends, levels, upcalls, completions, closes, destroys, received, consumed)
    }

    /** What the poller and the kernel hold under other descriptors. */
    ghost function Others(): (map<int, Channel>, map<int, Interest<Channel>>)
      reads channel.poller
    {
      (channel.poller.channels - {channel.fd}, channel.poller.kernel - {channel.fd})
    }

    constructor (channel: Channel, cfg: M.Settings, ghost known: set<Channel>)
      requires channel in known && Agree(channel.poller.Abs(known)) && Clear(channel.poller.Abs(known), channel)
      requires channel.index.New? && channel.events == NONE_EVENT
      ensures Valid(known) && Abs(known) == M.NewConn(cfg, channel.fd) && this.channel == channel
      ensures fresh(inputBuffer) && fresh(outputBuffer) && fresh(inputBuffer.data) && fresh(outputBuffer.data)
    {
      this.channel := channel;
      this.cfg := cfg;
      var input := new ByteBuffer.Buffer();
      var output := new ByteBuffer.Buffer();
      inputBuffer, outputBuffer := input, output;
      state, stream, shut, queue, inflight, removalsOwed := M.Connecting, [], false, [], multiset{}, 0;
      sends, levels, upcalls, completions := [], [0], [], [];
      closes, destroys, received, consumed := 0, 0, [], [];
      new;
      assert ChannelAgrees(channel.poller.Abs(known), channel);
    }

    // ---------------------------------------------------------------- small steps

    method Request(q: Request, ghost known: set<Channel>)
      requires channel in known
      modifies channel`events, channel`index, channel.poller
      ensures channel.poller.Abs(known) == After(old(channel.poller.Abs(known)), Ask(channel, q))
    {
      match q
      case EnableReading => channel.EnableReading(known);
      case DisableReading => channel.DisableReading(known);
      case EnableWriting => channel.EnableWriting(known);
      case DisableWriting => channel.DisableWriting(known);
      case DisableAll => channel.DisableAll(known);
    }

    /** A request on the channel, seen from the connection: only its own records change. */
    method Watch(q: Request, ghost known: set<Channel>)
      requires Valid(known)
      modifies channel`events, channel`index, channel.poller
      ensures Valid(known) && Abs(known) == M.Watch(old(Abs(known)), q)
      ensures Others() == old(Others())
    {
      ghost var before := channel.poller.Abs(known);
      ghost var events := NewEvents(channel.events, q);
      assert before.chans[channel].events == channel.events;
      Request(q, known);
      assert channel.poller.Abs(known) == Update(SetEvents(before, channel, events), channel);
      UpdateAgrees(before, channel, events);
      UpdateIsLocal(before, channel, events, channel);
      TouchesOneDescriptor(before, channel, events);
    }

    method QueueInLoop(task: M.Task)
      modifies this`queue
      ensures queue == old(queue) + [task]
    {
      queue := queue + [task];
    }

    method Notify(ghost u: M.Upcall)
      modifies this`upcalls
      ensures upcalls == old(upcalls) + [u]
    {
      upcalls := upcalls + [u];
    }

    method QueueWriteComplete()
      modifies this`queue, this`completions
      ensures cfg.onWriteComplete ==>
                && queue == old(queue) + [M.WriteCompleteTask]
                && completions == old(completions) + [M.Stamp(|stream|, |M.Accepted(sends)|)]
      ensures !cfg.onWriteComplete ==> queue == old(queue) && completions == old(completions)
    {
      if cfg.onWriteComplete {
        QueueInLoop(M.WriteCompleteTask);
        completions := completions + [M.Stamp(|stream|, |M.Accepted(sends)|)];
      }
    }

    // ---------------------------------------------------------------- output

    /** Appends what the kernel did not take, after the high-water test; the channel is not touched. */
    method Store(rest: M.Bytes)
      requires outputBuffer.Valid() && rest != []
      modifies this`queue, this`levels, outputBuffer, outputBuffer.data
      ensures outputBuffer.Valid() && (outputBuffer.data == old(outputBuffer.data) || fresh(outputBuffer.data))
      ensures outputBuffer.Abs().contents == old(outputBuffer.Abs().contents) + rest
      ensures var oldLen := |old(outputBuffer.Abs().contents)|;
              var high := cfg.onHighWater && oldLen < cfg.mark <= oldLen + |rest|;
              && levels == old(levels) + [oldLen + |rest|]
              && queue == (if high then old(queue) + [M.HighWaterTask(oldLen + |rest|)] else old(queue))
    {
      var oldLen := outputBuffer.ReadableBytes();
      if oldLen + |rest| >= cfg.mark && oldLen < cfg.mark && cfg.onHighWater {
        QueueInLoop(M.HighWaterTask(oldLen + |rest|));
      }
      outputBuffer.Append(rest);
      levels := levels + [oldLen + |rest|];
    }

    method EnsureWriting(ghost known: set<Channel>)
      requires Valid(known)
      modifies channel`events, channel`index, channel.poller
      ensures Valid(known) && Others() == old(Others())
      ensures Abs(known) == var c := old(Abs(known)); if M.Writing(c) then c else M.Watch(c, EnableWriting)
    {
      if !IsWriting(channel.events) {
        Watch(EnableWriting, known);
      }
    }

    method StoreFor(rest: M.Bytes, ghost known: set<Channel>)
      requires Valid(known) && rest != []
      modifies this`queue, this`levels, outputBuffer, outputBuffer.data
      ensures Valid(known) && Others() == old(Others())
      ensures outputBuffer.data == old(outputBuffer.data) || fresh(outputBuffer.data)
      ensures Abs(known) == Stored(old(Abs(known)), rest)
    {
      hide Agree, Clear, SliceOf;
      ghost var records := channel.poller.Abs(known);
      Store(rest);
      assert channel.poller.Abs(known) == records;
    }

    /** The last part of sendInLoop: what the kernel did not take goes to outputBuffer_. */
    method StoreRest(rest: M.Bytes, ghost known: set<Channel>)
      requires Valid(known)
      modifies this, channel`events, channel`index, channel.poller, outputBuffer, outputBuffer.data
      ensures Valid(known) && Others() == old(Others())
      ensures outputBuffer.data == old(outputBuffer.data) || fresh(outputBuffer.data)
      ensures Abs(known) == M.Backlog(old(Abs(known)), rest)
    {
      hide Valid, Others, M.Backlog, M.Watch;
      BacklogIsStored(Abs(known), rest);
      if |rest| > 0 {
        StoreFor(rest, known);
        EnsureWriting(known);
      }
    }

    /** The direct write of sendInLoop when nothing waits, and the messages's place in the history:
        what is left to store, which is nothing when the message is refused or complete. */
    method TryWrite(msg: M.Bytes, wish: WriteAnswer) returns (rest: M.Bytes)
      requires outputBuffer.Valid()
      modifies this`stream, this`sends, this`queue, this`completions
      ensures var direct := !IsWriting(channel.events) && outputBuffer.Abs().contents == [];
              var answer := if direct then Write(shut, |msg|, wish) else WouldBlock;
              var done := answer.Wrote? && answer.n == |msg|;
              && stream == old(stream) + msg[..Taken(answer)]
              && sends == old(sends) + [M.Record(msg, answer.Broken?, Returned(answer))]
              && rest == (if answer.Broken? then [] else msg[Taken(answer)..])
              && (done && cfg.onWriteComplete ==>
                    queue == old(queue) + [M.WriteCompleteTask]
                    && completions == old(completions) + [M.Stamp(|stream|, |M.Accepted(sends)|)])
              && (!done || !cfg.onWriteComplete ==> queue == old(queue) && completions == old(completions))
    {
      rest := msg;
      var faultError := false;
      if !IsWriting(channel.events) && outputBuffer.ReadableBytes() == 0 {
        match Write(shut, |msg|, wish) {
          case Wrote(n) =>
            stream := stream + msg[..n];
            rest := msg[n..];
            sends := sends + [M.Record(msg, false, Some(n))];
            if |rest| == 0 {
              QueueWriteComplete();
            }
            return;
          case Broken =>
            faultError := true;
            rest := [];
          case _ =>
        }
      }
      sends := sends + [M.Record(msg, faultError, None)];
      assert stream + msg[..0] == stream && msg[0..] == msg;
    }

    method Attempt(msg: M.Bytes, wish: WriteAnswer, ghost known: set<Channel>) returns (rest: M.Bytes)
      requires Valid(known)
      modifies this`stream, this`sends, this`queue, this`completions
      ensures Valid(known) && Others() == old(Others())
      ensures Attempted(old(Abs(known)), Abs(known), msg, wish, rest)
    {
      hide Agree, Clear, SliceOf;
      ghost var c, records := Abs(known), channel.poller.Abs(known);
      rest := TryWrite(msg, wish);
      assert channel.poller.Abs(known) == records;
      ghost var d := Abs(known);
      assert d == c.(stream := d.stream, sends := d.sends, queue := d.queue, completions := d.completions);
      assert SliceOf(records, channel).state.events == channel.events by { EventsOf(records, channel); }
    }

    method Refuse(msg: M.Bytes, ghost known: set<Channel>)
      requires Valid(known)
      modifies this`sends
      ensures Valid(known) && Others() == old(Others())
      ensures Abs(known) == old(Abs(known)).(sends := old(sends) + [M.Record(msg, true, None)])
    {
      sends := sends + [M.Record(msg, true, None)];
    }

    method SendInLoop(msg: M.Bytes, wish: WriteAnswer, ghost known: set<Channel>)
      requires Valid(known)
      modifies this, channel`events, channel`index, channel.poller, outputBuffer, outputBuffer.data
      ensures Valid(known) && Others() == old(Others())
      ensures outputBuffer.data == old(outputBuffer.data) || fresh(outputBuffer.data)
      ensures Abs(known) == M.SendInLoop(old(Abs(known)), msg, wish)
    {
      hide Valid, Others, M.Backlog, Attempted;
      if state == M.Disconnected {
        Refuse(msg, known);
      } else {
        ghost var c := Abs(known);
        var rest := Attempt(msg, wish, known);
        AttemptThenStore(c, Abs(known), msg, wish, rest);
        StoreRest(rest, known);
      }
    }

    method ShutdownInLoop(ghost known: set<Channel>)
      requires Valid(known)
      modifies this`shut
      ensures Valid(known) && Others() == old(Others())
      ensures Abs(known) == M.ShutdownInLoop(old(Abs(known)))
    {
      if !IsWriting(channel.events) {
        shut := true;
      }
    }

    /** Moves what the kernel takes from outputBuffer_ to the stream; the channel is not touched. */
    method Drain(wish: WriteAnswer) returns (n: int)
      requires outputBuffer.Valid()
      modifies this`stream, this`levels, outputBuffer
      ensures outputBuffer.Valid() && outputBuffer.data == old(outputBuffer.data)
      ensures var answer := Write(shut, |old(outputBuffer.Abs().contents)|, wish);
              && n == (if answer.Wrote? then answer.n else -1)
              && (n <= 0 ==> outputBuffer.Abs().contents == old(outputBuffer.Abs().contents)
                             && stream == old(stream) && levels == old(levels))
              && (n > 0 ==> outputBuffer.Abs().contents == old(outputBuffer.Abs().contents)[n..]
                            && stream == old(stream) + old(outputBuffer.Abs().contents)[..n]
                            && levels == old(levels) + [|outputBuffer.Abs().contents|])
    {
      var taken;
      n, taken := outputBuffer.WriteFd(shut, wish);
      if n > 0 {
        stream := stream + taken;
        outputBuffer.Retrieve(n);
        levels := levels + [outputBuffer.ReadableBytes()];
      }
    }

    method DrainFor(wish: WriteAnswer, ghost known: set<Channel>) returns (n: int)
      requires Valid(known)
      modifies this`stream, this`levels, outputBuffer
      ensures Valid(known) && Others() == old(Others()) && outputBuffer.data == old(outputBuffer.data)
      ensures var c, answer := old(Abs(known)), Write(old(shut), |old(Abs(known)).output|, wish);
              && n == (if answer.Wrote? then answer.n else -1)
              && Abs(known) == if n <= 0 then c
                               else c.(stream := c.stream + c.output[..n], output := c.output[n..],
                                       levels := c.levels + [|c.output[n..]|])
    {
      hide Agree, Clear, SliceOf;
      ghost var records := channel.poller.Abs(known);
      n := Drain(wish);
      assert channel.poller.Abs(known) == records;
    }

    method HandleWrite(wish: WriteAnswer, ghost known: set<Channel>)
      requires Valid(known)
      modifies this, channel`events, channel`index, channel.poller, outputBuffer, outputBuffer.data
      ensures Valid(known) && Others() == old(Others())
      ensures outputBuffer.data == old(outputBuffer.data) || fresh(outputBuffer.data)
      ensures Abs(known) == M.HandleWrite(old(Abs(known)), wish)
    {
      hide Valid, Others, M.Watch, M.QueueWriteComplete, M.ShutdownInLoop;
      var writing := Wants(known);
      if writing {
        var n := DrainFor(wish, known);
        if n > 0 && Backlogged(known) == 0 {
          AfterDrain(known);
        }
      }
    }

    /** channel_->isWriting(). */
    function Wants(ghost known: set<Channel>): (b: bool)
      requires Valid(known)
      reads this, channel, channel.poller, known
      reads inputBuffer, inputBuffer.data, outputBuffer, outputBuffer.data
      ensures b == M.Writing(Abs(known))
    {
      IsWriting(channel.events)
    }

    /** outputBuffer_.readableBytes(). */
    function Backlogged(ghost known: set<Channel>): (n: nat)
      requires Valid(known)
      reads this, channel, channel.poller, known
      reads inputBuffer, inputBuffer.data, outputBuffer, outputBuffer.data
      ensures n == |Abs(known).output|
    {
      outputBuffer.ReadableBytes()
    }

    /** outputBuffer_ has just become empty. */
    method AfterDrain(ghost known: set<Channel>)
      requires Valid(known)
      modifies this`queue, this`completions, this`shut, channel`events, channel`index, channel.poller
      ensures Valid(known) && Others() == old(Others())
      ensures Abs(known) ==
              var e := M.QueueWriteComplete(M.Watch(old(Abs(known)), DisableWriting));
              if e.state.Disconnecting? then M.ShutdownInLoop(e) else e
    {
      Watch(DisableWriting, known);
      ghost var c, records, others := Abs(known), channel.poller.Abs(known), Others();
      QueueWriteComplete();
      assert channel.poller.Abs(known) == records && Others() == others;
      assert Abs(known) == M.QueueWriteComplete(c);
      if state == M.Disconnecting {
        ShutdownInLoop(known);
      }
    }

    // ---------------------------------------------------------------- calls by the user

    method Send(msg: M.Bytes, wish: WriteAnswer, inLoopThread: bool, ghost known: set<Channel>)
      requires Valid(known)
      modifies this, channel`events, channel`index, channel.poller, outputBuffer, outputBuffer.data
      ensures Valid(known) && Others() == old(Others())
      ensures outputBuffer.data == old(outputBuffer.data) || fresh(outputBuffer.data)
      ensures inLoopThread ==> Abs(known) == M.DoCall(old(Abs(known)), M.Send(msg, wish))
      ensures !inLoopThread ==> Abs(known) == M.DoForeign(old(Abs(known)), M.ForeignSend(msg))
    {
      hide Valid, Others, M.SendInLoop;
      if state == M.Connected {
        if inLoopThread {
          SendInLoop(msg, wish, known);
        } else {
          AboutToQueue(M.SendTask(msg), known);
        }
      }
    }

    method Shutdown(inLoopThread: bool, ghost known: set<Channel>)
      requires Valid(known)
      modifies this`state, this`shut, this`inflight
      ensures Valid(known) && Others() == old(Others())
      ensures inLoopThread ==> Abs(known) == M.DoCall(old(Abs(known)), M.Shutdown)
      ensures !inLoopThread ==> Abs(known) == M.DoForeign(old(Abs(known)), M.ForeignShutdown)
    {
      hide Valid, Others, M.ShutdownInLoop;
      if state == M.Connected {
        SetState(M.Disconnecting, known);
        if inLoopThread {
          ShutdownInLoop(known);
        } else {
          AboutToQueue(M.ShutdownTask, known);
        }
      }
    }

    /** runInLoop by another thread: the functor is about to be queued. */
    method AboutToQueue(task: M.Task, ghost known: set<Channel>)
      requires Valid(known)
      modifies this`inflight
      ensures Valid(known) && Others() == old(Others())
      ensures Abs(known) == old(Abs(known)).(inflight := old(inflight) + multiset{task})
    {
      inflight := inflight + multiset{task};
    }

    /** Another thread's queueInLoop takes effect. */
    method Arrive(task: M.Task, ghost known: set<Channel>)
      requires Valid(known)
      modifies this`queue, this`inflight
      ensures Valid(known) && Others() == old(Others())
      ensures Abs(known) == M.DoForeign(old(Abs(known)), M.Queue(task))
    {
      if task in inflight {
        inflight := inflight - multiset{task};
        QueueInLoop(task);
      }
    }

    method Interfere(f: M.Foreign, ghost known: set<Channel>)
      requires Valid(known)
      modifies this, channel`events, channel`index, channel.poller, outputBuffer, outputBuffer.data
      ensures Valid(known) && Others() == old(Others())
      ensures outputBuffer.data == old(outputBuffer.data) || fresh(outputBuffer.data)
      ensures Abs(known) == M.DoForeign(old(Abs(known)), f)
    {
      match f
      case ForeignSend(msg) => Send(msg, WouldBlock, false, known);
      case ForeignShutdown => Shutdown(false, known);
      case Queue(task) => Arrive(task, known);
    }

    /** inputBuffer_.retrieve, called by the user. */
    method TakeInput(n: nat, ghost known: set<Channel>)
      requires Valid(known)
      modifies this`consumed, inputBuffer
      ensures Valid(known) && Others() == old(Others()) && inputBuffer.data == old(inputBuffer.data)
      ensures var c := old(Abs(known));
              Abs(known) == c.(input := ByteBuffer.Drop(c.input, n), consumed := c.consumed + ByteBuffer.Take(c.input, n))
    {
      hide Agree, Clear, SliceOf, ByteBuffer.Drop, ByteBuffer.Take;
      ghost var records := channel.poller.Abs(known);
      consumed := consumed + ByteBuffer.Take(inputBuffer.Peek(), n);
      inputBuffer.Retrieve(n);
      assert channel.poller.Abs(known) == records;
    }

    method Take(n: nat, ghost known: set<Channel>)
      requires Valid(known)
      modifies this`consumed, inputBuffer
      ensures Valid(known) && Others() == old(Others()) && inputBuffer.data == old(inputBuffer.data)
      ensures Abs(known) == M.DoCall(old(Abs(known)), M.Retrieve(n))
    {
      hide Valid, Others, Abs;
      ghost var c := Abs(known);
      TakeInput(n, known);
      assert n >= |c.input| ==> ByteBuffer.Take(c.input, n) == c.input && ByteBuffer.Drop(c.input, n) == [];
    }

    method DoCall(call: M.Call, ghost known: set<Channel>)
      requires Valid(known)
      modifies this, channel`events, channel`index, channel.poller, inputBuffer, outputBuffer, outputBuffer.data
      ensures Valid(known) && Others() == old(Others())
      ensures inputBuffer.data == old(inputBuffer.data)
      ensures outputBuffer.data == old(outputBuffer.data) || fresh(outputBuffer.data)
      ensures Abs(known) == M.DoCall(old(Abs(known)), call)
    {
      match call
      case Send(msg, wish) => Send(msg, wish, true, known);
      case Shutdown => Shutdown(true, known);
      case Retrieve(n) => Take(n, known);
      case Slip(f) => Interfere(f, known);
    }

    /** The body of a user callback. */
    method DoCalls(calls: seq<M.Call>, ghost known: set<Channel>)
      requires Valid(known)
      modifies this, channel`events, channel`index, channel.poller, inputBuffer, outputBuffer, outputBuffer.data
      ensures Valid(known) && Others() == old(Others())
      ensures inputBuffer.data == old(inputBuffer.data)
      ensures outputBuffer.data == old(outputBuffer.data) || fresh(outputBuffer.data)
      ensures Abs(known) == M.DoCalls(old(Abs(known)), calls)
    {
      var i := 0;
      while i < |calls|
        invariant 0 <= i <= |calls|
        invariant Valid(known) && Others() == old(Others())
        invariant inputBuffer.data == old(inputBuffer.data)
        invariant outputBuffer.data == old(outputBuffer.data) || fresh(outputBuffer.data)
        invariant Abs(known) == M.DoCalls(old(Abs(known)), calls[..i])
      {
        DoCall(calls[i], known);
        i := i + 1;
        assert calls[..i][..i - 1] == calls[..i - 1];
      }
      assert calls[..i] == calls;
    }

    // ---------------------------------------------------------------- handlers

    method SetState(state: M.State, ghost known: set<Channel>)
      requires Valid(known)
      modifies this`state
      ensures Valid(known) && Others() == old(Others())
      ensures Abs(known) == old(Abs(known)).(state := state)
    {
      this.state := state;
    }

    method CallUser(ghost u: M.Upcall, ghost known: set<Channel>)
      requires Valid(known)
      modifies this`upcalls
      ensures Valid(known) && Others() == old(Others())
      ensures Abs(known) == M.Notify(old(Abs(known)), u)
    {
      Notify(u);
    }

    method SetUp(state: M.State, q: Request, ghost u: M.Upcall, ghost known: set<Channel>)
      requires Valid(known)
      modifies this`state, this`upcalls, channel`events, channel`index, channel.poller
      ensures Valid(known) && Others() == old(Others())
      ensures Abs(known) == M.Notify(M.Watch(old(Abs(known)).(state := state), q), u)
    {
      hide Valid, Others, M.Watch, M.Notify;
      SetState(state, known);
      Watch(q, known);
      CallUser(u, known);
    }

    method ConnectEstablished(calls: seq<M.Call>, ghost known: set<Channel>)
      requires Valid(known)
      modifies this, channel`events, channel`index, channel`tied, channel.poller
      modifies inputBuffer, inputBuffer.data, outputBuffer, outputBuffer.data
      ensures Valid(known) && Others() == old(Others())
      ensures inputBuffer.data == old(inputBuffer.data) || fresh(inputBuffer.data)
      ensures outputBuffer.data == old(outputBuffer.data) || fresh(outputBuffer.data)
      ensures Abs(known) == M.ConnectEstablished(old(Abs(known)), calls) && channel.tied
    {
      channel.Tie();
      SetUp(M.Connected, EnableReading, M.Up, known);
      DoCalls(calls, known);
    }

    method BeginClose(ghost known: set<Channel>)
      requires Valid(known)
      modifies this`state, this`upcalls, this`closes, channel`events, channel`index, channel.poller
      ensures Valid(known) && Others() == old(Others())
      ensures Abs(known) == M.CloseBegins(old(Abs(known)))
    {
      hide Agree, Clear, SliceOf;
      ghost var records := channel.poller.Abs(known);
      closes := closes + 1;
      assert channel.poller.Abs(known) == records;
      SetUp(M.Disconnected, DisableAll, M.Down, known);
    }

    /** closeCallback_: the server is asked to remove the connection. */
    method AskForRemoval(ghost known: set<Channel>)
      requires Valid(known)
      modifies this`removalsOwed
      ensures Valid(known) && Others() == old(Others())
      ensures Abs(known) == old(Abs(known)).(removalsOwed := old(removalsOwed) + 1)
    {
      removalsOwed := removalsOwed + 1;
    }

    method HandleClose(calls: seq<M.Call>, ghost known: set<Channel>)
      requires Valid(known)
      modifies this, channel`events, channel`index, channel.poller, inputBuffer, outputBuffer, outputBuffer.data
      ensures Valid(known) && Others() == old(Others())
      ensures inputBuffer.data == old(inputBuffer.data)
      ensures outputBuffer.data == old(outputBuffer.data) || fresh(outputBuffer.data)
      ensures Abs(known) == M.HandleClose(old(Abs(known)), calls)
    {
      hide Valid, Others, M.CloseBegins, M.DoCalls;
      BeginClose(known);
      DoCalls(calls, known);
      AskForRemoval(known);
    }

    /** readFd on the input buffer, and the message callback when something came. */
    method Receive(answer: ReadAnswer, ghost known: set<Channel>) returns (n: int)
      requires Valid(known)
      requires answer.Data? ==> |answer.bytes| <= inputBuffer.Abs().layout.Offered()
      modifies this`upcalls, this`received, inputBuffer, inputBuffer.data
      ensures Valid(known) && Others() == old(Others())
      ensures inputBuffer.data == old(inputBuffer.data) || fresh(inputBuffer.data)
      ensures n == if answer.Data? then |answer.bytes| else -1
      ensures n <= 0 ==> Abs(known) == old(Abs(known))
      ensures n > 0 ==> Abs(known) == M.Notify(M.Received(old(Abs(known)), answer.bytes), M.Message)
    {
      hide Agree, Clear, SliceOf;
      ghost var c, records := Abs(known), channel.poller.Abs(known);
      n := inputBuffer.ReadFd(answer);
      if n > 0 {
        received := received + answer.bytes;
        Notify(M.Message);
      }
      assert channel.poller.Abs(known) == records;
      assert c.input + [] == c.input;
      assert Abs(known) == c.(input := inputBuffer.Abs().contents, upcalls := upcalls, received := received);
    }

    method HandleRead(answer: ReadAnswer, calls: seq<M.Call>, ghost known: set<Channel>)
      requires Valid(known)
      requires answer.Data? ==> |answer.bytes| <= inputBuffer.Abs().layout.Offered()
      modifies this, channel`events, channel`index, channel`tied, channel.poller
      modifies inputBuffer, inputBuffer.data, outputBuffer, outputBuffer.data
      ensures Valid(known) && Others() == old(Others())
      ensures inputBuffer.data == old(inputBuffer.data) || fresh(inputBuffer.data)
      ensures outputBuffer.data == old(outputBuffer.data) || fresh(outputBuffer.data)
      ensures Abs(known) == M.HandleRead(old(Abs(known)), answer, calls)
    {
      hide Valid, Others, M.DoCalls, M.HandleClose;
      var n := Receive(answer, known);
      if n > 0 {
        DoCalls(calls, known);
      } else if n == 0 {
        HandleClose(calls, known);
      }
    }

    /** channel_->remove(): the poller forgets the channel. */
    method Unregister(ghost known: set<Channel>)
      requires Valid(known)
      modifies channel`index, channel.poller
      ensures Valid(known) && Others() == old(Others())
      ensures Abs(known) == old(Abs(known)).(chan := DropSlice(old(Abs(known)).chan))
    {
      ghost var before := channel.poller.Abs(known);
      channel.RemoveSelf(known);
      DropKeepsAgreementIff(before, channel);
      DropIsLocal(before, channel, channel);
      TouchesOneDescriptor(before, channel, NONE_EVENT);
    }

    method CountDestroy(ghost known: set<Channel>)
      requires Valid(known)
      modifies this`destroys
      ensures Valid(known) && Others() == old(Others())
      ensures Abs(known) == old(Abs(known)).(destroys := old(destroys) + 1)
    {
      destroys := destroys + 1;
    }

    method ConnectDestroyed(calls: seq<M.Call>, ghost known: set<Channel>)
      requires Valid(known)
      modifies this, channel`events, channel`index, channel.poller, inputBuffer, outputBuffer, outputBuffer.data
      ensures Valid(known) && Others() == old(Others())
      ensures inputBuffer.data == old(inputBuffer.data)
      ensures outputBuffer.data == old(outputBuffer.data) || fresh(outputBuffer.data)
      ensures Abs(known) == M.ConnectDestroyed(old(Abs(known)), calls)
    {
      hide Valid, Others, M.DoCalls, M.Watch, DropSlice;
      if state == M.Connected {
        SetUp(M.Disconnected, DisableAll, M.Down, known);
        DoCalls(calls, known);
      }
      Unregister(known);
      CountDestroy(known);
    }

    method React(cb: Callback, r: M.Reaction, ghost known: set<Channel>)
      requires Valid(known)
      requires cb.OnRead? && r.answer.Data? ==> |r.answer.bytes| <= inputBuffer.Abs().layout.Offered()
      modifies this, channel`events, channel`index, channel`tied, channel.poller
      modifies inputBuffer, inputBuffer.data, outputBuffer, outputBuffer.data
      ensures Valid(known) && Others() == old(Others())
      ensures inputBuffer.data == old(inputBuffer.data) || fresh(inputBuffer.data)
      ensures outputBuffer.data == old(outputBuffer.data) || fresh(outputBuffer.data)
      ensures Abs(known) == M.React(old(Abs(known)), cb, r)
      ensures cb.OnError? ==> inputBuffer.Abs() == old(inputBuffer.Abs())
    {
      match cb
      case OnClose => HandleClose(r.calls, known);
      case OnError =>
      case OnRead => HandleRead(r.answer, r.calls, known);
      case OnWrite => HandleWrite(r.wish, known);
    }

    /** readv delivers no more than the input buffer offers: now, or, when user code may run in between
        and take bytes out, in the worst case. */
    ghost predicate Deliverable(answer: ReadAnswer, late: bool)
      requires inputBuffer.Valid()
      reads this, inputBuffer, inputBuffer.data
    {
      answer.Data? ==> |answer.bytes| <= if late then ByteBuffer.EXTRA_BUF else inputBuffer.Abs().layout.Offered()
    }

    lemma InputOffers(known: set<Channel>)
      requires Valid(known)
      ensures inputBuffer.Valid() && inputBuffer.Abs().layout.Offered() >= ByteBuffer.EXTRA_BUF
    {
      AlwaysOffered(inputBuffer);
    }

    method ReactAll(called: seq<Callback>, r: M.Reaction, ghost known: set<Channel>)
      requires Valid(known) && Deliverable(r.answer, !ReadsFirst(called))
      modifies this, channel`events, channel`index, channel`tied, channel.poller
      modifies inputBuffer, inputBuffer.data, outputBuffer, outputBuffer.data
      ensures Valid(known) && Others() == old(Others())
      ensures inputBuffer.data == old(inputBuffer.data) || fresh(inputBuffer.data)
      ensures outputBuffer.data == old(outputBuffer.data) || fresh(outputBuffer.data)
      ensures Abs(known) == M.ReactAll(old(Abs(known)), called, r)
    {
      hide Valid, Others, M.React, M.ReactAll;
      NoCallbacks(Abs(known), r);
      var i := 0;
      while i < |called|
        invariant 0 <= i <= |called|
        invariant Valid(known) && Others() == old(Others())
        invariant inputBuffer.data == old(inputBuffer.data) || fresh(inputBuffer.data)
        invariant outputBuffer.data == old(outputBuffer.data) || fresh(outputBuffer.data)
        invariant Abs(known) == M.ReactAll(old(Abs(known)), called[..i], r)
        invariant (forall k :: 0 <= k < i ==> called[k].OnError?) ==> inputBuffer.Abs() == old(inputBuffer.Abs())
      {
        InputOffers(known);
        OneMoreCallback(old(Abs(known)), called, i, r);
        React(called[i], r, known);
        i := i + 1;
      }
      assert called[..i] == called;
    }

    /** The channel reports events: the handlers run in the channel's order, and none does once the
        connection's owner is gone. */
    method HandleEvent(ownerAlive: bool, r: M.Reaction, ghost known: set<Channel>)
      requires Valid(known) && Deliverable(r.answer, HangUpWithUrgentOnly(channel.revents))
      modifies this, channel`events, channel`index, channel`tied, channel.poller
      modifies inputBuffer, inputBuffer.data, outputBuffer, outputBuffer.data
      ensures Valid(known) && Others() == old(Others())
      ensures inputBuffer.data == old(inputBuffer.data) || fresh(inputBuffer.data)
      ensures outputBuffer.data == old(outputBuffer.data) || fresh(outputBuffer.data)
      ensures Abs(known) == if old(channel.tied) && !ownerAlive then old(Abs(known))
                            else M.HandleEvent(old(Abs(known)), channel.revents, r)
    {
      hide Answers, Dispatch, Others, ReadsFirst, M.ReactAll, Agree, Clear, SliceOf;
      var called := channel.HandleEvent(ownerAlive);
      AlwaysOffered(inputBuffer);
      ReadsComeFirst(channel.revents);
      NoCallbacks(Abs(known), r);
      ReactAll(called, r, known);
    }

    /** The connection's next functor runs. */
    method RunTask(wish: WriteAnswer, calls: seq<M.Call>, ghost known: set<Channel>)
      requires Valid(known) && queue != []
      modifies this, channel`events, channel`index, channel.poller, inputBuffer, outputBuffer, outputBuffer.data
      ensures Valid(known) && Others() == old(Others())
      ensures inputBuffer.data == old(inputBuffer.data)
      ensures outputBuffer.data == old(outputBuffer.data) || fresh(outputBuffer.data)
      ensures Abs(known) == M.RunTask(old(Abs(known)), wish, calls)
    {
      hide Valid, Others, M.SendInLoop, M.ConnectDestroyed, M.DoCalls, M.ShutdownInLoop;
      var task := Pop(known);
      match task
      case SendTask(msg) => SendInLoop(msg, wish, known);
      case ShutdownTask => ShutdownInLoop(known);
      case WriteCompleteTask => Upcall(M.WriteComplete, calls, known);
      case HighWaterTask(level) => Upcall(M.HighWater(level), calls, known);
      case DestroyTask => ConnectDestroyed(calls, known);
    }

    method Pop(ghost known: set<Channel>) returns (task: M.Task)
      requires Valid(known) && queue != []
      modifies this`queue
      ensures Valid(known) && Others() == old(Others()) && task == old(queue)[0]
      ensures Abs(known) == old(Abs(known)).(queue := old(queue)[1..])
    {
      task := queue[0];
      queue := queue[1..];
    }

    method Upcall(ghost u: M.Upcall, calls: seq<M.Call>, ghost known: set<Channel>)
      requires Valid(known)
      modifies this, channel`events, channel`index, channel.poller, inputBuffer, outputBuffer, outputBuffer.data
      ensures Valid(known) && Others() == old(Others())
      ensures inputBuffer.data == old(inputBuffer.data)
      ensures outputBuffer.data == old(outputBuffer.data) || fresh(outputBuffer.data)
      ensures Abs(known) == M.DoCalls(M.Notify(old(Abs(known)), u), calls)
    {
      hide Valid, Others, M.DoCalls, M.Notify;
      CallUser(u, known);
      DoCalls(calls, known);
    }
  }
}
