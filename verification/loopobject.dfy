/** EventLoop as an object (src/EventLoop.cpp): what its methods do when the calling thread is not
    interrupted, tied to the atomic steps of module LoopProtocol. */
module LoopObject {
  import opened LoopProtocol
  import Kernel
  import Registry
  import Reactor

  /** A functor, or a channel's handler, seen by the loop: the functors it queues on the same loop, in
      order, and whether it calls quit(). */
  datatype Functor = Functor(queues: seq<Functor>, quits: bool)

  /** What an active channel does when it is handled. */
  datatype Handler = DrainWakeup | UserHandler(body: Functor)

  // ------------------------------------------------------------------ specification

  function Queued<F>(sh: Shared<F>, f: F, wake: bool): Shared<F> {
    sh.(pending := sh.pending + [f], counter := if wake then Signal(sh.counter) else sh.counter)
  }

  function QueuedAll<F>(sh: Shared<F>, fs: seq<F>, wake: bool): (r: Shared<F>)
    ensures r.pending == sh.pending + fs
    ensures r.quit == sh.quit && r.calling == sh.calling
    ensures !wake ==> r.counter == sh.counter
    ensures wake && fs != [] ==> r.counter > 0
    ensures r.counter >= sh.counter
  {
    if fs == [] then sh
    else Queued(QueuedAll(sh, fs[..|fs| - 1], wake), fs[|fs| - 1], wake)
  }

  /** The functors queued by running fs, in order. */
  function Spawned(fs: seq<Functor>): seq<Functor> {
    if fs == [] then [] else Spawned(fs[..|fs| - 1]) + fs[|fs| - 1].queues
  }

  predicate AnyQuits(fs: seq<Functor>) {
    fs != [] && (AnyQuits(fs[..|fs| - 1]) || fs[|fs| - 1].quits)
  }

  /** queueInLoop from another thread is the two steps Push and Wake; from a handler it is SelfPush
      alone; from a functor it is SelfPush and SelfWake. */
  lemma QueueInLoopIsItsSteps<F>(s: Loop<F>, t: Thread, f: F)
    ensures t !in s.pushers && t !in s.quitters ==>
              Enabled(Apply(s, Push(t, f)), Wake(t))
              && Apply(Apply(s, Push(t, f)), Wake(t)) == s.(sh := Queued(s.sh, f, true), enqueued := s.enqueued + [f])
    ensures ControlInv(s) && InUserCode(s) && !s.selfOwes && !s.sh.calling ==>
              Apply(s, SelfPush(f)) == s.(sh := Queued(s.sh, f, false), enqueued := s.enqueued + [f])
    ensures ControlInv(s) && InUserCode(s) && !s.selfOwes && s.sh.calling ==>
              Enabled(Apply(s, SelfPush(f)), SelfWake)
              && Apply(Apply(s, SelfPush(f)), SelfWake) == s.(sh := Queued(s.sh, f, true), enqueued := s.enqueued + [f])
  {
    assert t !in s.pushers ==> s.pushers + {t} - {t} == s.pushers;
  }

  /** quit() from another thread is the two steps SetQuit and QuitWake, and leaves quit_ set and the eventfd
      signalled; from user code on the loop's own thread it is SelfQuit, and signals nothing. */
  lemma QuitIsItsSteps<F>(s: Loop<F>, t: Thread)
    ensures t !in s.pushers && t !in s.quitters ==>
              Enabled(Apply(s, SetQuit(t)), QuitWake(t))
              && Apply(Apply(s, SetQuit(t)), QuitWake(t)) == s.(sh := s.sh.(quit := true, counter := Signal(s.sh.counter)))
    ensures InUserCode(s) && !s.selfOwes ==> Apply(s, SelfQuit) == s.(sh := s.sh.(quit := true))
  {
    assert t !in s.quitters ==> s.quitters + {t} - {t} == s.quitters;
  }

  // ------------------------------------------------------------------ whole passes

  /** What the user code of the handled channels is, in order. */
  function Bodies(active: seq<Handler>): seq<Functor> {
    if active == [] then []
    else
      var last := active[|active| - 1];
      Bodies(active[..|active| - 1]) + if last.UserHandler? then [last.body] else []
  }

  /** No handler and no functor is passed over: what it queues is queued, and its quit counts. */
  lemma {:induction false} AllAreSpawned(fs: seq<Functor>, k: nat)
    requires k < |fs|
    ensures fs[k].quits ==> AnyQuits(fs)
    ensures forall f :: f in fs[k].queues ==> f in Spawned(fs)
  {
    if k < |fs| - 1 {
      AllAreSpawned(fs[..|fs| - 1], k);
    }
  }

  lemma {:induction false} BodyIsListed(active: seq<Handler>, k: nat)
    requires k < |active| && active[k].UserHandler?
    ensures active[k].body in Bodies(active)
  {
    if k < |active| - 1 {
      BodyIsListed(active[..|active| - 1], k);
    }
  }

  lemma AllAreHandled(active: seq<Handler>, k: nat)
    requires k < |active| && active[k].UserHandler?
    ensures active[k].body.quits ==> AnyQuits(Bodies(active))
    ensures forall f :: f in active[k].body.queues ==> f in Spawned(Bodies(active))
  {
    BodyIsListed(active, k);
    var j :| 0 <= j < |Bodies(active)| && Bodies(active)[j] == active[k].body;
    AllAreSpawned(Bodies(active), j);
  }

  /** What a loop has done and has to do: functors run, functors pending, and whether to stop. */
  datatype Work = Work(executed: seq<Functor>, pending: seq<Functor>, quit: bool)

  /** One pass: every handler runs, then every functor that was pending or was queued by a handler; what
      those functors queue is left for the next pass. */
  function Pass(w: Work, active: seq<Handler>): Work {
    var batch := w.pending + Spawned(Bodies(active));
    Work(w.executed + batch, Spawned(batch), w.quit || AnyQuits(Bodies(active)) || AnyQuits(batch))
  }

  function Passes(w: Work, polled: seq<seq<Handler>>): Work {
    if polled == [] then w else Pass(Passes(w, polled[..|polled| - 1]), polled[|polled| - 1])
  }

  /** The functors an uninterrupted loop queues in its passes, in order. */
  function Arrivals(w: Work, polled: seq<seq<Handler>>): seq<Functor> {
    if polled == [] then []
    else
      var init, last := polled[..|polled| - 1], polled[|polled| - 1];
      var before := Passes(w, init);
      Arrivals(w, init) + Spawned(Bodies(last)) + Spawned(before.pending + Spawned(Bodies(last)))
  }

  lemma Rearrange(ran: seq<Functor>, left: seq<Functor>, now: seq<Functor>, next: seq<Functor>,
                  first: seq<Functor>, all: seq<Functor>)
    requires ran + left == first + all
    ensures (ran + (left + now)) + next == first + ((all + now) + next)
  {
    assert (ran + (left + now)) + next == (ran + left) + now + next;
  }

  /** Over any number of passes the functors run, followed by those still pending, are what was pending
      at first followed by all that was queued since, in order: none is lost, run twice or overtaken. */
  lemma {:induction false} PassesKeepOrder(w: Work, polled: seq<seq<Handler>>)
    ensures Passes(w, polled).executed + Passes(w, polled).pending == w.executed + w.pending + Arrivals(w, polled)
  {
    if polled == [] {
      assert w.executed + w.pending + [] == w.executed + w.pending;
    } else {
      var init, last := polled[..|polled| - 1], polled[|polled| - 1];
      var before, now := Passes(w, init), Spawned(Bodies(last));
      PassesKeepOrder(w, init);
      Rearrange(before.executed, before.pending, now, Spawned(before.pending + now), w.executed + w.pending, Arrivals(w, init));
    }
  }

  // ------------------------------------------------------------------ the class

  class EventLoop {
    const threadId: Thread
    var quit: bool
    var callingPendingFunctors: bool
    var pendingFunctors: seq<Functor>
    var wakeupCounter: nat
    const poller: Reactor.EPollPoller
    const wakeupChannel: Reactor.Channel
    ghost var executed: seq<Functor>

    /** A loop with nothing queued, whose own poller watches the eventfd, and nothing else, for reading. */
    constructor (threadId: Thread, wakeupFd: int)
      ensures this.threadId == threadId && Abs() == Shared(false, false, [], 0) && executed == []
      ensures fresh(poller) && fresh(wakeupChannel) && wakeupChannel.poller == poller && wakeupChannel.fd == wakeupFd
      ensures Registry.Agree(poller.Abs({wakeupChannel}))
      ensures poller.kernel == map[wakeupFd := Kernel.Interest(Registry.READ_EVENT, wakeupChannel)]
    {
      this.threadId := threadId;
      quit, callingPendingFunctors, pendingFunctors, wakeupCounter := false, false, [], 0;
      executed := [];
      var made := new Reactor.EPollPoller();
      var channel := new Reactor.Channel(made, wakeupFd);
      poller, wakeupChannel := made, channel;
      new;
      ghost var before := poller.Abs({wakeupChannel});
      assert Registry.ChannelAgrees(before, wakeupChannel);
      wakeupChannel.EnableReading({wakeupChannel});
      Registry.UpdateAgrees(before, wakeupChannel, Registry.READ_EVENT);
      assert Registry.NewEvents(Registry.NONE_EVENT, Registry.EnableReading) == Registry.READ_EVENT;
    }

    ghost function Abs(): Shared<Functor>
      reads this
    {
      Shared(quit, callingPendingFunctors, pendingFunctors, wakeupCounter)
    }

    method Wakeup()
      modifies this`wakeupCounter
      ensures wakeupCounter == Signal(old(wakeupCounter))
    {
      if wakeupCounter < EVENTFD_MAX {
        wakeupCounter := wakeupCounter + 1;
      }
    }

    method HandleRead()
      modifies this`wakeupCounter
      ensures wakeupCounter == 0
    {
      wakeupCounter := 0;
    }

    method QueueInLoop(cb: Functor, caller: Thread)
      modifies this`pendingFunctors, this`wakeupCounter
      ensures Abs() == Queued(old(Abs()), cb, caller != threadId || callingPendingFunctors)
    {
      pendingFunctors := pendingFunctors + [cb];
      if caller != threadId || callingPendingFunctors {
        Wakeup();
      }
    }

    /** Runs cb at once on the loop's own thread, and queues and signals it from any other. */
    method RunInLoop(cb: Functor, caller: Thread)
      modifies this
      ensures caller != threadId ==> Abs() == Queued(old(Abs()), cb, true) && executed == old(executed)
      ensures caller == threadId ==>
                && executed == old(executed) + [cb]
                && Abs() == QueuedAll(old(Abs()), cb.queues, old(callingPendingFunctors)).(quit := old(quit) || cb.quits)
    {
      if caller == threadId {
        Call(cb);
      } else {
        QueueInLoop(cb, caller);
      }
    }

    method Quit(caller: Thread)
      modifies this`quit, this`wakeupCounter
      ensures quit
      ensures wakeupCounter == if caller != threadId then Signal(old(wakeupCounter)) else old(wakeupCounter)
    {
      quit := true;
      if caller != threadId {
        Wakeup();
      }
    }

    /** One functor runs on the loop thread. */
    method Call(f: Functor)
      modifies this
      ensures executed == old(executed) + [f]
      ensures Abs() == QueuedAll(old(Abs()), f.queues, old(callingPendingFunctors)).(quit := old(quit) || f.quits)
    {
      executed := executed + [f];
      RunBody(f);
    }

    method RunBody(f: Functor)
      modifies this`quit, this`pendingFunctors, this`wakeupCounter
      ensures Abs() == QueuedAll(old(Abs()), f.queues, old(callingPendingFunctors)).(quit := old(quit) || f.quits)
    {
      var i := 0;
      while i < |f.queues|
        invariant 0 <= i <= |f.queues|
        invariant Abs() == QueuedAll(old(Abs()), f.queues[..i], old(callingPendingFunctors))
      {
        QueueInLoop(f.queues[i], threadId);
        i := i + 1;
        assert f.queues[..i][..i - 1] == f.queues[..i - 1];
      }
      assert f.queues[..i] == f.queues;
      if f.quits {
        Quit(threadId);
      }
    }

    /** Runs exactly what was pending at the swap, in order; what those functors queue is left pending,
        in order, and signalled. */
    method DoPendingFunctors()
      modifies this
      ensures executed == old(executed) + old(pendingFunctors)
      ensures pendingFunctors == Spawned(old(pendingFunctors))
      ensures !callingPendingFunctors && wakeupCounter >= old(wakeupCounter)
      ensures pendingFunctors != [] ==> wakeupCounter > 0
      ensures pendingFunctors == [] ==> wakeupCounter == old(wakeupCounter)
      ensures quit == (old(quit) || AnyQuits(old(pendingFunctors)))
    {
      callingPendingFunctors := true;
      var functors := pendingFunctors;
      pendingFunctors := [];
      var i := 0;
      while i < |functors|
        invariant 0 <= i <= |functors| && callingPendingFunctors
        invariant executed == old(executed) + functors[..i]
        invariant pendingFunctors == Spawned(functors[..i])
        invariant wakeupCounter >= old(wakeupCounter) && (pendingFunctors != [] ==> wakeupCounter > 0)
        invariant pendingFunctors == [] ==> wakeupCounter == old(wakeupCounter)
        invariant quit == (old(quit) || AnyQuits(functors[..i]))
      {
        Call(functors[i]);
        assert functors[..i + 1][..i] == functors[..i];
        i := i + 1;
      }
      assert functors[..i] == functors;
      callingPendingFunctors := false;
    }

    /** What this loop has done and has to do. */
    ghost function Done(): Work
      reads this
    {
      Work(executed, pendingFunctors, quit)
    }

    /** One active channel is handled. */
    method Handle(h: Handler)
      requires !callingPendingFunctors
      modifies this
      ensures !callingPendingFunctors && executed == old(executed)
      ensures pendingFunctors == old(pendingFunctors) + if h.UserHandler? then h.body.queues else []
      ensures quit == (old(quit) || (h.UserHandler? && h.body.quits))
      ensures wakeupCounter == if h.DrainWakeup? then 0 else old(wakeupCounter)
    {
      match h
      case DrainWakeup => HandleRead();
      case UserHandler(body) => RunBody(body);
    }

    /** The body of loop()'s while: every active channel is handled, in order, then every functor pending by
        then is run, in order. A functor that those have queued is pending and signalled at the end; the
        eventfd is drained if it was among the active channels and nobody signalled it since. */
    method Iterate(active: seq<Handler>)
      requires !callingPendingFunctors
      modifies this
      ensures !callingPendingFunctors
      ensures Done() == Pass(old(Done()), active)
      ensures executed[|old(executed)|..] == old(pendingFunctors) + Spawned(Bodies(active))
      ensures forall k :: 0 <= k < |active| && active[k].UserHandler? ==>
                && (active[k].body.quits ==> quit)
                && (forall f :: f in active[k].body.queues ==> f in executed[|old(executed)|..])
      ensures pendingFunctors != [] ==> wakeupCounter > 0
      ensures pendingFunctors == [] ==> wakeupCounter == if DrainWakeup in active then 0 else old(wakeupCounter)
    {
      hide Bodies, Spawned, AnyQuits;
      NoBodies();
      assert pendingFunctors + [] == pendingFunctors;
      var i := 0;
      while i < |active|
        invariant 0 <= i <= |active| && !callingPendingFunctors
        invariant executed == old(executed)
        invariant pendingFunctors == old(pendingFunctors) + Spawned(Bodies(active[..i]))
        invariant quit == (old(quit) || AnyQuits(Bodies(active[..i])))
        invariant wakeupCounter == if DrainWakeup in active[..i] then 0 else old(wakeupCounter)
      {
        assert active[..i + 1] == active[..i] + [active[i]];
        OneMoreBody(active[..i], active[i]);
        Handle(active[i]);
        i := i + 1;
      }
      assert active[..i] == active;
      forall k | 0 <= k < |active| && active[k].UserHandler?
        ensures active[k].body.quits ==> quit
        ensures forall f :: f in active[k].body.queues ==> f in pendingFunctors
      {
        AllAreHandled(active, k);
      }
      DoPendingFunctors();
    }

    /** loop(): quit_ is reset, and passes are made, one for each answer of poll, until quit_ is found set
        or there is no further answer. So it returns after the first pass in which quit() was called. */
    method Loop(polled: seq<seq<Handler>>) returns (passes: nat)
      requires !callingPendingFunctors
      modifies this
      ensures !callingPendingFunctors && passes <= |polled|
      ensures Done() == Passes(old(Done()).(quit := false), polled[..passes])
      ensures forall k :: 0 <= k < passes ==> !Passes(old(Done()).(quit := false), polled[..k]).quit
      ensures passes < |polled| ==> quit
    {
      ghost var w := Done().(quit := false);
      quit := false;
      passes := 0;
      while !quit && passes < |polled|
        invariant passes <= |polled| && !callingPendingFunctors
        invariant Done() == Passes(w, polled[..passes])
        invariant forall k :: 0 <= k < passes ==> !Passes(w, polled[..k]).quit
        decreases |polled| - passes
      {
        assert polled[..passes + 1][..passes] == polled[..passes];
        Iterate(polled[passes]);
        passes := passes + 1;
      }
    }
  }

  lemma NoBodies()
    ensures Bodies([]) == [] && Spawned([]) == [] && !AnyQuits([])
  {
  }

  lemma OneMoreBody(active: seq<Handler>, h: Handler)
    ensures var more := if h.UserHandler? then [h.body] else [];
            && Spawned(Bodies(active + [h])) == Spawned(Bodies(active)) + (if h.UserHandler? then h.body.queues else [])
            && AnyQuits(Bodies(active + [h])) == (AnyQuits(Bodies(active)) || (h.UserHandler? && h.body.quits))
  {
    assert (active + [h])[..|active|] == active;
    if h.UserHandler? {
      assert (Bodies(active) + [h.body])[..|Bodies(active)|] == Bodies(active);
    } else {
      assert Bodies(active) + [] == Bodies(active) && Spawned(Bodies(active)) + [] == Spawned(Bodies(active));
    }
  }
}
