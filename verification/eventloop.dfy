/** The cross-thread functor queue and wake-up protocol of src/EventLoop.cpp: one loop thread, any
    number of other threads, every interleaving of their atomic steps. */
module LoopProtocol {
  type Thread = nat

  // ------------------------------------------------------------------ shared variables

  /** What threads share: quit_, callingPendingFunctors_, pendingFunctors_ and the eventfd counter. */
  datatype Shared<F> = Shared(quit: bool, calling: bool, pending: seq<F>, counter: nat)

  /** The largest value an eventfd holds; a write beyond it fails and leaves the counter alone. */
  const EVENTFD_MAX: nat := 0xffff_ffff_ffff_fffe

  function Signal(counter: nat): (c: nat)
    ensures c > 0 && c >= counter
  {
    if counter < EVENTFD_MAX then counter + 1 else counter
  }

  // ------------------------------------------------------------------ states

  datatype Ready = Wakeup | Other

  /** Where the loop thread is: before loop(), at the while test, inside poll, handling the active
      channels still listed, past callingPendingFunctors_ = true, running the batch, or out of loop(). */
  datatype Pc = Idle | TestQuit | Polling | Handling(todo: seq<Ready>) | Entering | Running | Exited

  /** batch, next: the local functors vector and how many of it were started; selfOwes: the loop
      thread is between its own push and wakeup; pushers, quitters: other threads between their push,
      or quit_ = true, and their wakeup. enqueued, executed and latePolls are histories. */
  datatype Loop<F> = Loop(
    pc: Pc, sh: Shared<F>, batch: seq<F>, next: nat, selfOwes: bool,
    pushers: set<Thread>, quitters: set<Thread>,
    enqueued: seq<F>, executed: seq<F>, latePolls: nat)

  // ------------------------------------------------------------------ steps

  datatype Step<F> =
    | Start                          // quit_ = false on entry to loop()
    | Test                           // while (!quit_)
    | PollReturn(ready: seq<Ready>)  // epoll_wait answers, or times out with nothing
    | HandleWakeup                   // EventLoop::handleRead drains the eventfd
    | HandleOther                    // another channel's handler ends
    | Enter                          // callingPendingFunctors_ = true
    | Swap
    | RunNext                        // the next functor of the batch starts
    | Leave                          // callingPendingFunctors_ = false
    | SelfPush(f: F)                 // queueInLoop by a handler or functor on the loop's own thread
    | SelfWake
    | SelfQuit
    | Push(t: Thread, f: F)          // queueInLoop by another thread: the guarded push ...
    | Wake(t: Thread)                // ... and its wakeup
    | SetQuit(t: Thread)             // quit by another thread: quit_ = true ...
    | QuitWake(t: Thread)            // ... and its wakeup

  /** User code runs on the loop thread inside a channel's handler or inside a functor. */
  predicate InUserCode<F>(s: Loop<F>) {
    || (s.pc.Handling? && s.pc.todo != [] && s.pc.todo[0].Other?)
    || (s.pc.Running? && 0 < s.next)
  }

  predicate Enabled<F>(s: Loop<F>, step: Step<F>) {
    match step
    case Start => s.pc.Idle?
    case Test => s.pc.TestQuit?
    case PollReturn(ready) => s.pc.Polling? && (Wakeup in ready ==> s.sh.counter > 0)
    case HandleWakeup => s.pc.Handling? && s.pc.todo != [] && s.pc.todo[0].Wakeup?
    case HandleOther => s.pc.Handling? && s.pc.todo != [] && s.pc.todo[0].Other?
    case Enter => s.pc.Handling? && s.pc.todo == []
    case Swap => s.pc.Entering?
    case RunNext => s.pc.Running? && s.next < |s.batch| && !s.selfOwes
    case Leave => s.pc.Running? && s.next == |s.batch| && !s.selfOwes
    case SelfPush(f) => InUserCode(s) && !s.selfOwes
    case SelfWake => s.selfOwes
    case SelfQuit => InUserCode(s) && !s.selfOwes
    case Push(t, f) => t !in s.pushers && t !in s.quitters
    case Wake(t) => t in s.pushers
    case SetQuit(t) => t !in s.pushers && t !in s.quitters
    case QuitWake(t) => t in s.quitters
  }

  function Pushed<F>(s: Loop<F>, f: F): Loop<F> {
    s.(sh := s.sh.(pending := s.sh.pending + [f]), enqueued := s.enqueued + [f])
  }

  function Signalled<F>(s: Loop<F>): Loop<F> {
    s.(sh := s.sh.(counter := Signal(s.sh.counter)))
  }

  function Apply<F>(s: Loop<F>, step: Step<F>): Loop<F>
    requires Enabled(s, step)
  {
    match step
    case Start => s.(pc := TestQuit, sh := s.sh.(quit := false))
    case Test => s.(pc := if s.sh.quit then Exited else Polling)
    case PollReturn(ready) => s.(pc := Handling(ready), latePolls := s.latePolls + if s.sh.quit then 1 else 0)
    case HandleWakeup => s.(pc := Handling(s.pc.todo[1..]), sh := s.sh.(counter := 0))
    case HandleOther => s.(pc := Handling(s.pc.todo[1..]))
    case Enter => s.(pc := Entering, sh := s.sh.(calling := true))
    case Swap => s.(pc := Running, batch := s.sh.pending, next := 0, sh := s.sh.(pending := []))
    case RunNext => s.(next := s.next + 1, executed := s.executed + [s.batch[s.next]])
    case Leave => s.(pc := TestQuit, batch := [], next := 0, sh := s.sh.(calling := false))
    case SelfPush(f) => Pushed(s, f).(selfOwes := s.sh.calling)
    case SelfWake => Signalled(s).(selfOwes := false)
    case SelfQuit => s.(sh := s.sh.(quit := true))
    case Push(t, f) => Pushed(s, f).(pushers := s.pushers + {t})
    case Wake(t) => Signalled(s).(pushers := s.pushers - {t})
    case SetQuit(t) => s.(sh := s.sh.(quit := true), quitters := s.quitters + {t})
    case QuitWake(t) => Signalled(s).(quitters := s.quitters - {t})
  }

  ghost predicate Next<F(!new)>(s: Loop<F>, s': Loop<F>) {
    exists step :: Enabled(s, step) && s' == Apply(s, step)
  }

  /** A loop that has not been entered; other threads may already have queued functors. */
  predicate Fresh<F(==)>(s: Loop<F>) {
    && s.pc.Idle? && !s.sh.calling && s.batch == [] && s.next == 0 && !s.selfOwes
    && s.enqueued == s.sh.pending && s.executed == [] && s.latePolls == 0
  }

  ghost predicate IsRun<F(!new)>(run: seq<Loop<F>>) {
    && run != [] && Fresh(run[0])
    && forall i :: 0 <= i < |run| - 1 ==> Next(run[i], run[i + 1])
  }

  /** A functor is waiting and nothing will get the loop thread out of poll to run it. */
  predicate LostWakeup<F(==)>(s: Loop<F>) {
    s.pc.Polling? && s.sh.pending != [] && s.sh.counter == 0 && s.pushers == {}
  }

  /** The state a loop may be entered in: whatever is queued has been, or is about to be, signalled. */
  predicate SignalledStart<F(==)>(s: Loop<F>) {
    s.sh.pending == [] || s.sh.counter > 0 || s.pushers != {}
  }

  // ------------------------------------------------------------------ invariants

  /** Between one swap and the next handling phase, waiting functors are signalled or about to be. */
  predicate WakeInv<F(==)>(s: Loop<F>) {
    s.pc.Idle? || s.pc.TestQuit? || s.pc.Polling? || s.pc.Running? ==>
      s.sh.pending == [] || s.sh.counter > 0 || s.pushers != {} || s.selfOwes
  }

  predicate ControlInv<F(==)>(s: Loop<F>) {
    && (s.sh.calling <==> s.pc.Entering? || s.pc.Running?)
    && (s.selfOwes ==> s.pc.Running?)
    && s.next <= |s.batch|
    && (!s.pc.Running? ==> s.batch == [] && s.next == 0)
  }

  /** Functors are started in the order they were queued, each once. */
  predicate OrderInv<F(==)>(s: Loop<F>)
    requires s.next <= |s.batch|
  {
    s.executed + s.batch[s.next..] + s.sh.pending == s.enqueued
  }

  predicate QuitInv<F>(s: Loop<F>) {
    && s.latePolls <= 1
    && (s.pc.Polling? ==> s.latePolls == 0)
    && (s.pc.Idle? ==> s.latePolls == 0)
    && (s.latePolls == 1 ==> s.sh.quit)
    && (s.pc.Polling? && s.sh.quit ==> s.sh.counter > 0 || s.quitters != {})
  }

  lemma StepKeepsWake<F>(s: Loop<F>, step: Step<F>)
    requires Enabled(s, step) && ControlInv(s) && WakeInv(s)
    ensures ControlInv(Apply(s, step)) && WakeInv(Apply(s, step))
  {
  }

  lemma StepKeepsQuit<F>(s: Loop<F>, step: Step<F>)
    requires Enabled(s, step) && ControlInv(s) && QuitInv(s)
    ensures QuitInv(Apply(s, step))
  {
  }

  lemma StepKeepsOrder<F>(s: Loop<F>, step: Step<F>)
    requires Enabled(s, step) && ControlInv(s) && OrderInv(s)
    ensures ControlInv(Apply(s, step)) && OrderInv(Apply(s, step))
  {
    match step
    case RunNext =>
      assert s.batch[s.next..] == [s.batch[s.next]] + s.batch[s.next + 1..];
    case SelfPush(f) =>
      assert s.executed + s.batch[s.next..] + (s.sh.pending + [f]) == s.enqueued + [f];
    case Push(t, f) =>
      assert s.executed + s.batch[s.next..] + (s.sh.pending + [f]) == s.enqueued + [f];
    case _ =>
  }

  lemma {:induction false} RunInvariants<F(!new)>(run: seq<Loop<F>>, i: nat)
    requires IsRun(run) && i < |run|
    ensures ControlInv(run[i]) && OrderInv(run[i]) && QuitInv(run[i])
    ensures SignalledStart(run[0]) ==> WakeInv(run[i])
  {
    if i > 0 {
      RunInvariants(run, i - 1);
      assert Next(run[i - 1], run[i]);
      var step :| Enabled(run[i - 1], step) && run[i] == Apply(run[i - 1], step);
      StepKeepsOrder(run[i - 1], step);
      StepKeepsQuit(run[i - 1], step);
      if SignalledStart(run[0]) {
        StepKeepsWake(run[i - 1], step);
      }
    }
  }

  // ------------------------------------------------------------------ theorems

  /** No interleaving loses a wake-up, whatever functors and handlers queue; and this holds exactly of
      loops entered with everything already queued signalled or about to be. */
  lemma NoLostWakeupIff<F(!new)>(s: Loop<F>)
    requires Fresh(s)
    ensures (forall run :: IsRun(run) && run[0] == s ==> forall i :: 0 <= i < |run| ==> !LostWakeup(run[i]))
            <==> SignalledStart(s)
  {
    if SignalledStart(s) {
      forall run, i | IsRun(run) && run[0] == s && 0 <= i < |run|
        ensures !LostWakeup(run[i])
      {
        RunInvariants(run, i);
      }
    } else {
      var s1 := Apply(s, Start);
      var s2 := Apply(s1, Test);
      var run := [s, s1, s2];
      assert Next(s, s1) && Next(s1, s2);
      assert IsRun(run) && run[0] == s && LostWakeup(run[2]);
    }
  }

  /** At every moment of every run the functors started, the rest of the batch and the queue are
      together the history of the queue, in order. */
  lemma FunctorsRunOnceInOrder<F(!new)>(run: seq<Loop<F>>, i: nat)
    requires IsRun(run) && i < |run|
    ensures run[i].next <= |run[i].batch|
    ensures run[i].executed + run[i].batch[run[i].next..] + run[i].sh.pending == run[i].enqueued
  {
    RunInvariants(run, i);
  }

  /** s is inside the pass over the functors that were pending in e, and has started a prefix of them. */
  predicate PassSoFar<F(==)>(e: Loop<F>, s: Loop<F>) {
    && s.batch == e.sh.pending && s.next <= |s.batch|
    && s.executed == e.executed + e.sh.pending[..s.next]
  }

  /** While the batch runs, a step leaves it alone, and starts its next functor or none. */
  lemma RunningMoves<F>(s: Loop<F>, step: Step<F>)
    requires Enabled(s, step) && s.pc.Running? && Apply(s, step).pc.Running?
    ensures var s' := Apply(s, step);
            && s'.batch == s.batch
            && (step.RunNext? ==> s.next < |s.batch| && s'.next == s.next + 1 && s'.executed == s.executed + [s.batch[s.next]])
            && (!step.RunNext? ==> s'.next == s.next && s'.executed == s.executed)
  {
  }

  lemma EnteringMoves<F>(s: Loop<F>, step: Step<F>)
    requires Enabled(s, step) && s.pc.Entering? && Apply(s, step).pc.Running?
    ensures var s' := Apply(s, step); s'.batch == s.sh.pending && s'.next == 0 && s'.executed == s.executed
  {
  }

  lemma StepKeepsPass<F(!new)>(e: Loop<F>, s: Loop<F>, s': Loop<F>)
    requires Next(s, s') && s'.pc.Running?
    requires (s == e && e.pc.Entering?) || (s.pc.Running? && PassSoFar(e, s))
    ensures PassSoFar(e, s')
  {
    hide Enabled, Apply;
    var step :| Enabled(s, step) && s' == Apply(s, step);
    if s.pc.Entering? {
      EnteringMoves(s, step);
    } else {
      RunningMoves(s, step);
      if step.RunNext? {
        assert s'.executed == (e.executed + s.batch[..s.next]) + [s.batch[s.next]];
        assert s.batch[..s.next] + [s.batch[s.next]] == s.batch[..s.next + 1];
      }
    }
  }

  /** From a swap on, as long as doPendingFunctors is not left, exactly a prefix of what was pending at
      the swap is run, whatever is queued meanwhile; so it ends after that many functors. */
  lemma {:induction false} PassRunsItsBatch<F(!new)>(run: seq<Loop<F>>, i: nat, j: nat)
    requires IsRun(run) && i < j < |run|
    requires run[i].pc.Entering?
    requires forall k :: i < k <= j ==> run[k].pc.Running?
    ensures PassSoFar(run[i], run[j])
  {
    if j - 1 > i {
      PassRunsItsBatch(run, i, j - 1);
    }
    StepKeepsPass(run[i], run[j - 1], run[j]);
  }

  /** When doPendingFunctors is left, it has run all that was pending at its swap and nothing else. */
  lemma PassRunsWholeBatch<F(!new)>(run: seq<Loop<F>>, i: nat, j: nat)
    requires IsRun(run) && i < j < |run| - 1
    requires run[i].pc.Entering? && run[j + 1].pc.TestQuit?
    requires forall k :: i < k <= j ==> run[k].pc.Running?
    ensures run[j + 1].executed == run[i].executed + run[i].sh.pending
  {
    PassRunsItsBatch(run, i, j);
    assert Next(run[j], run[j + 1]);
    var step :| Enabled(run[j], step) && run[j + 1] == Apply(run[j], step);
    assert run[i].sh.pending[..|run[i].sh.pending|] == run[i].sh.pending;
  }

  /** quit_ set inside a running loop stays set, is never stuck behind poll, and lets poll return at
      most once more, after which the loop never polls again. */
  lemma {:induction false} QuitProgress<F(!new)>(run: seq<Loop<F>>, i: nat, j: nat)
    requires IsRun(run) && i <= j < |run|
    requires run[i].sh.quit && !run[i].pc.Idle?
    ensures run[j].sh.quit && !run[j].pc.Idle?
    ensures run[j].pc.Polling? ==> run[j].sh.counter > 0 || run[j].quitters != {}
    ensures run[j].latePolls <= 1 && (run[j].latePolls == 1 ==> !run[j].pc.Polling?)
    ensures !run[i].pc.Polling? ==> !run[j].pc.Polling?
    decreases j - i
  {
    RunInvariants(run, j);
    if i < j {
      QuitProgress(run, i, j - 1);
      assert Next(run[j - 1], run[j]);
    }
  }

  /** Whatever drained the eventfd, the while test has found quit_ unset before the loop polls again. */
  lemma {:induction false} QuitTestedBeforePoll<F(!new)>(run: seq<Loop<F>>, i: nat, j: nat)
    requires IsRun(run) && i < j < |run|
    requires run[i].pc.Handling? && run[j].pc.Polling?
    ensures exists k :: i < k < j && run[k].pc.TestQuit? && !run[k].sh.quit
    decreases j - i
  {
    assert Next(run[j - 1], run[j]);
    if run[j - 1].pc.Polling? {
      QuitTestedBeforePoll(run, i, j - 1);
    } else {
      assert run[j - 1].pc.TestQuit? && !run[j - 1].sh.quit;
    }
  }

  // ------------------------------------------------------------------ the thread's way through loop()

  /** quit_ is reset on entry and never again, so a loop that was left had been asked to quit. */
  lemma {:induction false} LeftOnlyWhenQuit<F(!new)>(run: seq<Loop<F>>, i: nat)
    requires IsRun(run) && i < |run|
    ensures run[i].pc.Exited? ==> run[i].sh.quit
  {
    if i > 0 {
      LeftOnlyWhenQuit(run, i - 1);
      assert Next(run[i - 1], run[i]);
    }
  }

  /** From s to s' the loop thread moves on in loop(), or stays where it is. */
  predicate MovesOn<F(==)>(s: Loop<F>, s': Loop<F>) {
    match s.pc
    case Idle => s'.pc.TestQuit? && !s'.sh.quit
    case TestQuit => s'.pc == if s.sh.quit then Exited else Polling
    case Polling => s'.pc.Handling? && (Wakeup in s'.pc.todo ==> s.sh.counter > 0)
    case Handling(todo) =>
      if todo == [] then s'.pc.Entering? && s'.sh.calling
      else s'.pc == Handling(todo[1..]) && s'.sh.counter == if todo[0].Wakeup? then 0 else s.sh.counter
    case Entering => s'.pc.Running? && s'.batch == s.sh.pending && s'.next == 0 && s'.sh.pending == []
    case Running => s.next == |s.batch| && s'.pc.TestQuit? && !s'.sh.calling
    case Exited => false
  }

  /** The loop thread goes the way of loop() and no other: quit_ reset, tested before every poll and found
      unset; every reported channel handled, in the reported order, the eventfd drained when it is among
      them; then the whole queue taken over and run to its end before quit_ is tested again. */
  lemma EveryMoveIsOneOn<F(!new)>(run: seq<Loop<F>>, i: nat)
    requires IsRun(run) && i < |run| - 1
    ensures run[i + 1].pc == run[i].pc || MovesOn(run[i], run[i + 1])
  {
    assert Next(run[i], run[i + 1]);
  }

  /** A step of the loop thread that is not a call of user code. */
  predicate Driven<F>(step: Step<F>) {
    step.Start? || step.Test? || step.PollReturn? || step.HandleWakeup? || step.HandleOther? || step.Enter?
    || step.Swap? || step.RunNext? || step.Leave? || step.SelfWake?
  }

  predicate StartsNext<F(==)>(s: Loop<F>, s': Loop<F>) {
    s.pc.Running? && s.next < |s.batch| && s'.executed == s.executed + [s.batch[s.next]]
  }

  predicate Signals<F>(s: Loop<F>, s': Loop<F>) {
    s.selfOwes && !s'.selfOwes && s'.sh.counter > 0
  }

  /** The thread is never stuck: until it has left loop(), some step of its own is possible; it moves the
      thread on, or starts the next functor, or signals what a functor has just queued. */
  lemma ThreadIsNeverStuck<F(!new)>(run: seq<Loop<F>>, i: nat)
    requires IsRun(run) && i < |run| && !run[i].pc.Exited?
    ensures exists step :: Driven(step) && Enabled(run[i], step)
                           && var s' := Apply(run[i], step);
                              MovesOn(run[i], s') || StartsNext(run[i], s') || Signals(run[i], s')
  {
    RunInvariants(run, i);
    var s := run[i];
    var step: Step<F> :=
      match s.pc
      case Idle => Start
      case TestQuit => Test
      case Polling => PollReturn([])
      case Handling(todo) => if todo == [] then Enter else if todo[0].Wakeup? then HandleWakeup else HandleOther
      case Entering => Swap
      case Running => if s.selfOwes then SelfWake else if s.next < |s.batch| then RunNext else Leave
      case Exited => Leave;
    assert Driven(step) && Enabled(s, step);
  }

  /** Poll can return with any channels, the eventfd among them only when it has been signalled, and all of
      them are then to be handled. */
  lemma AnyReportIsTakenUp<F(!new)>(run: seq<Loop<F>>, i: nat, ready: seq<Ready>)
    requires IsRun(run) && i < |run| && run[i].pc.Polling? && (Wakeup in ready ==> run[i].sh.counter > 0)
    ensures exists s' :: Next(run[i], s') && s'.pc == Handling(ready) && s'.sh == run[i].sh
  {
    assert Next(run[i], Apply(run[i], PollReturn(ready)));
  }
}
