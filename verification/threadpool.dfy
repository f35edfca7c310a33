/** EventLoopThreadPool (src/EventLoopThreadPool.cpp): the rotation that gives each new connection its loop. */
module ThreadPool {
  type LoopId = nat

  datatype Pool = Pool(base: LoopId, loops: seq<LoopId>, next: nat) {
    predicate Valid() {
      loops == [] || next < |loops|
    }
  }

  function NextLoop(p: Pool): LoopId
    requires p.Valid()
  {
    if p.loops == [] then p.base else p.loops[p.next]
  }

  function Advance(p: Pool): (q: Pool)
    requires p.Valid()
    ensures q.Valid() && q.loops == p.loops && q.base == p.base
  {
    if p.loops == [] then p
    else p.(next := if p.next + 1 >= |p.loops| then 0 else p.next + 1)
  }

  /** The pool after k calls of getNextLoop. */
  function AfterCalls(p: Pool, k: nat): (q: Pool)
    requires p.Valid()
    ensures q.Valid() && q.loops == p.loops && q.base == p.base
  {
    if k == 0 then p else Advance(AfterCalls(p, k - 1))
  }

  /** How many of the first k calls were answered from position i. */
  function Given(p: Pool, k: nat, i: nat): nat
    requires p.Valid()
  {
    if k == 0 then 0 else Given(p, k - 1, i) + if AfterCalls(p, k - 1).next == i then 1 else 0
  }

  lemma AtLeastOnce(d: int, n: int)
    requires n >= 0
    ensures d >= 1 ==> d * n >= n
    ensures d <= -1 ==> d * n <= -n
  {
  }

  lemma RemainderIs(k: nat, n: nat, q: nat, r: nat)
    requires n > 0 && k == q * n + r && r < n
    ensures k % n == r
  {
    var d := q - k / n;
    assert d * n == k % n - r by {
      assert d * n == q * n - k / n * n;
    }
    AtLeastOnce(d, n);
  }

  /** After k calls every position has been given out `rounds` times, and those before the next one
      once more. */
  lemma {:induction false} RoundsAfter(p: Pool, k: nat) returns (rounds: nat)
    requires p.loops != [] && p.next == 0
    ensures k == rounds * |p.loops| + AfterCalls(p, k).next
    ensures forall i :: 0 <= i < |p.loops| ==>
              Given(p, k, i) == rounds + if i < AfterCalls(p, k).next then 1 else 0
  {
    if k == 0 {
      rounds := 0;
    } else {
      rounds := RoundsAfter(p, k - 1);
      if AfterCalls(p, k - 1).next + 1 >= |p.loops| {
        rounds := rounds + 1;
      }
    }
  }

  /** The k-th call, counted from 0, answers with loop k mod n. */
  lemma KthLoop(p: Pool, k: nat)
    requires p.loops != [] && p.next == 0
    ensures NextLoop(AfterCalls(p, k)) == p.loops[k % |p.loops|]
  {
    var rounds := RoundsAfter(p, k);
    RemainderIs(k, |p.loops|, rounds, AfterCalls(p, k).next);
  }

  /** After any number of connections no loop has been given more than one connection more than another. */
  lemma Balanced(p: Pool, k: nat, i: nat, j: nat)
    requires p.loops != [] && p.next == 0 && i < |p.loops| && j < |p.loops|
    ensures Given(p, k, i) <= Given(p, k, j) + 1
  {
    var rounds := RoundsAfter(p, k);
  }

  class EventLoopThreadPool {
    const baseLoop: LoopId
    var started: bool
    var numThreads: nat
    var loops: seq<LoopId>
    var next: nat

    ghost predicate Valid()
      reads this
    {
      Abs().Valid()
    }

    ghost function Abs(): Pool
      reads this
    {
      Pool(baseLoop, loops, next)
    }

    constructor (baseLoop: LoopId)
      ensures Valid() && Abs() == Pool(baseLoop, [], 0) && !started && numThreads == 0
    {
      this.baseLoop := baseLoop;
      started, numThreads, loops, next := false, 0, [], 0;
    }

    method SetThreadNum(numThreads: nat)
      modifies this`numThreads
      ensures this.numThreads == numThreads
    {
      this.numThreads := numThreads;
    }

    /** start: one loop per thread, in the order in which startLoop() delivers them. The init callback, if
        there is one, is called for every loop that will take connections: by each thread for its own
        loop, and by start for the base loop when there are no threads. */
    method Start(made: seq<LoopId>, cb: bool) returns (initialised: seq<LoopId>)
      requires Valid() && loops == [] && next == 0 && |made| == numThreads
      modifies this`started, this`loops
      ensures Valid() && started && Abs() == Pool(baseLoop, made, 0)
      ensures initialised == if !cb then [] else if made == [] then [baseLoop] else made
    {
      started := true;
      initialised := [];
      var i := 0;
      while i < numThreads
        invariant 0 <= i <= numThreads
        invariant started && loops == made[..i]
        invariant initialised == if cb then made[..i] else []
      {
        initialised := if cb then initialised + [made[i]] else initialised;
        loops := loops + [made[i]];
        i := i + 1;
      }
      assert made[..i] == made;
      if numThreads == 0 && cb {
        initialised := initialised + [baseLoop];
      }
    }

    method GetNextLoop() returns (loop: LoopId)
      requires Valid()
      modifies this`next
      ensures Valid() && loop == NextLoop(old(Abs())) && Abs() == Advance(old(Abs()))
    {
      loop := baseLoop;
      if loops != [] {
        loop := loops[next];
        next := next + 1;
        if next >= |loops| {
          next := 0;
        }
      }
    }
  }
}
