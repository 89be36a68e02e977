/** A pool that has not been stopped makes progress too: left to itself it reaches a state in which every
    thread inside run() sleeps and everything posted has been run. */
module PoolProgress {
  import opened Sums
  import opened Jobs
  import opened PoolProtocol
  import opened PoolDrain

  // ---------- Every internal step is progress ----------

  function LiveRank(pc: Pc): int {
    match pc
    case Outside => 0
    case Locking => 3
    case Checking => 2
    case Waiting => 0
    case Waking => 3
    case Serving => 1
    case Popped(job) => 6 + 3 * CostAll(job.nested, 2)
    case Running(job, posted, owes) =>
      5 + (if posted <= |job.nested| then 3 * CostAll(job.nested[posted..], 2) else 0) + if owes then 4 else 0
    case Relocking => 4
    case Returned => 0
  }

  /** A thread is about to find the queue empty, and will test the wait's predicate again. */
  predicate InVain(s: State) {
    0 <= s.holder < |s.pcs| && s.pcs[s.holder].Serving? && s.queue == [] && !s.stop
  }

  /** For each notification owed, the steps of the threads that it may wake for nothing. */
  function Owed(s: State): nat { 4 * s.notifies + Times(s.notifyAlls, 3 * |s.pcs| + 1) }

  function Times(n: nat, steps: nat): nat { if n == 0 then 0 else steps + Times(n - 1, steps) }

  /** Bounds the steps left, were nothing more to come from outside. */
  ghost function LiveMeasure(s: State): int {
    3 * CostAll(s.queue, 0) + Sum(s.pcs, LiveRank) + Owed(s) + if InVain(s) then 2 else 0
  }

  lemma {:induction false} WakeAllRanks(pcs: seq<Pc>, woken: seq<Pc>)
    requires |woken| == |pcs| && forall t :: 0 <= t < |pcs| ==> woken[t] == Woken(pcs[t])
    ensures Sum(woken, LiveRank) <= Sum(pcs, LiveRank) + 3 * |pcs|
  {
    if pcs != [] {
      WakeAllRanks(pcs[1..], woken[1..]);
    }
  }

  /** What the threads' ranks can rise by apart from the acting thread's own: 3 for each thread woken. */
  function WakeCost(s: State, a: Action): nat {
    if a.NestedNotify? || a.Notify? then 3 else if a == NotifyAll then 3 * |s.pcs| else 0
  }

  lemma StepRanks(s: State, a: Action)
    requires Enabled(s, a) && !a.Spurious?
    ensures Sum(Do(s, a).pcs, LiveRank) <= Sum(s.pcs, LiveRank) + Own(s, a, LiveRank) + WakeCost(s, a)
  {
    if ThreadStep(a) {
      SumUpdate(s.pcs, a.t, NextPc(s, a), LiveRank);
      if a.NestedNotify? {
        WakeSum(SetPc(s, a.t, NextPc(s, a)), a.u, LiveRank);
      }
    } else if a.Notify? {
      WakeSum(s, a.u, LiveRank);
    } else if a == NotifyAll {
      WakeAllRanks(s.pcs, Do(s, a).pcs);
    }
  }

  lemma OwedFalls(s: State, a: Action)
    requires Enabled(s, a) && Internal(a)
    ensures Owed(Do(s, a)) + WakeCost(s, a) == Owed(s) + if a.NestedNotify? then 3 else if ThreadStep(a) then 0 else -1
  {
  }

  lemma VainSteps(s: State, a: Action)
    requires LockOk(s) && Enabled(s, a) && Internal(a)
    ensures InVain(Do(s, a)) && !InVain(s) ==> a.Lock? && s.pcs[a.t].Relocking?
    ensures a.Serve? && s.queue == [] && !s.stop ==> InVain(s) && !InVain(Do(s, a))
  {
  }

  lemma OwnLiveRank(s: State, a: Action)
    requires RunningOk(s) && Enabled(s, a) && Internal(a) && ThreadStep(a)
    ensures Own(s, a, LiveRank) + 3 * CostAll(Do(s, a).queue, 0) - 3 * CostAll(s.queue, 0) <=
      if a.Serve? && s.queue == [] && !s.stop then 1
      else if a.Lock? && s.pcs[a.t].Relocking? then -3
      else if a.NestedNotify? then -4
      else -1
  {
    if a.NestedPost? {
      var nested, i := s.pcs[a.t].job.nested, s.pcs[a.t].posted;
      CostFrom(nested, i, 2);
      CostAllAppend(s.queue, [nested[i]], 0);
    } else if a.Begin? {
      assert s.pcs[a.t].job.nested[0..] == s.pcs[a.t].job.nested;
    }
  }

  /** Stopped or not, every step of a thread inside run() and every owed notification brings the pool closer
      to having nothing left to do: no thread can keep waking, testing and sleeping for nothing. */
  lemma LiveMeasureFalls(s: State, a: Action)
    requires LockOk(s) && RunningOk(s) && Enabled(s, a) && Internal(a)
    ensures LiveMeasure(Do(s, a)) < LiveMeasure(s)
  {
    StepRanks(s, a);
    OwedFalls(s, a);
    VainSteps(s, a);
    if ThreadStep(a) {
      OwnLiveRank(s, a);
    } else {
      assert Do(s, a).queue == s.queue;
    }
  }

  // ---------- So posted work is run ----------

  /** Steps of the pool itself and spurious wakeups: nothing comes from outside. */
  ghost predicate LeftToItself(acts: seq<Action>) {
    forall i :: 0 <= i < |acts| ==> Internal(acts[i]) || acts[i].Spurious?
  }

  function SpuriousIn(acts: seq<Action>): nat {
    if acts == [] then 0 else (if acts[0].Spurious? then 1 else 0) + SpuriousIn(acts[1..])
  }

  /** A spurious wakeup costs the pool at most the three steps back to sleep. */
  lemma SpuriousCost(s: State, t: nat)
    requires LockOk(s) && Enabled(s, Spurious(t))
    ensures LiveMeasure(Do(s, Spurious(t))) <= LiveMeasure(s) + 3
  {
    SumUpdate(s.pcs, t, Waking, LiveRank);
  }

  lemma {:induction false} RunLeftToItselfIsBounded(s: State, acts: seq<Action>, s': State)
    requires PoolOk(s) && IsRun(false, s, acts, s') && LeftToItself(acts)
    ensures |acts| + LiveMeasure(s') <= LiveMeasure(s) + 4 * SpuriousIn(acts)
    decreases acts
  {
    if acts != [] {
      assert Internal(acts[0]) || acts[0].Spurious?;
      StepKeepsPool(s, acts[0]);
      if acts[0].Spurious? {
        SpuriousCost(s, acts[0].t);
      } else {
        LiveMeasureFalls(s, acts[0]);
      }
      assert forall i :: 0 <= i < |acts[1..]| ==> acts[1..][i] == acts[i + 1];
      RunLeftToItselfIsBounded(Do(s, acts[0]), acts[1..], s');
    }
  }

  /** From any state of any run, stopped or not, the pool left to itself takes at most LiveMeasure steps and four
      for each spurious wakeup, whatever its schedule. */
  lemma PoolComesToRest(threads: nat, before: seq<Action>, s: State, acts: seq<Action>, s': State)
    requires IsRun(false, Init(threads), before, s) && IsRun(false, s, acts, s') && LeftToItself(acts)
    ensures |acts| <= LiveMeasure(s) + 4 * SpuriousIn(acts)
  {
    ReachablePool(false, threads, before, s);
    RunLeftToItselfIsBounded(s, acts, s');
    SumNonNegative(s'.pcs, LiveRank);
  }

  /** When none of the pool's own steps is left and some thread is inside run(), everything posted has been run
      exactly once: the threads inside all sleep, and stop has not been requested. */
  lemma PoolAtRestHasRunAll(threads: nat, acts: seq<Action>, s: State)
    requires IsRun(false, Init(threads), acts, s) && !InternalStepEnabled(s) && SomeInRun(s)
    ensures AllRunOnce(s) && !s.stop
    ensures forall t :: 0 <= t < |s.pcs| && InRun(s.pcs[t]) ==> s.pcs[t].Waiting?
  {
    ReachablePool(false, threads, acts, s);
    if s.queue != [] {
      QueuedWorkIsNotStranded(threads, acts, s);
    }
    forall t | 0 <= t < |s.pcs| && InRun(s.pcs[t]) ensures s.pcs[t].Waiting? {
      if Awake(s, t) {
        AwakeCanMove(s, t);
      }
    }
    assert s.notifyAlls > 0 ==> Internal(NotifyAll) && Enabled(s, NotifyAll);
    IdlePoolIsDrainedIffEmpty(false, threads, acts, s);
  }
}
