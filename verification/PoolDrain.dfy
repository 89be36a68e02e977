/** The pool drains gracefully: every job posted, nested ones included, is run exactly once, and once stop has
    been requested the pool comes to rest with every thread returned. */
module PoolDrain {
  import opened Sums
  import opened Jobs
  import opened PoolProtocol

  // ---------- How a step changes a sum over the threads ----------

  predicate ThreadStep(a: Action) {
    !a.Post? && !a.Notify? && !a.RequestStop? && !a.NotifyAll?
  }

  /** The state in which thread `a.t` is left by its own step. */
  function NextPc(s: State, a: Action): Pc
    requires Enabled(s, a) && ThreadStep(a)
  {
    match a
    case Enter(_) => Locking
    case Lock(t) => if s.pcs[t].Relocking? then Serving else Checking
    case Check(_) => if s.stop || s.queue != [] then Serving else Waiting
    case Serve(_) => if s.queue != [] then Popped(s.queue[0]) else if s.stop then Returned else Checking
    case Begin(t) => Running(s.pcs[t].job, 0, false)
    case NestedPost(t) => s.pcs[t].(posted := s.pcs[t].posted + 1, owes := true)
    case NestedNotify(t, _) => s.pcs[t].(owes := false)
    case End(_) => Relocking
    case Spurious(_) => Waking
  }

  ghost function Own(s: State, a: Action, f: Pc -> int): int
    requires Enabled(s, a)
  {
    if ThreadStep(a) then f(NextPc(s, a)) - f(s.pcs[a.t]) else 0
  }

  lemma WakeSum(s: State, u: nat, f: Pc -> int)
    requires CanWake(s, u)
    ensures Sum(Wake(s, u).pcs, f) == Sum(s.pcs, f) + if u < |s.pcs| then f(Waking) - f(Waiting) else 0
  {
    if u < |s.pcs| {
      SumUpdate(s.pcs, u, Waking, f);
    }
  }

  lemma {:induction false} WakeAllSum(pcs: seq<Pc>, woken: seq<Pc>, f: Pc -> int)
    requires |woken| == |pcs| && forall t :: 0 <= t < |pcs| ==> woken[t] == Woken(pcs[t])
    requires f(Waking) <= f(Waiting)
    ensures Sum(woken, f) <= Sum(pcs, f)
    ensures f(Waking) == f(Waiting) ==> Sum(woken, f) == Sum(pcs, f)
  {
    if pcs != [] {
      WakeAllSum(pcs[1..], woken[1..], f);
    }
  }

  lemma StepSum(s: State, a: Action, f: Pc -> int)
    requires Enabled(s, a) && f(Waking) <= f(Waiting)
    ensures Sum(Do(s, a).pcs, f) <= Sum(s.pcs, f) + Own(s, a, f)
    ensures f(Waking) == f(Waiting) ==> Sum(Do(s, a).pcs, f) == Sum(s.pcs, f) + Own(s, a, f)
  {
    if ThreadStep(a) {
      SumUpdate(s.pcs, a.t, NextPc(s, a), f);
      if a.NestedNotify? {
        WakeSum(SetPc(s, a.t, NextPc(s, a)), a.u, f);
      }
    } else if a.Notify? {
      WakeSum(s, a.u, f);
    } else if a == NotifyAll {
      WakeAllSum(s.pcs, Do(s, a).pcs, f);
    }
  }

  // ---------- Every job is run exactly once ----------

  ghost predicate RunningOk(s: State) {
    forall t :: 0 <= t < |s.pcs| && s.pcs[t].Running? ==> s.pcs[t].posted <= |s.pcs[t].job.nested|
  }

  /** The copies of y that a thread has still to finish: its own item and what the item has yet to post. */
  function ToFinish(y: Job): Pc -> int {
    (pc: Pc) =>
      match pc
      case Popped(job) => Count(job, y)
      case Running(job, posted, _) =>
        (if job == y then 1 else 0) + if posted <= |job.nested| then CountAll(job.nested[posted..], y) else 0
      case _ => 0
  }

  function IsRunning(y: Job): Pc -> int { (pc: Pc) => if pc.Running? && pc.job == y then 1 else 0 }

  function IsStart(y: Job): Start -> int { (start: Start) => if start.job == y then 1 else 0 }

  /** Of everything posted from outside the pool, at whatever depth, each copy of y is finished, in a thread's
      hands, or reachable from the queue. */
  ghost predicate Accounted(s: State, y: Job) {
    && CountAll(s.roots, y) == multiset(s.finished)[y] + CountAll(s.queue, y) + Sum(s.pcs, ToFinish(y))
    && Sum(s.started, IsStart(y)) == multiset(s.finished)[y] + Sum(s.pcs, IsRunning(y))
  }

  lemma StepKeepsRunning(s: State, a: Action)
    requires RunningOk(s) && Enabled(s, a)
    ensures RunningOk(Do(s, a))
  {
  }

  /** What a step adds to the copies of y finished and started. */
  lemma StepLogsCopies(s: State, a: Action, y: Job)
    requires Enabled(s, a)
    ensures multiset(Do(s, a).finished)[y] == multiset(s.finished)[y] + if a.End? && s.pcs[a.t].job == y then 1 else 0
    ensures Sum(Do(s, a).started, IsStart(y))
         == Sum(s.started, IsStart(y)) + if a.Begin? && s.pcs[a.t].job == y then 1 else 0
  {
    if a.Begin? {
      SumAppend(s.started, Start(s.pcs[a.t].job, s.pcs[a.t].job.prio), IsStart(y));
    }
  }

  /** What a step adds to the copies of y queued and posted from outside. */
  lemma StepMovesCopies(s: State, a: Action, y: Job)
    requires Enabled(s, a)
    ensures CountAll(Do(s, a).queue, y) == CountAll(s.queue, y) +
      if a.Serve? && s.queue != [] then -(Count(s.queue[0], y) as int)
      else if a.NestedPost? then Count(s.pcs[a.t].job.nested[s.pcs[a.t].posted], y)
      else if a.Post? then Count(a.job, y)
      else 0
    ensures CountAll(Do(s, a).roots, y) == CountAll(s.roots, y) + if a.Post? then Count(a.job, y) else 0
  {
    match a
    case NestedPost(t) => CountAllAppend(s.queue, [s.pcs[t].job.nested[s.pcs[t].posted]], y);
    case Post(job) =>
      CountAllAppend(s.queue, [job], y);
      CountAllAppend(s.roots, [job], y);
    case _ =>
  }

  /** What a step adds to the copies of y in its thread's hands. */
  lemma OwnCopies(s: State, a: Action, y: Job)
    requires RunningOk(s) && Enabled(s, a)
    ensures Own(s, a, ToFinish(y)) ==
      if a.Serve? && s.queue != [] then Count(s.queue[0], y)
      else if a.NestedPost? then -(Count(s.pcs[a.t].job.nested[s.pcs[a.t].posted], y) as int)
      else if a.End? && s.pcs[a.t].job == y then -1
      else 0
  {
  }

  lemma OwnRunning(s: State, a: Action, y: Job)
    requires Enabled(s, a)
    ensures Own(s, a, IsRunning(y)) ==
      if a.Begin? && s.pcs[a.t].job == y then 1 else if a.End? && s.pcs[a.t].job == y then -1 else 0
  {
  }

  lemma StepKeepsAccount(s: State, a: Action, y: Job)
    requires RunningOk(s) && Accounted(s, y) && Enabled(s, a)
    ensures Accounted(Do(s, a), y)
  {
    StepLogsCopies(s, a, y);
    StepMovesCopies(s, a, y);
    StepSum(s, a, ToFinish(y));
    StepSum(s, a, IsRunning(y));
    OwnCopies(s, a, y);
    OwnRunning(s, a, y);
  }

  // ---------- Graceful drain ----------

  ghost predicate SomeReturned(s: State) { exists t :: 0 <= t < |s.pcs| && s.pcs[t].Returned? }

  ghost predicate SomeInRun(s: State) { exists t :: 0 <= t < |s.pcs| && InRun(s.pcs[t]) }

  /** A thread returns only after stop and with the queue empty; if work is queued after that, the thread
      whose item posted it is still inside run(). */
  ghost predicate Graceful(s: State) {
    SomeReturned(s) ==> s.stop && (s.queue != [] ==> SomeInRun(s))
  }

  lemma StepKeepsGraceful(s: State, a: Action)
    requires LockOk(s) && Graceful(s) && Enabled(s, a) && (s.stop ==> !a.Post?)
    ensures Graceful(Do(s, a))
  {
    var s' := Do(s, a);
    if SomeReturned(s') && s'.queue != [] {
      if ThreadStep(a) && !(a.Serve? && s.queue == []) {
        assert InRun(s'.pcs[a.t]);
      } else {
        assert SomeReturned(s);
        var t :| 0 <= t < |s.pcs| && InRun(s.pcs[t]);
        assert InRun(s'.pcs[t]);
      }
    }
  }

  ghost predicate PoolOk(s: State) { Inv(s) && RunningOk(s) }

  lemma StepKeepsPool(s: State, a: Action)
    requires PoolOk(s) && Enabled(s, a)
    ensures PoolOk(Do(s, a))
  {
    StepKeepsLock(s, a);
    StepKeepsWakeup(s, a);
    StepKeepsStop(s, a);
    StepKeepsOrder(s, a);
    StepKeepsRunning(s, a);
  }

  lemma {:induction false} RunKeepsPool(polite: bool, s: State, acts: seq<Action>, s': State)
    requires PoolOk(s) && IsRun(polite, s, acts, s')
    ensures PoolOk(s')
    ensures polite && Graceful(s) ==> Graceful(s')
    decreases acts
  {
    if acts != [] {
      StepKeepsPool(s, acts[0]);
      if polite && Graceful(s) {
        StepKeepsGraceful(s, acts[0]);
      }
      RunKeepsPool(polite, Do(s, acts[0]), acts[1..], s');
    }
  }

  lemma {:induction false} RunKeepsAccount(polite: bool, s: State, acts: seq<Action>, s': State, y: Job)
    requires RunningOk(s) && Accounted(s, y) && IsRun(polite, s, acts, s')
    ensures Accounted(s', y)
    decreases acts
  {
    if acts != [] {
      StepKeepsRunning(s, acts[0]);
      StepKeepsAccount(s, acts[0], y);
      RunKeepsAccount(polite, Do(s, acts[0]), acts[1..], s', y);
    }
  }

  lemma ReachablePool(polite: bool, threads: nat, acts: seq<Action>, s: State)
    requires IsRun(polite, Init(threads), acts, s)
    ensures PoolOk(s) && (polite ==> Graceful(s))
  {
    RunKeepsPool(polite, Init(threads), acts, s);
  }

  /** In every state of every run each job posted, at whatever depth, is finished, in hand or still queued. */
  lemma ReachableAccounts(polite: bool, threads: nat, acts: seq<Action>, s: State, y: Job)
    requires IsRun(polite, Init(threads), acts, s)
    ensures Accounted(s, y)
  {
    var pcs := Init(threads).pcs;
    SumOfZeros(pcs, ToFinish(y));
    SumOfZeros(pcs, IsRunning(y));
    RunKeepsAccount(polite, Init(threads), acts, s, y);
  }

  /** Everything posted from outside, and everything that posts in turn, has been run exactly once. */
  ghost predicate AllRunOnce(s: State) {
    && s.queue == [] && s.taken == s.posted
    && (forall y :: multiset(s.finished)[y] == CountAll(s.roots, y))
    && (forall y :: Sum(s.started, IsStart(y)) == CountAll(s.roots, y))
    && (forall i :: 0 <= i < |s.started| ==> s.started[i].prio == s.started[i].job.prio)
  }

  /** While nobody is awake inside run(), everything posted has been run exactly once if and only if the queue
      is empty, whoever posted when. */
  lemma IdlePoolIsDrainedIffEmpty(polite: bool, threads: nat, acts: seq<Action>, s: State)
    requires IsRun(polite, Init(threads), acts, s)
    requires forall t :: 0 <= t < |s.pcs| && InRun(s.pcs[t]) ==> s.pcs[t].Waiting?
    ensures AllRunOnce(s) <==> s.queue == []
  {
    ReachablePool(polite, threads, acts, s);
    if s.queue == [] {
      forall y
        ensures multiset(s.finished)[y] == CountAll(s.roots, y) && Sum(s.started, IsStart(y)) == CountAll(s.roots, y)
      {
        ReachableAccounts(polite, threads, acts, s, y);
        SumOfZeros(s.pcs, ToFinish(y));
        SumOfZeros(s.pcs, IsRunning(y));
      }
    }
  }

  /** Graceful drain.  If after stop only running items post, then when the last run() has returned every job
      and nested job has been run exactly once, items having left the queue in posting order and each having
      been entered under its own priority. */
  lemma LastReturnMeansDrained(threads: nat, acts: seq<Action>, s: State)
    requires IsRun(true, Init(threads), acts, s) && SomeReturned(s) && !SomeInRun(s)
    ensures s.stop && AllRunOnce(s)
  {
    ReachablePool(true, threads, acts, s);
    IdlePoolIsDrainedIffEmpty(true, threads, acts, s);
  }

  // ---------- No lost wakeup ----------

  /** A step of a thread already inside run(), or an owed notification: neither a spurious wakeup, nor a new
      arrival, nor anything the outside world would have to do first. */
  predicate Internal(a: Action) { !a.Spurious? && !a.Post? && !a.Enter? && !a.RequestStop? }

  ghost predicate InternalStepEnabled(s: State) { exists a :: Internal(a) && Enabled(s, a) }

  lemma SomebodyToWake(s: State) returns (u: nat)
    ensures CanWake(s, u)
  {
    if t :| 0 <= t < |s.pcs| && s.pcs[t].Waiting? {
      u := t;
    } else {
      u := |s.pcs|;
    }
  }

  lemma HolderCanMove(s: State)
    requires LockOk(s) && s.holder != -1
    ensures InternalStepEnabled(s)
  {
    var h: nat := s.holder;
    assert HoldsLock(s.pcs[h]);
    assert Internal(Check(h)) && Internal(Serve(h));
    assert Enabled(s, Check(h)) || Enabled(s, Serve(h));
  }

  lemma AwakeCanMove(s: State, t: nat)
    requires LockOk(s) && RunningOk(s) && Awake(s, t)
    ensures InternalStepEnabled(s)
  {
    if s.holder != -1 {
      HolderCanMove(s);
    } else {
      var u := SomebodyToWake(s);
      assert Internal(Lock(t)) && Internal(Begin(t)) && Internal(NestedPost(t)) && Internal(End(t));
      assert Internal(NestedNotify(t, u));
      assert Enabled(s, Lock(t)) || Enabled(s, Begin(t)) || Enabled(s, NestedPost(t)) || Enabled(s, NestedNotify(t, u))
        || Enabled(s, End(t));
    }
  }

  /** No lost wakeup.  Whenever work is queued and some thread is inside run(), either a thread there is not
      asleep or a notification is still owed; so the pool can proceed without any spurious wakeup. */
  lemma QueuedWorkIsNotStranded(threads: nat, acts: seq<Action>, s: State)
    requires IsRun(false, Init(threads), acts, s) && s.queue != [] && SomeInRun(s)
    ensures s.notifies > 0 || s.notifyAlls > 0 || exists t :: Awake(s, t)
    ensures InternalStepEnabled(s)
  {
    ReachablePool(false, threads, acts, s);
    if s.notifies > 0 {
      var u := SomebodyToWake(s);
      assert Internal(Notify(u)) && Enabled(s, Notify(u));
    } else if s.notifyAlls > 0 {
      assert Internal(NotifyAll) && Enabled(s, NotifyAll);
    } else {
      var t :| Awake(s, t);
      AwakeCanMove(s, t);
    }
  }

  // ---------- After stop the pool comes to rest ----------

  function Rank(pc: Pc): int {
    match pc
    case Outside => 8
    case Locking => 7
    case Checking => 6
    case Waiting => 8
    case Waking => 7
    case Serving => 5
    case Popped(job) => 8 + CostAll(job.nested, 2)
    case Running(job, posted, owes) =>
      7 + (if posted <= |job.nested| then CostAll(job.nested[posted..], 2) else 0) + if owes then 1 else 0
    case Relocking => 6
    case Returned => 0
  }

  ghost function Measure(s: State): int {
    CostAll(s.queue, 0) + Sum(s.pcs, Rank) + s.notifies + s.notifyAlls
  }

  lemma OwnRankFalls(s: State, a: Action)
    requires RunningOk(s) && Enabled(s, a) && s.stop && ThreadStep(a)
    ensures Own(s, a, Rank) + CostAll(Do(s, a).queue, 0) < CostAll(s.queue, 0)
  {
    if a.NestedPost? {
      var nested, i := s.pcs[a.t].job.nested, s.pcs[a.t].posted;
      CostFrom(nested, i, 2);
      CostAllAppend(s.queue, [nested[i]], 0);
    } else if a.Begin? {
      assert s.pcs[a.t].job.nested[0..] == s.pcs[a.t].job.nested;
    }
  }

  /** Once stop has been requested every step brings the pool closer to rest, spurious wakeups included. */
  lemma MeasureFalls(s: State, a: Action)
    requires RunningOk(s) && Enabled(s, a) && s.stop && !a.Post?
    ensures Measure(Do(s, a)) < Measure(s)
  {
    StepSum(s, a, Rank);
    if ThreadStep(a) {
      OwnRankFalls(s, a);
    }
  }

  lemma {:induction false} RunIsBounded(s: State, acts: seq<Action>, s': State)
    requires PoolOk(s) && s.stop && IsRun(true, s, acts, s')
    ensures s'.stop && |acts| + Measure(s') <= Measure(s)
    decreases acts
  {
    if acts != [] {
      StepKeepsPool(s, acts[0]);
      MeasureFalls(s, acts[0]);
      RunIsBounded(Do(s, acts[0]), acts[1..], s');
    }
  }

  /** After the notify-all has fired nobody is asleep, so whoever is not finished can move. */
  lemma StoppedThreadCanMove(s: State, t: nat)
    requires PoolOk(s) && s.stop && t < |s.pcs| && !s.pcs[t].Returned?
    ensures InternalStepEnabled(s) || exists u: nat :: Enabled(s, Enter(u))
  {
    if s.pcs[t].Outside? {
      assert Enabled(s, Enter(t));
    } else if s.notifyAlls > 0 {
      assert Internal(NotifyAll) && Enabled(s, NotifyAll);
    } else {
      AwakeCanMove(s, t);
    }
  }

  /** From the moment stop is requested, every schedule in which only items post takes at most Measure steps. */
  lemma StoppedPoolIsBounded(threads: nat, before: seq<Action>, s: State, acts: seq<Action>, s': State)
    requires IsRun(true, Init(threads), before, s) && s.stop && IsRun(true, s, acts, s')
    ensures |acts| <= Measure(s)
  {
    ReachablePool(true, threads, before, s);
    RunIsBounded(s, acts, s');
    MeasureNonNegative(s');
  }

  /** Nothing is left to happen but spurious wakeups and posts from outside. */
  ghost predicate AtRest(s: State) { forall a :: Enabled(s, a) ==> a.Spurious? || a.Post? }

  /** A stopped pool at rest has every thread returned and everything posted run exactly once. */
  lemma StoppedPoolComesToRest(threads: nat, acts: seq<Action>, s: State)
    requires threads > 0 && IsRun(true, Init(threads), acts, s) && s.stop && AtRest(s)
    ensures AllRunOnce(s) && forall t :: 0 <= t < |s.pcs| ==> s.pcs[t].Returned?
  {
    ReachablePool(true, threads, acts, s);
    forall t | 0 <= t < |s.pcs| ensures s.pcs[t].Returned? {
      if !s.pcs[t].Returned? {
        StoppedThreadCanMove(s, t);
      }
    }
    ThreadsStay(true, Init(threads), acts, s);
    assert s.pcs[0].Returned?;
    LastReturnMeansDrained(threads, acts, s);
  }

  lemma MeasureNonNegative(s: State)
    ensures Measure(s) >= 0
  {
    SumNonNegative(s.pcs, Rank);
  }

  lemma {:induction false} ThreadsStay(polite: bool, s: State, acts: seq<Action>, s': State)
    requires IsRun(polite, s, acts, s')
    ensures |s'.pcs| == |s.pcs|
    decreases acts
  {
    if acts != [] {
      ThreadsStay(polite, Do(s, acts[0]), acts[1..], s');
    }
  }
}
