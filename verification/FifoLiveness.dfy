/** The FIFO pipeline cannot deadlock, and a measure falls on every step. */
module FifoLiveness {
  import opened Sums
  import opened FifoPipeline
  import opened FifoInvariant

  // ---------- Deadlock freedom ----------

  /** The task that a consumer awaits is either finished, and can be awaited, or can still finish. */
  lemma HeldHandleCanMove<T>(c: Config<T>, s: State<T>, k: nat)
    requires Valid(c) && Shaped(c, s) && k <= N(c)
    requires StationOk(c, k, s.queues[k], s.pcs[k]) && s.pcs[k].Holding?
    ensures !Stuck(c, s)
  {
    var q := s.queues[k];
    assert SlotOk(c, k, q.released, q.items[q.released]);
    assert Enabled(c, s, Await(k)) || Enabled(c, s, Finish(k, q.released));
  }

  /** A consumer that is not waiting for an empty, open queue can move, or the task it awaits can finish,
      provided there is room for what it is about to push. */
  lemma ConsumerCanMove<T>(c: Config<T>, s: State<T>, k: nat)
    requires Valid(c) && Shaped(c, s) && k < N(c) && !s.pcs[k].Exited?
    requires StationOk(c, k, s.queues[k], s.pcs[k])
    requires Occupied(s.queues[k + 1]) < Capacity(c, k + 1)
    requires s.pcs[k].AtPull? ==> s.queues[k].closed || Occupied(s.queues[k]) > 0
    ensures !Stuck(c, s)
  {
    match s.pcs[k]
    case AtPull => assert Enabled(c, s, Pull(k)) || Enabled(c, s, SeeClosed(k));
    case Holding => HeldHandleCanMove(c, s, k);
    case Got(_) => assert Enabled(c, s, Fork(k));
    case AtRelease => assert Enabled(c, s, Release(k));
    case SawClosed => assert Enabled(c, s, Close(k));
  }

  /** If queue `k` is open and empty, somebody upstream of it can move. */
  lemma {:induction false} UpstreamCanMove<T>(c: Config<T>, s: State<T>, k: nat)
    requires Inv(c, s) && k <= N(c) && !s.queues[k].closed && Occupied(s.queues[k]) == 0
    ensures !Stuck(c, s)
  {
    if k == 0 {
      assert Enabled(c, s, DriverPush) || Enabled(c, s, DriverClose);
    } else {
      var j := k - 1;
      assert LinkOk(s.queues[j], s.pcs[j], s.queues[j + 1]) && StationOk(c, j, s.queues[j], s.pcs[j]);
      if s.pcs[j].AtPull? && !s.queues[j].closed && Occupied(s.queues[j]) == 0 {
        UpstreamCanMove(c, s, j);
      } else {
        ConsumerCanMove(c, s, j);
      }
    }
  }

  /** With a consume task in flight, the oldest one is finished and can be awaited, or can still begin or finish. */
  lemma InnerQueueCanMove<T>(c: Config<T>, s: State<T>)
    requires Valid(c) && Shaped(c, s) && InnerOk(c, s) && s.active > 0
    requires s.pcs[N(c)].Draining? || s.pcs[N(c)].SawClosed?
    ensures !Stuck(c, s)
  {
    assert ConsumeSlotOk(c, s.inner.released, s.inner.items[s.inner.released]);
    var i := s.inner.released;
    assert Enabled(c, s, EndDrain) || Enabled(c, s, EndStart(i)) || Enabled(c, s, EndFinish(i));
  }

  lemma EndStageCanMove<T>(c: Config<T>, s: State<T>)
    requires Inv(c, s) && !s.pcs[N(c)].Exited?
    ensures !Stuck(c, s)
  {
    var n := N(c);
    var q := s.queues[n];
    assert StationOk(c, n, q, s.pcs[n]);
    match s.pcs[n]
    case AtPull =>
      if Occupied(q) == 0 && !q.closed {
        UpstreamCanMove(c, s, n);
      } else {
        assert Enabled(c, s, Pull(n)) || Enabled(c, s, SeeClosed(n));
      }
    case Holding => HeldHandleCanMove(c, s, n);
    case Got(_) => assert Enabled(c, s, EndBegin) || Enabled(c, s, EndFork);
    case Consuming(_) => assert Enabled(c, s, EndReturn);
    case Draining => InnerQueueCanMove(c, s);
    case AtRelease => assert Enabled(c, s, Release(n));
    case SawClosed =>
      if s.active > 0 {
        InnerQueueCanMove(c, s);
      } else {
        assert Enabled(c, s, EndExit);
      }
  }

  /** Closure moves downstream: when queue `k` is closed, every queue above it is closed and empty and
      its worker has returned. */
  lemma {:induction false} ClosedQueueMeansUpstreamDone<T>(c: Config<T>, s: State<T>, k: nat, j: nat)
    requires Inv(c, s) && j < k <= N(c) && s.queues[k].closed
    ensures s.pcs[j].Exited? && s.queues[j].closed && Occupied(s.queues[j]) == 0
    decreases k
  {
    assert LinkOk(s.queues[k - 1], s.pcs[k - 1], s.queues[k]);
    assert StationOk(c, k - 1, s.queues[k - 1], s.pcs[k - 1]);
    if j < k - 1 {
      ClosedQueueMeansUpstreamDone(c, s, k - 1, j);
    }
  }

  /** The FIFO pipeline never deadlocks, although a worker keeps its input slot while its push blocks. */
  lemma NeverDeadlocked<T>(c: Config<T>, s: State<T>)
    requires Inv(c, s) && Stuck(c, s)
    ensures Final(c, s)
  {
    var n := N(c);
    if !s.pcs[n].Exited? {
      EndStageCanMove(c, s);
    }
    assert StationOk(c, n, s.queues[n], s.pcs[n]);
    forall k | 0 <= k <= n ensures s.pcs[k].Exited? && s.queues[k].closed {
      if k < n {
        ClosedQueueMeansUpstreamDone(c, s, n, k);
      }
    }
  }

  // ---------- Termination ----------

  function IsRunning<T>(slot: Slot<T>): int { if slot.Running? then 1 else 0 }

  ghost function RunningCount<T>(items: seq<Slot<T>>): int { Sum(items, IsRunning) }

  function Rank<T>(pc: Pc<T>): int {
    match pc
    case AtPull => 0
    case Holding => 1
    case Got(_) => 2
    case Consuming(_) => 3
    case Draining => 3
    case AtRelease => 4
    case SawClosed => 1
    case Exited => 2
  }

  /** Bounds the steps still to come at one queue: two per item to be pushed, six per item to be released. */
  ghost function StationWork<T>(c: Config<T>, q: Queue<T>, pc: Pc<T>): int {
    2 * (|c.inputs| - |q.items|) + RunningCount(q.items) + 6 * (|c.inputs| - q.released) - Rank(pc) + 2
    + if q.closed then 0 else 1
  }

  ghost function TotalWork<T>(c: Config<T>, s: State<T>, k: nat): int
    requires k <= |s.queues| && k <= |s.pcs|
  {
    if k == 0 then 0 else TotalWork(c, s, k - 1) + StationWork(c, s.queues[k - 1], s.pcs[k - 1])
  }

  /** The steps that a consume task has still to take. */
  function TaskSteps<T>(slot: Slot<T>): int { if slot.Forked? then 2 else IsRunning(slot) }

  ghost function InnerWork<T>(c: Config<T>, s: State<T>): int {
    2 * (|c.inputs| - |s.inner.items|) + Sum(s.inner.items, TaskSteps) + (|c.inputs| - s.inner.released)
  }

  ghost function Measure<T>(c: Config<T>, s: State<T>): int
    requires Shaped(c, s)
  {
    TotalWork(c, s, N(c) + 1) + InnerWork(c, s)
  }

  lemma RunningCountNonNegative<T>(items: seq<Slot<T>>)
    ensures RunningCount(items) >= 0
  {
    SumNonNegative(items, IsRunning<T>);
  }

  lemma {:induction false} TotalWorkNonNegative<T>(c: Config<T>, s: State<T>, k: nat)
    requires Inv(c, s) && k <= N(c) + 1
    ensures TotalWork(c, s, k) >= 0
  {
    if k > 0 {
      TotalWorkNonNegative(c, s, k - 1);
      assert StationOk(c, k - 1, s.queues[k - 1], s.pcs[k - 1]);
      RunningCountNonNegative(s.queues[k - 1].items);
    }
  }

  lemma MeasureNonNegative<T>(c: Config<T>, s: State<T>)
    requires Inv(c, s)
    ensures Measure(c, s) >= 0
  {
    TotalWorkNonNegative(c, s, N(c) + 1);
    SumNonNegative(s.inner.items, TaskSteps<T>);
  }

  /** The station whose work a step reduces; the steps of consume tasks reduce InnerWork instead. */
  function Mover<T>(c: Config<T>, a: Action): nat {
    match a
    case DriverPush => 0
    case DriverClose => 0
    case Pull(k) => k
    case Await(k) => k
    case Fork(k) => k
    case Finish(k, _) => k
    case Release(k) => k
    case SeeClosed(k) => k
    case Close(k) => k
    case EndStart(_) => N(c) + 1
    case EndFinish(_) => N(c) + 1
    case EndDrain => N(c) + 1
    case _ => N(c)
  }

  ghost predicate WorkFalls<T>(c: Config<T>, s: State<T>, a: Action, k: nat)
    requires Enabled(c, s, a) && k <= N(c)
  {
    var s' := Do(c, s, a);
    StationWork(c, s'.queues[k], s'.pcs[k])
    <= StationWork(c, s.queues[k], s.pcs[k]) - (if Mover(c, a) == k then 1 else 0)
  }

  lemma ItemStepReducesWork<T>(c: Config<T>, s: State<T>, a: Action, k: nat)
    requires Enabled(c, s, a) && k <= N(c) && ChangesItems(a, k)
    ensures WorkFalls(c, s, a, k)
  {
    var items := s.queues[k].items;
    match a
    case DriverPush => SumAppend(items, Ready(c.inputs[|items|]), IsRunning<T>);
    case Fork(j) => SumAppend(items, Running(s.pcs[j].data), IsRunning<T>);
    case Finish(_, i) => SumUpdate(items, i, Ready(c.stages[k - 1].f(items[i].arg)), IsRunning<T>);
    case Await(_) => SumUpdate(items, s.queues[k].released, Awaited, IsRunning<T>);
    case Release(_) =>
  }

  lemma StepReducesWork<T>(c: Config<T>, s: State<T>, a: Action, k: nat)
    requires Enabled(c, s, a) && k <= N(c)
    ensures WorkFalls(c, s, a, k)
  {
    if ChangesItems(a, k) {
      ItemStepReducesWork(c, s, a, k);
    } else {
      assert Do(c, s, a).queues[k].items == s.queues[k].items;
    }
  }

  lemma InnerWorkFalls<T>(c: Config<T>, s: State<T>, a: Action)
    requires Enabled(c, s, a)
    ensures InnerWork(c, Do(c, s, a)) <= InnerWork(c, s) - (if Mover(c, a) == N(c) + 1 then 1 else 0)
  {
    var items := s.inner.items;
    match a
    case EndFork => SumAppend(items, Forked(s.pcs[N(c)].data), TaskSteps<T>);
    case EndStart(i) => SumUpdate(items, i, Running(items[i].arg), TaskSteps<T>);
    case EndFinish(i) => SumUpdate(items, i, Ready(items[i].arg), TaskSteps<T>);
    case EndDrain => SumUpdate(items, s.inner.released, Awaited, TaskSteps<T>);
    case _ =>
  }

  lemma {:induction false} TotalWorkFalls<T>(c: Config<T>, s: State<T>, a: Action, k: nat)
    requires Enabled(c, s, a) && k <= N(c) + 1
    ensures TotalWork(c, Do(c, s, a), k) <= TotalWork(c, s, k) - (if Mover(c, a) < k then 1 else 0)
  {
    if k > 0 {
      TotalWorkFalls(c, s, a, k - 1);
      StepReducesWork(c, s, a, k - 1);
    }
  }

  /** Every step, of whichever party, makes the measure fall. */
  lemma MeasureFalls<T>(c: Config<T>, s: State<T>, a: Action)
    requires Enabled(c, s, a)
    ensures Measure(c, Do(c, s, a)) < Measure(c, s)
  {
    TotalWorkFalls(c, s, a, N(c) + 1);
    InnerWorkFalls(c, s, a);
  }

  lemma {:induction false} InitialWork<T>(c: Config<T>, k: nat)
    requires k <= N(c) + 1
    ensures TotalWork(c, Init(c), k) == k * (8 * |c.inputs| + 3)
  {
    if k > 0 {
      InitialWork(c, k - 1);
    }
  }
}
