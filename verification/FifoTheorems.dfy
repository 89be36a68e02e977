/** What holds of every run of the FIFO pipeline: order, completeness, bounds, closure. */
module FifoTheorems {
  import opened Sums
  import opened Stages
  import opened FifoPipeline
  import opened FifoInvariant
  import opened FifoLiveness

  /** No run is longer than this, whatever the schedule. */
  function StepBound<T>(c: Config<T>): int { (N(c) + 1) * (8 * |c.inputs| + 3) + 3 * |c.inputs| }

  lemma {:induction false} RunKeepsInv<T>(c: Config<T>, s: State<T>, acts: seq<Action>, s': State<T>)
    requires Inv(c, s) && IsRun(c, s, acts, s')
    ensures Inv(c, s') && |acts| + Measure(c, s') <= Measure(c, s)
    decreases acts
  {
    if acts != [] {
      StepKeepsInv(c, s, acts[0]);
      MeasureFalls(c, s, acts[0]);
      RunKeepsInv(c, Do(c, s, acts[0]), acts[1..], s');
    }
  }

  lemma InitialMeasure<T>(c: Config<T>)
    requires |c.stages| >= 1
    ensures Measure(c, Init(c)) == StepBound(c)
  {
    InitialWork(c, N(c) + 1);
  }

  lemma ReachableInv<T>(c: Config<T>, acts: seq<Action>, s: State<T>)
    requires Valid(c) && IsRun(c, Init(c), acts, s)
    ensures Inv(c, s) && |acts| <= StepBound(c)
  {
    InitInv(c);
    RunKeepsInv(c, Init(c), acts, s);
    MeasureNonNegative(c, s);
    InitialMeasure(c);
  }

  // ---------- Order and completeness ----------

  lemma HandedIsPrefix<T>(c: Config<T>, s: State<T>)
    requires Inv(c, s)
    ensures s.handed <= Mapped(c.stages, c.inputs)
  {
  }

  lemma {:induction false} ReleasedIsPushedUpstream<T>(c: Config<T>, s: State<T>, k: nat)
    requires Inv(c, s) && Final(c, s) && k <= N(c)
    ensures s.queues[k].closed && s.queues[k].released == |s.queues[k].items| == |c.inputs|
  {
    assert StationOk(c, k, s.queues[k], s.pcs[k]);
    if k > 0 {
      ReleasedIsPushedUpstream(c, s, k - 1);
      assert LinkOk(s.queues[k - 1], s.pcs[k - 1], s.queues[k]);
    }
  }

  lemma FinalMeansAllConsumed<T>(c: Config<T>, s: State<T>)
    requires Inv(c, s) && Final(c, s)
    ensures s.handed == Mapped(c.stages, c.inputs)
    ensures multiset(s.begun) == multiset(s.ended) == multiset(Mapped(c.stages, c.inputs))
    ensures s.inner.released == |s.inner.items|
  {
    ReleasedIsPushedUpstream(c, s, N(c));
    assert s.handed == Mapped(c.stages, c.inputs);
    GatherEmpty(s.inner.items, ForkedItem<T>);
    GatherEmpty(s.inner.items, RunningItem<T>);
  }

  /** Main theorem, safety.  In every run the end stage hands over the mapped inputs in input order, each to one
      consume task or inline call; only what has been handed over is consumed, and at most once; and when
      everything has returned, each mapped input has been consumed exactly once. */
  lemma EveryRunHandsOverInOrder<T>(c: Config<T>, acts: seq<Action>, s: State<T>)
    requires Valid(c) && IsRun(c, Init(c), acts, s)
    ensures s.handed <= Mapped(c.stages, c.inputs)
    ensures multiset(s.ended) <= multiset(s.begun) <= multiset(s.handed)
    ensures Final(c, s) ==> s.handed == Mapped(c.stages, c.inputs)
    ensures Final(c, s) ==> multiset(s.begun) == multiset(s.ended) == multiset(Mapped(c.stages, c.inputs))
  {
    ReachableInv(c, acts, s);
    HandedIsPrefix(c, s);
    if Final(c, s) {
      FinalMeansAllConsumed(c, s);
    }
  }

  /** Main theorem, liveness.  The length of every run is bounded, and the runs that cannot be extended are
      exactly those in which the driver has closed and every worker has returned. */
  lemma EveryRunFinishes<T>(c: Config<T>, acts: seq<Action>, s: State<T>)
    requires Valid(c) && IsRun(c, Init(c), acts, s)
    ensures |acts| <= (|c.stages| + 1) * (8 * |c.inputs| + 3) + 3 * |c.inputs|
    ensures Stuck(c, s) <==> Final(c, s)
  {
    ReachableInv(c, acts, s);
    if Stuck(c, s) {
      NeverDeadlocked(c, s);
    }
    if Final(c, s) {
      FinalIsStuck(c, s);
    }
  }

  lemma FinalIsStuck<T>(c: Config<T>, s: State<T>)
    requires Inv(c, s) && Final(c, s)
    ensures Stuck(c, s)
  {
  }

  // ---------- The serial end stage ----------

  /** The oldest consume task, while the end stage waits for it. */
  function Oldest<T>(c: Config<T>, s: State<T>): Slot<T>
    requires Shaped(c, s)
  {
    if s.pcs[N(c)].Draining? && s.inner.released < |s.inner.items| then s.inner.items[s.inner.released] else Awaited
  }

  /** The one value whose call has still to begin, if any, when the end stage runs one at a time. */
  function NextCall<T>(c: Config<T>, s: State<T>): seq<T>
    requires Shaped(c, s)
  {
    if Oldest(c, s).Forked? then [Oldest(c, s).arg] else []
  }

  /** The one consume call in progress, if any, when the end stage runs one at a time. */
  function CurrentCall<T>(c: Config<T>, s: State<T>): seq<T>
    requires Shaped(c, s)
  {
    if s.pcs[N(c)].Consuming? then [s.pcs[N(c)].data]
    else if Oldest(c, s).Running? then [Oldest(c, s).arg]
    else []
  }

  ghost predicate Serial<T>(c: Config<T>, s: State<T>)
    requires Shaped(c, s)
  {
    s.handed == s.begun + NextCall(c, s) && s.begun == s.ended + CurrentCall(c, s)
  }

  lemma StepKeepsSerial<T>(c: Config<T>, s: State<T>, a: Action)
    requires Valid(c) && Enabled(c, s, a) && InnerOk(c, s) && c.endWidth == 1 && Serial(c, s)
    ensures Serial(c, Do(c, s, a))
  {
  }

  lemma {:induction false} RunKeepsSerial<T>(c: Config<T>, s: State<T>, acts: seq<Action>, s': State<T>)
    requires Inv(c, s) && c.endWidth == 1 && Serial(c, s) && IsRun(c, s, acts, s')
    ensures Shaped(c, s') && Serial(c, s')
    decreases acts
  {
    if acts != [] {
      StepKeepsInv(c, s, acts[0]);
      StepKeepsSerial(c, s, acts[0]);
      RunKeepsSerial(c, Do(c, s, acts[0]), acts[1..], s');
    }
  }

  lemma SerialCalls<T>(c: Config<T>, s: State<T>)
    requires Shaped(c, s) && Serial(c, s) && InnerOk(c, s)
    ensures s.ended <= s.begun <= s.handed && |s.handed| <= |s.ended| + 1
  {
  }

  /** With parallelism 1, inline or not, the consume calls begin in input order and each finishes before the next
      begins, so what has been consumed is at every moment a prefix of the mapped inputs, and all of them when
      the run ends. */
  lemma SerialRunConsumesInOrder<T>(c: Config<T>, acts: seq<Action>, s: State<T>)
    requires Valid(c) && c.endWidth == 1 && IsRun(c, Init(c), acts, s)
    ensures s.ended <= s.begun <= s.handed <= Mapped(c.stages, c.inputs)
    ensures |s.handed| <= |s.ended| + 1
    ensures Final(c, s) ==> s.ended == Mapped(c.stages, c.inputs)
  {
    ReachableInv(c, acts, s);
    InitInv(c);
    RunKeepsSerial(c, Init(c), acts, s);
    HandedIsPrefix(c, s);
    SerialCalls(c, s);
    if Final(c, s) {
      FinalMeansAllConsumed(c, s);
      assert |s.handed| == |multiset(s.ended)| == |s.ended|;
    }
  }

  // ---------- Bounds ----------

  lemma {:induction false} RunningIsAboveAwaited<T>(items: seq<Slot<T>>, awaited: nat)
    requires awaited <= |items| && forall i :: 0 <= i < awaited ==> items[i] == Awaited
    ensures RunningCount(items) <= |items| - awaited
  {
    if items != [] {
      RunningIsAboveAwaited(items[1..], if awaited > 0 then awaited - 1 else 0);
    }
  }

  /** A stage never has more unfinished tasks than its parallelism. */
  lemma UnfinishedTasksBounded<T>(c: Config<T>, acts: seq<Action>, s: State<T>, k: nat)
    requires Valid(c) && IsRun(c, Init(c), acts, s) && k < N(c)
    ensures Shaped(c, s) && RunningCount(s.queues[k + 1].items) <= c.stages[k].width
  {
    ReachableInv(c, acts, s);
    var q, pc := s.queues[k + 1], s.pcs[k + 1];
    assert StationOk(c, k + 1, q, pc);
    RunningIsAboveAwaited(q.items, AwaitedCount(q, pc));
  }

  /** The count of awaited handles moves by one, and only on an await. */
  lemma OnlyAwaitAwaits<T>(c: Config<T>, s: State<T>, a: Action, k: nat)
    requires Enabled(c, s, a) && k <= N(c)
    ensures AwaitedCount(Do(c, s, a).queues[k], Do(c, s, a).pcs[k])
         == AwaitedCount(s.queues[k], s.pcs[k]) + if a == Await(k) then 1 else 0
  {
  }

  /** Handles are awaited in queue order, each exactly once, and none is released before it was awaited:
      the awaited slots are exactly those released and the one in hand. */
  lemma HandlesAwaitedInOrder<T>(c: Config<T>, acts: seq<Action>, s: State<T>, k: nat)
    requires Valid(c) && IsRun(c, Init(c), acts, s) && k <= N(c)
    ensures Shaped(c, s)
    ensures var q := s.queues[k];
      forall i :: 0 <= i < |q.items| ==> (q.items[i].Awaited? <==> i < AwaitedCount(q, s.pcs[k]))
    ensures s.queues[k].released <= AwaitedCount(s.queues[k], s.pcs[k]) <= |s.queues[k].items|
  {
    ReachableInv(c, acts, s);
    var q := s.queues[k];
    assert StationOk(c, k, q, s.pcs[k]);
    forall i | AwaitedCount(q, s.pcs[k]) <= i < |q.items| ensures !q.items[i].Awaited? {
      assert SlotOk(c, k, i, q.items[i]);
    }
  }

  ghost function CapacityTo<T>(c: Config<T>, k: nat): int
    requires |c.stages| >= 1 && k <= N(c)
  {
    Capacity(c, k) + if k == 0 then 0 else CapacityTo(c, k - 1)
  }

  /** The queues' capacities add up to the stages' parallelism, the start stage's counted twice. */
  lemma {:induction false} CapacityOfStages<T>(c: Config<T>, k: nat)
    requires |c.stages| >= 1 && k <= N(c)
    ensures CapacityTo(c, k) == c.stages[0].width + Sum(c.stages[..k], Parallelism)
  {
    if k > 0 {
      CapacityOfStages(c, k - 1);
      assert c.stages[..k] == c.stages[..k - 1] + [c.stages[k - 1]];
      SumAppend(c.stages[..k - 1], c.stages[k - 1], Parallelism<T>);
    }
  }

  lemma {:induction false} PushedAheadOfReleased<T>(c: Config<T>, s: State<T>, k: nat)
    requires Inv(c, s) && k <= N(c)
    ensures |s.queues[0].items| - s.queues[k].released <= CapacityTo(c, k)
  {
    assert StationOk(c, k, s.queues[k], s.pcs[k]);
    if k > 0 {
      PushedAheadOfReleased(c, s, k - 1);
      assert LinkOk(s.queues[k - 1], s.pcs[k - 1], s.queues[k]);
    }
  }

  lemma {:induction false} UnendedIsAboveAwaited<T>(items: seq<Slot<T>>, awaited: nat)
    requires awaited <= |items| && forall i :: 0 <= i < awaited ==> items[i] == Awaited
    ensures |Gather(items, ForkedItem)| + |Gather(items, RunningItem)| <= |items| - awaited
  {
    if items != [] {
      UnendedIsAboveAwaited(items[1..], if awaited > 0 then awaited - 1 else 0);
    }
  }

  /** Backpressure: the items pushed by the driver and not yet handed over are at most the parallelism of all the
      stages together, the start stage's counted twice, and no more than the end stage's parallelism are handed
      over and not yet consumed, the last of them still in its slot. */
  lemma ItemsInFlightBounded<T>(c: Config<T>, acts: seq<Action>, s: State<T>)
    requires Valid(c) && IsRun(c, Init(c), acts, s)
    ensures Shaped(c, s)
    ensures |s.queues[0].items| - |s.handed| <= c.stages[0].width + Sum(c.stages, Parallelism)
    ensures |s.ended| <= |s.begun| <= |s.handed| <= |s.ended| + c.endWidth
    ensures |s.queues[0].items| - |s.begun| <= |s.queues[0].items| - |s.ended|
         <= c.stages[0].width + Sum(c.stages, Parallelism) + c.endWidth - 1
  {
    ReachableInv(c, acts, s);
    PushedAheadOfReleased(c, s, N(c));
    CapacityOfStages(c, N(c));
    assert c.stages[..N(c)] == c.stages;
    UnendedIsAboveAwaited(s.inner.items, s.inner.released);
    assert |multiset(s.handed)| == |s.handed|;
    assert |multiset(s.begun)| == |s.begun| && |multiset(s.ended)| == |s.ended|;
  }

  // ---------- Closure ----------

  /** A closed queue stays closed, is not closed again, and nothing more is pushed to it; and every queue
      upstream of it is closed and drained, with its consumer returned. */
  lemma ClosedQueuesAreFrozen<T>(c: Config<T>, acts: seq<Action>, s: State<T>, k: nat, a: Action)
    requires Valid(c) && IsRun(c, Init(c), acts, s) && Enabled(c, s, a)
    requires k <= N(c) && s.queues[k].closed
    ensures Do(c, s, a).queues[k].closed && |Do(c, s, a).queues[k].items| == |s.queues[k].items|
    ensures a != (if k == 0 then DriverClose else Close(k - 1))
    ensures forall j :: 0 <= j < k ==> s.pcs[j].Exited? && s.queues[j].closed && Occupied(s.queues[j]) == 0
  {
    ReachableInv(c, acts, s);
    forall j | 0 <= j < k ensures s.pcs[j].Exited? && s.queues[j].closed && Occupied(s.queues[j]) == 0 {
      ClosedQueueMeansUpstreamDone(c, s, k, j);
    }
    if k > 0 {
      assert LinkOk(s.queues[k - 1], s.pcs[k - 1], s.queues[k]);
    }
  }

  /** A worker closes its output only when its own input is closed and drained. */
  lemma ClosesOnlyAfterDrain<T>(c: Config<T>, acts: seq<Action>, s: State<T>, k: nat)
    requires Valid(c) && IsRun(c, Init(c), acts, s) && Enabled(c, s, Close(k))
    ensures s.queues[k].closed && Occupied(s.queues[k]) == 0 && !s.queues[k + 1].closed
    ensures |s.queues[k + 1].items| == |s.queues[k].items| == |c.inputs|
  {
    ReachableInv(c, acts, s);
    assert StationOk(c, k, s.queues[k], s.pcs[k]) && LinkOk(s.queues[k], s.pcs[k], s.queues[k + 1]);
    ClosedQueueIsComplete(c, s, k);
  }

  lemma {:induction false} ClosedQueueIsComplete<T>(c: Config<T>, s: State<T>, k: nat)
    requires Inv(c, s) && k <= N(c) && s.queues[k].closed
    ensures |s.queues[k].items| == |c.inputs|
  {
    if k > 0 {
      ClosedQueueMeansUpstreamDone(c, s, k, k - 1);
      ClosedQueueIsComplete(c, s, k - 1);
      assert LinkOk(s.queues[k - 1], s.pcs[k - 1], s.queues[k]);
    }
  }

  // ---------- The parallel end stage ----------

  /** The end stage is the only producer and the only consumer of its internal queue.  At its loop head the
      counter equals the occupied slots and is below the parallelism; its push always finds room; its pull
      always finds an element; completions are awaited in fork order; and at return none is left un-awaited. */
  lemma EndStageNeverBlocksOnItself<T>(c: Config<T>, acts: seq<Action>, s: State<T>)
    requires Valid(c) && !c.inlined && IsRun(c, Init(c), acts, s)
    ensures Shaped(c, s) && s.active == Occupied(s.inner) <= c.endWidth
    ensures s.pcs[N(c)].AtPull? ==> s.active < c.endWidth
    ensures s.pcs[N(c)].Got? ==> Enabled(c, s, EndFork)
    ensures s.pcs[N(c)].Draining? || (s.pcs[N(c)].SawClosed? && s.active > 0) ==>
      Occupied(s.inner) > 0 && !s.inner.items[s.inner.released].Awaited?
    ensures forall i :: 0 <= i < |s.inner.items| ==> (s.inner.items[i].Awaited? <==> i < s.inner.released)
    ensures s.pcs[N(c)].Exited? ==> s.inner.released == |s.inner.items|
  {
    ReachableInv(c, acts, s);
    forall i | s.inner.released <= i < |s.inner.items| ensures !s.inner.items[i].Awaited? {
      assert ConsumeSlotOk(c, i, s.inner.items[i]);
    }
  }
}
