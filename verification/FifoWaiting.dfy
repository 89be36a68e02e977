/** What each party of the FIFO pipeline waits for, and that it waits for nothing else. */
module FifoWaiting {
  import opened Stages
  import opened FifoPipeline
  import opened FifoInvariant
  import opened FifoTheorems

  /** Stages and parallelism that are not zero are all the pipeline needs; the inline worker is one at a time. */
  lemma DefinedForAnyParallelism<T>(stages: seq<Stage<T>>, inputs: seq<T>, endWidth: nat, inlined: bool)
    requires |stages| >= 1 && endWidth >= 1 && forall k :: 0 <= k < |stages| ==> stages[k].width >= 1
    ensures Valid(Config(stages, inputs, endWidth, inlined)) <==> !inlined || endWidth == 1
  {
  }

  // ---------- The queues ----------

  /** In every state of every run a queue holds no more elements than the parallelism that sized it; and what
      the driver or a worker has to push goes in at once exactly if it holds fewer. */
  lemma QueuesHoldTheirParallelism<T>(c: Config<T>, acts: seq<Action>, s: State<T>, k: nat)
    requires Valid(c) && IsRun(c, Init(c), acts, s) && k < |c.stages|
    ensures |s.queues| == |c.stages| + 1
    ensures 0 <= |s.queues[0].items| - s.queues[0].released <= c.stages[0].width
    ensures 0 <= |s.queues[k + 1].items| - s.queues[k + 1].released <= c.stages[k].width
    ensures !s.queues[0].closed && |s.queues[0].items| < |c.inputs| ==>
      (Enabled(c, s, DriverPush) <==> |s.queues[0].items| - s.queues[0].released < c.stages[0].width)
    ensures Shaped(c, s) && (s.pcs[k].Got? ==>
      (Enabled(c, s, Fork(k)) <==> |s.queues[k + 1].items| - s.queues[k + 1].released < c.stages[k].width))
  {
    ReachableInv(c, acts, s);
    assert StationOk(c, 0, s.queues[0], s.pcs[0]) && StationOk(c, k + 1, s.queues[k + 1], s.pcs[k + 1]);
  }

  // ---------- The coroutines ----------

  /** The steps of the consumer of queue k: a transform worker, or the end worker. */
  predicate IsStepOf<T>(c: Config<T>, a: Action, k: nat) {
    match a
    case Pull(l) => l == k
    case Await(l) => l == k
    case Fork(l) => l == k
    case Release(l) => l == k
    case SeeClosed(l) => l == k
    case Close(l) => l == k
    case EndFork => k == |c.stages|
    case EndDrain => k == |c.stages|
    case EndBegin => k == |c.stages|
    case EndReturn => k == |c.stages|
    case EndExit => k == |c.stages|
    case _ => false
  }

  ghost predicate CanMove<T>(c: Config<T>, s: State<T>, k: nat) { exists a :: IsStepOf(c, a, k) && Enabled(c, s, a) }

  /** The consumer waits for an element of a queue that is empty and open. */
  predicate AwaitsElement<T>(s: State<T>, k: nat)
    requires k < |s.queues| && k < |s.pcs|
  {
    s.pcs[k].AtPull? && !s.queues[k].closed && |s.queues[k].items| == s.queues[k].released
  }

  /** The consumer waits for the task whose handle it has pulled. */
  predicate AwaitsTask<T>(s: State<T>, k: nat)
    requires k < |s.queues| && k < |s.pcs|
  {
    s.pcs[k].Holding? && s.queues[k].released < |s.queues[k].items| && s.queues[k].items[s.queues[k].released].Running?
  }

  /** The driver can push, or close, unless it has closed or the queue is as full as the start stage is parallel. */
  lemma DriverWaits<T>(c: Config<T>, acts: seq<Action>, s: State<T>)
    requires Valid(c) && IsRun(c, Init(c), acts, s)
    ensures Shaped(c, s)
    ensures (Enabled(c, s, DriverPush) || Enabled(c, s, DriverClose)) <==>
      var q := s.queues[0];
      !q.closed && (|q.items| < |c.inputs| ==> |q.items| - q.released != c.stages[0].width)
  {
    ReachableInv(c, acts, s);
    assert StationOk(c, 0, s.queues[0], s.pcs[0]);
  }

  /** The consumer of queue k waits for room for what it is about to push. */
  predicate AwaitsRoom<T>(c: Config<T>, s: State<T>, k: nat)
    requires Shaped(c, s) && k < |c.stages|
  {
    s.pcs[k].Got? && |s.queues[k + 1].items| - s.queues[k + 1].released == c.stages[k].width
  }

  /** The end worker waits for its oldest consume task. */
  predicate AwaitsOldest<T>(c: Config<T>, s: State<T>)
    requires Shaped(c, s)
  {
    && (s.pcs[|c.stages|].Draining? || (s.pcs[|c.stages|].SawClosed? && s.active > 0))
    && s.inner.released < |s.inner.items| && !s.inner.items[s.inner.released].Ready?
  }

  /** The one step that the consumer's place in its loop allows. */
  function Next<T>(c: Config<T>, s: State<T>, k: nat): Action
    requires Shaped(c, s) && k <= |c.stages|
  {
    match s.pcs[k]
    case AtPull => if |s.queues[k].items| > s.queues[k].released then Pull(k) else SeeClosed(k)
    case Holding => Await(k)
    case Got(_) => if k < |c.stages| then Fork(k) else if c.inlined then EndBegin else EndFork
    case Consuming(_) => EndReturn
    case Draining => EndDrain
    case AtRelease => Release(k)
    case SawClosed => if k < |c.stages| then Close(k) else if s.active > 0 then EndDrain else EndExit
    case Exited => EndExit
  }

  /** A coroutine is sequential: in every state at most one step is its own. */
  lemma OnlyNext<T>(c: Config<T>, s: State<T>, a: Action, k: nat)
    requires Enabled(c, s, a) && k <= |c.stages| && IsStepOf(c, a, k)
    requires s.pcs[k].Draining? || s.pcs[k].Consuming? ==> k == |c.stages|
    ensures a == Next(c, s, k)
  {
  }

  lemma WorkerNext<T>(c: Config<T>, s: State<T>, k: nat)
    requires Valid(c) && Shaped(c, s) && k < |c.stages| && StationOk(c, k, s.queues[k], s.pcs[k])
    requires StationOk(c, k + 1, s.queues[k + 1], s.pcs[k + 1]) && !s.pcs[k].Exited?
    ensures IsStepOf(c, Next(c, s, k), k)
    ensures Enabled(c, s, Next(c, s, k)) <==> !AwaitsElement(s, k) && !AwaitsTask(s, k) && !AwaitsRoom(c, s, k)
  {
    var q := s.queues[k];
    if s.pcs[k].Holding? {
      assert SlotOk(c, k, q.released, q.items[q.released]);
    }
  }

  lemma EndNext<T>(c: Config<T>, s: State<T>)
    requires Valid(c) && Shaped(c, s) && InnerOk(c, s)
    requires StationOk(c, |c.stages|, s.queues[|c.stages|], s.pcs[|c.stages|]) && !s.pcs[|c.stages|].Exited?
    ensures IsStepOf(c, Next(c, s, |c.stages|), |c.stages|)
    ensures Enabled(c, s, Next(c, s, |c.stages|)) <==>
      !AwaitsElement(s, |c.stages|) && !AwaitsTask(s, |c.stages|) && !AwaitsOldest(c, s)
  {
    var q := s.queues[|c.stages|];
    if s.pcs[|c.stages|].Holding? {
      assert SlotOk(c, |c.stages|, q.released, q.items[q.released]);
    }
  }

  lemma CanMoveNext<T>(c: Config<T>, s: State<T>, k: nat)
    requires Shaped(c, s) && k <= |c.stages| && StationOk(c, k, s.queues[k], s.pcs[k])
    requires !s.pcs[k].Exited? ==> IsStepOf(c, Next(c, s, k), k)
    ensures CanMove(c, s, k) <==> !s.pcs[k].Exited? && Enabled(c, s, Next(c, s, k))
  {
    if a :| IsStepOf(c, a, k) && Enabled(c, s, a) {
      OnlyNext(c, s, a, k);
    }
  }

  /** A transform worker that has not returned waits for an element, for the task of the one it has, or for room
      among the tasks it has forked, of which there may be as many as its parallelism; and for nothing else. */
  lemma WorkerWaits<T>(c: Config<T>, acts: seq<Action>, s: State<T>, k: nat)
    requires Valid(c) && IsRun(c, Init(c), acts, s) && k < |c.stages|
    ensures Shaped(c, s)
    ensures CanMove(c, s, k) <==>
      !s.pcs[k].Exited? && !AwaitsElement(s, k) && !AwaitsTask(s, k) && !AwaitsRoom(c, s, k)
  {
    ReachableInv(c, acts, s);
    assert StationOk(c, k, s.queues[k], s.pcs[k]) && StationOk(c, k + 1, s.queues[k + 1], s.pcs[k + 1]);
    if !s.pcs[k].Exited? {
      WorkerNext(c, s, k);
    }
    CanMoveNext(c, s, k);
  }

  /** The end worker, inline or not, waits for an element, for the task of the one it has, or for its oldest
      consume task when there are as many as its parallelism or no more elements; and for nothing else. */
  lemma EndStageWaits<T>(c: Config<T>, acts: seq<Action>, s: State<T>)
    requires Valid(c) && IsRun(c, Init(c), acts, s)
    ensures Shaped(c, s)
    ensures var n := |c.stages|;
      CanMove(c, s, n) <==> !s.pcs[n].Exited? && !AwaitsElement(s, n) && !AwaitsTask(s, n) && !AwaitsOldest(c, s)
    ensures s.pcs[|c.stages|].Draining? <==> s.active == c.endWidth
    ensures s.active == |s.inner.items| - s.inner.released
  {
    ReachableInv(c, acts, s);
    var n := |c.stages|;
    assert StationOk(c, n, s.queues[n], s.pcs[n]);
    if !s.pcs[n].Exited? {
      EndNext(c, s);
    }
    CanMoveNext(c, s, n);
  }

  // ---------- The end stage's two workers ----------

  lemma WorkerOfConfig<T>(c: Config<T>, s: State<T>)
    requires Shaped(c, s) && InnerOk(c, s)
    ensures c.inlined ==> s.inner.items == [] && !Enabled(c, s, EndFork)
    ensures !c.inlined ==> !s.pcs[|c.stages|].Consuming? && !Enabled(c, s, EndBegin)
  {
  }

  /** The end stage's constructor runs the inline worker at parallelism 1 and the general worker otherwise; what
      it builds is defined for any stages and any parallelism that are not zero. */
  lemma ConstructedWorker<T>(stages: seq<Stage<T>>, inputs: seq<T>, endWidth: nat, acts: seq<Action>, s: State<T>)
    requires |stages| >= 1 && endWidth >= 1 && forall k :: 0 <= k < |stages| ==> stages[k].width >= 1
    requires var c := Constructed(stages, inputs, endWidth); IsRun(c, Init(c), acts, s)
    ensures var c := Constructed(stages, inputs, endWidth);
      Valid(c) && c.stages == stages && c.inputs == inputs && c.endWidth == endWidth && Shaped(c, s)
    ensures endWidth == 1 ==> s.inner.items == [] && !Enabled(Constructed(stages, inputs, endWidth), s, EndFork)
    ensures endWidth > 1 ==>
      !s.pcs[|stages|].Consuming? && !Enabled(Constructed(stages, inputs, endWidth), s, EndBegin)
  {
    var c := Constructed(stages, inputs, endWidth);
    ReachableInv(c, acts, s);
    WorkerOfConfig(c, s);
  }

  // ---------- The tasks ----------

  ghost predicate Distinct(order: seq<nat>) { forall i, j :: 0 <= i < j < |order| ==> order[i] != order[j] }

  function ForEach(order: seq<nat>, step: nat -> Action): seq<Action> {
    seq(|order|, i requires 0 <= i < |order| => step(order[i]))
  }

  function Finishes(k: nat): nat -> Action { (i: nat) => Finish(k, i) }

  function Begins(): nat -> Action { (i: nat) => EndStart(i) }

  function Ends(): nat -> Action { (i: nat) => EndFinish(i) }

  lemma ForEachTail(order: seq<nat>, step: nat -> Action)
    requires order != []
    ensures ForEach(order, step)[1..] == ForEach(order[1..], step)
  {
  }

  /** The tasks that a stage has running may finish in any order. */
  lemma {:induction false} TasksFinishInAnyOrder<T>(c: Config<T>, s: State<T>, k: nat, order: seq<nat>)
    returns (s': State<T>)
    requires Shaped(c, s) && 1 <= k <= |c.stages| && Distinct(order)
    requires forall i :: i in order ==> i < |s.queues[k].items| && s.queues[k].items[i].Running?
    ensures IsRun(c, s, ForEach(order, Finishes(k)), s')
    ensures |s'.queues| == |s.queues| && |s'.queues[k].items| == |s.queues[k].items|
    ensures forall i | i in order ::
      s'.queues[k].items[i] == Ready(c.stages[k - 1].f(s.queues[k].items[i].arg))
    ensures forall i | 0 <= i < |s.queues[k].items| && i !in order :: s'.queues[k].items[i] == s.queues[k].items[i]
    decreases |order|
  {
    if order == [] {
      s' := s;
    } else {
      var first, rest := order[0], order[1..];
      assert first in order;
      var s1 := Do(c, s, Finish(k, first));
      assert forall i :: i in order <==> i == first || i in rest;
      s' := TasksFinishInAnyOrder(c, s1, k, rest);
      ForEachTail(order, Finishes(k));
    }
  }

  /** The consume tasks that have been forked may call the consume function in any order. */
  lemma {:induction false} CallsBeginInAnyOrder<T>(c: Config<T>, s: State<T>, order: seq<nat>) returns (s': State<T>)
    requires Shaped(c, s) && Distinct(order)
    requires forall m :: 0 <= m < |order| ==> order[m] < |s.inner.items| && s.inner.items[order[m]].Forked?
    ensures IsRun(c, s, ForEach(order, Begins()), s')
    ensures |s'.begun| == |s.begun| + |order| && s.begun <= s'.begun
    ensures forall m | 0 <= m < |order| :: s'.begun[|s.begun| + m] == s.inner.items[order[m]].arg
    decreases |order|
  {
    if order == [] {
      s' := s;
    } else {
      var s1 := Do(c, s, EndStart(order[0]));
      assert forall m :: 0 <= m < |order| - 1 ==> order[1..][m] == order[m + 1] != order[0];
      s' := CallsBeginInAnyOrder(c, s1, order[1..]);
      ForEachTail(order, Begins());
    }
  }

  /** The consume calls in progress may end in any order. */
  lemma {:induction false} CallsEndInAnyOrder<T>(c: Config<T>, s: State<T>, order: seq<nat>) returns (s': State<T>)
    requires Shaped(c, s) && Distinct(order)
    requires forall m :: 0 <= m < |order| ==> order[m] < |s.inner.items| && s.inner.items[order[m]].Running?
    ensures IsRun(c, s, ForEach(order, Ends()), s')
    ensures |s'.ended| == |s.ended| + |order| && s.ended <= s'.ended
    ensures forall m | 0 <= m < |order| :: s'.ended[|s.ended| + m] == s.inner.items[order[m]].arg
    decreases |order|
  {
    if order == [] {
      s' := s;
    } else {
      var s1 := Do(c, s, EndFinish(order[0]));
      assert forall m :: 0 <= m < |order| - 1 ==> order[1..][m] == order[m + 1] != order[0];
      s' := CallsEndInAnyOrder(c, s1, order[1..]);
      ForEachTail(order, Ends());
    }
  }
}
