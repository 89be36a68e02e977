/** What holds of every run of the unordered pipeline: completeness, conservation, bounds. */
module UnorderedTheorems {
  import opened Sums
  import opened Stages
  import opened UnorderedPipeline
  import opened UnorderedAccounting
  import opened UnorderedInvariant
  import opened UnorderedConservation
  import opened UnorderedLiveness

  lemma {:induction false} RunKeepsInv<T>(c: Config<T>, s: State<T>, acts: seq<Action>, s': State<T>)
    requires Inv(c, s) && IsRun(c, s, acts, s')
    ensures Inv(c, s') && |acts| + Measure(c, s') <= Measure(c, s)
    decreases acts
  {
    if acts != [] {
      StepKeepsInv(c, s, acts[0]);
      MeasureFalls(c, s, acts[0]);
      RunKeepsInv(c, Do(c, s, acts[0]), acts[1..], s');
    }
  }

  lemma {:induction false} RunConserves<T>(c: Config<T>, s: State<T>, acts: seq<Action>, s': State<T>, y: T)
    requires Inv(c, s) && IsRun(c, s, acts, s') && Conserved(c, s, y)
    ensures Shaped(c, s') && s'.sent <= |c.inputs| && Conserved(c, s', y)
    decreases acts
  {
    if acts != [] {
      StepKeepsInv(c, s, acts[0]);
      StepConserves(c, s, acts[0], y);
      RunConserves(c, Do(c, s, acts[0]), acts[1..], s', y);
    }
  }

  function WorkersTo<T>(c: Config<T>, m: nat): int {
    if m == 0 then 0 else WorkersTo(c, m - 1) + Width(c, m - 1)
  }

  /** No run is longer than this, whatever the schedule. */
  function StepBound<T>(c: Config<T>): int {
    |c.inputs| * (4 * N(c) + 6) + WorkersTo(c, N(c) + 1) + 3 * N(c) + 3
  }

  lemma {:induction false} InitialLevelsWork<T>(c: Config<T>, m: nat)
    requires m <= N(c) + 1
    ensures LevelsWork(c, Init(c), m) == WorkersTo(c, m)
  {
    if m > 0 {
      InitialLevelsWork(c, m - 1);
      SumOfSame(Init(c).workers[m - 1], AtPull, WorkerWork(c, m - 1));
    }
  }

  lemma InitialMeasure<T>(c: Config<T>)
    ensures Measure(c, Init(c)) == StepBound(c)
  {
    InitialLevelsWork(c, N(c) + 1);
    SumOfSame(Init(c).closers, AwaitingWorkers, CloserWork);
    assert Toll(c, 0) + 2 == 4 * N(c) + 6;
  }

  lemma ReachableInv<T>(c: Config<T>, acts: seq<Action>, s: State<T>)
    requires Valid(c) && IsRun(c, Init(c), acts, s)
    ensures Inv(c, s) && |acts| <= StepBound(c)
  {
    InitInv(c);
    RunKeepsInv(c, Init(c), acts, s);
    MeasureNonNegative(c, s);
    InitialMeasure(c);
  }

  /** Conservation in every state of every run: for each value, the mapped inputs sent are those consumed and
      those still on their way. */
  lemma ReachableConserves<T>(c: Config<T>, acts: seq<Action>, s: State<T>, y: T)
    requires Valid(c) && IsRun(c, Init(c), acts, s)
    ensures Shaped(c, s) && s.sent <= |c.inputs| && Conserved(c, s, y)
  {
    InitInv(c);
    NothingOnTheWayYet(c, y, N(c) + 1);
    assert Mapped(c.stages, c.inputs[..0]) == [];
    RunConserves(c, Init(c), acts, s, y);
  }

  /** Every mapped input, each as often as it occurs. */
  ghost predicate ConsumedAll<T>(c: Config<T>, s: State<T>) {
    multiset(s.consumed) == multiset(Mapped(c.stages, c.inputs))
  }

  lemma FinalMeansAllConsumed<T>(c: Config<T>, s: State<T>)
    requires Inv(c, s) && Final(c, s) && forall y: T :: Conserved(c, s, y)
    ensures ConsumedAll(c, s)
  {
    assert c.inputs[..s.sent] == c.inputs;
    forall k | 0 <= k <= N(c) ensures s.chans[k].items == [] && AllDone(s.workers[k]) {
      assert LevelOk(c, s, k) && WorkerOk(c, s, k, s.workers[k][0]);
    }
    forall y: T ensures multiset(s.consumed)[y] == multiset(Mapped(c.stages, c.inputs))[y] {
      NothingOnTheWay(c, s, y, N(c) + 1);
      assert Conserved(c, s, y);
    }
  }

  /** All workers together, the end stage's included. */
  ghost function AllWorkers<T>(c: Config<T>): int { Sum(c.stages, Parallelism) + c.endWorkers }

  lemma {:induction false} WorkersOfStages<T>(c: Config<T>, m: nat)
    requires m <= |c.stages|
    ensures WorkersTo(c, m) == Sum(c.stages[..m], Parallelism)
  {
    if m > 0 {
      WorkersOfStages(c, m - 1);
      assert c.stages[..m] == c.stages[..m - 1] + [c.stages[m - 1]];
      SumAppend(c.stages[..m - 1], c.stages[m - 1], Parallelism<T>);
    }
  }

  lemma WorkersOfAll<T>(c: Config<T>)
    ensures WorkersTo(c, N(c) + 1) == AllWorkers(c)
  {
    WorkersOfStages(c, N(c));
    assert c.stages[..N(c)] == c.stages;
  }

  /** In every state of every run each level has exactly its workers, and so holds at most that many items. */
  lemma WorkersAsGiven<T>(c: Config<T>, acts: seq<Action>, s: State<T>, k: nat)
    requires Valid(c) && IsRun(c, Init(c), acts, s) && k < |c.stages|
    ensures |s.workers| == |c.stages| + 1
    ensures |s.workers[k]| == c.stages[k].width && |s.workers[|c.stages|]| == c.endWorkers
    ensures Sum(s.workers[k], HasItem) <= c.stages[k].width && Sum(s.workers[|c.stages|], HasItem) <= c.endWorkers
  {
    ReachableInv(c, acts, s);
    assert LevelOk(c, s, k) && LevelOk(c, s, N(c));
    SumOfFlags(s.workers[k], HasItem<T>);
    SumOfFlags(s.workers[|c.stages|], HasItem<T>);
  }

  /** Main theorem.  For any worker counts and any schedule, including workers that run before the stages
      after them exist: runs are bounded in length, a run stops only when everything has been closed, drained
      and joined, and then exactly the mapped inputs have been consumed. */
  lemma EveryRun<T>(c: Config<T>, acts: seq<Action>, s: State<T>)
    requires Valid(c) && IsRun(c, Init(c), acts, s)
    ensures |acts| <= |c.inputs| * (4 * |c.stages| + 6) + AllWorkers(c) + 3 * |c.stages| + 3
    ensures Stuck(c, s) <==> Final(c, s)
    ensures Final(c, s) ==> ConsumedAll(c, s)
  {
    ReachableInv(c, acts, s);
    WorkersOfAll(c);
    if Stuck(c, s) {
      NeverDeadlocked(c, s);
    }
    if Final(c, s) {
      forall y: T ensures Conserved(c, s, y) {
        ReachableConserves(c, acts, s, y);
      }
      FinalMeansAllConsumed(c, s);
    }
  }

  /** No post, the driver's included, ever finds its channel closed, so ignoring its result loses nothing. */
  lemma PostsSucceed<T>(c: Config<T>, acts: seq<Action>, s: State<T>, a: Action)
    requires Valid(c) && IsRun(c, Init(c), acts, s) && Enabled(c, s, a)
    ensures a == DriverPost ==> !s.chans[0].closed
    ensures a.Post? ==> !s.chans[a.k + 1].closed
  {
    ReachableInv(c, acts, s);
    if a.Post? {
      assert CloserOk(c, s, a.k);
      OutputOpen(c, s, a.k, a.j);
    }
  }

  /** Permit conservation, in every state of every run. */
  lemma PermitsAlwaysConserved<T>(c: Config<T>, acts: seq<Action>, s: State<T>, k: nat)
    requires Valid(c) && IsRun(c, Init(c), acts, s) && k <= |c.stages| && (k > 0 || c.gated)
    ensures Shaped(c, s)
    ensures s.permits[k] + InHand(s, k) + |s.chans[k].items| + Sum(s.workers[k], HasPulled)
         == if k < s.built then 2 * (if k == |c.stages| then c.endWorkers else c.stages[k].width) else 0
    ensures |s.chans[k].items| <= 2 * if k == |c.stages| then c.endWorkers else c.stages[k].width
  {
    ReachableInv(c, acts, s);
    assert PermitsConserved(c, s, k);
    SumOfOnes(s.chans[k].items);
    SumOfFlags(s.workers[k], HasPulled<T>);
    InHandNonNegative(s, k);
  }

  lemma InHandNonNegative<T>(s: State<T>, k: nat)
    requires k <= |s.workers| && k <= |s.chans|
    ensures InHand(s, k) >= 0
  {
    if k > 0 {
      SumOfFlags(s.workers[k - 1], IsCleared<T>);
      SumOfZeros(s.chans[k - 1].items, Zero<T>);
    }
  }

  // ---------- Items in flight ----------

  ghost function InFlight<T>(s: State<T>, m: nat): int
    requires m <= |s.chans| && m <= |s.workers|
  {
    if m == 0 then 0 else InFlight(s, m - 1) + Load(s, m - 1, One, HasItem)
  }

  lemma {:induction false} HoldingPastPulled<T>(workers: seq<Pc<T>>)
    ensures Sum(workers, HasItem) <= Sum(workers, HasPulled) + |workers|
  {
    if workers != [] {
      HoldingPastPulled(workers[1..]);
    }
  }

  lemma {:induction false} InFlightBounded<T>(c: Config<T>, s: State<T>, m: nat)
    requires Inv(c, s) && c.gated && m <= N(c) + 1
    ensures 0 <= InFlight(s, m) <= 3 * WorkersTo(c, m)
  {
    if m > 0 {
      var k := m - 1;
      InFlightBounded(c, s, k);
      assert PermitsConserved(c, s, k) && LevelOk(c, s, k);
      InHandNonNegative(s, k);
      HoldingPastPulled(s.workers[k]);
      SumNonNegative(s.workers[k], HasItem<T>);
      SumNonNegative(s.chans[k].items, One<T>);
    }
  }

  /** What a step adds to the items in flight below level m. */
  function ItemFlow<T>(c: Config<T>, a: Action, m: nat): int {
    match a
    case DriverPost => if m > 0 then 1 else 0
    case Post(k, _) => if m == k + 1 then -1 else 0
    case Consume(_) => if m > N(c) then -1 else 0
    case _ => 0
  }

  lemma LevelItemsChange<T>(c: Config<T>, s: State<T>, a: Action, k: nat)
    requires Inv(c, s) && Enabled(c, s, a) && k <= N(c)
    ensures Delta(c, s, a, k, One, HasItem) == ItemFlow(c, a, k + 1) - ItemFlow(c, a, k)
  {
    if a.Post? {
      assert CloserOk(c, s, a.k);
      OutputOpen(c, s, a.k, a.j);
    }
  }

  lemma {:induction false} InFlightChanges<T>(c: Config<T>, s: State<T>, a: Action, m: nat)
    requires Inv(c, s) && Enabled(c, s, a) && m <= N(c) + 1
    ensures Shaped(c, Do(c, s, a))
    ensures InFlight(Do(c, s, a), m) == InFlight(s, m) + ItemFlow(c, a, m)
  {
    if m > 0 {
      InFlightChanges(c, s, a, m - 1);
      StepBalances(c, s, a, m - 1, One<T>, HasItem<T>);
      LevelItemsChange(c, s, a, m - 1);
    }
  }

  lemma {:induction false} RunCountsItems<T>(c: Config<T>, s: State<T>, acts: seq<Action>, s': State<T>)
    requires Inv(c, s) && IsRun(c, s, acts, s') && s.sent == |s.consumed| + InFlight(s, N(c) + 1)
    ensures Shaped(c, s') && s'.sent == |s'.consumed| + InFlight(s', N(c) + 1)
    decreases acts
  {
    if acts != [] {
      StepKeepsInv(c, s, acts[0]);
      InFlightChanges(c, s, acts[0], N(c) + 1);
      RunCountsItems(c, Do(c, s, acts[0]), acts[1..], s');
    }
  }

  lemma {:induction false} NothingInFlightYet<T>(c: Config<T>, m: nat)
    requires m <= N(c) + 1
    ensures InFlight(Init(c), m) == 0
  {
    if m > 0 {
      NothingInFlightYet(c, m - 1);
      SumOfSame(Init(c).workers[m - 1], AtPull, HasItem<T>);
    }
  }

  /** Backpressure: the items posted and not yet consumed never exceed three per worker. */
  lemma ItemsInFlightBounded<T>(c: Config<T>, acts: seq<Action>, s: State<T>)
    requires Valid(c) && c.gated && IsRun(c, Init(c), acts, s)
    ensures 0 <= s.sent - |s.consumed| <= 3 * AllWorkers(c)
  {
    ReachableInv(c, acts, s);
    WorkersOfAll(c);
    InitInv(c);
    NothingInFlightYet(c, N(c) + 1);
    RunCountsItems(c, Init(c), acts, s);
    InFlightBounded(c, s, N(c) + 1);
  }
}
