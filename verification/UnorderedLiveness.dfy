/** The unordered pipeline cannot deadlock, whatever the order in which stages are built and workers start,
    and a measure falls on every step. */
module UnorderedLiveness {
  import opened Sums
  import opened UnorderedPipeline
  import opened UnorderedAccounting
  import opened UnorderedInvariant

  // ---------- Deadlock freedom ----------

  predicate Resting<T>(w: Pc<T>) { w.AtPull? || w.Done? }

  /** Channel `k` is empty and none of its consumers has an item in hand. */
  ghost predicate Quiet<T>(s: State<T>, k: nat)
    requires k < |s.chans| && k < |s.workers|
  {
    s.chans[k].items == [] && forall j :: 0 <= j < |s.workers[k]| ==> Resting(s.workers[k][j])
  }

  lemma AllBuilt<T>(c: Config<T>, s: State<T>)
    requires Inv(c, s) && Stuck(c, s)
    ensures s.built == N(c) + 1
  {
    assert !Enabled(c, s, Build);
  }

  /** If everything from channel `k` on is quiet, its producers can get permits: some are available. */
  lemma PermitsAvailable<T>(c: Config<T>, s: State<T>, k: nat)
    requires Inv(c, s) && Stuck(c, s) && k <= N(c) && Gated(c, k) && Quiet(s, k)
    ensures s.permits[k] > 0
  {
    AllBuilt(c, s);
    assert PermitsConserved(c, s, k);
    SumOfZeros(s.workers[k], HasPulled<T>);
    if k == 0 {
      assert !Enabled(c, s, DriverPost);
    } else {
      var producers := s.workers[k - 1];
      forall j | 0 <= j < |producers| ensures !producers[j].Cleared? {
        assert !Enabled(c, s, Post(k - 1, j));
      }
      SumOfZeros(producers, IsCleared<T>);
      SumOfZeros(s.chans[k - 1].items, Zero<T>);
    }
  }

  /** When nothing can move, no worker has an item in hand and every channel is empty: from the end backwards. */
  lemma {:induction false} StuckIsQuiet<T>(c: Config<T>, s: State<T>, k: nat)
    requires Inv(c, s) && Stuck(c, s) && k <= N(c)
    ensures Quiet(s, k)
    decreases N(c) - k
  {
    AllBuilt(c, s);
    assert LevelOk(c, s, k);
    if k < N(c) {
      StuckIsQuiet(c, s, k + 1);
      PermitsAvailable(c, s, k + 1);
    }
    forall j | 0 <= j < |s.workers[k]| ensures Resting(s.workers[k][j]) {
      assert WorkerOk(c, s, k, s.workers[k][j]);
      assert !Enabled(c, s, GivePermit(k, j));
      if k < N(c) {
        assert !Enabled(c, s, Acquire(k, j)) && !Enabled(c, s, Post(k, j));
      } else {
        assert !Enabled(c, s, Consume(j));
      }
    }
    assert WorkerOk(c, s, k, s.workers[k][0]) && !Enabled(c, s, Pull(k, 0));
  }

  /** When nothing can move, every channel is closed and every worker has left: from the driver forwards. */
  lemma {:induction false} StuckIsClosed<T>(c: Config<T>, s: State<T>, k: nat)
    requires Inv(c, s) && Stuck(c, s) && k <= N(c)
    ensures s.driver.Joining? && s.chans[k].closed && AllDone(s.workers[k])
    ensures k < N(c) ==> s.closers[k].Finished?
  {
    AllBuilt(c, s);
    StuckIsQuiet(c, s, k);
    if k == 0 {
      if c.gated {
        PermitsAvailable(c, s, 0);
      }
      assert !Enabled(c, s, DriverAcquire) && !Enabled(c, s, DriverPost);
      assert !Enabled(c, s, DriverClose) && !Enabled(c, s, DriverDrained);
    } else {
      StuckIsClosed(c, s, k - 1);
      assert CloserOk(c, s, k - 1);
    }
    forall j | 0 <= j < |s.workers[k]| ensures s.workers[k][j].Done? {
      assert Resting(s.workers[k][j]) && !Enabled(c, s, Leave(k, j));
    }
    if k < N(c) {
      StuckIsQuiet(c, s, k + 1);
      assert !Enabled(c, s, CloseOutput(k)) && !Enabled(c, s, OutputDrained(k));
    }
  }

  lemma NeverDeadlocked<T>(c: Config<T>, s: State<T>)
    requires Inv(c, s) && Stuck(c, s)
    ensures Final(c, s)
    ensures forall k :: 0 <= k <= N(c) ==> s.chans[k].items == []
  {
    AllBuilt(c, s);
    forall k | 0 <= k <= N(c)
      ensures s.driver.Joining? && AllDone(s.workers[k]) && s.chans[k].items == []
      ensures k < N(c) ==> s.closers[k].Finished?
    {
      StuckIsQuiet(c, s, k);
      StuckIsClosed(c, s, k);
    }
    StuckIsClosed(c, s, 0);
  }

  // ---------- Termination ----------

  /** The steps an item entering channel `k` still has before it, at most. */
  function Toll<T>(c: Config<T>, k: nat): int { 4 * (N(c) + 1 - k) }

  function ItemWork<T>(c: Config<T>, k: nat): T -> int { x => Toll(c, k) }

  function WorkerWork<T>(c: Config<T>, k: nat): Pc<T> -> int {
    (w: Pc<T>) =>
      match w
      case AtPull => 1
      case Pulled(_) => Toll(c, k)
      case Free(_) => Toll(c, k) - 1
      case Cleared(_) => Toll(c, k) - 2
      case Done => 0
  }

  ghost function LevelWork<T>(c: Config<T>, s: State<T>, k: nat): int
    requires k < |s.chans| && k < |s.workers|
  {
    Load(s, k, ItemWork(c, k), WorkerWork(c, k))
  }

  ghost function LevelsWork<T>(c: Config<T>, s: State<T>, m: nat): int
    requires m <= |s.chans| && m <= |s.workers|
  {
    if m == 0 then 0 else LevelsWork(c, s, m - 1) + LevelWork(c, s, m - 1)
  }

  function CloserWork(d: Closer): int {
    match d
    case AwaitingWorkers => 2
    case DrainingOutput => 1
    case Finished => 0
  }

  function DriverWork<T>(c: Config<T>, s: State<T>): int {
    (|c.inputs| - s.sent) * (Toll(c, 0) + 2) +
    match s.driver
    case AtAcquire => 2
    case Acquired => 1
    case Draining => 1
    case Joining => 0
  }

  ghost function Measure<T>(c: Config<T>, s: State<T>): int
    requires Shaped(c, s)
  {
    LevelsWork(c, s, N(c) + 1) + DriverWork(c, s) + Sum(s.closers, CloserWork) + (N(c) + 1 - s.built)
  }

  /** What a step adds to the work of levels below m. */
  function WorkFlow<T>(c: Config<T>, a: Action, m: nat): int {
    match a
    case DriverPost => if m > 0 then Toll(c, 0) else 0
    case Pull(k, _) => if m > k then -1 else 0
    case GivePermit(k, _) => if m > k then -1 else 0
    case Acquire(k, _) => if m > k then -1 else 0
    case Post(k, _) => if m > k + 1 then -1 else if m == k + 1 then 3 - Toll(c, k) else 0
    case Consume(_) => if m > N(c) then -2 else 0
    case Leave(k, _) => if m > k then -1 else 0
    case _ => 0
  }

  lemma LevelWorkChanges<T>(c: Config<T>, s: State<T>, a: Action, k: nat)
    requires Inv(c, s) && Enabled(c, s, a) && k <= N(c)
    ensures Delta(c, s, a, k, ItemWork(c, k), WorkerWork(c, k)) == WorkFlow(c, a, k + 1) - WorkFlow(c, a, k)
  {
    if a.Post? {
      assert CloserOk(c, s, a.k);
      OutputOpen(c, s, a.k, a.j);
    }
  }

  lemma {:induction false} LevelsWorkChanges<T>(c: Config<T>, s: State<T>, a: Action, m: nat)
    requires Inv(c, s) && Enabled(c, s, a) && m <= N(c) + 1
    ensures Shaped(c, Do(c, s, a))
    ensures LevelsWork(c, Do(c, s, a), m) == LevelsWork(c, s, m) + WorkFlow(c, a, m)
  {
    if m > 0 {
      LevelsWorkChanges(c, s, a, m - 1);
      StepBalances(c, s, a, m - 1, ItemWork(c, m - 1), WorkerWork(c, m - 1));
      LevelWorkChanges(c, s, a, m - 1);
    }
  }

  lemma OneInputLess(left: int, toll: int)
    ensures (left - 1) * (toll + 2) == left * (toll + 2) - toll - 2
    ensures left >= 0 && toll >= 0 ==> left * (toll + 2) >= 0
  {
  }

  lemma DriverWorkChanges<T>(c: Config<T>, s: State<T>, a: Action)
    requires Enabled(c, s, a)
    ensures DriverWork(c, Do(c, s, a)) == DriverWork(c, s) +
      if a == DriverPost then -Toll(c, 0) - 1
      else if a == DriverAcquire || a == DriverClose || a == DriverDrained then -1
      else 0
  {
  }

  lemma CloserWorkChanges<T>(c: Config<T>, s: State<T>, a: Action)
    requires Enabled(c, s, a)
    ensures Sum(Do(c, s, a).closers, CloserWork)
         == Sum(s.closers, CloserWork) - if a.CloseOutput? || a.OutputDrained? then 1 else 0
  {
    match a
    case CloseOutput(k) => SumUpdate(s.closers, k, DrainingOutput, CloserWork);
    case OutputDrained(k) => SumUpdate(s.closers, k, Finished, CloserWork);
    case _ =>
  }

  /** Every step, of whichever party, makes the measure fall. */
  lemma MeasureFalls<T>(c: Config<T>, s: State<T>, a: Action)
    requires Inv(c, s) && Enabled(c, s, a)
    ensures Measure(c, Do(c, s, a)) < Measure(c, s)
  {
    LevelsWorkChanges(c, s, a, N(c) + 1);
    DriverWorkChanges(c, s, a);
    CloserWorkChanges(c, s, a);
  }

  lemma {:induction false} LevelsWorkNonNegative<T>(c: Config<T>, s: State<T>, m: nat)
    requires Shaped(c, s) && m <= N(c) + 1
    ensures LevelsWork(c, s, m) >= 0
  {
    if m > 0 {
      LevelsWorkNonNegative(c, s, m - 1);
      SumNonNegative(s.chans[m - 1].items, ItemWork(c, m - 1));
      SumNonNegative(s.workers[m - 1], WorkerWork(c, m - 1));
    }
  }

  lemma MeasureNonNegative<T>(c: Config<T>, s: State<T>)
    requires Inv(c, s)
    ensures Measure(c, s) >= 0
  {
    LevelsWorkNonNegative(c, s, N(c) + 1);
    SumNonNegative(s.closers, CloserWork);
    OneInputLess(|c.inputs| - s.sent, Toll(c, 0));
  }
}
