/** What each party of the unordered pipeline waits for, and that it waits for nothing else. */
module UnorderedWaiting {
  import opened Stages
  import opened UnorderedPipeline
  import opened UnorderedInvariant
  import opened UnorderedTheorems

  /** Stages and worker counts that are not zero are all the pipeline needs. */
  lemma DefinedForAnyWorkers<T>(stages: seq<Stage<T>>, inputs: seq<T>, endWorkers: nat, gated: bool)
    requires |stages| >= 1 && endWorkers >= 1 && forall k :: 0 <= k < |stages| ==> stages[k].width >= 1
    ensures Valid(Config(stages, inputs, endWorkers, gated))
  {
  }

  // ---------- Workers ----------

  /** The steps of worker j of level k. */
  predicate IsStepOf<T>(c: Config<T>, a: Action, k: nat, j: nat) {
    match a
    case Pull(l, i) => l == k && i == j
    case GivePermit(l, i) => l == k && i == j
    case Acquire(l, i) => l == k && i == j
    case Post(l, i) => l == k && i == j
    case Consume(i) => k == |c.stages| && i == j
    case Leave(l, i) => l == k && i == j
    case _ => false
  }

  ghost predicate CanMove<T>(c: Config<T>, s: State<T>, k: nat, j: nat) {
    exists a :: IsStepOf(c, a, k, j) && Enabled(c, s, a)
  }

  /** The worker waits for an item of a channel that is empty and open. */
  predicate AwaitsItem<T>(s: State<T>, k: nat, j: nat)
    requires k < |s.chans| && k < |s.workers| && j < |s.workers[k]|
  {
    s.workers[k][j].AtPull? && s.chans[k].items == [] && !s.chans[k].closed
  }

  /** The worker of a transform stage waits for a permit to post. */
  predicate AwaitsPermit<T>(c: Config<T>, s: State<T>, k: nat, j: nat)
    requires Shaped(c, s) && k <= |c.stages| && j < |s.workers[k]|
  {
    k < |c.stages| && s.workers[k][j].Free? && s.permits[k + 1] == 0
  }

  /** The one step that the worker's place in its loop allows. */
  function Next<T>(c: Config<T>, s: State<T>, k: nat, j: nat): Action
    requires Shaped(c, s) && k <= |c.stages| && j < |s.workers[k]|
  {
    match s.workers[k][j]
    case AtPull => if s.chans[k].items != [] then Pull(k, j) else Leave(k, j)
    case Pulled(_) => GivePermit(k, j)
    case Free(_) => if k == |c.stages| then Consume(j) else Acquire(k, j)
    case Cleared(_) => Post(k, j)
    case Done => Leave(k, j)
  }

  /** A worker is sequential: in every state at most one step is its own. */
  lemma OnlyNext<T>(c: Config<T>, s: State<T>, a: Action, k: nat, j: nat)
    requires Enabled(c, s, a) && k <= |c.stages| && j < |s.workers[k]| && IsStepOf(c, a, k, j)
    ensures a == Next(c, s, k, j)
  {
  }

  lemma NextEnabled<T>(c: Config<T>, s: State<T>, k: nat, j: nat)
    requires Shaped(c, s) && k <= |c.stages| && j < |s.workers[k]| && WorkerOk(c, s, k, s.workers[k][j])
    ensures IsStepOf(c, Next(c, s, k, j), k, j)
    ensures Enabled(c, s, Next(c, s, k, j)) <==>
      k < s.built && !s.workers[k][j].Done? && !AwaitsItem(s, k, j) && !AwaitsPermit(c, s, k, j)
  {
  }

  /** A worker that has been started and has not left waits for an item, or for a permit to post the one it has;
      for nothing else, and any of a stage's workers that are waiting may be the one to go on. */
  lemma WorkerWaits<T>(c: Config<T>, acts: seq<Action>, s: State<T>, k: nat, j: nat)
    requires Valid(c) && IsRun(c, Init(c), acts, s) && k <= |c.stages|
    requires j < if k == |c.stages| then c.endWorkers else c.stages[k].width
    ensures Shaped(c, s) && j < |s.workers[k]|
    ensures CanMove(c, s, k, j) <==>
      k < s.built && !s.workers[k][j].Done? && !AwaitsItem(s, k, j) && !AwaitsPermit(c, s, k, j)
  {
    ReachableInv(c, acts, s);
    assert LevelOk(c, s, k) && WorkerOk(c, s, k, s.workers[k][j]);
    NextEnabled(c, s, k, j);
    if a :| IsStepOf(c, a, k, j) && Enabled(c, s, a) {
      OnlyNext(c, s, a, k, j);
    }
  }

  // ---------- The other parties ----------

  predicate IsDriverStep(a: Action) { a == DriverAcquire || a == DriverPost || a == DriverClose || a == DriverDrained }

  /** The driver waits for a permit, if the input is gated, and at the end for the input channel to be drained. */
  lemma DriverWaits<T>(c: Config<T>, acts: seq<Action>, s: State<T>)
    requires Valid(c) && IsRun(c, Init(c), acts, s)
    ensures Shaped(c, s)
    ensures (exists a :: IsDriverStep(a) && Enabled(c, s, a)) <==>
      && !s.driver.Joining?
      && !(s.driver.AtAcquire? && s.sent < |c.inputs| && c.gated && s.permits[0] == 0)
      && !(s.driver.Draining? && s.chans[0].items != [])
  {
    ReachableInv(c, acts, s);
    var next := match s.driver
      case AtAcquire => if s.sent < |c.inputs| then DriverAcquire else DriverClose
      case Acquired => DriverPost
      case _ => DriverDrained;
    assert IsDriverStep(next);
    assert forall a :: IsDriverStep(a) && Enabled(c, s, a) ==> a == next;
  }

  /** A stage's closer, once the stage is built, waits for all its workers to leave and then for its output to be
      drained; and constructors wait for nothing but their turn. */
  lemma CloserWaits<T>(c: Config<T>, acts: seq<Action>, s: State<T>, k: nat)
    requires Valid(c) && IsRun(c, Init(c), acts, s) && k < |c.stages|
    ensures Shaped(c, s)
    ensures (Enabled(c, s, CloseOutput(k)) || Enabled(c, s, OutputDrained(k))) <==>
      && k < s.built && !s.closers[k].Finished?
      && !(s.closers[k].AwaitingWorkers? && exists j :: 0 <= j < |s.workers[k]| && !s.workers[k][j].Done?)
      && !(s.closers[k].DrainingOutput? && s.chans[k + 1].items != [])
    ensures Enabled(c, s, Build) <==> s.built <= |c.stages|
  {
    ReachableInv(c, acts, s);
    assert CloserOk(c, s, k);
  }
}
