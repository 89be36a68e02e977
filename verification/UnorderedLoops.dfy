/** In every run of the unordered pipeline the steps of a worker are those of its loop, round after round; in
    particular it gives its input permit back before it waits for an output permit. */
module UnorderedLoops {
  import opened Journals
  import opened UnorderedPipeline
  import opened UnorderedWaiting

  /** The steps of worker j of level k in a run, in order. */
  function StepsOf<T>(c: Config<T>, acts: seq<Action>, k: nat, j: nat): seq<Action> {
    if acts == [] then []
    else (if IsStepOf(c, acts[0], k, j) then [acts[0]] else []) + StepsOf(c, acts[1..], k, j)
  }

  function Round<T>(c: Config<T>, k: nat, j: nat): seq<Action> {
    if k < |c.stages| then [Pull(k, j), GivePermit(k, j), Acquire(k, j), Post(k, j)]
    else [Pull(k, j), GivePermit(k, j), Consume(j)]
  }

  function Place<T>(pc: Pc<T>): nat {
    match pc
    case AtPull => 0
    case Pulled(_) => 1
    case Free(_) => 2
    case Cleared(_) => 3
    case Done => 0
  }

  ghost predicate GoesOn<T>(c: Config<T>, k: nat, j: nat, pc: Pc<T>, steps: seq<Action>) {
    if pc.Done? then steps == []
    else Place(pc) < |Round(c, k, j)| && FollowsLoop(Round(c, k, j), [Leave(k, j)], Place(pc), steps)
  }

  lemma OwnStepGoesOn<T>(c: Config<T>, s: State<T>, a: Action, k: nat, j: nat, rest: seq<Action>)
    requires Enabled(c, s, a) && k <= |c.stages| && j < |s.workers[k]| && IsStepOf(c, a, k, j)
    requires j < |Do(c, s, a).workers[k]| && GoesOn(c, k, j, Do(c, s, a).workers[k][j], rest)
    ensures GoesOn(c, k, j, s.workers[k][j], [a] + rest)
  {
    assert ([a] + rest)[1..] == rest;
  }

  lemma WorkerStays<T>(c: Config<T>, s: State<T>, a: Action, k: nat, j: nat)
    requires Enabled(c, s, a) && k <= |c.stages| && j < |s.workers[k]|
    ensures Shaped(c, Do(c, s, a)) && j < |Do(c, s, a).workers[k]|
    ensures !IsStepOf(c, a, k, j) ==> Do(c, s, a).workers[k][j] == s.workers[k][j]
    ensures k == |c.stages| && !s.workers[k][j].Cleared? ==> !Do(c, s, a).workers[k][j].Cleared?
  {
  }

  lemma {:induction false} RunGoesOn<T>(c: Config<T>, s: State<T>, acts: seq<Action>, s': State<T>, k: nat, j: nat)
    requires Shaped(c, s) && IsRun(c, s, acts, s') && k <= |c.stages| && j < |s.workers[k]|
    requires k == |c.stages| ==> !s.workers[k][j].Cleared?
    ensures GoesOn(c, k, j, s.workers[k][j], StepsOf(c, acts, k, j))
    decreases acts
  {
    if acts != [] {
      WorkerStays(c, s, acts[0], k, j);
      RunGoesOn(c, Do(c, s, acts[0]), acts[1..], s', k, j);
      if IsStepOf(c, acts[0], k, j) {
        OwnStepGoesOn(c, s, acts[0], k, j, StepsOf(c, acts[1..], k, j));
      } else {
        assert StepsOf(c, acts, k, j) == StepsOf(c, acts[1..], k, j);
      }
    }
  }

  /** A stage's worker pulls, gives the input permit back, acquires an output permit, and posts, again and again,
      and leaves at the beginning of a round. */
  lemma WorkerFollowsLoop<T>(c: Config<T>, acts: seq<Action>, s: State<T>, k: nat, j: nat)
    requires IsRun(c, Init(c), acts, s) && k < |c.stages| && j < c.stages[k].width
    ensures FollowsLoop(
      [Pull(k, j), GivePermit(k, j), Acquire(k, j), Post(k, j)], [Leave(k, j)], 0, StepsOf(c, acts, k, j))
  {
    RunGoesOn(c, Init(c), acts, s, k, j);
  }

  /** An end worker pulls, gives the permit back, and consumes. */
  lemma EndWorkerFollowsLoop<T>(c: Config<T>, acts: seq<Action>, s: State<T>, j: nat)
    requires IsRun(c, Init(c), acts, s) && j < c.endWorkers
    ensures var n := |c.stages|;
      FollowsLoop([Pull(n, j), GivePermit(n, j), Consume(j)], [Leave(n, j)], 0, StepsOf(c, acts, n, j))
  {
    RunGoesOn(c, Init(c), acts, s, |c.stages|, j);
  }
}
