/** In every run of the FIFO pipeline the steps of a transform worker, and of the inline end worker, are those of its
    loop, round after round; in particular a slot is freed only after what came of its element has been pushed, or
    consumed. */
module FifoLoops {
  import opened Journals
  import opened FifoPipeline
  import opened FifoInvariant
  import opened FifoWaiting

  /** The steps of the consumer of queue k in a run, in order. */
  function StepsOf<T>(c: Config<T>, acts: seq<Action>, k: nat): seq<Action> {
    if acts == [] then []
    else (if IsStepOf(c, acts[0], k) then [acts[0]] else []) + StepsOf(c, acts[1..], k)
  }

  function Round<T>(c: Config<T>, k: nat): seq<Action> {
    if k < |c.stages| then [Pull(k), Await(k), Fork(k), Release(k)]
    else [Pull(k), Await(k), EndBegin, EndReturn, Release(k)]
  }

  function Exit<T>(c: Config<T>, k: nat): seq<Action> {
    [SeeClosed(k), if k < |c.stages| then Close(k) else EndExit]
  }

  function Place<T>(c: Config<T>, k: nat, pc: Pc<T>): nat {
    match pc
    case AtPull => 0
    case Holding => 1
    case Got(_) => 2
    case Consuming(_) => 3
    case AtRelease => |Round(c, k)| - 1
    case _ => 0
  }

  /** From a state on, a consumer goes on with its loop from where it is. */
  ghost predicate GoesOn<T>(c: Config<T>, k: nat, pc: Pc<T>, steps: seq<Action>) {
    if pc.SawClosed? then steps <= Exit(c, k)[1..]
    else if pc.Exited? then steps == []
    else Place(c, k, pc) < |Round(c, k)| && FollowsLoop(Round(c, k), Exit(c, k), Place(c, k, pc), steps)
  }

  lemma OwnStepGoesOn<T>(c: Config<T>, s: State<T>, a: Action, k: nat, rest: seq<Action>)
    requires Enabled(c, s, a) && k <= |c.stages| && IsStepOf(c, a, k)
    requires k == |c.stages| ==> c.inlined && s.active == 0
    requires !s.pcs[k].Draining? && (s.pcs[k].Consuming? ==> k == |c.stages|)
    requires GoesOn(c, k, Do(c, s, a).pcs[k], rest)
    ensures GoesOn(c, k, s.pcs[k], [a] + rest)
  {
    assert ([a] + rest)[1..] == rest;
    if a == SeeClosed(k) {
      assert [a] + rest <= Exit(c, k);
    }
  }

  lemma OtherStepStays<T>(c: Config<T>, s: State<T>, a: Action, k: nat)
    requires Enabled(c, s, a) && k <= |c.stages| && !IsStepOf(c, a, k)
    ensures Do(c, s, a).pcs[k] == s.pcs[k]
  {
  }

  lemma {:induction false} RunGoesOn<T>(c: Config<T>, s: State<T>, acts: seq<Action>, s': State<T>, k: nat)
    requires Inv(c, s) && IsRun(c, s, acts, s') && k <= |c.stages| && (k == |c.stages| ==> c.inlined)
    ensures GoesOn(c, k, s.pcs[k], StepsOf(c, acts, k))
    decreases acts
  {
    if acts != [] {
      assert StationOk(c, k, s.queues[k], s.pcs[k]);
      StepKeepsInv(c, s, acts[0]);
      RunGoesOn(c, Do(c, s, acts[0]), acts[1..], s', k);
      if IsStepOf(c, acts[0], k) {
        OwnStepGoesOn(c, s, acts[0], k, StepsOf(c, acts[1..], k));
      } else {
        OtherStepStays(c, s, acts[0], k);
        assert StepsOf(c, acts, k) == StepsOf(c, acts[1..], k);
      }
    } else {
      assert StationOk(c, k, s.queues[k], s.pcs[k]);
    }
  }

  /** A transform worker pulls, awaits, pushes, and only then frees the slot, again and again; it leaves at the
      beginning of a round, when it sees its input closed, and closes its output last. */
  lemma WorkerFollowsLoop<T>(c: Config<T>, acts: seq<Action>, s: State<T>, k: nat)
    requires Valid(c) && IsRun(c, Init(c), acts, s) && k < |c.stages|
    ensures FollowsLoop([Pull(k), Await(k), Fork(k), Release(k)], [SeeClosed(k), Close(k)], 0, StepsOf(c, acts, k))
  {
    InitInv(c);
    RunGoesOn(c, Init(c), acts, s, k);
  }

  /** The inline end worker frees the slot only when the consume call has returned. */
  lemma InlineWorkerFollowsLoop<T>(c: Config<T>, acts: seq<Action>, s: State<T>)
    requires Valid(c) && c.inlined && IsRun(c, Init(c), acts, s)
    ensures var n := |c.stages|;
      FollowsLoop([Pull(n), Await(n), EndBegin, EndReturn, Release(n)], [SeeClosed(n), EndExit], 0, StepsOf(c, acts, n))
  {
    InitInv(c);
    RunGoesOn(c, Init(c), acts, s, |c.stages|);
  }
}
