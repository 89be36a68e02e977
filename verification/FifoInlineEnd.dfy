/** The end stage's inline fast path and its general worker at parallelism 1 are interchangeable:
    each simulates the other, step for step, under the same upstream steps. */
module FifoInlineEnd {
  import opened FifoPipeline
  import opened FifoInvariant

  /** The same pipeline with the inline end worker. */
  function InlinedConfig<T>(c: Config<T>): Config<T> { c.(inlined := true) }

  /** The end stage's oldest consume task. */
  function Oldest<T>(s: State<T>): Slot<T> {
    if s.inner.released < |s.inner.items| then s.inner.items[s.inner.released] else Awaited
  }

  /** A general end stage waiting for its one task is an inline end stage about to make its one call, inside it,
      or past it. */
  function InlinedPc<T>(s: State<T>, pc: Pc<T>): Pc<T> {
    if !pc.Draining? then pc
    else match Oldest(s)
      case Forked(x) => Got(x)
      case Running(x) => Consuming(x)
      case _ => AtRelease
  }

  /** What remains of a state when the internal queue is forgotten. */
  function Inlined<T>(c: Config<T>, s: State<T>): State<T>
    requires Shaped(c, s)
  {
    var pcs := s.pcs[N(c) := InlinedPc(s, s.pcs[N(c)])];
    State(s.queues, pcs, Queue([], 0, false), 0, s.begun, s.begun, s.ended)
  }

  /** The inline worker's step for a step of the general worker; forking the task, and awaiting it when it has
      finished, are no steps. */
  function InlinedStep(a: Action): seq<Action> {
    match a
    case EndFork => []
    case EndStart(_) => [EndBegin]
    case EndFinish(_) => [EndReturn]
    case EndDrain => []
    case _ => [a]
  }

  lemma EndForkInlined<T>(c: Config<T>, s: State<T>)
    requires Valid(c) && !c.inlined && c.endWidth == 1 && Enabled(c, s, EndFork) && InnerOk(c, s)
    ensures Inlined(c, s) == Inlined(c, Do(c, s, EndFork))
  {
  }

  lemma EndStartInlined<T>(c: Config<T>, s: State<T>, i: nat)
    requires Valid(c) && !c.inlined && c.endWidth == 1 && Enabled(c, s, EndStart(i)) && InnerOk(c, s)
    ensures Enabled(InlinedConfig(c), Inlined(c, s), EndBegin)
    ensures Do(InlinedConfig(c), Inlined(c, s), EndBegin) == Inlined(c, Do(c, s, EndStart(i)))
  {
  }

  lemma EndFinishInlined<T>(c: Config<T>, s: State<T>, i: nat)
    requires Valid(c) && !c.inlined && c.endWidth == 1 && Enabled(c, s, EndFinish(i)) && InnerOk(c, s)
    ensures Enabled(InlinedConfig(c), Inlined(c, s), EndReturn)
    ensures Do(InlinedConfig(c), Inlined(c, s), EndReturn) == Inlined(c, Do(c, s, EndFinish(i)))
  {
  }

  lemma EndDrainInlined<T>(c: Config<T>, s: State<T>)
    requires Valid(c) && !c.inlined && c.endWidth == 1 && Enabled(c, s, EndDrain) && InnerOk(c, s)
    ensures Inlined(c, s) == Inlined(c, Do(c, s, EndDrain))
  {
  }

  predicate InsideEndStage(a: Action) { a.EndFork? || a.EndStart? || a.EndFinish? || a.EndDrain? }

  lemma OtherStepInlined<T>(c: Config<T>, s: State<T>, a: Action)
    requires Valid(c) && !c.inlined && c.endWidth == 1 && Enabled(c, s, a) && InnerOk(c, s)
    requires !InsideEndStage(a)
    ensures Enabled(InlinedConfig(c), Inlined(c, s), a)
    ensures Do(InlinedConfig(c), Inlined(c, s), a) == Inlined(c, Do(c, s, a))
  {
    var s', t, t' := Do(c, s, a), Inlined(c, s), Do(InlinedConfig(c), Inlined(c, s), a);
    assert s'.inner == s.inner;
    assert t'.queues == s'.queues && t'.handed == t'.begun == s'.begun && t'.ended == s'.ended;
    forall k | 0 <= k <= N(c) ensures t'.pcs[k] == Inlined(c, s').pcs[k] {
    }
    assert t'.pcs == Inlined(c, s').pcs;
  }

  lemma StepInlined<T>(c: Config<T>, s: State<T>, a: Action)
    requires Valid(c) && !c.inlined && c.endWidth == 1 && Enabled(c, s, a) && InnerOk(c, s)
    ensures IsRun(InlinedConfig(c), Inlined(c, s), InlinedStep(a), Inlined(c, Do(c, s, a)))
  {
    match a
    case EndFork => EndForkInlined(c, s);
    case EndStart(i) => EndStartInlined(c, s, i);
    case EndFinish(i) => EndFinishInlined(c, s, i);
    case EndDrain => EndDrainInlined(c, s);
    case _ => OtherStepInlined(c, s, a);
  }

  function InlinedRun(acts: seq<Action>): seq<Action> {
    if acts == [] then [] else InlinedStep(acts[0]) + InlinedRun(acts[1..])
  }

  lemma {:induction false} InlinedRunAppend(acts: seq<Action>, more: seq<Action>)
    ensures InlinedRun(acts + more) == InlinedRun(acts) + InlinedRun(more)
  {
    if acts == [] {
      assert acts + more == more;
    } else {
      assert (acts + more)[1..] == acts[1..] + more;
      InlinedRunAppend(acts[1..], more);
    }
  }

  /** Every run of the general worker at parallelism 1 is a run of the inline worker: the same upstream
      steps, the same queues, the same consume calls begun and finished in the same order. */
  lemma {:induction false} GeneralRunIsInlineRun<T>(c: Config<T>, s: State<T>, acts: seq<Action>, s': State<T>)
    requires Inv(c, s) && !c.inlined && c.endWidth == 1 && IsRun(c, s, acts, s')
    ensures Shaped(c, s') && IsRun(InlinedConfig(c), Inlined(c, s), InlinedRun(acts), Inlined(c, s'))
    decreases acts
  {
    if acts != [] {
      var a, s1 := acts[0], Do(c, s, acts[0]);
      StepKeepsInv(c, s, a);
      StepInlined(c, s, a);
      GeneralRunIsInlineRun(c, s1, acts[1..], s');
      RunsCompose(InlinedConfig(c), Inlined(c, s), InlinedStep(a), Inlined(c, s1),
                  InlinedRun(acts[1..]), Inlined(c, s'));
    }
  }

  lemma InitialStatesMatch<T>(c: Config<T>)
    requires Valid(c) && !c.inlined && c.endWidth == 1
    ensures Inlined(c, Init(c)) == Init(InlinedConfig(c)) && AtSettled(c, Init(c))
  {
    InitInv(c);
    assert Inlined(c, Init(c)).pcs == Init(c).pcs;
  }

  // ---------- The other direction ----------

  /** The general worker is neither between forking its task and the task's call, nor between the task's end and
      awaiting it. */
  predicate Settled<T>(c: Config<T>, s: State<T>) {
    Shaped(c, s) && (s.pcs[N(c)].Draining? ==> Oldest(s).Running?)
  }

  /** The general worker's steps for a step of the inline worker: the call begins when the task has been forked
      and starts it, and its end is the task's end followed by the await of its handle. */
  function GeneralStep<T>(s: State<T>, a: Action): seq<Action> {
    match a
    case EndBegin => [EndFork, EndStart(|s.inner.items|)]
    case EndReturn => [EndFinish(s.inner.released), EndDrain]
    case _ => [a]
  }

  /** `s'` is what the general worker reaches from `s` when the inline worker takes step `a`. */
  ghost predicate Matches<T>(c: Config<T>, s: State<T>, a: Action, s': State<T>)
    requires Shaped(c, s) && Enabled(InlinedConfig(c), Inlined(c, s), a)
  {
    IsRun(c, s, GeneralStep(s, a), s') && Inv(c, s') && Settled(c, s')
    && Inlined(c, s') == Do(InlinedConfig(c), Inlined(c, s), a) && InlinedRun(GeneralStep(s, a)) == [a]
  }

  ghost predicate AtSettled<T>(c: Config<T>, s: State<T>) {
    Inv(c, s) && !c.inlined && c.endWidth == 1 && Settled(c, s)
  }

  /** When the inline call can be made, the general worker can fork a task, which can make it. */
  lemma ForkThenStart<T>(c: Config<T>, s: State<T>)
    requires Valid(c) && Shaped(c, s) && InnerOk(c, s) && !c.inlined && c.endWidth == 1 && Settled(c, s)
    requires Enabled(InlinedConfig(c), Inlined(c, s), EndBegin)
    ensures Enabled(c, s, EndFork)
    ensures var start := EndStart(|s.inner.items|);
      Enabled(c, Do(c, s, EndFork), start) && Settled(c, Do(c, Do(c, s, EndFork), start))
  {
  }

  lemma EndBeginGeneralized<T>(c: Config<T>, s: State<T>) returns (s': State<T>)
    requires AtSettled(c, s) && Enabled(InlinedConfig(c), Inlined(c, s), EndBegin)
    ensures Matches(c, s, EndBegin, s')
  {
    var start := EndStart(|s.inner.items|);
    ForkThenStart(c, s);
    EndForkInlined(c, s);
    StepKeepsInv(c, s, EndFork);
    var s1 := Do(c, s, EndFork);
    EndStartInlined(c, s1, |s.inner.items|);
    StepKeepsInv(c, s1, start);
    s' := Do(c, s1, start);
    TwoSteps(c, s, EndFork, start);
  }

  lemma OneStep<T>(c: Config<T>, s: State<T>, a: Action)
    requires Enabled(c, s, a)
    ensures IsRun(c, s, [a], Do(c, s, a)) && InlinedRun([a]) == InlinedStep(a)
  {
    assert [a][1..] == [] && InlinedRun([a]) == InlinedStep(a) + InlinedRun([]);
    assert IsRun(c, Do(c, s, a), [], Do(c, s, a));
  }

  lemma TwoSteps<T>(c: Config<T>, s: State<T>, a: Action, b: Action)
    requires Enabled(c, s, a) && Enabled(c, Do(c, s, a), b)
    ensures IsRun(c, s, [a, b], Do(c, Do(c, s, a), b))
    ensures InlinedRun([a, b]) == InlinedStep(a) + InlinedStep(b)
  {
    var s1 := Do(c, s, a);
    OneStep(c, s1, b);
    assert [a, b][1..] == [b];
  }

  /** When the inline call can return, the general worker's one task can finish and then be awaited. */
  lemma FinishThenDrain<T>(c: Config<T>, s: State<T>)
    requires Valid(c) && Shaped(c, s) && InnerOk(c, s) && !c.inlined && c.endWidth == 1 && Settled(c, s)
    requires Enabled(InlinedConfig(c), Inlined(c, s), EndReturn)
    ensures var finish := EndFinish(s.inner.released);
      Enabled(c, s, finish) && Enabled(c, Do(c, s, finish), EndDrain) && Settled(c, Do(c, Do(c, s, finish), EndDrain))
  {
  }

  lemma EndReturnGeneralized<T>(c: Config<T>, s: State<T>) returns (s': State<T>)
    requires AtSettled(c, s) && Enabled(InlinedConfig(c), Inlined(c, s), EndReturn)
    ensures Matches(c, s, EndReturn, s')
  {
    var finish := EndFinish(s.inner.released);
    FinishThenDrain(c, s);
    EndFinishInlined(c, s, s.inner.released);
    StepKeepsInv(c, s, finish);
    var s1 := Do(c, s, finish);
    EndDrainInlined(c, s1);
    StepKeepsInv(c, s1, EndDrain);
    s' := Do(c, s1, EndDrain);
    TwoSteps(c, s, finish, EndDrain);
  }

  lemma OtherStepGeneralized<T>(c: Config<T>, s: State<T>, a: Action)
    requires Shaped(c, s) && !c.inlined && Settled(c, s) && (s.pcs[N(c)].Draining? || s.active == 0)
    requires Enabled(InlinedConfig(c), Inlined(c, s), a) && a != EndBegin && a != EndReturn
    ensures Enabled(c, s, a) && !InsideEndStage(a) && Settled(c, Do(c, s, a))
  {
    assert InlinedPc(s, s.pcs[N(c)]).AtRelease? ==> s.pcs[N(c)].AtRelease?;
  }

  lemma OtherGeneralized<T>(c: Config<T>, s: State<T>, a: Action) returns (s': State<T>)
    requires AtSettled(c, s) && Enabled(InlinedConfig(c), Inlined(c, s), a) && a != EndBegin && a != EndReturn
    ensures Matches(c, s, a, s')
  {
    OtherStepGeneralized(c, s, a);
    OtherStepInlined(c, s, a);
    StepKeepsInv(c, s, a);
    s' := Do(c, s, a);
    OneStep(c, s, a);
  }

  /** One step of the inline worker, taken by the general worker. */
  lemma StepGeneralized<T>(c: Config<T>, s: State<T>, a: Action) returns (s': State<T>)
    requires AtSettled(c, s) && Enabled(InlinedConfig(c), Inlined(c, s), a)
    ensures Matches(c, s, a, s')
  {
    if a == EndBegin {
      s' := EndBeginGeneralized(c, s);
    } else if a == EndReturn {
      s' := EndReturnGeneralized(c, s);
    } else {
      s' := OtherGeneralized(c, s, a);
    }
  }

  lemma StepsThenRun<T>(
    c: Config<T>, s: State<T>, steps: seq<Action>, s1: State<T>, more: seq<Action>, s': State<T>)
    requires IsRun(c, s, steps, s1) && IsRun(c, s1, more, s')
    ensures IsRun(c, s, steps + more, s') && InlinedRun(steps + more) == InlinedRun(steps) + InlinedRun(more)
  {
    RunsCompose(c, s, steps, s1, more, s');
    InlinedRunAppend(steps, more);
  }

  /** The first step of a run of the inline worker, taken by the general worker. */
  lemma FirstStepGeneralized<T>(c: Config<T>, s: State<T>, acts: seq<Action>, t: State<T>)
      returns (steps: seq<Action>, s1: State<T>)
    requires AtSettled(c, s) && acts != [] && IsRun(InlinedConfig(c), Inlined(c, s), acts, t)
    ensures IsRun(c, s, steps, s1) && InlinedRun(steps) == [acts[0]]
    ensures AtSettled(c, s1) && IsRun(InlinedConfig(c), Inlined(c, s1), acts[1..], t)
  {
    s1 := StepGeneralized(c, s, acts[0]);
    steps := GeneralStep(s, acts[0]);
  }

  /** Every run of the inline worker is a run of the general worker at parallelism 1 with the same upstream
      steps: the fast path makes no sequence of consume calls that the general worker could not make. */
  lemma {:induction false} InlineRunIsGeneralRun<T>(c: Config<T>, s: State<T>, acts: seq<Action>, t: State<T>)
      returns (general: seq<Action>, s': State<T>)
    requires AtSettled(c, s)
    requires IsRun(InlinedConfig(c), Inlined(c, s), acts, t)
    ensures IsRun(c, s, general, s') && Shaped(c, s') && Inlined(c, s') == t && InlinedRun(general) == acts
    decreases acts
  {
    if acts == [] {
      general, s' := [], s;
    } else {
      var first, s1 := FirstStepGeneralized(c, s, acts, t);
      var more;
      more, s' := InlineRunIsGeneralRun(c, s1, acts[1..], t);
      general := first + more;
      StepsThenRun(c, s, first, s1, more, s');
    }
  }
}
