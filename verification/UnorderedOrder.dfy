/** The unordered pipeline with one worker at every level keeps the order of its inputs after all: the items
    consumed, and then those on their way, the most advanced first, are the mapped inputs sent so far. */
module UnorderedOrder {
  import opened Stages
  import opened UnorderedPipeline
  import opened UnorderedInvariant
  import opened UnorderedConservation
  import opened UnorderedTheorems

  ghost predicate SingleFile<T>(c: Config<T>) {
    c.endWorkers == 1 && forall k :: 0 <= k < |c.stages| ==> c.stages[k].width == 1
  }

  function Held<T>(w: Pc<T>): seq<T> {
    match w
    case Pulled(x) => [x]
    case Free(x) => [x]
    case Cleared(x) => [x]
    case _ => []
  }

  /** Items of level k, by what they will have become. */
  function Become<T>(c: Config<T>, k: nat, xs: seq<T>): seq<T> {
    seq(|xs|, i requires 0 <= i < |xs| => From(c.stages, k, xs[i]))
  }

  /** What level k's one worker holds, then what is in its channel. */
  function Items<T>(s: State<T>, k: nat): seq<T>
    requires k < |s.chans| == |s.workers| && |s.workers[k]| == 1
  {
    Held(s.workers[k][0]) + s.chans[k].items
  }

  ghost predicate OneWorkerEach<T>(s: State<T>) {
    |s.chans| == |s.workers| && forall k :: 0 <= k < |s.workers| ==> |s.workers[k]| == 1
  }

  /** The levels below m, the most advanced first. */
  ghost function Line<T>(c: Config<T>, s: State<T>, m: nat): seq<T>
    requires OneWorkerEach(s) && m <= |s.workers|
  {
    if m == 0 then [] else Become(c, m - 1, Items(s, m - 1)) + Line(c, s, m - 1)
  }

  /** The item that a step takes out of level k at its front end, as it is there. */
  ghost function Leaving<T>(c: Config<T>, s: State<T>, a: Action, k: nat): seq<T>
    requires Enabled(c, s, a)
  {
    match a
    case Post(l, j) => if k == l then [s.workers[l][j].x] else []
    case Consume(j) => if k == N(c) then [s.workers[k][j].x] else []
    case _ => []
  }

  /** The item that a step puts in at its back end. */
  ghost function Arriving<T>(c: Config<T>, s: State<T>, a: Action, k: nat): seq<T>
    requires Enabled(c, s, a)
  {
    match a
    case Post(l, j) => if k == l + 1 then [c.stages[l].f(s.workers[l][j].x)] else []
    case DriverPost => if k == 0 then [c.inputs[s.sent]] else []
    case _ => []
  }

  predicate PullsAt(a: Action, k: nat) { a.Pull? && a.k == k }

  lemma WorkersStay<T>(c: Config<T>, s: State<T>, a: Action)
    requires Enabled(c, s, a) && OneWorkerEach(s)
    ensures OneWorkerEach(Do(c, s, a)) && |Do(c, s, a).workers| == |s.workers|
  {
  }

  lemma HeldMoves<T>(c: Config<T>, s: State<T>, a: Action, k: nat)
    requires Enabled(c, s, a) && OneWorkerEach(s) && OneWorkerEach(Do(c, s, a)) && k <= N(c)
    ensures PullsAt(a, k) ==> s.chans[k].items != []
    ensures Leaving(c, s, a, k) + Held(Do(c, s, a).workers[k][0])
         == Held(s.workers[k][0]) + if PullsAt(a, k) then [s.chans[k].items[0]] else []
  {
  }

  lemma ChanMoves<T>(c: Config<T>, s: State<T>, a: Action, k: nat)
    requires Enabled(c, s, a) && k <= N(c)
    requires k == 0 ==> DriverOk(c, s)
    requires k > 0 ==> CloserOk(c, s, k - 1)
    ensures PullsAt(a, k) ==> s.chans[k].items != []
    ensures (if PullsAt(a, k) then [s.chans[k].items[0]] else []) + Do(c, s, a).chans[k].items
         == s.chans[k].items + Arriving(c, s, a, k)
  {
  }

  lemma ItemsMove<T>(c: Config<T>, s: State<T>, a: Action, k: nat)
    requires Enabled(c, s, a) && OneWorkerEach(s) && OneWorkerEach(Do(c, s, a)) && k <= N(c)
    requires k == 0 ==> DriverOk(c, s)
    requires k > 0 ==> CloserOk(c, s, k - 1)
    ensures Leaving(c, s, a, k) + Items(Do(c, s, a), k) == Items(s, k) + Arriving(c, s, a, k)
  {
    HeldMoves(c, s, a, k);
    ChanMoves(c, s, a, k);
    var pulled := if PullsAt(a, k) then [s.chans[k].items[0]] else [];
    Shift(Leaving(c, s, a, k), Held(Do(c, s, a).workers[k][0]), Do(c, s, a).chans[k].items,
          Held(s.workers[k][0]), pulled, s.chans[k].items, Arriving(c, s, a, k));
  }

  /** Two adjacent moves make one. */
  lemma Shift<T>(out: seq<T>, a': seq<T>, b': seq<T>, a: seq<T>, mid: seq<T>, b: seq<T>, more: seq<T>)
    requires out + a' == a + mid && mid + b' == b + more
    ensures out + (a' + b') == (a + b) + more
  {
    calc {
      out + (a' + b');
      (out + a') + b';
      (a + mid) + b';
      a + (mid + b');
      a + (b + more);
      (a + b) + more;
    }
  }

  lemma BecomeAppend<T>(c: Config<T>, k: nat, xs: seq<T>, ys: seq<T>)
    ensures Become(c, k, xs + ys) == Become(c, k, xs) + Become(c, k, ys)
  {
  }

  /** What the items that leave the levels below m will have become. */
  ghost function Out<T>(c: Config<T>, s: State<T>, a: Action, m: nat): seq<T>
    requires Enabled(c, s, a) && m <= N(c) + 1
  {
    if m == 0 then In(c, s, a) else Become(c, m - 1, Leaving(c, s, a, m - 1))
  }

  /** What the item that the driver posts will have become. */
  ghost function In<T>(c: Config<T>, s: State<T>, a: Action): seq<T>
    requires Enabled(c, s, a)
  {
    if a == DriverPost then [From(c.stages, 0, c.inputs[s.sent])] else []
  }

  lemma ArrivingWasLeaving<T>(c: Config<T>, s: State<T>, a: Action, k: nat)
    requires Enabled(c, s, a) && k <= N(c)
    ensures Become(c, k, Arriving(c, s, a, k)) == Out(c, s, a, k)
  {
  }

  lemma {:induction false} LineMoves<T>(c: Config<T>, s: State<T>, a: Action, m: nat)
    requires Enabled(c, s, a) && ControlOk(c, s) && OneWorkerEach(s) && OneWorkerEach(Do(c, s, a)) && m <= N(c) + 1
    ensures m <= |Do(c, s, a).workers|
    ensures Out(c, s, a, m) + Line(c, Do(c, s, a), m) == Line(c, s, m) + In(c, s, a)
  {
    if m > 0 {
      var k, s' := m - 1, Do(c, s, a);
      LineMoves(c, s, a, k);
      assert k > 0 ==> CloserOk(c, s, k - 1);
      ItemsMove(c, s, a, k);
      BecomeAppend(c, k, Leaving(c, s, a, k), Items(s', k));
      BecomeAppend(c, k, Items(s, k), Arriving(c, s, a, k));
      ArrivingWasLeaving(c, s, a, k);
      Shift(Out(c, s, a, m), Become(c, k, Items(s', k)), Line(c, s', k),
            Become(c, k, Items(s, k)), Out(c, s, a, k), Line(c, s, k), In(c, s, a));
    }
  }

  lemma Behind<T>(consumed: seq<T>, out: seq<T>, line': seq<T>, line: seq<T>, more: seq<T>)
    requires out + line' == line + more
    ensures (consumed + out) + line' == (consumed + line) + more
  {
    assert (consumed + out) + line' == consumed + (out + line') == consumed + (line + more);
  }

  /** Everything consumed, and then the line, is everything sent. */
  ghost predicate InLine<T>(c: Config<T>, s: State<T>)
    requires Shaped(c, s) && OneWorkerEach(s) && s.sent <= |c.inputs|
  {
    s.consumed + Line(c, s, N(c) + 1) == Mapped(c.stages, c.inputs[..s.sent])
  }

  lemma ConsumedMoves<T>(c: Config<T>, s: State<T>, a: Action)
    requires Enabled(c, s, a) && OneWorkerEach(s)
    ensures Do(c, s, a).consumed == s.consumed + Out(c, s, a, N(c) + 1)
  {
  }

  lemma SentMoves<T>(c: Config<T>, s: State<T>, a: Action)
    requires Enabled(c, s, a) && s.sent <= |c.inputs|
    ensures Do(c, s, a).sent <= |c.inputs|
    ensures Mapped(c.stages, c.inputs[..Do(c, s, a).sent]) == Mapped(c.stages, c.inputs[..s.sent]) + In(c, s, a)
  {
    if a == DriverPost {
      MappedAppend(c, s.sent);
    }
  }

  lemma StepKeepsLine<T>(c: Config<T>, s: State<T>, a: Action)
    requires Inv(c, s) && Enabled(c, s, a) && OneWorkerEach(s) && InLine(c, s)
    ensures Shaped(c, Do(c, s, a)) && OneWorkerEach(Do(c, s, a)) && Do(c, s, a).sent <= |c.inputs|
    ensures InLine(c, Do(c, s, a))
  {
    var n, s' := N(c) + 1, Do(c, s, a);
    WorkersStay(c, s, a);
    LineMoves(c, s, a, n);
    ConsumedMoves(c, s, a);
    SentMoves(c, s, a);
    Behind(s.consumed, Out(c, s, a, n), Line(c, s', n), Line(c, s, n), In(c, s, a));
  }

  lemma {:induction false} RunKeepsLine<T>(c: Config<T>, s: State<T>, acts: seq<Action>, s': State<T>)
    requires Inv(c, s) && IsRun(c, s, acts, s') && OneWorkerEach(s) && InLine(c, s)
    ensures Shaped(c, s') && OneWorkerEach(s') && s'.sent <= |c.inputs| && InLine(c, s')
    decreases acts
  {
    if acts != [] {
      StepKeepsInv(c, s, acts[0]);
      StepKeepsLine(c, s, acts[0]);
      RunKeepsLine(c, Do(c, s, acts[0]), acts[1..], s');
    }
  }

  lemma {:induction false} NobodyInLineYet<T>(c: Config<T>, m: nat)
    requires OneWorkerEach(Init(c)) && m <= N(c) + 1
    ensures Line(c, Init(c), m) == []
  {
    if m > 0 {
      NobodyInLineYet(c, m - 1);
    }
  }

  lemma ReachableLine<T>(c: Config<T>, acts: seq<Action>, s: State<T>)
    requires Valid(c) && SingleFile(c) && IsRun(c, Init(c), acts, s)
    ensures Shaped(c, s) && OneWorkerEach(s) && s.sent <= |c.inputs| && InLine(c, s)
  {
    InitInv(c);
    NobodyInLineYet(c, N(c) + 1);
    assert Mapped(c.stages, c.inputs[..0]) == [];
    RunKeepsLine(c, Init(c), acts, s);
  }

  lemma MappedPrefix<T>(c: Config<T>, n: nat)
    requires n <= |c.inputs|
    ensures Mapped(c.stages, c.inputs[..n]) <= Mapped(c.stages, c.inputs)
  {
  }

  lemma PrefixOfAll<T>(xs: seq<T>, ys: seq<T>)
    requires xs <= ys && multiset(xs) == multiset(ys)
    ensures xs == ys
  {
    assert |multiset(xs)| == |xs| && |multiset(ys)| == |ys|;
  }

  /** With one worker at every level, whatever the schedule, the items are consumed in input order: at every
      moment they are a prefix of the mapped inputs, and all of them when the run is done. */
  lemma SingleFileConsumesInOrder<T>(c: Config<T>, acts: seq<Action>, s: State<T>)
    requires Valid(c) && SingleFile(c) && IsRun(c, Init(c), acts, s)
    ensures s.consumed <= Mapped(c.stages, c.inputs)
    ensures Final(c, s) ==> s.consumed == Mapped(c.stages, c.inputs)
  {
    ReachableLine(c, acts, s);
    MappedPrefix(c, s.sent);
    if Final(c, s) {
      EveryRun(c, acts, s);
      PrefixOfAll(s.consumed, Mapped(c.stages, c.inputs));
    }
  }
}
