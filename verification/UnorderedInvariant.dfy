/** The invariant of the unordered pipeline: who may still post where, and where every permit and item is. */
module UnorderedInvariant {
  import opened Sums
  import opened UnorderedPipeline
  import opened UnorderedAccounting

  ghost predicate DriverOk<T>(c: Config<T>, s: State<T>)
    requires Shaped(c, s)
  {
    && s.sent <= |c.inputs| && s.built <= N(c) + 1
    && (s.driver.Acquired? ==> s.sent < |c.inputs|)
    && (s.chans[0].closed <==> s.driver.Draining? || s.driver.Joining?)
    && (s.chans[0].closed ==> s.sent == |c.inputs|)
    && (s.driver.Joining? ==> s.chans[0].items == [])
  }

  ghost predicate WorkerOk<T>(c: Config<T>, s: State<T>, k: nat, w: Pc<T>)
    requires Shaped(c, s) && k <= N(c)
  {
    && (k >= s.built ==> w.AtPull?)
    && (k == N(c) ==> !w.Cleared?)
    && (w.Done? ==> s.chans[k].closed && s.chans[k].items == [])
  }

  ghost predicate LevelOk<T>(c: Config<T>, s: State<T>, k: nat)
    requires Shaped(c, s) && k <= N(c)
  {
    |s.workers[k]| == Width(c, k) && forall j :: 0 <= j < |s.workers[k]| ==> WorkerOk(c, s, k, s.workers[k][j])
  }

  predicate AllDone<T>(workers: seq<Pc<T>>) { forall j :: 0 <= j < |workers| ==> workers[j].Done? }

  /** A stage's output channel is closed by its closer only, and only after all its workers have left. */
  ghost predicate CloserOk<T>(c: Config<T>, s: State<T>, k: nat)
    requires Shaped(c, s) && k < N(c)
  {
    && (s.chans[k + 1].closed <==> !s.closers[k].AwaitingWorkers?)
    && (s.chans[k + 1].closed ==> k < s.built && AllDone(s.workers[k]))
    && (s.closers[k].Finished? ==> s.chans[k + 1].items == [])
  }

  ghost predicate ControlOk<T>(c: Config<T>, s: State<T>)
    requires Shaped(c, s)
  {
    && DriverOk(c, s)
    && (forall k :: 0 <= k <= N(c) ==> LevelOk(c, s, k))
    && (forall k :: 0 <= k < N(c) ==> CloserOk(c, s, k))
  }

  /** Permits of semaphore `k` acquired by a producer that has not yet posted. */
  ghost function InHand<T>(s: State<T>, k: nat): int
    requires k <= |s.workers| && k <= |s.chans|
  {
    if k == 0 then (if s.driver.Acquired? then 1 else 0) else Load(s, k - 1, Zero, IsCleared)
  }

  /** Available permits, permits in producers' hands, items in the channel, and items whose consumer has not
      yet given the permit back always add up to what the consumer granted: twice its worker count. */
  ghost predicate PermitsConserved<T>(c: Config<T>, s: State<T>, k: nat)
    requires Shaped(c, s) && k <= N(c)
  {
    Gated(c, k) ==>
      s.permits[k] + InHand(s, k) + Load(s, k, One, HasPulled) == if k < s.built then 2 * Width(c, k) else 0
  }

  ghost predicate Inv<T>(c: Config<T>, s: State<T>) {
    && Valid(c) && Shaped(c, s) && ControlOk(c, s)
    && (forall k :: 0 <= k <= N(c) ==> PermitsConserved(c, s, k))
  }

  lemma {:induction false} SumOfSame<A>(s: seq<A>, a: A, f: A -> int)
    requires forall i :: 0 <= i < |s| ==> s[i] == a
    ensures Sum(s, f) == |s| * f(a)
  {
    if s != [] {
      SumOfSame(s[1..], a, f);
    }
  }

  lemma InitInv<T>(c: Config<T>)
    requires Valid(c)
    ensures Inv(c, Init(c))
  {
    var s := Init(c);
    forall k | 0 <= k <= N(c) ensures PermitsConserved(c, s, k) {
      SumOfSame(s.workers[k], AtPull, HasPulled<T>);
      if k > 0 {
        SumOfSame(s.workers[k - 1], AtPull, IsCleared<T>);
      }
    }
  }

  /** A worker that is about to post finds its output channel open. */
  lemma OutputOpen<T>(c: Config<T>, s: State<T>, k: nat, j: nat)
    requires Shaped(c, s) && k < N(c) && CloserOk(c, s, k) && j < |s.workers[k]| && !s.workers[k][j].Done?
    ensures !s.chans[k + 1].closed
  {
  }

  lemma StepKeepsDriver<T>(c: Config<T>, s: State<T>, a: Action)
    requires Enabled(c, s, a) && DriverOk(c, s)
    ensures DriverOk(c, Do(c, s, a))
  {
  }

  lemma StepKeepsLevel<T>(c: Config<T>, s: State<T>, a: Action, k: nat)
    requires Enabled(c, s, a) && k <= N(c) && LevelOk(c, s, k) && DriverOk(c, s)
    requires k > 0 ==> CloserOk(c, s, k - 1)
    ensures LevelOk(c, Do(c, s, a), k)
  {
    var s' := Do(c, s, a);
    forall j | 0 <= j < |s'.workers[k]| ensures WorkerOk(c, s', k, s'.workers[k][j]) {
      assert WorkerOk(c, s, k, s.workers[k][j]);
    }
  }

  lemma StepKeepsCloser<T>(c: Config<T>, s: State<T>, a: Action, k: nat)
    requires Enabled(c, s, a) && k < N(c) && CloserOk(c, s, k)
    ensures CloserOk(c, Do(c, s, a), k)
  {
  }

  /** What a step adds to the available permits of semaphore `k`. */
  function PermitDelta<T>(c: Config<T>, s: State<T>, a: Action, k: nat): int {
    match a
    case Build => if k == s.built && Gated(c, k) then 2 * Width(c, k) else 0
    case DriverAcquire => if k == 0 && c.gated then -1 else 0
    case GivePermit(l, _) => if l == k && Gated(c, k) then 1 else 0
    case Acquire(l, _) => if l + 1 == k then -1 else 0
    case _ => 0
  }

  /** What a step adds to the permits that producers of channel `k` hold. */
  ghost function InHandDelta<T>(c: Config<T>, s: State<T>, a: Action, k: nat): int
    requires Enabled(c, s, a) && k <= N(c)
  {
    if k > 0 then Delta(c, s, a, k - 1, Zero, IsCleared)
    else if a == DriverAcquire then 1
    else if a == DriverPost then -1
    else 0
  }

  lemma PermitsChange<T>(c: Config<T>, s: State<T>, a: Action, k: nat)
    requires Enabled(c, s, a) && k <= N(c)
    ensures Do(c, s, a).permits[k] == s.permits[k] + PermitDelta(c, s, a, k)
    ensures Do(c, s, a).built == s.built + if a == Build then 1 else 0
  {
  }

  lemma InHandChanges<T>(c: Config<T>, s: State<T>, a: Action, k: nat)
    requires Enabled(c, s, a) && k <= N(c)
    ensures InHand(Do(c, s, a), k) == InHand(s, k) + InHandDelta(c, s, a, k)
  {
    if k > 0 {
      StepBalances(c, s, a, k - 1, Zero<T>, IsCleared<T>);
    }
  }

  /** Each permit a step takes from one place it puts in another. */
  lemma PermitsOnlyMove<T>(c: Config<T>, s: State<T>, a: Action, k: nat)
    requires Enabled(c, s, a) && k <= N(c) && Gated(c, k) && DriverOk(c, s)
    requires k > 0 ==> CloserOk(c, s, k - 1)
    ensures PermitDelta(c, s, a, k) + InHandDelta(c, s, a, k) + Delta(c, s, a, k, One, HasPulled)
         == if a == Build && k == s.built then 2 * Width(c, k) else 0
  {
  }

  lemma StepConservesPermits<T>(c: Config<T>, s: State<T>, a: Action, k: nat)
    requires Enabled(c, s, a) && k <= N(c) && PermitsConserved(c, s, k) && DriverOk(c, s)
    requires k > 0 ==> CloserOk(c, s, k - 1)
    ensures PermitsConserved(c, Do(c, s, a), k)
  {
    if Gated(c, k) {
      PermitsChange(c, s, a, k);
      InHandChanges(c, s, a, k);
      StepBalances(c, s, a, k, One<T>, HasPulled<T>);
      PermitsOnlyMove(c, s, a, k);
    }
  }

  lemma StepKeepsInv<T>(c: Config<T>, s: State<T>, a: Action)
    requires Inv(c, s) && Enabled(c, s, a)
    ensures Inv(c, Do(c, s, a))
  {
    var s' := Do(c, s, a);
    StepKeepsDriver(c, s, a);
    forall k | 0 <= k <= N(c) ensures LevelOk(c, s', k) && PermitsConserved(c, s', k) {
      assert LevelOk(c, s, k) && PermitsConserved(c, s, k);
      assert k > 0 ==> CloserOk(c, s, k - 1);
      StepKeepsLevel(c, s, a, k);
      StepConservesPermits(c, s, a, k);
    }
    forall k | 0 <= k < N(c) ensures CloserOk(c, s', k) {
      StepKeepsCloser(c, s, a, k);
    }
  }
}
