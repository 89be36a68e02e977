/** One account for everything that must balance in the unordered pipeline: give every channel item and every
    worker state a number, and read off what each step does to the total at each level.  Permits, copies of
    a value, items in flight and steps still to come are all instances. */
module UnorderedAccounting {
  import opened Sums
  import opened UnorderedPipeline

  ghost function Load<T>(s: State<T>, k: nat, item: T -> int, worker: Pc<T> -> int): int
    requires k < |s.chans| && k < |s.workers|
  {
    Sum(s.chans[k].items, item) + Sum(s.workers[k], worker)
  }

  /** What a step adds to the items in channel `k`. */
  ghost function ItemDelta<T>(c: Config<T>, s: State<T>, a: Action, k: nat, item: T -> int): int
    requires Enabled(c, s, a) && k <= N(c)
  {
    match a
    case DriverPost => if k == 0 && !s.chans[0].closed then item(c.inputs[s.sent]) else 0
    case Pull(l, j) => if l == k then -item(s.chans[l].items[0]) else 0
    case Post(l, j) => if l + 1 == k && !s.chans[k].closed then item(c.stages[l].f(s.workers[l][j].x)) else 0
    case _ => 0
  }

  /** What a step adds to the workers of level `k`. */
  ghost function WorkerDelta<T>(c: Config<T>, s: State<T>, a: Action, k: nat, worker: Pc<T> -> int): int
    requires Enabled(c, s, a) && k <= N(c)
  {
    match a
    case Pull(l, j) => if l == k then worker(Pulled(s.chans[l].items[0])) - worker(AtPull) else 0
    case GivePermit(l, j) =>
      var x := s.workers[l][j].x;
      if l == k then worker(Free(x)) - worker(Pulled(x)) else 0
    case Acquire(l, j) =>
      var x := s.workers[l][j].x;
      if l == k then worker(Cleared(x)) - worker(Free(x)) else 0
    case Post(l, j) => if l == k then worker(AtPull) - worker(Cleared(s.workers[l][j].x)) else 0
    case Consume(j) => if k == N(c) then worker(AtPull) - worker(Free(s.workers[k][j].x)) else 0
    case Leave(l, j) => if l == k then worker(Done) - worker(AtPull) else 0
    case _ => 0
  }

  /** What a step adds to the load of level `k`. */
  ghost function Delta<T>(c: Config<T>, s: State<T>, a: Action, k: nat, item: T -> int, worker: Pc<T> -> int): int
    requires Enabled(c, s, a) && k <= N(c)
  {
    ItemDelta(c, s, a, k, item) + WorkerDelta(c, s, a, k, worker)
  }

  lemma ItemsBalance<T>(c: Config<T>, s: State<T>, a: Action, k: nat, item: T -> int)
    requires Enabled(c, s, a) && k <= N(c)
    ensures Sum(Do(c, s, a).chans[k].items, item) == Sum(s.chans[k].items, item) + ItemDelta(c, s, a, k, item)
  {
    match a
    case DriverPost => SumAppend(s.chans[0].items, c.inputs[s.sent], item);
    case Post(l, j) => SumAppend(s.chans[l + 1].items, c.stages[l].f(s.workers[l][j].x), item);
    case _ =>
  }

  lemma WorkerSum<T>(s: State<T>, k: nat, j: nat, pc: Pc<T>, worker: Pc<T> -> int)
    requires k < |s.workers| && j < |s.workers[k]|
    ensures Sum(SetWorker(s, k, j, pc).workers[k], worker)
         == Sum(s.workers[k], worker) - worker(s.workers[k][j]) + worker(pc)
  {
    SumUpdate(s.workers[k], j, pc, worker);
  }

  lemma WorkersBalance<T>(c: Config<T>, s: State<T>, a: Action, k: nat, worker: Pc<T> -> int)
    requires Enabled(c, s, a) && k <= N(c)
    ensures Sum(Do(c, s, a).workers[k], worker) == Sum(s.workers[k], worker) + WorkerDelta(c, s, a, k, worker)
  {
    match a
    case Pull(l, j) => WorkerSum(s, l, j, Pulled(s.chans[l].items[0]), worker);
    case GivePermit(l, j) => WorkerSum(s, l, j, Free(s.workers[l][j].x), worker);
    case Acquire(l, j) => WorkerSum(s, l, j, Cleared(s.workers[l][j].x), worker);
    case Post(l, j) => WorkerSum(s, l, j, AtPull, worker);
    case Consume(j) => WorkerSum(s, N(c), j, AtPull, worker);
    case Leave(l, j) => WorkerSum(s, l, j, Done, worker);
    case _ =>
  }

  /** Every step changes every account at every level by exactly its Delta. */
  lemma StepBalances<T>(c: Config<T>, s: State<T>, a: Action, k: nat, item: T -> int, worker: Pc<T> -> int)
    requires Enabled(c, s, a) && k <= N(c)
    ensures Shaped(c, Do(c, s, a))
    ensures Load(Do(c, s, a), k, item, worker) == Load(s, k, item, worker) + Delta(c, s, a, k, item, worker)
  {
    ItemsBalance(c, s, a, k, item);
    WorkersBalance(c, s, a, k, worker);
  }

  // The accounts.

  function Zero<T>(x: T): int { 0 }

  function One<T>(x: T): int { 1 }

  function HasPulled<T>(w: Pc<T>): int { if w.Pulled? then 1 else 0 }

  function IsCleared<T>(w: Pc<T>): int { if w.Cleared? then 1 else 0 }

  predicate Holds<T>(w: Pc<T>) { w.Pulled? || w.Free? || w.Cleared? }

  function HasItem<T>(w: Pc<T>): int { if Holds(w) then 1 else 0 }

  lemma {:induction false} SumOfOnes<T>(s: seq<T>)
    ensures Sum(s, One) == |s|
  {
    if s != [] {
      SumOfOnes(s[1..]);
    }
  }
}
