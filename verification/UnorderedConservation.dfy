/** Nothing is lost or duplicated: for every value y, the copies of y among the mapped inputs sent so far are
    those consumed plus those still on their way (counting an item by what it will have become). */
module UnorderedConservation {
  import opened Stages
  import opened UnorderedPipeline
  import opened UnorderedAccounting
  import opened UnorderedInvariant

  ghost function Matches<T>(c: Config<T>, k: nat, x: T, y: T): int {
    if From(c.stages, k, x) == y then 1 else 0
  }

  ghost function ItemCopies<T>(c: Config<T>, k: nat, y: T): T -> int { x => Matches(c, k, x, y) }

  ghost function HeldCopies<T>(c: Config<T>, k: nat, y: T): Pc<T> -> int {
    (w: Pc<T>) => if Holds(w) then Matches(c, k, w.x, y) else 0
  }

  ghost function OnTheWay<T>(c: Config<T>, s: State<T>, y: T, m: nat): int
    requires m <= |s.chans| && m <= |s.workers|
  {
    if m == 0 then 0
    else OnTheWay(c, s, y, m - 1) + Load(s, m - 1, ItemCopies(c, m - 1, y), HeldCopies(c, m - 1, y))
  }

  ghost predicate Conserved<T>(c: Config<T>, s: State<T>, y: T)
    requires Shaped(c, s) && s.sent <= |c.inputs|
  {
    SentCopies(c, s, y) == multiset(s.consumed)[y] + OnTheWay(c, s, y, N(c) + 1)
  }

  /** What a step adds to the copies of y on levels below m. */
  ghost function Flow<T>(c: Config<T>, s: State<T>, a: Action, y: T, m: nat): int
    requires Enabled(c, s, a)
  {
    match a
    case DriverPost => if m > 0 then Matches(c, 0, c.inputs[s.sent], y) else 0
    case Post(l, j) => if m == l + 1 then -Matches(c, l, s.workers[l][j].x, y) else 0
    case Consume(j) => if m > N(c) then -Matches(c, N(c), s.workers[N(c)][j].x, y) else 0
    case _ => 0
  }

  lemma LevelFlow<T>(c: Config<T>, s: State<T>, a: Action, y: T, k: nat)
    requires Inv(c, s) && Enabled(c, s, a) && k <= N(c)
    ensures Delta(c, s, a, k, ItemCopies(c, k, y), HeldCopies(c, k, y)) == Flow(c, s, a, y, k + 1) - Flow(c, s, a, y, k)
  {
    if a.Post? {
      assert CloserOk(c, s, a.k);
      OutputOpen(c, s, a.k, a.j);
    }
  }

  lemma {:induction false} OnTheWayChanges<T>(c: Config<T>, s: State<T>, a: Action, y: T, m: nat)
    requires Inv(c, s) && Enabled(c, s, a) && m <= N(c) + 1
    ensures Shaped(c, Do(c, s, a))
    ensures OnTheWay(c, Do(c, s, a), y, m) == OnTheWay(c, s, y, m) + Flow(c, s, a, y, m)
  {
    if m > 0 {
      OnTheWayChanges(c, s, a, y, m - 1);
      StepBalances(c, s, a, m - 1, ItemCopies(c, m - 1, y), HeldCopies(c, m - 1, y));
      LevelFlow(c, s, a, y, m - 1);
    }
  }

  lemma MappedAppend<T>(c: Config<T>, n: nat)
    requires n < |c.inputs|
    ensures Mapped(c.stages, c.inputs[..n + 1])
         == Mapped(c.stages, c.inputs[..n]) + [From(c.stages, 0, c.inputs[n])]
  {
    FromThrough(c.stages, 0, c.inputs[n]);
  }

  lemma CopiesAppend<T>(xs: seq<T>, x: T, y: T)
    ensures multiset(xs + [x])[y] == multiset(xs)[y] + if x == y then 1 else 0
  {
  }

  ghost function SentCopies<T>(c: Config<T>, s: State<T>, y: T): int
    requires s.sent <= |c.inputs|
  {
    multiset(Mapped(c.stages, c.inputs[..s.sent]))[y]
  }

  lemma SentChanges<T>(c: Config<T>, s: State<T>, a: Action, y: T)
    requires Enabled(c, s, a) && s.sent <= |c.inputs|
    ensures Do(c, s, a).sent <= |c.inputs|
    ensures SentCopies(c, Do(c, s, a), y)
         == SentCopies(c, s, y) + if a == DriverPost then Matches(c, 0, c.inputs[s.sent], y) else 0
  {
    if a == DriverPost {
      MappedAppend(c, s.sent);
      CopiesAppend(Mapped(c.stages, c.inputs[..s.sent]), From(c.stages, 0, c.inputs[s.sent]), y);
    } else {
      assert Do(c, s, a).sent == s.sent;
    }
  }

  lemma ConsumedChanges<T>(c: Config<T>, s: State<T>, a: Action, y: T)
    requires Enabled(c, s, a)
    ensures multiset(Do(c, s, a).consumed)[y]
         == multiset(s.consumed)[y] + if a.Consume? then Matches(c, N(c), s.workers[N(c)][a.j].x, y) else 0
  {
  }

  /** No step loses or duplicates a copy of y. */
  lemma StepConserves<T>(c: Config<T>, s: State<T>, a: Action, y: T)
    requires Inv(c, s) && Enabled(c, s, a) && Conserved(c, s, y)
    ensures Do(c, s, a).sent <= |c.inputs| && Shaped(c, Do(c, s, a)) && Conserved(c, Do(c, s, a), y)
  {
    OnTheWayChanges(c, s, a, y, N(c) + 1);
    SentChanges(c, s, a, y);
    ConsumedChanges(c, s, a, y);
  }

  lemma {:induction false} NothingOnTheWay<T>(c: Config<T>, s: State<T>, y: T, m: nat)
    requires m <= |s.chans| && m <= |s.workers|
    requires forall k :: 0 <= k < m ==> s.chans[k].items == [] && AllDone(s.workers[k])
    ensures OnTheWay(c, s, y, m) == 0
  {
    if m > 0 {
      NothingOnTheWay(c, s, y, m - 1);
      SumOfSame(s.workers[m - 1], Done, HeldCopies(c, m - 1, y));
    }
  }

  lemma {:induction false} NothingOnTheWayYet<T>(c: Config<T>, y: T, m: nat)
    requires m <= N(c) + 1
    ensures OnTheWay(c, Init(c), y, m) == 0
  {
    if m > 0 {
      NothingOnTheWayYet(c, y, m - 1);
      SumOfSame(Init(c).workers[m - 1], AtPull, HeldCopies(c, m - 1, y));
    }
  }
}
