/** The channel benchmark: [0, N) is split among producers, any interleaving of producers and consumers moves
    it through one channel, and the consumers' totals are checked. */
module ChanBench {
  import opened Sums
  import opened WordArithmetic

  // ---------- Splitting the range ----------

  /** A producer has still to push next, next + 1, ..., end - 1. */
  datatype Producer = Producer(next: nat, end: nat)

  /** Consecutive ranges, starting at `lo`. */
  ghost predicate Contiguous(ps: seq<Producer>, lo: nat, hi: nat) {
    if ps == [] then lo == hi
    else ps[0].next == lo <= ps[0].end && Contiguous(ps[1..], ps[0].end, hi)
  }

  lemma {:induction false} ContiguousAppend(ps: seq<Producer>, lo: nat, mid: nat, hi: nat)
    requires Contiguous(ps, lo, mid) && mid <= hi
    ensures Contiguous(ps + [Producer(mid, hi)], lo, hi)
  {
    if ps == [] {
      assert Contiguous([Producer(mid, hi)][1..], hi, hi);
    } else {
      assert (ps + [Producer(mid, hi)])[1..] == ps[1..] + [Producer(mid, hi)];
      ContiguousAppend(ps[1..], ps[0].end, mid, hi);
    }
  }

  ghost function Times(a: nat, k: nat): nat { if k == 0 then 0 else Times(a, k - 1) + a }

  lemma {:induction false} TimesIsProduct(a: nat, k: nat)
    ensures Times(a, k) == a * k
  {
    if k > 0 {
      TimesIsProduct(a, k - 1);
    }
  }

  lemma WholeRange(n: nat, prodCount: nat)
    requires prodCount >= 1
    ensures n % prodCount < prodCount && n == Times(n / prodCount, prodCount) + n % prodCount
  {
    TimesIsProduct(n / prodCount, prodCount);
  }

  /** The loop in main that creates the producers: the first `rem` of them get one number more. */
  method SplitInto(perTask: nat, rem: nat, prodCount: nat) returns (prod: seq<Producer>)
    requires rem < prodCount
    ensures |prod| == prodCount && Contiguous(prod, 0, Times(perTask, prodCount) + rem)
    ensures forall i :: 0 <= i < prodCount ==> prod[i].end == prod[i].next + perTask + if i < rem then 1 else 0
  {
    prod := [];
    var base: nat := 0;
    for i := 0 to prodCount
      invariant |prod| == i && Contiguous(prod, 0, base)
      invariant base == Times(perTask, i) + (if i < rem then i else rem)
      invariant forall m :: 0 <= m < i ==> prod[m].end == prod[m].next + perTask + if m < rem then 1 else 0
    {
      var count := if i < rem then perTask + 1 else perTask;
      ContiguousAppend(prod, 0, base, base + count);
      prod := prod + [Producer(base, base + count)];
      base := base + count;
    }
  }

  /** Whatever n and the number of producers, the producers' ranges are consecutive and cover [0, n), and
      their sizes differ by at most one. */
  method Split(n: nat, prodCount: nat) returns (prod: seq<Producer>)
    requires prodCount >= 1
    ensures |prod| == prodCount && Contiguous(prod, 0, n)
    ensures forall i, j :: 0 <= i < prodCount && 0 <= j < prodCount ==>
      prod[i].end - prod[i].next <= prod[j].end - prod[j].next + 1
  {
    WholeRange(n, prodCount);
    prod := SplitInto(n / prodCount, n % prodCount, prodCount);
  }

  // ---------- The two coroutines ----------

  /** producer: what it pushes, in order. */
  method ProducerLoop(count: nat, base: nat) returns (pushed: seq<nat>)
    ensures |pushed| == count && forall i :: 0 <= i < count ==> pushed[i] == base + i
  {
    pushed := [];
    for i := 0 to count
      invariant |pushed| == i && forall m :: 0 <= m < i ==> pushed[m] == base + m
    {
      pushed := pushed + [base + i];
    }
  }

  /** consumer: of the elements that fall to it before the channel is closed and drained it returns the number
      and the sum, modulo the word. */
  method ConsumerLoop(share: seq<nat>, w: nat) returns (count: nat, sum: nat)
    requires w > 0
    ensures count == |share| % w && sum == Sum(share, Self) % w
  {
    count, sum := 0, 0;
    for i := 0 to |share|
      invariant count == i % w && sum == Sum(share[..i], Self) % w
    {
      assert share[..i + 1] == share[..i] + [share[i]];
      SumAppend(share[..i], share[i], Self);
      ModAdd(i, 1, w);
      ModAdd(Sum(share[..i], Self), share[i], w);
      count := (count + 1) % w;
      sum := (sum + share[i]) % w;
    }
    assert share[..|share|] == share;
  }

  // ---------- The producers, the channel and the consumers ----------

  datatype Consumer = Consumer(count: nat, sum: nat, done: bool)

  /** `received` lists what the consumers have pulled, in order; `w` is the size of the word. */
  datatype State = State(prod: seq<Producer>, chan: seq<nat>, closed: bool, cons: seq<Consumer>, received: seq<nat>)

  datatype Action = Push(i: nat) | Close | Pull(j: nat) | Leave(j: nat)

  function Init(prod: seq<Producer>, consCount: nat): State {
    State(prod, [], false, seq(consCount, _ => Consumer(0, 0, false)), [])
  }

  predicate Exhausted(prod: seq<Producer>) { forall i :: 0 <= i < |prod| ==> prod[i].next >= prod[i].end }

  predicate Enabled(s: State, a: Action) {
    match a
    case Push(i) => i < |s.prod| && s.prod[i].next < s.prod[i].end
    case Close => !s.closed && Exhausted(s.prod)
    case Pull(j) => j < |s.cons| && !s.cons[j].done && s.chan != []
    case Leave(j) => j < |s.cons| && !s.cons[j].done && s.closed && s.chan == []
  }

  function Do(s: State, a: Action, w: nat): State
    requires w > 0 && Enabled(s, a)
  {
    match a
    case Push(i) =>
      var p := s.prod[i];
      s.(prod := s.prod[i := p.(next := p.next + 1)], chan := if s.closed then s.chan else s.chan + [p.next])
    case Close => s.(closed := true)
    case Pull(j) =>
      var x, c := s.chan[0], s.cons[j];
      s.(chan := s.chan[1..], received := s.received + [x],
         cons := s.cons[j := c.(count := (c.count + 1) % w, sum := (c.sum + x) % w)])
    case Leave(j) => s.(cons := s.cons[j := s.cons[j].(done := true)])
  }

  predicate Final(s: State) {
    s.closed && s.chan == [] && Exhausted(s.prod) && forall j :: 0 <= j < |s.cons| ==> s.cons[j].done
  }

  ghost predicate IsRun(s: State, acts: seq<Action>, s': State, w: nat)
    requires w > 0
    decreases acts
  {
    if acts == [] then s' == s else Enabled(s, acts[0]) && IsRun(Do(s, acts[0], w), acts[1..], s', w)
  }

  // ---------- Conservation, for any weight given to the numbers ----------

  ghost function RangeWeight(f: nat -> int, lo: nat, hi: nat): int
    decreases hi - lo
  {
    if lo >= hi then 0 else f(lo) + RangeWeight(f, lo + 1, hi)
  }

  ghost function LeftWeight(f: nat -> int): Producer -> int { (p: Producer) => RangeWeight(f, p.next, p.end) }

  lemma {:induction false} RangeWeightSplit(f: nat -> int, lo: nat, mid: nat, hi: nat)
    requires lo <= mid <= hi
    ensures RangeWeight(f, lo, hi) == RangeWeight(f, lo, mid) + RangeWeight(f, mid, hi)
    decreases mid - lo
  {
    if lo < mid {
      RangeWeightSplit(f, lo + 1, mid, hi);
    }
  }

  /** However [lo, hi) is cut into consecutive ranges, their weights add up to its weight. */
  lemma {:induction false} ContiguousWeight(f: nat -> int, ps: seq<Producer>, lo: nat, hi: nat)
    requires Contiguous(ps, lo, hi)
    ensures lo <= hi && Sum(ps, LeftWeight(f)) == RangeWeight(f, lo, hi)
  {
    if ps != [] {
      ContiguousWeight(f, ps[1..], ps[0].end, hi);
      RangeWeightSplit(f, lo, ps[0].end, hi);
    }
  }

  /** What is still to be pushed, is in the channel, or has been received weighs as much as [0, n). */
  ghost predicate Conserved(s: State, f: nat -> int, n: nat) {
    Sum(s.prod, LeftWeight(f)) + Sum(s.chan, f) + Sum(s.received, f) == RangeWeight(f, 0, n)
  }

  ghost predicate OpenWhileProducing(s: State) { s.closed ==> Exhausted(s.prod) }

  lemma StepConserves(s: State, a: Action, w: nat, f: nat -> int, n: nat)
    requires w > 0 && Enabled(s, a) && Conserved(s, f, n) && OpenWhileProducing(s)
    ensures Conserved(Do(s, a, w), f, n) && OpenWhileProducing(Do(s, a, w))
  {
    match a
    case Push(i) =>
      var p := s.prod[i];
      SumUpdate(s.prod, i, p.(next := p.next + 1), LeftWeight(f));
      SumAppend(s.chan, p.next, f);
    case Pull(j) => SumAppend(s.received, s.chan[0], f);
    case _ =>
  }

  // ---------- The consumers' own, wrapping, totals ----------

  function One(x: nat): int { 1 }

  function Self(x: nat): int { x }

  function CountOf(c: Consumer): int { c.count }

  function SumOf(c: Consumer): int { c.sum }

  ghost predicate TotalsOk(s: State, w: nat)
    requires w > 0
  {
    && Sum(s.cons, CountOf) % w == Sum(s.received, One) % w
    && Sum(s.cons, SumOf) % w == Sum(s.received, Self) % w
  }

  lemma SameAfterAdding(a: int, b: int, x: int, w: nat)
    requires w > 0 && a % w == b % w
    ensures (a + x) % w == (b + x) % w
  {
    ModAdd(a, x, w);
    ModAdd(b, x, w);
  }

  /** Adding to one consumer's total, and wrapping it, adds to the wrapped sum of all totals. */
  lemma WrappedTotal(others: int, mine: int, x: int, all: int, w: nat)
    requires w > 0 && (others + mine) % w == all % w
    ensures (others + (mine + x) % w) % w == (all + x) % w
  {
    ModAddRight(others, mine + x, w);
    SameAfterAdding(others + mine, all, x, w);
    assert others + (mine + x) == others + mine + x;
  }

  lemma StepKeepsTotals(s: State, a: Action, w: nat)
    requires w > 0 && Enabled(s, a) && TotalsOk(s, w)
    ensures TotalsOk(Do(s, a, w), w)
  {
    match a
    case Pull(j) =>
      var x, c, c' := s.chan[0], s.cons[j], Do(s, a, w).cons[j];
      SumUpdate(s.cons, j, c', CountOf);
      SumUpdate(s.cons, j, c', SumOf);
      SumAppend(s.received, x, One);
      SumAppend(s.received, x, Self);
      WrappedTotal(Sum(s.cons, CountOf) - c.count, c.count, 1, Sum(s.received, One), w);
      WrappedTotal(Sum(s.cons, SumOf) - c.sum, c.sum, x, Sum(s.received, Self), w);
    case Leave(j) =>
      SumUpdate(s.cons, j, s.cons[j].(done := true), CountOf);
      SumUpdate(s.cons, j, s.cons[j].(done := true), SumOf);
    case _ =>
  }

  lemma {:induction false} RunKeeps(s: State, acts: seq<Action>, s': State, w: nat, f: nat -> int, n: nat)
    requires w > 0 && IsRun(s, acts, s', w) && Conserved(s, f, n) && OpenWhileProducing(s) && TotalsOk(s, w)
    ensures Conserved(s', f, n) && OpenWhileProducing(s') && TotalsOk(s', w) && |s'.cons| == |s.cons|
    decreases acts
  {
    if acts != [] {
      StepConserves(s, acts[0], w, f, n);
      StepKeepsTotals(s, acts[0], w);
      RunKeeps(Do(s, acts[0], w), acts[1..], s', w, f, n);
    }
  }

  lemma ReachableKeeps(n: nat, prod: seq<Producer>, consCount: nat, acts: seq<Action>, s: State, w: nat, f: nat -> int)
    requires w > 0 && Contiguous(prod, 0, n) && IsRun(Init(prod, consCount), acts, s, w)
    ensures Conserved(s, f, n) && OpenWhileProducing(s) && TotalsOk(s, w) && |s.cons| == consCount
  {
    var s0 := Init(prod, consCount);
    ContiguousWeight(f, prod, 0, n);
    NothingCounted(s0.cons);
    RunKeeps(s0, acts, s, w, f, n);
  }

  lemma {:induction false} NothingCounted(cons: seq<Consumer>)
    requires forall j :: 0 <= j < |cons| ==> cons[j] == Consumer(0, 0, false)
    ensures Sum(cons, CountOf) == 0 && Sum(cons, SumOf) == 0
  {
    if cons != [] {
      NothingCounted(cons[1..]);
    }
  }

  lemma {:induction false} NothingLeft(f: nat -> int, ps: seq<Producer>)
    requires Exhausted(ps)
    ensures Sum(ps, LeftWeight(f)) == 0
  {
    if ps != [] {
      NothingLeft(f, ps[1..]);
    }
  }

  /** At the end of every interleaving what has been received weighs exactly what [0, n) weighs. */
  lemma FinalWeight(n: nat, prod: seq<Producer>, consCount: nat, acts: seq<Action>, s: State, w: nat, f: nat -> int)
    requires w > 0 && Contiguous(prod, 0, n) && IsRun(Init(prod, consCount), acts, s, w) && Final(s)
    ensures Sum(s.received, f) == RangeWeight(f, 0, n)
  {
    ReachableKeeps(n, prod, consCount, acts, s, w, f);
    NothingLeft(f, s.prod);
  }

  lemma {:induction false} RangeWeights(lo: nat, hi: nat)
    requires lo <= hi
    ensures RangeWeight(One, lo, hi) == hi - lo && RangeWeight(Self, lo, hi) == RangeSum(lo, hi - lo)
    decreases hi - lo
  {
    if lo < hi {
      RangeWeights(lo + 1, hi);
      RangeSumSplit(lo, 1, hi - lo - 1);
      assert RangeSum(lo, 1) == RangeSum(lo, 0) + lo;
    }
  }

  function IsValue(v: nat): nat -> int { (x: nat) => if x == v then 1 else 0 }

  lemma {:induction false} ValueWeight(v: nat, lo: nat, hi: nat)
    ensures RangeWeight(IsValue(v), lo, hi) == if lo <= v < hi then 1 else 0
    decreases hi - lo
  {
    if lo < hi {
      ValueWeight(v, lo + 1, hi);
    }
  }

  /** Main theorem.  In every interleaving the consumers end with exactly n elements in all, adding up to
      n(n-1)/2, both modulo the word; and each number below n has been received exactly once. */
  lemma TotalsAreExact(n: nat, prod: seq<Producer>, consCount: nat, acts: seq<Action>, s: State, w: nat)
    requires w > 0 && Contiguous(prod, 0, n) && IsRun(Init(prod, consCount), acts, s, w) && Final(s)
    ensures Sum(s.cons, CountOf) % w == n % w
    ensures Sum(s.cons, SumOf) % w == RangeSum(0, n) % w
    ensures forall v: nat :: Sum(s.received, IsValue(v)) == if v < n then 1 else 0
  {
    ReachableKeeps(n, prod, consCount, acts, s, w, One);
    FinalWeight(n, prod, consCount, acts, s, w, One);
    FinalWeight(n, prod, consCount, acts, s, w, Self);
    RangeWeights(0, n);
    forall v: nat ensures Sum(s.received, IsValue(v)) == if v < n then 1 else 0 {
      FinalWeight(n, prod, consCount, acts, s, w, IsValue(v));
      ValueWeight(v, 0, n);
    }
  }

  /** With at least one consumer no interleaving gets stuck before the end. */
  lemma NeverDeadlocked(n: nat, prod: seq<Producer>, consCount: nat, acts: seq<Action>, s: State, w: nat)
    requires w > 0 && Contiguous(prod, 0, n) && IsRun(Init(prod, consCount), acts, s, w) && consCount >= 1
    ensures (forall a :: !Enabled(s, a)) ==> Final(s)
  {
    ReachableKeeps(n, prod, consCount, acts, s, w, One);
    if forall a :: !Enabled(s, a) {
      forall i | 0 <= i < |s.prod| ensures s.prod[i].next >= s.prod[i].end {
        assert !Enabled(s, Push(i));
      }
      assert !Enabled(s, Close);
      forall j | 0 <= j < |s.cons| ensures s.cons[j].done {
        assert !Enabled(s, Pull(j)) && !Enabled(s, Leave(j));
      }
      LastLeftDrained(n, prod, consCount, acts, s, w);
    }
  }

  function NotDone(c: Consumer): int { if c.done then 0 else 1 }

  ghost function Measure(s: State): int {
    2 * Sum(s.prod, LeftWeight(One)) + |s.chan| + (if s.closed then 0 else 1) + Sum(s.cons, NotDone)
  }

  lemma MeasureFalls(s: State, a: Action, w: nat)
    requires w > 0 && Enabled(s, a)
    ensures Measure(Do(s, a, w)) < Measure(s)
  {
    match a
    case Push(i) => SumUpdate(s.prod, i, s.prod[i].(next := s.prod[i].next + 1), LeftWeight(One));
    case Pull(j) => SumUpdate(s.cons, j, Do(s, a, w).cons[j], NotDone);
    case Leave(j) => SumUpdate(s.cons, j, s.cons[j].(done := true), NotDone);
    case Close =>
  }

  lemma RangeWeightNonNegative(lo: nat, hi: nat)
    ensures RangeWeight(One, lo, hi) >= 0
    decreases hi - lo
  {
  }

  lemma {:induction false} RunShortensMeasure(s: State, acts: seq<Action>, s': State, w: nat)
    requires w > 0 && IsRun(s, acts, s', w)
    ensures |acts| + Measure(s') <= Measure(s) && Measure(s') >= 0
    decreases acts
  {
    if acts == [] {
      forall p ensures LeftWeight(One)(p) >= 0 {
        RangeWeightNonNegative(p.next, p.end);
      }
      SumNonNegative(s.prod, LeftWeight(One));
      SumNonNegative(s.cons, NotDone);
    } else {
      MeasureFalls(s, acts[0], w);
      RunShortensMeasure(Do(s, acts[0], w), acts[1..], s', w);
    }
  }

  /** No interleaving is longer than two steps per number, one per consumer, and the close. */
  lemma RunsAreBounded(n: nat, prod: seq<Producer>, consCount: nat, acts: seq<Action>, s: State, w: nat)
    requires w > 0 && Contiguous(prod, 0, n) && IsRun(Init(prod, consCount), acts, s, w)
    ensures |acts| <= 2 * n + consCount + 1
  {
    RunShortensMeasure(Init(prod, consCount), acts, s, w);
    ContiguousWeight(One, prod, 0, n);
    RangeWeights(0, n);
    SumOfFlags(Init(prod, consCount).cons, NotDone);
  }

  ghost predicate LeftMeansDrained(s: State) {
    (exists j :: 0 <= j < |s.cons| && s.cons[j].done) ==> s.closed && s.chan == []
  }

  lemma {:induction false} RunKeepsDrained(s: State, acts: seq<Action>, s': State, w: nat)
    requires w > 0 && IsRun(s, acts, s', w) && LeftMeansDrained(s) && OpenWhileProducing(s)
    ensures LeftMeansDrained(s')
    decreases acts
  {
    if acts != [] {
      var s1 := Do(s, acts[0], w);
      if j :| 0 <= j < |s1.cons| && s1.cons[j].done {
        assert s.cons[j].done || acts[0] == Leave(j);
      }
      RunKeepsDrained(s1, acts[1..], s', w);
    }
  }

  lemma LastLeftDrained(n: nat, prod: seq<Producer>, consCount: nat, acts: seq<Action>, s: State, w: nat)
    requires w > 0 && Contiguous(prod, 0, n) && IsRun(Init(prod, consCount), acts, s, w)
    ensures LeftMeansDrained(s)
  {
    RunKeepsDrained(Init(prod, consCount), acts, s, w);
  }

  /** The loops in main that add up the consumers' results and the expected sum, with wrapping words. */
  method Totals(results: seq<Consumer>, n: nat, w: nat) returns (count: nat, sum: nat, expectedSum: nat)
    requires w > 0
    ensures count == Sum(results, CountOf) % w && sum == Sum(results, SumOf) % w
    ensures expectedSum == RangeSum(0, n) % w
  {
    count, sum, expectedSum := 0, 0, 0;
    for i := 0 to |results|
      invariant count == Sum(results[..i], CountOf) % w && sum == Sum(results[..i], SumOf) % w
    {
      assert results[..i + 1] == results[..i] + [results[i]];
      SumAppend(results[..i], results[i], CountOf);
      SumAppend(results[..i], results[i], SumOf);
      ModAdd(Sum(results[..i], CountOf), results[i].count, w);
      ModAdd(Sum(results[..i], SumOf), results[i].sum, w);
      count := (count + results[i].count) % w;
      sum := (sum + results[i].sum) % w;
    }
    assert results[..|results|] == results;
    for i := 0 to n
      invariant expectedSum == RangeSum(0, i) % w
    {
      ModAdd(RangeSum(0, i), i, w);
      expectedSum := (expectedSum + i) % w;
    }
  }

  /** main's check of whatever results the consumers return: it reports a wrong count, and a wrong sum. */
  method CheckResults(results: seq<Consumer>, n: nat, w: nat) returns (countOk: bool, sumOk: bool)
    requires w > 0
    ensures countOk <==> Sum(results, CountOf) % w == n % w
    ensures sumOk <==> Sum(results, SumOf) % w == RangeSum(0, n) % w
  {
    var count, sum, expectedSum := Totals(results, n, w);
    countOk, sumOk := count == n % w, sum == expectedSum;
  }

  /** main's check passes after every interleaving, for every split, consumer count and word size. */
  method Check(n: nat, prod: seq<Producer>, consCount: nat, ghost acts: seq<Action>, s: State, w: nat)
    returns (countOk: bool, sumOk: bool)
    requires w > 0 && Contiguous(prod, 0, n) && IsRun(Init(prod, consCount), acts, s, w) && Final(s)
    ensures countOk && sumOk
  {
    TotalsAreExact(n, prod, consCount, acts, s, w);
    countOk, sumOk := CheckResults(s.cons, n, w);
  }
}
