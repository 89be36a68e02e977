/** The two example programs: the same four steps through either pipeline, over exact numbers. */
module ExamplePipelines {
  import opened Stages
  import F = FifoPipeline
  import FT = FifoTheorems
  import U = UnorderedPipeline
  import UT = UnorderedTheorems

  /** The C++ types that flow between the stages; float and double are the exact reals. */
  datatype Value = IntV(i: int) | RealV(r: real) | BoolV(b: bool)

  /** static_cast<int>: truncation toward zero. */
  function Truncate(r: real): (t: int)
    ensures r >= 0.0 ==> 0.0 <= t as real <= r < t as real + 1.0
    ensures r <= 0.0 ==> t as real - 1.0 < r <= t as real <= 0.0
  {
    if r >= 0.0 then r.Floor else -((-r).Floor)
  }

  function PlusHalf(v: Value): Value { if v.IntV? then RealV(v.i as real + 0.5) else v }

  function TimesTwo(v: Value): Value { if v.RealV? then RealV(2.0 * v.r) else v }

  function MinusOne(v: Value): Value { if v.RealV? then IntV(Truncate(v.r) - 1) else v }

  function AsBool(v: Value): Value { if v.IntV? then BoolV(v.i > 2) else v }

  /** The four transform stages with the given parallelism; the examples use 10. */
  function Steps(width: nat): seq<Stage<Value>> {
    [Stage(PlusHalf, width), Stage(TimesTwo, width), Stage(MinusOne, width), Stage(AsBool, width)]
  }

  function Inputs(n: nat): seq<Value> { seq(n, i => IntV(i)) }

  /** An input i becomes i + 1/2, then 2i + 1, then 2i, and comes out true exactly when i is at least 2. */
  lemma StepsCompute(width: nat, i: int)
    ensures |Steps(width)| == 4 && forall k :: 0 <= k < 4 ==> Steps(width)[k].width == width
    ensures Through(Steps(width), 1, IntV(i)) == RealV((2 * i + 1) as real / 2.0)
    ensures Through(Steps(width), 2, IntV(i)) == RealV((2 * i + 1) as real)
    ensures Through(Steps(width), 3, IntV(i)) == IntV(2 * i)
    ensures Through(Steps(width), 4, IntV(i)) == BoolV(i >= 2)
  {
    var st := Steps(width);
    assert i as real + 0.5 == (2 * i + 1) as real / 2.0;
    assert Through(st, 1, IntV(i)) == st[0].f(Through(st, 0, IntV(i)));
    assert Through(st, 2, IntV(i)) == st[1].f(Through(st, 1, IntV(i)));
    assert Truncate((2 * i + 1) as real) == 2 * i + 1;
    assert Through(st, 3, IntV(i)) == st[2].f(Through(st, 2, IntV(i)));
    assert Through(st, 4, IntV(i)) == st[3].f(Through(st, 3, IntV(i)));
  }

  /** The end stage's lambda, called on each result in turn. */
  method ReportOf(consumed: seq<Value>) returns (sum: nat, count: nat)
    ensures count == |consumed| && sum == multiset(consumed)[BoolV(true)]
  {
    sum, count := 0, 0;
    for m := 0 to |consumed|
      invariant count == m && sum == multiset(consumed[..m])[BoolV(true)]
    {
      assert consumed[..m + 1] == consumed[..m] + [consumed[m]];
      if consumed[m] == BoolV(true) {
        sum := sum + 1;
      }
      count := count + 1;
    }
    assert consumed[..|consumed|] == consumed;
  }

  lemma {:induction false} TruesAmongMapped(width: nat, n: nat)
    ensures multiset(Mapped(Steps(width), Inputs(n)))[BoolV(true)] == if n >= 2 then n - 2 else 0
  {
    if n > 0 {
      TruesAmongMapped(width, n - 1);
      StepsCompute(width, n - 1);
      assert Mapped(Steps(width), Inputs(n)) == Mapped(Steps(width), Inputs(n - 1)) + [BoolV(n - 1 >= 2)];
    }
  }

  /** The two pipelines agree: for the same stage functions and inputs, whatever the widths and the schedules,
      both have consumed the same values when they are done. */
  lemma PipelinesAgree<T>(
    f: F.Config<T>, facts: seq<F.Action>, fs: F.State<T>, u: U.Config<T>, uacts: seq<U.Action>, us: U.State<T>)
    requires F.Valid(f) && F.IsRun(f, F.Init(f), facts, fs) && F.Final(f, fs)
    requires U.Valid(u) && U.IsRun(u, U.Init(u), uacts, us) && U.Final(u, us)
    requires f.inputs == u.inputs && SameFunctions(f.stages, u.stages)
    ensures multiset(fs.ended) == multiset(us.consumed)
  {
    FT.EveryRunHandsOverInOrder(f, facts, fs);
    UT.EveryRun(u, uacts, us);
    forall x: T ensures Through(f.stages, |f.stages|, x) == Through(u.stages, |u.stages|, x) {
      SameThrough(f.stages, u.stages, |f.stages|, x);
    }
    assert Mapped(f.stages, f.inputs) == Mapped(u.stages, u.inputs);
  }

  ghost predicate SameFunctions<T>(a: seq<Stage<T>>, b: seq<Stage<T>>) {
    |a| == |b| && forall k :: 0 <= k < |a| ==> a[k].f == b[k].f
  }

  lemma {:induction false} SameThrough<T>(a: seq<Stage<T>>, b: seq<Stage<T>>, k: nat, x: T)
    requires SameFunctions(a, b) && k <= |a|
    ensures Through(a, k, x) == Through(b, k, x)
  {
    if k > 0 {
      SameThrough(a, b, k - 1, x);
    }
  }

  /** pipeline_fifo.cpp: whatever the schedule, when everything has been joined the program has consumed the
      results in input order and reports count n and sum n - 2. */
  method FifoMain(n: nat, width: nat, ghost acts: seq<F.Action>, s: F.State<Value>) returns (sum: nat, count: nat)
    requires width >= 1
    requires var c := F.Constructed(Steps(width), Inputs(n), 1); F.IsRun(c, F.Init(c), acts, s) && F.Final(c, s)
    ensures s.ended == Mapped(Steps(width), Inputs(n))
    ensures count == n && sum == if n >= 2 then n - 2 else 0
  {
    ghost var c := F.Constructed(Steps(width), Inputs(n), 1);
    FT.SerialRunConsumesInOrder(c, acts, s);
    TruesAmongMapped(width, n);
    sum, count := ReportOf(s.ended);
  }

  /** pipeline.cpp, with its one end worker: whatever the schedule, when everything has been joined the program
      reports the same. */
  method UnorderedMain(n: nat, width: nat, ghost acts: seq<U.Action>, s: U.State<Value>) returns (sum: nat, count: nat)
    requires width >= 1
    requires var c := U.Config(Steps(width), Inputs(n), 1, true); U.IsRun(c, U.Init(c), acts, s) && U.Final(c, s)
    ensures count == n && sum == if n >= 2 then n - 2 else 0
  {
    ghost var c := U.Config(Steps(width), Inputs(n), 1, true);
    UT.EveryRun(c, acts, s);
    TruesAmongMapped(width, n);
    assert |multiset(s.consumed)| == |multiset(Mapped(Steps(width), Inputs(n)))|;
    sum, count := ReportOf(s.consumed);
  }
}
