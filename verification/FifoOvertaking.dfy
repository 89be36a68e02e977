/** The order of the consume calls when the end stage runs several at a time: they may overtake one another,
    but only by fewer places than its parallelism. */
module FifoOvertaking {
  import opened Sums
  import opened Stages
  import opened FifoPipeline
  import opened FifoInvariant
  import opened FifoTheorems

  /** `slot` is the consume task of value `x`. */
  ghost predicate TaskOf<T>(slot: Slot<T>, x: T) { slot.Forked? || slot.Running? ==> slot.arg == x }

  lemma AddHead<T>(
    f1: multiset<T>, f: multiset<T>, r1: multiset<T>, r: multiset<T>, head: multiset<T>, last: multiset<T>)
    requires f1 + r1 <= head && f + r <= last
    ensures (f1 + f) + (r1 + r) <= head + last
  {
  }

  /** The values with unfinished tasks are among those whose handles are not awaited yet. */
  lemma {:induction false} UnendedAmongLast<T>(items: seq<Slot<T>>, xs: seq<T>, awaited: nat)
    requires |items| == |xs| >= awaited && forall i :: 0 <= i < |items| ==> TaskOf(items[i], xs[i])
    requires forall i :: 0 <= i < awaited ==> items[i].Awaited?
    ensures Gather(items, ForkedItem) + Gather(items, RunningItem) <= multiset(xs[awaited..])
  {
    if items != [] {
      var rest, a := xs[1..], if awaited > 0 then awaited - 1 else 0;
      var head: multiset<T> := if awaited > 0 then multiset{} else multiset{xs[0]};
      UnendedAmongLast(items[1..], rest, a);
      assert TaskOf(items[0], xs[0]);
      assert multiset(xs[awaited..]) == head + multiset(rest[a..]) by {
        assert xs[awaited..] == (if awaited > 0 then [] else [xs[0]]) + rest[a..];
      }
      AddHead(ForkedItem(items[0]), Gather(items[1..], ForkedItem), RunningItem(items[0]),
              Gather(items[1..], RunningItem), head, multiset(rest[a..]));
    }
  }

  /** The values handed over and not consumed. */
  ghost function Unended<T>(c: Config<T>, s: State<T>): multiset<T>
    requires Shaped(c, s)
  {
    Gather(s.inner.items, ForkedItem) + InProgress(s.inner, s.pcs[N(c)])
  }

  lemma InlineUnended<T>(c: Config<T>, s: State<T>)
    requires Valid(c) && Shaped(c, s) && InnerOk(c, s) && HandedOk(c, s) && s.handed != [] && c.inlined
    requires PcOk(c, N(c), s.queues[N(c)], s.pcs[N(c)])
    ensures Unended(c, s) <= multiset(s.handed[|s.handed| - 1..])
  {
    assert s.handed[|s.handed| - 1..] == [s.handed[|s.handed| - 1]];
  }

  lemma TasksOfHanded<T>(c: Config<T>, s: State<T>, i: nat)
    requires Shaped(c, s) && InnerOk(c, s) && HandedOk(c, s) && !c.inlined && i < |s.inner.items|
    ensures i < |s.handed| && TaskOf(s.inner.items[i], s.handed[i])
  {
    assert s.inner.released <= i ==> ConsumeSlotOk(c, i, s.inner.items[i]);
  }

  lemma ParallelUnended<T>(c: Config<T>, s: State<T>, first: nat)
    requires Shaped(c, s) && InnerOk(c, s) && HandedOk(c, s) && !c.inlined && first + c.endWidth == |s.handed|
    ensures Unended(c, s) <= multiset(s.handed[first..])
  {
    var released := s.inner.released;
    forall i | 0 <= i < |s.inner.items| ensures TaskOf(s.inner.items[i], s.handed[i]) {
      TasksOfHanded(c, s, i);
    }
    UnendedAmongLast(s.inner.items, s.handed, released);
    assert s.handed[first..] == s.handed[first..released] + s.handed[released..];
    assert InlineItem(s.pcs[N(c)]) == multiset{};
  }

  lemma FrontIsEnded<T>(handed: seq<T>, ended: seq<T>, unended: multiset<T>, first: nat)
    requires first <= |handed| && multiset(handed) == multiset(ended) + unended
    requires unended <= multiset(handed[first..])
    ensures multiset(handed[..first]) <= multiset(ended)
  {
    var front, last := multiset(handed[..first]), multiset(handed[first..]);
    assert handed == handed[..first] + handed[first..];
    assert multiset(handed) == front + last;
    forall x ensures front[x] <= multiset(ended)[x] {
      assert (front + last)[x] == (multiset(ended) + unended)[x] && unended[x] <= last[x];
    }
  }

  /** Consume calls may begin and finish out of order, but by fewer places than the end stage's parallelism:
      of the values handed over, all but the last `endWidth` have been consumed. */
  lemma OvertakingBounded<T>(c: Config<T>, acts: seq<Action>, s: State<T>)
    requires Valid(c) && IsRun(c, Init(c), acts, s) && |s.handed| >= c.endWidth
    ensures multiset(s.handed[..|s.handed| - c.endWidth]) <= multiset(s.ended)
  {
    ReachableInv(c, acts, s);
    var first := |s.handed| - c.endWidth;
    if c.inlined {
      assert StationOk(c, N(c), s.queues[N(c)], s.pcs[N(c)]);
      InlineUnended(c, s);
    } else {
      ParallelUnended(c, s, first);
    }
    var e, f, r := multiset(s.ended), Gather(s.inner.items, ForkedItem), InProgress(s.inner, s.pcs[N(c)]);
    assert (e + r) + f == e + (f + r);
    FrontIsEnded(s.handed, s.ended, Unended(c, s), first);
  }

  // ---------- Calls do overtake ----------

  /** One stage that changes nothing, two inputs, and an end stage of parallelism 2. */
  function Two(): Config<int> { Config([Stage((x: int) => x, 1)], [10, 11], 2, false) }

  lemma {:induction false} RunExtends<T>(c: Config<T>, s: State<T>, acts: seq<Action>, mid: State<T>, a: Action)
    returns (acts': seq<Action>, s': State<T>)
    requires IsRun(c, s, acts, mid) && Enabled(c, mid, a)
    ensures acts' == acts + [a] && s' == Do(c, mid, a) && IsRun(c, s, acts', s')
  {
    acts', s' := acts + [a], Do(c, mid, a);
    assert [a][1..] == [] && IsRun(c, s', [], s');
    RunsCompose(c, s, acts, mid, [a], s');
  }

  /** What two queues hold, and where their consumers are. */
  ghost predicate At(s: State<int>, items0: seq<Slot<int>>, released0: nat, pc0: Pc<int>,
                     items1: seq<Slot<int>>, released1: nat, pc1: Pc<int>) {
    && |s.queues| == |s.pcs| == 2 && s.pcs[0] == pc0 && s.pcs[1] == pc1
    && s.queues[0] == Queue(items0, released0, false) && s.queues[1] == Queue(items1, released1, false)
  }

  ghost predicate SameEnd(s: State<int>, s': State<int>) {
    s'.inner == s.inner && s'.active == s.active && s'.handed == s.handed && s'.begun == s.begun && s'.ended == s.ended
  }

  /** Takes the next input from the driver to the stage's hand. */
  lemma Take(acts: seq<Action>, s: State<int>, gone: seq<Slot<int>>) returns (acts': seq<Action>, s': State<int>)
    requires |gone| < 2 && IsRun(Two(), Init(Two()), acts, s)
    requires At(s, gone, |gone|, AtPull, gone, |gone|, AtPull)
    ensures IsRun(Two(), Init(Two()), acts', s') && SameEnd(s, s')
    ensures At(s', gone + [Awaited], |gone|, Got(Two().inputs[|gone|]), gone, |gone|, AtPull)
  {
    acts', s' := RunExtends(Two(), Init(Two()), acts, s, DriverPush);
    assert s'.queues[0].items == gone + [Ready(Two().inputs[|gone|])];
    acts', s' := RunExtends(Two(), Init(Two()), acts', s', Pull(0));
    acts', s' := RunExtends(Two(), Init(Two()), acts', s', Await(0));
    assert s'.queues[0].items == gone + [Awaited];
  }

  /** Takes it on to the next queue. */
  lemma Pass(acts: seq<Action>, s: State<int>, gone: seq<Slot<int>>, x: int)
    returns (acts': seq<Action>, s': State<int>)
    requires IsRun(Two(), Init(Two()), acts, s)
    requires At(s, gone + [Awaited], |gone|, Got(x), gone, |gone|, AtPull)
    ensures IsRun(Two(), Init(Two()), acts', s') && SameEnd(s, s')
    ensures At(s', gone + [Awaited], |gone| + 1, AtPull, gone + [Running(x)], |gone|, AtPull)
  {
    acts', s' := RunExtends(Two(), Init(Two()), acts, s, Fork(0));
    acts', s' := RunExtends(Two(), Init(Two()), acts', s', Release(0));
  }

  /** Takes it on to the end stage's hand. */
  lemma Receive(acts: seq<Action>, s: State<int>, gone: seq<Slot<int>>, x: int)
    returns (acts': seq<Action>, s': State<int>)
    requires IsRun(Two(), Init(Two()), acts, s)
    requires At(s, gone + [Awaited], |gone| + 1, AtPull, gone + [Running(x)], |gone|, AtPull)
    ensures IsRun(Two(), Init(Two()), acts', s') && SameEnd(s, s')
    ensures At(s', gone + [Awaited], |gone| + 1, AtPull, gone + [Awaited], |gone|, Got(x))
  {
    acts', s' := RunExtends(Two(), Init(Two()), acts, s, Finish(1, |gone|));
    assert s'.queues[1].items == gone + [Ready(x)];
    acts', s' := RunExtends(Two(), Init(Two()), acts', s', Pull(1));
    acts', s' := RunExtends(Two(), Init(Two()), acts', s', Await(1));
    assert s'.queues[1].items == gone + [Awaited];
  }

  lemma OneItem(acts: seq<Action>, s: State<int>, gone: seq<Slot<int>>) returns (acts': seq<Action>, s': State<int>)
    requires |gone| < 2 && IsRun(Two(), Init(Two()), acts, s)
    requires At(s, gone, |gone|, AtPull, gone, |gone|, AtPull)
    ensures IsRun(Two(), Init(Two()), acts', s') && SameEnd(s, s')
    ensures At(s', gone + [Awaited], |gone| + 1, AtPull, gone + [Awaited], |gone|, Got(Two().inputs[|gone|]))
  {
    acts', s' := Take(acts, s, gone);
    acts', s' := Pass(acts', s', gone, Two().inputs[|gone|]);
    acts', s' := Receive(acts', s', gone, Two().inputs[|gone|]);
  }

  lemma FirstHandedOver() returns (acts: seq<Action>, s: State<int>)
    ensures IsRun(Two(), Init(Two()), acts, s)
    ensures At(s, [Awaited], 1, AtPull, [Awaited], 1, AtPull)
    ensures s.inner == Queue([Forked(10)], 0, false) && s.handed == [10] && s.begun == s.ended == []
  {
    acts, s := [], Init(Two());
    acts, s := OneItem(acts, s, []);
    acts, s := RunExtends(Two(), Init(Two()), acts, s, EndFork);
    acts, s := RunExtends(Two(), Init(Two()), acts, s, Release(1));
  }

  lemma BothHandedOver() returns (acts: seq<Action>, s: State<int>)
    ensures IsRun(Two(), Init(Two()), acts, s)
    ensures Shaped(Two(), s) && s.inner.items == [Forked(10), Forked(11)]
    ensures s.handed == [10, 11] && s.begun == s.ended == []
  {
    acts, s := FirstHandedOver();
    acts, s := OneItem(acts, s, [Awaited]);
    acts, s := RunExtends(Two(), Init(Two()), acts, s, EndFork);
  }

  /** A run in which the second call begins, and ends, before the first has begun. */
  lemma CallsCanOvertake() returns (acts: seq<Action>, s: State<int>)
    ensures Valid(Two()) && IsRun(Two(), Init(Two()), acts, s)
    ensures s.handed == [10, 11] && s.begun == s.ended == [11]
  {
    acts, s := BothHandedOver();
    acts, s := RunExtends(Two(), Init(Two()), acts, s, EndStart(1));
    acts, s := RunExtends(Two(), Init(Two()), acts, s, EndFinish(1));
  }
}
