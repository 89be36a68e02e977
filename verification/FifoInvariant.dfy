/** The invariant of the FIFO pipeline, and its preservation by every step. */
module FifoInvariant {
  import opened Sums
  import opened Stages
  import opened FifoPipeline

  predicate PastAwait<T>(pc: Pc<T>) { pc.Got? || pc.Consuming? || pc.Draining? || pc.AtRelease? }

  /** How many handles of the queue its consumer has awaited: all those released, and the one in hand. */
  function AwaitedCount<T>(q: Queue<T>, pc: Pc<T>): nat {
    q.released + if PastAwait(pc) then 1 else 0
  }

  /** Slot `i` of queue `k` belongs to input `i`: its task is still running on the value that
      stage k-1 was given, or is finished with the value that stage k-1 computed. */
  ghost predicate SlotOk<T>(c: Config<T>, k: nat, i: nat, slot: Slot<T>)
    requires k <= N(c) && i < |c.inputs|
  {
    || slot == Ready(Through(c.stages, k, c.inputs[i]))
    || (k > 0 && slot == Running(Through(c.stages, k - 1, c.inputs[i])))
  }

  ghost predicate WindowOk<T>(c: Config<T>, k: nat, q: Queue<T>, awaited: nat)
    requires |c.stages| >= 1 && k <= N(c)
  {
    && q.released <= awaited <= |q.items| <= |c.inputs|
    && Occupied(q) <= Capacity(c, k)
    && (forall i :: 0 <= i < awaited ==> q.items[i] == Awaited)
    && (forall i :: awaited <= i < |q.items| ==> SlotOk(c, k, i, q.items[i]))
  }

  ghost predicate PcOk<T>(c: Config<T>, k: nat, q: Queue<T>, pc: Pc<T>)
    requires k <= N(c)
  {
    && (pc.Holding? || PastAwait(pc) ==> q.released < |q.items| <= |c.inputs|)
    && (pc.Got? || pc.Consuming? ==> pc.data == Through(c.stages, k, c.inputs[q.released]))
    && (pc.SawClosed? || pc.Exited? ==> q.closed && q.released == |q.items|)
    && (pc.Consuming? || pc.Draining? ==> k == N(c))
  }

  ghost predicate StationOk<T>(c: Config<T>, k: nat, q: Queue<T>, pc: Pc<T>)
    requires |c.stages| >= 1 && k <= N(c)
  {
    WindowOk(c, k, q, AwaitedCount(q, pc)) && PcOk(c, k, q, pc)
  }

  /** Stage `k` has forked one task for every item it has finished with, and nobody else closes its output. */
  ghost predicate LinkOk<T>(q: Queue<T>, pc: Pc<T>, out: Queue<T>) {
    && |out.items| == q.released + (if pc.AtRelease? then 1 else 0)
    && (out.closed <==> pc.Exited?)
  }

  /** The values handed over so far: one per item the end stage has released, and the one it is occupied with. */
  function HandedCount<T>(q: Queue<T>, pc: Pc<T>): nat {
    q.released + if pc.Consuming? || pc.Draining? || pc.AtRelease? then 1 else 0
  }

  /** The consume task of input `i`, in the end stage's internal queue. */
  ghost predicate ConsumeSlotOk<T>(c: Config<T>, i: nat, slot: Slot<T>)
    requires i < |c.inputs|
  {
    var x := Through(c.stages, N(c), c.inputs[i]);
    slot == Forked(x) || slot == Running(x) || slot == Ready(x)
  }

  ghost predicate InnerOk<T>(c: Config<T>, s: State<T>)
    requires Shaped(c, s)
  {
    var pc := s.pcs[N(c)];
    && 0 <= s.active == Occupied(s.inner)
    && |s.inner.items| <= |c.inputs|
    && (forall i :: 0 <= i < s.inner.released ==> s.inner.items[i] == Awaited)
    && (forall i :: s.inner.released <= i < |s.inner.items| ==> ConsumeSlotOk(c, i, s.inner.items[i]))
    && (if c.inlined then s.active == |s.inner.items| == 0 && !pc.Draining?
        else |s.inner.items| == HandedCount(s.queues[N(c)], pc) && !pc.Consuming?)
    && (if pc.Draining? then s.active == c.endWidth else s.active < c.endWidth)
    && (pc.Exited? ==> s.active == 0)
  }

  /** What a consume task has still to pass to the consume function. */
  function ForkedItem<T>(slot: Slot<T>): multiset<T> {
    if slot.Forked? then multiset{slot.arg} else multiset{}
  }

  /** What a consume task, or the inline call, is still working on. */
  function RunningItem<T>(slot: Slot<T>): multiset<T> {
    if slot.Running? then multiset{slot.arg} else multiset{}
  }

  function InlineItem<T>(pc: Pc<T>): multiset<T> {
    if pc.Consuming? then multiset{pc.data} else multiset{}
  }

  /** The consume calls that have begun and not finished. */
  ghost function InProgress<T>(inner: Queue<T>, pc: Pc<T>): multiset<T> {
    Gather(inner.items, RunningItem) + InlineItem(pc)
  }

  ghost predicate HandedOk<T>(c: Config<T>, s: State<T>)
    requires Shaped(c, s)
  {
    && |s.handed| == HandedCount(s.queues[N(c)], s.pcs[N(c)]) <= |c.inputs|
    && (forall i :: 0 <= i < |s.handed| ==> s.handed[i] == Through(c.stages, N(c), c.inputs[i]))
  }

  /** Every value handed over is with a task that has not begun, or its call has begun. */
  ghost predicate BegunTallyOk<T>(s: State<T>) {
    multiset(s.handed) == multiset(s.begun) + Gather(s.inner.items, ForkedItem)
  }

  /** Every call that has begun is in progress or has ended. */
  ghost predicate TallyOk<T>(c: Config<T>, s: State<T>)
    requires Shaped(c, s)
  {
    multiset(s.begun) == multiset(s.ended) + InProgress(s.inner, s.pcs[N(c)])
  }

  ghost predicate DriverOk<T>(c: Config<T>, s: State<T>)
    requires Shaped(c, s)
  {
    |s.queues[0].items| <= |c.inputs| && (s.queues[0].closed ==> |s.queues[0].items| == |c.inputs|)
  }

  ghost predicate QueuesOk<T>(c: Config<T>, s: State<T>)
    requires Shaped(c, s)
  {
    && DriverOk(c, s)
    && (forall k :: 0 <= k <= N(c) ==> StationOk(c, k, s.queues[k], s.pcs[k]))
    && (forall k :: 0 <= k < N(c) ==> LinkOk(s.queues[k], s.pcs[k], s.queues[k + 1]))
  }

  ghost predicate Inv<T>(c: Config<T>, s: State<T>) {
    Valid(c) && Shaped(c, s) && QueuesOk(c, s) && InnerOk(c, s) && HandedOk(c, s) && BegunTallyOk(s) && TallyOk(c, s)
  }

  lemma InitInv<T>(c: Config<T>)
    requires Valid(c)
    ensures Inv(c, Init(c))
  {
  }

  // What one step does to one queue and its consumer.

  lemma PushKeepsStation<T>(c: Config<T>, k: nat, q: Queue<T>, pc: Pc<T>, slot: Slot<T>)
    requires |c.stages| >= 1 && k <= N(c) && StationOk(c, k, q, pc)
    requires !q.closed && |q.items| < |c.inputs| && Occupied(q) < Capacity(c, k) && SlotOk(c, k, |q.items|, slot)
    ensures StationOk(c, k, PushItem(q, slot), pc)
  {
  }

  lemma AwaitKeepsStation<T>(c: Config<T>, k: nat, q: Queue<T>, pc: Pc<T>)
    requires |c.stages| >= 1 && k <= N(c) && StationOk(c, k, q, pc)
    requires pc.Holding? && Occupied(q) > 0 && q.items[q.released].Ready?
    ensures StationOk(c, k, SetItem(q, q.released, Awaited), Got(q.items[q.released].value))
  {
  }

  lemma FinishKeepsStation<T>(c: Config<T>, k: nat, q: Queue<T>, pc: Pc<T>, i: nat)
    requires 1 <= k <= N(c) && StationOk(c, k, q, pc) && i < |q.items| && q.items[i].Running?
    ensures StationOk(c, k, SetItem(q, i, Ready(c.stages[k - 1].f(q.items[i].arg))), pc)
  {
  }

  lemma ReleaseKeepsStation<T>(c: Config<T>, k: nat, q: Queue<T>, pc: Pc<T>)
    requires |c.stages| >= 1 && k <= N(c) && StationOk(c, k, q, pc) && pc.AtRelease?
    ensures StationOk(c, k, q.(released := q.released + 1), AtPull)
  {
  }

  predicate ChangesItems(a: Action, k: nat) {
    || (a == DriverPush && k == 0)
    || (a.Fork? && a.k + 1 == k)
    || ((a.Await? || a.Finish? || a.Release?) && a.k == k)
  }

  lemma ItemStepKeepsStation<T>(c: Config<T>, s: State<T>, a: Action, k: nat)
    requires Valid(c) && Enabled(c, s, a) && k <= N(c)
    requires k == 0 ==> DriverOk(c, s)
    requires StationOk(c, k, s.queues[k], s.pcs[k])
    requires k > 0 ==>
      StationOk(c, k - 1, s.queues[k - 1], s.pcs[k - 1]) && LinkOk(s.queues[k - 1], s.pcs[k - 1], s.queues[k])
    requires ChangesItems(a, k)
    ensures var s' := Do(c, s, a); StationOk(c, k, s'.queues[k], s'.pcs[k])
  {
    var q, pc := s.queues[k], s.pcs[k];
    match a
    case DriverPush => PushKeepsStation(c, k, q, pc, Ready(c.inputs[|q.items|]));
    case Await(_) => AwaitKeepsStation(c, k, q, pc);
    case Finish(_, i) => FinishKeepsStation(c, k, q, pc, i);
    case Release(_) => ReleaseKeepsStation(c, k, q, pc);
    case Fork(j) => PushKeepsStation(c, k, q, pc, Running(s.pcs[j].data));
  }

  lemma OtherStepKeepsStation<T>(c: Config<T>, s: State<T>, a: Action, k: nat)
    requires Valid(c) && Enabled(c, s, a) && k <= N(c)
    requires k == 0 ==> DriverOk(c, s)
    requires StationOk(c, k, s.queues[k], s.pcs[k])
    requires k > 0 ==>
      StationOk(c, k - 1, s.queues[k - 1], s.pcs[k - 1]) && LinkOk(s.queues[k - 1], s.pcs[k - 1], s.queues[k])
    requires !ChangesItems(a, k)
    ensures var s' := Do(c, s, a); StationOk(c, k, s'.queues[k], s'.pcs[k])
  {
    var q, pc, q', pc' := s.queues[k], s.pcs[k], Do(c, s, a).queues[k], Do(c, s, a).pcs[k];
    assert q'.items == q.items && q'.released == q.released;
    assert AwaitedCount(q', pc') == AwaitedCount(q, pc);
  }

  lemma StepKeepsLink<T>(c: Config<T>, s: State<T>, a: Action, k: nat)
    requires Enabled(c, s, a) && k < N(c)
    requires PcOk(c, k, s.queues[k], s.pcs[k]) && LinkOk(s.queues[k], s.pcs[k], s.queues[k + 1])
    ensures var s' := Do(c, s, a); LinkOk(s'.queues[k], s'.pcs[k], s'.queues[k + 1])
  {
  }

  lemma StepKeepsQueues<T>(c: Config<T>, s: State<T>, a: Action)
    requires Inv(c, s) && Enabled(c, s, a)
    ensures QueuesOk(c, Do(c, s, a))
  {
    var s' := Do(c, s, a);
    forall k | 0 <= k <= N(c) ensures StationOk(c, k, s'.queues[k], s'.pcs[k]) {
      assert StationOk(c, k, s.queues[k], s.pcs[k]);
      if k > 0 {
        assert StationOk(c, k - 1, s.queues[k - 1], s.pcs[k - 1]) && LinkOk(s.queues[k - 1], s.pcs[k - 1], s.queues[k]);
      }
      if ChangesItems(a, k) {
        ItemStepKeepsStation(c, s, a, k);
      } else {
        OtherStepKeepsStation(c, s, a, k);
      }
    }
    forall k | 0 <= k < N(c) ensures LinkOk(s'.queues[k], s'.pcs[k], s'.queues[k + 1]) {
      StepKeepsLink(c, s, a, k);
    }
  }

  lemma StepKeepsInner<T>(c: Config<T>, s: State<T>, a: Action)
    requires Valid(c) && Enabled(c, s, a) && InnerOk(c, s)
    requires StationOk(c, N(c), s.queues[N(c)], s.pcs[N(c)])
    ensures InnerOk(c, Do(c, s, a))
  {
  }

  lemma StepKeepsHanded<T>(c: Config<T>, s: State<T>, a: Action)
    requires Enabled(c, s, a) && HandedOk(c, s) && PcOk(c, N(c), s.queues[N(c)], s.pcs[N(c)])
    ensures HandedOk(c, Do(c, s, a))
  {
  }

  predicate ChangesInner(a: Action) { a.EndFork? || a.EndStart? || a.EndFinish? || a.EndDrain? }

  lemma EndStartKeepsBegunTally<T>(c: Config<T>, s: State<T>, i: nat)
    requires Enabled(c, s, EndStart(i)) && BegunTallyOk(s)
    ensures BegunTallyOk(Do(c, s, EndStart(i)))
  {
    var items, x := s.inner.items, s.inner.items[i].arg;
    GatherLoses(items, i, Running(x), ForkedItem<T>);
    assert multiset(s.handed) == (multiset(s.begun) + multiset{x}) + Gather(items[i := Running(x)], ForkedItem);
  }

  lemma StepKeepsBegunTally<T>(c: Config<T>, s: State<T>, a: Action)
    requires Enabled(c, s, a) && BegunTallyOk(s)
    ensures BegunTallyOk(Do(c, s, a))
  {
    var items := s.inner.items;
    match a
    case EndFork => GatherAppend(items, Forked(s.pcs[N(c)].data), ForkedItem<T>);
    case EndStart(i) => EndStartKeepsBegunTally(c, s, i);
    case EndFinish(i) => GatherKept(items, i, Ready(items[i].arg), ForkedItem<T>);
    case EndDrain => GatherKept(items, s.inner.released, Awaited, ForkedItem<T>);
    case EndBegin =>
      assert multiset(s.handed + [s.pcs[N(c)].data]) == multiset(s.handed) + multiset{s.pcs[N(c)].data};
      assert multiset(s.begun + [s.pcs[N(c)].data]) == multiset(s.begun) + multiset{s.pcs[N(c)].data};
    case _ => assert Do(c, s, a).inner == s.inner && Do(c, s, a).handed == s.handed && Do(c, s, a).begun == s.begun;
  }

  lemma EndForkKeepsTally<T>(c: Config<T>, s: State<T>)
    requires Enabled(c, s, EndFork) && TallyOk(c, s)
    ensures TallyOk(c, Do(c, s, EndFork))
  {
    var s', slot := Do(c, s, EndFork), Forked(s.pcs[N(c)].data);
    GatherAppend(s.inner.items, slot, RunningItem<T>);
    assert s'.inner.items == s.inner.items + [slot] && s'.begun == s.begun && s'.ended == s.ended;
    assert InlineItem(s.pcs[N(c)]) == InlineItem(s'.pcs[N(c)]) == RunningItem(slot) == multiset{};
    var g: multiset<T> := Gather(s.inner.items, RunningItem);
    assert g + multiset{} == g;
  }

  lemma EndStartKeepsTally<T>(c: Config<T>, s: State<T>, i: nat)
    requires Enabled(c, s, EndStart(i)) && TallyOk(c, s)
    ensures TallyOk(c, Do(c, s, EndStart(i)))
  {
    var x := s.inner.items[i].arg;
    GatherGains(s.inner.items, i, Running(x), RunningItem<T>);
    var e, g, inline := multiset(s.ended), Gather(s.inner.items, RunningItem), InlineItem(s.pcs[N(c)]);
    assert multiset(s.begun + [x]) == multiset(s.begun) + multiset{x};
    assert (e + (g + inline)) + multiset{x} == e + ((g + multiset{x}) + inline);
  }

  lemma EndFinishKeepsTally<T>(c: Config<T>, s: State<T>, i: nat)
    requires Enabled(c, s, EndFinish(i)) && TallyOk(c, s)
    ensures TallyOk(c, Do(c, s, EndFinish(i)))
  {
    var items, x := s.inner.items, s.inner.items[i].arg;
    GatherLoses(items, i, Ready(x), RunningItem<T>);
    var g := Gather(items[i := Ready(x)], RunningItem);
    assert multiset(s.begun) == (multiset(s.ended) + multiset{x}) + (g + InlineItem(s.pcs[N(c)]));
  }

  lemma EndDrainKeepsTally<T>(c: Config<T>, s: State<T>)
    requires Enabled(c, s, EndDrain) && TallyOk(c, s)
    ensures TallyOk(c, Do(c, s, EndDrain))
  {
    GatherKept(s.inner.items, s.inner.released, Awaited, RunningItem<T>);
  }

  lemma EndReturnKeepsTally<T>(c: Config<T>, s: State<T>)
    requires Enabled(c, s, EndReturn) && TallyOk(c, s)
    ensures TallyOk(c, Do(c, s, EndReturn))
  {
  }

  lemma OtherStepKeepsTally<T>(c: Config<T>, s: State<T>, a: Action)
    requires Enabled(c, s, a) && TallyOk(c, s)
    requires !ChangesInner(a) && !a.EndReturn?
    ensures TallyOk(c, Do(c, s, a))
  {
    var s' := Do(c, s, a);
    if a == EndBegin {
      assert s'.begun == s.begun + [s.pcs[N(c)].data] && s'.ended == s.ended && s'.inner == s.inner;
    } else {
      assert s'.begun == s.begun && s'.ended == s.ended && s'.inner == s.inner;
      assert s'.pcs[N(c)].Consuming? <==> s.pcs[N(c)].Consuming?;
      assert s'.pcs[N(c)].Consuming? ==> s'.pcs[N(c)] == s.pcs[N(c)];
    }
  }

  lemma StepKeepsTally<T>(c: Config<T>, s: State<T>, a: Action)
    requires Enabled(c, s, a) && TallyOk(c, s)
    ensures TallyOk(c, Do(c, s, a))
  {
    match a
    case EndFork => EndForkKeepsTally(c, s);
    case EndStart(i) => EndStartKeepsTally(c, s, i);
    case EndFinish(i) => EndFinishKeepsTally(c, s, i);
    case EndDrain => EndDrainKeepsTally(c, s);
    case EndReturn => EndReturnKeepsTally(c, s);
    case _ => OtherStepKeepsTally(c, s, a);
  }

  /** Every step keeps the invariant. */
  lemma StepKeepsInv<T>(c: Config<T>, s: State<T>, a: Action)
    requires Inv(c, s) && Enabled(c, s, a)
    ensures Inv(c, Do(c, s, a))
  {
    StepKeepsQueues(c, s, a);
    StepKeepsInner(c, s, a);
    StepKeepsHanded(c, s, a);
    StepKeepsBegunTally(c, s, a);
    StepKeepsTally(c, s, a);
  }
}
