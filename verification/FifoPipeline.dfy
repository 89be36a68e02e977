/** The FIFO pipeline as a transition system.

    N transform stages and one end stage are joined by N+1 bounded queues.  Queue 0 holds the
    driver's plain values; queue k+1 holds the handles of the tasks that stage k has forked.
    The consumer of queue k is stage k's worker (k < N) or the end stage (k == N).
    Every step below is what one coroutine does between two suspension points, or one forked
    task finishing; any interleaving of enabled steps is a run. */
module FifoPipeline {
  import opened Stages

  /** A queue element.  The handle of a task is Running until the task finishes, Ready until it is
      awaited, and Awaited after that.  A plain input value is Ready from the start.  A consume task
      is Forked until it calls the consume function; when a transform task begins does not matter. */
  datatype Slot<T> = Forked(arg: T) | Running(arg: T) | Ready(value: T) | Awaited

  /** `items` are all elements ever pushed; those below `released` have left the queue, so the
      queue holds the window items[released..].  A slot whose scope is alive is still in it. */
  datatype Queue<T> = Queue(items: seq<Slot<T>>, released: nat, closed: bool)

  /** Where a consumer of a queue stands in its loop body. */
  datatype Pc<T> =
    | AtPull                 // suspended in, or about to call, pull()
    | Holding                // the scope of the head slot is alive; its handle is being awaited
    | Got(data: T)           // the value is in hand; the next step forks or calls the consume function
    | Consuming(data: T)     // end stage, inline: the consume function is running
    | Draining               // end stage: at the limit, waiting for the oldest consume task
    | AtRelease              // end of the loop body, the scope is about to be destroyed
    | SawClosed              // pull() reported the queue closed and drained
    | Exited

  /** `endWidth` is the end stage's parallelism; `inlined` says which of its two workers runs. */
  datatype Config<!T> = Config(stages: seq<Stage<T>>, inputs: seq<T>, endWidth: nat, inlined: bool)

  /** `inner` is the end stage's internal queue and `active` its counter.  `handed` lists the values in the
      order in which a consume task was forked, or the inline call made, for them; `begun` the consume calls in
      the order in which they began, `ended` in the order in which they finished. */
  datatype State<T> = State(
    queues: seq<Queue<T>>, pcs: seq<Pc<T>>,
    inner: Queue<T>, active: nat, handed: seq<T>, begun: seq<T>, ended: seq<T>)

  /** Line numbers are those of pipeline_fifo.hpp, and of pipeline_fifo.cpp for the driver. */
  datatype Action =
    | DriverPush                // push of the next input (cpp:81-85); enabled only when there is room
    | DriverClose               // close of the input queue (cpp:89)
    | Pull(k: nat)              // pull finds an element (84, 203, 241)
    | Await(k: nat)             // the head handle's task has finished and its value is moved out (86, 205, 244)
    | Fork(k: nat)              // push; the task is forked when its handle is built in the slot (92-102)
    | Finish(k: nat, i: nat)    // the task behind slot i of queue k finishes
    | Release(k: nat)           // end of the loop body: the pulled scope is destroyed (123, 222, 283)
    | SeeClosed(k: nat)         // pull reports closed and drained (84, 203, 241)
    | Close(k: nat)             // the worker closes its output queue and returns (127)
    | EndFork                   // push to the internal queue, ++active, test of the limit (246-278)
    | EndStart(i: nat)          // a consume task calls the consume function (250, 252, 267, 269)
    | EndFinish(i: nat)         // a consume task finishes
    | EndDrain                  // await of the oldest consume task, --active (279-281, 286-290)
    | EndBegin                  // inline worker: the consume function is called (209, 211)
    | EndReturn                 // inline worker: it returns
    | EndExit                   // the end worker returns (223, 291)

  /** What the code needs to be defined: at least one stage, no zero parallelism. */
  ghost predicate Valid<T>(c: Config<T>) {
    && |c.stages| >= 1
    && (forall k :: 0 <= k < |c.stages| ==> c.stages[k].width >= 1)
    && c.endWidth >= 1
    && (c.inlined ==> c.endWidth == 1)
  }

  /** The configuration that the end stage's constructor builds. */
  function Constructed<T>(stages: seq<Stage<T>>, inputs: seq<T>, endWidth: nat): Config<T> {
    Config(stages, inputs, endWidth, endWidth == 1)
  }

  function N<T>(c: Config<T>): nat { |c.stages| }

  /** The start stage's parallelism sizes both its input queue and its output queue. */
  function Capacity<T>(c: Config<T>, k: nat): nat
    requires |c.stages| >= 1 && k <= N(c)
  {
    if k == 0 then c.stages[0].width else c.stages[k - 1].width
  }

  function Occupied<T>(q: Queue<T>): int { |q.items| - q.released }

  function Init<T>(c: Config<T>): State<T> {
    var empty := Queue([], 0, false);
    State(seq(N(c) + 1, _ => empty), seq(N(c) + 1, _ => AtPull), empty, 0, [], [], [])
  }

  predicate Shaped<T>(c: Config<T>, s: State<T>) {
    |c.stages| >= 1 && |s.queues| == |s.pcs| == N(c) + 1
  }

  predicate Enabled<T>(c: Config<T>, s: State<T>, a: Action) {
    Shaped(c, s) &&
    match a
    case DriverPush =>
      var q := s.queues[0];
      !q.closed && |q.items| < |c.inputs| && Occupied(q) < Capacity(c, 0)
    case DriverClose =>
      !s.queues[0].closed && |s.queues[0].items| >= |c.inputs|
    case Pull(k) =>
      k <= N(c) && s.pcs[k].AtPull? && Occupied(s.queues[k]) > 0
    case Await(k) =>
      k <= N(c) && s.pcs[k].Holding? && Occupied(s.queues[k]) > 0 &&
      s.queues[k].items[s.queues[k].released].Ready?
    case Fork(k) =>
      k < N(c) && s.pcs[k].Got? && Occupied(s.queues[k + 1]) < Capacity(c, k + 1)
    case Finish(k, i) =>
      1 <= k <= N(c) && i < |s.queues[k].items| && s.queues[k].items[i].Running?
    case Release(k) =>
      k <= N(c) && s.pcs[k].AtRelease?
    case SeeClosed(k) =>
      k <= N(c) && s.pcs[k].AtPull? && s.queues[k].closed && Occupied(s.queues[k]) <= 0
    case Close(k) =>
      k < N(c) && s.pcs[k].SawClosed?
    case EndFork =>
      !c.inlined && s.pcs[N(c)].Got? && Occupied(s.inner) < c.endWidth
    case EndStart(i) =>
      i < |s.inner.items| && s.inner.items[i].Forked?
    case EndFinish(i) =>
      i < |s.inner.items| && s.inner.items[i].Running?
    case EndDrain =>
      (s.pcs[N(c)].Draining? || s.pcs[N(c)].SawClosed?) && s.active > 0 &&
      Occupied(s.inner) > 0 && s.inner.items[s.inner.released].Ready?
    case EndBegin =>
      c.inlined && s.pcs[N(c)].Got?
    case EndReturn =>
      s.pcs[N(c)].Consuming?
    case EndExit =>
      s.pcs[N(c)].SawClosed? && s.active == 0
  }

  function PushItem<T>(q: Queue<T>, slot: Slot<T>): Queue<T> { q.(items := q.items + [slot]) }

  function SetItem<T>(q: Queue<T>, i: nat, slot: Slot<T>): Queue<T>
    requires i < |q.items|
  {
    q.(items := q.items[i := slot])
  }

  function SetQueue<T>(s: State<T>, k: nat, q: Queue<T>): State<T>
    requires k < |s.queues|
  {
    s.(queues := s.queues[k := q])
  }

  function SetPc<T>(s: State<T>, k: nat, pc: Pc<T>): State<T>
    requires k < |s.pcs|
  {
    s.(pcs := s.pcs[k := pc])
  }

  function Do<T>(c: Config<T>, s: State<T>, a: Action): State<T>
    requires Enabled(c, s, a)
  {
    match a
    case DriverPush =>
      var q := s.queues[0];
      SetQueue(s, 0, PushItem(q, Ready(c.inputs[|q.items|])))
    case DriverClose =>
      SetQueue(s, 0, s.queues[0].(closed := true))
    case Pull(k) =>
      SetPc(s, k, Holding)
    case Await(k) =>
      var q := s.queues[k];
      SetPc(SetQueue(s, k, SetItem(q, q.released, Awaited)), k, Got(q.items[q.released].value))
    case Fork(k) =>
      SetPc(SetQueue(s, k + 1, PushItem(s.queues[k + 1], Running(s.pcs[k].data))), k, AtRelease)
    case Finish(k, i) =>
      var q := s.queues[k];
      SetQueue(s, k, SetItem(q, i, Ready(c.stages[k - 1].f(q.items[i].arg))))
    case Release(k) =>
      SetPc(SetQueue(s, k, s.queues[k].(released := s.queues[k].released + 1)), k, AtPull)
    case SeeClosed(k) =>
      SetPc(s, k, SawClosed)
    case Close(k) =>
      SetPc(SetQueue(s, k + 1, s.queues[k + 1].(closed := true)), k, Exited)
    case EndFork =>
      var x := s.pcs[N(c)].data;
      SetPc(s, N(c), if s.active + 1 >= c.endWidth then Draining else AtRelease)
        .(inner := PushItem(s.inner, Forked(x)), active := s.active + 1, handed := s.handed + [x])
    case EndStart(i) =>
      var x := s.inner.items[i].arg;
      s.(inner := SetItem(s.inner, i, Running(x)), begun := s.begun + [x])
    case EndFinish(i) =>
      var x := s.inner.items[i].arg;
      s.(inner := SetItem(s.inner, i, Ready(x)), ended := s.ended + [x])
    case EndDrain =>
      var q := SetItem(s.inner, s.inner.released, Awaited);
      SetPc(s, N(c), if s.pcs[N(c)].Draining? then AtRelease else SawClosed)
        .(inner := q.(released := q.released + 1), active := s.active - 1)
    case EndBegin =>
      var x := s.pcs[N(c)].data;
      SetPc(s, N(c), Consuming(x)).(handed := s.handed + [x], begun := s.begun + [x])
    case EndReturn =>
      SetPc(s, N(c), AtRelease).(ended := s.ended + [s.pcs[N(c)].data])
    case EndExit =>
      SetPc(s, N(c), Exited)
  }

  /** The driver has closed the input queue and every coroutine in the fork group has returned. */
  predicate Final<T>(c: Config<T>, s: State<T>) {
    Shaped(c, s) && s.queues[0].closed && forall k :: 0 <= k <= N(c) ==> s.pcs[k].Exited?
  }

  ghost predicate Stuck<T>(c: Config<T>, s: State<T>) { forall a :: !Enabled(c, s, a) }

  /** `acts` is a possible schedule from `s`, and ends in `s'`. */
  ghost predicate IsRun<T>(c: Config<T>, s: State<T>, acts: seq<Action>, s': State<T>)
    decreases acts
  {
    if acts == [] then s' == s
    else Enabled(c, s, acts[0]) && IsRun(c, Do(c, s, acts[0]), acts[1..], s')
  }

  lemma {:induction false} RunsCompose<T>(
    c: Config<T>, s: State<T>, acts: seq<Action>, mid: State<T>, more: seq<Action>, s': State<T>)
    requires IsRun(c, s, acts, mid) && IsRun(c, mid, more, s')
    ensures IsRun(c, s, acts + more, s')
    decreases acts
  {
    if acts == [] {
      assert acts + more == more;
    } else {
      assert (acts + more)[1..] == acts[1..] + more;
      RunsCompose(c, Do(c, s, acts[0]), acts[1..], mid, more, s');
    }
  }
}
