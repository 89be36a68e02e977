/** The unordered pipeline as a transition system.

    Level k (0 <= k <= N) is the channel k, the semaphore that guards it, and the workers that consume it:
    stage k's workers for k < N, the end stage's for k == N.  The consumer of a channel grants the
    permits of its semaphore when it is built; the producers acquire them.  Stages are built in order, but
    workers already built, and the driver, may run before the stages after them exist. */
module UnorderedPipeline {
  import opened Stages

  /** An unbounded channel: `post` on a closed one fails and drops the item. */
  datatype Chan<T> = Chan(items: seq<T>, closed: bool)

  /** Where a worker stands in its loop body. */
  datatype Pc<T> =
    | AtPull
    | Pulled(x: T)    // has the item, has not yet released its permit
    | Free(x: T)      // has released it; a transform worker now acquires, an end worker now consumes
    | Cleared(x: T)   // holds a permit for the output channel, has not yet posted
    | Done

  datatype DriverPc = AtAcquire | Acquired | Draining | Joining

  /** The task that awaits a stage's workers and then drains the stage's output channel. */
  datatype Closer = AwaitingWorkers | DrainingOutput | Finished

  /** `gated` says whether the start stage was given an input semaphore. */
  datatype Config<!T> = Config(stages: seq<Stage<T>>, inputs: seq<T>, endWorkers: nat, gated: bool)

  datatype State<T> = State(
    chans: seq<Chan<T>>, permits: seq<nat>, workers: seq<seq<Pc<T>>>, closers: seq<Closer>,
    built: nat, driver: DriverPc, sent: nat, consumed: seq<T>)

  /** Worker j of level k. Line numbers are those of pipeline.hpp, and of pipeline.cpp for the driver. */
  datatype Action =
    | Build                         // the next stage's constructor: grants permits, starts workers (54-81, 103-117)
    | DriverAcquire                 // co_await inputSem (cpp:82)
    | DriverPost                    // in.post (cpp:83)
    | DriverClose                   // in.drain closes the channel (cpp:85)
    | DriverDrained                 // in.drain returns (cpp:85)
    | Pull(k: nat, j: nat)          // pull finds an item (34, 89)
    | GivePermit(k: nat, j: nat)    // inSem->release, if there is one (35-37, 90)
    | Acquire(k: nat, j: nat)       // co_await *outSem (39-41)
    | Post(k: nat, j: nat)          // outChan.post of the processed item (43-50)
    | Consume(j: nat)               // the end stage's function (92-99)
    | Leave(k: nat, j: nat)         // pull reports closed and drained; the worker returns (34, 89)
    | CloseOutput(k: nat)           // the spawn group is done; drain closes the channel (78-79)
    | OutputDrained(k: nat)         // drain returns (79)

  function N<T>(c: Config<T>): nat { |c.stages| }

  function Width<T>(c: Config<T>, k: nat): nat {
    if k < N(c) then c.stages[k].width else c.endWorkers
  }

  predicate Gated<T>(c: Config<T>, k: nat) { k > 0 || c.gated }

  ghost predicate Valid<T>(c: Config<T>) {
    |c.stages| >= 1 && forall k :: 0 <= k <= N(c) ==> Width(c, k) >= 1
  }

  function Init<T>(c: Config<T>): State<T> {
    State(seq(N(c) + 1, _ => Chan([], false)), seq(N(c) + 1, _ => 0),
          seq(N(c) + 1, (k: nat) => seq(Width(c, k), _ => AtPull)), seq(N(c), _ => AwaitingWorkers),
          0, AtAcquire, 0, [])
  }

  predicate Shaped<T>(c: Config<T>, s: State<T>) {
    |s.chans| == |s.permits| == |s.workers| == N(c) + 1 && |s.closers| == N(c)
  }

  predicate IsWorker<T>(c: Config<T>, s: State<T>, k: nat, j: nat)
    requires Shaped(c, s)
  {
    k <= N(c) && k < s.built && j < |s.workers[k]|
  }

  predicate Enabled<T>(c: Config<T>, s: State<T>, a: Action) {
    Shaped(c, s) &&
    match a
    case Build => s.built <= N(c)
    case DriverAcquire => s.driver.AtAcquire? && s.sent < |c.inputs| && (c.gated ==> s.permits[0] > 0)
    case DriverPost => s.driver.Acquired? && s.sent < |c.inputs|
    case DriverClose => s.driver.AtAcquire? && s.sent >= |c.inputs|
    case DriverDrained => s.driver.Draining? && s.chans[0].items == []
    case Pull(k, j) => IsWorker(c, s, k, j) && s.workers[k][j].AtPull? && s.chans[k].items != []
    case GivePermit(k, j) => IsWorker(c, s, k, j) && s.workers[k][j].Pulled?
    case Acquire(k, j) => IsWorker(c, s, k, j) && k < N(c) && s.workers[k][j].Free? && s.permits[k + 1] > 0
    case Post(k, j) => IsWorker(c, s, k, j) && k < N(c) && s.workers[k][j].Cleared?
    case Consume(j) => IsWorker(c, s, N(c), j) && s.workers[N(c)][j].Free?
    case Leave(k, j) =>
      IsWorker(c, s, k, j) && s.workers[k][j].AtPull? && s.chans[k].closed && s.chans[k].items == []
    case CloseOutput(k) =>
      k < N(c) && k < s.built && s.closers[k].AwaitingWorkers? &&
      forall j :: 0 <= j < |s.workers[k]| ==> s.workers[k][j].Done?
    case OutputDrained(k) => k < N(c) && s.closers[k].DrainingOutput? && s.chans[k + 1].items == []
  }

  function SetWorker<T>(s: State<T>, k: nat, j: nat, pc: Pc<T>): State<T>
    requires k < |s.workers| && j < |s.workers[k]|
  {
    s.(workers := s.workers[k := s.workers[k][j := pc]])
  }

  /** Post to channel `k`; the result is ignored, so an item posted to a closed channel is simply gone. */
  function PostTo<T>(s: State<T>, k: nat, x: T): State<T>
    requires k < |s.chans|
  {
    if s.chans[k].closed then s
    else s.(chans := s.chans[k := s.chans[k].(items := s.chans[k].items + [x])])
  }

  function Grant<T>(s: State<T>, k: nat, n: nat): State<T>
    requires k < |s.permits|
  {
    s.(permits := s.permits[k := s.permits[k] + n])
  }

  function Take<T>(s: State<T>, k: nat): State<T>
    requires k < |s.permits| && s.permits[k] > 0
  {
    s.(permits := s.permits[k := s.permits[k] - 1])
  }

  function CloseChan<T>(s: State<T>, k: nat): State<T>
    requires k < |s.chans|
  {
    s.(chans := s.chans[k := s.chans[k].(closed := true)])
  }

  function Do<T>(c: Config<T>, s: State<T>, a: Action): State<T>
    requires Enabled(c, s, a)
  {
    match a
    case Build =>
      (if Gated(c, s.built) then Grant(s, s.built, 2 * Width(c, s.built)) else s).(built := s.built + 1)
    case DriverAcquire => (if c.gated then Take(s, 0) else s).(driver := Acquired)
    case DriverPost => PostTo(s, 0, c.inputs[s.sent]).(driver := AtAcquire, sent := s.sent + 1)
    case DriverClose => CloseChan(s, 0).(driver := Draining)
    case DriverDrained => s.(driver := Joining)
    case Pull(k, j) =>
      var items := s.chans[k].items;
      SetWorker(s.(chans := s.chans[k := s.chans[k].(items := items[1..])]), k, j, Pulled(items[0]))
    case GivePermit(k, j) =>
      SetWorker(if Gated(c, k) then Grant(s, k, 1) else s, k, j, Free(s.workers[k][j].x))
    case Acquire(k, j) => SetWorker(Take(s, k + 1), k, j, Cleared(s.workers[k][j].x))
    case Post(k, j) => SetWorker(PostTo(s, k + 1, c.stages[k].f(s.workers[k][j].x)), k, j, AtPull)
    case Consume(j) =>
      SetWorker(s, N(c), j, AtPull).(consumed := s.consumed + [s.workers[N(c)][j].x])
    case Leave(k, j) => SetWorker(s, k, j, Done)
    case CloseOutput(k) => CloseChan(s, k + 1).(closers := s.closers[k := DrainingOutput])
    case OutputDrained(k) => s.(closers := s.closers[k := Finished])
  }

  /** Everything the driver joins on has returned. */
  ghost predicate Final<T>(c: Config<T>, s: State<T>) {
    && Shaped(c, s) && s.built == N(c) + 1 && s.driver.Joining?
    && (forall k :: 0 <= k < N(c) ==> s.closers[k].Finished?)
    && (forall k, j :: 0 <= k <= N(c) && 0 <= j < |s.workers[k]| ==> s.workers[k][j].Done?)
  }

  ghost predicate Stuck<T>(c: Config<T>, s: State<T>) { forall a :: !Enabled(c, s, a) }

  ghost predicate IsRun<T>(c: Config<T>, s: State<T>, acts: seq<Action>, s': State<T>)
    decreases acts
  {
    if acts == [] then s' == s
    else Enabled(c, s, acts[0]) && IsRun(c, Do(c, s, acts[0]), acts[1..], s')
  }
}
