/** The timed batch processor among its neighbours: posters, the close of the queue, the timer service and the
    processor's own loop, in any interleaving.  BatchProcessor has the loop itself. */
module BatchProtocol {
  import opened BatchProcessor

  /** Slot 0: the pull.  Slot 1: the timer. */
  datatype PullSlot<T> = PullIdle | PullPending | PullItem(x: T) | PullClosed
  datatype TimerSlot = TimerIdle | TimerPending | TimerFired

  /** `posted` is what has been posted while the queue was open; `pulled` how many of them the pull has taken;
      `results` counts the mux results delivered. */
  datatype State<T> = State(
    posted: seq<T>, closed: bool, pulled: nat, pull: PullSlot<T>, timer: TimerSlot, batch: seq<T>,
    processed: seq<seq<T>>, results: nat, done: bool)

  /** Line numbers are those of batch_processor.cpp. */
  datatype Action<T> =
    | Post(x: T)       // post to the queue (96-98); after close it fails and changes nothing
    | Close            // close of the queue (99)
    | PullCompletes    // the pending pull has an element, or finds the queue closed and drained
    | TimerCompletes   // the pending timer expires or is cancelled
    | TakePull         // co_await mux gives 0 (59-74); the cancel (72) lets the timer complete, as it may anyway
    | TakeTimer        // co_await mux gives 1 (75-82)
    | TakeEnd          // co_await mux gives end(): both slots are idle (83-85)

  /** The processor has forked the pull and waits for its first result. */
  function Init<T>(): State<T> {
    State([], false, 0, PullPending, TimerIdle, [], [], 0, false)
  }

  predicate Enabled<T>(s: State<T>, a: Action<T>) {
    match a
    case Post(_) => true
    case Close => !s.closed
    case PullCompletes => s.pull.PullPending? && (s.pulled < |s.posted| || s.closed)
    case TimerCompletes => s.timer.TimerPending?
    case TakePull => !s.done && (s.pull.PullItem? || s.pull.PullClosed?)
    case TakeTimer => !s.done && s.timer.TimerFired?
    case TakeEnd => !s.done && s.pull.PullIdle? && s.timer.TimerIdle?
  }

  function Do<T>(s: State<T>, a: Action<T>): State<T>
    requires Enabled(s, a)
  {
    match a
    case Post(x) => if s.closed then s else s.(posted := s.posted + [x])
    case Close => s.(closed := true)
    case PullCompletes =>
      if s.pulled < |s.posted| then s.(pull := PullItem(s.posted[s.pulled]), pulled := s.pulled + 1)
      else s.(pull := PullClosed)
    case TimerCompletes => s.(timer := TimerFired)
    case TakePull =>
      if s.pull.PullItem? then
        s.(batch := s.batch + [s.pull.x], pull := PullPending,
           timer := if s.timer.TimerIdle? then TimerPending else s.timer, results := s.results + 1)
      else s.(pull := PullIdle, results := s.results + 1)
    case TakeTimer =>
      s.(processed := s.processed + [s.batch], batch := [], timer := TimerIdle, results := s.results + 1)
    case TakeEnd => s.(done := true, results := s.results + 1)
  }

  ghost predicate IsRun<T>(s: State<T>, acts: seq<Action<T>>, s': State<T>)
    decreases acts
  {
    if acts == [] then s' == s else Enabled(s, acts[0]) && IsRun(Do(s, acts[0]), acts[1..], s')
  }

  // ---------- Invariant ----------

  function InSlot<T>(pull: PullSlot<T>): seq<T> { if pull.PullItem? then [pull.x] else [] }

  /** Batches processed, the current batch and the item waiting in the mux are the items pulled, in order. */
  ghost predicate Conserved<T>(s: State<T>) {
    s.pulled <= |s.posted| && Flatten(s.processed) + s.batch + InSlot(s.pull) == s.posted[..s.pulled]
  }

  ghost predicate SlotsOk<T>(s: State<T>) {
    && (s.timer.TimerIdle? <==> s.batch == [])
    && (s.pull.PullClosed? || s.pull.PullIdle? ==> s.closed && s.pulled == |s.posted|)
    && (s.done ==> s.pull.PullIdle? && s.timer.TimerIdle?)
  }

  ghost predicate CountsOk<T>(s: State<T>) {
    && (forall i :: 0 <= i < |s.processed| ==> s.processed[i] != [])
    && s.results == s.pulled - |InSlot(s.pull)| + |s.processed|
                    + (if s.pull.PullIdle? then 1 else 0) + (if s.done then 1 else 0)
    && |s.processed| + |s.batch| + |InSlot(s.pull)| <= s.pulled
  }

  ghost predicate Inv<T>(s: State<T>) { Conserved(s) && SlotsOk(s) && CountsOk(s) }

  lemma {:induction false} FlattenAppend<T>(batches: seq<seq<T>>, b: seq<T>)
    ensures Flatten(batches + [b]) == Flatten(batches) + b
  {
    if batches == [] {
      assert batches + [b] == [b];
      assert Flatten([b]) == b + Flatten([]);
    } else {
      assert (batches + [b])[1..] == batches[1..] + [b];
      FlattenAppend(batches[1..], b);
    }
  }

  lemma StepKeepsInv<T>(s: State<T>, a: Action<T>)
    requires Inv(s) && Enabled(s, a)
    ensures Inv(Do(s, a))
  {
    if a.TakeTimer? {
      FlattenAppend(s.processed, s.batch);
    }
  }

  lemma {:induction false} RunKeepsInv<T>(s: State<T>, acts: seq<Action<T>>, s': State<T>)
    requires Inv(s) && IsRun(s, acts, s')
    ensures Inv(s')
    decreases acts
  {
    if acts != [] {
      StepKeepsInv(s, acts[0]);
      RunKeepsInv(Do(s, acts[0]), acts[1..], s');
    }
  }

  // ---------- Theorems ----------

  /** A timer is started only when none is active, its expiry is kept until the processor takes it, and nothing
      else makes the slot idle. */
  ghost predicate TimerRule<T>(s: State<T>, a: Action<T>, s': State<T>) {
    && (s'.timer.TimerPending? ==> s.timer.TimerPending? || (s.timer.TimerIdle? && a.TakePull?))
    && (s.timer.TimerPending? ==> !s'.timer.TimerIdle?)
    && (s.timer.TimerFired? ==> s'.timer.TimerFired? || (s'.timer.TimerIdle? && a.TakeTimer?))
    && (s'.timer.TimerFired? ==> s.timer.TimerFired? || (s.timer.TimerPending? && a.TimerCompletes?))
  }

  /** A pull is started only when the processor has taken the item of the one before; its result is kept until the
      processor takes it; and after the close has been taken none is started. */
  ghost predicate PullRule<T>(s: State<T>, a: Action<T>, s': State<T>) {
    && (s'.pull.PullPending? ==> s.pull.PullPending? || (s.pull.PullItem? && a.TakePull?))
    && (s.pull.PullPending? ==> !s'.pull.PullIdle?)
    && (s.pull.PullItem? ==> s'.pull == s.pull || (s'.pull.PullPending? && a.TakePull?))
    && (s.pull.PullClosed? ==> s'.pull == s.pull || (s'.pull.PullIdle? && a.TakePull?))
    && (s.pull.PullIdle? ==> s'.pull == s.pull)
  }

  /** Conservation and protocol, in every state of every interleaving: nothing pulled is lost, duplicated or
      reordered; the timer slot is active exactly when the batch is non-empty, so no empty batch is processed;
      and whichever step comes next, a slot is forked only when it is idle, or has just been taken, and a result
      that is waiting in a slot is lost by nobody. */
  lemma EveryInterleaving<T>(acts: seq<Action<T>>, s: State<T>)
    requires IsRun(Init(), acts, s)
    ensures s.pulled <= |s.posted| && Flatten(s.processed) + s.batch + InSlot(s.pull) == s.posted[..s.pulled]
    ensures s.timer.TimerIdle? <==> s.batch == []
    ensures forall i :: 0 <= i < |s.processed| ==> s.processed[i] != []
    ensures forall a: Action<T> :: Enabled(s, a) ==> TimerRule(s, a, Do(s, a)) && PullRule(s, a, Do(s, a))
    ensures Enabled(s, TakePull) && s.pull.PullItem? ==>
      Do(s, TakePull).timer == if s.batch == [] then TimerPending else s.timer
    ensures s.results <= 2 * |s.posted| + 2
  {
    RunKeepsInv(Init(), acts, s);
  }

  /** When the processor returns, the queue is closed, both slots are idle, and the batches processed cut
      everything posted before the close into non-empty pieces, in order. */
  lemma ReturnMeansAllProcessed<T>(acts: seq<Action<T>>, s: State<T>)
    requires IsRun(Init(), acts, s) && s.done
    ensures s.closed && s.batch == [] && s.pull.PullIdle? && s.timer.TimerIdle?
    ensures Partitions(s.processed, s.posted)
    ensures s.results == |s.posted| + |s.processed| + 2
  {
    RunKeepsInv(Init(), acts, s);
    assert s.posted[..s.pulled] == s.posted;
  }

  /** What the processor waits for: until it has returned it goes on exactly if a slot has a result, or none is
      active; with results in both slots either may come first; each slot completes for its own reason only; and
      posters and whoever closes the queue wait for nothing. */
  lemma ProcessorWaits<T>(acts: seq<Action<T>>, s: State<T>, x: T)
    requires IsRun(Init(), acts, s)
    ensures (Enabled(s, TakePull) || Enabled(s, TakeTimer) || Enabled(s, TakeEnd)) <==>
      !s.done && !(s.pull.PullPending? && !s.timer.TimerFired?) && !(s.timer.TimerPending? && s.pull.PullIdle?)
    ensures Enabled(s, PullCompletes) <==> s.pull.PullPending? && (s.closed || s.pulled < |s.posted|)
    ensures Enabled(s, TimerCompletes) <==> s.timer.TimerPending?
    ensures s.timer.TimerFired? && (s.pull.PullItem? || s.pull.PullClosed?) ==>
      Enabled(s, TakePull) && Enabled(s, TakeTimer)
    ensures Enabled(s, Post(x)) && (Enabled(s, Close) <==> !s.closed)
  {
    RunKeepsInv(Init(), acts, s);
  }

  /** Bounds the steps, other than posts, still to come. */
  function Left<T>(s: State<T>): int {
    4 * (|s.posted| - s.pulled)
    + (match s.pull case PullIdle => 0 case PullPending => 2 case PullItem(_) => 5 case PullClosed => 1)
    + (match s.timer case TimerIdle => 0 case TimerPending => 2 case TimerFired => 1)
    + (if s.done then 0 else 1) + if s.closed then 0 else 1
  }

  /** After the close the processor always gets to return: something other than a post is enabled until it
      has, each such step reduces what is left, and posts change nothing any more.  Closed or not, a batch with
      items in it is on its way to being processed: its timer can complete, or its expiry can be taken. */
  lemma ProcessorAdvances<T>(acts: seq<Action<T>>, s: State<T>)
    requires IsRun(Init(), acts, s)
    ensures Left(s) >= 0
    ensures s.closed && !s.done ==> exists a: Action<T> :: !a.Post? && Enabled(s, a)
    ensures s.batch != [] ==> Enabled(s, TimerCompletes) || Enabled(s, TakeTimer)
    ensures forall a: Action<T> :: Enabled(s, a) && !a.Post? ==> Left(Do(s, a)) < Left(s)
    ensures forall a: Action<T> :: Enabled(s, a) && a.Post? && s.closed ==> Do(s, a) == s
  {
    RunKeepsInv(Init(), acts, s);
    var take: Action<T>, pull: Action<T>, fire: Action<T>, flush: Action<T>, end: Action<T> :=
      TakePull, PullCompletes, TimerCompletes, TakeTimer, TakeEnd;
    if s.closed && !s.done {
      assert Enabled(s, take) || Enabled(s, pull) || Enabled(s, fire) || Enabled(s, flush) || Enabled(s, end);
    }
  }
}
