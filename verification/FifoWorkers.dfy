/** The three worker coroutines of the FIFO pipeline as the loops they are.  Each runs against queues whose
    other end belongs to some other coroutine, which acts at any pace of its own and, when this one has to wait
    for it, at least once.  A handle is represented by the value its task will deliver. */
module FifoWorkers {
  import opened Options
  import opened Journals
  import opened Stages

  /** What a worker does, in order: its calls on each queue it has, and the calls of the consume function. */
  datatype Event = Pulled(queue: nat) | Pushed(queue: nat) | Released(queue: nat) | Closed(queue: nat) | Consumed

  /** A bounded single-producer single-consumer queue. `items` are all elements pushed so far; the queue holds
      items[released..].  `upcoming` is what a producer in another coroutine will push before it closes the queue.
      `pace(n)` is how many moves the other end makes, as far as it can, before the n-th call of this end. */
  class BoundedQueue<T> {
    const name: nat
    const journal: Journal<Event>
    const capacity: nat
    const pace: nat -> nat
    var calls: nat
    var items: seq<T>
    var released: nat
    var closed: bool
    var upcoming: seq<T>

    ghost predicate Valid()
      reads this
    {
      && 0 < capacity && released <= |items| && |items| - released <= capacity
      && (closed ==> upcoming == [])
    }

    ghost function Stream(): seq<T>
      reads this
    {
      items + upcoming
    }

    constructor (name: nat, journal: Journal<Event>, capacity: nat, pace: nat -> nat, upcoming: seq<T>)
      requires 0 < capacity
      ensures this.name == name && this.journal == journal
      ensures Valid() && this.capacity == capacity && items == [] && released == 0 && !closed
      ensures this.upcoming == upcoming && this.pace == pace
    {
      this.name, this.journal, this.capacity, this.pace := name, journal, capacity, pace;
      calls, items, released, closed := 0, [], 0, false;
      this.upcoming := upcoming;
    }

    /** The moves of the other end before this call: any number, but at least one if this end has to wait. */
    method OtherEnd(mustWait: bool) returns (moves: nat)
      modifies this`calls
      ensures moves == (if mustWait && pace(old(calls)) == 0 then 1 else pace(old(calls))) && calls == old(calls) + 1
    {
      moves := pace(calls);
      if mustWait && moves == 0 {
        moves := 1;
      }
      calls := calls + 1;
    }

    /** Suspends until there is an element or the queue is closed.  By then the producer has pushed further
        elements, as far as there is room, and may have closed. The element stays in its slot until Release. */
    method Pull() returns (r: Option<T>)
      requires Valid()
      modifies this`items, this`upcoming, this`closed, this`calls, journal
      ensures journal.events == old(journal.events) + [Pulled(name)]
      ensures Valid() && Stream() == old(Stream()) && old(items) <= items
      ensures r == if released < |Stream()| then Some(Stream()[released]) else None
      ensures r.Some? ==> released < |items|
      ensures r.None? ==> closed && released == |items| && items == Stream()
      ensures old(released < |items| && pace(calls) == 0) ==> items == old(items) && closed == old(closed)
      ensures |items| == |old(items)|
        + Min(pace(old(calls)), old(Min(|upcoming|, capacity - (|items| - released))))
        + if old(released == |items| && pace(calls) == 0 && upcoming != []) then 1 else 0
    {
      var moves := OtherEnd(released == |items| && !closed);
      var pushed := Min(moves, Min(|upcoming|, capacity - (|items| - released)));
      items, upcoming := items + upcoming[..pushed], upcoming[pushed..];
      if upcoming == [] && pushed < moves {
        closed := true;
      }
      r := if released < |items| then Some(items[released]) else None;
      journal.Add(Pulled(name));
    }

    /** Ends the scope of the element in hand. */
    method Release()
      requires Valid() && released < |items|
      modifies this`released, journal
      ensures Valid() && released == old(released) + 1
      ensures journal.events == old(journal.events) + [Released(name)]
    {
      journal.Add(Released(name));
      released := released + 1;
    }

    /** Suspends while the queue is full.  By the time there is room the consumer has released some slots. */
    method Push(x: T)
      requires Valid() && !closed && upcoming == []
      modifies this`items, this`released, this`calls, journal
      ensures journal.events == old(journal.events) + [Pushed(name)]
      ensures Valid() && items == old(items) + [x]
      ensures old(released) <= released <= |old(items)|
      ensures released == old(released) + Min(pace(old(calls)), old(|items| - released))
        + if old(|items| - released == capacity && pace(calls) == 0) then 1 else 0
    {
      var moves := OtherEnd(|items| - released == capacity);
      released := released + Min(moves, |items| - released);
      items := items + [x];
      journal.Add(Pushed(name));
    }

    method Close()
      requires Valid() && upcoming == []
      modifies this`closed, journal
      ensures Valid() && closed && journal.events == old(journal.events) + [Closed(name)]
    {
      journal.Add(Closed(name));
      closed := true;
    }
  }

  /** What a worker knows at its loop head: `input` is the next element of `stream`, or there is none left. */
  ghost predicate AtLoopHead<T>(q: BoundedQueue<T>, stream: seq<T>, input: Option<T>)
    reads q
  {
    && q.Valid() && q.Stream() == stream && q.released <= |stream|
    && input == (if q.released < |stream| then Some(stream[q.released]) else None)
    && (input.Some? ==> q.released < |q.items|)
    && (input.None? ==> q.closed && q.released == |q.items| && q.items == stream)
  }

  /** The end of a worker's loop body and the test of the next round: the element in hand leaves its slot, and the
      next one is pulled. */
  method NextInput<T>(q: BoundedQueue<T>, ghost stream: seq<T>, ghost input: Option<T>) returns (next: Option<T>)
    requires AtLoopHead(q, stream, input) && input.Some?
    modifies q, q.journal
    ensures AtLoopHead(q, stream, next) && q.released == old(q.released) + 1
    ensures q.journal.events == old(q.journal.events) + [Released(q.name), Pulled(q.name)]
  {
    q.Release();
    next := q.Pull();
  }

  /** The driver: pushes every input in order, waiting while the queue is full, then closes it. */
  method Driver<T>(inputs: seq<T>, inQueue: BoundedQueue<T>)
    requires inQueue.Valid() && inQueue.items == [] && !inQueue.closed && inQueue.upcoming == []
    modifies inQueue, inQueue.journal
    ensures inQueue.Valid() && inQueue.closed && inQueue.items == inputs
    ensures inQueue.journal.events == old(inQueue.journal.events)
                                    + Rounds([Pushed(inQueue.name)], |inputs|) + [Closed(inQueue.name)]
  {
    for i := 0 to |inputs|
      invariant inQueue.journal.events == old(inQueue.journal.events) + Rounds([Pushed(inQueue.name)], i)
      invariant inQueue.Valid() && !inQueue.closed && inQueue.upcoming == [] && inQueue.items == inputs[..i]
    {
      inQueue.Push(inputs[i]);
    }
    inQueue.Close();
  }

  /** pipeline_stage::worker.  Whatever its neighbours do meanwhile it forks one task per input, in input
      order, and closes its output only when its input is closed and drained.  It keeps an input's slot until the
      task for it has been pushed. */
  method StageWorker<T, U>(inQueue: BoundedQueue<T>, outQueue: BoundedQueue<U>, f: T -> U)
    requires inQueue.Valid() && outQueue.Valid() && inQueue as object != outQueue as object
    requires inQueue.released == 0 && outQueue.items == [] && !outQueue.closed && outQueue.upcoming == []
    requires inQueue.journal == outQueue.journal
    modifies inQueue, outQueue, inQueue.journal
    ensures inQueue.Valid() && outQueue.Valid()
    ensures inQueue.closed && inQueue.items == old(inQueue.Stream()) && inQueue.released == |inQueue.items|
    ensures outQueue.closed && outQueue.items == Map(f, old(inQueue.Stream()))
    ensures inQueue.journal.events == old(inQueue.journal.events)
      + Rounds([Pulled(inQueue.name), Pushed(outQueue.name), Released(inQueue.name)], |old(inQueue.Stream())|)
      + [Pulled(inQueue.name), Closed(outQueue.name)]
  {
    ghost var stream, before := inQueue.Stream(), inQueue.journal.events;
    ghost var round := [Pulled(inQueue.name), Pushed(outQueue.name), Released(inQueue.name)];
    var input := inQueue.Pull();
    while input.Some?
      invariant AtLoopHead(inQueue, stream, input) && outQueue.Valid()
      invariant !outQueue.closed && outQueue.upcoming == []
      invariant inQueue.released == |outQueue.items|
      invariant forall i :: 0 <= i < |outQueue.items| ==> outQueue.items[i] == f(stream[i])
      invariant inQueue.journal.events == before + Rounds(round, inQueue.released) + [Pulled(inQueue.name)]
      decreases |stream| - inQueue.released
    {
      var data := input.value;
      outQueue.Push(f(data));
      RoundDone(before, Rounds(round, inQueue.released), Pulled(inQueue.name), [Pushed(outQueue.name)],
        Released(inQueue.name));
      input := NextInput(inQueue, stream, input);
    }
    outQueue.Close();
  }

  /** Chained, the transform workers compute the mapped inputs: if each stage's stream is what StageWorker makes
      of the stream before it, the last one is every input through every stage, in input order. */
  lemma {:induction false} WorkersCompose<T>(stages: seq<Stage<T>>, streams: seq<seq<T>>, k: nat)
    requires |streams| == |stages| + 1 && k <= |stages|
    requires forall j :: 0 <= j < |stages| ==> streams[j + 1] == Map(stages[j].f, streams[j])
    ensures |streams[k]| == |streams[0]|
    ensures forall i :: 0 <= i < |streams[0]| ==> streams[k][i] == Through(stages, k, streams[0][i])
    ensures k == |stages| ==> streams[k] == Mapped(stages, streams[0])
  {
    if k > 0 {
      WorkersCompose(stages, streams, k - 1);
      assert streams[k - 1 + 1] == Map(stages[k - 1].f, streams[k - 1]);
    }
  }

  /** pipeline_end_stage::inline_worker: the consume calls it makes, in order, each before the input's slot is freed. */
  method InlineWorker<T>(inQueue: BoundedQueue<T>) returns (calls: seq<T>)
    requires inQueue.Valid() && inQueue.released == 0
    modifies inQueue, inQueue.journal
    ensures inQueue.Valid() && inQueue.closed && inQueue.released == |inQueue.items|
    ensures calls == old(inQueue.Stream())
    ensures inQueue.journal.events == old(inQueue.journal.events)
      + Rounds([Pulled(inQueue.name), Consumed, Released(inQueue.name)], |calls|) + [Pulled(inQueue.name)]
  {
    ghost var stream, before := inQueue.Stream(), inQueue.journal.events;
    ghost var round := [Pulled(inQueue.name), Consumed, Released(inQueue.name)];
    calls := [];
    var input := inQueue.Pull();
    while input.Some?
      invariant AtLoopHead(inQueue, stream, input) && calls == stream[..inQueue.released]
      invariant inQueue.journal.events == before + Rounds(round, inQueue.released) + [Pulled(inQueue.name)]
      decreases |stream| - inQueue.released
    {
      calls := calls + [input.value];
      inQueue.journal.Add(Consumed);
      RoundDone(before, Rounds(round, inQueue.released), Pulled(inQueue.name), [Consumed], Released(inQueue.name));
      input := NextInput(inQueue, stream, input);
    }
  }

  /** The internal queue holds the handles forked and not awaited, `active` counts them, and no other coroutine
      touches it. */
  ghost predicate InFlight<T>(q: BoundedQueue<T>, parallelism: nat, awaited: seq<T>, active: nat)
    reads q
  {
    && q.Valid() && q.capacity == parallelism && !q.closed && q.upcoming == []
    && (forall n :: q.pace(n) == 0)
    && q.released == |awaited| && awaited <= q.items && active == |q.items| - |awaited|
  }

  /** Pushes a forked task's handle on the end stage's own queue; `blocked` tells if that would not return. */
  method Fork<T>(q: BoundedQueue<T>, parallelism: nat, ghost awaited: seq<T>, active: nat, data: T)
    returns (blocked: bool)
    requires InFlight(q, parallelism, awaited, active) && active < parallelism
    modifies q, q.journal
    ensures InFlight(q, parallelism, awaited, active + 1) && q.items == old(q.items) + [data] && !blocked
    ensures q.journal.events == old(q.journal.events) + [Pushed(q.name)]
  {
    blocked := |q.items| - q.released == q.capacity;
    q.Push(data);
  }

  /** Pulls the oldest handle of the end stage's own queue, awaits it and frees its slot. */
  method AwaitOldest<T>(q: BoundedQueue<T>, parallelism: nat, ghost awaited: seq<T>, active: nat) returns (handle: T)
    requires InFlight(q, parallelism, awaited, active) && active > 0
    modifies q, q.journal
    ensures InFlight(q, parallelism, awaited + [handle], active - 1) && q.items == old(q.items)
    ensures q.journal.events == old(q.journal.events) + [Pulled(q.name), Released(q.name)]
  {
    var r := q.Pull();
    handle := r.value;
    q.Release();
  }

  /** The last loop of the end stage: awaits what is still in flight, oldest first. */
  method DrainInner<T>(q: BoundedQueue<T>, parallelism: nat, awaitedBefore: seq<T>, activeBefore: nat)
    returns (awaited: seq<T>)
    requires InFlight(q, parallelism, awaitedBefore, activeBefore)
    modifies q, q.journal
    ensures awaited == q.items == old(q.items)
    ensures q.journal.events == old(q.journal.events) + Rounds([Pulled(q.name), Released(q.name)], activeBefore)
  {
    awaited := awaitedBefore;
    var active: nat := activeBefore;
    while active > 0
      invariant InFlight(q, parallelism, awaited, active) && q.items == old(q.items) && active <= activeBefore
      invariant q.journal.events
             == old(q.journal.events) + Rounds([Pulled(q.name), Released(q.name)], activeBefore - active)
    {
      var handle := AwaitOldest(q, parallelism, awaited, active);
      awaited := awaited + [handle];
      active := active - 1;
    }
  }

  /** The middle of the end stage's loop body: forks the task, and at the limit awaits the oldest one. */
  method ForkAndLimit<T>(q: BoundedQueue<T>, parallelism: nat, awaitedBefore: seq<T>, activeBefore: nat, data: T)
    returns (awaited: seq<T>, active: nat, peak: nat, blocked: bool)
    requires InFlight(q, parallelism, awaitedBefore, activeBefore) && activeBefore < parallelism
    modifies q, q.journal
    ensures InFlight(q, parallelism, awaited, active) && q.items == old(q.items) + [data] && !blocked
    ensures peak == activeBefore + 1 && active == if peak < parallelism then peak else peak - 1
    ensures q.journal.events == old(q.journal.events) + [Pushed(q.name)] +
      if peak < parallelism then [] else [Pulled(q.name), Released(q.name)]
  {
    blocked := Fork(q, parallelism, awaitedBefore, activeBefore, data);
    awaited, active := awaitedBefore, activeBefore + 1;
    peak := active;
    if active >= parallelism {
      var handle := AwaitOldest(q, parallelism, awaited, active);
      awaited := awaited + [handle];
      active := active - 1;
    }
  }

  /** What the end stage knows at its loop head. */
  ghost predicate AtEndHead<T>(q: BoundedQueue<T>, internalQueue: BoundedQueue<T>, parallelism: nat, stream: seq<T>,
                               input: Option<T>, awaited: seq<T>, active: nat, mostActive: nat)
    reads q, internalQueue
  {
    && AtLoopHead(q, stream, input) && InFlight(internalQueue, parallelism, awaited, active) && 0 < parallelism
    && internalQueue != q && internalQueue.journal == q.journal
    && internalQueue.items <= stream && |internalQueue.items| == q.released
    && active == Min(q.released, parallelism - 1) && mostActive == Min(q.released, parallelism)
  }

  /** What the end stage does between two pulls: it forks a task, and from the `parallelism`-th on awaits one. */
  function Middle(inner: nat, full: bool): seq<Event> {
    [Pushed(inner)] + if full then [Pulled(inner), Released(inner)] else []
  }

  /** The end stage's loop body, with the pull that begins the next round. */
  method EndLoopBody<T>(q: BoundedQueue<T>, internalQueue: BoundedQueue<T>, parallelism: nat, ghost stream: seq<T>,
                        input: Option<T>, awaitedBefore: seq<T>, activeBefore: nat, mostBefore: nat)
    returns (next: Option<T>, awaited: seq<T>, active: nat, mostActive: nat, blocked: bool)
    requires AtEndHead(q, internalQueue, parallelism, stream, input, awaitedBefore, activeBefore, mostBefore)
    requires input.Some?
    modifies q, internalQueue, q.journal
    ensures AtEndHead(q, internalQueue, parallelism, stream, next, awaited, active, mostActive)
    ensures q.released == old(q.released) + 1 && !blocked
    ensures q.journal.events == old(q.journal.events)
      + Middle(internalQueue.name, q.released >= parallelism) + [Released(q.name), Pulled(q.name)]
  {
    var data := input.value;
    var peak;
    awaited, active, peak, blocked := ForkAndLimit(internalQueue, parallelism, awaitedBefore, activeBefore, data);
    mostActive := if peak > mostBefore then peak else mostBefore;
    next := NextInput(q, stream, input);
  }

  /** The end stage's first `n` rounds: it awaits a handle before it frees the slot of the input whose task it has
      just forked. */
  function EndRounds(outer: nat, inner: nat, parallelism: nat, n: nat): seq<Event> {
    if n == 0 then [] else
      var last := [Pulled(outer)] + Middle(inner, n >= parallelism) + [Released(outer)];
      EndRounds(outer, inner, parallelism, n - 1) + last
  }

  /** pipeline_end_stage::worker.  It is both ends of its internal queue, so a push on a full queue or a pull
      on an empty one would never return.  Neither happens: `pushBlocked` stays false and every pull
      finds the handle it expects.  Tasks are forked in input order, awaited in the same order, never more
      than `parallelism` at a time, and all awaited at return. */
  method EndWorker<T>(inQueue: BoundedQueue<T>, inner: nat, parallelism: nat)
    returns (forked: seq<T>, awaited: seq<T>, mostActive: nat, pushBlocked: bool)
    requires inQueue.Valid() && inQueue.released == 0 && 0 < parallelism
    modifies inQueue, inQueue.journal
    ensures inQueue.Valid() && inQueue.closed && inQueue.released == |inQueue.items|
    ensures forked == awaited == old(inQueue.Stream())
    ensures mostActive <= parallelism && !pushBlocked
    ensures |forked| >= parallelism ==> mostActive == parallelism
    ensures inQueue.journal.events == old(inQueue.journal.events)
      + EndRounds(inQueue.name, inner, parallelism, |forked|) + [Pulled(inQueue.name)]
      + Rounds([Pulled(inner), Released(inner)], Min(|forked|, parallelism - 1))
  {
    ghost var stream, before := inQueue.Stream(), inQueue.journal.events;
    var internalQueue := new BoundedQueue<T>(inner, inQueue.journal, parallelism, _ => 0, []);
    var active: nat := 0;
    awaited, mostActive, pushBlocked := [], 0, false;
    var input := inQueue.Pull();
    while input.Some?
      invariant fresh(internalQueue) && internalQueue.name == inner && !pushBlocked
      invariant AtEndHead(inQueue, internalQueue, parallelism, stream, input, awaited, active, mostActive)
      invariant inQueue.journal.events == before
        + EndRounds(inQueue.name, inner, parallelism, inQueue.released) + [Pulled(inQueue.name)]
      decreases |stream| - inQueue.released
    {
      RoundDone(before, EndRounds(inQueue.name, inner, parallelism, inQueue.released), Pulled(inQueue.name),
        Middle(inner, inQueue.released + 1 >= parallelism), Released(inQueue.name));
      var blocked;
      input, awaited, active, mostActive, blocked :=
        EndLoopBody(inQueue, internalQueue, parallelism, stream, input, awaited, active, mostActive);
      pushBlocked := pushBlocked || blocked;
    }
    forked := internalQueue.items;
    awaited := DrainInner(internalQueue, parallelism, awaited, active);
  }
}
