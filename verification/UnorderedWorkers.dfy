/** The coroutines of the unordered pipeline as the loops they are.  Each runs against channels and semaphores
    that other coroutines use too; those act while this one is suspended.  What is recorded here is this
    coroutine's own share: what it pulls and posts, and how many permits it acquires and gives. */
module UnorderedWorkers {
  import opened Options
  import opened Journals
  import opened Stages

  /** What a coroutine does, in order. */
  datatype Event = Pulled | Posted | Drained | Acquired | Released(n: nat) | Consumed

  /** A channel as one of its users sees it. `share` is what falls to this consumer before the channel is closed
      and drained; `posted` is what this producer has got into it, and `openFor` how many more posts it will get
      in before somebody closes the channel: none once it is closed. */
  class Channel<T> {
    const journal: Journal<Event>
    const share: seq<T>
    var taken: nat
    var posted: seq<T>
    var openFor: nat

    constructor (journal: Journal<Event>, share: seq<T>, openFor: nat)
      ensures this.journal == journal && this.share == share && taken == 0 && posted == [] && this.openFor == openFor
    {
      this.journal, this.share := journal, share;
      taken, posted := 0, [];
      this.openFor := openFor;
    }

    /** Suspends until an item falls to this consumer, or the channel is closed and drained. */
    method Pull() returns (r: Option<T>)
      requires taken <= |share|
      modifies this`taken, journal
      ensures journal.events == old(journal.events) + [Pulled]
      ensures if old(taken) < |share| then r == Some(share[old(taken)]) && taken == old(taken) + 1
              else r == None && taken == old(taken)
    {
      journal.Add(Pulled);
      if taken < |share| {
        r := Some(share[taken]);
        taken := taken + 1;
      } else {
        r := None;
      }
    }

    /** Fails, and drops the item, on a closed channel. */
    method Post(x: T) returns (ok: bool)
      modifies this`posted, this`openFor, journal
      ensures journal.events == old(journal.events) + [Posted]
      ensures ok == (old(openFor) > 0)
      ensures posted == (if ok then old(posted) + [x] else old(posted)) && openFor == old(openFor) - if ok then 1 else 0
    {
      journal.Add(Posted);
      ok := openFor > 0;
      if ok {
        posted, openFor := posted + [x], openFor - 1;
      }
    }

    /** Closes the channel and waits until it is drained. */
    method Drain()
      modifies this`openFor, journal
      ensures openFor == 0 && journal.events == old(journal.events) + [Drained]
    {
      journal.Add(Drained);
      openFor := 0;
    }
  }

  /** A counting semaphore, with what this coroutine has acquired from it and given to it. */
  class Semaphore {
    const journal: Journal<Event>
    var count: nat
    var acquired: nat
    var given: nat

    constructor (journal: Journal<Event>)
      ensures this.journal == journal && count == 0 && acquired == 0 && given == 0
    {
      this.journal := journal;
      count, acquired, given := 0, 0, 0;
    }

    /** Suspends while the count is zero: meanwhile somebody releases a permit. */
    method Acquire()
      modifies this, journal
      ensures journal.events == old(journal.events) + [Acquired]
      ensures acquired == old(acquired) + 1 && given == old(given)
      ensures count == if old(count) > 0 then old(count) - 1 else 0
    {
      journal.Add(Acquired);
      if count == 0 {
        count := 1;
      }
      count := count - 1;
      acquired := acquired + 1;
    }

    method Release(n: nat)
      modifies this, journal
      ensures journal.events == old(journal.events) + [Released(n)]
      ensures count == old(count) + n && given == old(given) + n && acquired == old(acquired)
    {
      journal.Add(Released(n));
      count := count + n;
      given := given + n;
    }
  }

  /** What the constructors of a consuming stage do before they start the workers. */
  method GrantCapacity(inSem: Semaphore?, workerCount: nat)
    modifies inSem, if inSem != null then {inSem.journal} else {}
    ensures inSem != null ==> inSem.given == old(inSem.given) + 2 * workerCount && inSem.acquired == old(inSem.acquired)
    ensures inSem != null ==> inSem.count == old(inSem.count) + 2 * workerCount
  {
    if inSem != null {
      inSem.Release(2 * workerCount);
    }
  }

  /** pipeline_stage::worker.  Of each item that falls to it the worker gives the input permit back, if there is
      an input semaphore, and acquires exactly one output permit before it posts the result, in that order; so
      it never waits for input with an output permit in hand, nor for an output permit before it has given its input
      permit back.  The posts made before somebody closes the output are its share mapped,
      in order, and the later ones fail. */
  method StageWorker<T, U>(inChan: Channel<T>, inSem: Semaphore?, outChan: Channel<U>, outSem: Semaphore, f: T -> U)
    returns (failedPosts: nat)
    requires inChan.taken == 0 && outChan.posted == [] && outSem.acquired == 0
    requires inSem != outSem && inChan as object != outChan as object
    requires inChan.journal == outChan.journal == outSem.journal && (inSem != null ==> inSem.journal == inChan.journal)
    modifies inChan, inSem, outChan, outSem, inChan.journal
    ensures inChan.journal.events == old(inChan.journal.events)
      + Rounds([Pulled] + (if inSem != null then [Released(1)] else []) + [Acquired, Posted], |inChan.share|) + [Pulled]
    ensures inChan.taken == |inChan.share|
    ensures inSem != null ==> inSem.given == old(inSem.given) + |inChan.share| && inSem.acquired == old(inSem.acquired)
    ensures outSem.acquired == |inChan.share| && outSem.given == old(outSem.given)
    ensures outChan.posted == Map(f, inChan.share)[..Min(old(outChan.openFor), |inChan.share|)]
    ensures failedPosts == |inChan.share| - |outChan.posted|
  {
    failedPosts := 0;
    ghost var done: nat, before := 0, inChan.journal.events;
    ghost var round := [Pulled] + (if inSem != null then [Released(1)] else []) + [Acquired, Posted];
    ghost var middle := (if inSem != null then [Released(1)] else []) + [Acquired];
    assert round == [Pulled] + middle + [Posted];
    var input := inChan.Pull();
    while input.Some?
      invariant inChan.taken <= |inChan.share| && done == inChan.taken - (if input.Some? then 1 else 0)
      invariant if input.Some? then done < |inChan.share| && input.value == inChan.share[done]
                else done == |inChan.share|
      invariant inSem != null ==> inSem.given == old(inSem.given) + done && inSem.acquired == old(inSem.acquired)
      invariant inChan.journal.events == before + Rounds(round, done) + [Pulled]
      invariant outSem.acquired == done && outSem.given == old(outSem.given)
      invariant outChan.posted == Map(f, inChan.share)[..Min(old(outChan.openFor), done)]
      invariant outChan.openFor + |outChan.posted| == old(outChan.openFor) && failedPosts + |outChan.posted| == done
      decreases |inChan.share| - done
    {
      if inSem != null {
        inSem.Release(1);
      }
      outSem.Acquire();
      var ok := outChan.Post(f(input.value));
      failedPosts := failedPosts + if ok then 0 else 1;
      RoundDone(before, Rounds(round, done), Pulled, middle, Posted);
      done := done + 1;
      input := inChan.Pull();
    }
  }

  /** pipeline_end_stage::worker: consumes its share in order and gives back one permit per item. */
  method EndWorker<T>(inChan: Channel<T>, inSem: Semaphore) returns (consumed: seq<T>)
    requires inChan.taken == 0 && inSem.journal == inChan.journal
    modifies inChan, inSem, inChan.journal
    ensures inChan.journal.events == old(inChan.journal.events)
      + Rounds([Pulled, Released(1), Consumed], |inChan.share|) + [Pulled]
    ensures consumed == inChan.share && inChan.taken == |inChan.share|
    ensures inSem.given == old(inSem.given) + |inChan.share| && inSem.acquired == old(inSem.acquired)
  {
    consumed := [];
    ghost var before := inChan.journal.events;
    var input := inChan.Pull();
    while input.Some?
      invariant inChan.taken <= |inChan.share| && |consumed| == inChan.taken - (if input.Some? then 1 else 0)
      invariant inChan.journal.events == before + Rounds([Pulled, Released(1), Consumed], |consumed|) + [Pulled]
      invariant consumed <= inChan.share
      invariant if input.Some? then |consumed| < |inChan.share| && input.value == inChan.share[|consumed|]
                else |consumed| == |inChan.share|
      invariant inSem.given == old(inSem.given) + |consumed| && inSem.acquired == old(inSem.acquired)
      decreases |inChan.share| - |consumed|
    {
      inSem.Release(1);
      consumed := consumed + [input.value];
      inChan.journal.Add(Consumed);
      input := inChan.Pull();
    }
  }

  /** The driver: one permit for each input, every input posted in order, then close and drain.  Nobody else
      closes its channel. */
  method Driver<T>(inputs: seq<T>, inChan: Channel<T>, inputSem: Semaphore) returns (failedPosts: nat)
    requires inChan.posted == [] && |inputs| <= inChan.openFor && inputSem.acquired == 0
    requires inputSem.journal == inChan.journal
    modifies inChan, inputSem, inChan.journal
    ensures inChan.journal.events == old(inChan.journal.events) + Rounds([Acquired, Posted], |inputs|) + [Drained]
    ensures inChan.posted == inputs && inChan.openFor == 0 && failedPosts == 0
    ensures inputSem.acquired == |inputs| && inputSem.given == old(inputSem.given)
  {
    failedPosts := 0;
    for i := 0 to |inputs|
      invariant inChan.posted == inputs[..i] && |inputs| - i <= inChan.openFor && failedPosts == 0
      invariant inChan.journal.events == old(inChan.journal.events) + Rounds([Acquired, Posted], i)
      invariant inputSem.acquired == i && inputSem.given == old(inputSem.given)
    {
      inputSem.Acquire();
      var ok := inChan.Post(inputs[i]);
      failedPosts := failedPosts + if ok then 0 else 1;
    }
    inChan.Drain();
  }
}
