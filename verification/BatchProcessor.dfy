/** The timed batch processor: a two-slot mux whose slots are a pull from a queue and a timer.

    What the processor can observe of arrivals, close, expiry and cancellation is which of its active slots
    delivers next; `timerWins(t)` says it for the t-th result when both are active.  Cancelling the timer
    only makes its result come sooner.  `posted` is what is posted before the queue is closed. */
module BatchProcessor {

  const PULL: nat := 0
  const TIMER: nat := 1
  const END: nat := 2

  /** tmc::mux_tuple with two slots.  Forking a slot that is still pending is an error. */
  class Mux {
    var pullActive: bool
    var timerActive: bool

    constructor ()
      ensures !pullActive && !timerActive
    {
      pullActive, timerActive := false, false;
    }

    method ForkPull()
      requires !pullActive
      modifies this
      ensures pullActive && timerActive == old(timerActive)
    {
      pullActive := true;
    }

    method ForkTimer()
      requires !timerActive
      modifies this
      ensures timerActive && pullActive == old(pullActive)
    {
      timerActive := true;
    }

    /** Awaits the next result: an active slot's index, whose bit it clears, or END if none is active. */
    method Next(timerFirst: bool) returns (idx: nat)
      modifies this
      ensures idx == (if old(pullActive) && !(timerFirst && old(timerActive)) then PULL
                      else if old(timerActive) then TIMER else END)
      ensures pullActive == (old(pullActive) && idx != PULL)
      ensures timerActive == (old(timerActive) && idx != TIMER)
    {
      if pullActive && !(timerFirst && timerActive) {
        idx, pullActive := PULL, false;
      } else if timerActive {
        idx, timerActive := TIMER, false;
      } else {
        idx := END;
      }
    }
  }

  /** The batches processed from result t on, with `batch` collected and `rest` still to be pulled. */
  function Served<T>(rest: seq<T>, batch: seq<T>, timerWins: nat -> bool, t: nat): seq<seq<T>>
    decreases 2 * |rest| + |batch|
  {
    if batch != [] && timerWins(t) then [batch] + Served(rest, [], timerWins, t + 1)
    else if rest != [] then Served(rest[1..], batch + [rest[0]], timerWins, t + 1)
    else if batch != [] then [batch]
    else []
  }

  /** timedBatchProcessor.  `results` counts the mux results, the final end() included. */
  method TimedBatchProcessor<T>(posted: seq<T>, timerWins: nat -> bool)
    returns (batches: seq<seq<T>>, results: nat)
    ensures batches == Served(posted, [], timerWins, 0)
    ensures results == |posted| + |batches| + 2 <= 2 * |posted| + 2
  {
    var mux := new Mux();
    mux.ForkPull();
    var batch: seq<T> := [];
    var rest := posted;
    batches, results := [], 0;
    ghost var pulledClose: nat := 0;
    while true
      invariant fresh(mux)
      invariant mux.timerActive <==> batch != []
      invariant !mux.pullActive ==> rest == []
      invariant mux.pullActive <==> pulledClose == 0
      invariant pulledClose <= 1
      invariant mux.pullActive ==> batches + Served(rest, batch, timerWins, results) == Served(posted, [], timerWins, 0)
      invariant !mux.pullActive ==>
        batches + (if batch != [] then [batch] else []) == Served(posted, [], timerWins, 0)
      invariant results == |posted| - |rest| + |batches| + pulledClose
      invariant |batches| + |batch| + |rest| <= |posted|
      decreases mux.pullActive, 2 * |rest| + |batch|
    {
      var idx := mux.Next(timerWins(results));
      results := results + 1;
      if idx == PULL {
        if rest != [] {
          batch, rest := batch + [rest[0]], rest[1..];
          mux.ForkPull();
          if !mux.timerActive {
            mux.ForkTimer();
          }
        } else {
          // The queue is closed and drained: the pull is not restarted, the timer is cancelled.
          pulledClose := 1;
        }
      } else if idx == TIMER {
        batches := batches + [batch];
        batch := [];
      } else {
        return;
      }
    }
  }

  function Flatten<T>(batches: seq<seq<T>>): seq<T> {
    if batches == [] then [] else batches[0] + Flatten(batches[1..])
  }

  /** `batches` cuts `posted` into non-empty pieces, in order. */
  ghost predicate Partitions<T>(batches: seq<seq<T>>, posted: seq<T>) {
    Flatten(batches) == posted && forall i :: 0 <= i < |batches| ==> batches[i] != []
  }

  lemma {:induction false} ServedPartitionsFrom<T>(rest: seq<T>, batch: seq<T>, timerWins: nat -> bool, t: nat)
    ensures Partitions(Served(rest, batch, timerWins, t), batch + rest)
    decreases 2 * |rest| + |batch|
  {
    if batch != [] && timerWins(t) {
      ServedPartitionsFrom(rest, [], timerWins, t + 1);
      assert [] + rest == rest;
    } else if rest != [] {
      ServedPartitionsFrom(rest[1..], batch + [rest[0]], timerWins, t + 1);
      assert batch + [rest[0]] + rest[1..] == batch + rest;
    } else if batch != [] {
      assert Flatten([batch]) == batch;
    }
  }

  /** Whatever the timing, every item posted before close is processed exactly once, in order, and no empty
      batch is processed. */
  lemma ServedPartitions<T>(posted: seq<T>, timerWins: nat -> bool)
    ensures Partitions(Served(posted, [], timerWins, 0), posted)
  {
    ServedPartitionsFrom(posted, [], timerWins, 0);
    assert [] + posted == posted;
  }

  // ---------- Every partition can happen ----------

  /** The timing that produces `batches` from result t on: the timer wins right after each batch. */
  predicate CutAfter<T>(batches: seq<seq<T>>, t: nat, u: nat)
    decreases batches
  {
    batches != [] && (u == t + |batches[0]| || CutAfter(batches[1..], t + |batches[0]| + 1, u))
  }

  function TimingFor<T>(batches: seq<seq<T>>, t: nat): nat -> bool { (u: nat) => CutAfter(batches, t, u) }

  lemma {:induction false} NoEarlyCut<T>(batches: seq<seq<T>>, t: nat, u: nat)
    requires batches != [] ==> u < t + |batches[0]|
    ensures !CutAfter(batches, t, u)
    decreases batches
  {
    if batches != [] && |batches| > 1 {
      NoEarlyCut(batches[1..], t + |batches[0]| + 1, u);
    }
  }

  lemma {:induction false} ServedAgrees<T>(rest: seq<T>, batch: seq<T>, f: nat -> bool, g: nat -> bool, t: nat)
    requires forall u: nat :: u >= t ==> f(u) == g(u)
    ensures Served(rest, batch, f, t) == Served(rest, batch, g, t)
    decreases 2 * |rest| + |batch|
  {
    if batch != [] && f(t) {
      ServedAgrees(rest, [], f, g, t + 1);
    } else if rest != [] {
      ServedAgrees(rest[1..], batch + [rest[0]], f, g, t + 1);
    }
  }

  lemma {:induction false} CollectsFirstBatch<T>(batches: seq<seq<T>>, t: nat, i: nat)
    requires batches != [] && batches[0] != [] && i <= |batches[0]|
    ensures var b, w := batches[0], TimingFor(batches, t);
      Served(b[i..] + Flatten(batches[1..]), b[..i], w, t + i)
      == [b] + Served(Flatten(batches[1..]), [], w, t + |b| + 1)
    decreases |batches[0]| - i
  {
    var b, w := batches[0], TimingFor(batches, t);
    var rest := b[i..] + Flatten(batches[1..]);
    if i == |b| {
      assert b[..i] == b && rest == Flatten(batches[1..]);
    } else {
      NoEarlyCut(batches, t, t + i);
      assert rest[0] == b[i] && rest[1..] == b[i + 1..] + Flatten(batches[1..]);
      assert b[..i] + [b[i]] == b[..i + 1];
      CollectsFirstBatch(batches, t, i + 1);
    }
  }

  lemma {:induction false} TimingServes<T>(batches: seq<seq<T>>, t: nat)
    requires forall i :: 0 <= i < |batches| ==> batches[i] != []
    ensures Served(Flatten(batches), [], TimingFor(batches, t), t) == batches
    decreases batches
  {
    if batches != [] {
      var b, rest := batches[0], Flatten(batches[1..]);
      var next := t + |b| + 1;
      assert b[0..] + rest == Flatten(batches) && b[..0] == [];
      CollectsFirstBatch(batches, t, 0);
      ServedAgrees(rest, [], TimingFor(batches, t), TimingFor(batches[1..], next), next);
      TimingServes(batches[1..], next);
    }
  }

  /** The possible outcomes are exactly the ordered partitions of the input into non-empty batches. */
  lemma OutcomesAreThePartitions<T>(posted: seq<T>, batches: seq<seq<T>>)
    ensures (exists timerWins: nat -> bool :: Served(posted, [], timerWins, 0) == batches)
       <==> Partitions(batches, posted)
  {
    if Partitions(batches, posted) {
      TimingServes(batches, 0);
      assert Served(posted, [], TimingFor(batches, 0), 0) == batches;
    }
    if timerWins: nat -> bool :| Served(posted, [], timerWins, 0) == batches {
      ServedPartitions(posted, timerWins);
    }
  }
}
