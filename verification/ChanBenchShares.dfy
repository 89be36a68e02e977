/** Who moved what in a run of the channel benchmark: each producer pushes its own range in order, elements are
    taken in the order in which they were pushed, and each consumer's totals are those of what it took. */
module ChanBenchShares {
  import opened Sums
  import opened WordArithmetic
  import opened ChanBench

  /** The elements that the run's pulls by consumer j take, in order. */
  ghost function TakenBy(s: State, acts: seq<Action>, w: nat, j: nat): seq<nat>
    requires w > 0
    decreases acts
  {
    if acts == [] || !Enabled(s, acts[0]) then []
    else (if acts[0] == Pull(j) then [s.chan[0]] else []) + TakenBy(Do(s, acts[0], w), acts[1..], w, j)
  }

  function TakenNow(s: State, a: Action): seq<nat>
    requires Enabled(s, a)
  {
    if a.Pull? then [s.chan[0]] else []
  }

  function PushedNow(s: State, a: Action): seq<nat>
    requires Enabled(s, a)
  {
    if a.Push? then [s.prod[a.i].next] else []
  }

  /** The elements that the run's pulls take, whoever pulls. */
  ghost function Taken(s: State, acts: seq<Action>, w: nat): seq<nat>
    requires w > 0
    decreases acts
  {
    if acts == [] || !Enabled(s, acts[0]) then []
    else TakenNow(s, acts[0]) + Taken(Do(s, acts[0], w), acts[1..], w)
  }

  /** The elements that the run's pushes by producer i push. */
  ghost function PushedBy(s: State, acts: seq<Action>, w: nat, i: nat): seq<nat>
    requires w > 0
    decreases acts
  {
    if acts == [] || !Enabled(s, acts[0]) then []
    else (if acts[0] == Push(i) then [s.prod[i].next] else []) + PushedBy(Do(s, acts[0], w), acts[1..], w, i)
  }

  /** The elements that the run's pushes push, whoever pushes. */
  ghost function Pushed(s: State, acts: seq<Action>, w: nat): seq<nat>
    requires w > 0
    decreases acts
  {
    if acts == [] || !Enabled(s, acts[0]) then []
    else PushedNow(s, acts[0]) + Pushed(Do(s, acts[0], w), acts[1..], w)
  }

  // ---------- Consumers ----------

  lemma WrapThenAdd(total: int, x: int, rest: int, w: nat)
    requires w > 0
    ensures ((total + x) % w + rest) % w == (total + (x + rest)) % w
  {
    assert (total + x) + rest == total + (x + rest);
    ModAdd(total + x, rest, w);
  }

  lemma {:induction false} RunAddsShare(s: State, acts: seq<Action>, s': State, w: nat, j: nat)
    requires w > 0 && IsRun(s, acts, s', w) && j < |s.cons|
    requires s.cons[j].count < w && s.cons[j].sum < w
    ensures |s'.cons| == |s.cons| && s'.cons[j].count < w && s'.cons[j].sum < w
    ensures s'.cons[j].count == (s.cons[j].count + |TakenBy(s, acts, w, j)|) % w
    ensures s'.cons[j].sum == (s.cons[j].sum + Sum(TakenBy(s, acts, w, j), Self)) % w
    decreases acts
  {
    if acts != [] {
      var s1 := Do(s, acts[0], w);
      var rest := TakenBy(s1, acts[1..], w, j);
      RunAddsShare(s1, acts[1..], s', w, j);
      if acts[0] == Pull(j) {
        var x := s.chan[0];
        assert TakenBy(s, acts, w, j) == [x] + rest && ([x] + rest)[1..] == rest;
        WrapThenAdd(s.cons[j].count, 1, |rest|, w);
        WrapThenAdd(s.cons[j].sum, x, Sum(rest, Self), w);
      } else {
        assert TakenBy(s, acts, w, j) == rest;
        assert s1.cons[j].(done := false) == s.cons[j].(done := false);
      }
    }
  }

  /** In every state of every run a consumer's totals are the number and the sum, modulo the word, of the elements
      that it took itself. */
  lemma ConsumerCountsItsShare(prod: seq<Producer>, consCount: nat, acts: seq<Action>, s: State, w: nat, j: nat)
    requires w > 0 && IsRun(Init(prod, consCount), acts, s, w) && j < consCount
    ensures |s.cons| == consCount
    ensures s.cons[j].count == |TakenBy(Init(prod, consCount), acts, w, j)| % w
    ensures s.cons[j].sum == Sum(TakenBy(Init(prod, consCount), acts, w, j), Self) % w
  {
    RunAddsShare(Init(prod, consCount), acts, s, w, j);
  }

  /** So its loop, run on that share, returns what the run says it has. */
  method ConsumerInRun(prod: seq<Producer>, consCount: nat, ghost acts: seq<Action>, s: State, w: nat, j: nat,
                       share: seq<nat>) returns (count: nat, sum: nat)
    requires w > 0 && IsRun(Init(prod, consCount), acts, s, w) && j < consCount == |s.cons|
    requires share == TakenBy(Init(prod, consCount), acts, w, j)
    ensures count == s.cons[j].count && sum == s.cons[j].sum
  {
    ConsumerCountsItsShare(prod, consCount, acts, s, w, j);
    count, sum := ConsumerLoop(share, w);
  }

  /** A consumer that has returned never changes again. */
  lemma {:induction false} ReturnedConsumerIsFinal(s: State, acts: seq<Action>, s': State, w: nat, j: nat)
    requires w > 0 && IsRun(s, acts, s', w) && j < |s.cons| && s.cons[j].done
    ensures |s'.cons| == |s.cons| && s'.cons[j] == s.cons[j] && TakenBy(s, acts, w, j) == []
    decreases acts
  {
    if acts != [] {
      ReturnedConsumerIsFinal(Do(s, acts[0], w), acts[1..], s', w, j);
    }
  }

  /** A consumer that has not returned waits for an element of a channel that is empty and open, and for nothing
      else; whichever of those waiting comes first takes the oldest element. */
  lemma ConsumerWaits(s: State, j: nat)
    requires j < |s.cons|
    ensures Enabled(s, Pull(j)) || Enabled(s, Leave(j)) <==> !s.cons[j].done && (s.chan != [] || s.closed)
    ensures !(Enabled(s, Pull(j)) && Enabled(s, Leave(j)))
  {
  }

  // ---------- Producers and the channel ----------

  /** A producer waits for nothing, whatever the others do. */
  lemma ProducerWaits(n: nat, prod: seq<Producer>, consCount: nat, acts: seq<Action>, s: State, w: nat, i: nat)
    requires w > 0 && Contiguous(prod, 0, n) && IsRun(Init(prod, consCount), acts, s, w) && i < |prod|
    ensures |s.prod| == |prod| && (Enabled(s, Push(i)) <==> s.prod[i].next != prod[i].end)
    ensures Enabled(s, Close) <==> !s.closed && forall m :: 0 <= m < |prod| ==> s.prod[m].next == prod[m].end
  {
    forall m | 0 <= m < |prod| ensures |s.prod| == |prod| && s.prod[m].next <= s.prod[m].end == prod[m].end {
      RangesAreRanges(prod, 0, n, m);
      ProducerPushesItsRange(Init(prod, consCount), acts, s, w, m);
    }
  }

  lemma {:induction false} RangesAreRanges(ps: seq<Producer>, lo: nat, hi: nat, i: nat)
    requires Contiguous(ps, lo, hi) && i < |ps|
    ensures ps[i].next <= ps[i].end
  {
    if i > 0 {
      RangesAreRanges(ps[1..], ps[0].end, hi, i - 1);
    }
  }

  /** Producer i pushes its own range, from its base on, in order: all of it by the end. */
  lemma {:induction false} ProducerPushesItsRange(s: State, acts: seq<Action>, s': State, w: nat, i: nat)
    requires w > 0 && IsRun(s, acts, s', w) && i < |s.prod| && s.prod[i].next <= s.prod[i].end
    ensures |s'.prod| == |s.prod| && s'.prod[i].next <= s'.prod[i].end == s.prod[i].end
    ensures |PushedBy(s, acts, w, i)| == s'.prod[i].next - s.prod[i].next
    ensures forall m :: 0 <= m < |PushedBy(s, acts, w, i)| ==> PushedBy(s, acts, w, i)[m] == s.prod[i].next + m
    ensures Final(s') ==> |PushedBy(s, acts, w, i)| == s.prod[i].end - s.prod[i].next
    decreases acts
  {
    if acts != [] {
      ProducerPushesItsRange(Do(s, acts[0], w), acts[1..], s', w, i);
    }
  }

  lemma ChannelStep(s: State, a: Action, w: nat)
    requires w > 0 && Enabled(s, a) && OpenWhileProducing(s)
    ensures TakenNow(s, a) + Do(s, a, w).chan == s.chan + PushedNow(s, a)
    ensures Do(s, a, w).received == s.received + TakenNow(s, a) && OpenWhileProducing(Do(s, a, w))
  {
  }

  lemma Chain(out: seq<nat>, out': seq<nat>, chan: seq<nat>, chan1: seq<nat>, chan': seq<nat>,
              more: seq<nat>, more': seq<nat>)
    requires out + chan1 == chan + more && out' + chan' == chan1 + more'
    ensures (out + out') + chan' == chan + (more + more')
  {
    calc {
      (out + out') + chan';
      out + (out' + chan');
      out + (chan1 + more');
      (out + chan1) + more';
      (chan + more) + more';
      chan + (more + more');
    }
  }

  /** The channel keeps order: what is taken, and then what is left in it, is what was in it and was pushed. */
  lemma {:induction false} TakenInOrderPushed(s: State, acts: seq<Action>, s': State, w: nat)
    requires w > 0 && IsRun(s, acts, s', w) && OpenWhileProducing(s)
    ensures Taken(s, acts, w) + s'.chan == s.chan + Pushed(s, acts, w)
    ensures s'.received == s.received + Taken(s, acts, w)
    decreases acts
  {
    if acts != [] {
      var s1 := Do(s, acts[0], w);
      ChannelStep(s, acts[0], w);
      TakenInOrderPushed(s1, acts[1..], s', w);
      Chain(TakenNow(s, acts[0]), Taken(s1, acts[1..], w), s.chan, s1.chan, s'.chan,
            PushedNow(s, acts[0]), Pushed(s1, acts[1..], w));
    }
  }
}
