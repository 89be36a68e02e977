/** Posts from outside the pool after stop has been requested: when exactly the pool still drains. */
module PoolLatePosts {
  import opened PoolProtocol
  import opened PoolDrain
  import opened Jobs

  predicate SomeEnters(acts: seq<Action>) {
    acts != [] && (acts[0].Enter? || SomeEnters(acts[1..]))
  }

  /** Every post from outside finds a thread inside run(), or some thread enters run() after it. */
  ghost predicate Heard(s: State, acts: seq<Action>)
    decreases acts
  {
    acts != [] ==>
      && Enabled(s, acts[0])
      && (acts[0].Post? ==> SomeInRun(s) || SomeEnters(acts[1..]))
      && Heard(Do(s, acts[0]), acts[1..])
  }

  /** A thread leaves run() only by finding the pool stopped and its queue empty, and comes in only by entering. */
  lemma StepInRun(s: State, a: Action)
    requires Enabled(s, a)
    ensures a.Enter? ==> SomeInRun(Do(s, a))
    ensures ThreadStep(a) && !a.Enter? ==> SomeInRun(s)
    ensures !a.Enter? && !(a.Serve? && s.queue == [] && s.stop) ==> (SomeInRun(Do(s, a)) <==> SomeInRun(s))
  {
    var s' := Do(s, a);
    if ThreadStep(a) && !(a.Serve? && s.queue == [] && s.stop) {
      assert InRun(s'.pcs[a.t]);
      assert a.Enter? || InRun(s.pcs[a.t]);
    } else if a.Serve? {
      assert InRun(s.pcs[a.t]);
    } else {
      assert forall t :: 0 <= t < |s.pcs| ==> (InRun(s'.pcs[t]) <==> InRun(s.pcs[t]));
    }
  }

  /** When nobody is left inside run(), the queue is empty exactly if every post, and whatever was queued to
      begin with, was heard by somebody. */
  lemma {:induction false} QueueEmptyIffHeard(s: State, acts: seq<Action>, s': State)
    requires IsRun(false, s, acts, s') && !SomeInRun(s')
    ensures s'.queue == [] <==> Heard(s, acts) && (s.queue != [] ==> SomeInRun(s) || SomeEnters(acts))
    decreases acts
  {
    if acts != [] {
      StepInRun(s, acts[0]);
      QueueEmptyIffHeard(Do(s, acts[0]), acts[1..], s');
    }
  }

  /** The drain, whoever posts when.  With nobody left inside run(), everything posted has been run exactly
      once if and only if every post found a thread inside run() or was followed by one entering. */
  lemma DrainedIffEveryPostHeard(threads: nat, acts: seq<Action>, s: State)
    requires IsRun(false, Init(threads), acts, s) && !SomeInRun(s)
    ensures AllRunOnce(s) <==> Heard(Init(threads), acts)
  {
    QueueEmptyIffHeard(Init(threads), acts, s);
    IdlePoolIsDrainedIffEmpty(false, threads, acts, s);
  }

  /** A run in which the one thread finds the pool stopped, and returns. */
  lemma StoppedAtOnce() returns (acts: seq<Action>, s: State)
    ensures IsRun(false, Init(1), acts, s) && s.stop && s.pcs == [Returned] && s.queue == [] && s.holder == -1
  {
    acts, s := [RequestStop], Do(Init(1), RequestStop);
    assert IsRun(false, s, [], s);
    acts, s := RunExtends(Init(1), acts, s, Enter(0));
    acts, s := RunExtends(Init(1), acts, s, Lock(0));
    acts, s := RunExtends(Init(1), acts, s, Check(0));
    acts, s := RunExtends(Init(1), acts, s, Serve(0));
  }

  /** Unheard posts exist: a job posted from outside after the last run() has returned stays in the queue. */
  lemma LatePostIsStranded(job: Job) returns (acts: seq<Action>, s: State)
    ensures IsRun(false, Init(1), acts, s) && s.stop && SomeReturned(s) && !SomeInRun(s)
    ensures s.queue == [job] && !AllRunOnce(s)
  {
    acts, s := StoppedAtOnce();
    acts, s := RunExtends(Init(1), acts, s, Post(job));
    assert s.pcs[0].Returned?;
  }

  lemma {:induction false} RunExtends(s: State, acts: seq<Action>, mid: State, a: Action)
    returns (acts': seq<Action>, s': State)
    requires IsRun(false, s, acts, mid) && Enabled(mid, a)
    ensures acts' == acts + [a] && s' == Do(mid, a) && IsRun(false, s, acts', s')
    decreases acts
  {
    acts', s' := acts + [a], Do(mid, a);
    if acts == [] {
      assert IsRun(false, s', [], s');
    } else {
      assert acts'[1..] == acts[1..] + [a];
      var _, _ := RunExtends(Do(s, acts[0]), acts[1..], mid, a);
    }
  }
}
