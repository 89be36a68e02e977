/** What the threads of the pool wait for, whom a notification may wake, and how many notifications there are. */
module PoolWaiting {
  import opened Sums
  import opened Jobs
  import opened PoolProtocol
  import opened PoolDrain

  // ---------- Threads ----------

  /** The steps of thread t; a spurious wakeup is nobody's. */
  predicate IsStepOf(a: Action, t: nat) { ThreadStep(a) && !a.Spurious? && a.t == t }

  predicate WantsMutex(pc: Pc) {
    || pc.Locking? || pc.Waking? || pc.Relocking?
    || (pc.Running? && !pc.owes && pc.posted < |pc.job.nested|)
  }

  lemma StepNeeds(s: State, a: Action, t: nat)
    requires Enabled(s, a) && IsStepOf(a, t)
    ensures t < |s.pcs| && !s.pcs[t].Returned? && !s.pcs[t].Waiting? && (WantsMutex(s.pcs[t]) ==> s.holder == -1)
  {
  }

  lemma StepExists(s: State, t: nat) returns (a: Action)
    requires LockOk(s) && t < |s.pcs| && !s.pcs[t].Returned? && !s.pcs[t].Waiting?
    requires WantsMutex(s.pcs[t]) ==> s.holder == -1
    ensures IsStepOf(a, t) && Enabled(s, a)
  {
    match s.pcs[t]
    case Outside => a := Enter(t);
    case Checking => a := Check(t);
    case Serving => a := Serve(t);
    case Popped(_) => a := Begin(t);
    case Running(job, posted, owes) =>
      if owes {
        var u := SomebodyToWake(s);
        a := NestedNotify(t, u);
      } else {
        a := if posted < |job.nested| then NestedPost(t) else End(t);
      }
    case _ => a := Lock(t);
  }

  /** A thread that has not returned sleeps on the condition variable, or waits for the mutex, which another thread
      then holds for a moment; and for nothing else. */
  lemma ThreadWaits(polite: bool, threads: nat, acts: seq<Action>, s: State, t: nat)
    requires IsRun(polite, Init(threads), acts, s) && t < threads
    ensures |s.pcs| == threads
    ensures (exists a :: IsStepOf(a, t) && Enabled(s, a)) <==>
      !s.pcs[t].Returned? && !s.pcs[t].Waiting? && (WantsMutex(s.pcs[t]) ==> s.holder == -1)
    ensures s.holder != -1 ==> 0 <= s.holder < threads && (s.pcs[s.holder].Checking? || s.pcs[s.holder].Serving?)
  {
    ReachablePool(polite, threads, acts, s);
    ThreadsStay(polite, Init(threads), acts, s);
    if a :| IsStepOf(a, t) && Enabled(s, a) {
      StepNeeds(s, a, t);
    }
    if !s.pcs[t].Returned? && !s.pcs[t].Waiting? && (WantsMutex(s.pcs[t]) ==> s.holder == -1) {
      var _ := StepExists(s, t);
    }
  }

  /** Whoever sleeps may be the one that a notification, or chance, wakes; the others sleep on. */
  lemma AnySleeperMayWake(s: State, u: nat, t: nat)
    requires u < |s.pcs| == |s.prios| && s.pcs[u].Waiting?
    ensures Enabled(s, Spurious(u)) && Do(s, Spurious(u)).pcs == s.pcs[u := Waking]
    ensures s.notifies > 0 ==> Enabled(s, Notify(u)) && Do(s, Notify(u)).pcs == s.pcs[u := Waking]
    ensures t < |s.pcs| && s.pcs[t].Running? && s.pcs[t].owes ==>
      && Enabled(s, NestedNotify(t, u))
      && Do(s, NestedNotify(t, u)).pcs == s.pcs[t := s.pcs[t].(owes := false)][u := Waking]
  {
  }

  /** Whoever posts or requests stop from outside waits for the mutex only, and what they owe afterwards, the
      notify or the notify to all, they can always send. */
  lemma OutsidersWait(polite: bool, threads: nat, acts: seq<Action>, s: State, job: Job)
    requires IsRun(polite, Init(threads), acts, s)
    ensures Enabled(s, Post(job)) <==> s.holder == -1
    ensures Enabled(s, RequestStop) <==> s.holder == -1 && Tally(acts, Stops) == 0
    ensures (exists u :: Enabled(s, Notify(u))) <==> s.notifies > 0
    ensures Enabled(s, NotifyAll) <==> s.notifyAlls > 0
  {
    RunStops(polite, Init(threads), acts, s);
    var u := SomebodyToWake(s);
    assert s.notifies > 0 ==> Enabled(s, Notify(u));
  }

  lemma {:induction false} RunStops(polite: bool, s: State, acts: seq<Action>, s': State)
    requires IsRun(polite, s, acts, s')
    ensures s'.stop <==> s.stop || Tally(acts, Stops) > 0
    decreases acts
  {
    if acts != [] {
      RunStops(polite, Do(s, acts[0]), acts[1..], s');
    }
  }

  // ---------- Notifications ----------

  datatype Kind = Posts | NestedPosts | Stops | Notifies | NestedNotifies | NotifyAlls

  function Is(a: Action, kind: Kind): nat {
    match kind
    case Posts => if a.Post? then 1 else 0
    case NestedPosts => if a.NestedPost? then 1 else 0
    case Stops => if a.RequestStop? then 1 else 0
    case Notifies => if a.Notify? then 1 else 0
    case NestedNotifies => if a.NestedNotify? then 1 else 0
    case NotifyAlls => if a.NotifyAll? then 1 else 0
  }

  /** How many steps of a run are of a kind. */
  function Tally(acts: seq<Action>, kind: Kind): nat {
    if acts == [] then 0 else Is(acts[0], kind) + Tally(acts[1..], kind)
  }

  function Owes(pc: Pc): int { if pc.Running? && pc.owes then 1 else 0 }

  lemma StepOwes(s: State, a: Action)
    requires Enabled(s, a)
    ensures Do(s, a).notifies == s.notifies + Is(a, Posts) - Is(a, Notifies)
    ensures Do(s, a).notifyAlls == s.notifyAlls + Is(a, Stops) - Is(a, NotifyAlls)
    ensures Sum(Do(s, a).pcs, Owes) == Sum(s.pcs, Owes) + Is(a, NestedPosts) - Is(a, NestedNotifies)
    ensures |Do(s, a).roots| == |s.roots| + Is(a, Posts)
    ensures |Do(s, a).posted| == |s.posted| + Is(a, Posts) + Is(a, NestedPosts)
  {
    StepSum(s, a, Owes);
  }

  lemma {:induction false} RunOwes(polite: bool, s: State, acts: seq<Action>, s': State)
    requires IsRun(polite, s, acts, s')
    ensures s'.notifies + Tally(acts, Notifies) == s.notifies + Tally(acts, Posts)
    ensures s'.notifyAlls + Tally(acts, NotifyAlls) == s.notifyAlls + Tally(acts, Stops)
    ensures Sum(s'.pcs, Owes) + Tally(acts, NestedNotifies) == Sum(s.pcs, Owes) + Tally(acts, NestedPosts)
    ensures |s'.roots| == |s.roots| + Tally(acts, Posts)
    ensures |s'.posted| == |s.posted| + Tally(acts, Posts) + Tally(acts, NestedPosts)
    decreases acts
  {
    if acts != [] {
      StepOwes(s, acts[0]);
      RunOwes(polite, Do(s, acts[0]), acts[1..], s');
    }
  }

  /** In every state of every run the notifications sent and those still owed are one for each post, of whichever
      sort, and one to all for the request to stop. */
  lemma OneNotifyPerPost(polite: bool, threads: nat, acts: seq<Action>, s: State)
    requires IsRun(polite, Init(threads), acts, s)
    ensures Tally(acts, Notifies) + s.notifies == Tally(acts, Posts) == |s.roots|
    ensures Tally(acts, NestedNotifies) + Sum(s.pcs, Owes) == Tally(acts, NestedPosts) == |s.posted| - |s.roots|
    ensures Tally(acts, NotifyAlls) + s.notifyAlls == Tally(acts, Stops)
  {
    SumOfZeros(Init(threads).pcs, Owes);
    RunOwes(polite, Init(threads), acts, s);
  }
}
