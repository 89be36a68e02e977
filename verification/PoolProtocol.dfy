/** The external executor under any number of threads: one mutex, one condition variable, one queue.
    Every step is what one thread does between two points where another may run. */
module PoolProtocol {
  import opened Jobs

  datatype Pc =
    | Outside                                      // has not called run()
    | Locking                                      // entering run(), wants the mutex
    | Checking                                     // holds the mutex, evaluates the wait's predicate
    | Waiting                                      // blocked on the condition variable, without the mutex
    | Waking                                       // woken, wants the mutex back
    | Serving                                      // holds the mutex, in the inner loop
    | Popped(job: Job)                             // has an item and has released the mutex
    | Running(job: Job, posted: nat, owes: bool)   // inside the item; owes a notify for its latest post
    | Relocking                                    // the item returned, wants the mutex back
    | Returned

  /** `holder` is the thread that holds the mutex, or -1.  `notifies` and `notifyAlls` are the notifications
      that posters outside the pool and request_stop still owe after releasing the mutex.  `roots` are the
      posts from outside, `posted` all posts, `taken` the items dequeued, each in order. */
  datatype State = State(
    queue: seq<Job>, stop: bool, holder: int, pcs: seq<Pc>, prios: seq<nat>, notifies: nat, notifyAlls: nat,
    roots: seq<Job>, posted: seq<Job>, taken: seq<Job>, started: seq<Start>, finished: seq<Job>)

  /** Line numbers are those of external_executor.hpp, and of external_executor.cpp for the priority wrapper. */
  datatype Action =
    | Enter(t: nat)                   // run() is called (39)
    | Lock(t: nat)                    // the mutex is acquired (40, inside wait 42, 52)
    | Check(t: nat)                   // the wait's predicate; if false the thread sleeps and frees the mutex (42-44)
    | Serve(t: nat)                   // inner test; takes the front item and unlocks, returns, or waits again (45-56)
    | Begin(t: nat)                   // the wrapper installs the priority and enters the item (51; cpp:68-71)
    | NestedPost(t: nat)              // the item posts: push_back under the mutex (29-32)
    | NestedNotify(t: nat, u: nat)    // the notify_one of that post, waking u (33)
    | End(t: nat)                     // the item returns (51)
    | Spurious(t: nat)                // a spurious wakeup
    | Post(job: Job)                  // a post from outside the pool: push_back under the mutex (29-32)
    | Notify(u: nat)                  // the notify_one of such a post (33)
    | RequestStop                     // stop_requested = true under the mutex (63-65)
    | NotifyAll                       // its notify_all (66)

  function Init(threads: nat): State {
    State([], false, -1, seq(threads, _ => Outside), seq(threads, _ => 0), 0, 0, [], [], [], [], [])
  }

  predicate IsThread(s: State, t: nat) { t < |s.pcs| == |s.prios| }

  /** notify_one wakes some waiting thread `u`; if there is none it does nothing (u is then no thread). */
  predicate CanWake(s: State, u: nat) {
    if u < |s.pcs| then s.pcs[u].Waiting? else forall t :: 0 <= t < |s.pcs| ==> !s.pcs[t].Waiting?
  }

  predicate Enabled(s: State, a: Action) {
    match a
    case Enter(t) => IsThread(s, t) && s.pcs[t].Outside?
    case Lock(t) =>
      IsThread(s, t) && s.holder == -1 && (s.pcs[t].Locking? || s.pcs[t].Waking? || s.pcs[t].Relocking?)
    case Check(t) => IsThread(s, t) && s.pcs[t].Checking?
    case Serve(t) => IsThread(s, t) && s.pcs[t].Serving?
    case Begin(t) => IsThread(s, t) && s.pcs[t].Popped?
    case NestedPost(t) =>
      IsThread(s, t) && s.holder == -1 && s.pcs[t].Running? && !s.pcs[t].owes && s.pcs[t].posted < |s.pcs[t].job.nested|
    case NestedNotify(t, u) => IsThread(s, t) && s.pcs[t].Running? && s.pcs[t].owes && CanWake(s, u)
    case End(t) =>
      IsThread(s, t) && s.pcs[t].Running? && !s.pcs[t].owes && s.pcs[t].posted >= |s.pcs[t].job.nested|
    case Spurious(t) => IsThread(s, t) && s.pcs[t].Waiting?
    case Post(_) => s.holder == -1
    case Notify(u) => s.notifies > 0 && CanWake(s, u)
    case RequestStop => s.holder == -1 && !s.stop
    case NotifyAll => s.notifyAlls > 0
  }

  function SetPc(s: State, t: nat, pc: Pc): State
    requires t < |s.pcs|
  {
    s.(pcs := s.pcs[t := pc])
  }

  function Wake(s: State, u: nat): State {
    if u < |s.pcs| then SetPc(s, u, Waking) else s
  }

  function PushBack(s: State, job: Job): State {
    s.(queue := s.queue + [job], posted := s.posted + [job])
  }

  function Woken(pc: Pc): Pc { if pc.Waiting? then Waking else pc }

  function Do(s: State, a: Action): State
    requires Enabled(s, a)
  {
    match a
    case Enter(t) => SetPc(s, t, Locking)
    case Lock(t) => SetPc(s, t, if s.pcs[t].Relocking? then Serving else Checking).(holder := t)
    case Check(t) =>
      if s.stop || s.queue != [] then SetPc(s, t, Serving) else SetPc(s, t, Waiting).(holder := -1)
    case Serve(t) =>
      if s.queue != [] then
        SetPc(s, t, Popped(s.queue[0])).(queue := s.queue[1..], taken := s.taken + [s.queue[0]], holder := -1)
      else if s.stop then SetPc(s, t, Returned).(holder := -1)
      else SetPc(s, t, Checking)
    case Begin(t) =>
      var job := s.pcs[t].job;
      var s1 := s.(prios := s.prios[t := job.prio]);
      SetPc(s1, t, Running(job, 0, false)).(started := s.started + [Start(job, s1.prios[t])])
    case NestedPost(t) =>
      var pc := s.pcs[t];
      PushBack(SetPc(s, t, pc.(posted := pc.posted + 1, owes := true)), pc.job.nested[pc.posted])
    case NestedNotify(t, u) => Wake(SetPc(s, t, s.pcs[t].(owes := false)), u)
    case End(t) => SetPc(s, t, Relocking).(finished := s.finished + [s.pcs[t].job])
    case Spurious(t) => SetPc(s, t, Waking)
    case Post(job) => PushBack(s, job).(notifies := s.notifies + 1, roots := s.roots + [job])
    case Notify(u) => Wake(s, u).(notifies := s.notifies - 1)
    case RequestStop => s.(stop := true, notifyAlls := s.notifyAlls + 1)
    case NotifyAll =>
      s.(pcs := seq(|s.pcs|, t requires 0 <= t < |s.pcs| => Woken(s.pcs[t])), notifyAlls := s.notifyAlls - 1)
  }

  predicate InRun(pc: Pc) { !pc.Outside? && !pc.Returned? }

  /** A run; a polite one has no posts from outside the pool once stop has been requested. */
  ghost predicate IsRun(polite: bool, s: State, acts: seq<Action>, s': State)
    decreases acts
  {
    if acts == [] then s' == s
    else
      && Enabled(s, acts[0]) && (polite && s.stop ==> !acts[0].Post?)
      && IsRun(polite, Do(s, acts[0]), acts[1..], s')
  }

  // ---------- Invariants ----------

  predicate HoldsLock(pc: Pc) { pc.Checking? || pc.Serving? }

  ghost predicate LockOk(s: State) {
    && -1 <= s.holder < |s.pcs| == |s.prios|
    && forall t :: 0 <= t < |s.pcs| ==> (HoldsLock(s.pcs[t]) <==> s.holder == t)
  }

  predicate Awake(s: State, t: nat) { t < |s.pcs| && InRun(s.pcs[t]) && !s.pcs[t].Waiting? }

  /** With work queued, the threads inside run() are not all asleep unless somebody is about to notify. */
  ghost predicate NoLostWakeup(s: State) {
    s.queue != [] && (exists t :: 0 <= t < |s.pcs| && InRun(s.pcs[t])) ==>
      s.notifies > 0 || s.notifyAlls > 0 || exists t :: Awake(s, t)
  }

  /** After stop, nobody is asleep once the notify-all has fired. */
  ghost predicate StopWakesAll(s: State) {
    s.stop && s.notifyAlls == 0 ==> forall t :: 0 <= t < |s.pcs| ==> !s.pcs[t].Waiting?
  }

  /** Items leave the queue in posting order, and each is entered under the priority it was posted with. */
  ghost predicate InOrder(s: State) {
    s.posted == s.taken + s.queue && forall i :: 0 <= i < |s.started| ==> s.started[i].prio == s.started[i].job.prio
  }

  ghost predicate Inv(s: State) {
    LockOk(s) && NoLostWakeup(s) && StopWakesAll(s) && InOrder(s)
  }

  lemma StepKeepsLock(s: State, a: Action)
    requires LockOk(s) && Enabled(s, a)
    ensures LockOk(Do(s, a))
  {
  }

  lemma StepKeepsWakeup(s: State, a: Action)
    requires LockOk(s) && NoLostWakeup(s) && Enabled(s, a)
    ensures NoLostWakeup(Do(s, a))
  {
    var s' := Do(s, a);
    if s'.queue != [] {
      match a
      case Enter(t) => assert Awake(s', t);
      case Lock(t) => assert Awake(s', t);
      case Check(t) => assert Awake(s', t);
      case Serve(t) => assert Awake(s', t);
      case Begin(t) => assert Awake(s', t);
      case NestedPost(t) => assert Awake(s', t);
      case NestedNotify(t, _) => assert Awake(s', t);
      case End(t) => assert Awake(s', t);
      case Spurious(t) => assert Awake(s', t);
      case Notify(u) => NotifyWakes(s, u);
      case NotifyAll =>
        forall t | 0 <= t < |s'.pcs| && InRun(s'.pcs[t]) ensures Awake(s', t) {
        }
      case _ =>
    }
  }

  /** A notify leaves somebody awake, if anybody is inside run() at all. */
  lemma NotifyWakes(s: State, u: nat)
    requires Enabled(s, Notify(u))
    ensures var s' := Do(s, Notify(u));
      forall t :: 0 <= t < |s'.pcs| && InRun(s'.pcs[t]) ==> Awake(s', t) || Awake(s', u)
  {
  }

  lemma StepKeepsStop(s: State, a: Action)
    requires StopWakesAll(s) && Enabled(s, a)
    ensures StopWakesAll(Do(s, a))
  {
  }

  lemma StepKeepsOrder(s: State, a: Action)
    requires InOrder(s) && Enabled(s, a)
    ensures InOrder(Do(s, a))
  {
  }
}
