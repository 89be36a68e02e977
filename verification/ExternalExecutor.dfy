/** The external executor as the object it is, with one thread in run while others post and request stop: post,
    request_stop, run, and the adapter's priority-carrying post and post_bulk.  PoolProtocol has any number of
    threads in run. */
module ExternalExecutor {
  import opened Jobs

  lemma Regroup(a: seq<Job>, b: seq<Job>, c: seq<Job>, d: seq<Job>)
    ensures a + (b + (c + d)) == a + b + c + d
  {
  }

  lemma Reorder(
    head: Job, tail: seq<Job>, nested: seq<Job>, posts: seq<Job>, served: seq<Job>, still: seq<Job>)
    requires (tail + nested) + posts == served + still
    ensures ([head] + tail) + (nested + posts) == ([head] + served) + still
  {
    assert ([head] + tail) + (nested + posts) == [head] + ((tail + nested) + posts);
    assert [head] + (served + still) == ([head] + served) + still;
  }

  lemma {:induction false} ChargeMonotone(jobs: seq<Job>)
    ensures CostAll(jobs, 0) <= CostAll(jobs, 2)
  {
    if jobs != [] {
      ChargeMonotone(jobs[1..]);
    }
  }

  /** Serving the head makes the rest cheaper, although what it posts joins the queue. */
  lemma ServingCosts(queue: seq<Job>)
    requires queue != []
    ensures CostAll(queue[1..] + queue[0].nested, 0) < CostAll(queue, 0)
  {
    CostAllAppend(queue[1..], queue[0].nested, 0);
    ChargeMonotone(queue[0].nested);
    assert Cost(queue[0]) == 4 + CostAll(queue[0].nested, 2);
  }

  /** The order in which a queue is served when every job appends what it posts: breadth first. */
  function BreadthFirst(queue: seq<Job>): seq<Job>
    decreases CostAll(queue, 0)
  {
    if queue == [] then [] else
      ServingCosts(queue);
      [queue[0]] + BreadthFirst(queue[1..] + queue[0].nested)
  }

  /** Breadth-first service reaches every job of every tree exactly as often as it occurs. */
  lemma {:induction false} BreadthFirstServesAll(queue: seq<Job>, y: Job)
    ensures multiset(BreadthFirst(queue))[y] == CountAll(queue, y)
    decreases CostAll(queue, 0)
  {
    if queue != [] {
      var rest := queue[1..] + queue[0].nested;
      ServingCosts(queue);
      BreadthFirstServesAll(rest, y);
      CountAllAppend(queue[1..], queue[0].nested, y);
      assert multiset([queue[0]] + BreadthFirst(rest)) == multiset{queue[0]} + multiset(BreadthFirst(rest));
    }
  }

  /** Everything posted so far, in posting order, is what has been served followed by what is queued; so a
      queue is served in posting order, nested posts included. */
  lemma {:induction false} BreadthFirstIsPostingOrder(queue: seq<Job>, n: nat)
    requires n <= |BreadthFirst(queue)|
    ensures queue + Posts(BreadthFirst(queue)[..n]) == BreadthFirst(queue)[..n] + StillQueued(queue, n)
    decreases n
  {
    if n > 0 {
      var head, rest := queue[0], queue[1..] + queue[0].nested;
      var served := BreadthFirst(rest)[..n - 1];
      BreadthFirstIsPostingOrder(rest, n - 1);
      assert BreadthFirst(queue)[..n] == [head] + served;
      assert Posts([head] + served) == head.nested + Posts(served) by {
        assert ([head] + served)[1..] == served;
      }
      Reorder(head, queue[1..], head.nested, Posts(served), served, StillQueued(rest, n - 1));
      assert [head] + queue[1..] == queue;
    }
  }

  function Posts(jobs: seq<Job>): seq<Job> {
    if jobs == [] then [] else jobs[0].nested + Posts(jobs[1..])
  }

  /** The queue after `n` jobs of it, in breadth-first order, have been served. */
  function StillQueued(queue: seq<Job>, n: nat): seq<Job>
    requires n <= |BreadthFirst(queue)|
    decreases n
  {
    if n == 0 then queue else StillQueued(queue[1..] + queue[0].nested, n - 1)
  }

  // ---------- Other threads ----------

  /** What other threads do while this one does not hold the mutex. */
  datatype Meanwhile = Meanwhile(posts: seq<Job>, stop: bool)

  function PostsOf(upcoming: seq<Meanwhile>): seq<Job> { if upcoming == [] then [] else upcoming[0].posts }

  function Drop<T>(s: seq<T>, n: nat): seq<T> { if n <= |s| then s[n..] else [] }

  /** What joins the queue while an item runs: others get in before each of its posts, and before this thread
      has the mutex back. */
  function Woven(posts: seq<Job>, upcoming: seq<Meanwhile>): seq<Job> {
    PostsOf(upcoming) + if posts == [] then [] else [posts[0]] + Woven(posts[1..], Drop(upcoming, 1))
  }

  /** Whether stop is requested in the first `n` of them. */
  function StopsWithin(n: nat, upcoming: seq<Meanwhile>): bool {
    n > 0 && upcoming != [] && (upcoming[0].stop || StopsWithin(n - 1, upcoming[1..]))
  }

  lemma {:induction false} StopsWithinMeans(n: nat, upcoming: seq<Meanwhile>)
    ensures StopsWithin(n, upcoming) <==> exists i :: 0 <= i < n && i < |upcoming| && upcoming[i].stop
  {
    if n > 0 && upcoming != [] {
      StopsWithinMeans(n - 1, upcoming[1..]);
      if i :| 0 < i < n && i < |upcoming| && upcoming[i].stop {
        assert upcoming[1..][i - 1].stop;
      }
    }
  }

  /** The jobs that run serves before it returns, and what others do only later. */
  datatype Served = Served(jobs: seq<Job>, left: seq<Meanwhile>)

  /** The thread serves the queue, then waits for others, until it finds stop requested and the queue empty. An
      action of others that changes nothing is a spurious wakeup; if no others are left they have requested stop. */
  function Service(queue: seq<Job>, stop: bool, upcoming: seq<Meanwhile>): Served
    decreases |upcoming|, CostAll(queue, 0)
  {
    if queue == [] then
      if stop || upcoming == [] then Served([], upcoming)
      else Service(upcoming[0].posts, upcoming[0].stop, upcoming[1..])
    else
      var n := |queue[0].nested| + 1;
      ServingCosts(queue);
      WovenAlone(queue[0].nested);
      var later :=
        Service(queue[1..] + Woven(queue[0].nested, upcoming), stop || StopsWithin(n, upcoming), Drop(upcoming, n));
      Served([queue[0]] + later.jobs, later.left)
  }

  lemma WovenStep(queue: seq<Job>, posts: seq<Job>, upcoming: seq<Meanwhile>)
    requires posts != []
    ensures queue + Woven(posts, upcoming)
         == queue + PostsOf(upcoming) + [posts[0]] + Woven(posts[1..], Drop(upcoming, 1))
    ensures StopsWithin(|posts| + 1, upcoming)
        <==> StopsWithin(1, upcoming) || StopsWithin(|posts|, Drop(upcoming, 1))
  {
    Regroup(queue, PostsOf(upcoming), [posts[0]], Woven(posts[1..], Drop(upcoming, 1)));
    assert StopsWithin(1, upcoming) <==> upcoming != [] && (upcoming[0].stop || StopsWithin(0, upcoming[1..]));
  }

  lemma {:induction false} WovenAlone(posts: seq<Job>)
    ensures Woven(posts, []) == posts
  {
    if posts != [] {
      WovenAlone(posts[1..]);
    }
  }

  function CountPosts(upcoming: seq<Meanwhile>, y: Job): nat {
    if upcoming == [] then 0 else CountAll(upcoming[0].posts, y) + CountPosts(upcoming[1..], y)
  }

  lemma {:induction false} WovenCounts(posts: seq<Job>, upcoming: seq<Meanwhile>, y: Job)
    ensures CountAll(Woven(posts, upcoming), y) + CountPosts(Drop(upcoming, |posts| + 1), y)
         == CountAll(posts, y) + CountPosts(upcoming, y)
  {
    if posts == [] {
      assert Woven(posts, upcoming) == PostsOf(upcoming);
    } else {
      var more := Woven(posts[1..], Drop(upcoming, 1));
      WovenCounts(posts[1..], Drop(upcoming, 1), y);
      CountAllAppend(PostsOf(upcoming), [posts[0]] + more, y);
      CountAllAppend([posts[0]], more, y);
      assert Drop(Drop(upcoming, 1), |posts|) == Drop(upcoming, |posts| + 1);
    }
  }

  /** Serving the head takes one copy of it from what there is to serve. */
  lemma ServingCounts(head: Job, rest: seq<Job>, upcoming: seq<Meanwhile>, y: Job)
    ensures CountAll(rest + Woven(head.nested, upcoming), y) + CountPosts(Drop(upcoming, |head.nested| + 1), y)
         == Count(head, y) + CountAll(rest, y) + CountPosts(upcoming, y) - if head == y then 1 else 0
  {
    CountAllAppend(rest, Woven(head.nested, upcoming), y);
    WovenCounts(head.nested, upcoming, y);
  }

  /** Every job posted before run returns, at whatever depth and by whomever, is served exactly as often as it was
      posted. */
  lemma {:induction false} ServiceServesAll(queue: seq<Job>, stop: bool, upcoming: seq<Meanwhile>, y: Job)
    ensures var s := Service(queue, stop, upcoming);
      multiset(s.jobs)[y] + CountPosts(s.left, y) == CountAll(queue, y) + CountPosts(upcoming, y)
    decreases |upcoming|, CostAll(queue, 0)
  {
    if queue != [] {
      var n, woven := |queue[0].nested| + 1, Woven(queue[0].nested, upcoming);
      ServingCosts(queue);
      WovenAlone(queue[0].nested);
      ServiceServesAll(queue[1..] + woven, stop || StopsWithin(n, upcoming), Drop(upcoming, n), y);
      ServingCounts(queue[0], queue[1..], upcoming, y);
      var later := Service(queue[1..] + woven, stop || StopsWithin(n, upcoming), Drop(upcoming, n));
      assert multiset([queue[0]] + later.jobs) == multiset{queue[0]} + multiset(later.jobs);
    } else if !stop && upcoming != [] {
      ServiceServesAll(upcoming[0].posts, upcoming[0].stop, upcoming[1..], y);
    }
  }

  lemma DropTwice(n: nat, m: nat, upcoming: seq<Meanwhile>)
    ensures Drop(Drop(upcoming, n), m) == Drop(upcoming, n + m)
  {
  }

  lemma StopsSplit(n: nat, m: nat, upcoming: seq<Meanwhile>)
    ensures StopsWithin(n + m, upcoming) <==> StopsWithin(n, upcoming) || StopsWithin(m, Drop(upcoming, n))
  {
    StopsWithinMeans(n + m, upcoming);
    StopsWithinMeans(n, upcoming);
    StopsWithinMeans(m, Drop(upcoming, n));
    if i :| 0 <= i < n + m && i < |upcoming| && upcoming[i].stop {
      assert i >= n ==> Drop(upcoming, n)[i - n].stop;
    }
    if i :| 0 <= i < m && i < |Drop(upcoming, n)| && Drop(upcoming, n)[i].stop {
      assert upcoming[n + i].stop;
    }
  }

  /** After an item, or after a wait, that let others in `n` times. */
  lemma TakenBefore(n: nat, later: nat, stop: bool, upcoming: seq<Meanwhile>, left: seq<Meanwhile>)
    requires left == Drop(Drop(upcoming, n), later)
    requires left != [] ==> stop || StopsWithin(n, upcoming) || StopsWithin(later, Drop(upcoming, n))
    ensures left == Drop(upcoming, n + later) && (left != [] ==> stop || StopsWithin(n + later, upcoming))
  {
    DropTwice(n, later, upcoming);
    StopsSplit(n, later, upcoming);
  }

  lemma {:induction false} TakenFromFront(queue: seq<Job>, stop: bool, upcoming: seq<Meanwhile>)
    returns (taken: nat)
    ensures var left := Service(queue, stop, upcoming).left;
      left == Drop(upcoming, taken) && (left != [] ==> stop || StopsWithin(taken, upcoming))
    decreases |upcoming|, CostAll(queue, 0)
  {
    if queue != [] {
      var n := |queue[0].nested| + 1;
      var after := queue[1..] + Woven(queue[0].nested, upcoming);
      ServingCosts(queue);
      WovenAlone(queue[0].nested);
      var later := TakenFromFront(after, stop || StopsWithin(n, upcoming), Drop(upcoming, n));
      taken := n + later;
      TakenBefore(n, later, stop, upcoming, Service(queue, stop, upcoming).left);
    } else if !stop && upcoming != [] {
      var later := TakenFromFront(upcoming[0].posts, upcoming[0].stop, upcoming[1..]);
      taken := 1 + later;
      TakenBefore(1, later, stop, upcoming, Service(queue, stop, upcoming).left);
    } else {
      taken := 0;
    }
  }

  /** What others do is taken from the front, and some is left only if one of those that got in, or somebody before
      them, had requested stop. */
  lemma LeftOnlyAfterStop(queue: seq<Job>, stop: bool, upcoming: seq<Meanwhile>) returns (taken: nat)
    ensures Service(queue, stop, upcoming).left == Drop(upcoming, taken)
    ensures taken < |upcoming| ==> stop || exists i :: 0 <= i < taken && upcoming[i].stop
  {
    taken := TakenFromFront(queue, stop, upcoming);
    StopsWithinMeans(taken, upcoming);
  }

  /** With nobody else about, service is breadth first. */
  lemma {:induction false} ServiceAlone(queue: seq<Job>, stop: bool)
    ensures Service(queue, stop, []) == Served(BreadthFirst(queue), [])
    decreases CostAll(queue, 0)
  {
    if queue != [] {
      ServingCosts(queue);
      WovenAlone(queue[0].nested);
      ServiceAlone(queue[1..] + queue[0].nested, stop);
    }
  }

  function Starts(jobs: seq<Job>): seq<Start> {
    seq(|jobs|, i requires 0 <= i < |jobs| => Start(jobs[i], jobs[i].prio))
  }

  lemma StartsAppend(jobs: seq<Job>, more: seq<Job>)
    ensures Starts(jobs + more) == Starts(jobs) + Starts(more)
  {
  }

  lemma StartsHead(started: seq<Start>, head: Job, jobs: seq<Job>)
    ensures started + Starts([head] + jobs) == started + [Start(head, head.prio)] + Starts(jobs)
  {
    StartsAppend([head], jobs);
    assert Starts([head]) == [Start(head, head.prio)];
  }

  /** A moment at which other threads had the mutex: whether this one was inside an item, and what it had found. */
  datatype Moment = Moment(inItem: bool, stop: bool, queued: nat)

  /** Since `before` there have been `count` moments, each inside an item, or asleep with no stop requested and
      nothing queued. */
  ghost predicate MomentsSince(before: seq<Moment>, moments: seq<Moment>, count: int) {
    && before <= moments && |moments| == |before| + count
    && forall i :: |before| <= i < |moments| ==> moments[i].inItem || (!moments[i].stop && moments[i].queued == 0)
  }

  class Executor {
    var queue: seq<Job>
    var stopRequested: bool
    var threadPrio: nat            // the calling thread's this_task().prio
    var started: seq<Start>        // what has been run, in order
    var posted: seq<Job>           // what has been posted, by whomever, in order
    var notifies: nat              // calls of notify_one
    var notifyAlls: nat            // calls of notify_all
    var inItem: bool               // whether this thread is inside an item
    var upcoming: seq<Meanwhile>   // what other threads do, each time this one does not hold the mutex
    var moments: seq<Moment>       // when they did it

    /** What has been posted has been started, under the priority it was posted with, or is queued, in posting
        order; and there has been a notification for each. */
    ghost predicate Valid()
      reads this
    {
      Starts(posted) == started + Starts(queue) && notifies == |posted|
    }

    constructor (upcoming: seq<Meanwhile>)
      ensures Valid() && queue == [] && !stopRequested && started == [] && this.upcoming == upcoming
      ensures notifyAlls == 0 && !inItem && moments == []
    {
      queue, stopRequested, threadPrio, started, posted := [], false, 0, [], [];
      notifies, notifyAlls := 0, 0;
      this.upcoming, inItem, moments := upcoming, false, [];
    }

    /** What run has still to serve. */
    ghost function Ahead(): Served
      reads this
    {
      Service(queue, stopRequested, upcoming)
    }

    /** The adapter's post: the priority travels with the item. */
    method Post(job: Job)
      requires Valid()
      modifies this`queue, this`posted, this`notifies
      ensures Valid() && queue == old(queue) + [job] && posted == old(posted) + [job] && notifies == old(notifies) + 1
    {
      StartsAppend(queue, [job]);
      StartsAppend(posted, [job]);
      queue, posted := queue + [job], posted + [job];
      notifies := notifies + 1;
    }

    /** The adapter's post_bulk: item by item, all with the one given priority. */
    method PostBulk(jobs: seq<Job>, prio: nat)
      requires Valid()
      modifies this`queue, this`posted, this`notifies
      ensures Valid() && |queue| == |old(queue)| + |jobs| && old(queue) <= queue
      ensures forall i :: 0 <= i < |jobs| ==> queue[|old(queue)| + i] == jobs[i].(prio := prio)
      ensures notifies == old(notifies) + |jobs|
    {
      for i := 0 to |jobs|
        invariant Valid() && |queue| == |old(queue)| + i && old(queue) <= queue
        invariant forall m :: 0 <= m < i ==> queue[|old(queue)| + m] == jobs[m].(prio := prio)
        invariant notifies == old(notifies) + i
      {
        Post(jobs[i].(prio := prio));
      }
    }

    method RequestStop()
      modifies this`stopRequested, this`notifyAlls
      ensures stopRequested && notifyAlls == old(notifyAlls) + 1
    {
      stopRequested := true;
      notifyAlls := notifyAlls + 1;
    }

    /** This thread gives up the mutex only for an item, or to sleep while neither stop has been requested nor
        work is queued. */
    ghost predicate WithoutMutex()
      reads this
    {
      inItem || (!stopRequested && queue == [])
    }

    /** Other threads act while this one does not hold the mutex. */
    method Others()
      requires Valid() && WithoutMutex()
      modifies this`queue, this`posted, this`notifies, this`stopRequested, this`notifyAlls, this`upcoming, this`moments
      ensures Valid() && queue == old(queue) + PostsOf(old(upcoming))
      ensures stopRequested == (old(stopRequested) || StopsWithin(1, old(upcoming)))
      ensures upcoming == Drop(old(upcoming), 1)
      ensures moments == old(moments) +
        if old(upcoming) == [] then [] else [Moment(inItem, old(stopRequested), |old(queue)|)]
    {
      if upcoming != [] {
        var now := upcoming[0];
        moments := moments + [Moment(inItem, stopRequested, |queue|)];
        for i := 0 to |now.posts|
          invariant Valid() && queue == old(queue) + now.posts[..i]
          invariant upcoming == old(upcoming) && stopRequested == old(stopRequested)
          invariant moments == old(moments) + [Moment(inItem, old(stopRequested), |old(queue)|)]
        {
          Post(now.posts[i]);
        }
        upcoming := upcoming[1..];
        if now.stop {
          RequestStop();
        }
      }
    }

    /** Waits on the condition variable until its predicate holds; a wakeup re-checks the predicate. */
    method Wait()
      requires Valid() && !inItem
      modifies this`queue, this`posted, this`notifies, this`stopRequested, this`notifyAlls, this`upcoming, this`moments
      ensures Valid() && (stopRequested || queue != [])
      ensures Ahead() == old(Ahead())
      ensures old(stopRequested || queue != []) ==> unchanged(this)
      ensures |upcoming| <= |old(upcoming)|
      ensures stopRequested || old(queue != []) || |upcoming| < |old(upcoming)|
      ensures MomentsSince(old(moments), moments, |old(upcoming)| - |upcoming|)
    {
      while !(stopRequested || queue != [])
        invariant Valid() && Ahead() == old(Ahead()) && |upcoming| <= |old(upcoming)|
        invariant old(stopRequested || queue != []) ==> unchanged(this)
        invariant stopRequested || old(queue != []) || queue == [] || |upcoming| < |old(upcoming)|
        invariant MomentsSince(old(moments), moments, |old(upcoming)| - |upcoming|)
        decreases !stopRequested, |upcoming|
      {
        if upcoming == [] {
          RequestStop();
        } else {
          ghost var now := upcoming[0];
          Others();
          assert queue == now.posts && stopRequested == now.stop;
        }
      }
    }

    /** A running item posts, after other threads have got in. */
    method NestedPost(job: Job)
      requires Valid() && inItem
      modifies this`queue, this`posted, this`notifies, this`stopRequested, this`notifyAlls, this`upcoming, this`moments
      ensures Valid() && queue == old(queue) + PostsOf(old(upcoming)) + [job]
      ensures stopRequested == (old(stopRequested) || StopsWithin(1, old(upcoming)))
      ensures upcoming == Drop(old(upcoming), 1)
      ensures MomentsSince(old(moments), moments, |old(upcoming)| - |upcoming|)
    {
      Others();
      Post(job);
    }

    /** What an item does: it posts what it posts, while other threads get in between, and once more before this
        thread has the mutex back. */
    method PostNested(job: Job)
      requires Valid() && inItem
      modifies this`queue, this`posted, this`notifies, this`stopRequested, this`notifyAlls, this`upcoming, this`moments
      ensures Valid() && queue == old(queue) + Woven(job.nested, old(upcoming))
      ensures stopRequested == (old(stopRequested) || StopsWithin(|job.nested| + 1, old(upcoming)))
      ensures upcoming == Drop(old(upcoming), |job.nested| + 1)
      ensures MomentsSince(old(moments), moments, |old(upcoming)| - |upcoming|)
    {
      ghost var rest, all := job.nested, queue + Woven(job.nested, upcoming);
      ghost var stops := stopRequested || StopsWithin(|job.nested| + 1, upcoming);
      for i := 0 to |job.nested|
        invariant Valid() && rest == job.nested[i..] && upcoming == Drop(old(upcoming), i)
        invariant queue + Woven(rest, upcoming) == all && (stopRequested || StopsWithin(|rest| + 1, upcoming)) == stops
        invariant MomentsSince(old(moments), moments, |old(upcoming)| - |upcoming|)
      {
        WovenStep(queue, rest, upcoming);
        NestedPost(job.nested[i]);
        rest := rest[1..];
      }
      assert Woven(rest, upcoming) == PostsOf(upcoming);
      Others();
    }

    /** Runs one item: the wrapper installs the item's priority, then the item posts what it posts. */
    method Work(job: Job)
      requires Starts(posted) == started + [Start(job, job.prio)] + Starts(queue) && notifies == |posted| && !inItem
      modifies this
      ensures Valid() && !inItem && started == old(started) + [Start(job, job.prio)] && threadPrio == job.prio
      ensures queue == old(queue) + Woven(job.nested, old(upcoming))
      ensures stopRequested == (old(stopRequested) || StopsWithin(|job.nested| + 1, old(upcoming)))
      ensures upcoming == Drop(old(upcoming), |job.nested| + 1)
      ensures MomentsSince(old(moments), moments, |old(upcoming)| - |upcoming|)
    {
      threadPrio, inItem := job.prio, true;
      started := started + [Start(job, threadPrio)];
      PostNested(job);
      inItem := false;
    }

    /** What run has started and what it has still to start, in order. */
    ghost function Trace(): seq<Start>
      reads this
    {
      started + Starts(Ahead().jobs)
    }

    /** Takes the oldest item off the queue and runs it, without the lock. */
    method ServeOldest()
      requires Valid() && queue != [] && !inItem
      modifies this
      ensures Valid() && !inItem && started == old(started) + [Start(old(queue)[0], old(queue)[0].prio)]
      ensures queue == old(queue)[1..] + Woven(old(queue)[0].nested, old(upcoming))
      ensures upcoming == Drop(old(upcoming), |old(queue)[0].nested| + 1)
      ensures Trace() == old(Trace()) && Ahead().left == old(Ahead().left)
      ensures old(stopRequested) ==> stopRequested
      ensures MomentsSince(old(moments), moments, |old(upcoming)| - |upcoming|)
    {
      var work := queue[0];
      StartsHead(started, work, queue[1..]);
      assert [work] + queue[1..] == queue;
      queue := queue[1..];
      Work(work);
      assert old(Ahead()).jobs == [work] + Ahead().jobs;
      StartsHead(old(started), work, Ahead().jobs);
    }

    /** run returns only after stop has been requested and with the queue empty, and it returns as soon as it finds
        that: others get in only while an item runs or while it sleeps with neither.  By then everything ever
        posted has been started, nested posts and those of other threads included, in posting order and each item
        under the priority it was posted with. */
    method Run()
      requires Valid() && !inItem
      modifies this
      ensures Valid() && !inItem && queue == [] && stopRequested && started == Starts(posted)
      ensures started == old(started) + Starts(old(Ahead()).jobs) && upcoming == old(Ahead()).left
      ensures MomentsSince(old(moments), moments, |old(upcoming)| - |upcoming|)
      ensures old(stopRequested && queue == []) ==>
        started == old(started) && posted == old(posted) && upcoming == old(upcoming) && moments == old(moments)
    {
      while true
        invariant Valid() && !inItem && Trace() == old(Trace()) && Ahead().left == old(Ahead()).left
        invariant MomentsSince(old(moments), moments, |old(upcoming)| - |upcoming|)
        invariant old(stopRequested && queue == []) ==> unchanged(this)
        decreases |upcoming|, if queue == [] then 0 else 1
      {
        Wait();
        ghost var stopped, others := stopRequested, |upcoming|;
        while queue != []
          invariant Valid() && !inItem && Trace() == old(Trace()) && Ahead().left == old(Ahead()).left
          invariant MomentsSince(old(moments), moments, |old(upcoming)| - |upcoming|)
          invariant old(stopRequested && queue == []) ==> unchanged(this)
          invariant |upcoming| <= others && (stopped ==> stopRequested)
          decreases |upcoming|, CostAll(queue, 0)
        {
          ServingCosts(queue);
          WovenAlone(queue[0].nested);
          ServeOldest();
        }
        if stopRequested {
          return;
        }
      }
    }
  }
}
