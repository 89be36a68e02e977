/** Work items of the external executor: an item is posted with a priority, and while it runs it may post
    further items, each again with its own priority. */
module Jobs {

  datatype Job = Job(id: nat, prio: nat, nested: seq<Job>)

  /** An item and the thread-local priority in force when it was entered. */
  datatype Start = Start(job: Job, prio: nat)

  /** How often `y` occurs among `job` and everything it posts, directly or through what it posts. */
  function Count(job: Job, y: Job): nat
    decreases job
  {
    (if job == y then 1 else 0) + CountAll(job.nested, y)
  }

  function CountAll(jobs: seq<Job>, y: Job): nat
    decreases jobs
  {
    if jobs == [] then 0 else Count(jobs[0], y) + CountAll(jobs[1..], y)
  }

  lemma {:induction false} CountAllAppend(jobs: seq<Job>, more: seq<Job>, y: Job)
    ensures CountAll(jobs + more, y) == CountAll(jobs, y) + CountAll(more, y)
  {
    if jobs == [] {
      assert jobs + more == more;
    } else {
      assert (jobs + more)[1..] == jobs[1..] + more;
      CountAllAppend(jobs[1..], more, y);
    }
  }

  /** Bounds the steps a queued job and everything it posts can cause. */
  function Cost(job: Job): nat
    decreases job
  {
    4 + CostAll(job.nested, 2)
  }

  /** `each` is charged on top for every job in the list: 2 for jobs still to be posted, 0 for queued ones. */
  function CostAll(jobs: seq<Job>, each: nat): nat
    decreases jobs
  {
    if jobs == [] then 0 else each + Cost(jobs[0]) + CostAll(jobs[1..], each)
  }

  lemma CostFrom(jobs: seq<Job>, i: nat, each: nat)
    requires i < |jobs|
    ensures CostAll(jobs[i..], each) == each + Cost(jobs[i]) + CostAll(jobs[i + 1..], each)
  {
    assert jobs[i..][1..] == jobs[i + 1..];
  }

  lemma {:induction false} CostAllAppend(jobs: seq<Job>, more: seq<Job>, each: nat)
    ensures CostAll(jobs + more, each) == CostAll(jobs, each) + CostAll(more, each)
  {
    if jobs == [] {
      assert jobs + more == more;
    } else {
      assert (jobs + more)[1..] == jobs[1..] + more;
      CostAllAppend(jobs[1..], more, each);
    }
  }
}
