/** What a coroutine does, in the order in which it does it. */
module Journals {

  /** One per coroutine; the objects it calls write in it. */
  class Journal<E> {
    var events: seq<E>

    constructor ()
      ensures events == []
    {
      events := [];
    }

    method Add(e: E)
      modifies this
      ensures events == old(events) + [e]
    {
      events := events + [e];
    }
  }

  /** The same round of events `n` times. */
  function Rounds<E>(round: seq<E>, n: nat): seq<E> { if n == 0 then [] else Rounds(round, n - 1) + round }

  /** A round that has begun with a pull, and the pull that begins the next one. */
  lemma RoundDone<E>(before: seq<E>, rounds: seq<E>, pulled: E, middle: seq<E>, last: E)
    ensures before + rounds + [pulled] + middle + [last, pulled]
         == before + (rounds + ([pulled] + middle + [last])) + [pulled]
  {
  }

  /** `steps` go round a loop whose body is `round`, from its `at`-th step on; where a round would begin they may
      instead leave the loop and take the steps of `exit`. */
  ghost predicate FollowsLoop<E>(round: seq<E>, exit: seq<E>, at: nat, steps: seq<E>)
    requires at < |round|
    decreases |steps|
  {
    || steps == []
    || (steps[0] == round[at] && FollowsLoop(round, exit, if at + 1 == |round| then 0 else at + 1, steps[1..]))
    || (at == 0 && steps <= exit)
  }
}
