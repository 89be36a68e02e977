/** What a pipeline computes, whichever way it is scheduled: the stage functions applied in order. */
module Stages {

  /** A transform stage: its total processing function, and how many items it may work on at once
      (the `parallelism` of the FIFO pipeline, the `workerCount` of the unordered one).
      Values of every C++ stage type live in the one type T. */
  datatype Stage<!T> = Stage(f: T -> T, width: nat)

  function Parallelism<T>(stage: Stage<T>): int { stage.width }

  function Min(a: nat, b: nat): nat { if a < b then a else b }

  /** One function applied to every element, in order. */
  function Map<T, U>(f: T -> U, xs: seq<T>): seq<U> { seq(|xs|, i requires 0 <= i < |xs| => f(xs[i])) }

  /** The value that input `x` has become after the first `k` stages. */
  function Through<T>(stages: seq<Stage<T>>, k: nat, x: T): T
    requires k <= |stages|
  {
    if k == 0 then x else stages[k - 1].f(Through(stages, k - 1, x))
  }

  /** Every input mapped through all stages, in input order. */
  function Mapped<T>(stages: seq<Stage<T>>, inputs: seq<T>): seq<T> {
    seq(|inputs|, i requires 0 <= i < |inputs| => Through(stages, |stages|, inputs[i]))
  }

  /** The value that `x`, entering stage `k`, will be when it leaves the last stage. */
  function From<T>(stages: seq<Stage<T>>, k: nat, x: T): T
    decreases |stages| - k
  {
    if k >= |stages| then x else From(stages, k + 1, stages[k].f(x))
  }

  lemma {:induction false} FromThrough<T>(stages: seq<Stage<T>>, k: nat, x: T)
    requires k <= |stages|
    ensures From(stages, k, Through(stages, k, x)) == Through(stages, |stages|, x)
    decreases |stages| - k
  {
    if k < |stages| {
      FromThrough(stages, k + 1, x);
    }
  }
}
