/** The skynet benchmark: a tree of tasks, ten children each, whose leaves return consecutive numbers. */
module Skynet {
  import opened WordArithmetic

  function Pow10(n: nat): (p: nat)
    ensures p >= 1
  {
    if n == 0 then 1 else 10 * Pow10(n - 1)
  }

  /** What the child with index `idx` should return, before wrapping: the sum of its `size` leaves. */
  ghost function ChildSum(base: nat, size: nat, idx: nat): nat { RangeSum(base + size * idx, size) }

  ghost function FirstChildren(base: nat, size: nat, k: nat): nat {
    if k == 0 then 0 else FirstChildren(base, size, k - 1) + ChildSum(base, size, k - 1)
  }

  /** The first `k` children cover the first k * size leaves. */
  lemma {:induction false} ChildrenCover(base: nat, size: nat, k: nat)
    ensures FirstChildren(base, size, k) == RangeSum(base, k * size)
  {
    if k > 0 {
      ChildrenCover(base, size, k - 1);
      RangeSumSplit(base, (k - 1) * size, size);
      assert (k - 1) * size + size == k * size;
    }
  }

  /** The base that a child is started with, computed with wrapping words. */
  lemma ChildBase(base: nat, size: nat, idx: nat, w: nat)
    requires w > 0
    ensures (base + (size % w) * idx % w) % w == (base + size * idx) % w
  {
    ModMul(size, idx, w);
    ModAddRight(base, size * idx, w);
    ModAddRight(base, (size % w) * idx, w);
  }

  /** The loop that computes the number of leaves below each child. */
  method DepthOffset(levels: nat, w: nat) returns (depthOffset: nat)
    requires w > 1
    ensures depthOffset == Pow10(levels) % w
  {
    depthOffset := 1;
    for i := 0 to levels
      invariant depthOffset == Pow10(i) % w
    {
      ModMul(Pow10(i), 10, w);
      depthOffset := depthOffset * 10 % w;
    }
  }

  /** The base a child is started with, and the sum it is then to return. */
  method ChildBaseNum(baseNum: nat, depthOffset: nat, idx: nat, ghost size: nat, w: nat) returns (child: nat)
    requires w > 1 && depthOffset == size % w
    ensures child < w && RangeSum(child, size) % w == ChildSum(baseNum, size, idx) % w
  {
    ChildBase(baseNum, size, idx, w);
    child := (baseNum + depthOffset * idx % w) % w;
    RangeSumMod(baseNum + size * idx, size, w);
  }

  /** The loop that adds the ten results. */
  method AddResults(results: array<nat>, ghost baseNum: nat, ghost size: nat, w: nat) returns (count: nat)
    requires w > 1 && results.Length == 10
    requires forall j :: 0 <= j < 10 ==> results[j] == ChildSum(baseNum, size, j) % w
    ensures count == FirstChildren(baseNum, size, 10) % w
  {
    count := 0;
    for idx := 0 to 10
      invariant count == FirstChildren(baseNum, size, idx) % w
    {
      ModAdd(FirstChildren(baseNum, size, idx), ChildSum(baseNum, size, idx), w);
      count := (count + results[idx]) % w;
    }
  }

  /** skynet_one<depthMax>, with size_t holding the residues modulo `w`: the task at `depth` returns the sum,
      modulo the word, of the 10^(depthMax - depth) consecutive numbers from its own base.  The subtasks run
      concurrently; each result goes to its own slot, so their order does not matter. */
  method SkynetOne(baseNum: nat, depth: nat, depthMax: nat, w: nat) returns (count: nat)
    requires depth <= depthMax && w > 1 && baseNum < w
    ensures count == RangeSum(baseNum, Pow10(depthMax - depth)) % w
    decreases depthMax - depth
  {
    if depth == depthMax {
      assert RangeSum(baseNum, 1) == RangeSum(baseNum, 0) + baseNum;
      return baseNum;
    }
    ghost var size := Pow10(depthMax - depth - 1);
    var depthOffset := DepthOffset(depthMax - depth - 1, w);
    var results := new nat[10];
    for idx := 0 to 10
      invariant forall j :: 0 <= j < idx ==> results[j] == ChildSum(baseNum, size, j) % w
    {
      var child := ChildBaseNum(baseNum, depthOffset, idx, size, w);
      results[idx] := SkynetOne(child, depth + 1, depthMax, w);
    }
    count := AddResults(results, baseNum, size, w);
    ChildrenCover(baseNum, size, 10);
  }

  const WORD_64: nat := 0x1_0000_0000_0000_0000
  const WORD_32: nat := 0x1_0000_0000

  /** The number the root should return, for any depth and word. */
  function Expected(depthMax: nat, w: nat): nat
    requires w > 0
  {
    Pow10(depthMax) * (Pow10(depthMax) - 1) / 2 % w
  }

  /** skynet<depthMax>: the count at the root is the expected one, whatever the depth and the word size. */
  method Skynet(depthMax: nat, w: nat) returns (count: nat, ok: bool)
    requires w > 1
    ensures ok && count == RangeSum(0, Pow10(depthMax)) % w == Expected(depthMax, w)
  {
    count := SkynetOne(0, 0, depthMax, w);
    RangeSumClosed(0, Pow10(depthMax));
    ok := count == Expected(depthMax, w);
  }

  /** Both values of EXPECTED_RESULT, for the depth the benchmark uses. */
  lemma ExpectedResult()
    ensures Expected(6, WORD_64) == 499999500000
    ensures Expected(6, WORD_32) == 1783293664
  {
    assert Pow10(3) == 1000;
    assert Pow10(6) == 1000000;
  }
}
