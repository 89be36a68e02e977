/** Unsigned machine-word arithmetic: sums and products modulo the word's range. */
module WordArithmetic {

  lemma MultipleOf(d: int, w: int)
    requires w > 0
    ensures d >= 1 ==> d * w >= w
    ensures d <= -1 ==> d * w <= -w
  {
  }

  lemma ModUnique(a: int, q: int, r: int, w: int)
    requires w > 0 && a == q * w + r && 0 <= r < w
    ensures a % w == r
  {
    var d := a / w - q;
    assert a == (a / w) * w + a % w;
    assert d * w == r - a % w;
    MultipleOf(d, w);
  }

  lemma ModShift(a: int, k: int, w: int)
    requires w > 0
    ensures (a + k * w) % w == a % w
  {
    assert a + k * w == (a / w + k) * w + a % w;
    ModUnique(a + k * w, a / w + k, a % w, w);
  }

  lemma ModAddRight(a: int, b: int, w: int)
    requires w > 0
    ensures (a + b % w) % w == (a + b) % w
  {
    assert a + b == a + b % w + (b / w) * w;
    ModShift(a + b % w, b / w, w);
  }

  lemma ModAdd(a: int, b: int, w: int)
    requires w > 0
    ensures (a % w + b % w) % w == (a + b) % w
    ensures (a % w + b) % w == (a + b) % w
  {
    ModAddRight(b, a, w);
    ModAddRight(a % w, b, w);
  }

  lemma ModMul(a: int, b: int, w: int)
    requires w > 0
    ensures ((a % w) * b) % w == (a * b) % w
  {
    assert a * b == (a % w) * b + (a / w) * b * w;
    ModShift((a % w) * b, (a / w) * b, w);
  }

  /** The sum of the `n` consecutive integers from `base` on. */
  function RangeSum(base: nat, n: nat): nat {
    if n == 0 then 0 else RangeSum(base, n - 1) + base + (n - 1)
  }

  lemma {:induction false} RangeSumClosed(base: nat, n: nat)
    ensures 2 * RangeSum(base, n) == n * (2 * base + n - 1)
  {
    if n > 0 {
      RangeSumClosed(base, n - 1);
    }
  }

  lemma {:induction false} RangeSumSplit(base: nat, m: nat, n: nat)
    ensures RangeSum(base, m + n) == RangeSum(base, m) + RangeSum(base + m, n)
  {
    if n > 0 {
      RangeSumSplit(base, m, n - 1);
    }
  }

  lemma {:induction false} RangeSumShift(base: nat, k: nat, n: nat)
    ensures RangeSum(base + k, n) == RangeSum(base, n) + n * k
  {
    if n > 0 {
      RangeSumShift(base, k, n - 1);
    }
  }

  lemma Associate(a: int, b: int, c: int)
    ensures a * (b * c) == (a * b) * c
  {
  }

  /** Wrapping the base around does not change the wrapped sum. */
  lemma RangeSumMod(base: nat, n: nat, w: nat)
    requires w > 0
    ensures RangeSum(base % w, n) % w == RangeSum(base, n) % w
  {
    var r, k := base % w, base / w;
    var t := k * w;
    assert base == r + t;
    RangeSumShift(r, t, n);
    Associate(n, k, w);
    ModShift(RangeSum(r, n), n * k, w);
  }
}
