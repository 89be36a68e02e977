/** Sums and multiset unions over a sequence, with the three facts a protocol proof needs:
    how they change when one element is replaced, appended, or taken from the front. */
module Sums {

  ghost function Sum<A>(s: seq<A>, f: A -> int): int {
    if s == [] then 0 else f(s[0]) + Sum(s[1..], f)
  }

  lemma {:induction false} SumUpdate<A>(s: seq<A>, i: nat, a: A, f: A -> int)
    requires i < |s|
    ensures Sum(s[i := a], f) == Sum(s, f) - f(s[i]) + f(a)
  {
    if i == 0 {
      assert s[i := a][1..] == s[1..];
    } else {
      assert s[i := a][1..] == s[1..][i - 1 := a];
      SumUpdate(s[1..], i - 1, a, f);
    }
  }

  lemma {:induction false} SumAppend<A>(s: seq<A>, a: A, f: A -> int)
    ensures Sum(s + [a], f) == Sum(s, f) + f(a)
  {
    if s == [] {
      assert s + [a] == [a];
    } else {
      assert (s + [a])[1..] == s[1..] + [a];
      SumAppend(s[1..], a, f);
    }
  }

  lemma {:induction false} SumOfFlags<A>(s: seq<A>, f: A -> int)
    requires forall a :: a in s ==> 0 <= f(a) <= 1
    ensures 0 <= Sum(s, f) <= |s|
  {
    if s != [] {
      SumOfFlags(s[1..], f);
    }
  }

  lemma {:induction false} SumOfZeros<A>(s: seq<A>, f: A -> int)
    requires forall a :: a in s ==> f(a) == 0
    ensures Sum(s, f) == 0
  {
    if s != [] {
      SumOfZeros(s[1..], f);
    }
  }

  lemma {:induction false} SumNonNegative<A>(s: seq<A>, f: A -> int)
    requires forall a :: a in s ==> f(a) >= 0
    ensures Sum(s, f) >= 0
    ensures forall i :: 0 <= i < |s| ==> f(s[i]) <= Sum(s, f)
  {
    if s != [] {
      SumNonNegative(s[1..], f);
      forall i | 0 <= i < |s| ensures f(s[i]) <= Sum(s, f) {
        if i > 0 {
          assert s[i] == s[1..][i - 1];
        }
      }
    }
  }

  /** The union of the bags that the elements of `s` contribute. */
  ghost function Gather<A, T>(s: seq<A>, g: A -> multiset<T>): multiset<T> {
    if s == [] then multiset{} else g(s[0]) + Gather(s[1..], g)
  }

  lemma {:induction false} GatherUpdate<A, T>(s: seq<A>, i: nat, a: A, g: A -> multiset<T>)
    requires i < |s|
    ensures Gather(s[i := a], g) + g(s[i]) == Gather(s, g) + g(a)
  {
    if i == 0 {
      assert s[i := a][1..] == s[1..];
    } else {
      var rest := s[1..];
      assert s[i := a][1..] == rest[i - 1 := a];
      GatherUpdate(rest, i - 1, a, g);
      calc {
        Gather(s[i := a], g) + g(s[i]);
        g(s[0]) + (Gather(rest[i - 1 := a], g) + g(rest[i - 1]));
        g(s[0]) + (Gather(rest, g) + g(a));
        Gather(s, g) + g(a);
      }
    }
  }

  lemma GatherLoses<A, T>(s: seq<A>, i: nat, a: A, g: A -> multiset<T>)
    requires i < |s| && g(a) == multiset{}
    ensures Gather(s, g) == Gather(s[i := a], g) + g(s[i])
  {
    GatherUpdate(s, i, a, g);
    assert Gather(s, g) + multiset{} == Gather(s, g);
  }

  lemma GatherGains<A, T>(s: seq<A>, i: nat, a: A, g: A -> multiset<T>)
    requires i < |s| && g(s[i]) == multiset{}
    ensures Gather(s[i := a], g) == Gather(s, g) + g(a)
  {
    GatherUpdate(s, i, a, g);
    assert Gather(s[i := a], g) + multiset{} == Gather(s[i := a], g);
  }

  lemma GatherKept<A, T>(s: seq<A>, i: nat, a: A, g: A -> multiset<T>)
    requires i < |s| && g(a) == g(s[i])
    ensures Gather(s[i := a], g) == Gather(s, g)
  {
    GatherUpdate(s, i, a, g);
    assert (Gather(s[i := a], g) + g(a)) - g(a) == Gather(s[i := a], g);
    assert (Gather(s, g) + g(a)) - g(a) == Gather(s, g);
  }

  lemma {:induction false} GatherAppend<A, T>(s: seq<A>, a: A, g: A -> multiset<T>)
    ensures Gather(s + [a], g) == Gather(s, g) + g(a)
  {
    if s == [] {
      assert s + [a] == [a];
    } else {
      assert (s + [a])[1..] == s[1..] + [a];
      GatherAppend(s[1..], a, g);
    }
  }

  lemma {:induction false} GatherEmpty<A, T>(s: seq<A>, g: A -> multiset<T>)
    requires forall a :: a in s ==> g(a) == multiset{}
    ensures Gather(s, g) == multiset{}
  {
    if s != [] {
      GatherEmpty(s[1..], g);
    }
  }
}
