/** Integer sums over sequences, used by the statistics totals and by the
    program-counter accounting of a job. */
module Sums {

  /** Sum of `f` over the elements of `s`, accumulated from the back so that
      appending an element adds exactly one term. */
  function SumOf<T>(s: seq<T>, f: T -> int): int
  {
    if s == [] then 0 else SumOf(s[..|s| - 1], f) + f(s[|s| - 1])
  }

  /** Sum of the first `k` elements of `s`, indexed rather than sliced. */
  function PrefixSum(s: seq<int>, k: int): int
    requires 0 <= k <= |s|
  {
    if k == 0 then 0 else PrefixSum(s, k - 1) + s[k - 1]
  }

  /** Sum of a sequence of integers (a burst list). */
  function Sum(s: seq<int>): int
  {
    PrefixSum(s, |s|)
  }

  lemma {:induction false} SumOfConcat<T>(a: seq<T>, b: seq<T>, f: T -> int)
    ensures SumOf(a + b, f) == SumOf(a, f) + SumOf(b, f)
  {
    if b != [] {
      assert (a + b)[..|a + b| - 1] == a + b[..|b| - 1];
      SumOfConcat(a, b[..|b| - 1], f);
    } else {
      assert a + b == a;
    }
  }

  lemma SumOfSnoc<T>(s: seq<T>, x: T, f: T -> int)
    ensures SumOf(s + [x], f) == SumOf(s, f) + f(x)
  {
    assert (s + [x])[..|s|] == s;
  }

  lemma SumOfCons<T>(s: seq<T>, f: T -> int)
    requires s != []
    ensures SumOf(s, f) == f(s[0]) + SumOf(s[1..], f)
  {
    SumOfRemove(s, 0, f);
    assert s[..0] + s[1..] == s[1..];
  }

  /** Removing the element at `i` takes exactly its term out of the sum. */
  lemma {:induction false} SumOfRemove<T>(s: seq<T>, i: nat, f: T -> int)
    requires i < |s|
    ensures SumOf(s, f) == SumOf(s[..i] + s[i + 1..], f) + f(s[i])
  {
    assert s == s[..i] + [s[i]] + s[i + 1..];
    SumOfConcat(s[..i] + [s[i]], s[i + 1..], f);
    SumOfConcat(s[..i], [s[i]], f);
    SumOfConcat(s[..i], s[i + 1..], f);
    assert SumOf([s[i]], f) == f(s[i]) by {
      assert [s[i]][..0] == [];
    }
  }

  /** A sum does not depend on the order of the summed elements. */
  lemma {:induction false} SumOfPermutation<T>(a: seq<T>, b: seq<T>, f: T -> int)
    requires multiset(a) == multiset(b)
    ensures SumOf(a, f) == SumOf(b, f)
    decreases |a|
  {
    if a != [] {
      var x := a[|a| - 1];
      assert x in multiset(b);
      var i :| 0 <= i < |b| && b[i] == x;
      var a' := a[..|a| - 1];
      var b' := b[..i] + b[i + 1..];
      assert a == a' + [x];
      assert b == b[..i] + [x] + b[i + 1..];
      calc {
        multiset(a') + multiset{x};
        multiset(a);
        multiset(b);
        multiset(b[..i]) + multiset{x} + multiset(b[i + 1..]);
        multiset(b') + multiset{x};
      }
      assert multiset(a') == multiset(a') + multiset{x} - multiset{x};
      SumOfPermutation(a', b', f);
      SumOfRemove(b, i, f);
    } else {
      assert |b| == |multiset(b)| == 0;
    }
  }

  /** Sums of two sequences agree when their terms agree position by position. */
  lemma {:induction false} SumOfPointwise<A, B>(a: seq<A>, b: seq<B>, f: A -> int, g: B -> int)
    requires |a| == |b|
    requires forall i :: 0 <= i < |a| ==> f(a[i]) == g(b[i])
    ensures SumOf(a, f) == SumOf(b, g)
  {
    if a != [] {
      SumOfPointwise(a[..|a| - 1], b[..|b| - 1], f, g);
    }
  }

  /** Term-by-term domination carries over to the sums. */
  lemma {:induction false} SumOfPointwiseAtLeast<A, B>(a: seq<A>, b: seq<B>, f: A -> int, g: B -> int)
    requires |a| == |b|
    requires forall i :: 0 <= i < |a| ==> f(a[i]) >= g(b[i])
    ensures SumOf(a, f) >= SumOf(b, g)
  {
    if a != [] {
      SumOfPointwiseAtLeast(a[..|a| - 1], b[..|b| - 1], f, g);
    }
  }

  /** A term-by-term identity f + g == h carries over to the sums. */
  lemma {:induction false} SumOfAdd<T>(a: seq<T>, f: T -> int, g: T -> int, h: T -> int)
    requires forall i :: 0 <= i < |a| ==> f(a[i]) + g(a[i]) == h(a[i])
    ensures SumOf(a, f) + SumOf(a, g) == SumOf(a, h)
  {
    if a != [] {
      SumOfAdd(a[..|a| - 1], f, g, h);
    }
  }
}
