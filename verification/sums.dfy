/** Sums of a weight over the elements of a sequence, and their invariance under permutation. */
module Sums {

  function SumOf<T>(s: seq<T>, f: T -> int): int
    decreases |s|
  {
    if |s| == 0 then 0 else f(s[0]) + SumOf(s[1..], f)
  }

  lemma {:induction false} SumOfConcat<T>(a: seq<T>, b: seq<T>, f: T -> int)
    ensures SumOf(a + b, f) == SumOf(a, f) + SumOf(b, f)
    decreases |a|
  {
    if |a| == 0 {
      assert a + b == b;
    } else {
      assert (a + b)[1..] == a[1..] + b;
      SumOfConcat(a[1..], b, f);
    }
  }

  /** A sequence is what comes before index i, the element at i, and what follows. */
  lemma SplitAt<T>(b: seq<T>, i: nat)
    requires i < |b|
    ensures b == b[..i] + ([b[i]] + b[i + 1..])
  {
    assert b[i..] == [b[i]] + b[i + 1..];
    assert b == b[..i] + b[i..];
  }

  /** Removing the element at index i removes one copy of it from the multiset. */
  lemma MultisetRemoveAt<T>(b: seq<T>, i: nat)
    requires i < |b|
    ensures multiset(b[..i] + b[i + 1..]) == multiset(b) - multiset{b[i]}
  {
    SplitAt(b, i);
    assert multiset(b) == multiset(b[..i]) + multiset{b[i]} + multiset(b[i + 1..]);
  }

  /** Taking one element out of the middle takes its weight out of the sum. */
  lemma SumOfRemoveAt<T>(b: seq<T>, i: nat, f: T -> int)
    requires i < |b|
    ensures SumOf(b, f) == f(b[i]) + SumOf(b[..i] + b[i + 1..], f)
  {
    SplitAt(b, i);
    SumOfConcat(b[..i], [b[i]] + b[i + 1..], f);
    SumOfConcat([b[i]], b[i + 1..], f);
    SumOfConcat(b[..i], b[i + 1..], f);
  }

  /** Two sequences with the same elements: the first element of one occurs in the other,
      and what is left on each side again has the same elements. */
  lemma MatchFirst<T>(a: seq<T>, b: seq<T>) returns (i: nat)
    requires multiset(a) == multiset(b) && |a| > 0
    ensures i < |b| && b[i] == a[0]
    ensures multiset(a[1..]) == multiset(b[..i] + b[i + 1..])
    ensures |a[1..]| < |a|
  {
    assert a[0] in multiset(b);
    assert a[0] in b;
    i :| 0 <= i < |b| && b[i] == a[0];
    MultisetRemoveAt(b, i);
    MultisetRemoveAt(a, 0);
    assert a[..0] + a[0 + 1..] == a[1..];
  }

  /** The sum depends only on the multiset of elements, not on their order. */
  lemma {:induction false} SumOfPermutation<T>(a: seq<T>, b: seq<T>, f: T -> int)
    requires multiset(a) == multiset(b)
    ensures SumOf(a, f) == SumOf(b, f)
    decreases |a|
  {
    if |a| == 0 {
      assert |b| == |multiset(b)| == 0;
    } else {
      var i := MatchFirst(a, b);
      SumOfPermutation(a[1..], b[..i] + b[i + 1..], f);
      SumOfRemoveAt(b, i, f);
    }
  }
}
