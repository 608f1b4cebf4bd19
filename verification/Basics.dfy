/** Vocabulary shared by every other module: optional values, results, and the
    few facts about sequences that several proofs need. */
module Basics {

  datatype Option<+T> = None | Some(value: T)

  datatype Result<+T, +E> = Ok(value: T) | Err(error: E)

  /** `m.get(k)`. */
  function Get<K, V>(m: map<K, V>, k: K): Option<V> {
    if k in m then Some(m[k]) else None
  }

  /** Writing back what is there changes nothing. */
  lemma {:induction false} SameEntry<K, V>(m: map<K, V>, k: K)
    requires k in m
    ensures m[k := m[k]] == m
  {
  }

  lemma {:induction false} Associate<T>(a: seq<T>, b: seq<T>, c: seq<T>)
    ensures a + b + c == a + (b + c)
  {
  }

  /** A sequence is its front and its last value. */
  lemma {:induction false} FrontAndLast<T>(a: seq<T>)
    requires a != []
    ensures a == a[..|a| - 1] + [a[|a| - 1]]
  {
  }

  /** No value occurs twice. */
  predicate Distinct<T(==)>(xs: seq<T>) {
    forall i, j :: 0 <= i < j < |xs| ==> xs[i] != xs[j]
  }

  /** `ys` lists the same values as `xs`, each as often, in any order. */
  ghost predicate Permutation<T>(xs: seq<T>, ys: seq<T>) {
    multiset(xs) == multiset(ys)
  }

  lemma {:induction false} CountMore<T>(xs: seq<T>, last: T, x: T)
    ensures multiset(xs + [last])[x] == multiset(xs)[x] + if x == last then 1 else 0
  {
    assert multiset(xs + [last]) == multiset(xs) + multiset{last};
  }

  lemma {:induction false} DistinctCounts<T>(xs: seq<T>, x: T)
    requires Distinct(xs)
    ensures multiset(xs)[x] == if x in xs then 1 else 0
  {
    if xs != [] {
      DistinctCounts(xs[1..], x);
      assert xs == [xs[0]] + xs[1..];
    }
  }

  lemma TwiceCounted<T>(ys: seq<T>, i: nat, j: nat)
    requires i < j < |ys| && ys[i] == ys[j]
    ensures multiset(ys)[ys[i]] >= 2
  {
    assert ys == ys[..i] + [ys[i]] + ys[i + 1..j] + [ys[j]] + ys[j + 1..];
  }

  /** A rearrangement of distinct values is distinct, as long, and has the same members. */
  lemma {:induction false} PermutationKeepsDistinct<T>(xs: seq<T>, ys: seq<T>)
    requires Permutation(xs, ys) && Distinct(xs)
    ensures Distinct(ys) && |ys| == |xs|
    ensures forall x :: x in ys <==> x in xs
  {
    assert |multiset(xs)| == |xs| && |multiset(ys)| == |ys|;
    forall x ensures x in ys <==> x in xs {
      assert x in multiset(ys) <==> x in ys;
      assert x in multiset(xs) <==> x in xs;
    }
    forall i, j | 0 <= i < j < |ys| ensures ys[i] != ys[j] {
      if ys[i] == ys[j] {
        TwiceCounted(ys, i, j);
        DistinctCounts(xs, ys[i]);
        assert false;
      }
    }
  }
}
