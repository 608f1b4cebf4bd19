/** The in-place shuffle of Python's `random` module, over an arbitrary stream of choices:
    `choices(k)` stands for whatever the generator returns at its k-th call. */
module Shuffle {
  import opened Basics

  type Choices = nat -> nat

  function Swap<T>(xs: seq<T>, i: nat, j: nat): seq<T>
    requires i < |xs| && j < |xs|
  {
    xs[i := xs[j]][j := xs[i]]
  }

  /** The shuffle from index `i` downwards, its next choice being the k-th of the stream. */
  function ShuffleFrom<T>(xs: seq<T>, i: nat, choices: Choices, k: nat): (r: seq<T>)
    requires i < |xs| || i == 0
    ensures |r| == |xs|
    decreases i
  {
    if i == 0 then xs else ShuffleFrom(Swap(xs, i, choices(k) % (i + 1)), i - 1, choices, k + 1)
  }

  /** How many choices shuffling `n` values consumes. */
  function Consumed(n: nat): nat {
    if n == 0 then 0 else n - 1
  }

  function Shuffled<T>(xs: seq<T>, choices: Choices, k: nat): (r: seq<T>)
    ensures |r| == |xs|
  {
    ShuffleFrom(xs, Consumed(|xs|), choices, k)
  }

  /** `rng.shuffle(a)`: swap each place, last to first, with one not after it. */
  method ShuffleInPlace<T>(a: array<T>, choices: Choices, k: nat) returns (next: nat)
    modifies a
    ensures a[..] == Shuffled(old(a[..]), choices, k)
    ensures next == k + Consumed(a.Length)
  {
    next := k;
    var i := Consumed(a.Length);
    while i > 0
      invariant 0 <= i <= Consumed(a.Length) && next + i == k + Consumed(a.Length)
      invariant ShuffleFrom(a[..], i, choices, next) == Shuffled(old(a[..]), choices, k)
    {
      var j := choices(next) % (i + 1);
      ghost var before := a[..];
      a[i], a[j] := a[j], a[i];
      assert a[..] == Swap(before, i, j);
      next := next + 1;
      i := i - 1;
    }
  }

  // ---- every outcome is a permutation ----

  lemma {:induction false} SwapPermutes<T>(xs: seq<T>, i: nat, j: nat)
    requires i < |xs| && j < |xs|
    ensures Permutation(xs, Swap(xs, i, j))
  {
    var once := xs[i := xs[j]];
    assert once[j] == xs[j];
    assert multiset(once) == multiset(xs) - multiset{xs[i]} + multiset{xs[j]};
    assert multiset(Swap(xs, i, j)) == multiset(once) - multiset{once[j]} + multiset{xs[i]};
  }

  lemma {:induction false} SwapStillPermutes<T>(xs: seq<T>, ys: seq<T>, i: nat, j: nat)
    requires i < |xs| && j < |xs| && Permutation(xs, ys)
    ensures Permutation(Swap(xs, i, j), ys)
  {
    SwapPermutes(xs, i, j);
  }

  lemma {:induction false} ShuffleFromPermutes<T>(xs: seq<T>, i: nat, choices: Choices, k: nat)
    requires i < |xs| || i == 0
    ensures Permutation(xs, ShuffleFrom(xs, i, choices, k))
    decreases i
  {
    if i > 0 {
      var j := choices(k) % (i + 1);
      SwapPermutes(xs, i, j);
      ShuffleFromPermutes(Swap(xs, i, j), i - 1, choices, k + 1);
    }
  }

  /** Whatever the generator returns, shuffling only rearranges. */
  lemma {:induction false} ShuffledPermutes<T>(xs: seq<T>, choices: Choices, k: nat)
    ensures Permutation(xs, Shuffled(xs, choices, k))
  {
    ShuffleFromPermutes(xs, Consumed(|xs|), choices, k);
  }

  // ---- every permutation is an outcome ----

  /** Only the choices the shuffle consumes matter. */
  lemma {:induction false} ShuffleLocal<T>(xs: seq<T>, i: nat, a: Choices, b: Choices, k: nat)
    requires i < |xs| || i == 0
    requires forall m :: k <= m < k + i ==> a(m) == b(m)
    ensures ShuffleFrom(xs, i, a, k) == ShuffleFrom(xs, i, b, k)
    decreases i
  {
    if i > 0 {
      ShuffleLocal(Swap(xs, i, a(k) % (i + 1)), i - 1, a, b, k + 1);
    }
  }

  /** Places above `i` are not touched any more. */
  lemma {:induction false} ShuffleKeepsTail<T>(xs: seq<T>, i: nat, choices: Choices, k: nat)
    requires i < |xs|
    ensures forall m :: i < m < |xs| ==> ShuffleFrom(xs, i, choices, k)[m] == xs[m]
    decreases i
  {
    if i > 0 {
      ShuffleKeepsTail(Swap(xs, i, choices(k) % (i + 1)), i - 1, choices, k + 1);
    }
  }

  lemma {:induction false} PrefixPermutation<T>(xs: seq<T>, ys: seq<T>, n: nat)
    requires Permutation(xs, ys) && n <= |xs| == |ys| && xs[n..] == ys[n..]
    ensures Permutation(xs[..n], ys[..n])
  {
    assert xs == xs[..n] + xs[n..] && ys == ys[..n] + ys[n..];
    assert multiset(xs[..n]) == multiset(xs) - multiset(xs[n..]);
    assert multiset(ys[..n]) == multiset(ys) - multiset(ys[n..]);
  }

  /** Where `ys` wants its i-th value, `xs` still has it among its first places. */
  lemma {:induction false} FindValue<T>(xs: seq<T>, ys: seq<T>, i: nat) returns (j: nat)
    requires Permutation(xs, ys) && i < |xs| == |ys|
    requires forall m :: i < m < |xs| ==> xs[m] == ys[m]
    ensures j <= i && xs[j] == ys[i]
  {
    assert xs[i + 1..] == ys[i + 1..];
    PrefixPermutation(xs, ys, i + 1);
    assert ys[..i + 1][i] in multiset(ys[..i + 1]);
    assert ys[i] in multiset(xs[..i + 1]);
    j :| 0 <= j < i + 1 && xs[..i + 1][j] == ys[i];
  }

  lemma {:induction false} ShuffleStep<T>(xs: seq<T>, i: nat, j: nat, choices: Choices, k: nat)
    requires 0 < i < |xs| && choices(k) == j <= i
    ensures ShuffleFrom(xs, i, choices, k) == ShuffleFrom(Swap(xs, i, j), i - 1, choices, k + 1)
  {
    assert j % (i + 1) == j;
  }

  /** A stream of choices that turns `xs` into `ys`. */
  lemma {:induction false} ShuffleReaches<T>(xs: seq<T>, ys: seq<T>, i: nat, k: nat) returns (choices: Choices)
    requires Permutation(xs, ys) && |xs| == |ys|
    requires i < |xs| || (i == 0 && xs == [])
    requires forall m :: i < m < |xs| ==> xs[m] == ys[m]
    ensures ShuffleFrom(xs, i, choices, k) == ys
    decreases i
  {
    hide Permutation;
    choices := (m: nat) => 0;
    if xs == [] {
      assert ys == [];
    } else if i == 0 {
      var j := FindValue(xs, ys, 0);
      assert xs == ys;
      assert ShuffleFrom(xs, 0, choices, k) == xs;
    } else {
      var j := FindValue(xs, ys, i);
      SwapStillPermutes(xs, ys, i, j);
      var rest := ShuffleReaches(Swap(xs, i, j), ys, i - 1, k + 1);
      choices := (m: nat) => if m == k then j else rest(m);
      ShuffleLocal(Swap(xs, i, j), i - 1, choices, rest, k + 1);
      ShuffleStep(xs, i, j, choices, k);
    }
  }

  /** The outcomes of a shuffle are exactly the rearrangements. */
  lemma {:induction false} OutcomeIffPermutation<T(!new)>(xs: seq<T>, ys: seq<T>, k: nat)
    ensures (exists choices: Choices :: Shuffled(xs, choices, k) == ys) <==> Permutation(xs, ys)
  {
    if Permutation(xs, ys) {
      assert |multiset(xs)| == |xs| && |multiset(ys)| == |ys|;
      var choices := ShuffleReaches(xs, ys, Consumed(|xs|), k);
      assert Shuffled(xs, choices, k) == ys;
    }
    if choices: Choices :| Shuffled(xs, choices, k) == ys {
      ShuffledPermutes(xs, choices, k);
    }
  }
}
