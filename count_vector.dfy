/**
 * Count vectors: one non-negative tally per letter of the alphabet, the
 * `int counts[ALPHABET_LEN]` arrays of the program, and their element-wise
 * addition, which is how the collector merges the workers' results.
 */
module CountVector {

  /** ALPHABET_LEN: the number of slots of every count vector. */
  const AlphabetLen: nat := 26

  /** A vector of 26 tallies; slot i belongs to the i-th letter of the alphabet. */
  type Vector = v: seq<nat> | |v| == AlphabetLen witness seq(26, _ => 0)

  /** The all-zero vector, `{0}` in the source. */
  function Zero(): Vector
  {
    seq(AlphabetLen, _ => 0)
  }

  /** Element-wise addition: `total[j] += temp[j]` for every slot j. */
  function Add(u: Vector, v: Vector): Vector
  {
    seq(AlphabetLen, i requires 0 <= i < AlphabetLen => u[i] + v[i])
  }

  /** Sum of all entries of a sequence of tallies. */
  function Sum(s: seq<nat>): nat
  {
    if s == [] then 0 else s[0] + Sum(s[1..])
  }

  /** Element-wise sum of a sequence of vectors, merged left to right from Zero(). */
  function VectorSum(vs: seq<Vector>): Vector
  {
    if vs == [] then Zero() else Add(VectorSum(vs[..|vs| - 1]), vs[|vs| - 1])
  }

  /** Sum over a sequence of vectors of the sum of each vector's entries. */
  function GrandTotal(vs: seq<Vector>): nat
  {
    if vs == [] then 0 else GrandTotal(vs[..|vs| - 1]) + Sum(vs[|vs| - 1])
  }

  lemma AddCommutes(u: Vector, v: Vector)
    ensures Add(u, v) == Add(v, u)
  {
  }

  lemma AddAssociates(u: Vector, v: Vector, w: Vector)
    ensures Add(Add(u, v), w) == Add(u, Add(v, w))
  {
  }

  lemma AddZero(u: Vector)
    ensures Add(u, Zero()) == u && Add(Zero(), u) == u
  {
  }

  lemma {:induction false} SumOfZeros(n: nat)
    ensures Sum(seq(n, _ => 0)) == 0
  {
    if n > 0 {
      assert seq(n, _ => 0)[1..] == seq(n - 1, _ => 0);
      SumOfZeros(n - 1);
    }
  }

  /** Incrementing one entry raises the sum by exactly one. */
  lemma {:induction false} SumIncrement(s: seq<nat>, k: nat)
    requires k < |s|
    ensures Sum(s[k := s[k] + 1]) == Sum(s) + 1
  {
    if k > 0 {
      assert s[k := s[k] + 1][1..] == s[1..][k - 1 := s[k] + 1];
      SumIncrement(s[1..], k - 1);
    }
  }

  /** The sum of an element-wise sum is the sum of the sums. */
  lemma {:induction false} SumPointwise(a: seq<nat>, b: seq<nat>, c: seq<nat>)
    requires |a| == |b| == |c|
    requires forall i :: 0 <= i < |c| ==> c[i] == a[i] + b[i]
    ensures Sum(c) == Sum(a) + Sum(b)
  {
    if c != [] {
      SumPointwise(a[1..], b[1..], c[1..]);
    }
  }

  /** Merging adds up the letter totals of both vectors. */
  lemma SumOfAdd(u: Vector, v: Vector)
    ensures Sum(Add(u, v)) == Sum(u) + Sum(v)
  {
    SumPointwise(u, v, Add(u, v));
  }

  /** Merging two batches of vectors gives the merge of the two partial totals. */
  lemma {:induction false} VectorSumAppend(a: seq<Vector>, b: seq<Vector>)
    ensures VectorSum(a + b) == Add(VectorSum(a), VectorSum(b))
  {
    if b == [] {
      assert a + b == a;
      AddZero(VectorSum(a));
    } else {
      var b', y := b[..|b| - 1], b[|b| - 1];
      assert (a + b)[..|a + b| - 1] == a + b';
      VectorSumAppend(a, b');
      AddAssociates(VectorSum(a), VectorSum(b'), y);
    }
  }

  /** The merged total does not depend on the order in which vectors arrive. */
  lemma {:induction false} VectorSumPermutation(a: seq<Vector>, b: seq<Vector>)
    requires multiset(a) == multiset(b)
    ensures VectorSum(a) == VectorSum(b)
    decreases |a|
  {
    if a == [] {
      assert |b| == |multiset(b)| == 0;
    } else {
      var a', x := a[..|a| - 1], a[|a| - 1];
      assert a == a' + [x];
      assert x in multiset(b);
      var k :| 0 <= k < |b| && b[k] == x;
      var front, back := b[..k], b[k + 1..];
      assert b == front + [x] + back;
      calc {
        multiset(a') + multiset{x};
        multiset(a);
        multiset(b);
        multiset(front) + multiset{x} + multiset(back);
        multiset(front + back) + multiset{x};
      }
      assert multiset(a') == multiset(a') + multiset{x} - multiset{x};
      assert multiset(front + back) == multiset(front + back) + multiset{x} - multiset{x};
      VectorSumPermutation(a', front + back);
      VectorSumAppend(front + [x], back);
      VectorSumAppend(front, back);
      assert (front + [x])[..|front + [x]| - 1] == front;
      AddAssociates(VectorSum(front), x, VectorSum(back));
      AddCommutes(x, VectorSum(back));
      AddAssociates(VectorSum(front), VectorSum(back), x);
    }
  }

  /** The grand total of letters is kept by merging: no count is lost or invented. */
  lemma {:induction false} VectorSumTotal(vs: seq<Vector>)
    ensures Sum(VectorSum(vs)) == GrandTotal(vs)
  {
    if vs == [] {
      SumOfZeros(AlphabetLen);
    } else {
      VectorSumTotal(vs[..|vs| - 1]);
      SumOfAdd(VectorSum(vs[..|vs| - 1]), vs[|vs| - 1]);
    }
  }
}
