/**
 * The round-robin order of the gateway's periodic queries.
 *
 * On a firing timer tick the gateway pops the head of its query list, runs
 * it and appends it to the tail. `Rotate` is one such step, `RotateN` is the
 * list after n firing ticks, and `Invocations` is the sequence of queries
 * run by the first k firing ticks. The lemmas below connect the step-by-step
 * mechanism with the closed forms: the list after n steps is the initial list
 * read cyclically from position n, the i-th run query is initial[i mod L],
 * and every window of L consecutive runs is a rotation (hence a permutation)
 * of the initial list.
 */
module Rotation {

  /** One firing tick: `pop(0)` followed by `append` of the popped element. */
  function Rotate<T>(q: seq<T>): (r: seq<T>)
    requires |q| > 0
    ensures |r| == |q|
  {
    q[1..] + [q[0]]
  }

  /** A firing tick neither adds nor drops a query. */
  lemma RotatePermutes<T>(q: seq<T>)
    requires |q| > 0
    ensures multiset(Rotate(q)) == multiset(q)
  {
    assert q == [q[0]] + q[1..];
  }

  /** Every element but the head moves one place towards the front; the head moves to the back. */
  lemma RotateAt<T>(q: seq<T>, i: nat)
    requires i < |q|
    ensures Rotate(q)[i] == if i + 1 < |q| then q[i + 1] else q[0]
  {
  }

  /** The query list after n firing ticks. */
  function RotateN<T>(q: seq<T>, n: nat): (r: seq<T>)
    requires |q| > 0
    ensures |r| == |q|
  {
    if n == 0 then q else Rotate(RotateN(q, n - 1))
  }

  /** However many firing ticks pass, the list holds the same queries, each as often as before. */
  lemma {:induction false} RotateNPermutes<T>(q: seq<T>, n: nat)
    requires |q| > 0
    ensures multiset(RotateN(q, n)) == multiset(q)
  {
    if n > 0 {
      RotateNPermutes(q, n - 1);
      RotatePermutes(RotateN(q, n - 1));
    }
  }

  /** The queries run by the first k firing ticks, in order. */
  function Invocations<T>(q: seq<T>, k: nat): (r: seq<T>)
    requires |q| > 0
    ensures |r| == k
  {
    if k == 0 then [] else Invocations(q, k - 1) + [RotateN(q, k - 1)[0]]
  }

  /**
   * The position x steps along a cyclic list of length L, by repeated
   * subtraction. This is `x % L` (`CyclicIsMod`); it exists, with the
   * arithmetic lemmas `MulBounds` and `ModUnique`, only so that `RotateNAt`
   * can be proved by induction without the solver reasoning about `%`.
   */
  function Cyclic(x: nat, L: nat): (r: nat)
    requires L > 0
    ensures r < L
  {
    if x < L then x else Cyclic(x - L, L)
  }

  /** A nonzero multiple of L is at least L away from zero. */
  lemma MulBounds(k: int, L: int)
    requires L > 0
    ensures k >= 1 ==> k * L >= L
    ensures k <= -1 ==> k * L <= -L
    decreases if k < 0 then -k else k
  {
    if k >= 1 {
      assert k * L == (k - 1) * L + L;
      MulBounds(k - 1, L);
    } else if k <= -1 {
      assert k * L == (k + 1) * L - L;
      MulBounds(k + 1, L);
    }
  }

  /** Quotient and remainder are unique: x = d * L + m with 0 <= m < L fixes x % L. */
  lemma ModUnique(x: int, L: int, d: int, m: int)
    requires L > 0 && 0 <= m < L && x == d * L + m
    ensures x % L == m
  {
    var d1, m1 := x / L, x % L;
    assert (d1 - d) * L == m - m1 by {
      assert x == d1 * L + m1;
      assert (d1 - d) * L == d1 * L - d * L;
    }
    MulBounds(d1 - d, L);
  }

  /** The cyclic position is the remainder modulo L. */
  lemma {:induction false} CyclicIsMod(x: nat, L: nat)
    requires L > 0
    ensures Cyclic(x, L) == x % L
  {
    if x < L {
      ModUnique(x, L, 0, x);
    } else {
      CyclicIsMod(x - L, L);
      var d, m := (x - L) / L, (x - L) % L;
      assert x == (d + 1) * L + m by {
        assert x - L == d * L + m;
        assert (d + 1) * L == d * L + L;
      }
      ModUnique(x, L, d + 1, m);
    }
  }

  lemma {:induction false} RotateNAtCyclic<T>(q: seq<T>, n: nat, i: nat)
    requires |q| > 0 && i < |q|
    ensures RotateN(q, n)[i] == q[Cyclic(n + i, |q|)]
  {
    if n > 0 {
      var prev := RotateN(q, n - 1);
      assert RotateN(q, n) == Rotate(prev);
      if i + 1 < |q| {
        RotateNAtCyclic(q, n - 1, i + 1);
        RotateAt(prev, i);
        assert (n - 1) + (i + 1) == n + i;
      } else {
        RotateNAtCyclic(q, n - 1, 0);
        RotateAt(prev, i);
        assert Cyclic(n + i, |q|) == Cyclic(n - 1, |q|) by {
          assert n + i - |q| == n - 1;
        }
      }
    }
  }

  /** After n rotations, position i holds the element n + i places along the original list, cyclically. */
  lemma {:induction false} RotateNAt<T>(q: seq<T>, n: nat, i: nat)
    requires |q| > 0 && i < |q|
    ensures RotateN(q, n)[i] == q[(n + i) % |q|]
  {
    RotateNAtCyclic(q, n, i);
    CyclicIsMod(n + i, |q|);
  }

  /** After as many firing ticks as there are queries, the list is back in its original order. */
  lemma {:induction false} RotateNPeriodic<T>(q: seq<T>, n: nat)
    requires |q| > 0
    ensures RotateN(q, n + |q|) == RotateN(q, n)
  {
    var a, b := RotateN(q, n + |q|), RotateN(q, n);
    forall i | 0 <= i < |q|
      ensures a[i] == b[i]
    {
      RotateNAtCyclic(q, n + |q|, i);
      RotateNAtCyclic(q, n, i);
      assert Cyclic(n + |q| + i, |q|) == Cyclic(n + i, |q|);
    }
  }

  /** The full cycle from the initial list: L firing ticks restore it. */
  lemma {:induction false} RotateNFullCycle<T>(q: seq<T>)
    requires |q| > 0
    ensures RotateN(q, |q|) == q
  {
    RotateNPeriodic(q, 0);
  }

  /** The i-th query run (counting from 0) is the initial list's element at i mod L. */
  lemma {:induction false} InvocationsAt<T>(q: seq<T>, k: nat, i: nat)
    requires |q| > 0 && i < k
    ensures Invocations(q, k)[i] == q[i % |q|]
  {
    if i == k - 1 {
      RotateNAt(q, k - 1, 0);
    } else {
      InvocationsAt(q, k - 1, i);
    }
  }

  /** What one firing tick does to the list and to the run log, from any reachable state. */
  lemma {:induction false} FiringStep<T>(q: seq<T>, k: nat)
    requires |q| > 0
    ensures RotateN(q, k + 1) == RotateN(q, k)[1..] + [RotateN(q, k)[0]]
    ensures Invocations(q, k + 1) == Invocations(q, k) + [RotateN(q, k)[0]]
    ensures RotateN(q, k)[0] == q[k % |q|]
    ensures multiset(RotateN(q, k + 1)) == multiset(RotateN(q, k))
  {
    RotateNAt(q, k, 0);
    RotatePermutes(RotateN(q, k));
  }

  /**
   * Fairness: any L consecutive runs are the initial list rotated by the
   * window's start, so each query is run exactly as often as it occurs in
   * the initial list, and none is skipped or starved.
   */
  lemma {:induction false} WindowIsRotation<T>(q: seq<T>, k: nat, j: nat)
    requires |q| > 0 && j + |q| <= k
    ensures Invocations(q, k)[j..j + |q|] == RotateN(q, j)
    ensures multiset(Invocations(q, k)[j..j + |q|]) == multiset(q)
  {
    RotateNPermutes(q, j);
    var w, r := Invocations(q, k)[j..j + |q|], RotateN(q, j);
    forall i | 0 <= i < |q|
      ensures w[i] == r[i]
    {
      InvocationsAt(q, k, j + i);
      RotateNAt(q, j, i);
    }
    assert w == r;
  }
}
