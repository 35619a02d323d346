/** Grouping and ungrouping of sequences, and sums over them. */
module Seqs {
  function Flatten<T>(groups: seq<seq<T>>): (flat: seq<T>) {
    if groups == [] then [] else groups[0] + Flatten(groups[1..])
  }

  lemma DividedTail(total: nat, n: nat)
    requires n > 0 && total > 0 && total % n == 0
    ensures total >= n && (total - n) % n == 0
  {
    assert total == n * (total / n);
    assert total - n == n * (total / n - 1);
    MultipleMod(total / n - 1, n);
  }

  lemma MultipleMod(k: nat, n: nat)
    requires n > 0
    ensures (n * k) % n == 0 && (n * k) / n == k
  {
    DivModUnique(n * k, n, k, 0);
  }

  /** Quotient and remainder are the only pair that recomposes the dividend. */
  lemma DivModUnique(x: nat, n: nat, q: int, r: int)
    requires n > 0 && x == n * q + r && 0 <= r < n
    ensures x / n == q && x % n == r
  {
    var dq := x / n - q;
    assert n * dq == r - x % n by {
      assert x == n * (x / n) + x % n;
      assert n * dq == n * (x / n) - n * q;
    }
    if dq >= 1 {
      MulGrows(n, dq);
      assert false;
    }
    if dq <= -1 {
      MulShrinks(n, dq);
      assert false;
    }
  }

  lemma MulGrows(n: nat, k: int)
    requires k >= 1
    ensures n * k >= n
  {
    assert n * (k - 1) >= 0;
    assert n * k == n * (k - 1) + n;
  }

  lemma MulShrinks(n: int, k: int)
    requires n >= 0 && k <= -1
    ensures n * k <= -n
  {
    MulGrows(n, -k);
    assert n * k == -(n * -k);
  }

  lemma MulNext(n: int, k: int)
    ensures n * k == n + n * (k - 1)
  {
  }

  lemma {:induction false} FlattenSize<T>(groups: seq<seq<T>>, n: nat)
    requires forall i :: 0 <= i < |groups| ==> |groups[i]| == n
    ensures |Flatten(groups)| == n * |groups|
  {
    if groups != [] {
      FlattenSize(groups[1..], n);
      MulNext(n, |groups|);
    }
  }

  lemma FlattenLength<T>(groups: seq<seq<T>>, n: nat)
    requires n > 0 && forall g :: g in groups ==> |g| == n
    ensures |Flatten(groups)| == n * |groups|
    ensures |Flatten(groups)| % n == 0
  {
    FlattenSize(groups, n);
    MultipleMod(|groups|, n);
  }

  lemma {:induction false} FlattenAppend<T>(a: seq<seq<T>>, b: seq<seq<T>>)
    ensures Flatten(a + b) == Flatten(a) + Flatten(b)
  {
    if a == [] {
      assert a + b == b;
    } else {
      var all := a + b;
      assert all[0] == a[0] && all[1..] == a[1..] + b;
      FlattenAppend(a[1..], b);
      Associates(a[0], Flatten(a[1..]), Flatten(b));
    }
  }

  lemma Associates<T>(a: seq<T>, b: seq<T>, c: seq<T>)
    ensures a + (b + c) == (a + b) + c
  {
  }

  lemma FlattenSnoc<T>(a: seq<seq<T>>, g: seq<T>)
    ensures Flatten(a + [g]) == Flatten(a) + g
  {
    FlattenAppend(a, [g]);
    assert Flatten([g]) == g + Flatten<T>([]);
  }

  lemma {:induction false} FlattenMember<T>(groups: seq<seq<T>>, x: T)
    ensures x in Flatten(groups) <==> exists g :: g in groups && x in g
  {
    if groups != [] {
      FlattenMember(groups[1..], x);
      if g :| g in groups && x in g {
        if g != groups[0] { assert g in groups[1..]; }
      }
    }
  }

  function SumReal(xs: seq<real>): real {
    if xs == [] then 0.0 else xs[0] + SumReal(xs[1..])
  }

  lemma {:induction false} SumRealAppend(a: seq<real>, b: seq<real>)
    ensures SumReal(a + b) == SumReal(a) + SumReal(b)
  {
    if a == [] {
      assert a + b == b;
    } else {
      SumRealAppend(a[1..], b);
      assert (a + b)[1..] == a[1..] + b;
    }
  }

  lemma {:induction false} SumOfNone(xs: seq<real>)
    requires forall i :: 0 <= i < |xs| ==> xs[i] == 0.0
    ensures SumReal(xs) == 0.0
  {
    if xs != [] { SumOfNone(xs[1..]); }
  }

  /** A list with one possibly nonzero entry sums to that entry. */
  lemma {:induction false} SumOfOne(xs: seq<real>, k: nat)
    requires k < |xs| && forall i :: 0 <= i < |xs| && i != k ==> xs[i] == 0.0
    ensures SumReal(xs) == xs[k]
  {
    if k == 0 {
      SumOfNone(xs[1..]);
    } else {
      SumOfOne(xs[1..], k - 1);
    }
  }

  function Least(a: int, b: int): int {
    if a < b then a else b
  }

  /** Quotient and remainder of the next number. */
  lemma Successor(t: nat, n: nat)
    requires n > 0
    ensures if t % n + 1 < n then (t + 1) / n == t / n && (t + 1) % n == t % n + 1
            else (t + 1) / n == t / n + 1 && (t + 1) % n == 0
  {
    var q, r := t / n, t % n;
    assert t == n * q + r;
    if r + 1 < n {
      DivModUnique(t + 1, n, q, r + 1);
    } else {
      assert n * (q + 1) == n * q + n;
      DivModUnique(t + 1, n, q + 1, 0);
    }
  }

  lemma {:induction false} OnceThenAlways(bs: seq<bool>, i: nat, j: nat)
    requires forall k {:trigger bs[k]} :: 0 < k < |bs| && bs[k - 1] ==> bs[k]
    requires i <= j < |bs| && bs[i]
    ensures bs[j]
  {
    if i < j {
      OnceThenAlways(bs, i, j - 1);
    }
  }

  /** What held and does not at the end was lost somewhere. */
  lemma {:induction false} FirstLoss(bs: seq<bool>, k: nat) returns (j: nat)
    requires k < |bs| && bs[k] && !bs[|bs| - 1]
    ensures k <= j < |bs| - 1 && bs[j] && !bs[j + 1]
    decreases |bs| - k
  {
    if bs[k + 1] { j := FirstLoss(bs, k + 1); } else { j := k; }
  }
}
