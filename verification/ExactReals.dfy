/**
 The kernels' arithmetic over exact reals, and sums written without it: what the row functions of
 Reference compute can then be said in plain arithmetic.
 */
module ExactReals {
  import opened Arithmetic
  import opened Reference

  /** Exact arithmetic; sqrt, tanh, the constants of the other kernels and lowest are left open. */
  ghost predicate Exact(o: Ops<real>) {
    && o.zero == 0.0 && o.one == 1.0
    && (forall x, y :: o.Add(x, y) == x + y)
    && (forall x, y :: o.Sub(x, y) == x - y)
    && (forall x, y :: o.Mul(x, y) == x * y)
    && (forall x, y :: y != 0.0 ==> o.Div(x, y) == x / y)
    && (forall x, y :: o.Lt(x, y) <==> x < y)
    && (forall x :: o.IsZero(x) <==> x == 0.0)
    && (forall n: nat :: o.OfNat(n) == n as real)
    && (forall x :: o.Exp(x) > 0.0) && o.Exp(0.0) == 1.0
  }

  ghost predicate Homomorphic(o: Ops<real>) {
    forall x, y :: o.Exp(x + y) == o.Exp(x) * o.Exp(y)
  }

  /** root is what sqrt gives at v, and it is the positive square root of v. */
  ghost predicate Root(o: Ops<real>, v: real, root: real) {
    root == o.Sqrt(v) && root > 0.0 && root * root == v
  }

  ghost function RealSum(x: seq<real>): real {
    if x == [] then 0.0 else RealSum(x[..|x| - 1]) + x[|x| - 1]
  }

  /** x[0] * y[0] + x[1] * y[1] + ... */
  ghost function RealDot(x: seq<real>, y: seq<real>): real
    requires |x| == |y|
  {
    if x == [] then 0.0 else RealDot(x[..|x| - 1], y[..|y| - 1]) + x[|x| - 1] * y[|y| - 1]
  }

  lemma Added(o: Ops<real>, x: real, y: real)
    requires Exact(o)
    ensures o.Add(x, y) == x + y
  {
  }

  lemma Difference(o: Ops<real>, x: real, y: real)
    requires Exact(o)
    ensures o.Sub(x, y) == x - y
  {
  }

  lemma Multiplied(o: Ops<real>, x: real, y: real)
    requires Exact(o)
    ensures o.Mul(x, y) == x * y
  {
  }

  lemma Divided(o: Ops<real>, x: real, y: real)
    requires Exact(o) && y != 0.0
    ensures o.Div(x, y) == x / y
  {
  }

  lemma Counted(o: Ops<real>, n: nat)
    requires Exact(o)
    ensures o.OfNat(n) == n as real
  {
  }

  lemma SumOfNext(x: seq<real>, n: nat)
    requires n < |x|
    ensures RealSum(x[..n + 1]) == RealSum(x[..n]) + x[n]
  {
    assert x[..n + 1][..n] == x[..n];
  }

  lemma {:induction false} SumIs(o: Ops<real>, x: seq<real>, n: nat)
    requires Exact(o) && n <= |x|
    ensures SumTo(o, x, n) == RealSum(x[..n])
  {
    if n > 0 {
      SumIs(o, x, n - 1);
      SumOfNext(x, n - 1);
    }
  }

  lemma SumIsWhole(o: Ops<real>, x: seq<real>)
    requires Exact(o)
    ensures SumTo(o, x, |x|) == RealSum(x)
  {
    SumIs(o, x, |x|);
    assert x[..|x|] == x;
  }

  lemma DotOfNext(x: seq<real>, y: seq<real>, n: nat)
    requires n < |x| == |y|
    ensures RealDot(x[..n + 1], y[..n + 1]) == RealDot(x[..n], y[..n]) + x[n] * y[n]
  {
    assert x[..n + 1][..n] == x[..n] && y[..n + 1][..n] == y[..n];
    assert x[..n + 1][n] == x[n] && y[..n + 1][n] == y[n];
  }

  lemma {:induction false} DotIs(o: Ops<real>, init: real, x: seq<real>, y: seq<real>, n: nat)
    requires Exact(o) && n <= |x| == |y|
    ensures DotTo(o, init, x, y, n) == init + RealDot(x[..n], y[..n])
  {
    if n > 0 {
      DotIs(o, init, x, y, n - 1);
      DotOfNext(x, y, n - 1);
      Multiplied(o, x[n - 1], y[n - 1]);
      hide RealDot;
    }
  }

  lemma DotIsWhole(o: Ops<real>, init: real, x: seq<real>, y: seq<real>)
    requires Exact(o) && |x| == |y|
    ensures DotTo(o, init, x, y, |x|) == init + RealDot(x, y)
  {
    DotIs(o, init, x, y, |x|);
    assert x[..|x|] == x && y[..|x|] == y;
  }

  lemma DotOfLast(x: seq<real>, y: seq<real>, n: nat)
    requires |x| == |y| == n + 1
    ensures RealDot(x, y) == RealDot(x[..n], y[..n]) + x[n] * y[n]
    ensures RealSum(x) == RealSum(x[..n]) + x[n]
  {
  }

  lemma {:induction false} DotOfZeros(x: seq<real>, y: seq<real>)
    requires |x| == |y| && forall i :: 0 <= i < |x| ==> x[i] == 0.0
    ensures RealDot(x, y) == RealDot(y, x) == 0.0
  {
    if x != [] {
      DotOfZeros(x[..|x| - 1], y[..|x| - 1]);
    }
  }

  /** Adding t to input j adds t times its factor. */
  lemma {:induction false} DotUpdated(x: seq<real>, y: seq<real>, j: nat, t: real)
    requires j < |x| == |y|
    ensures RealDot(x[j := x[j] + t], y) == RealDot(x, y) + t * y[j]
  {
    var n := |x| - 1;
    var z := x[j := x[j] + t];
    DotOfLast(x, y, n);
    DotOfLast(z, y, n);
    hide RealDot;
    if j < n {
      DotUpdated(x[..n], y[..n], j, t);
      assert z[..n] == x[..n][j := x[j] + t];
    } else {
      assert z[..n] == x[..n];
      Distribute(x[j], t, y[j]);
    }
  }

  lemma {:induction false} SumOfZeros(x: seq<real>)
    requires forall i :: 0 <= i < |x| ==> x[i] == 0.0
    ensures RealSum(x) == 0.0
  {
    if x != [] {
      SumOfZeros(x[..|x| - 1]);
    }
  }

  lemma Distribute(x: real, y: real, factor: real)
    ensures (x + y) * factor == x * factor + y * factor
  {
  }

  lemma {:induction false} SumScaled(x: seq<real>, y: seq<real>, factor: real)
    requires |x| == |y| && forall i :: 0 <= i < |x| ==> y[i] == x[i] * factor
    ensures RealSum(y) == RealSum(x) * factor
  {
    if x != [] {
      var n := |x| - 1;
      SumScaled(x[..n], y[..n], factor);
      Distribute(RealSum(x[..n]), x[n], factor);
    }
  }

  /** Subtracting m from every term subtracts it as often as there are terms. */
  lemma {:induction false} SumShifted(x: seq<real>, y: seq<real>, m: real)
    requires |x| == |y| && forall i :: 0 <= i < |x| ==> y[i] == x[i] - m
    ensures RealSum(y) == RealSum(x) - |x| as real * m
  {
    if x != [] {
      var n := |x| - 1;
      SumShifted(x[..n], y[..n], m);
      Distribute(n as real, 1.0, m);
      assert |x| as real == n as real + 1.0;
    }
  }

  lemma Reciprocal(total: real)
    requires total > 0.0
    ensures 1.0 / total > 0.0 && total * (1.0 / total) == 1.0
  {
  }

  lemma PositiveProduct(x: real, y: real)
    requires x > 0.0 && y > 0.0
    ensures x * y > 0.0
  {
  }
}
