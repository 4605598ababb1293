/** What linear, layer_norm and gelu compute over exact reals, in plain arithmetic. */
module ExactKernels {
  import opened Arithmetic
  import opened ExactReals
  import opened Matrices
  import opened Reference

  // linear

  lemma LinearIsDot(o: Ops<real>, x: seq<real>, weight: seq<seq<real>>, bias: seq<real>, c: nat)
    requires Exact(o) && IsMatrix(weight, |weight|, |x|) && c < |weight| && (bias == [] || |bias| == |weight|)
    ensures LinearRow(o, x, weight, bias)[c] == (if bias == [] then 0.0 else bias[c]) + RealDot(x, weight[c])
  {
    hide RealDot;
    DotIsWhole(o, BiasAt(o, bias, c), x, weight[c]);
  }

  /** The output for a zero input is the bias, or zero without one. */
  lemma LinearOfZero(o: Ops<real>, x: seq<real>, weight: seq<seq<real>>, bias: seq<real>, c: nat)
    requires Exact(o) && IsMatrix(weight, |weight|, |x|) && c < |weight| && (bias == [] || |bias| == |weight|)
    requires forall i :: 0 <= i < |x| ==> x[i] == 0.0
    ensures LinearRow(o, x, weight, bias)[c] == if bias == [] then 0.0 else bias[c]
  {
    hide Exact, LinearRow, RealDot;
    LinearIsDot(o, x, weight, bias, c);
    DotOfZeros(x, weight[c]);
  }

  /** Adding t to input j adds t * weight[c][j] to output channel c. */
  lemma LinearAdds(o: Ops<real>, x: seq<real>, weight: seq<seq<real>>, bias: seq<real>, c: nat, j: nat, t: real)
    requires Exact(o) && IsMatrix(weight, |weight|, |x|) && c < |weight| && (bias == [] || |bias| == |weight|)
    requires j < |x|
    ensures LinearRow(o, x[j := x[j] + t], weight, bias)[c] == LinearRow(o, x, weight, bias)[c] + t * weight[c][j]
  {
    hide Exact, LinearRow, RealDot;
    LinearIsDot(o, x, weight, bias, c);
    LinearIsDot(o, x[j := x[j] + t], weight, bias, c);
    DotUpdated(x, weight[c], j, t);
  }

  // layer_norm

  ghost function RealMean(x: seq<real>): real
    requires x != []
  {
    RealSum(x) / |x| as real
  }

  /** How far each element is from the mean. */
  ghost function Deviations(x: seq<real>): (d: seq<real>)
    requires x != []
    ensures |d| == |x| && forall c :: 0 <= c < |x| ==> d[c] == x[c] - RealMean(x)
  {
    seq(|x|, (c: nat) requires c < |x| => x[c] - RealMean(x))
  }

  ghost function RealVariance(x: seq<real>): real
    requires x != []
  {
    RealDot(Deviations(x), Deviations(x)) / |x| as real
  }

  /** Deviations over root, scaled by the weights and shifted by the biases. */
  ghost function RealNorm(x: seq<real>, weight: seq<real>, bias: seq<real>, root: real): (y: seq<real>)
    requires |weight| == |bias| == |x| > 0 && root != 0.0
    ensures |y| == |x|
    ensures forall c :: 0 <= c < |x| ==> y[c] == Deviations(x)[c] / root * weight[c] + bias[c]
  {
    seq(|x|, (c: nat) requires c < |x| => Deviations(x)[c] / root * weight[c] + bias[c])
  }

  lemma MeanIs(o: Ops<real>, x: seq<real>)
    requires Exact(o) && x != []
    ensures Mean(o, x) == RealMean(x)
  {
    hide RealSum;
    SumIsWhole(o, x);
    Counted(o, |x|);
    Divided(o, RealSum(x), |x| as real);
  }

  lemma {:induction false} SquaresIs(o: Ops<real>, x: seq<real>, d: seq<real>, mean: real, n: nat)
    requires Exact(o) && n <= |x| == |d| && forall c :: 0 <= c < |x| ==> d[c] == x[c] - mean
    ensures SquaresTo(o, x, mean, n) == RealDot(d[..n], d[..n])
  {
    if n > 0 {
      SquaresIs(o, x, d, mean, n - 1);
      SquaresNext(o, x, d, mean, n);
      DotOfNext(d, d, n - 1);
      hide *;
    }
  }

  lemma SquaresNext(o: Ops<real>, x: seq<real>, d: seq<real>, mean: real, n: nat)
    requires Exact(o) && 0 < n <= |x| == |d| && d[n - 1] == x[n - 1] - mean
    ensures SquaresTo(o, x, mean, n) == SquaresTo(o, x, mean, n - 1) + d[n - 1] * d[n - 1]
  {
    Difference(o, x[n - 1], mean);
    Multiplied(o, d[n - 1], d[n - 1]);
  }

  lemma ReciprocalIs(o: Ops<real>, x: seq<real>, root: real)
    requires Exact(o) && x != [] && Root(o, RealVariance(x) + o.epsilon, root)
    ensures ReciprocalDeviation(o, x) == 1.0 / root
  {
    hide RealDot, RealMean;
    MeanIs(o, x);
    SquaresIs(o, x, Deviations(x), RealMean(x), |x|);
    assert Deviations(x)[..|x|] == Deviations(x);
    Counted(o, |x|);
    Divided(o, RealDot(Deviations(x), Deviations(x)), |x| as real);
    Added(o, RealVariance(x), o.epsilon);
    Divided(o, 1.0, root);
  }

  /** layer_norm is the normalised row, with the root of the variance plus epsilon. */
  lemma LayerNormIs(o: Ops<real>, x: seq<real>, weight: seq<real>, bias: seq<real>, root: real)
    requires Exact(o) && |weight| == |bias| == |x| > 0 && Root(o, RealVariance(x) + o.epsilon, root)
    ensures LayerNormRow(o, x, weight, bias) == RealNorm(x, weight, bias, root)
  {
    hide *;
    RootNonZero(o, RealVariance(x) + o.epsilon, root);
    var y, z := LayerNormRow(o, x, weight, bias), RealNorm(x, weight, bias, root);
    forall c | 0 <= c < |x| ensures y[c] == z[c] {
      LayerNormAtIs(o, x, weight, bias, root, c);
    }
    assert y == z;
  }

  lemma LayerNormAtIs(o: Ops<real>, x: seq<real>, weight: seq<real>, bias: seq<real>, root: real, c: nat)
    requires Exact(o) && |weight| == |bias| == |x| > 0 && Root(o, RealVariance(x) + o.epsilon, root) && c < |x|
    ensures root > 0.0
    ensures LayerNormAt(o, x, weight, bias, c) == Deviations(x)[c] / root * weight[c] + bias[c]
  {
    RootNonZero(o, RealVariance(x) + o.epsilon, root);
    hide *;
    var d := Deviations(x)[c];
    MeanIs(o, x);
    ReciprocalIs(o, x, root);
    Difference(o, x[c], RealMean(x));
    NormalisedIs(o, 1.0 / root, d, weight[c], bias[c]);
    OverRoot(d, root);
    LayerNormTerm(o, x, weight, bias, c, 1.0 / root, RealMean(x), d);
  }

  lemma LayerNormTerm(o: Ops<real>, x: seq<real>, weight: seq<real>, bias: seq<real>, c: nat,
                      reciprocal: real, mean: real, d: real)
    requires |weight| == |bias| == |x| && c < |x|
    requires reciprocal == ReciprocalDeviation(o, x) && mean == Mean(o, x) && d == o.Sub(x[c], mean)
    ensures LayerNormAt(o, x, weight, bias, c) == o.Add(o.Mul(o.Mul(reciprocal, d), weight[c]), bias[c])
  {
    hide ReciprocalDeviation, Mean;
  }

  lemma NormalisedIs(o: Ops<real>, reciprocal: real, d: real, weight: real, bias: real)
    requires Exact(o)
    ensures o.Add(o.Mul(o.Mul(reciprocal, d), weight), bias) == reciprocal * d * weight + bias
  {
    hide Exact;
    var scaled := o.Mul(reciprocal, d);
    var weighted := o.Mul(scaled, weight);
    Multiplied(o, reciprocal, d);
    Multiplied(o, scaled, weight);
    Added(o, weighted, bias);
  }

  lemma RootNonZero(o: Ops<real>, v: real, root: real)
    requires Root(o, v, root)
    ensures root > 0.0 && root * root == v
  {
  }

  lemma OverRoot(x: real, root: real)
    requires root > 0.0
    ensures 1.0 / root * x == x / root
  {
  }

  /** Before weight and bias the mean is zero ... */
  lemma NormHasZeroMean(x: seq<real>, ones: seq<real>, zeros: seq<real>, root: real)
    requires |ones| == |zeros| == |x| > 0 && root > 0.0
    requires forall c :: 0 <= c < |x| ==> ones[c] == 1.0 && zeros[c] == 0.0
    ensures RealSum(RealNorm(x, ones, zeros, root)) == 0.0
  {
    hide *;
    var d, z := Deviations(x), RealNorm(x, ones, zeros, root);
    forall c | 0 <= c < |x| ensures z[c] == d[c] * (1.0 / root) {
      OverRoot(d[c], root);
    }
    SumScaled(d, z, 1.0 / root);
    DeviationsCancel(x);
  }

  lemma DeviationsCancel(x: seq<real>)
    requires x != []
    ensures RealSum(Deviations(x)) == 0.0
  {
    hide RealSum;
    SumShifted(x, Deviations(x), RealMean(x));
    TimesQuotient(|x| as real, RealSum(x));
  }

  lemma TimesQuotient(n: real, s: real)
    requires n > 0.0
    ensures n * (s / n) == s
  {
  }

  /** ... and the squares add up to as many as there are elements, but for epsilon. */
  lemma NormHasUnitVariance(o: Ops<real>, x: seq<real>, ones: seq<real>, zeros: seq<real>, root: real)
    requires |ones| == |zeros| == |x| > 0 && Root(o, RealVariance(x) + o.epsilon, root)
    requires forall c :: 0 <= c < |x| ==> ones[c] == 1.0 && zeros[c] == 0.0
    ensures var z := RealNorm(x, ones, zeros, root);
            RealDot(z, z) * (RealVariance(x) + o.epsilon) == |x| as real * RealVariance(x)
  {
    hide *;
    RootNonZero(o, RealVariance(x) + o.epsilon, root);
    var d, z := Deviations(x), RealNorm(x, ones, zeros, root);
    forall c | 0 <= c < |x| ensures z[c] * root == d[c] {
      BackFromRoot(d[c], root);
    }
    DotScaled(z, d, root);
    VarianceTotal(x);
  }

  lemma VarianceTotal(x: seq<real>)
    requires x != []
    ensures |x| as real * RealVariance(x) == RealDot(Deviations(x), Deviations(x))
  {
    hide RealDot;
    TimesQuotient(|x| as real, RealDot(Deviations(x), Deviations(x)));
  }

  lemma BackFromRoot(x: real, root: real)
    requires root > 0.0
    ensures x / root * root == x
  {
  }

  /** Scaling a vector by r scales its square by r * r. */
  lemma {:induction false} DotScaled(z: seq<real>, d: seq<real>, r: real)
    requires |z| == |d| && forall c :: 0 <= c < |z| ==> z[c] * r == d[c]
    ensures RealDot(z, z) * (r * r) == RealDot(d, d)
  {
    hide *;
    if z == [] {
      DotOfZeros(z, z);
      DotOfZeros(d, d);
    } else {
      var n := |z| - 1;
      DotOfLast(z, z, n);
      DotOfLast(d, d, n);
      DotScaled(z[..n], d[..n], r);
      NextSquare(RealDot(z[..n], z[..n]), RealDot(d[..n], d[..n]), z[n], d[n], r);
    }
  }

  lemma NextSquare(a: real, b: real, x: real, y: real, r: real)
    requires a * (r * r) == b && x * r == y
    ensures (a + x * x) * (r * r) == b + y * y
  {
    SquareScaled(x, y, r);
    Distribute(a, x * x, r * r);
  }

  lemma SquareScaled(x: real, y: real, r: real)
    requires x * r == y
    ensures x * x * (r * r) == y * y
  {
    assert x * x * (r * r) == (x * r) * (x * r);
  }

  // gelu

  /** What tanh is taken of: sqrt(2 / pi) * (v + k * v * v * v). */
  ghost function GeluArgument(o: Ops<real>, v: real): real {
    o.Sqrt(o.twoOverPi) * (v + o.cubic * Cube(v))
  }

  ghost function Cube(v: real): real {
    v * v * v
  }

  lemma GeluIs(o: Ops<real>, v: real)
    requires Exact(o)
    ensures GeluAt(o, v) == o.half * v * (1.0 + o.Tanh(GeluArgument(o, v)))
  {
    hide *;
    GeluArgumentIs(o, v);
    GeluTerm(o, v, GeluArgument(o, v));
    var halved, t := o.Mul(o.half, v), o.Tanh(GeluArgument(o, v));
    Added(o, 1.0, t);
    Multiplied(o, o.half, v);
    Multiplied(o, halved, 1.0 + t);
    OneIs(o);
  }

  lemma GeluTerm(o: Ops<real>, v: real, u: real)
    requires u == o.Mul(o.Sqrt(o.twoOverPi), o.Add(v, o.Mul(o.Mul(o.Mul(o.cubic, v), v), v)))
    ensures GeluAt(o, v) == o.Mul(o.Mul(o.half, v), o.Add(o.one, o.Tanh(u)))
  {
  }

  lemma GeluArgumentIs(o: Ops<real>, v: real)
    requires Exact(o)
    ensures GeluArgument(o, v) == o.Mul(o.Sqrt(o.twoOverPi), o.Add(v, o.Mul(o.Mul(o.Mul(o.cubic, v), v), v)))
  {
    hide Exact;
    var once := o.Mul(o.cubic, v);
    var twice := o.Mul(once, v);
    Multiplied(o, o.cubic, v);
    Multiplied(o, once, v);
    Multiplied(o, twice, v);
    CubicIs(o.cubic, v, once, twice);
    hide Cube;
    var cube := o.Mul(twice, v);
    Added(o, v, cube);
    var sum := o.Add(v, cube);
    Multiplied(o, o.Sqrt(o.twoOverPi), sum);
    assert sum == v + o.cubic * Cube(v);
  }

  lemma CubicIs(k: real, v: real, once: real, twice: real)
    requires once == k * v && twice == once * v
    ensures twice * v == k * Cube(v)
  {
  }

  lemma OneIs(o: Ops<real>)
    requires Exact(o)
    ensures o.one == 1.0
  {
  }

  /** With an odd tanh, gelu(v) - gelu(-v) == v. */
  lemma GeluOdd(o: Ops<real>, v: real)
    requires Exact(o) && o.half == 0.5
    requires forall u :: o.Tanh(-u) == -o.Tanh(u)
    ensures GeluAt(o, v) - GeluAt(o, -v) == v
  {
    hide *;
    GeluIs(o, v);
    GeluIs(o, -v);
    ArgumentOdd(o, v);
    var u := GeluArgument(o, v);
    assert o.Tanh(-u) == -o.Tanh(u);
    Halves(v, o.Tanh(u));
  }

  lemma ArgumentOdd(o: Ops<real>, v: real)
    ensures GeluArgument(o, -v) == -GeluArgument(o, v)
  {
    CubeOdd(v);
    hide Cube;
    Negated(o.cubic, Cube(v));
    Negated(o.Sqrt(o.twoOverPi), v + o.cubic * Cube(v));
  }

  lemma CubeOdd(v: real)
    ensures Cube(-v) == -Cube(v)
  {
    Negated(v, v);
    Negated(v * v, v);
  }

  lemma Negated(x: real, y: real)
    ensures x * -y == -(x * y)
  {
  }

  lemma Halves(v: real, t: real)
    ensures 0.5 * v * (1.0 + t) - 0.5 * -v * (1.0 + -t) == v
  {
  }
}
