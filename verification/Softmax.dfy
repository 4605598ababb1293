/**
 The attention kernels over exact reals, with any positive exponential that is 1 at 0: the weights of a
 head are a softmax, and its output a weighted mean of the value rows it may see.
 */
module Softmax {
  import opened Arithmetic
  import opened ExactReals
  import opened Matrices
  import opened Reference

  /** The running maximum bounds the scores, and is one of them when one is not below lowest. */
  lemma {:induction false} MaximumReached(o: Ops<real>, scores: seq<real>, n: nat)
    requires Exact(o) && n <= |scores|
    ensures forall i :: 0 <= i < n ==> scores[i] <= MaxTo(o, scores, n)
    ensures MaxTo(o, scores, n) >= o.lowest
    ensures MaxTo(o, scores, n) == o.lowest || exists i :: 0 <= i < n && scores[i] == MaxTo(o, scores, n)
  {
    if n > 0 {
      MaximumReached(o, scores, n - 1);
    }
  }

  /** A sum of positive numbers is at least each of them. */
  lemma {:induction false} SumAtLeast(e: seq<real>)
    requires forall i :: 0 <= i < |e| ==> e[i] > 0.0
    ensures RealSum(e) >= 0.0
    ensures forall i :: 0 <= i < |e| ==> RealSum(e) >= e[i]
  {
    if e != [] {
      SumAtLeast(e[..|e| - 1]);
    }
  }

  /**
   The denominator is positive, so the guard for a zero sum never fires; it is at least 1 unless every
   score is below lowest.
   */
  lemma DenominatorPositive(o: Ops<real>, scores: seq<real>)
    requires Exact(o) && scores != []
    ensures var e := Exponentials(o, scores);
            && RealSum(e) > 0.0
            && InverseSum(o, e) == 1.0 / RealSum(e)
            && ((exists i :: 0 <= i < |scores| && scores[i] >= o.lowest) ==> RealSum(e) >= 1.0)
  {
    var e, n := Exponentials(o, scores), |scores|;
    MaximumReached(o, scores, n);
    ExponentialsPositive(o, scores);
    SumAtLeast(e);
    SumIsWhole(o, e);
    assert RealSum(e) >= e[0] > 0.0;
    if exists i :: 0 <= i < n && scores[i] >= o.lowest {
      var j :| 0 <= j < n && scores[j] == MaxTo(o, scores, n);
      assert e[j] == 1.0;
    }
  }

  /** The weight given to each visible row: its exponential times the inverse sum. */
  ghost function Weights(o: Ops<real>, e: seq<real>, inverse: real): (w: seq<real>)
    ensures |w| == |e| && forall i :: 0 <= i < |e| ==> w[i] == o.Mul(e[i], inverse)
  {
    seq(|e|, (i: nat) requires i < |e| => o.Mul(e[i], inverse))
  }

  lemma WeightAt(o: Ops<real>, e: seq<real>, inverse: real, i: nat)
    requires Exact(o) && i < |e|
    ensures Weights(o, e, inverse)[i] == e[i] * inverse
  {
  }

  lemma ExponentialsPositive(o: Ops<real>, scores: seq<real>)
    requires Exact(o)
    ensures forall i :: 0 <= i < |scores| ==> Exponentials(o, scores)[i] > 0.0
  {
    forall i | 0 <= i < |scores| ensures Exponentials(o, scores)[i] > 0.0 {
      ExpPositive(o, o.Sub(scores[i], MaxTo(o, scores, |scores|)));
    }
  }

  lemma ExpPositive(o: Ops<real>, x: real)
    requires Exact(o)
    ensures o.Exp(x) > 0.0
  {
  }

  /** The weights are non-negative and sum to 1. */
  lemma WeightsSumToOne(o: Ops<real>, scores: seq<real>)
    requires Exact(o) && scores != []
    ensures var e := Exponentials(o, scores);
            var w := Weights(o, e, InverseSum(o, e));
            (forall i :: 0 <= i < |w| ==> w[i] >= 0.0) && RealSum(w) == 1.0
  {
    hide *;
    var e := Exponentials(o, scores);
    var inverse := InverseSum(o, e);
    var w := Weights(o, e, inverse);
    DenominatorPositive(o, scores);
    ExponentialsPositive(o, scores);
    forall i | 0 <= i < |e| ensures w[i] == e[i] * inverse && w[i] >= 0.0 {
      WeightAt(o, e, inverse, i);
      Reciprocal(RealSum(e));
      PositiveProduct(e[i], inverse);
    }
    SumScaled(e, w, inverse);
    Reciprocal(RealSum(e));
  }

  /** Channel c of some rows. */
  ghost function Column(rows: seq<seq<real>>, c: nat): (v: seq<real>)
    requires forall i :: 0 <= i < |rows| ==> c < |rows[i]|
    ensures |v| == |rows| && forall i :: 0 <= i < |rows| ==> v[i] == rows[i][c]
  {
    seq(|rows|, (i: nat) requires i < |rows| => rows[i][c])
  }

  /** The weighted accumulation of the output loop is the sum of weight times value. */
  lemma {:induction false} WeightedIs(o: Ops<real>, e: seq<real>, inverse: real, w: seq<real>, values: seq<seq<real>>,
                                      c: nat, n: nat)
    requires Exact(o) && n <= |e| == |w| == |values| && w == Weights(o, e, inverse)
    requires forall i :: 0 <= i < |values| ==> c < |values[i]|
    ensures WeightedTo(o, e, inverse, values, c, n) == RealDot(w[..n], Column(values, c)[..n])
  {
    hide Exact, Weights, RealDot, WeightedTo;
    if n == 0 {
      NothingWeighted(o, e, inverse, values, c);
    } else {
      WeightedIs(o, e, inverse, w, values, c, n - 1);
      DotOfNext(w, Column(values, c), n - 1);
      WeightedStep(o, e, inverse, w, values, c, n);
    }
  }

  lemma NothingWeighted(o: Ops<real>, e: seq<real>, inverse: real, values: seq<seq<real>>, c: nat)
    requires Exact(o) && |e| <= |values| && forall i :: 0 <= i < |values| ==> c < |values[i]|
    ensures WeightedTo(o, e, inverse, values, c, 0) == 0.0 == RealDot([], [])
  {
  }

  lemma WeightedStep(o: Ops<real>, e: seq<real>, inverse: real, w: seq<real>, values: seq<seq<real>>, c: nat, n: nat)
    requires Exact(o) && 0 < n <= |e| == |w| <= |values| && w == Weights(o, e, inverse)
    requires forall i :: 0 <= i < |values| ==> c < |values[i]|
    ensures WeightedTo(o, e, inverse, values, c, n)
         == WeightedTo(o, e, inverse, values, c, n - 1) + w[n - 1] * values[n - 1][c]
  {
  }

  /** Between non-negative weights, any bounds of the values carry over. */
  lemma {:induction false} MixBetween(w: seq<real>, v: seq<real>, least: real, greatest: real)
    requires |w| == |v| && forall i :: 0 <= i < |w| ==> w[i] >= 0.0 && least <= v[i] <= greatest
    ensures least * RealSum(w) <= RealDot(w, v) <= greatest * RealSum(w)
  {
    hide *;
    if w == [] {
      SumOfZeros(w);
      DotOfZeros(w, v);
    } else {
      var n := |w| - 1;
      MixBetween(w[..n], v[..n], least, greatest);
      DotOfLast(w, v, n);
      Between(RealSum(w[..n]), RealDot(w[..n], v[..n]), w[n], least, v[n], greatest);
    }
  }

  lemma Between(total: real, before: real, w: real, least: real, v: real, greatest: real)
    requires w >= 0.0 && least <= v <= greatest && least * total <= before <= greatest * total
    ensures least * (total + w) <= before + w * v <= greatest * (total + w)
  {
    assert least * w <= w * v <= greatest * w;
  }

  /** Each output channel of attention lies between the least and the greatest value it may see. */
  lemma OutputBetween(o: Ops<real>, q: seq<real>, keys: seq<seq<real>>, values: seq<seq<real>>, heads: nat, c: nat,
                      least: real, greatest: real)
    requires Exact(o) && ValidHeads(|q|, heads) && c < |q| && keys != []
    requires IsMatrix(keys, |keys|, |q|) && IsMatrix(values, |keys|, |q|)
    requires forall i :: 0 <= i < |values| ==> least <= values[i][c] <= greatest
    ensures least <= AttentionRow(o, q, keys, values, heads)[c] <= greatest
  {
    hide Exact, RealSum, WeightedTo, InverseSum, Weights, AttentionRow, Exponentials, HeadStart, Score, Scores, RealDot;
    var scores := Scores(o, q, keys, HeadStart(|q|, heads, c), |q| / heads);
    ChannelIs(o, q, keys, values, heads, c);
    WeightsSumToOne(o, scores);
    MixBetween(WeightsOf(o, scores), Column(values, c), least, greatest);
  }

  /** The weights of the visible rows for some scores. */
  ghost function WeightsOf(o: Ops<real>, scores: seq<real>): (w: seq<real>)
    ensures |w| == |scores|
  {
    Weights(o, Exponentials(o, scores), InverseSum(o, Exponentials(o, scores)))
  }

  /** An output channel is the sum of weight times value over the visible rows. */
  lemma ChannelIs(o: Ops<real>, q: seq<real>, keys: seq<seq<real>>, values: seq<seq<real>>, heads: nat, c: nat)
    requires Exact(o) && ValidHeads(|q|, heads) && c < |q|
    requires IsMatrix(keys, |keys|, |q|) && IsMatrix(values, |keys|, |q|)
    ensures forall i :: 0 <= i < |values| ==> c < |values[i]|
    ensures var scores := Scores(o, q, keys, HeadStart(|q|, heads, c), |q| / heads);
            AttentionRow(o, q, keys, values, heads)[c] == RealDot(WeightsOf(o, scores), Column(values, c))
  {
    hide Exact, RealSum, WeightedTo, InverseSum, Weights, AttentionRow, Exponentials, HeadStart, Score, Scores;
    var scores := Scores(o, q, keys, HeadStart(|q|, heads, c), |q| / heads);
    var e := Exponentials(o, scores);
    var w := WeightsOf(o, scores);
    ChannelOf(o, q, keys, values, heads, c);
    WeightedIs(o, e, InverseSum(o, e), w, values, c, |values|);
    assert w[..|values|] == w && Column(values, c)[..|values|] == Column(values, c);
  }

  lemma ChannelOf(o: Ops<real>, q: seq<real>, keys: seq<seq<real>>, values: seq<seq<real>>, heads: nat, c: nat)
    requires ValidHeads(|q|, heads) && c < |q|
    requires IsMatrix(keys, |keys|, |q|) && IsMatrix(values, |keys|, |q|)
    ensures forall i :: 0 <= i < |values| ==> c < |values[i]|
    ensures var scores := Scores(o, q, keys, HeadStart(|q|, heads, c), |q| / heads);
            var e := Exponentials(o, scores);
            AttentionRow(o, q, keys, values, heads)[c] == WeightedTo(o, e, InverseSum(o, e), values, c, |e|)
  {
  }

  /** The exponentials without the shift by the maximum. */
  ghost function Unshifted(o: Ops<real>, scores: seq<real>): (u: seq<real>)
    ensures |u| == |scores| && forall i :: 0 <= i < |scores| ==> u[i] == o.Exp(scores[i])
  {
    seq(|scores|, (i: nat) requires i < |scores| => o.Exp(scores[i]))
  }

  /** When exp(x + y) = exp(x) * exp(y), the shift by the maximum changes no weight. */
  lemma ShiftIrrelevant(o: Ops<real>, scores: seq<real>, i: nat)
    requires Exact(o) && Homomorphic(o) && i < |scores|
    ensures RealSum(Unshifted(o, scores)) > 0.0
    ensures WeightsOf(o, scores)[i] == Unshifted(o, scores)[i] / RealSum(Unshifted(o, scores))
  {
    hide *;
    var e, u, m := Exponentials(o, scores), Unshifted(o, scores), MaxTo(o, scores, |scores|);
    DenominatorPositive(o, scores);
    ExpPositive(o, m);
    forall j | 0 <= j < |scores| ensures u[j] == e[j] * o.Exp(m) {
      ShiftedExponential(o, scores, j);
    }
    SumScaled(e, u, o.Exp(m));
    WeightsAre(o, scores);
    WeightAt(o, e, InverseSum(o, e), i);
    SameQuotient(e[i], RealSum(e), o.Exp(m));
  }

  lemma WeightsAre(o: Ops<real>, scores: seq<real>)
    ensures WeightsOf(o, scores) == Weights(o, Exponentials(o, scores), InverseSum(o, Exponentials(o, scores)))
  {
  }

  /** The softmax of some scores: exp of each over the sum of them all, with no shift and no guard. */
  ghost function SoftmaxOf(o: Ops<real>, scores: seq<real>): (w: seq<real>)
    requires RealSum(Unshifted(o, scores)) > 0.0
    ensures |w| == |scores|
    ensures forall i :: 0 <= i < |scores| ==> w[i] == o.Exp(scores[i]) / RealSum(Unshifted(o, scores))
  {
    seq(|scores|, (i: nat) requires i < |scores| => o.Exp(scores[i]) / RealSum(Unshifted(o, scores)))
  }

  /** The attention scores of a head: the dot product of query and key over its channels, over a root. */
  ghost function RealScores(q: seq<real>, keys: seq<seq<real>>, lo: nat, size: nat, root: real): (s: seq<real>)
    requires lo + size <= |q| && IsMatrix(keys, |keys|, |q|) && root > 0.0
    ensures |s| == |keys|
    ensures forall j :: 0 <= j < |keys| ==> s[j] == RealDot(q[lo..lo + size], keys[j][lo..lo + size]) / root
  {
    seq(|keys|, (j: nat) requires j < |keys| => RealDot(q[lo..lo + size], keys[j][lo..lo + size]) / root)
  }

  /** The scores of the kernels are those, with the square root of the head size. */
  lemma ScoresAre(o: Ops<real>, q: seq<real>, keys: seq<seq<real>>, lo: nat, size: nat, root: real)
    requires Exact(o) && Root(o, size as real, root)
    requires lo + size <= |q| && IsMatrix(keys, |keys|, |q|)
    ensures Scores(o, q, keys, lo, size) == RealScores(q, keys, lo, size, root)
  {
    forall j | 0 <= j < |keys|
      ensures Score(o, q, keys[j], lo, size) == RealDot(q[lo..lo + size], keys[j][lo..lo + size]) / root
    {
      ScoreIs(o, q, keys[j], lo, size, root);
    }
  }

  lemma ScoreIs(o: Ops<real>, q: seq<real>, k: seq<real>, lo: nat, size: nat, root: real)
    requires Exact(o) && Root(o, size as real, root) && lo + size <= |q| == |k|
    ensures Score(o, q, k, lo, size) == RealDot(q[lo..lo + size], k[lo..lo + size]) / root
  {
    var dot := DotTo(o, o.zero, q[lo..lo + size], k[lo..lo + size], size);
    Counted(o, size);
    Divided(o, 1.0, root);
    Multiplied(o, dot, 1.0 / root);
    DotIsWhole(o, 0.0, q[lo..lo + size], k[lo..lo + size]);
    OverRoot(dot, root);
    assert o.zero == 0.0 && o.one == 1.0;
    hide DotTo, RealDot, Exact;
  }

  lemma OverRoot(x: real, root: real)
    requires root > 0.0
    ensures x * (1.0 / root) == x / root
  {
  }

  /**
   Attention in plain arithmetic: channel i of head h is the sum over the visible rows of the softmax of
   the head's scores times the value, a score being the dot product of query and key over the channels of
   the head divided by the square root of their number.
   */
  lemma OutputIsSoftmax(o: Ops<real>, q: seq<real>, keys: seq<seq<real>>, values: seq<seq<real>>, heads: nat,
                        h: nat, lo: nat, size: nat, i: nat, root: real)
    requires Exact(o) && Homomorphic(o) && Root(o, size as real, root)
    requires ValidHeads(|q|, heads) && h < heads && size == |q| / heads && lo == h * size && lo + size <= |q|
    requires i < size && keys != [] && IsMatrix(keys, |keys|, |q|) && IsMatrix(values, |keys|, |q|)
    ensures var scores := RealScores(q, keys, lo, size, root);
            && RealSum(Unshifted(o, scores)) > 0.0
            && AttentionRow(o, q, keys, values, heads)[lo + i] == RealDot(SoftmaxOf(o, scores), Column(values, lo + i))
  {
    hide Exact, Homomorphic, RealSum, AttentionRow, HeadStart, Score, Scores, RealDot, Unshifted, WeightsOf;
    hide ValidHeads, RealScores, SoftmaxOf;
    HeadStartOf(|q|, heads, h);
    ScoresAre(o, q, keys, lo, size, root);
    var scores := RealScores(q, keys, lo, size, root);
    ChannelIs(o, q, keys, values, heads, lo + i);
    ShiftIrrelevant(o, scores, 0);
    forall j | 0 <= j < |scores| ensures WeightsOf(o, scores)[j] == SoftmaxOf(o, scores)[j] {
      ShiftIrrelevant(o, scores, j);
    }
    assert WeightsOf(o, scores) == SoftmaxOf(o, scores);
  }

  /** The scores of row r of an interleaved buffer against the rows it may see. */
  ghost function CausalScores(x: seq<seq<real>>, r: nat, channels: nat, lo: nat, size: nat, root: real): (s: seq<real>)
    requires r < |x| && IsMatrix(x, |x|, 3 * channels) && lo + size <= channels && root > 0.0
    ensures |s| == r + 1
    ensures forall j :: 0 <= j <= r ==>
              s[j] == RealDot(x[r][lo..lo + size], x[j][channels + lo..channels + lo + size]) / root
  {
    seq(r + 1, (j: nat) requires j <= r =>
      RealDot(x[r][lo..lo + size], x[j][channels + lo..channels + lo + size]) / root)
  }

  /**
   The same for row r of the causal kernel, in the channels of the interleaved buffer: queries in the
   first third, keys in the second, values in the last, and the rows 0 to r visible.
   */
  lemma CausalIsSoftmax(o: Ops<real>, x: seq<seq<real>>, r: nat, channels: nat, heads: nat, h: nat, lo: nat, size: nat,
                        i: nat, root: real)
    requires Exact(o) && Homomorphic(o) && Root(o, size as real, root)
    requires r < |x| && IsMatrix(x, |x|, 3 * channels) && ValidHeads(channels, heads)
    requires h < heads && size == channels / heads && lo == h * size && lo + size <= channels && i < size
    ensures var scores := CausalScores(x, r, channels, lo, size, root);
            && RealSum(Unshifted(o, scores)) > 0.0
            && CausalRow(o, x, r, channels, heads)[lo + i]
               == RealDot(SoftmaxOf(o, scores), Column(x[..r + 1], 2 * channels + lo + i))
  {
    hide *;
    CausalParts(o, x, r, channels, heads, lo + i);
    RootPositive(o, size as real, root);
    var q, k, v := x[r][..channels], KeyRows(x, r + 1, channels), ValueRows(x, r + 1, channels);
    OutputIsSoftmax(o, q, k, v, heads, h, lo, size, i, root);
    CausalScoresAre(x, r, channels, lo, size, root);
  }

  lemma RootPositive(o: Ops<real>, v: real, root: real)
    requires Root(o, v, root)
    ensures root > 0.0
  {
  }

  lemma CausalParts(o: Ops<real>, x: seq<seq<real>>, r: nat, channels: nat, heads: nat, c: nat)
    requires r < |x| && IsMatrix(x, |x|, 3 * channels) && ValidHeads(channels, heads) && c < channels
    ensures |x[r]| == 3 * channels
    ensures var q, k, v := x[r][..channels], KeyRows(x, r + 1, channels), ValueRows(x, r + 1, channels);
            && |q| == channels && ValidHeads(|q|, heads) && |q| / heads == channels / heads
            && k != [] && IsMatrix(k, |k|, |q|) && IsMatrix(v, |k|, |q|)
            && CausalRow(o, x, r, channels, heads) == AttentionRow(o, q, k, v, heads)
            && Column(v, c) == Column(x[..r + 1], 2 * channels + c)
  {
    hide AttentionRow, Exact, ValidHeads;
  }

  lemma CausalScoresAre(x: seq<seq<real>>, r: nat, channels: nat, lo: nat, size: nat, root: real)
    requires r < |x| && IsMatrix(x, |x|, 3 * channels) && lo + size <= channels && root > 0.0
    ensures RealScores(x[r][..channels], KeyRows(x, r + 1, channels), lo, size, root)
         == CausalScores(x, r, channels, lo, size, root)
  {
    hide RealDot;
    var k := KeyRows(x, r + 1, channels);
    assert x[r][..channels][lo..lo + size] == x[r][lo..lo + size];
    forall j | 0 <= j <= r ensures k[j][lo..lo + size] == x[j][channels + lo..channels + lo + size] {
      SliceOfSlice(x[j], channels, 2 * channels, lo, size);
    }
  }

  lemma ShiftedExponential(o: Ops<real>, scores: seq<real>, j: nat)
    requires Exact(o) && Homomorphic(o) && j < |scores|
    ensures Unshifted(o, scores)[j] == Exponentials(o, scores)[j] * o.Exp(MaxTo(o, scores, |scores|))
  {
    hide *;
    var m := MaxTo(o, scores, |scores|);
    Difference(o, scores[j], m);
    ExpOfSum(o, scores[j] - m, m);
    assert scores[j] - m + m == scores[j];
  }

  lemma ExpOfSum(o: Ops<real>, x: real, y: real)
    requires Homomorphic(o)
    ensures o.Exp(x + y) == o.Exp(x) * o.Exp(y)
  {
  }

  lemma SameQuotient(x: real, y: real, k: real)
    requires y > 0.0 && k > 0.0
    ensures y * k > 0.0
    ensures x * (1.0 / y) == (x * k) / (y * k)
  {
    assert (x * k) / (y * k) == x / y;
  }
}
