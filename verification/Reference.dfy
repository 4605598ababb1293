/**
 What one row of each kernel computes, with the order of every reduction written out as a left fold.
 Both inference paths are proved against these functions and share nothing else.
 */
module Reference {
  import opened Arithmetic
  import opened Matrices

  /** ((0 + x[0]) + x[1]) + ... over the first n elements. */
  ghost function SumTo<F>(o: Ops<F>, x: seq<F>, n: nat): F
    requires n <= |x|
  {
    if n == 0 then o.zero else o.Add(SumTo(o, x, n - 1), x[n - 1])
  }

  ghost function SquaresTo<F>(o: Ops<F>, x: seq<F>, mean: F, n: nat): F
    requires n <= |x|
  {
    if n == 0 then o.zero
    else
      var shifted := o.Sub(x[n - 1], mean);
      o.Add(SquaresTo(o, x, mean, n - 1), o.Mul(shifted, shifted))
  }

  ghost function Mean<F>(o: Ops<F>, x: seq<F>): F {
    o.Div(SumTo(o, x, |x|), o.OfNat(|x|))
  }

  ghost function ReciprocalDeviation<F>(o: Ops<F>, x: seq<F>): F {
    var variance := o.Div(SquaresTo(o, x, Mean(o, x), |x|), o.OfNat(|x|));
    o.Div(o.one, o.Sqrt(o.Add(variance, o.epsilon)))
  }

  ghost function LayerNormAt<F>(o: Ops<F>, x: seq<F>, weight: seq<F>, bias: seq<F>, c: nat): F
    requires |weight| == |bias| == |x| && c < |x|
  {
    o.Add(o.Mul(o.Mul(ReciprocalDeviation(o, x), o.Sub(x[c], Mean(o, x))), weight[c]), bias[c])
  }

  ghost function LayerNormRow<F>(o: Ops<F>, x: seq<F>, weight: seq<F>, bias: seq<F>): (y: seq<F>)
    requires |weight| == |bias| == |x|
    ensures |y| == |x|
    ensures forall c :: 0 <= c < |x| ==> y[c] == LayerNormAt(o, x, weight, bias, c)
  {
    seq(|x|, (c: nat) requires c < |x| => LayerNormAt(o, x, weight, bias, c))
  }

  /** init + x[0] * y[0] + ... over the first n elements, accumulated from the left. */
  ghost function DotTo<F>(o: Ops<F>, init: F, x: seq<F>, y: seq<F>, n: nat): F
    requires n <= |x| && n <= |y|
  {
    if n == 0 then init
    else o.Add(DotTo(o, init, x, y, n - 1), o.Mul(x[n - 1], y[n - 1]))
  }

  /** The value a linear output channel starts from. */
  ghost function BiasAt<F>(o: Ops<F>, bias: seq<F>, c: nat): F
    requires bias == [] || c < |bias|
  {
    if bias == [] then o.zero else bias[c]
  }

  ghost function LinearAt<F>(o: Ops<F>, x: seq<F>, weight: seq<seq<F>>, bias: seq<F>, c: nat): F
    requires IsMatrix(weight, |weight|, |x|) && c < |weight|
    requires bias == [] || |bias| == |weight|
  {
    DotTo(o, BiasAt(o, bias, c), x, weight[c], |x|)
  }

  ghost function LinearRow<F>(o: Ops<F>, x: seq<F>, weight: seq<seq<F>>, bias: seq<F>): (y: seq<F>)
    requires IsMatrix(weight, |weight|, |x|)
    requires bias == [] || |bias| == |weight|
    ensures |y| == |weight|
    ensures forall c :: 0 <= c < |weight| ==> y[c] == LinearAt(o, x, weight, bias, c)
  {
    seq(|weight|, (c: nat) requires c < |weight| => LinearAt(o, x, weight, bias, c))
  }

  ghost function GeluAt<F>(o: Ops<F>, v: F): F {
    var cube := o.Mul(o.Mul(o.Mul(o.cubic, v), v), v);
    o.Mul(o.Mul(o.half, v), o.Add(o.one, o.Tanh(o.Mul(o.Sqrt(o.twoOverPi), o.Add(v, cube)))))
  }

  ghost function GeluRow<F>(o: Ops<F>, x: seq<F>): (y: seq<F>)
    ensures |y| == |x|
    ensures forall c :: 0 <= c < |x| ==> y[c] == GeluAt(o, x[c])
  {
    seq(|x|, (c: nat) requires c < |x| => GeluAt(o, x[c]))
  }

  ghost function AddRow<F>(o: Ops<F>, x: seq<F>, d: seq<F>): (y: seq<F>)
    requires |x| == |d|
    ensures |y| == |x|
    ensures forall c :: 0 <= c < |x| ==> y[c] == o.Add(x[c], d[c])
  {
    seq(|x|, (c: nat) requires c < |x| => o.Add(x[c], d[c]))
  }

  // One attention head occupies the channels [lo, lo + size) of a query, key or value row.

  ghost function Score<F>(o: Ops<F>, q: seq<F>, k: seq<F>, lo: nat, size: nat): F
    requires lo + size <= |q| == |k|
  {
    o.Mul(DotTo(o, o.zero, q[lo..lo + size], k[lo..lo + size], size), o.Div(o.one, o.Sqrt(o.OfNat(size))))
  }

  ghost function Scores<F>(o: Ops<F>, q: seq<F>, keys: seq<seq<F>>, lo: nat, size: nat): (s: seq<F>)
    requires lo + size <= |q| && IsMatrix(keys, |keys|, |q|)
    ensures |s| == |keys|
    ensures forall i :: 0 <= i < |keys| ==> s[i] == Score(o, q, keys[i], lo, size)
  {
    seq(|keys|, (i: nat) requires i < |keys| => Score(o, q, keys[i], lo, size))
  }

  ghost function MaxTo<F>(o: Ops<F>, x: seq<F>, n: nat): F
    requires n <= |x|
  {
    if n == 0 then o.lowest else o.Max(MaxTo(o, x, n - 1), x[n - 1])
  }

  /** The shifted exponentials of all the scores. */
  ghost function Exponentials<F>(o: Ops<F>, scores: seq<F>): (e: seq<F>)
    ensures |e| == |scores|
    ensures forall i :: 0 <= i < |scores| ==>
              e[i] == o.Exp(o.Sub(scores[i], MaxTo(o, scores, |scores|)))
  {
    seq(|scores|, (i: nat) requires i < |scores| =>
      o.Exp(o.Sub(scores[i], MaxTo(o, scores, |scores|))))
  }

  /** The reciprocal of the softmax denominator, with the source's guard for a zero sum. */
  ghost function InverseSum<F>(o: Ops<F>, e: seq<F>): F {
    var sum := SumTo(o, e, |e|);
    if o.IsZero(sum) then o.zero else o.Div(o.one, sum)
  }

  /** Channel c of the first n value rows, weighted by e[i] * inverse. */
  ghost function WeightedTo<F>(o: Ops<F>, e: seq<F>, inverse: F, values: seq<seq<F>>, c: nat, n: nat): F
    requires n <= |e| <= |values|
    requires forall i :: 0 <= i < |values| ==> c < |values[i]|
  {
    if n == 0 then o.zero
    else o.Add(WeightedTo(o, e, inverse, values, c, n - 1),
               o.Mul(o.Mul(e[n - 1], inverse), values[n - 1][c]))
  }

  /** Channel c of the output of the head at [lo, lo + size). */
  ghost function HeadAt<F>(o: Ops<F>, q: seq<F>, keys: seq<seq<F>>, values: seq<seq<F>>,
                           lo: nat, size: nat, c: nat): F
    requires lo + size <= |q| && c < |q|
    requires IsMatrix(keys, |keys|, |q|) && IsMatrix(values, |keys|, |q|)
  {
    var e := Exponentials(o, Scores(o, q, keys, lo, size));
    WeightedTo(o, e, InverseSum(o, e), values, c, |e|)
  }

  ghost predicate ValidHeads(channels: nat, heads: nat) {
    heads != 0 && channels != 0 && channels % heads == 0
  }

  /** Where the head of channel c starts. */
  ghost function HeadStart(channels: nat, heads: nat, c: nat): (lo: nat)
    requires ValidHeads(channels, heads) && c < channels
    ensures lo <= c < lo + channels / heads <= channels
  {
    HeadDivides(channels, heads);
    HeadIndex(c, channels / heads, heads);
    c / (channels / heads) * (channels / heads)
  }

  lemma HeadIndex(c: nat, size: nat, heads: nat)
    requires size > 0 && c < heads * size
    ensures c / size < heads
    ensures 0 <= c / size * size <= c < c / size * size + size <= heads * size
  {
    var h := c / size;
    assert h * size <= c < (h + 1) * size;
    LessFactor(h, heads, size);
    RowFits(h, heads, size);
  }

  lemma HeadSize(channels: nat, heads: nat, size: nat)
    requires ValidHeads(channels, heads) && heads * size == channels
    ensures channels / heads == size
  {
    QuotientIs(channels, heads, size);
  }

  lemma LessFactor(h: nat, heads: nat, size: nat)
    requires h * size < heads * size
    ensures h < heads
  {
  }

  lemma HeadDivides(channels: nat, heads: nat)
    requires ValidHeads(channels, heads)
    ensures channels / heads > 0 && heads * (channels / heads) == channels
  {
  }

  /** Head h starts at h * size, and every channel of it has that start. */
  lemma HeadStartOf(channels: nat, heads: nat, h: nat)
    requires ValidHeads(channels, heads) && h < heads
    ensures h * (channels / heads) + channels / heads <= channels
    ensures forall c :: h * (channels / heads) <= c < h * (channels / heads) + channels / heads ==>
              HeadStart(channels, heads, c) == h * (channels / heads)
  {
    HeadDivides(channels, heads);
    var size := channels / heads;
    RowFits(h, heads, size);
    forall c | h * size <= c < h * size + size ensures HeadStart(channels, heads, c) == h * size {
      QuotientIs(c, size, h);
    }
  }

  lemma QuotientIs(c: nat, size: nat, h: nat)
    requires h * size <= c < h * size + size
    ensures c / size == h
  {
    var q := c / size;
    assert q * size <= c < q * size + size;
    if q < h {
      RowFits(q, h, size);
    } else if q > h {
      RowFits(h, q, size);
    }
  }

  /** One row of multi-head attention over the given key and value rows. */
  ghost function AttentionRow<F>(o: Ops<F>, q: seq<F>, keys: seq<seq<F>>, values: seq<seq<F>>,
                                 heads: nat): (y: seq<F>)
    requires ValidHeads(|q|, heads)
    requires IsMatrix(keys, |keys|, |q|) && IsMatrix(values, |keys|, |q|)
    ensures |y| == |q|
  {
    seq(|q|, (c: nat) requires c < |q| =>
      HeadAt(o, q, keys, values, HeadStart(|q|, heads, c), |q| / heads, c))
  }

  /** The output channels of the head at [lo, lo + size). */
  ghost function HeadRow<F>(o: Ops<F>, q: seq<F>, keys: seq<seq<F>>, values: seq<seq<F>>,
                            lo: nat, size: nat): (y: seq<F>)
    requires lo + size <= |q|
    requires IsMatrix(keys, |keys|, |q|) && IsMatrix(values, |keys|, |q|)
    ensures |y| == size
    ensures forall i :: 0 <= i < size ==> y[i] == HeadAt(o, q, keys, values, lo, size, lo + i)
  {
    seq(size, (i: nat) requires i < size => HeadAt(o, q, keys, values, lo, size, lo + i))
  }

  /** Head h of an attention row is its slice at h * size. */
  lemma AttentionHead<F>(o: Ops<F>, q: seq<F>, keys: seq<seq<F>>, values: seq<seq<F>>, heads: nat, h: nat,
                         lo: nat, size: nat)
    requires ValidHeads(|q|, heads) && h < heads
    requires IsMatrix(keys, |keys|, |q|) && IsMatrix(values, |keys|, |q|)
    requires size == |q| / heads && lo == h * size
    ensures lo + size <= |q|
    ensures AttentionRow(o, q, keys, values, heads)[lo..lo + size] == HeadRow(o, q, keys, values, lo, size)
  {
    HeadStartOf(|q|, heads, h);
  }

  /** The key channels [C, 2C) of the first n rows of a qkv matrix. */
  ghost function KeyRows<F>(qkv: seq<seq<F>>, n: nat, channels: nat): (k: seq<seq<F>>)
    requires n <= |qkv| && IsMatrix(qkv, |qkv|, 3 * channels)
    ensures IsMatrix(k, n, channels)
    ensures forall s :: 0 <= s < n ==> k[s] == qkv[s][channels..2 * channels]
  {
    seq(n, (s: nat) requires s < n => qkv[s][channels..2 * channels])
  }

  /** The value channels [2C, 3C) of the first n rows of a qkv matrix. */
  ghost function ValueRows<F>(qkv: seq<seq<F>>, n: nat, channels: nat): (v: seq<seq<F>>)
    requires n <= |qkv| && IsMatrix(qkv, |qkv|, 3 * channels)
    ensures IsMatrix(v, n, channels)
    ensures forall s :: 0 <= s < n ==> v[s] == qkv[s][2 * channels..]
  {
    seq(n, (s: nat) requires s < n => qkv[s][2 * channels..])
  }

  /** Row r of causal attention: the query of row r over the keys and values of rows 0 to r. */
  ghost function CausalRow<F>(o: Ops<F>, qkv: seq<seq<F>>, r: nat, channels: nat, heads: nat): (y: seq<F>)
    requires r < |qkv| && IsMatrix(qkv, |qkv|, 3 * channels) && ValidHeads(channels, heads)
    ensures |y| == channels
  {
    AttentionRow(o, qkv[r][..channels], KeyRows(qkv, r + 1, channels), ValueRows(qkv, r + 1, channels), heads)
  }

  // The same, row by row over a whole matrix.

  ghost function LayerNormRows<F>(o: Ops<F>, x: seq<seq<F>>, weight: seq<F>, bias: seq<F>): (y: seq<seq<F>>)
    requires |weight| == |bias| && IsMatrix(x, |x|, |weight|)
    ensures IsMatrix(y, |x|, |weight|)
    ensures forall r :: 0 <= r < |x| ==> y[r] == LayerNormRow(o, x[r], weight, bias)
  {
    seq(|x|, (r: nat) requires r < |x| => LayerNormRow(o, x[r], weight, bias))
  }

  ghost function LinearRows<F>(o: Ops<F>, x: seq<seq<F>>, weight: seq<seq<F>>, bias: seq<F>,
                               input: nat): (y: seq<seq<F>>)
    requires IsMatrix(x, |x|, input) && IsMatrix(weight, |weight|, input)
    requires bias == [] || |bias| == |weight|
    ensures IsMatrix(y, |x|, |weight|)
    ensures forall r :: 0 <= r < |x| ==> y[r] == LinearRow(o, x[r], weight, bias)
  {
    seq(|x|, (r: nat) requires r < |x| => LinearRow(o, x[r], weight, bias))
  }

  ghost function CausalRows<F>(o: Ops<F>, qkv: seq<seq<F>>, channels: nat, heads: nat): (y: seq<seq<F>>)
    requires IsMatrix(qkv, |qkv|, 3 * channels) && ValidHeads(channels, heads)
    ensures IsMatrix(y, |qkv|, channels)
    ensures forall r :: 0 <= r < |qkv| ==> y[r] == CausalRow(o, qkv, r, channels, heads)
  {
    seq(|qkv|, (r: nat) requires r < |qkv| => CausalRow(o, qkv, r, channels, heads))
  }
}
