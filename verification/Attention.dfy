/**
 The two attention kernels. causal_self_attention reads queries, keys and values out of one
 interleaved [position][3 * channels] buffer; cached_self_attention reads them from a query row and
 two [position][channels] cache layers. Each is proved against the row functions of Reference.
 */
module Attention {
  import opened Wrappers
  import opened Words
  import opened Arithmetic
  import opened Matrices
  import opened Reference
  import opened Kernels

  /** The second loop of both kernels: scores to shifted exponentials, and their guarded inverse sum. */
  method ExponentiateInPlace<F>(o: Ops<F>, scratch: array<F>, n: nat, maximum: F, ghost scores: seq<F>)
    returns (inverse: F)
    requires n == |scores| <= scratch.Length && forall i :: 0 <= i < n ==> scratch[i] == scores[i]
    requires maximum == MaxTo(o, scores, n)
    modifies scratch
    ensures scratch[..n] == Exponentials(o, scores)
    ensures inverse == InverseSum(o, Exponentials(o, scores))
  {
    ghost var e := Exponentials(o, scores);
    var sum := ExponentialSum(o, scratch, n, maximum, scores, e);
    inverse := if o.IsZero(sum) then o.zero else o.Div(o.one, sum);
  }

  method ExponentialSum<F>(o: Ops<F>, scratch: array<F>, n: nat, maximum: F, ghost scores: seq<F>, ghost e: seq<F>)
    returns (sum: F)
    requires n == |scores| == |e| <= scratch.Length && forall i :: 0 <= i < n ==> scratch[i] == scores[i]
    requires forall i :: 0 <= i < n ==> e[i] == o.Exp(o.Sub(scores[i], maximum))
    modifies scratch
    ensures scratch[..n] == e && sum == SumTo(o, e, n)
  {
    sum := o.zero;
    for source := 0 to n
      invariant sum == SumTo(o, e, source)
      invariant forall i :: 0 <= i < source ==> scratch[i] == e[i]
      invariant forall i :: source <= i < n ==> scratch[i] == scores[i]
    {
      var value := o.Exp(o.Sub(scratch[source], maximum));
      scratch[source] := value;
      sum := o.Add(sum, value);
    }
    ArrayPrefix(scratch, n, e);
  }

  /** The innermost loop of both kernels: one weighted value row v added to a head's output. */
  method AccumulateValue<F>(o: Ops<F>, output: array<F>, base: nat, probability: F,
                            values: seq<F>, valueBase: nat, size: nat, ghost v: seq<F>)
    requires base + size <= output.Length && valueBase + size <= |values|
    requires v == values[valueBase..valueBase + size]
    modifies output
    ensures forall i :: 0 <= i < output.Length ==>
              output[i] == if base <= i < base + size
                           then o.Add(old(output[i]), o.Mul(probability, v[i - base]))
                           else old(output[i])
  {
    for index := 0 to size
      invariant forall i :: 0 <= i < output.Length ==>
                  output[i] == if base <= i < base + index
                               then o.Add(old(output[i]), o.Mul(probability, v[i - base]))
                               else old(output[i])
    {
      output[base + index] := o.Add(output[base + index], o.Mul(probability, values[valueBase + index]));
    }
  }

  method FillZero<F>(o: Ops<F>, output: array<F>)
    modifies output
    ensures forall i :: 0 <= i < output.Length ==> output[i] == o.zero
  {
    for i := 0 to output.Length
      invariant forall j :: 0 <= j < i ==> output[j] == o.zero
    {
      output[i] := o.zero;
    }
  }

  lemma TripleWidth(row: nat, channels: nat)
    ensures row * 3 * channels == row * (3 * channels)
  {
  }

  /** A head-sized part of the query, key or value part [from, to) of a row of the interleaved buffer. */
  lemma QkvSlice<F>(qkv: seq<F>, rows: nat, channels: nat, row: nat, from: nat, to: nat, lo: nat, size: nat)
    requires |qkv| == rows * (3 * channels) && row < rows && from <= to <= 3 * channels && lo + size <= to - from
    ensures 0 <= row * 3 * channels && row * 3 * channels + 3 * channels <= |qkv|
    ensures qkv[row * 3 * channels + from + lo..row * 3 * channels + from + lo + size]
         == Rows(qkv, rows, 3 * channels)[row][from..to][lo..lo + size]
  {
    TripleWidth(row, channels);
    RowSlice(qkv, rows, 3 * channels, row, from + lo, size);
    SliceOfSlice(Rows(qkv, rows, 3 * channels)[row], from, to, lo, size);
  }

  /** A head written as weighted sums is that slice of the attention row. */
  lemma HeadWritten<F>(o: Ops<F>, q: seq<F>, k: seq<seq<F>>, v: seq<seq<F>>, heads: nat, h: nat,
                       lo: nat, size: nat, e: seq<F>, inverse: F, was: seq<F>, now: seq<F>, base: nat)
    requires ValidHeads(|q|, heads) && h < heads && size == |q| / heads && lo == h * size && lo + size <= |q|
    requires IsMatrix(k, |k|, |q|) && IsMatrix(v, |k|, |q|)
    requires e == Exponentials(o, Scores(o, q, k, lo, size)) && inverse == InverseSum(o, e)
    requires |now| == |was| && base + size <= |was|
    requires forall i :: 0 <= i < |was| ==>
               now[i] == if base <= i < base + size then WeightedTo(o, e, inverse, v, lo + (i - base), |e|)
                         else was[i]
    ensures now == Splice(was, base, AttentionRow(o, q, k, v, heads)[lo..lo + size])
  {
    AttentionHead(o, q, k, v, heads, h, lo, size);
    WeightedHead(o, q, k, v, lo, size, e, inverse);
  }

  lemma WeightedHead<F>(o: Ops<F>, q: seq<F>, k: seq<seq<F>>, v: seq<seq<F>>, lo: nat, size: nat,
                        e: seq<F>, inverse: F)
    requires lo + size <= |q| && IsMatrix(k, |k|, |q|) && IsMatrix(v, |k|, |q|)
    requires e == Exponentials(o, Scores(o, q, k, lo, size)) && inverse == InverseSum(o, e)
    ensures forall i :: 0 <= i < size ==>
              HeadRow(o, q, k, v, lo, size)[i] == WeightedTo(o, e, inverse, v, lo + i, |e|)
  {
  }

  /** One score of causal_self_attention: a query slice against key row source. */
  method CausalScore<F>(o: Ops<F>, qkv: seq<F>, rows: nat, queryBase: nat, source: nat,
                        lo: nat, size: nat, channels: nat, scale: F, ghost q: seq<F>, ghost keys: seq<seq<F>>)
    returns (score: F)
    requires |qkv| == rows * (3 * channels) <= SIZE_MAX && source < |keys| <= rows && lo + size <= channels == |q|
    requires scale == o.Div(o.one, o.Sqrt(o.OfNat(size)))
    requires queryBase + size <= |qkv| && qkv[queryBase..queryBase + size] == q[lo..lo + size]
    requires keys == KeyRows(Rows(qkv, rows, 3 * channels), |keys|, channels)
    ensures score == Score(o, q, keys[source], lo, size)
  {
    hide DotTo;
    QkvSlice(qkv, rows, channels, source, channels, 2 * channels, lo, size);
    var keyBase: Word := source * 3 * channels + channels + lo;
    score := DotProduct(o, o.zero, qkv, queryBase, qkv, keyBase, size);
    score := o.Mul(score, scale);
  }

  lemma MaximumStart<F>(o: Ops<F>, scores: seq<F>)
    ensures MaxTo(o, scores, 0) == o.lowest
  {
  }

  lemma MaximumNext<F>(o: Ops<F>, scores: seq<F>, n: nat)
    requires n < |scores|
    ensures MaxTo(o, scores, n + 1) == o.Max(MaxTo(o, scores, n), scores[n])
  {
  }

  /** The score loop of causal_self_attention for one head. */
  method CausalScores<F>(o: Ops<F>, qkv: seq<F>, scratch: array<F>, rows: nat, n: nat, queryBase: nat,
                         lo: nat, size: nat, channels: nat, ghost q: seq<F>, ghost keys: seq<seq<F>>,
                         ghost scores: seq<F>)
    returns (maximum: F)
    requires |qkv| == rows * (3 * channels) <= SIZE_MAX && n == |keys| <= rows == scratch.Length
    requires lo + size <= channels == |q|
    requires queryBase + size <= |qkv| && qkv[queryBase..queryBase + size] == q[lo..lo + size]
    requires keys == KeyRows(Rows(qkv, rows, 3 * channels), |keys|, channels)
    requires scores == Scores(o, q, keys, lo, size)
    modifies scratch
    ensures forall i :: 0 <= i < n ==> scratch[i] == scores[i]
    ensures maximum == MaxTo(o, scores, n)
  {
    hide Score, DotTo, Rows, KeyRows, Scores, MaxTo;
    var scale := o.Div(o.one, o.Sqrt(o.OfNat(size)));
    MaximumStart(o, scores);
    maximum := o.lowest;
    for source := 0 to n
      invariant forall i :: 0 <= i < source ==> scratch[i] == scores[i]
      invariant maximum == MaxTo(o, scores, source)
    {
      MaximumNext(o, scores, source);
      var score := CausalScore(o, qkv, rows, queryBase, source, lo, size, channels, scale, q, keys);
      scratch[source] := score;
      maximum := o.Max(maximum, score);
    }
  }

  /** One step of the output loop of causal_self_attention. */
  method CausalValue<F>(o: Ops<F>, output: array<F>, base: nat, probability: F, qkv: seq<F>, rows: nat,
                        source: nat, lo: nat, size: nat, channels: nat)
    requires |qkv| == rows * (3 * channels) <= SIZE_MAX && source < rows
    requires lo + size <= channels && base + size <= output.Length
    modifies output
    ensures var v := Rows(qkv, rows, 3 * channels)[source][2 * channels..];
            forall i :: 0 <= i < output.Length ==>
              output[i] == if base <= i < base + size
                           then o.Add(old(output[i]), o.Mul(probability, v[lo + (i - base)]))
                           else old(output[i])
  {
    ghost var x := Rows(qkv, rows, 3 * channels);
    QkvSlice(qkv, rows, channels, source, 2 * channels, 3 * channels, lo, size);
    var valueBase: Word := source * 3 * channels + 2 * channels + lo;
    AccumulateValue(o, output, base, probability, qkv, valueBase, size,
                    x[source][2 * channels..3 * channels][lo..lo + size]);
  }

  /** The output loop of causal_self_attention for one head, over exponentials e. */
  method CausalAccumulate<F>(o: Ops<F>, output: array<F>, qkv: seq<F>, e: seq<F>, inverse: F, rows: nat,
                             base: nat, lo: nat, size: nat, channels: nat, ghost values: seq<seq<F>>)
    requires |qkv| == rows * (3 * channels) <= SIZE_MAX && |e| <= rows
    requires lo + size <= channels && base + size <= output.Length
    requires values == ValueRows(Rows(qkv, rows, 3 * channels), |e|, channels)
    requires forall i :: base <= i < base + size ==> output[i] == o.zero
    modifies output
    ensures forall i :: 0 <= i < output.Length ==>
              output[i] == if base <= i < base + size
                           then WeightedTo(o, e, inverse, values, lo + (i - base), |e|)
                           else old(output[i])
  {
    for source := 0 to |e|
      invariant forall i :: 0 <= i < output.Length ==>
                  output[i] == if base <= i < base + size
                               then WeightedTo(o, e, inverse, values, lo + (i - base), source)
                               else old(output[i])
    {
      var probability := o.Mul(e[source], inverse);
      CausalValue(o, output, base, probability, qkv, rows, source, lo, size, channels);
    }
  }

  /** The query, keys and values that row position may see. */
  ghost predicate CausalParts<F>(qkv: seq<F>, rows: nat, position: nat, channels: nat,
                                 q: seq<F>, k: seq<seq<F>>, v: seq<seq<F>>)
    requires |qkv| == rows * (3 * channels) && position < rows
  {
    var x := Rows(qkv, rows, 3 * channels);
    && q == x[position][..channels]
    && k == KeyRows(x, position + 1, channels)
    && v == ValueRows(x, position + 1, channels)
  }

  /** One head of one position: a head-sized slice of the row's attention. */
  method CausalHead<F>(o: Ops<F>, output: array<F>, qkv: seq<F>, scratch: array<F>, rows: nat,
                       position: nat, head: nat, channels: nat, heads: nat, size: nat, base: nat,
                       ghost q: seq<F>, ghost k: seq<seq<F>>, ghost v: seq<seq<F>>)
    requires output != scratch && ValidHeads(channels, heads) && heads * size == channels && head < heads
    requires |qkv| == rows * (3 * channels) <= SIZE_MAX && position < rows == scratch.Length
    requires CausalParts(qkv, rows, position, channels, q, k, v)
    requires base + size <= output.Length
    requires forall i :: base <= i < base + size ==> output[i] == o.zero
    modifies output, scratch
    ensures 0 <= head * size && head * size + size <= channels
    ensures output[..] == Splice(old(output[..]), base,
              AttentionRow(o, q, k, v, heads)[head * size..head * size + size])
  {
    hide AttentionRow, HeadRow, Scores, Exponentials, InverseSum, WeightedTo, MaxTo, Splice, Rows, KeyRows, ValueRows;
    HeadSize(channels, heads, size);
    RowFits(head, heads, size);
    RowFits(position, rows, 3 * channels);
    var lo: Word := head * size;
    ghost var was := output[..];
    ghost var scores := Scores(o, q, k, lo, size);
    QkvSlice(qkv, rows, channels, position, 0, channels, lo, size);
    var queryBase: Word := position * 3 * channels + lo;
    var maximum := CausalScores(o, qkv, scratch, rows, position + 1, queryBase, lo, size, channels, q, k, scores);
    var inverse := ExponentiateInPlace(o, scratch, position + 1, maximum, scores);
    CausalAccumulate(o, output, qkv, scratch[..position + 1], inverse, rows, base, lo, size, channels, v);
    HeadWritten(o, q, k, v, heads, head, lo, size, scratch[..position + 1], inverse, was, output[..], base);
  }

  /** now is was, zero from base on, with the first h heads of row y written at base. */
  ghost predicate HeadsDone<F>(was: seq<F>, now: seq<F>, base: nat, y: seq<F>, size: nat, h: nat, zero: F) {
    && 0 <= h * size <= |y| && base + |y| <= |was|
    && (forall i :: base <= i < |was| ==> was[i] == zero)
    && now == Splice(was, base, y[..h * size])
  }

  lemma HeadsStart<F>(was: seq<F>, base: nat, y: seq<F>, size: nat, zero: F)
    requires base + |y| <= |was| && forall i :: base <= i < |was| ==> was[i] == zero
    ensures HeadsDone(was, was, base, y, size, 0, zero)
  {
  }

  /** Before head h is written, everything from it on is zero. */
  lemma HeadsZero<F>(was: seq<F>, now: seq<F>, base: nat, y: seq<F>, size: nat, h: nat, zero: F)
    requires HeadsDone(was, now, base, y, size, h, zero)
    ensures |now| == |was| && 0 <= h * size <= |y|
    ensures forall i :: base + h * size <= i < |now| ==> now[i] == zero
  {
  }

  lemma HeadStep<F>(was: seq<F>, now: seq<F>, base: nat, y: seq<F>, size: nat, h: nat, zero: F)
    requires HeadsDone(was, now, base, y, size, h, zero)
    requires base + h * size + size <= |now| && 0 <= h * size && h * size + size <= |y|
    ensures HeadsDone(was, Splice(now, base + h * size, y[h * size..h * size + size]), base, y, size, h + 1, zero)
  {
    assert (h + 1) * size == h * size + size;
    SpliceAppend(was, base, y[..h * size], y[h * size..h * size + size]);
    assert y[..h * size] + y[h * size..h * size + size] == y[..(h + 1) * size];
  }

  lemma HeadsAll<F>(was: seq<F>, now: seq<F>, base: nat, y: seq<F>, size: nat, heads: nat, zero: F)
    requires HeadsDone(was, now, base, y, size, heads, zero) && heads * size == |y|
    ensures now == Splice(was, base, y)
  {
    assert y[..heads * size] == y;
  }

  /** One position: all its heads. */
  method CausalPosition<F>(o: Ops<F>, output: array<F>, qkv: seq<F>, scratch: array<F>, rows: nat,
                           position: nat, channels: nat, heads: nat, size: nat, base: nat,
                           ghost q: seq<F>, ghost k: seq<seq<F>>, ghost v: seq<seq<F>>)
    requires output != scratch && ValidHeads(channels, heads) && heads * size == channels
    requires |qkv| == rows * (3 * channels) <= SIZE_MAX && position < rows == scratch.Length
    requires CausalParts(qkv, rows, position, channels, q, k, v)
    requires base + channels <= output.Length <= SIZE_MAX
    requires forall i :: base <= i < output.Length ==> output[i] == o.zero
    modifies output, scratch
    ensures output[..] == Splice(old(output[..]), base, AttentionRow(o, q, k, v, heads))
  {
    ghost var was := output[..];
    ghost var y := AttentionRow(o, q, k, v, heads);
    hide *;
    HeadsStart(was, base, y, size, o.zero);
    for head := 0 to heads
      invariant HeadsDone(was, output[..], base, y, size, head, o.zero)
    {
      RowFits(head, heads, size);
      HeadsZero(was, output[..], base, y, size, head, o.zero);
      assert forall i :: base + head * size <= i < output.Length ==> output[i] == output[..][i];
      HeadStep(was, output[..], base, y, size, head, o.zero);
      var headBase: Word := base + head * size;
      CausalHead(o, output, qkv, scratch, rows, position, head, channels, heads, size, headBase, q, k, v);
    }
    HeadsAll(was, output[..], base, y, size, heads, o.zero);
  }

  method CausalPositionOf<F>(o: Ops<F>, output: array<F>, qkv: seq<F>, scratch: array<F>, rows: nat,
                             position: nat, channels: nat, heads: nat, base: nat)
    requires output != scratch && ValidHeads(channels, heads)
    requires |qkv| == rows * (3 * channels) <= SIZE_MAX && position < rows == scratch.Length
    requires base + channels <= output.Length <= SIZE_MAX
    requires forall i :: base <= i < output.Length ==> output[i] == o.zero
    modifies output, scratch
    ensures output[..] == Splice(old(output[..]), base,
              CausalRow(o, Rows(qkv, rows, 3 * channels), position, channels, heads))
  {
    ghost var x := Rows(qkv, rows, 3 * channels);
    HeadDivides(channels, heads);
    CausalPosition(o, output, qkv, scratch, rows, position, channels, heads, channels / heads, base,
                   x[position][..channels], KeyRows(x, position + 1, channels), ValueRows(x, position + 1, channels));
  }

  /** All positions, over a zeroed output. */
  method CausalPositions<F>(o: Ops<F>, output: array<F>, qkv: seq<F>, scratch: array<F>,
                            rows: nat, channels: nat, heads: nat)
    requires output != scratch && ValidHeads(channels, heads)
    requires output.Length == rows * channels <= SIZE_MAX && |qkv| == rows * (3 * channels) <= SIZE_MAX
    requires scratch.Length == rows
    requires forall i :: 0 <= i < output.Length ==> output[i] == o.zero
    modifies output, scratch
    ensures output[..] == Flat(CausalRows(o, Rows(qkv, rows, 3 * channels), channels, heads))
  {
    hide SpanHolds, Splice, CausalRow, CausalRows, Rows, Flat;
    ghost var was := output[..];
    ghost var y := CausalRows(o, Rows(qkv, rows, 3 * channels), channels, heads);
    SpanStart(was, 0, y, rows, channels);
    for position := 0 to rows
      invariant SpanHolds(was, output[..], 0, y, rows, channels, position)
    {
      SpanStep(was, output[..], 0, y, rows, channels, position);
      SpanZero(was, output[..], y, rows, channels, position, o.zero);
      assert forall i :: position * channels <= i < output.Length ==> output[i] == output[..][i];
      var base: Word := position * channels;
      CausalPositionOf(o, output, qkv, scratch, rows, position, channels, heads, base);
    }
    SpanDone(was, output[..], 0, y, rows, channels);
  }

  method CausalSelfAttention<F>(o: Ops<F>, output: array<F>, qkv: seq<F>, scratch: array<F>,
                                rows: nat, channels: nat, heads: nat) returns (r: Outcome)
    requires output != scratch
    requires rows * channels <= SIZE_MAX && rows * 3 * channels <= SIZE_MAX
    modifies output, scratch
    ensures r.Pass? <==> output.Length == rows * channels && |qkv| == rows * 3 * channels
                         && scratch.Length == rows && ValidHeads(channels, heads)
    ensures r.Pass? ==>
              && |qkv| == rows * (3 * channels)
              && output[..] == Flat(CausalRows(o, Rows(qkv, rows, 3 * channels), channels, heads))
    ensures r.Fail? ==> output[..] == old(output[..]) && scratch[..] == old(scratch[..])
  {
    if output.Length != rows * channels || |qkv| != rows * 3 * channels || scratch.Length != rows
      || heads == 0 || channels == 0 || channels % heads != 0 {
      return Fail(InvalidArgument);
    }
    TripleWidth(rows, channels);
    FillZero(o, output);
    CausalPositions(o, output, qkv, scratch, rows, channels, heads);
    return Pass;
  }

  /** One score of cached_self_attention: the query against cached key row source, in one head. */
  method CachedScore<F>(o: Ops<F>, query: seq<F>, keys: seq<F>, capacity: nat, source: nat,
                        lo: nat, size: nat, channels: nat, scale: F) returns (score: F)
    requires |query| == channels && |keys| == capacity * channels <= SIZE_MAX && source < capacity
    requires lo + size <= channels && scale == o.Div(o.one, o.Sqrt(o.OfNat(size)))
    ensures score == Score(o, query, Rows(keys, capacity, channels)[source], lo, size)
  {
    hide DotTo;
    RowSlice(keys, capacity, channels, source, lo, size);
    var cacheBase: Word := source * channels + lo;
    score := DotProduct(o, o.zero, query, lo, keys, cacheBase, size);
    score := o.Mul(score, scale);
  }

  /** The score loop of cached_self_attention for one head. */
  method CachedScores<F>(o: Ops<F>, query: seq<F>, keys: seq<F>, scratch: array<F>, visible: nat, capacity: nat,
                         lo: nat, size: nat, channels: nat, ghost rows: seq<seq<F>>, ghost scores: seq<F>)
    returns (maximum: F)
    requires |query| == channels && |keys| == capacity * channels <= SIZE_MAX && visible <= capacity == scratch.Length
    requires lo + size <= channels && rows == Rows(keys, capacity, channels)[..visible]
    requires scores == Scores(o, query, rows, lo, size)
    modifies scratch
    ensures forall i :: 0 <= i < visible ==> scratch[i] == scores[i]
    ensures maximum == MaxTo(o, scores, visible)
  {
    hide Score, DotTo, Rows, KeyRows, Scores, MaxTo;
    var scale := o.Div(o.one, o.Sqrt(o.OfNat(size)));
    MaximumStart(o, scores);
    maximum := o.lowest;
    for source := 0 to visible
      invariant forall i :: 0 <= i < source ==> scratch[i] == scores[i]
      invariant maximum == MaxTo(o, scores, source)
    {
      MaximumNext(o, scores, source);
      var score := CachedScore(o, query, keys, capacity, source, lo, size, channels, scale);
      scratch[source] := score;
      maximum := o.Max(maximum, score);
    }
  }

  /** One step of the output loop of cached_self_attention. */
  method CachedValue<F>(o: Ops<F>, output: array<F>, probability: F, values: seq<F>, capacity: nat,
                        source: nat, lo: nat, size: nat, channels: nat)
    requires |values| == capacity * channels <= SIZE_MAX && source < capacity && lo + size <= channels == output.Length
    modifies output
    ensures var v := Rows(values, capacity, channels)[source];
            forall i :: 0 <= i < output.Length ==>
              output[i] == if lo <= i < lo + size then o.Add(old(output[i]), o.Mul(probability, v[i]))
                           else old(output[i])
  {
    RowSlice(values, capacity, channels, source, lo, size);
    var cacheBase: Word := source * channels + lo;
    AccumulateValue(o, output, lo, probability, values, cacheBase, size,
                    Rows(values, capacity, channels)[source][lo..lo + size]);
  }

  /** The output loop of cached_self_attention for one head, over exponentials e. */
  method CachedAccumulate<F>(o: Ops<F>, output: array<F>, values: seq<F>, e: seq<F>, inverse: F,
                             capacity: nat, lo: nat, size: nat, channels: nat, ghost rows: seq<seq<F>>)
    requires |values| == capacity * channels <= SIZE_MAX && |e| <= capacity
    requires lo + size <= channels == output.Length && rows == Rows(values, capacity, channels)[..|e|]
    requires forall i :: lo <= i < lo + size ==> output[i] == o.zero
    modifies output
    ensures forall i :: 0 <= i < output.Length ==>
              output[i] == if lo <= i < lo + size then WeightedTo(o, e, inverse, rows, i, |e|)
                           else old(output[i])
  {
    for source := 0 to |e|
      invariant forall i :: 0 <= i < output.Length ==>
                  output[i] == if lo <= i < lo + size then WeightedTo(o, e, inverse, rows, i, source)
                               else old(output[i])
    {
      var probability := o.Mul(e[source], inverse);
      CachedValue(o, output, probability, values, capacity, source, lo, size, channels);
    }
  }

  method CachedHead<F>(o: Ops<F>, output: array<F>, query: seq<F>, keys: seq<F>, values: seq<F>, scratch: array<F>,
                       visible: nat, capacity: nat, head: nat, channels: nat, heads: nat, size: nat,
                       ghost k: seq<seq<F>>, ghost v: seq<seq<F>>)
    requires output != scratch && ValidHeads(channels, heads) && heads * size == channels && head < heads
    requires |query| == channels == output.Length <= SIZE_MAX && |keys| == |values| == capacity * channels <= SIZE_MAX
    requires visible <= capacity == scratch.Length
    requires k == Rows(keys, capacity, channels)[..visible] && v == Rows(values, capacity, channels)[..visible]
    requires forall i :: 0 <= head * size <= i < output.Length ==> output[i] == o.zero
    modifies output, scratch
    ensures 0 <= head * size && head * size + size <= channels
    ensures output[..] == Splice(old(output[..]), head * size,
              AttentionRow(o, query, k, v, heads)
                [head * size..head * size + size])
  {
    HeadSize(channels, heads, size);
    RowFits(head, heads, size);
    var lo: Word := head * size;
    ghost var was := output[..];
    ghost var scores := Scores(o, query, k, lo, size);
    var maximum := CachedScores(o, query, keys, scratch, visible, capacity, lo, size, channels, k, scores);
    var inverse := ExponentiateInPlace(o, scratch, visible, maximum, scores);
    CachedAccumulate(o, output, values, scratch[..visible], inverse, capacity, lo, size, channels, v);
    HeadWritten(o, query, k, v, heads, head, lo, size, scratch[..visible], inverse, was, output[..], lo);
  }

  /** All heads, over a zeroed output. */
  method CachedHeads<F>(o: Ops<F>, output: array<F>, query: seq<F>, keys: seq<F>, values: seq<F>, scratch: array<F>,
                        visible: nat, capacity: nat, channels: nat, heads: nat, size: nat,
                        ghost k: seq<seq<F>>, ghost v: seq<seq<F>>)
    requires output != scratch && ValidHeads(channels, heads) && heads * size == channels
    requires |query| == channels == output.Length <= SIZE_MAX && |keys| == |values| == capacity * channels <= SIZE_MAX
    requires visible <= capacity == scratch.Length
    requires k == Rows(keys, capacity, channels)[..visible] && v == Rows(values, capacity, channels)[..visible]
    requires forall i :: 0 <= i < output.Length ==> output[i] == o.zero
    modifies output, scratch
    ensures output[..] == AttentionRow(o, query, k, v, heads)
  {
    ghost var was := output[..];
    ghost var y := AttentionRow(o, query, k, v, heads);
    hide *;
    HeadsStart(was, 0, y, size, o.zero);
    for head := 0 to heads
      invariant HeadsDone(was, output[..], 0, y, size, head, o.zero)
    {
      RowFits(head, heads, size);
      HeadsZero(was, output[..], 0, y, size, head, o.zero);
      assert forall i :: head * size <= i < output.Length ==> output[i] == output[..][i];
      HeadStep(was, output[..], 0, y, size, head, o.zero);
      CachedHead(o, output, query, keys, values, scratch, visible, capacity, head, channels, heads, size, k, v);
    }
    HeadsAll(was, output[..], 0, y, size, heads, o.zero);
  }

  method CachedSelfAttention<F>(o: Ops<F>, output: array<F>, query: seq<F>, keys: seq<F>, values: seq<F>,
                                scratch: array<F>, visible: nat, capacity: nat, channels: nat, heads: nat)
    returns (r: Outcome)
    requires output != scratch && capacity * channels <= SIZE_MAX
    modifies output, scratch
    ensures r.Pass? <==> output.Length == |query| == channels && |keys| == |values| == capacity * channels
                         && scratch.Length == capacity && 0 < visible <= capacity && ValidHeads(channels, heads)
    ensures r.Pass? ==>
              output[..] == AttentionRow(o, query, Rows(keys, capacity, channels)[..visible],
                                         Rows(values, capacity, channels)[..visible], heads)
    ensures r.Fail? ==> output[..] == old(output[..]) && scratch[..] == old(scratch[..])
  {
    if output.Length != channels || |query| != channels || |keys| != capacity * channels
      || |values| != capacity * channels || scratch.Length != capacity
      || visible == 0 || visible > capacity
      || heads == 0 || channels == 0 || channels % heads != 0 {
      return Fail(InvalidArgument);
    }
    ghost var k, v := Rows(keys, capacity, channels)[..visible], Rows(values, capacity, channels)[..visible];
    FillZero(o, output);
    HeadDivides(channels, heads);
    CachedHeads(o, output, query, keys, values, scratch, visible, capacity, channels, heads, channels / heads, k, v);
    return Pass;
  }

  /**
   A row of causal_self_attention is what cached_self_attention computes for the same query over a cache
   whose first position + 1 rows hold the same keys and values, whatever the rest of the cache holds.
   */
  lemma CausalIsCached<F>(o: Ops<F>, x: seq<seq<F>>, position: nat, channels: nat, heads: nat,
                          keys: seq<F>, values: seq<F>, capacity: nat)
    requires position < |x| && IsMatrix(x, |x|, 3 * channels) && ValidHeads(channels, heads)
    requires |keys| == |values| == capacity * channels && position < capacity
    requires forall s :: 0 <= s <= position ==>
               && Rows(keys, capacity, channels)[s] == x[s][channels..2 * channels]
               && Rows(values, capacity, channels)[s] == x[s][2 * channels..]
    ensures CausalRow(o, x, position, channels, heads)
         == AttentionRow(o, x[position][..channels], Rows(keys, capacity, channels)[..position + 1],
                         Rows(values, capacity, channels)[..position + 1], heads)
  {
    hide Rows, AttentionRow;
    assert KeyRows(x, position + 1, channels) == Rows(keys, capacity, channels)[..position + 1];
    assert ValueRows(x, position + 1, channels) == Rows(values, capacity, channels)[..position + 1];
  }
}
