/**
 Where in the storage each parameter is read, and over exact reals what a layer and the logits are in
 terms of the storage.
 */
module ExactModel {
  import opened Arithmetic
  import opened ExactReals
  import opened ExactKernels
  import opened Matrices
  import opened Reference
  import opened Layout
  import opened Model
  import opened FullPrefix

  // Where each parameter is read.

  ghost predicate IsAt<F>(part: seq<F>, storage: seq<F>, lo: int) {
    0 <= lo <= lo + |part| <= |storage| && storage[lo..lo + |part|] == part
  }

  lemma PartOfIsAt<F>(m: Model<F>, id: TensorId, layer: nat)
    requires m.Valid() && layer < m.config.layers && IsPerLayer(id)
    ensures IsAt(m.PartOf(id, layer), m.storage, PartStart(m.config, id, layer))
  {
    hide *;
    PartIsRow(m, id, layer);
    TensorIsAt(m, id);
    StartIsOffset(m.config, id, layer);
    var offset, size := OffsetTo(m.config, IndexOf(id)), PerLayer(m.config, id);
    RowInTensor(m.storage, m.Tensor(id), offset, m.config.layers, size, layer);
  }

  lemma PartIsRow<F>(m: Model<F>, id: TensorId, layer: nat)
    requires m.Valid() && layer < m.config.layers && IsPerLayer(id)
    ensures |m.Tensor(id)| == m.config.layers * PerLayer(m.config, id)
    ensures m.PartOf(id, layer) == Rows(m.Tensor(id), m.config.layers, PerLayer(m.config, id))[layer]
  {
    hide OffsetTo, Count, PerLayer;
    ClosedForm(m.config, id);
  }

  lemma TensorIsAt<F>(m: Model<F>, id: TensorId)
    requires m.Valid()
    ensures IsAt(m.Tensor(id), m.storage, OffsetTo(m.config, IndexOf(id)))
  {
    hide OffsetTo, Count, IndexOf;
    TensorInTotal(m.config, IndexOf(id));
  }

  /** A row of a tensor that lies in the storage lies there too. */
  lemma RowInTensor<F>(storage: seq<F>, tensor: seq<F>, offset: nat, rows: nat, width: nat, r: nat)
    requires |tensor| == rows * width && r < rows
    requires IsAt(tensor, storage, offset)
    ensures IsAt(Rows(tensor, rows, width)[r], storage, offset + r * width)
  {
    RowFits(r, rows, width);
    SliceOfSlice(storage, offset, offset + |tensor|, r * width, width);
  }

  /** Where the part of a layer starts: after the two tables, the tensors before its own, and the layers before it. */
  ghost function PartStart(config: Config, id: TensorId, layer: nat): int
    requires IsPerLayer(id)
  {
    var c, n := config.channels, config.layers;
    var at := config.padded * c + config.maxSequence * c;
    var row, square := n * c, n * (c * c);
    match id
    case Ln1w => at + layer * c
    case Ln1b => at + row + layer * c
    case Qkvw => at + 2 * row + layer * (3 * c * c)
    case Qkvb => at + 2 * row + 3 * square + layer * (3 * c)
    case Attprojw => at + 5 * row + 3 * square + layer * (c * c)
    case Attprojb => at + 5 * row + 4 * square + layer * c
    case Ln2w => at + 6 * row + 4 * square + layer * c
    case Ln2b => at + 7 * row + 4 * square + layer * c
    case Fcw => at + 8 * row + 4 * square + layer * (4 * c * c)
    case Fcb => at + 8 * row + 8 * square + layer * (4 * c)
    case Fcprojw => at + 12 * row + 8 * square + layer * (c * (4 * c))
    case Fcprojb => at + 12 * row + 12 * square + layer * c
  }

  lemma StartIsOffset(config: Config, id: TensorId, layer: nat)
    requires IsPerLayer(id)
    ensures PartStart(config, id, layer) == OffsetTo(config, IndexOf(id)) + layer * PerLayer(config, id)
  {
    hide OffsetTo, IndexOf;
    NamedOffsets(config, id);
  }

  ghost predicate LayerIsAt<F>(w: LayerWeights<F>, storage: seq<F>, config: Config, layer: nat) {
    && IsAt(w.ln1w, storage, PartStart(config, Ln1w, layer))
    && IsAt(w.ln1b, storage, PartStart(config, Ln1b, layer))
    && IsAt(w.qkvw, storage, PartStart(config, Qkvw, layer))
    && IsAt(w.qkvb, storage, PartStart(config, Qkvb, layer))
    && IsAt(w.attprojw, storage, PartStart(config, Attprojw, layer))
    && IsAt(w.attprojb, storage, PartStart(config, Attprojb, layer))
    && IsAt(w.ln2w, storage, PartStart(config, Ln2w, layer))
    && IsAt(w.ln2b, storage, PartStart(config, Ln2b, layer))
    && IsAt(w.fcw, storage, PartStart(config, Fcw, layer))
    && IsAt(w.fcb, storage, PartStart(config, Fcb, layer))
    && IsAt(w.fcprojw, storage, PartStart(config, Fcprojw, layer))
    && IsAt(w.fcprojb, storage, PartStart(config, Fcprojb, layer))
  }

  /** The twelve parts of a layer lie in the storage where the layout puts them. */
  lemma LayerOfIsAt<F>(m: Model<F>, layer: nat)
    requires m.Valid() && layer < m.config.layers
    ensures LayerIsAt(m.LayerOf(layer), m.storage, m.config, layer)
  {
    hide IsAt, PartStart, PerLayer, TotalCount, OffsetTo, Count;
    LayerFields(m, layer);
    PartOfIsAt(m, Ln1w, layer);
    PartOfIsAt(m, Ln1b, layer);
    PartOfIsAt(m, Qkvw, layer);
    PartOfIsAt(m, Qkvb, layer);
    PartOfIsAt(m, Attprojw, layer);
    PartOfIsAt(m, Attprojb, layer);
    PartOfIsAt(m, Ln2w, layer);
    PartOfIsAt(m, Ln2b, layer);
    PartOfIsAt(m, Fcw, layer);
    PartOfIsAt(m, Fcb, layer);
    PartOfIsAt(m, Fcprojw, layer);
    PartOfIsAt(m, Fcprojb, layer);
  }

  lemma LayerFields<F>(m: Model<F>, layer: nat)
    requires m.Valid() && layer < m.config.layers
    ensures var w := m.LayerOf(layer);
            && w.ln1w == m.PartOf(Ln1w, layer) && w.ln1b == m.PartOf(Ln1b, layer)
            && w.qkvw == m.PartOf(Qkvw, layer) && w.qkvb == m.PartOf(Qkvb, layer)
            && w.attprojw == m.PartOf(Attprojw, layer) && w.attprojb == m.PartOf(Attprojb, layer)
            && w.ln2w == m.PartOf(Ln2w, layer) && w.ln2b == m.PartOf(Ln2b, layer)
            && w.fcw == m.PartOf(Fcw, layer) && w.fcb == m.PartOf(Fcb, layer)
            && w.fcprojw == m.PartOf(Fcprojw, layer) && w.fcprojb == m.PartOf(Fcprojb, layer)
  {
  }

  lemma TableRowAt<F>(m: Model<F>, id: TensorId, rows: nat, r: nat)
    requires m.Valid() && Count(m.config, id) == rows * m.config.channels && r < rows
    ensures IsAt(Rows(m.Tensor(id), rows, m.config.channels)[r], m.storage,
                 OffsetTo(m.config, IndexOf(id)) + r * m.config.channels)
  {
    hide OffsetTo, Count, IndexOf, IsAt;
    TensorIsAt(m, id);
    RowInTensor(m.storage, m.Tensor(id), OffsetTo(m.config, IndexOf(id)), rows, m.config.channels, r);
  }

  lemma TokenRowAt<F>(m: Model<F>, r: nat)
    requires m.Valid() && r < m.config.padded
    ensures IsAt(TokenTable(m)[r], m.storage, r * m.config.channels)
  {
    hide OffsetTo, Count, IsAt, Rows;
    ClosedForm(m.config, Wte);
    TableRowAt(m, Wte, m.config.padded, r);
    NoneBefore(m.config);
  }

  lemma PositionRowAt<F>(m: Model<F>, r: nat)
    requires m.Valid() && r < m.config.maxSequence
    ensures IsAt(PositionTable(m)[r], m.storage, m.config.padded * m.config.channels + r * m.config.channels)
  {
    hide OffsetTo, Count, IsAt, Rows;
    ClosedForm(m.config, Wpe);
    TableRowAt(m, Wpe, m.config.maxSequence, r);
    AttentionOffsets(m.config);
  }

  /** An embedding adds row token of the first table and row position of the second. */
  lemma EmbedAt<F>(m: Model<F>, token: nat, position: nat, c: nat)
    requires m.Valid() && token < m.config.vocabulary && position < m.config.maxSequence && c < m.config.channels
    ensures var channels := m.config.channels;
            var (t, p) := (token * channels + c, m.config.padded * channels + position * channels + c);
            && 0 <= t < |m.storage| && 0 <= p < |m.storage|
            && EmbedRow(m, token, position)[c] == m.ops.Add(m.storage[t], m.storage[p])
  {
    hide TokenTable, PositionTable, IsAt, TotalCount, OffsetTo;
    TokenRowAt(m, token);
    PositionRowAt(m, position);
    AtIndex(TokenTable(m)[token], m.storage, token * m.config.channels, c);
    AtIndex(PositionTable(m)[position], m.storage,
            m.config.padded * m.config.channels + position * m.config.channels, c);
  }

  lemma AtIndex<F>(part: seq<F>, storage: seq<F>, lo: int, c: nat)
    requires IsAt(part, storage, lo) && c < |part|
    ensures 0 <= lo + c < |storage| && part[c] == storage[lo + c]
  {
    assert storage[lo..lo + |part|][c] == storage[lo + c];
  }

  /** The last norm's weight and bias are the last two rows of the storage. */
  lemma LastNormAt<F>(m: Model<F>)
    requires m.Valid()
    ensures var n := |m.storage| - m.config.channels;
            && m.config.channels <= n
            && m.Tensor(Lnfb) == m.storage[n..] && m.Tensor(Lnfw) == m.storage[n - m.config.channels..n]
  {
    hide OffsetTo, Count;
    TensorInTotal(m.config, 14);
    TensorInTotal(m.config, 15);
    ClosedForm(m.config, Lnfw);
    ClosedForm(m.config, Lnfb);
  }

  // The halves of a layer over exact reals.

  /** bias[j] plus the product of x and row j of a row-major weight. */
  ghost function RealAffine(x: seq<real>, weight: seq<real>, bias: seq<real>): (y: seq<real>)
    requires |weight| == |bias| * |x|
    ensures |y| == |bias|
    ensures forall j :: 0 <= j < |bias| ==> y[j] == bias[j] + RealDot(x, RowOf(weight, |bias|, |x|, j))
  {
    seq(|bias|, (j: nat) requires j < |bias| => bias[j] + RealDot(x, RowOf(weight, |bias|, |x|, j)))
  }

  ghost function RealAdd(x: seq<real>, y: seq<real>): (z: seq<real>)
    requires |x| == |y|
    ensures |z| == |x| && forall c :: 0 <= c < |x| ==> z[c] == x[c] + y[c]
  {
    seq(|x|, (c: nat) requires c < |x| => x[c] + y[c])
  }

  ghost function RealGelu(o: Ops<real>, x: seq<real>): (y: seq<real>)
    ensures |y| == |x|
    ensures forall c :: 0 <= c < |x| ==> y[c] == o.half * x[c] * (1.0 + o.Tanh(GeluArgument(o, x[c])))
  {
    seq(|x|, (c: nat) requires c < |x| => o.half * x[c] * (1.0 + o.Tanh(GeluArgument(o, x[c]))))
  }

  lemma LinearIsAffine(o: Ops<real>, x: seq<real>, weight: seq<real>, bias: seq<real>)
    requires Exact(o) && |weight| == |bias| * |x| && bias != []
    ensures LinearRow(o, x, Rows(weight, |bias|, |x|), bias) == RealAffine(x, weight, bias)
  {
    hide RealAffine, LinearRow, RealDot, Exact;
    var y, z := LinearRow(o, x, Rows(weight, |bias|, |x|), bias), RealAffine(x, weight, bias);
    forall j | 0 <= j < |bias| ensures y[j] == z[j] {
      LinearIsDot(o, x, Rows(weight, |bias|, |x|), bias, j);
    }
    assert y == z;
  }

  lemma AddIs(o: Ops<real>, x: seq<real>, y: seq<real>)
    requires Exact(o) && |x| == |y|
    ensures AddRow(o, x, y) == RealAdd(x, y)
  {
    var z, t := AddRow(o, x, y), RealAdd(x, y);
    forall c | 0 <= c < |x| ensures z[c] == t[c] {
      Added(o, x[c], y[c]);
    }
    assert z == t;
  }

  lemma GeluRowIs(o: Ops<real>, x: seq<real>)
    requires Exact(o)
    ensures GeluRow(o, x) == RealGelu(o, x)
  {
    hide *;
    var y, z := GeluRow(o, x), RealGelu(o, x);
    forall c | 0 <= c < |x| ensures y[c] == z[c] {
      GeluIs(o, x[c]);
    }
    assert y == z;
  }

  /** qkv: the first norm, then the qkv weights. No parameter of the other half is read. */
  lemma QkvIs(o: Ops<real>, w: LayerWeights<real>, c: nat, x: seq<real>, root: real)
    requires Exact(o) && w.Fits(c) && |x| == c > 0 && Root(o, RealVariance(x) + o.epsilon, root)
    ensures root > 0.0
    ensures |w.qkvw| == |w.qkvb| * c
    ensures QkvRow(o, w, c, x) == RealAffine(RealNorm(x, w.ln1w, w.ln1b, root), w.qkvw, w.qkvb)
  {
    RootNonZero(o, RealVariance(x) + o.epsilon, root);
    hide Exact, Root, LinearRow, LayerNormRow, RealNorm, RealAffine, RealVariance;
    LayerNormIs(o, x, w.ln1w, w.ln1b, root);
    LinearIsAffine(o, LayerNormRow(o, x, w.ln1w, w.ln1b), w.qkvw, w.qkvb);
  }

  /** The attention half adds the projection of the attention to its input. */
  lemma AfterAttentionIs(o: Ops<real>, w: LayerWeights<real>, c: nat, x: seq<real>, attention: seq<real>)
    requires Exact(o) && w.Fits(c) && |x| == |attention| == c > 0
    ensures AfterAttention(o, w, c, x, attention) == RealAdd(x, RealAffine(attention, w.attprojw, w.attprojb))
  {
    hide Exact, LinearRow, RealAffine, AddRow, RealAdd;
    LinearIsAffine(o, attention, w.attprojw, w.attprojb);
    AddIs(o, x, RealAffine(attention, w.attprojw, w.attprojb));
  }

  /** What the mlp half adds to its input: the second norm, fc, gelu and the projection. */
  ghost function RealMlp(o: Ops<real>, w: LayerWeights<real>, c: nat, x: seq<real>, root: real): (y: seq<real>)
    requires w.Fits(c) && |x| == c > 0 && root != 0.0
    ensures |y| == c
  {
    var hidden := RealGelu(o, RealAffine(RealNorm(x, w.ln2w, w.ln2b, root), w.fcw, w.fcb));
    RealAffine(hidden, w.fcprojw, w.fcprojb)
  }

  lemma AfterMlpIs(o: Ops<real>, w: LayerWeights<real>, c: nat, x: seq<real>, root: real)
    requires Exact(o) && w.Fits(c) && |x| == c > 0 && Root(o, RealVariance(x) + o.epsilon, root)
    ensures root > 0.0
    ensures AfterMlp(o, w, c, x) == RealAdd(x, RealMlp(o, w, c, x, root))
  {
    RootNonZero(o, RealVariance(x) + o.epsilon, root);
    hide Exact, Root, LinearRow, LayerNormRow, RealNorm, RealAffine, RealVariance, GeluRow, RealGelu, AddRow, RealAdd;
    LayerNormIs(o, x, w.ln2w, w.ln2b, root);
    LinearIsAffine(o, RealNorm(x, w.ln2w, w.ln2b, root), w.fcw, w.fcb);
    GeluRowIs(o, RealAffine(RealNorm(x, w.ln2w, w.ln2b, root), w.fcw, w.fcb));
    LinearIsAffine(o, HiddenRow(o, w, c, x), w.fcprojw, w.fcprojb);
    AddIs(o, x, RealMlp(o, w, c, x, root));
  }

  /** One layer: the attention half on the residual row, then the mlp half on the result. */
  lemma LayerIs(o: Ops<real>, w: LayerWeights<real>, c: nat, heads: nat, x: seq<seq<real>>, r: nat,
                middle: seq<real>, root: real)
    requires Exact(o) && w.Fits(c) && IsMatrix(x, |x|, c) && r < |x| && ValidHeads(c, heads)
    requires var attention := CausalRow(o, QkvRows(o, w, c, x), r, c, heads);
             middle == RealAdd(x[r], RealAffine(attention, w.attprojw, w.attprojb))
    requires Root(o, RealVariance(middle) + o.epsilon, root)
    ensures root > 0.0
    ensures LayerRows(o, w, c, heads, x)[r] == RealAdd(middle, RealMlp(o, w, c, middle, root))
  {
    hide Exact, Root, RealVariance, QkvRow, AfterAttention, AfterMlp, CausalRow, RealAdd, RealAffine, RealMlp;
    AfterAttentionIs(o, w, c, x[r], CausalRow(o, QkvRows(o, w, c, x), r, c, heads));
    AfterMlpIs(o, w, c, middle, root);
  }

  lemma ResidualIs(m: Model<real>, tokens: seq<int>, n: nat, r: nat, middle: seq<real>, root: real)
    requires Exact(m.ops) && Accepted(m, tokens) && n < m.config.layers && r < |tokens|
    requires var attention := CausalRow(m.ops, QkvOf(m, tokens, n), r, m.config.channels, m.config.heads);
             middle == RealAdd(Residual(m, tokens, n)[r],
                               RealAffine(attention, m.LayerOf(n).attprojw, m.LayerOf(n).attprojb))
    requires Root(m.ops, RealVariance(middle) + m.ops.epsilon, root)
    ensures root > 0.0
    ensures Residual(m, tokens, n + 1)[r]
         == RealAdd(middle, RealMlp(m.ops, m.LayerOf(n), m.config.channels, middle, root))
  {
    hide Exact, Root, RealVariance, QkvRows, LayerRows, CausalRow, RealAdd, RealAffine, RealMlp, TotalCount;
    LayerIs(m.ops, m.LayerOf(n), m.config.channels, m.config.heads, Residual(m, tokens, n), r, middle, root);
  }

  /**
   The logit of token v: the last norm of the residual row, with the last two rows of the storage as weight
   and bias, times row v of the token table.
   */
  lemma LogitsIs(m: Model<real>, tokens: seq<int>, r: nat, v: nat, root: real,
                 x: seq<real>, weight: seq<real>, bias: seq<real>, embedding: seq<real>)
    requires Exact(m.ops) && Accepted(m, tokens) && r < |tokens| && v < m.config.padded
    requires x == Residual(m, tokens, m.config.layers)[r]
    requires Root(m.ops, RealVariance(x) + m.ops.epsilon, root)
    requires |weight| == |bias| == |embedding| == |x|
    requires IsAt(weight, m.storage, |m.storage| - 2 * |x|) && IsAt(bias, m.storage, |m.storage| - |x|)
    requires IsAt(embedding, m.storage, v * |x|)
    ensures root > 0.0
    ensures LogitsRow(m, tokens, r)[v] == RealDot(RealNorm(x, weight, bias, root), embedding)
  {
    hide Residual, TotalCount, Exact, Root, RealVariance, TokenTable, IsAt, RealNorm, RealDot, LinearRow, FinalRow;
    FinalIs(m, x, weight, bias, root);
    TokenRowIs(m, v, embedding);
    LinearIsDot(m.ops, FinalRow(m, x), TokenTable(m), [], v);
  }

  lemma FinalIs(m: Model<real>, x: seq<real>, weight: seq<real>, bias: seq<real>, root: real)
    requires Exact(m.ops) && m.Valid() && |weight| == |bias| == |x| == m.config.channels
    requires Root(m.ops, RealVariance(x) + m.ops.epsilon, root)
    requires IsAt(weight, m.storage, |m.storage| - 2 * |x|) && IsAt(bias, m.storage, |m.storage| - |x|)
    ensures root > 0.0
    ensures FinalRow(m, x) == RealNorm(x, weight, bias, root)
  {
    hide TotalCount, Exact, Root, RealVariance, IsAt, RealNorm, LayerNormRow;
    LastNormIs(m, weight, bias);
    RootNonZero(m.ops, RealVariance(x) + m.ops.epsilon, root);
    LayerNormIs(m.ops, x, weight, bias, root);
  }

  lemma LastNormIs<F>(m: Model<F>, weight: seq<F>, bias: seq<F>)
    requires m.Valid() && |weight| == |bias| == m.config.channels
    requires IsAt(weight, m.storage, |m.storage| - 2 * |weight|) && IsAt(bias, m.storage, |m.storage| - |bias|)
    ensures m.Tensor(Lnfw) == weight && m.Tensor(Lnfb) == bias
  {
    hide TotalCount;
    LastNormAt(m);
  }

  lemma TokenRowIs<F>(m: Model<F>, v: nat, embedding: seq<F>)
    requires m.Valid() && v < m.config.padded && |embedding| == m.config.channels
    requires IsAt(embedding, m.storage, v * |embedding|)
    ensures TokenTable(m)[v] == embedding
  {
    TokenRowAt(m, v);
    hide TokenTable, TotalCount;
  }

  // The residual stream passes through a layer whose projections are zero.

  ghost predicate AllZero(x: seq<real>) {
    forall i :: 0 <= i < |x| ==> x[i] == 0.0
  }

  lemma AddZero(x: seq<real>, y: seq<real>, weight: seq<real>, bias: seq<real>)
    requires AllZero(weight) && AllZero(bias) && |bias| == |x| && |weight| == |bias| * |y|
    ensures RealAdd(x, RealAffine(y, weight, bias)) == x
  {
    hide RealDot;
    forall j | 0 <= j < |x| ensures RealAffine(y, weight, bias)[j] == 0.0 {
      DotOfZeros(RowOf(weight, |bias|, |y|, j), y);
    }
  }

  lemma AttentionIdentity(o: Ops<real>, w: LayerWeights<real>, c: nat, x: seq<real>, attention: seq<real>)
    requires Exact(o) && w.Fits(c) && |x| == |attention| == c > 0 && AllZero(w.attprojw) && AllZero(w.attprojb)
    ensures AfterAttention(o, w, c, x, attention) == x
  {
    hide Exact, AfterAttention, RealAdd, RealAffine, AllZero;
    AfterAttentionIs(o, w, c, x, attention);
    AddZero(x, attention, w.attprojw, w.attprojb);
  }

  lemma MlpIdentity(o: Ops<real>, w: LayerWeights<real>, c: nat, x: seq<real>)
    requires Exact(o) && w.Fits(c) && |x| == c > 0 && AllZero(w.fcprojw) && AllZero(w.fcprojb)
    ensures AfterMlp(o, w, c, x) == x
  {
    hide Exact, HiddenRow, LinearRow, AddRow, RealAdd, RealAffine, AllZero;
    var hidden := HiddenRow(o, w, c, x);
    LinearIsAffine(o, hidden, w.fcprojw, w.fcprojb);
    AddIs(o, x, RealAffine(hidden, w.fcprojw, w.fcprojb));
    AddZero(x, hidden, w.fcprojw, w.fcprojb);
  }

  ghost predicate ZeroProjections(w: LayerWeights<real>) {
    AllZero(w.attprojw) && AllZero(w.attprojb) && AllZero(w.fcprojw) && AllZero(w.fcprojb)
  }

  lemma RowsIdentity(o: Ops<real>, w: LayerWeights<real>, c: nat, heads: nat, x: seq<seq<real>>)
    requires Exact(o) && w.Fits(c) && IsMatrix(x, |x|, c) && ValidHeads(c, heads) && ZeroProjections(w)
    ensures LayerRows(o, w, c, heads, x) == x
  {
    hide Exact, AllZero, AfterAttention, AfterMlp, CausalRow, QkvRows, LayerRows;
    var y := LayerRows(o, w, c, heads, x);
    forall r | 0 <= r < |x| ensures y[r] == x[r] {
      AttentionIdentity(o, w, c, x[r], CausalRow(o, QkvRows(o, w, c, x), r, c, heads));
      MlpIdentity(o, w, c, x[r]);
    }
    assert y == x;
  }

  /** With zero projections a layer is the identity, whatever its other parameters. */
  lemma LayerIdentity(m: Model<real>, tokens: seq<int>, n: nat)
    requires Exact(m.ops) && Accepted(m, tokens) && n < m.config.layers && ZeroProjections(m.LayerOf(n))
    ensures Residual(m, tokens, n + 1) == Residual(m, tokens, n)
  {
    hide Exact, ZeroProjections, LayerRows, TotalCount;
    RowsIdentity(m.ops, m.LayerOf(n), m.config.channels, m.config.heads, Residual(m, tokens, n));
  }
}
