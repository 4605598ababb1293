/**
 What a full forward pass over a token sequence computes, as matrices with one row per position,
 and the causality of that pass: no row depends on a later token.
 */
module FullPrefix {
  import opened Arithmetic
  import opened Matrices
  import opened Reference
  import opened Layout
  import opened Model

  predicate ValidTokens(config: Config, tokens: seq<int>) {
    forall i :: 0 <= i < |tokens| ==> 0 <= tokens[i] < config.vocabulary
  }

  /** The token embedding table, which is also the output projection. */
  ghost function TokenTable<F>(m: Model<F>): (t: seq<seq<F>>)
    requires m.Valid()
    ensures IsMatrix(t, m.config.padded, m.config.channels)
  {
    ClosedForm(m.config, Wte);
    Rows(m.Tensor(Wte), m.config.padded, m.config.channels)
  }

  /** The rows of the token table for real, unpadded, token IDs. */
  ghost function RealTable<F>(m: Model<F>): (t: seq<seq<F>>)
    requires m.Valid()
    ensures IsMatrix(t, m.config.vocabulary, m.config.channels)
  {
    TokenTable(m)[..m.config.vocabulary]
  }

  ghost function PositionTable<F>(m: Model<F>): (t: seq<seq<F>>)
    requires m.Valid()
    ensures IsMatrix(t, m.config.maxSequence, m.config.channels)
  {
    ClosedForm(m.config, Wpe);
    Rows(m.Tensor(Wpe), m.config.maxSequence, m.config.channels)
  }

  ghost function EmbedRow<F>(m: Model<F>, token: int, position: nat): (x: seq<F>)
    requires m.Valid() && 0 <= token < m.config.vocabulary && position < m.config.maxSequence
    ensures |x| == m.config.channels
  {
    AddRow(m.ops, TokenTable(m)[token], PositionTable(m)[position])
  }

  // One row through one layer: up to the attention, and from the attention on.

  ghost function QkvRow<F>(o: Ops<F>, w: LayerWeights<F>, c: nat, x: seq<F>): (y: seq<F>)
    requires w.Fits(c) && |x| == c
    ensures |y| == 3 * c
  {
    LinearRow(o, LayerNormRow(o, x, w.ln1w, w.ln1b), Rows(w.qkvw, 3 * c, c), w.qkvb)
  }

  ghost function AfterAttention<F>(o: Ops<F>, w: LayerWeights<F>, c: nat, x: seq<F>, attention: seq<F>): (y: seq<F>)
    requires w.Fits(c) && |x| == |attention| == c
    ensures |y| == c
  {
    AddRow(o, x, LinearRow(o, attention, Rows(w.attprojw, c, c), w.attprojb))
  }

  ghost function HiddenRow<F>(o: Ops<F>, w: LayerWeights<F>, c: nat, x: seq<F>): (y: seq<F>)
    requires w.Fits(c) && |x| == c
    ensures |y| == 4 * c
  {
    GeluRow(o, LinearRow(o, LayerNormRow(o, x, w.ln2w, w.ln2b), Rows(w.fcw, 4 * c, c), w.fcb))
  }

  ghost function AfterMlp<F>(o: Ops<F>, w: LayerWeights<F>, c: nat, x: seq<F>): (y: seq<F>)
    requires w.Fits(c) && |x| == c
    ensures |y| == c
  {
    AddRow(o, x, LinearRow(o, HiddenRow(o, w, c, x), Rows(w.fcprojw, c, 4 * c), w.fcprojb))
  }

  ghost function BlockRow<F>(o: Ops<F>, w: LayerWeights<F>, c: nat, x: seq<F>, attention: seq<F>): (y: seq<F>)
    requires w.Fits(c) && |x| == |attention| == c
    ensures |y| == c
  {
    AfterMlp(o, w, c, AfterAttention(o, w, c, x, attention))
  }

  // All rows through one layer.

  ghost function QkvRows<F>(o: Ops<F>, w: LayerWeights<F>, c: nat, x: seq<seq<F>>): (y: seq<seq<F>>)
    requires w.Fits(c) && IsMatrix(x, |x|, c)
    ensures IsMatrix(y, |x|, 3 * c)
    ensures forall r :: 0 <= r < |x| ==> y[r] == QkvRow(o, w, c, x[r])
  {
    seq(|x|, (r: nat) requires r < |x| => QkvRow(o, w, c, x[r]))
  }

  ghost function LayerRows<F>(o: Ops<F>, w: LayerWeights<F>, c: nat, heads: nat, x: seq<seq<F>>): (y: seq<seq<F>>)
    requires w.Fits(c) && IsMatrix(x, |x|, c) && ValidHeads(c, heads)
    ensures IsMatrix(y, |x|, c)
    ensures forall r :: 0 <= r < |x| ==>
              y[r] == BlockRow(o, w, c, x[r], CausalRow(o, QkvRows(o, w, c, x), r, c, heads))
  {
    var qkv := QkvRows(o, w, c, x);
    seq(|x|, (r: nat) requires r < |x| => BlockRow(o, w, c, x[r], CausalRow(o, qkv, r, c, heads)))
  }

  /** A token sequence that forward accepts, apart from being empty. */
  ghost predicate Accepted<F>(m: Model<F>, tokens: seq<int>) {
    m.Valid() && |tokens| <= m.config.maxSequence && ValidTokens(m.config, tokens)
  }

  ghost function Embedding<F>(m: Model<F>, tokens: seq<int>): (x: seq<seq<F>>)
    requires Accepted(m, tokens)
    ensures IsMatrix(x, |tokens|, m.config.channels)
    ensures forall p :: 0 <= p < |tokens| ==> x[p] == EmbedRow(m, tokens[p], p)
  {
    seq(|tokens|, (p: nat) requires p < |tokens| => EmbedRow(m, tokens[p], p))
  }

  /** The residual stream of all positions after the first n layers. */
  ghost function Residual<F>(m: Model<F>, tokens: seq<int>, n: nat): (x: seq<seq<F>>)
    requires Accepted(m, tokens) && n <= m.config.layers
    ensures IsMatrix(x, |tokens|, m.config.channels)
  {
    if n == 0 then Embedding(m, tokens)
    else LayerRows(m.ops, m.LayerOf(n - 1), m.config.channels, m.config.heads, Residual(m, tokens, n - 1))
  }

  /** The qkv rows of all positions in layer n. */
  ghost function QkvOf<F>(m: Model<F>, tokens: seq<int>, n: nat): (y: seq<seq<F>>)
    requires Accepted(m, tokens) && n < m.config.layers
    ensures IsMatrix(y, |tokens|, 3 * m.config.channels)
  {
    QkvRows(m.ops, m.LayerOf(n), m.config.channels, Residual(m, tokens, n))
  }

  /** The final layer norm of a residual row. */
  ghost function FinalRow<F>(m: Model<F>, x: seq<F>): (y: seq<F>)
    requires m.Valid() && |x| == m.config.channels
    ensures |y| == m.config.channels
  {
    ClosedForm(m.config, Lnfw);
    ClosedForm(m.config, Lnfb);
    LayerNormRow(m.ops, x, m.Tensor(Lnfw), m.Tensor(Lnfb))
  }

  /** The logits of row r of a forward pass, over the padded vocabulary. */
  ghost function LogitsRow<F>(m: Model<F>, tokens: seq<int>, r: nat): (y: seq<F>)
    requires Accepted(m, tokens) && r < |tokens|
    ensures |y| == m.config.padded
  {
    LinearRow(m.ops, FinalRow(m, Residual(m, tokens, m.config.layers)[r]), TokenTable(m), [])
  }

  /** The logits that select the next token: the last row, without the padding of the vocabulary. */
  ghost function NextLogits<F>(m: Model<F>, tokens: seq<int>): (y: seq<F>)
    requires Accepted(m, tokens) && tokens != []
    ensures |y| == m.config.vocabulary
  {
    LogitsRow(m, tokens, |tokens| - 1)[..m.config.vocabulary]
  }

  // Causality.

  lemma QkvRowsPrefix<F>(o: Ops<F>, w: LayerWeights<F>, c: nat, x: seq<seq<F>>, k: nat)
    requires w.Fits(c) && IsMatrix(x, |x|, c) && k <= |x|
    ensures QkvRows(o, w, c, x[..k]) == QkvRows(o, w, c, x)[..k]
  {
  }

  lemma CausalRowPrefix<F>(o: Ops<F>, qkv: seq<seq<F>>, k: nat, r: nat, c: nat, heads: nat)
    requires IsMatrix(qkv, |qkv|, 3 * c) && r < k <= |qkv| && ValidHeads(c, heads)
    ensures CausalRow(o, qkv[..k], r, c, heads) == CausalRow(o, qkv, r, c, heads)
  {
    assert KeyRows(qkv[..k], r + 1, c) == KeyRows(qkv, r + 1, c);
    assert ValueRows(qkv[..k], r + 1, c) == ValueRows(qkv, r + 1, c);
  }

  /** One layer is causal: the first k output rows are the output of the first k input rows. */
  lemma LayerPrefix<F>(o: Ops<F>, w: LayerWeights<F>, c: nat, heads: nat, x: seq<seq<F>>, k: nat)
    requires w.Fits(c) && IsMatrix(x, |x|, c) && ValidHeads(c, heads) && k <= |x|
    ensures LayerRows(o, w, c, heads, x[..k]) == LayerRows(o, w, c, heads, x)[..k]
  {
    hide BlockRow, CausalRow;
    QkvRowsPrefix(o, w, c, x, k);
    var qkv := QkvRows(o, w, c, x);
    forall r | 0 <= r < k
      ensures LayerRows(o, w, c, heads, x[..k])[r] == LayerRows(o, w, c, heads, x)[r]
    {
      CausalRowPrefix(o, qkv, k, r, c, heads);
    }
  }

  lemma EmbeddingPrefix<F>(m: Model<F>, tokens: seq<int>, k: nat)
    requires Accepted(m, tokens) && k <= |tokens|
    ensures Embedding(m, tokens[..k]) == Embedding(m, tokens)[..k]
  {
    hide EmbedRow;
  }

  /** The residual stream after any number of layers is causal. */
  lemma {:induction false} ResidualPrefix<F>(m: Model<F>, tokens: seq<int>, k: nat, n: nat)
    requires Accepted(m, tokens) && k <= |tokens| && n <= m.config.layers
    ensures Residual(m, tokens[..k], n) == Residual(m, tokens, n)[..k]
  {
    hide LayerRows, EmbedRow, Embedding;
    if n == 0 {
      EmbeddingPrefix(m, tokens, k);
    } else {
      ResidualPrefix(m, tokens, k, n - 1);
      LayerPrefix(m.ops, m.LayerOf(n - 1), m.config.channels, m.config.heads, Residual(m, tokens, n - 1), k);
    }
  }

  lemma AcceptedPrefix<F>(m: Model<F>, tokens: seq<int>, k: nat)
    requires Accepted(m, tokens) && k <= |tokens|
    ensures Accepted(m, tokens[..k])
  {
  }

  /**
   Causality of the full pass: at any row r below k, the residual and the qkv row of every layer and
   the logits are the same for the whole sequence as for its first k tokens.
   */
  lemma Causality<F>(m: Model<F>, tokens: seq<int>, k: nat, r: nat)
    requires Accepted(m, tokens) && r < k <= |tokens|
    ensures forall n :: 0 <= n <= m.config.layers ==>
              Residual(m, tokens[..k], n)[r] == Residual(m, tokens, n)[r]
    ensures forall n :: 0 <= n < m.config.layers ==>
              QkvOf(m, tokens[..k], n)[r] == QkvOf(m, tokens, n)[r]
    ensures LogitsRow(m, tokens[..k], r) == LogitsRow(m, tokens, r)
  {
    forall n | 0 <= n <= m.config.layers
      ensures Residual(m, tokens[..k], n)[r] == Residual(m, tokens, n)[r]
    {
      ResidualPrefix(m, tokens, k, n);
    }
  }
}
