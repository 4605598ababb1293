/** The full-prefix pass: every row of every layer, recomputed into a reusable workspace. */
module Forward {
  import opened Wrappers
  import opened Words
  import opened Arithmetic
  import opened Matrices
  import opened Reference
  import opened MatrixKernels
  import opened Layout
  import opened Model
  import opened FullPrefix

  /** std::vector::resize: the elements both lengths share stay as they are. */
  method ResizeBuffer<F>(o: Ops<F>, buffer: array<F>, length: nat) returns (r: array<F>)
    ensures r.Length == length && (r == buffer || fresh(r))
    ensures forall i :: 0 <= i < length && i < buffer.Length ==> r[i] == buffer[i]
  {
    if buffer.Length == length {
      return buffer;
    }
    r := new F[length](_ => o.zero);
    for i := 0 to (if length < buffer.Length then length else buffer.Length)
      invariant forall j :: 0 <= j < i ==> r[j] == buffer[j]
    {
      r[i] := buffer[i];
    }
  }

  class Workspace<F> {
    var sequenceLength: nat
    var residual: array<F>
    var normalized: array<F>
    var qkv: array<F>
    var attentionOutput: array<F>
    var projected: array<F>
    var mlpHidden: array<F>
    var attentionScores: array<F>
    var logits: array<F>

    /** The buffers are eight different allocations. */
    ghost predicate Valid()
      reads this
    {
      && residual !in {normalized, qkv, attentionOutput, projected, mlpHidden, attentionScores, logits}
      && normalized !in {qkv, attentionOutput, projected, mlpHidden, attentionScores, logits}
      && qkv !in {attentionOutput, projected, mlpHidden, attentionScores, logits}
      && attentionOutput !in {projected, mlpHidden, attentionScores, logits}
      && projected !in {mlpHidden, attentionScores, logits}
      && mlpHidden !in {attentionScores, logits}
      && attentionScores != logits
    }

    ghost function Buffers(): set<array<F>>
      reads this
    {
      {residual, normalized, qkv, attentionOutput, projected, mlpHidden, attentionScores, logits}
    }

    /** Sized for n positions of a configuration. */
    ghost predicate Sized(config: Config, n: nat)
      reads this
    {
      && residual.Length == normalized.Length == attentionOutput.Length == projected.Length == n * config.channels
      && qkv.Length == n * (3 * config.channels)
      && mlpHidden.Length == n * (4 * config.channels)
      && attentionScores.Length == n
      && logits.Length == n * config.padded
    }

    constructor (o: Ops<F>)
      ensures Valid() && sequenceLength == 0 && fresh(Buffers())
    {
      sequenceLength := 0;
      residual := new F[0](_ => o.zero);
      normalized := new F[0](_ => o.zero);
      qkv := new F[0](_ => o.zero);
      attentionOutput := new F[0](_ => o.zero);
      projected := new F[0](_ => o.zero);
      mlpHidden := new F[0](_ => o.zero);
      attentionScores := new F[0](_ => o.zero);
      logits := new F[0](_ => o.zero);
    }

    lemma Parts()
      ensures {residual, normalized, qkv, attentionOutput, attentionScores, projected, mlpHidden, logits} <= Buffers()
    {
    }

    method Resize(o: Ops<F>, config: Config, n: Word) returns (r: Outcome)
      requires Valid()
      modifies this
      ensures Valid() && fresh(Buffers() - old(Buffers()))
      ensures r.Pass? <==> && config.Valid() && 0 < n <= config.maxSequence
                           && n * config.channels * 4 <= SIZE_MAX && n * config.padded <= SIZE_MAX
      ensures r.Pass? ==> Sized(config, n) && sequenceLength == n
      ensures r.Fail? ==> unchanged(this)
    {
      if !config.Valid() {
        return Fail(InvalidArgument);
      }
      if n == 0 || n > config.maxSequence {
        return Fail(InvalidArgument);
      }
      var sizes := WorkspaceSizes(config, n);
      if sizes.Failure? {
        return Fail(Overflow);
      }
      SizesAssociate(n, config.channels);
      AllocateNarrow(o, sizes.value.tokenChannels);
      AllocateWide(o, sizes.value.qkv, sizes.value.hidden, n, sizes.value.logits);
      sequenceLength := n;
      return Pass;
    }

    method AllocateNarrow(o: Ops<F>, tokenChannels: nat)
      requires Valid()
      modifies `residual, `normalized, `attentionOutput, `projected
      ensures Valid()
      ensures residual == old(residual) || fresh(residual)
      ensures normalized == old(normalized) || fresh(normalized)
      ensures attentionOutput == old(attentionOutput) || fresh(attentionOutput)
      ensures projected == old(projected) || fresh(projected)
      ensures residual.Length == normalized.Length == attentionOutput.Length == projected.Length == tokenChannels
    {
      residual := ResizeBuffer(o, residual, tokenChannels);
      assert Valid();
      normalized := ResizeBuffer(o, normalized, tokenChannels);
      assert Valid();
      attentionOutput := ResizeBuffer(o, attentionOutput, tokenChannels);
      assert Valid();
      projected := ResizeBuffer(o, projected, tokenChannels);
    }

    method AllocateWide(o: Ops<F>, qkvCount: nat, hidden: nat, n: nat, logitsCount: nat)
      requires Valid()
      modifies `qkv, `mlpHidden, `attentionScores, `logits
      ensures Valid()
      ensures qkv == old(qkv) || fresh(qkv)
      ensures mlpHidden == old(mlpHidden) || fresh(mlpHidden)
      ensures attentionScores == old(attentionScores) || fresh(attentionScores)
      ensures logits == old(logits) || fresh(logits)
      ensures qkv.Length == qkvCount && mlpHidden.Length == hidden
      ensures attentionScores.Length == n && logits.Length == logitsCount
    {
      qkv := ResizeBuffer(o, qkv, qkvCount);
      assert Valid();
      mlpHidden := ResizeBuffer(o, mlpHidden, hidden);
      assert Valid();
      attentionScores := ResizeBuffer(o, attentionScores, n);
      assert Valid();
      logits := ResizeBuffer(o, logits, logitsCount);
    }
  }

  datatype Sizes = Sizes(tokenChannels: Word, qkv: Word, hidden: Word, logits: Word)

  /** The four checked sizes of a workspace for n positions. */
  function WorkspaceSizes(config: Config, n: Word): (r: Result<Sizes>)
    ensures r.Success? <==> n * config.channels * 4 <= SIZE_MAX && n * config.padded <= SIZE_MAX
    ensures r.Success? ==>
              r.value == Sizes(n * config.channels, n * config.channels * 3, n * config.channels * 4, n * config.padded)
  {
    var tokenChannels :- CheckedMultiply(n, config.channels);
    var qkv :- CheckedMultiply(tokenChannels, 3);
    var hidden :- CheckedMultiply(tokenChannels, 4);
    var logits :- CheckedMultiply(n, config.padded);
    Success(Sizes(tokenChannels, qkv, hidden, logits))
  }

  lemma SizesAssociate(n: nat, c: nat)
    ensures n * c * 3 == n * (3 * c) && n * c * 4 == n * (4 * c)
  {
  }

  /** The loop that checks every token ID against the real vocabulary. */
  method ValidateTokens(config: Config, tokens: seq<int>) returns (valid: bool)
    ensures valid <==> ValidTokens(config, tokens)
  {
    for i := 0 to |tokens|
      invariant ValidTokens(config, tokens[..i])
    {
      if tokens[i] < 0 || tokens[i] >= config.vocabulary {
        return false;
      }
    }
    return true;
  }

  /** One position of the embedding loop. */
  method EmbedInto<F>(o: Ops<F>, output: array<F>, base: nat, tokens: seq<F>, tokenBase: nat,
                      positions: seq<F>, positionBase: nat, channels: nat)
    requires base + channels <= output.Length
    requires tokenBase + channels <= |tokens| && positionBase + channels <= |positions|
    modifies output
    ensures output[..] == Splice(old(output[..]), base,
              AddRow(o, tokens[tokenBase..tokenBase + channels], positions[positionBase..positionBase + channels]))
  {
    ghost var y := AddRow(o, tokens[tokenBase..tokenBase + channels], positions[positionBase..positionBase + channels]);
    for channel := 0 to channels
      invariant forall i :: 0 <= i < output.Length ==>
                  output[i] == if base <= i < base + channel then y[i - base] else old(output[i])
    {
      output[base + channel] := o.Add(tokens[tokenBase + channel], positions[positionBase + channel]);
    }
  }

  /** Where the two rows of an embedding lie in their tensors. */
  lemma EmbedParts<F>(m: Model<F>, token: nat, position: nat)
    requires m.Valid() && token < m.config.vocabulary && position < m.config.maxSequence
    ensures 0 <= token * m.config.channels
    ensures token * m.config.channels + m.config.channels <= |m.Tensor(Wte)| <= SIZE_MAX
    ensures 0 <= position * m.config.channels
    ensures position * m.config.channels + m.config.channels <= |m.Tensor(Wpe)| <= SIZE_MAX
    ensures var c := m.config.channels;
            EmbedRow(m, token, position) == AddRow(m.ops, m.Tensor(Wte)[token * c..token * c + c],
                                                   m.Tensor(Wpe)[position * c..position * c + c])
  {
    ClosedForm(m.config, Wte);
    ClosedForm(m.config, Wpe);
    var c := m.config.channels;
    RowFits(token, m.config.padded, c);
    RowFits(position, m.config.maxSequence, c);
    hide Count, OffsetTo, AddRow;
    TableRow(m.Tensor(Wte), m.config.padded, c, token);
    TableRow(m.Tensor(Wpe), m.config.maxSequence, c, position);
  }

  /** Position p of the embedding, from the parameter tensors. */
  method EmbedToken<F>(m: Model<F>, output: array<F>, base: nat, token: int, position: nat)
    requires m.Valid() && 0 <= token < m.config.vocabulary && position < m.config.maxSequence
    requires base + m.config.channels <= output.Length
    modifies output
    ensures output[..] == Splice(old(output[..]), base, EmbedRow(m, token, position))
  {
    hide *;
    EmbedParts(m, token, position);
    var c := m.config.channels;
    var tokenBase: Word, positionBase: Word := token * c, position * c;
    EmbedInto(m.ops, output, base, m.Tensor(Wte), tokenBase, m.Tensor(Wpe), positionBase, c);
  }

  method EmbedAll<F>(m: Model<F>, output: array<F>, tokens: seq<int>)
    requires Accepted(m, tokens) && output.Length == |tokens| * m.config.channels <= SIZE_MAX
    modifies output
    ensures output[..] == Flat(Embedding(m, tokens))
  {
    ghost var was := output[..];
    ghost var x := Embedding(m, tokens);
    var c := m.config.channels;
    SpanStart(was, 0, x, |tokens|, c);
    hide Embedding, EmbedRow, SpanHolds, Splice;
    for position := 0 to |tokens|
      invariant SpanHolds(was, output[..], 0, x, |tokens|, c, position)
    {
      SpanStep(was, output[..], 0, x, |tokens|, c, position);
      RowFits(position, |tokens|, c);
      var positionBase: Word := position * c;
      EmbedToken(m, output, positionBase, tokens[position], position);
    }
    SpanDone(was, output[..], 0, x, |tokens|, c);
  }

  /** Matrix forms of the second half of a layer. */
  ghost function AfterAttentionRows<F>(o: Ops<F>, w: LayerWeights<F>, c: nat, x: seq<seq<F>>,
                                       attention: seq<seq<F>>): (y: seq<seq<F>>)
    requires w.Fits(c) && IsMatrix(x, |x|, c) && IsMatrix(attention, |x|, c)
    ensures IsMatrix(y, |x|, c)
    ensures forall r :: 0 <= r < |x| ==> y[r] == AfterAttention(o, w, c, x[r], attention[r])
  {
    seq(|x|, (r: nat) requires r < |x| => AfterAttention(o, w, c, x[r], attention[r]))
  }

  ghost function HiddenRows<F>(o: Ops<F>, w: LayerWeights<F>, c: nat, x: seq<seq<F>>): (y: seq<seq<F>>)
    requires w.Fits(c) && IsMatrix(x, |x|, c)
    ensures IsMatrix(y, |x|, 4 * c)
    ensures forall r :: 0 <= r < |x| ==> y[r] == HiddenRow(o, w, c, x[r])
  {
    seq(|x|, (r: nat) requires r < |x| => HiddenRow(o, w, c, x[r]))
  }

  ghost function AfterMlpRows<F>(o: Ops<F>, w: LayerWeights<F>, c: nat, x: seq<seq<F>>): (y: seq<seq<F>>)
    requires w.Fits(c) && IsMatrix(x, |x|, c)
    ensures IsMatrix(y, |x|, c)
    ensures forall r :: 0 <= r < |x| ==> y[r] == AfterMlp(o, w, c, x[r])
  {
    seq(|x|, (r: nat) requires r < |x| => AfterMlp(o, w, c, x[r]))
  }

  lemma LayerInRows<F>(o: Ops<F>, w: LayerWeights<F>, c: nat, heads: nat, x: seq<seq<F>>)
    requires w.Fits(c) && IsMatrix(x, |x|, c) && ValidHeads(c, heads)
    ensures AfterMlpRows(o, w, c, AfterAttentionRows(o, w, c, x, CausalRows(o, QkvRows(o, w, c, x), c, heads)))
         == LayerRows(o, w, c, heads, x)
  {
  }

  /** The unchecked sizes of a run over n positions of width c are size_t values. */
  ghost predicate Widths(n: nat, c: nat) {
    && n * c <= SIZE_MAX && n * 3 * c == n * (3 * c) <= SIZE_MAX && n * (4 * c) <= SIZE_MAX
    && c * c <= SIZE_MAX && 3 * c * c <= SIZE_MAX && 4 * c * c == c * (4 * c) <= SIZE_MAX
  }

  method QkvStep<F>(o: Ops<F>, ws: Workspace<F>, w: LayerWeights<F>, n: nat, c: nat, ghost x: seq<seq<F>>)
    requires ws.Valid() && w.Fits(c) && Widths(n, c) && c > 0
    requires ws.residual.Length == ws.normalized.Length == n * c && ws.qkv.Length == n * (3 * c)
    requires IsMatrix(x, n, c) && ws.residual[..] == Flat(x)
    modifies ws.normalized, ws.qkv
    ensures ws.qkv[..] == Flat(QkvRows(o, w, c, x))
  {
    var c3: Word := 3 * c;
    NormalizeMatrix(o, ws.normalized, ws.residual[..], w.ln1w, w.ln1b, n, c, x);
    ghost var y := LayerNormRows(o, x, w.ln1w, w.ln1b);
    LinearMatrix(o, ws.qkv, ws.normalized[..], w.qkvw, w.qkvb, n, c, c3, y);
    assert LinearRows(o, y, Rows(w.qkvw, 3 * c, c), w.qkvb, c) == QkvRows(o, w, c, x);
  }

  method ProjectStep<F>(o: Ops<F>, ws: Workspace<F>, w: LayerWeights<F>, n: nat, c: nat,
                        ghost x: seq<seq<F>>, ghost attention: seq<seq<F>>)
    requires ws.Valid() && w.Fits(c) && Widths(n, c)
    requires ws.residual.Length == ws.projected.Length == n * c
    requires IsMatrix(x, n, c) && ws.residual[..] == Flat(x)
    requires IsMatrix(attention, n, c) && ws.attentionOutput[..] == Flat(attention)
    modifies ws.projected, ws.residual
    ensures ws.residual[..] == Flat(AfterAttentionRows(o, w, c, x, attention))
  {
    LinearMatrix(o, ws.projected, ws.attentionOutput[..], w.attprojw, w.attprojb, n, c, c, attention);
    ghost var d := LinearRows(o, attention, Rows(w.attprojw, c, c), w.attprojb, c);
    assert ws.residual[..] == Flat(x);
    AddMatrix(o, ws.residual, ws.projected[..], c, x, d);
    assert AddRows(o, x, d, c) == AfterAttentionRows(o, w, c, x, attention);
  }

  method HiddenStep<F>(o: Ops<F>, ws: Workspace<F>, w: LayerWeights<F>, n: nat, c: nat, ghost x: seq<seq<F>>)
    requires ws.Valid() && w.Fits(c) && Widths(n, c) && c > 0
    requires ws.residual.Length == ws.normalized.Length == n * c && ws.mlpHidden.Length == n * (4 * c)
    requires IsMatrix(x, n, c) && ws.residual[..] == Flat(x)
    modifies ws.normalized, ws.mlpHidden
    ensures ws.mlpHidden[..] == Flat(HiddenRows(o, w, c, x))
  {
    var c4: Word := 4 * c;
    NormalizeMatrix(o, ws.normalized, ws.residual[..], w.ln2w, w.ln2b, n, c, x);
    ghost var y := LayerNormRows(o, x, w.ln2w, w.ln2b);
    LinearMatrix(o, ws.mlpHidden, ws.normalized[..], w.fcw, w.fcb, n, c, c4, y);
    ghost var z := LinearRows(o, y, Rows(w.fcw, 4 * c, c), w.fcb, c);
    GeluMatrix(o, ws.mlpHidden, 4 * c, z);
    assert GeluRows(o, z, 4 * c) == HiddenRows(o, w, c, x);
  }

  method MlpStep<F>(o: Ops<F>, ws: Workspace<F>, w: LayerWeights<F>, n: nat, c: nat, ghost x: seq<seq<F>>)
    requires ws.Valid() && w.Fits(c) && Widths(n, c) && c > 0
    requires ws.residual.Length == ws.normalized.Length == ws.projected.Length == n * c
    requires ws.mlpHidden.Length == n * (4 * c)
    requires IsMatrix(x, n, c) && ws.residual[..] == Flat(x)
    modifies ws.normalized, ws.mlpHidden, ws.projected, ws.residual
    ensures ws.residual[..] == Flat(AfterMlpRows(o, w, c, x))
  {
    HiddenStep(o, ws, w, n, c, x);
    ghost var h := HiddenRows(o, w, c, x);
    LinearMatrix(o, ws.projected, ws.mlpHidden[..], w.fcprojw, w.fcprojb, n, 4 * c, c, h);
    ghost var d := LinearRows(o, h, Rows(w.fcprojw, c, 4 * c), w.fcprojb, 4 * c);
    assert ws.residual[..] == Flat(x);
    AddMatrix(o, ws.residual, ws.projected[..], c, x, d);
    assert AddRows(o, x, d, c) == AfterMlpRows(o, w, c, x);
  }

  /** One layer of forward. */
  method LayerStep<F>(o: Ops<F>, ws: Workspace<F>, w: LayerWeights<F>, config: Config, n: nat, ghost x: seq<seq<F>>)
    requires ws.Valid() && config.Valid() && w.Fits(config.channels) && Widths(n, config.channels)
    requires ws.Sized(config, n)
    requires IsMatrix(x, n, config.channels) && ws.residual[..] == Flat(x)
    modifies ws.normalized, ws.qkv, ws.attentionOutput, ws.attentionScores, ws.projected, ws.mlpHidden, ws.residual
    ensures ws.residual[..] == Flat(LayerRows(o, w, config.channels, config.heads, x))
  {
    var c := config.channels;
    LayerInRows(o, w, c, config.heads, x);
    ghost var qkv := QkvRows(o, w, c, x);
    ghost var attention := CausalRows(o, qkv, c, config.heads);
    ghost var y := AfterAttentionRows(o, w, c, x, attention);
    hide QkvRows, CausalRows, AfterAttentionRows, AfterMlpRows, LayerRows, Flat;
    QkvStep(o, ws, w, n, c, x);
    AttendMatrix(o, ws.attentionOutput, ws.qkv[..], ws.attentionScores, n, c, config.heads, qkv);
    assert ws.residual[..] == Flat(x);
    ProjectStep(o, ws, w, n, c, x, attention);
    MlpStep(o, ws, w, n, c, y);
  }

  /** All the logits of a forward pass. */
  ghost function AllLogits<F>(m: Model<F>, tokens: seq<int>): (y: seq<seq<F>>)
    requires Accepted(m, tokens)
    ensures IsMatrix(y, |tokens|, m.config.padded)
    ensures forall r :: 0 <= r < |tokens| ==> y[r] == LogitsRow(m, tokens, r)
  {
    seq(|tokens|, (r: nat) requires r < |tokens| => LogitsRow(m, tokens, r))
  }

  lemma RunWidths<F>(m: Model<F>, n: nat)
    requires m.Valid() && n <= m.config.maxSequence
    ensures n * m.config.channels * 4 <= SIZE_MAX && n * m.config.padded <= SIZE_MAX
    ensures Widths(n, m.config.channels)
  {
    hide OffsetTo, Count;
    m.LayerWidths();
    m.SequenceWidths();
    TimesMonotone(n, m.config.maxSequence, m.config.channels);
    TimesMonotone(n, m.config.maxSequence, m.config.padded);
    SizesAssociate(n, m.config.channels);
    TripleAssociate(n, m.config.channels);
  }

  lemma TripleAssociate(n: nat, c: nat)
    ensures n * 3 * c == n * (3 * c)
  {
  }

  /** The final layer norm of every row. */
  ghost function FinalRows<F>(m: Model<F>, x: seq<seq<F>>): (y: seq<seq<F>>)
    requires m.Valid() && IsMatrix(x, |x|, m.config.channels)
    ensures IsMatrix(y, |x|, m.config.channels)
    ensures forall r :: 0 <= r < |x| ==> y[r] == FinalRow(m, x[r])
  {
    seq(|x|, (r: nat) requires r < |x| => FinalRow(m, x[r]))
  }

  method FinalStep<F>(m: Model<F>, output: array<F>, input: seq<F>, n: nat, ghost x: seq<seq<F>>)
    requires m.Valid() && IsMatrix(x, n, m.config.channels) && input == Flat(x)
    requires output.Length == n * m.config.channels <= SIZE_MAX
    modifies output
    ensures output[..] == Flat(FinalRows(m, x))
  {
    ClosedForm(m.config, Lnfw);
    ClosedForm(m.config, Lnfb);
    hide Count, OffsetTo;
    NormalizeMatrix(m.ops, output, input, m.Tensor(Lnfw), m.Tensor(Lnfb), n, m.config.channels, x);
    assert LayerNormRows(m.ops, x, m.Tensor(Lnfw), m.Tensor(Lnfb)) == FinalRows(m, x);
  }

  /** The projection to the padded vocabulary at the end of forward. */
  method ProjectLogits<F>(m: Model<F>, output: array<F>, input: seq<F>, n: nat, ghost y: seq<seq<F>>)
    requires m.Valid() && IsMatrix(y, n, m.config.channels) && input == Flat(y)
    requires output.Length == n * m.config.padded <= SIZE_MAX && n * m.config.channels <= SIZE_MAX
    modifies output
    ensures output[..] == Flat(LinearRows(m.ops, y, TokenTable(m), [], m.config.channels))
  {
    m.SequenceWidths();
    ClosedForm(m.config, Wte);
    hide Count, OffsetTo;
    LinearMatrix(m.ops, output, input, m.Tensor(Wte), [], n, m.config.channels, m.config.padded, y);
  }

  lemma LogitsInRows<F>(m: Model<F>, tokens: seq<int>)
    requires Accepted(m, tokens)
    ensures LinearRows(m.ops, FinalRows(m, Residual(m, tokens, m.config.layers)), TokenTable(m), [], m.config.channels)
         == AllLogits(m, tokens)
  {
    hide FinalRow, TokenTable, Residual;
  }

  /** What the steps of a run over accepted tokens need. */
  lemma RunFacts<F>(m: Model<F>, ws: Workspace<F>, tokens: seq<int>)
    requires Accepted(m, tokens) && ws.Valid() && ws.Sized(m.config, |tokens|)
    ensures m.Valid() && m.config.Valid() && Widths(|tokens|, m.config.channels)
    ensures |tokens| * m.config.channels <= SIZE_MAX && |tokens| * m.config.padded <= SIZE_MAX
    ensures ws.residual.Length == ws.normalized.Length == |tokens| * m.config.channels
    ensures ws.logits.Length == |tokens| * m.config.padded
    ensures ws.normalized != ws.logits && ws.residual != ws.normalized
    ensures IsMatrix(Embedding(m, tokens), |tokens|, m.config.channels)
    ensures forall n | 0 <= n <= m.config.layers :: IsMatrix(Residual(m, tokens, n), |tokens|, m.config.channels)
    ensures |Residual(m, tokens, m.config.layers)| == |tokens|
  {
    RunWidths(m, |tokens|);
  }

  method LogitsStep<F>(m: Model<F>, ws: Workspace<F>, tokens: seq<int>)
    requires Accepted(m, tokens) && ws.Valid() && ws.Sized(m.config, |tokens|)
    requires ws.residual[..] == Flat(Residual(m, tokens, m.config.layers))
    modifies ws.normalized, ws.logits
    ensures ws.logits[..] == Flat(AllLogits(m, tokens))
  {
    hide *;
    RunFacts(m, ws, tokens);
    LogitsInRows(m, tokens);
    ghost var x := Residual(m, tokens, m.config.layers);
    ghost var y := FinalRows(m, x);
    FinalStep(m, ws.normalized, ws.residual[..], |tokens|, x);
    ProjectLogits(m, ws.logits, ws.normalized[..], |tokens|, y);
  }

  lemma ResidualStart<F>(m: Model<F>, tokens: seq<int>)
    requires Accepted(m, tokens)
    ensures Residual(m, tokens, 0) == Embedding(m, tokens)
  {
  }

  lemma ResidualNext<F>(m: Model<F>, tokens: seq<int>, n: nat)
    requires Accepted(m, tokens) && n < m.config.layers
    ensures Residual(m, tokens, n + 1)
         == LayerRows(m.ops, m.LayerOf(n), m.config.channels, m.config.heads, Residual(m, tokens, n))
  {
  }

  /** The layer loop of forward. */
  method LayerLoop<F>(m: Model<F>, ws: Workspace<F>, tokens: seq<int>)
    requires Accepted(m, tokens) && ws.Valid() && ws.Sized(m.config, |tokens|)
    requires ws.residual[..] == Flat(Embedding(m, tokens))
    modifies ws.normalized, ws.qkv, ws.attentionOutput, ws.attentionScores, ws.projected, ws.mlpHidden, ws.residual
    ensures ws.residual[..] == Flat(Residual(m, tokens, m.config.layers))
  {
    hide *;
    RunFacts(m, ws, tokens);
    ResidualStart(m, tokens);
    for layer := 0 to m.config.layers
      invariant ws.residual[..] == Flat(Residual(m, tokens, layer))
    {
      var w := m.LoadLayer(layer);
      LayerStep(m.ops, ws, w, m.config, |tokens|, Residual(m, tokens, layer));
      ResidualNext(m, tokens, layer);
    }
  }

  /** forward once the tokens are accepted: resize the workspace, then embed, run the layers and project. */
  method RunAccepted<F>(m: Model<F>, tokens: seq<int>, ws: Workspace<F>)
    requires tokens != [] && Accepted(m, tokens) && ws.Valid() && |tokens| <= SIZE_MAX
    modifies ws, ws.Buffers()
    ensures ws.Valid() && fresh(ws.Buffers() - old(ws.Buffers()))
    ensures ws.logits[..] == Flat(AllLogits(m, tokens))
  {
    hide *;
    AcceptedWidths(m, tokens);
    var resized := ws.Resize(m.ops, m.config, |tokens|);
    assert resized.Pass?;
    RunFacts(m, ws, tokens);
    ws.Parts();
    EmbedAll(m, ws.residual, tokens);
    LayerLoop(m, ws, tokens);
    LogitsStep(m, ws, tokens);
  }

  lemma AcceptedMeans<F>(m: Model<F>, tokens: seq<int>)
    requires m.Valid()
    ensures Accepted(m, tokens) <==> |tokens| <= m.config.maxSequence && ValidTokens(m.config, tokens)
  {
  }

  lemma AcceptedWidths<F>(m: Model<F>, tokens: seq<int>)
    requires tokens != [] && Accepted(m, tokens)
    ensures m.config.Valid() && 0 < |tokens| <= m.config.maxSequence
    ensures |tokens| * m.config.channels * 4 <= SIZE_MAX && |tokens| * m.config.padded <= SIZE_MAX
  {
    RunWidths(m, |tokens|);
  }

  /**
   GPT2Model::forward. On every accepted sequence it succeeds, whatever earlier calls left in the
   workspace, and the logits depend on the model and the tokens alone.
   */
  method Forward<F>(m: Model<F>, tokens: seq<int>, ws: Workspace<F>) returns (r: Result<seq<F>>)
    requires m.Valid() && ws.Valid() && |tokens| <= SIZE_MAX
    modifies ws, ws.Buffers()
    ensures ws.Valid() && fresh(ws.Buffers() - old(ws.Buffers()))
    ensures r.Success? <==> tokens != [] && Accepted(m, tokens)
    ensures r.Success? ==> r.value == Flat(AllLogits(m, tokens)) == ws.logits[..]
    ensures r.Failure? ==> r.error == InvalidArgument && unchanged(ws) && unchanged(ws.Buffers())
  {
    hide Accepted, ValidTokens, AllLogits, Flat, Model<F>.Valid, Workspace<F>.Valid;
    AcceptedMeans(m, tokens);
    if |tokens| == 0 || |tokens| > m.config.maxSequence {
      return Failure(InvalidArgument);
    }
    var valid := ValidateTokens(m.config, tokens);
    if !valid {
      return Failure(InvalidArgument);
    }
    RunAccepted(m, tokens, ws);
    return Success(ws.logits[..]);
  }
}
