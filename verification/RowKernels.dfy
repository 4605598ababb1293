/** The kernels on a single row, as consume_token calls them, with sizes for which none fails. */
module RowKernels {
  import opened Words
  import opened Arithmetic
  import opened Matrices
  import opened Reference
  import opened Kernels
  import opened Attention

  method NormalizeRowInto<F>(o: Ops<F>, output: array<F>, input: seq<F>, weight: seq<F>, bias: seq<F>, channels: nat)
    requires output.Length == |input| == |weight| == |bias| == channels <= SIZE_MAX && channels > 0
    modifies output
    ensures output[..] == LayerNormRow(o, input, weight, bias)
  {
    SingleRow(input);
    var outcome := LayerNorm(o, output, input, weight, bias, 1, channels);
    assert outcome.Pass?;
    ghost var y := LayerNormRow(o, input, weight, bias);
    assert LayerNormRows(o, [input], weight, bias) == [y];
    SingleRow(y);
  }

  method AddRowInto<F>(o: Ops<F>, destination: array<F>, source: seq<F>)
    requires destination.Length == |source|
    modifies destination
    ensures destination[..] == AddRow(o, old(destination[..]), source)
  {
    var outcome := AddInPlace(o, destination, source);
    assert outcome.Pass?;
  }

  method AttendRow<F>(o: Ops<F>, output: array<F>, query: seq<F>, keys: seq<F>, values: seq<F>, scratch: array<F>,
                      visible: nat, capacity: nat, channels: nat, heads: nat,
                      ghost k: seq<seq<F>>, ghost v: seq<seq<F>>)
    requires output != scratch && ValidHeads(channels, heads) && capacity * channels <= SIZE_MAX
    requires output.Length == |query| == channels && |keys| == |values| == capacity * channels
    requires scratch.Length == capacity && 0 < visible <= capacity
    requires k == Rows(keys, capacity, channels)[..visible] && v == Rows(values, capacity, channels)[..visible]
    modifies output, scratch
    ensures output[..] == AttentionRow(o, query, k, v, heads)
  {
    var outcome := CachedSelfAttention(o, output, query, keys, values, scratch, visible, capacity, channels, heads);
    assert outcome.Pass?;
  }
}
