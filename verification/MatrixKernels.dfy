/**
 The kernels as the two inference paths call them: on buffers that hold matrices, with sizes for
 which no size check fails.
 */
module MatrixKernels {
  import opened Words
  import opened Arithmetic
  import opened Matrices
  import opened Reference
  import opened Kernels
  import opened Attention

  ghost function AddRows<F>(o: Ops<F>, x: seq<seq<F>>, d: seq<seq<F>>, width: nat): (y: seq<seq<F>>)
    requires IsMatrix(x, |x|, width) && IsMatrix(d, |x|, width)
    ensures IsMatrix(y, |x|, width)
    ensures forall r :: 0 <= r < |x| ==> y[r] == AddRow(o, x[r], d[r])
  {
    seq(|x|, (r: nat) requires r < |x| => AddRow(o, x[r], d[r]))
  }

  ghost function GeluRows<F>(o: Ops<F>, x: seq<seq<F>>, width: nat): (y: seq<seq<F>>)
    requires IsMatrix(x, |x|, width)
    ensures IsMatrix(y, |x|, width)
    ensures forall r :: 0 <= r < |x| ==> y[r] == GeluRow(o, x[r])
  {
    seq(|x|, (r: nat) requires r < |x| => GeluRow(o, x[r]))
  }

  lemma {:induction false} FlatAdd<F>(o: Ops<F>, x: seq<seq<F>>, d: seq<seq<F>>, width: nat)
    requires IsMatrix(x, |x|, width) && IsMatrix(d, |x|, width)
    ensures |Flat(x)| == |Flat(d)|
    ensures AddRow(o, Flat(x), Flat(d)) == Flat(AddRows(o, x, d, width))
  {
    FlatLength(x, |x|, width);
    FlatLength(d, |x|, width);
    if |x| > 0 {
      var n := |x| - 1;
      FlatAdd(o, x[..n], d[..n], width);
      assert AddRows(o, x[..n], d[..n], width) == AddRows(o, x, d, width)[..n];
      AddConcat(o, Flat(x[..n]), x[n], Flat(d[..n]), d[n]);
    }
  }

  lemma AddConcat<F>(o: Ops<F>, a: seq<F>, b: seq<F>, c: seq<F>, d: seq<F>)
    requires |a| == |c| && |b| == |d|
    ensures AddRow(o, a + b, c + d) == AddRow(o, a, c) + AddRow(o, b, d)
  {
  }

  lemma {:induction false} FlatGelu<F>(o: Ops<F>, x: seq<seq<F>>, width: nat)
    requires IsMatrix(x, |x|, width)
    ensures GeluRow(o, Flat(x)) == Flat(GeluRows(o, x, width))
  {
    if |x| > 0 {
      var n := |x| - 1;
      FlatGelu(o, x[..n], width);
      assert GeluRows(o, x[..n], width) == GeluRows(o, x, width)[..n];
      assert GeluRow(o, Flat(x[..n]) + x[n]) == GeluRow(o, Flat(x[..n])) + GeluRow(o, x[n]);
    }
  }

  method NormalizeMatrix<F>(o: Ops<F>, output: array<F>, input: seq<F>, weight: seq<F>, bias: seq<F>,
                            rows: nat, channels: nat, ghost x: seq<seq<F>>)
    requires IsMatrix(x, rows, channels) && input == Flat(x) && channels > 0
    requires output.Length == rows * channels <= SIZE_MAX && |weight| == |bias| == channels
    modifies output
    ensures output[..] == Flat(LayerNormRows(o, x, weight, bias))
  {
    RowsOfFlat(x, rows, channels);
    var outcome := LayerNorm(o, output, input, weight, bias, rows, channels);
    assert outcome.Pass?;
  }

  method LinearMatrix<F>(o: Ops<F>, output: array<F>, input: seq<F>, weight: seq<F>, bias: seq<F>,
                         rows: nat, inputs: nat, outputs: nat, ghost x: seq<seq<F>>)
    requires IsMatrix(x, rows, inputs) && input == Flat(x)
    requires output.Length == rows * outputs <= SIZE_MAX && rows * inputs <= SIZE_MAX
    requires |weight| == outputs * inputs <= SIZE_MAX && (bias == [] || |bias| == outputs)
    modifies output
    ensures output[..] == Flat(LinearRows(o, x, Rows(weight, outputs, inputs), bias, inputs))
  {
    RowsOfFlat(x, rows, inputs);
    var outcome := Linear(o, output, input, weight, bias, rows, inputs, outputs);
    assert outcome.Pass?;
  }

  method AttendMatrix<F>(o: Ops<F>, output: array<F>, qkv: seq<F>, scratch: array<F>,
                         rows: nat, channels: nat, heads: nat, ghost x: seq<seq<F>>)
    requires output != scratch && ValidHeads(channels, heads)
    requires IsMatrix(x, rows, 3 * channels) && qkv == Flat(x)
    requires output.Length == rows * channels <= SIZE_MAX && rows * 3 * channels <= SIZE_MAX
    requires scratch.Length == rows
    modifies output, scratch
    ensures output[..] == Flat(CausalRows(o, x, channels, heads))
  {
    RowsOfFlat(x, rows, 3 * channels);
    TripleWidth(rows, channels);
    var outcome := CausalSelfAttention(o, output, qkv, scratch, rows, channels, heads);
    assert outcome.Pass?;
  }

  method AddMatrix<F>(o: Ops<F>, destination: array<F>, source: seq<F>, width: nat,
                      ghost x: seq<seq<F>>, ghost d: seq<seq<F>>)
    requires IsMatrix(x, |x|, width) && IsMatrix(d, |x|, width)
    requires destination[..] == Flat(x) && source == Flat(d)
    modifies destination
    ensures destination[..] == Flat(AddRows(o, x, d, width))
  {
    FlatAdd(o, x, d, width);
    var outcome := AddInPlace(o, destination, source);
    assert outcome.Pass?;
  }

  method GeluMatrix<F>(o: Ops<F>, values: array<F>, width: nat, ghost x: seq<seq<F>>)
    requires IsMatrix(x, |x|, width) && values[..] == Flat(x)
    modifies values
    ensures values[..] == Flat(GeluRows(o, x, width))
  {
    FlatGelu(o, x, width);
    GeluInPlace(o, values);
  }
}
