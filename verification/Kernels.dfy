/**
 The scalar kernels, in place on arrays, proved against the row functions of Reference.
 A read-only span is a sequence; a written span is an array, or a part of one.
 A size mismatch is reported before anything is written.
 */
module Kernels {
  import opened Wrappers
  import opened Words
  import opened Arithmetic
  import opened Matrices
  import opened Reference

  /** The mean and the reciprocal standard deviation of input[base..base + channels]. */
  method RowMoments<F>(o: Ops<F>, input: seq<F>, base: nat, channels: nat) returns (mean: F, reciprocal: F)
    requires base + channels <= |input|
    ensures mean == Mean(o, input[base..base + channels])
    ensures reciprocal == ReciprocalDeviation(o, input[base..base + channels])
  {
    ghost var x := input[base..base + channels];
    mean := o.zero;
    for channel := 0 to channels
      invariant mean == SumTo(o, x, channel)
    {
      mean := o.Add(mean, input[base + channel]);
    }
    mean := o.Div(mean, o.OfNat(channels));
    var variance := o.zero;
    for channel := 0 to channels
      invariant variance == SquaresTo(o, x, mean, channel)
    {
      var shifted := o.Sub(input[base + channel], mean);
      variance := o.Add(variance, o.Mul(shifted, shifted));
    }
    variance := o.Div(variance, o.OfNat(channels));
    reciprocal := o.Div(o.one, o.Sqrt(o.Add(variance, o.epsilon)));
  }

  /** One row of layer_norm, at base in both buffers. */
  method NormalizeRow<F>(o: Ops<F>, output: array<F>, input: seq<F>, weight: seq<F>, bias: seq<F>,
                         base: nat, channels: nat)
    requires base + channels <= output.Length == |input| && |weight| == |bias| == channels
    modifies output
    ensures output[..] == Splice(old(output[..]), base, LayerNormRow(o, input[base..base + channels], weight, bias))
  {
    hide Mean, ReciprocalDeviation, LayerNormRow;
    ghost var x := input[base..base + channels];
    ghost var y := LayerNormRow(o, x, weight, bias);
    var mean, reciprocal := RowMoments(o, input, base, channels);
    for channel := 0 to channels
      invariant forall c :: 0 <= c < output.Length ==>
                  output[c] == if base <= c < base + channel then y[c - base] else old(output[c])
    {
      var normalized := o.Mul(reciprocal, o.Sub(input[base + channel], mean));
      assert input[base + channel] == x[channel];
      output[base + channel] := o.Add(o.Mul(normalized, weight[channel]), bias[channel]);
    }
  }

  method NormalizeRowOf<F>(o: Ops<F>, output: array<F>, input: seq<F>, weight: seq<F>, bias: seq<F>,
                           rows: nat, channels: nat, row: nat)
    requires output.Length == |input| == rows * channels <= SIZE_MAX && |weight| == |bias| == channels
    requires row < rows && 0 <= row * channels && row * channels + channels <= output.Length
    modifies output
    ensures output[..] == Splice(old(output[..]), row * channels,
                                 LayerNormRow(o, Rows(input, rows, channels)[row], weight, bias))
  {
    hide *;
    RowFits(row, rows, channels);
    var base: Word := row * channels;
    TableRow(input, rows, channels, row);
    NormalizeRow(o, output, input, weight, bias, base, channels);
  }

  method LayerNorm<F>(o: Ops<F>, output: array<F>, input: seq<F>, weight: seq<F>, bias: seq<F>,
                      rows: nat, channels: nat) returns (r: Outcome)
    requires rows * channels <= SIZE_MAX
    modifies output
    ensures r.Pass? <==> output.Length == |input| == rows * channels && |weight| == |bias| == channels > 0
    ensures r.Pass? ==>
              output[..] == Flat(LayerNormRows(o, Rows(input, rows, channels), weight, bias))
    ensures r.Fail? ==> output[..] == old(output[..])
  {
    if output.Length != rows * channels || |input| != rows * channels
      || |weight| != channels || |bias| != channels || channels == 0 {
      return Fail(InvalidArgument);
    }
    ghost var was := output[..];
    ghost var y := LayerNormRows(o, Rows(input, rows, channels), weight, bias);
    SpanStart(was, 0, y, rows, channels);
    for row := 0 to rows
      invariant SpanHolds(was, output[..], 0, y, rows, channels, row)
    {
      SpanStep(was, output[..], 0, y, rows, channels, row);
      NormalizeRowOf(o, output, input, weight, bias, rows, channels, row);
    }
    SpanDone(was, output[..], 0, y, rows, channels);
    return Pass;
  }

  predicate LinearSizes<F>(length: nat, input: seq<F>, weight: seq<F>, bias: seq<F>,
                           rows: nat, inputs: nat, outputs: nat) {
    && length == rows * outputs
    && |input| == rows * inputs
    && |weight| == outputs * inputs
    && (bias == [] || |bias| == outputs)
  }

  method DotProduct<F>(o: Ops<F>, init: F, input: seq<F>, inputBase: nat, weight: seq<F>, weightBase: nat,
                       n: nat) returns (value: F)
    requires inputBase + n <= |input| && weightBase + n <= |weight|
    ensures value == DotTo(o, init, input[inputBase..inputBase + n], weight[weightBase..weightBase + n], n)
  {
    ghost var x := input[inputBase..inputBase + n];
    ghost var y := weight[weightBase..weightBase + n];
    value := init;
    for i := 0 to n
      invariant value == DotTo(o, init, x, y, i)
    {
      value := o.Add(value, o.Mul(input[inputBase + i], weight[weightBase + i]));
    }
  }

  method LinearChannel<F>(o: Ops<F>, input: seq<F>, inputBase: nat, weight: seq<F>, bias: seq<F>,
                          inputs: nat, outputs: nat, out: nat) returns (value: F)
    requires inputBase + inputs <= |input| && out < outputs
    requires |weight| == outputs * inputs <= SIZE_MAX && (bias == [] || |bias| == outputs)
    ensures value == LinearAt(o, input[inputBase..inputBase + inputs], Rows(weight, outputs, inputs), bias, out)
  {
    hide DotTo, Rows;
    RowFits(out, outputs, inputs);
    TableRow(weight, outputs, inputs, out);
    var weightBase: Word := out * inputs;
    value := if |bias| == 0 then o.zero else bias[out];
    value := DotProduct(o, value, input, inputBase, weight, weightBase, inputs);
  }

  /** One row of linear: the input row at inputBase, written at base. */
  method LinearRowInto<F>(o: Ops<F>, output: array<F>, base: nat, input: seq<F>, inputBase: nat,
                          weight: seq<F>, bias: seq<F>, inputs: nat, outputs: nat)
    requires base + outputs <= output.Length && inputBase + inputs <= |input|
    requires |weight| == outputs * inputs <= SIZE_MAX && (bias == [] || |bias| == outputs)
    modifies output
    ensures output[..] == Splice(old(output[..]), base,
                                 LinearRow(o, input[inputBase..inputBase + inputs], Rows(weight, outputs, inputs),
                                           bias))
  {
    ghost var y := LinearRow(o, input[inputBase..inputBase + inputs], Rows(weight, outputs, inputs), bias);
    for out := 0 to outputs
      invariant forall c :: 0 <= c < output.Length ==>
                  output[c] == if base <= c < base + out then y[c - base] else old(output[c])
    {
      var value := LinearChannel(o, input, inputBase, weight, bias, inputs, outputs, out);
      output[base + out] := value;
    }
  }

  method LinearRowOf<F>(o: Ops<F>, output: array<F>, first: nat, input: seq<F>, weight: seq<F>, bias: seq<F>,
                        rows: nat, inputs: nat, outputs: nat, row: nat)
    requires |input| == rows * inputs <= SIZE_MAX && |weight| == outputs * inputs <= SIZE_MAX
    requires rows * outputs <= SIZE_MAX && (bias == [] || |bias| == outputs)
    requires row < rows && 0 <= first + row * outputs && first + row * outputs + outputs <= output.Length
    modifies output
    ensures output[..] == Splice(old(output[..]), first + row * outputs,
                                 LinearRow(o, Rows(input, rows, inputs)[row], Rows(weight, outputs, inputs), bias))
  {
    hide *;
    RowFits(row, rows, inputs);
    RowFits(row, rows, outputs);
    var inputBase: Word, outputBase: Word := row * inputs, row * outputs;
    TableRow(input, rows, inputs, row);
    LinearRowInto(o, output, first + outputBase, input, inputBase, weight, bias, inputs, outputs);
  }

  /** linear, writing the span of output that starts at first and has the given length. */
  method LinearSpan<F>(o: Ops<F>, output: array<F>, first: nat, length: nat,
                       input: seq<F>, weight: seq<F>, bias: seq<F>,
                       rows: nat, inputs: nat, outputs: nat) returns (r: Outcome)
    requires first + length <= output.Length
    requires rows * outputs <= SIZE_MAX && rows * inputs <= SIZE_MAX && outputs * inputs <= SIZE_MAX
    modifies output
    ensures r.Pass? <==> LinearSizes(length, input, weight, bias, rows, inputs, outputs)
    ensures r.Pass? ==>
              var y := Flat(LinearRows(o, Rows(input, rows, inputs), Rows(weight, outputs, inputs), bias, inputs));
              |y| == length && output[..] == Splice(old(output[..]), first, y)
    ensures r.Fail? ==> output[..] == old(output[..])
  {
    if length != rows * outputs || |input| != rows * inputs || |weight| != outputs * inputs
      || (|bias| != 0 && |bias| != outputs) {
      return Fail(InvalidArgument);
    }
    ghost var was := output[..];
    ghost var y := LinearRows(o, Rows(input, rows, inputs), Rows(weight, outputs, inputs), bias, inputs);
    SpanStart(was, first, y, rows, outputs);
    for row := 0 to rows
      invariant SpanHolds(was, output[..], first, y, rows, outputs, row)
    {
      SpanStep(was, output[..], first, y, rows, outputs, row);
      LinearRowOf(o, output, first, input, weight, bias, rows, inputs, outputs, row);
    }
    SpanDone(was, output[..], first, y, rows, outputs);
    return Pass;
  }

  method Linear<F>(o: Ops<F>, output: array<F>, input: seq<F>, weight: seq<F>, bias: seq<F>,
                   rows: nat, inputs: nat, outputs: nat) returns (r: Outcome)
    requires rows * outputs <= SIZE_MAX && rows * inputs <= SIZE_MAX && outputs * inputs <= SIZE_MAX
    modifies output
    ensures r.Pass? <==> LinearSizes(output.Length, input, weight, bias, rows, inputs, outputs)
    ensures r.Pass? ==>
              output[..] == Flat(LinearRows(o, Rows(input, rows, inputs), Rows(weight, outputs, inputs), bias, inputs))
    ensures r.Fail? ==> output[..] == old(output[..])
  {
    r := LinearSpan(o, output, 0, output.Length, input, weight, bias, rows, inputs, outputs);
  }

  method GeluValue<F>(o: Ops<F>, scaling: F, value: F) returns (r: F)
    requires scaling == o.Sqrt(o.twoOverPi)
    ensures r == GeluAt(o, value)
  {
    var cubeTerm := o.Mul(o.Mul(o.Mul(o.cubic, value), value), value);
    r := o.Mul(o.Mul(o.half, value), o.Add(o.one, o.Tanh(o.Mul(scaling, o.Add(value, cubeTerm)))));
  }

  method GeluInPlace<F>(o: Ops<F>, values: array<F>)
    modifies values
    ensures values[..] == GeluRow(o, old(values[..]))
  {
    hide GeluAt;
    var scaling := o.Sqrt(o.twoOverPi);
    for i := 0 to values.Length
      invariant forall c :: 0 <= c < i ==> values[c] == GeluAt(o, old(values[c]))
      invariant forall c :: i <= c < values.Length ==> values[c] == old(values[c])
    {
      var value := GeluValue(o, scaling, values[i]);
      values[i] := value;
    }
  }

  method AddInPlace<F>(o: Ops<F>, destination: array<F>, source: seq<F>) returns (r: Outcome)
    modifies destination
    ensures r.Pass? <==> |source| == destination.Length
    ensures r.Pass? ==> destination[..] == AddRow(o, old(destination[..]), source)
    ensures r.Fail? ==> destination[..] == old(destination[..])
  {
    if |source| != destination.Length {
      return Fail(InvalidArgument);
    }
    for i := 0 to destination.Length
      invariant forall c :: 0 <= c < i ==> destination[c] == o.Add(old(destination[c]), source[c])
      invariant forall c :: i <= c < destination.Length ==> destination[c] == old(destination[c])
    {
      destination[i] := o.Add(destination[i], source[i]);
    }
    return Pass;
  }
}
