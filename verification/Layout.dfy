/** The model configuration and the layout of its 16 parameter tensors in one flat buffer. */
module Layout {
  import opened Wrappers
  import opened Words
  import opened Matrices

  datatype Config = Config(
    maxSequence: Word,
    vocabulary: Word,
    padded: Word,
    layers: Word,
    heads: Word,
    channels: Word)
  {
    predicate Valid() {
      && maxSequence != 0 && vocabulary != 0 && padded != 0 && layers != 0 && heads != 0 && channels != 0
      && channels % heads == 0
      && padded >= vocabulary
    }
  }

  datatype TensorId =
    | Wte | Wpe | Ln1w | Ln1b | Qkvw | Qkvb | Attprojw | Attprojb
    | Ln2w | Ln2b | Fcw | Fcb | Fcprojw | Fcprojb | Lnfw | Lnfb

  const TENSOR_COUNT := 16

  /** The tensors in the order in which the layout adds them. */
  function Order(): (ids: seq<TensorId>)
    ensures |ids| == TENSOR_COUNT
  {
    [Wte, Wpe, Ln1w, Ln1b, Qkvw, Qkvb, Attprojw, Attprojb,
     Ln2w, Ln2b, Fcw, Fcb, Fcprojw, Fcprojb, Lnfw, Lnfb]
  }

  function IndexOf(id: TensorId): (k: nat)
    ensures k < TENSOR_COUNT && Order()[k] == id
  {
    match id
    case Wte => 0 case Wpe => 1 case Ln1w => 2 case Ln1b => 3
    case Qkvw => 4 case Qkvb => 5 case Attprojw => 6 case Attprojb => 7
    case Ln2w => 8 case Ln2b => 9 case Fcw => 10 case Fcb => 11
    case Fcprojw => 12 case Fcprojb => 13 case Lnfw => 14 case Lnfb => 15
  }

  lemma IndexOfOrder(k: nat)
    requires k < TENSOR_COUNT
    ensures IndexOf(Order()[k]) == k
  {
  }

  function Shape(config: Config, id: TensorId): seq<nat> {
    var c := config.channels;
    match id
    case Wte => [config.padded, c]
    case Wpe => [config.maxSequence, c]
    case Qkvw => [config.layers, 3 * c, c]
    case Qkvb => [config.layers, 3 * c]
    case Attprojw => [config.layers, c, c]
    case Fcw => [config.layers, 4 * c, c]
    case Fcb => [config.layers, 4 * c]
    case Fcprojw => [config.layers, c, 4 * c]
    case Lnfw => [c]
    case Lnfb => [c]
    case _ => [config.layers, c]
  }

  function Product(dimensions: seq<nat>): nat {
    if |dimensions| == 0 then 1 else Product(dimensions[..|dimensions| - 1]) * dimensions[|dimensions| - 1]
  }

  function Count(config: Config, id: TensorId): nat {
    Product(Shape(config, id))
  }

  /** The sum of the sizes of the first k tensors, which is the offset of tensor k. */
  function OffsetTo(config: Config, k: nat): nat
    requires k <= TENSOR_COUNT
  {
    if k == 0 then 0 else OffsetTo(config, k - 1) + Count(config, Order()[k - 1])
  }

  function TotalCount(config: Config): nat {
    OffsetTo(config, TENSOR_COUNT)
  }

  /** Every prefix of the dimensions has a product that is a size_t. */
  ghost predicate PrefixesFit(dimensions: seq<nat>) {
    forall k :: 0 <= k <= |dimensions| ==> Product(dimensions[..k]) <= SIZE_MAX
  }

  /** A loop of checked multiplications. */
  method CheckedProduct(dimensions: seq<Word>) returns (r: Result<Word>)
    ensures r.Success? <==> PrefixesFit(dimensions)
    ensures r.Success? ==> r.value == Product(dimensions)
    ensures r.Failure? ==> r.error == Overflow
  {
    var result: Word := 1;
    for i := 0 to |dimensions|
      invariant result == Product(dimensions[..i])
      invariant forall k :: 0 <= k <= i ==> Product(dimensions[..k]) <= SIZE_MAX
    {
      assert dimensions[..i + 1][..i] == dimensions[..i];
      var next := CheckedMultiply(result, dimensions[i]);
      if next.Failure? {
        assert Product(dimensions[..i + 1]) > SIZE_MAX;
        return next;
      }
      result := next.value;
    }
    assert dimensions[..|dimensions|] == dimensions;
    return Success(result);
  }

  /** Over positive factors only the whole product matters. */
  lemma PositiveProduct(dimensions: seq<nat>)
    requires forall i :: 0 <= i < |dimensions| ==> dimensions[i] > 0
    ensures PrefixesFit(dimensions) <==> Product(dimensions) <= SIZE_MAX
  {
    assert dimensions[..|dimensions|] == dimensions;
    forall k | 0 <= k <= |dimensions| ensures Product(dimensions[..k]) <= Product(dimensions) {
      ProductGrows(dimensions, k);
    }
  }

  lemma {:induction false} ProductGrows(dimensions: seq<nat>, k: nat)
    requires forall i :: 0 <= i < |dimensions| ==> dimensions[i] > 0
    requires k <= |dimensions|
    ensures Product(dimensions[..k]) <= Product(dimensions)
    decreases |dimensions|
  {
    if k < |dimensions| {
      var n := |dimensions| - 1;
      ProductGrows(dimensions[..n], k);
      assert dimensions[..n][..k] == dimensions[..k];
      assert Product(dimensions[..n]) * dimensions[n] >= Product(dimensions[..n]);
    } else {
      assert dimensions[..k] == dimensions;
    }
  }

  datatype TensorSpec = TensorSpec(name: TensorId, offset: nat, count: nat, shape: seq<nat>)

  /** Tensor k of a layout, as its configuration determines it. */
  function SpecAt(config: Config, k: nat): TensorSpec
    requires k < TENSOR_COUNT
  {
    var id := Order()[k];
    TensorSpec(id, OffsetTo(config, k), Count(config, id), Shape(config, id))
  }

  class ParameterLayout {
    var tensors: seq<TensorSpec>
    var totalCount: Word

    constructor ()
      ensures tensors == [] && totalCount == 0
    {
      tensors := [];
      totalCount := 0;
    }

    /** Appends one tensor after all the others, or fails and changes nothing. */
    method Add(name: TensorId, dimensions: seq<Word>) returns (r: Outcome)
      requires forall i :: 0 <= i < |dimensions| ==> dimensions[i] > 0
      modifies this
      ensures r.Pass? <==> old(totalCount) + Product(dimensions) <= SIZE_MAX
      ensures r.Fail? ==> r.error == Overflow && tensors == old(tensors) && totalCount == old(totalCount)
      ensures r.Pass? ==>
        && tensors == old(tensors) + [TensorSpec(name, old(totalCount), Product(dimensions), dimensions)]
        && totalCount == old(totalCount) + Product(dimensions)
    {
      PositiveProduct(dimensions);
      var count := CheckedProduct(dimensions);
      if count.Failure? {
        return Fail(count.error);
      }
      var total := CheckedAdd(totalCount, count.value);
      if total.Failure? {
        return Fail(Overflow);
      }
      tensors := tensors + [TensorSpec(name, totalCount, count.value, dimensions)];
      totalCount := total.value;
      return Pass;
    }

    /** The first tensor of that name, or an error when there is none. */
    method At(name: TensorId) returns (r: Result<TensorSpec>)
      ensures r.Success? ==> exists k :: 0 <= k < |tensors| && tensors[k] == r.value && r.value.name == name
                                         && forall j :: 0 <= j < k ==> tensors[j].name != name
      ensures r.Failure? ==> r.error == OutOfRange && forall k :: 0 <= k < |tensors| ==> tensors[k].name != name
    {
      for k := 0 to |tensors|
        invariant forall j :: 0 <= j < k ==> tensors[j].name != name
      {
        if tensors[k].name == name {
          return Success(tensors[k]);
        }
      }
      return Failure(OutOfRange);
    }
  }

  lemma ShapePositive(config: Config, id: TensorId)
    requires config.Valid()
    requires 3 * config.channels <= SIZE_MAX && 4 * config.channels <= SIZE_MAX
    ensures forall i :: 0 <= i < |Shape(config, id)| ==> 0 < Shape(config, id)[i] <= SIZE_MAX
  {
  }

  lemma {:induction false} OffsetGrows(config: Config, j: nat, k: nat)
    requires j <= k <= TENSOR_COUNT
    ensures OffsetTo(config, j) <= OffsetTo(config, k)
  {
    if j < k {
      OffsetGrows(config, j, k - 1);
    }
  }

  lemma TensorInTotal(config: Config, k: nat)
    requires k < TENSOR_COUNT
    ensures OffsetTo(config, k) + Count(config, Order()[k]) == OffsetTo(config, k + 1) <= TotalCount(config)
  {
    OffsetGrows(config, k + 1, TENSOR_COUNT);
  }

  lemma Product1(a: nat)
    ensures Product([a]) == a
  {
    assert [a][..0] == [];
  }

  lemma Product2(a: nat, b: nat)
    ensures Product([a, b]) == a * b
  {
    assert [a, b][..1] == [a];
    Product1(a);
  }

  lemma Product3(a: nat, b: nat, c: nat)
    ensures Product([a, b, c]) == a * (b * c)
  {
    assert [a, b, c][..2] == [a, b];
    Product2(a, b);
    assert a * b * c == a * (b * c);
  }

  lemma TimesAtLeast(n: nat, x: nat)
    requires n > 0
    ensures n * x >= x
  {
  }

  /** 3 * channels and 4 * channels are the sizes of bias rows, so they fit whenever the total does. */
  lemma HiddenWidthInTotal(config: Config)
    requires config.Valid()
    ensures 3 * config.channels <= TotalCount(config) && 4 * config.channels <= TotalCount(config)
  {
    hide OffsetTo, Product;
    ClosedForm(config, Qkvb);
    ClosedForm(config, Fcb);
    TensorInTotal(config, IndexOf(Qkvb));
    TensorInTotal(config, IndexOf(Fcb));
    TimesAtLeast(config.layers, 3 * config.channels);
    TimesAtLeast(config.layers, 4 * config.channels);
  }

  /** Tensors that hold a part for every layer, and the size of that part. */
  predicate IsPerLayer(id: TensorId) {
    id != Wte && id != Wpe && id != Lnfw && id != Lnfb
  }

  function PerLayer(config: Config, id: TensorId): nat {
    var c: nat := config.channels;
    match id
    case Qkvw => 3 * c * c
    case Qkvb => 3 * c
    case Attprojw => c * c
    case Fcw => 4 * c * c
    case Fcb => 4 * c
    case Fcprojw => c * (4 * c)
    case _ => c
  }

  /** The size of each tensor: rows times row width, or layers times the size of one layer's part. */
  lemma ClosedForm(config: Config, id: TensorId)
    ensures Count(config, id) == match id
              case Wte => config.padded * config.channels
              case Wpe => config.maxSequence * config.channels
              case Lnfw => config.channels
              case Lnfb => config.channels
              case _ => config.layers * PerLayer(config, id)
  {
    hide Product;
    Product1(config.channels);
    Product2(config.padded, config.channels);
    Product2(config.maxSequence, config.channels);
    Product2(config.layers, config.channels);
    Product2(config.layers, 3 * config.channels);
    Product2(config.layers, 4 * config.channels);
    Product3(config.layers, 3 * config.channels, config.channels);
    Product3(config.layers, config.channels, config.channels);
    Product3(config.layers, 4 * config.channels, config.channels);
    Product3(config.layers, config.channels, 4 * config.channels);
  }

  /** The number of parameters of a GPT-2 of this configuration. */
  lemma ParameterCount(config: Config)
    ensures TotalCount(config)
         == config.padded * config.channels + config.maxSequence * config.channels
          + config.layers * (12 * config.channels * config.channels + 13 * config.channels)
          + 2 * config.channels
  {
    hide OffsetTo, Count;
    forall id: TensorId {
      ClosedForm(config, id);
    }
    UnfoldTotal(config);
    LayerTerms(config.layers, config.channels);
  }

  lemma LayerTerms(n: nat, c: nat)
    ensures 6 * (n * c) + n * (3 * c * c) + n * (3 * c) + n * (c * c) + n * (4 * c * c) + n * (4 * c)
            + n * (c * (4 * c))
         == n * (12 * c * c + 13 * c)
  {
    var s := c * c;
    assert 3 * c * c == 3 * s && 4 * c * c == 4 * s && c * (4 * c) == 4 * s && 12 * c * c == 12 * s;
    Distribute(n, s, c);
  }

  lemma Distribute(n: nat, s: nat, c: nat)
    ensures 6 * (n * c) + n * (3 * s) + n * (3 * c) + n * s + n * (4 * s) + n * (4 * c) + n * (4 * s)
         == n * (12 * s + 13 * c)
  {
  }

  lemma NextOffset(config: Config, k: nat)
    requires k < TENSOR_COUNT
    ensures OffsetTo(config, k + 1) == OffsetTo(config, k) + Count(config, Order()[k])
  {
  }

  lemma UnfoldTotal(config: Config)
    ensures TotalCount(config)
         == Count(config, Wte) + Count(config, Wpe) + Count(config, Ln1w) + Count(config, Ln1b)
          + Count(config, Qkvw) + Count(config, Qkvb) + Count(config, Attprojw) + Count(config, Attprojb)
          + Count(config, Ln2w) + Count(config, Ln2b) + Count(config, Fcw) + Count(config, Fcb)
          + Count(config, Fcprojw) + Count(config, Fcprojb) + Count(config, Lnfw) + Count(config, Lnfb)
  {
    assert OffsetTo(config, 0) == 0;
    hide OffsetTo, Count;
    NextOffset(config, 0);
    NextOffset(config, 1);
    NextOffset(config, 2);
    NextOffset(config, 3);
    NextOffset(config, 4);
    NextOffset(config, 5);
    NextOffset(config, 6);
    NextOffset(config, 7);
    NextOffset(config, 8);
    NextOffset(config, 9);
    NextOffset(config, 10);
    NextOffset(config, 11);
    NextOffset(config, 12);
    NextOffset(config, 13);
    NextOffset(config, 14);
    NextOffset(config, 15);
  }

  /**
   The ParameterLayout constructor. It succeeds exactly when the configuration is valid and the
   mathematical total of the sixteen sizes is a size_t.
   */
  method BuildLayout(config: Config) returns (r: Result<ParameterLayout>)
    ensures r.Success? <==> config.Valid() && TotalCount(config) <= SIZE_MAX
    ensures r.Failure? ==> r.error == if config.Valid() then Overflow else InvalidArgument
    ensures r.Success? ==>
      && fresh(r.value)
      && r.value.totalCount == TotalCount(config)
      && |r.value.tensors| == TENSOR_COUNT
      && forall k :: 0 <= k < TENSOR_COUNT ==> r.value.tensors[k] == SpecAt(config, k)
  {
    if !config.Valid() {
      return Failure(InvalidArgument);
    }
    HiddenWidthInTotal(config);
    var c3 := CheckedMultiply(3, config.channels);
    if c3.Failure? {
      return Failure(Overflow);
    }
    var c4 := CheckedMultiply(4, config.channels);
    if c4.Failure? {
      return Failure(Overflow);
    }
    hide *;
    var layout := new ParameterLayout();
    ghost var specs := seq(TENSOR_COUNT, (k: nat) requires k < TENSOR_COUNT => SpecAt(config, k));
    for k := 0 to TENSOR_COUNT
      invariant fresh(layout)
      invariant layout.tensors == specs[..k] && layout.totalCount == OffsetTo(config, k)
    {
      var added := AddTensor(layout, config, k);
      if added.Fail? {
        return Failure(Overflow);
      }
      assert specs[..k + 1] == specs[..k] + [specs[k]];
    }
    return Success(layout);
  }

  /** One line of the constructor: tensor k goes after the first k. */
  method AddTensor(layout: ParameterLayout, config: Config, k: nat) returns (r: Outcome)
    requires config.Valid() && k < TENSOR_COUNT
    requires 3 * config.channels <= SIZE_MAX && 4 * config.channels <= SIZE_MAX
    requires layout.totalCount == OffsetTo(config, k)
    modifies layout
    ensures r.Fail? ==> TotalCount(config) > SIZE_MAX
    ensures r.Pass? ==>
      && layout.tensors == old(layout.tensors) + [SpecAt(config, k)]
      && layout.totalCount == OffsetTo(config, k + 1)
  {
    var id := Order()[k];
    ShapePositive(config, id);
    TensorInTotal(config, k);
    r := layout.Add(id, Shape(config, id));
  }

  /** Where each tensor starts: the sizes of all the tensors that the constructor adds before it. */
  lemma NamedOffsets(config: Config, id: TensorId)
    ensures var c, n := config.channels, config.layers;
            var tables := config.padded * c + config.maxSequence * c;
            var row, square := n * c, n * (c * c);
            OffsetTo(config, IndexOf(id)) == match id
              case Wte => 0
              case Wpe => config.padded * c
              case Ln1w => tables
              case Ln1b => tables + row
              case Qkvw => tables + 2 * row
              case Qkvb => tables + 2 * row + 3 * square
              case Attprojw => tables + 5 * row + 3 * square
              case Attprojb => tables + 5 * row + 4 * square
              case Ln2w => tables + 6 * row + 4 * square
              case Ln2b => tables + 7 * row + 4 * square
              case Fcw => tables + 8 * row + 4 * square
              case Fcb => tables + 8 * row + 8 * square
              case Fcprojw => tables + 12 * row + 8 * square
              case Fcprojb => tables + 12 * row + 12 * square
              case Lnfw => tables + 13 * row + 12 * square
              case Lnfb => tables + 13 * row + 12 * square + c
  {
    hide OffsetTo;
    NoneBefore(config);
    AttentionOffsets(config);
    MlpOffsets(config);
  }

  lemma AttentionOffsets(config: Config)
    ensures var c, n := config.channels, config.layers;
            var tables := config.padded * c + config.maxSequence * c;
            var row, square := n * c, n * (c * c);
            && OffsetTo(config, 1) == config.padded * c
            && OffsetTo(config, 2) == tables
            && OffsetTo(config, 3) == tables + row
            && OffsetTo(config, 4) == tables + 2 * row
            && OffsetTo(config, 5) == tables + 2 * row + 3 * square
            && OffsetTo(config, 6) == tables + 5 * row + 3 * square
            && OffsetTo(config, 7) == tables + 5 * row + 4 * square
            && OffsetTo(config, 8) == tables + 6 * row + 4 * square
  {
    hide OffsetTo, Count, Product, Shape, PerLayer, IndexOf;
    NamedSizes(config);
    NoneBefore(config);
    NextOffset(config, 0);
    NextOffset(config, 1);
    NextOffset(config, 2);
    NextOffset(config, 3);
    NextOffset(config, 4);
    NextOffset(config, 5);
    NextOffset(config, 6);
    NextOffset(config, 7);
  }

  lemma MlpOffsets(config: Config)
    ensures var c, n := config.channels, config.layers;
            var tables := config.padded * c + config.maxSequence * c;
            var row, square := n * c, n * (c * c);
            && OffsetTo(config, 9) == tables + 7 * row + 4 * square
            && OffsetTo(config, 10) == tables + 8 * row + 4 * square
            && OffsetTo(config, 11) == tables + 8 * row + 8 * square
            && OffsetTo(config, 12) == tables + 12 * row + 8 * square
            && OffsetTo(config, 13) == tables + 12 * row + 12 * square
            && OffsetTo(config, 14) == tables + 13 * row + 12 * square
            && OffsetTo(config, 15) == tables + 13 * row + 12 * square + c
  {
    hide OffsetTo, Count, Product, Shape, PerLayer, IndexOf;
    NamedSizes(config);
    AttentionOffsets(config);
    NextOffset(config, 8);
    NextOffset(config, 9);
    NextOffset(config, 10);
    NextOffset(config, 11);
    NextOffset(config, 12);
    NextOffset(config, 13);
    NextOffset(config, 14);
  }

  lemma NoneBefore(config: Config)
    ensures OffsetTo(config, 0) == 0
  {
  }

  /** The sizes of the tensors in rows and squares. */
  lemma NamedSizes(config: Config)
    ensures var row, square := config.layers * config.channels, config.layers * (config.channels * config.channels);
            && Count(config, Wte) == config.padded * config.channels
            && Count(config, Wpe) == config.maxSequence * config.channels
            && Count(config, Lnfw) == config.channels
            && Count(config, Ln1w) == Count(config, Ln1b) == Count(config, Attprojb) == row
            && Count(config, Ln2w) == Count(config, Ln2b) == Count(config, Fcprojb) == row
            && Count(config, Qkvw) == 3 * square && Count(config, Qkvb) == 3 * row
            && Count(config, Attprojw) == square
            && Count(config, Fcw) == 4 * square && Count(config, Fcb) == 4 * row && Count(config, Fcprojw) == 4 * square
  {
    hide OffsetTo, Count, Product, Shape;
    ClosedForm(config, Wte);
    ClosedForm(config, Wpe);
    ClosedForm(config, Lnfw);
    hide PerLayer;
    NamedSize(config, Ln1w);
    NamedSize(config, Ln1b);
    NamedSize(config, Attprojb);
    NamedSize(config, Ln2w);
    NamedSize(config, Ln2b);
    NamedSize(config, Fcprojb);
    NamedSize(config, Qkvw);
    NamedSize(config, Qkvb);
    NamedSize(config, Attprojw);
    NamedSize(config, Fcw);
    NamedSize(config, Fcb);
    NamedSize(config, Fcprojw);
  }

  lemma NamedSize(config: Config, id: TensorId)
    requires IsPerLayer(id)
    ensures var row, square := config.layers * config.channels, config.layers * (config.channels * config.channels);
            Count(config, id) == match id
              case Qkvw => 3 * square
              case Qkvb => 3 * row
              case Attprojw => square
              case Fcw => 4 * square
              case Fcb => 4 * row
              case Fcprojw => 4 * square
              case _ => row
  {
    hide OffsetTo, Count, Product, Shape;
    ClosedForm(config, id);
    Multiples(config.layers, config.channels);
  }

  lemma Multiples(n: nat, c: nat)
    ensures n * (3 * c) == 3 * (n * c) && n * (4 * c) == 4 * (n * c)
    ensures n * (3 * c * c) == 3 * (n * (c * c)) && n * (4 * c * c) == n * (c * (4 * c)) == 4 * (n * (c * c))
  {
    var s := c * c;
    assert 3 * c * c == 3 * s && 4 * c * c == 4 * s && c * (4 * c) == 4 * s;
    Triple(n, s);
  }

  lemma Triple(n: nat, s: nat)
    ensures n * (3 * s) == 3 * (n * s) && n * (4 * s) == 4 * (n * s)
  {
  }

  /** Every position below the total belongs to exactly one tensor: no gap and no overlap. */
  lemma {:induction false} TensorsTile(config: Config, i: nat)
    requires i < TotalCount(config)
    ensures exists k :: 0 <= k < TENSOR_COUNT && InTensor(config, k, i)
    ensures forall j, k | 0 <= j < TENSOR_COUNT && 0 <= k < TENSOR_COUNT ::
              InTensor(config, j, i) && InTensor(config, k, i) ==> j == k
  {
    var k := Locate(config, i, TENSOR_COUNT);
    assert InTensor(config, k, i);
    hide *;
    forall j, k | 0 <= j < TENSOR_COUNT && 0 <= k < TENSOR_COUNT && InTensor(config, j, i) && InTensor(config, k, i)
      ensures j == k
    {
      if j < k {
        TensorsApart(config, j, k, i);
      } else if k < j {
        TensorsApart(config, k, j, i);
      }
    }
  }

  lemma TensorsApart(config: Config, j: nat, k: nat, i: nat)
    requires j < k < TENSOR_COUNT && InTensor(config, j, i)
    ensures !InTensor(config, k, i)
  {
    OffsetGrows(config, j + 1, k);
  }

  ghost predicate InTensor(config: Config, k: nat, i: nat)
    requires k < TENSOR_COUNT
  {
    SpecAt(config, k).offset <= i < SpecAt(config, k).offset + SpecAt(config, k).count
  }

  lemma {:induction false} Locate(config: Config, i: nat, n: nat) returns (k: nat)
    requires n <= TENSOR_COUNT && i < OffsetTo(config, n)
    ensures k < n && InTensor(config, k, i)
  {
    if i < OffsetTo(config, n - 1) {
      k := Locate(config, i, n - 1);
    } else {
      k := n - 1;
    }
  }

  /** The slices of all layers are consecutive and cover a per-layer tensor. */
  lemma LayersTile<F>(tensor: seq<F>, layers: nat, perLayer: nat)
    requires |tensor| == layers * perLayer
    ensures Flat(Rows(tensor, layers, perLayer)) == tensor
  {
    FlatOfRows(tensor, layers, perLayer);
  }
}
