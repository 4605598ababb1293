/** A loaded model: its configuration and the flat storage of its parameters. */
module Model {
  import opened Words
  import opened Arithmetic
  import opened Matrices
  import opened Layout

  /** The parameter slices of one transformer layer. */
  datatype LayerWeights<F> = LayerWeights(
    ln1w: seq<F>, ln1b: seq<F>,
    qkvw: seq<F>, qkvb: seq<F>,
    attprojw: seq<F>, attprojb: seq<F>,
    ln2w: seq<F>, ln2b: seq<F>,
    fcw: seq<F>, fcb: seq<F>,
    fcprojw: seq<F>, fcprojb: seq<F>)
  {
    predicate Fits(channels: nat) {
      && |ln1w| == |ln1b| == |attprojb| == |ln2w| == |ln2b| == |fcprojb| == channels
      && |qkvw| == 3 * channels * channels && |qkvb| == 3 * channels
      && |attprojw| == channels * channels
      && |fcw| == 4 * channels * channels && |fcb| == 4 * channels
      && |fcprojw| == channels * (4 * channels)
    }
  }

  datatype Model<!F> = Model(ops: Ops<F>, config: Config, storage: seq<F>) {

    /**
     What loading a checkpoint establishes: header dimensions are positive 32-bit integers, the
     layout exists, its payload has a byte count that is a size_t, and the storage matches it.
     */
    ghost predicate Valid() {
      && config.Valid()
      && config.maxSequence <= INT32_MAX && config.padded <= INT32_MAX && config.layers <= INT32_MAX
      && config.channels <= INT32_MAX
      && 4 * TotalCount(config) <= SIZE_MAX
      && |storage| == TotalCount(config)
    }

    function Tensor(id: TensorId): (t: seq<F>)
      requires Valid()
      ensures |t| == Count(config, id) <= SIZE_MAX
    {
      TensorInTotal(config, IndexOf(id));
      storage[OffsetTo(config, IndexOf(id))..OffsetTo(config, IndexOf(id)) + Count(config, id)]
    }

    /** Each tensor is the part of the storage that its spec in the layout describes. */
    lemma TensorAtSpec(k: nat)
      requires Valid() && k < TENSOR_COUNT
      ensures var spec := SpecAt(config, k);
              && spec.offset + spec.count <= |storage|
              && Tensor(spec.name) == storage[spec.offset..spec.offset + spec.count]
    {
      TensorInTotal(config, k);
      IndexOfOrder(k);
    }

    /** The first n tensors, one after another. */
    ghost function TensorsTo(n: nat): seq<F>
      requires Valid() && n <= TENSOR_COUNT
    {
      if n == 0 then [] else TensorsTo(n - 1) + Tensor(Order()[n - 1])
    }

    /** The sixteen tensors in order are the whole storage. */
    lemma StorageIsTensors()
      requires Valid()
      ensures TensorsTo(TENSOR_COUNT) == storage
    {
      StorageTo(TENSOR_COUNT);
    }

    lemma {:induction false} StorageTo(n: nat)
      requires Valid() && n <= TENSOR_COUNT
      ensures OffsetTo(config, n) <= |storage| && TensorsTo(n) == storage[..OffsetTo(config, n)]
    {
      hide Tensor, Count;
      OffsetGrows(config, n, TENSOR_COUNT);
      if n > 0 {
        StorageTo(n - 1);
        TensorAtSpec(n - 1);
        NextOffset(config, n - 1);
        Joined(storage, OffsetTo(config, n - 1), OffsetTo(config, n));
      }
    }

    /** ModelWeights::tensor: the span of the storage that the layout's spec of that name describes. */
    method TensorView(layout: ParameterLayout, name: TensorId) returns (t: seq<F>)
      requires Valid() && |layout.tensors| == TENSOR_COUNT
      requires forall k :: 0 <= k < TENSOR_COUNT ==> layout.tensors[k] == SpecAt(config, k)
      ensures t == Tensor(name)
    {
      TensorAtSpec(IndexOf(name));
      var spec := layout.At(name);
      assert layout.tensors[IndexOf(name)].name == name;
      var k :| 0 <= k < TENSOR_COUNT && layout.tensors[k] == spec.value;
      IndexOfOrder(k);
      t := storage[spec.value.offset..spec.value.offset + spec.value.count];
    }

    /** The parts of all layers, in order, are the whole tensor. */
    lemma PartsTile(id: TensorId)
      requires Valid() && IsPerLayer(id)
      ensures Flat(seq(config.layers, (layer: nat) requires layer < config.layers => PartOf(id, layer))) == Tensor(id)
    {
      ClosedForm(config, id);
      LayersTile(Tensor(id), config.layers, PerLayer(config, id));
      assert seq(config.layers, (layer: nat) requires layer < config.layers => PartOf(id, layer))
          == Rows(Tensor(id), config.layers, PerLayer(config, id));
    }

    /** One layer's part of a per-layer tensor. */
    ghost function PartOf(id: TensorId, layer: nat): (t: seq<F>)
      requires Valid() && layer < config.layers && IsPerLayer(id)
      ensures |t| == PerLayer(config, id)
    {
      ClosedForm(config, id);
      Rows(Tensor(id), config.layers, PerLayer(config, id))[layer]
    }

    /** The sizes of one layer's parts. */
    lemma PerLayerSizes()
      ensures var c := config.channels;
              && PerLayer(config, Ln1w) == PerLayer(config, Ln1b) == PerLayer(config, Attprojb) == c
              && PerLayer(config, Ln2w) == PerLayer(config, Ln2b) == PerLayer(config, Fcprojb) == c
              && PerLayer(config, Qkvw) == 3 * c * c && PerLayer(config, Qkvb) == 3 * c
              && PerLayer(config, Attprojw) == c * c
              && PerLayer(config, Fcw) == 4 * c * c && PerLayer(config, Fcb) == 4 * c
              && PerLayer(config, Fcprojw) == c * (4 * c)
      ensures forall id :: IsPerLayer(id) <==> id !in {Wte, Wpe, Lnfw, Lnfb}
    {
    }

    ghost function LayerOf(layer: nat): (w: LayerWeights<F>)
      requires Valid() && layer < config.layers
      ensures w.Fits(config.channels)
    {
      hide PartOf, Tensor, Count, OffsetTo;
      LayerWeights(
        PartOf(Ln1w, layer), PartOf(Ln1b, layer), PartOf(Qkvw, layer), PartOf(Qkvb, layer),
        PartOf(Attprojw, layer), PartOf(Attprojb, layer), PartOf(Ln2w, layer), PartOf(Ln2b, layer),
        PartOf(Fcw, layer), PartOf(Fcb, layer), PartOf(Fcprojw, layer), PartOf(Fcprojb, layer))
    }

    /** layer_slice of one tensor. Its checked product never overflows on a loaded model. */
    method Slice(id: TensorId, layer: Word, perLayer: Word) returns (part: seq<F>)
      requires Valid() && layer < config.layers && IsPerLayer(id) && perLayer == PerLayer(config, id)
      ensures part == PartOf(id, layer)
    {
      ClosedForm(config, id);
      var tensor := Tensor(id);
      RowSlice(tensor, config.layers, perLayer, layer, 0, perLayer);
      var offset := CheckedMultiply(layer, perLayer);
      assert offset.Success?;
      part := tensor[offset.value..offset.value + perLayer];
    }

    /**
     The twelve slices taken at the top of a layer. Each width is a Word: the unchecked products
     c3 * channels, channels * channels, c4 * channels and channels * c4 cannot wrap.
     */
    method LoadLayer(layer: Word) returns (w: LayerWeights<F>)
      requires Valid() && layer < config.layers
      ensures w == LayerOf(layer)
    {
      var ln1w, ln1b, qkvw, qkvb, attprojw, attprojb := LoadAttention(layer);
      var ln2w, ln2b, fcw, fcb, fcprojw, fcprojb := LoadMlp(layer);
      w := LayerWeights(ln1w, ln1b, qkvw, qkvb, attprojw, attprojb, ln2w, ln2b, fcw, fcb, fcprojw, fcprojb);
    }

    method LoadAttention(layer: Word)
      returns (ln1w: seq<F>, ln1b: seq<F>, qkvw: seq<F>, qkvb: seq<F>, attprojw: seq<F>, attprojb: seq<F>)
      requires Valid() && layer < config.layers
      ensures ln1w == PartOf(Ln1w, layer) && ln1b == PartOf(Ln1b, layer)
      ensures qkvw == PartOf(Qkvw, layer) && qkvb == PartOf(Qkvb, layer)
      ensures attprojw == PartOf(Attprojw, layer) && attprojb == PartOf(Attprojb, layer)
    {
      hide *;
      LayerWidths();
      PerLayerSizes();
      var c := config.channels;
      var c3: Word := 3 * c;
      var qkv: Word, square: Word := c3 * c, c * c;
      ln1w := Slice(Ln1w, layer, c);
      ln1b := Slice(Ln1b, layer, c);
      qkvw := Slice(Qkvw, layer, qkv);
      qkvb := Slice(Qkvb, layer, c3);
      attprojw := Slice(Attprojw, layer, square);
      attprojb := Slice(Attprojb, layer, c);
    }

    method LoadMlp(layer: Word)
      returns (ln2w: seq<F>, ln2b: seq<F>, fcw: seq<F>, fcb: seq<F>, fcprojw: seq<F>, fcprojb: seq<F>)
      requires Valid() && layer < config.layers
      ensures ln2w == PartOf(Ln2w, layer) && ln2b == PartOf(Ln2b, layer)
      ensures fcw == PartOf(Fcw, layer) && fcb == PartOf(Fcb, layer)
      ensures fcprojw == PartOf(Fcprojw, layer) && fcprojb == PartOf(Fcprojb, layer)
    {
      hide *;
      LayerWidths();
      PerLayerSizes();
      var c := config.channels;
      var c4: Word := 4 * c;
      var fc: Word, fcproj: Word := c4 * c, c * c4;
      ln2w := Slice(Ln2w, layer, c);
      ln2b := Slice(Ln2b, layer, c);
      fcw := Slice(Fcw, layer, fc);
      fcb := Slice(Fcb, layer, c4);
      fcprojw := Slice(Fcprojw, layer, fcproj);
      fcprojb := Slice(Fcprojb, layer, c);
    }

    /** One layer's part of a tensor is no larger than the total. */
    lemma PartInTotal(id: TensorId)
      requires Valid() && IsPerLayer(id)
      ensures PerLayer(config, id) <= TotalCount(config)
    {
      ClosedForm(config, id);
      TensorInTotal(config, IndexOf(id));
      TimesAtLeast(config.layers, PerLayer(config, id));
    }

    /** Every size that the two inference paths compute without a check is a size_t. */
    lemma LayerWidths()
      requires Valid()
      ensures 4 * config.channels <= SIZE_MAX
      ensures config.channels * config.channels <= SIZE_MAX
      ensures 3 * config.channels * config.channels <= SIZE_MAX
      ensures 4 * config.channels * config.channels == config.channels * (4 * config.channels) <= SIZE_MAX
    {
      hide OffsetTo, Count;
      PartInTotal(Fcb);
      PartInTotal(Attprojw);
      PartInTotal(Qkvw);
      PartInTotal(Fcw);
      SquareCommutes(config.channels);
    }

    lemma SequenceWidths()
      requires Valid()
      ensures config.vocabulary * config.channels <= config.padded * config.channels <= SIZE_MAX
      ensures 4 * (config.maxSequence * config.channels) <= SIZE_MAX
      ensures config.maxSequence * config.padded <= SIZE_MAX
    {
      hide OffsetTo, Count;
      ClosedForm(config, Wte);
      ClosedForm(config, Wpe);
      TensorInTotal(config, IndexOf(Wte));
      TensorInTotal(config, IndexOf(Wpe));
      TimesMonotone(config.vocabulary, config.padded, config.channels);
      TimesMonotone(config.maxSequence, INT32_MAX, config.padded);
      TimesMonotone(config.padded, INT32_MAX, INT32_MAX);
    }
  }

  lemma Joined<F>(s: seq<F>, a: nat, b: nat)
    requires a <= b <= |s|
    ensures s[..a] + s[a..b] == s[..b]
  {
  }

  lemma SquareCommutes(c: nat)
    ensures 4 * c * c == c * (4 * c)
  {
  }

  lemma TimesMonotone(a: nat, b: nat, c: nat)
    requires a <= b
    ensures a * c <= b * c
    ensures c * a <= c * b
  {
  }
}
