/** The key/value cache: two flat buffers laid out [layer][position][channel]. */
module KVCache {
  import opened Wrappers
  import opened Words
  import opened Matrices

  /** The rows of a flat [layers][capacity][channels] buffer. */
  ghost function Table<F>(buffer: seq<F>, layers: nat, capacity: nat, channels: nat): (t: seq<seq<seq<F>>>)
    requires |buffer| == layers * (capacity * channels)
    ensures |t| == layers
    ensures forall l :: 0 <= l < layers ==> IsMatrix(t[l], capacity, channels)
    ensures forall l :: 0 <= l < layers ==>
              t[l] == Rows(Rows(buffer, layers, capacity * channels)[l], capacity, channels)
  {
    seq(layers, (l: nat) requires l < layers =>
      Rows(Rows(buffer, layers, capacity * channels)[l], capacity, channels))
  }

  /** Writing one row of the table is splicing it into the buffer at its offset. */
  lemma TableStore<F>(buffer: seq<F>, layers: nat, capacity: nat, channels: nat, l: nat, p: nat, row: seq<F>)
    requires |buffer| == layers * (capacity * channels) && l < layers && p < capacity && |row| == channels
    ensures 0 <= p * channels && p * channels + channels <= capacity * channels
    ensures 0 <= l * (capacity * channels)
    ensures l * (capacity * channels) + p * channels + channels <= |buffer|
    ensures Table(Splice(buffer, l * (capacity * channels) + p * channels, row), layers, capacity, channels)
         == Table(buffer, layers, capacity, channels)
              [l := Table(buffer, layers, capacity, channels)[l][p := row]]
  {
    RowFits(p, capacity, channels);
    RowFits(l, layers, capacity * channels);
    var width := capacity * channels;
    var layer := Rows(buffer, layers, width)[l];
    SpliceInRow(buffer, layers, width, l, p * channels, row);
    SpliceInRow(layer, capacity, channels, p, 0, row);
    assert Splice(Rows(layer, capacity, channels)[p], 0, row) == row;
  }

  /** Every product the constructor computes is checked, down to the bytes of both buffers. */
  function CacheSize(layers: Word, capacity: Word, channels: Word): (r: Result<Word>)
    ensures r.Success? <==> && layers > 0 && capacity > 0 && channels > 0
                            && 8 * (layers * (capacity * channels)) <= SIZE_MAX
    ensures r.Success? ==> r.value == layers * (capacity * channels)
    ensures r.Failure? ==>
              r.error == if layers == 0 || capacity == 0 || channels == 0 then InvalidArgument else Overflow
  {
    if layers == 0 || capacity == 0 || channels == 0 then Failure(InvalidArgument)
    else
      LayerInTotal(layers, capacity * channels);
      var layerFloats :- CheckedMultiply(capacity, channels);
      var total :- CheckedMultiply(layers, layerFloats);
      var storage :- CheckedMultiply(2, total);
      var bytes :- CheckedMultiply(storage, 4);
      Success(total)
  }

  lemma LayerInTotal(layers: nat, layerFloats: nat)
    requires layers > 0
    ensures layerFloats <= layers * layerFloats
  {
  }

  class KVCache<F> {
    const layers: Word
    const capacity: Word
    const channels: Word
    const keys: array<F>
    const values: array<F>

    ghost predicate Valid() {
      && layers > 0 && capacity > 0 && channels > 0
      && 8 * (layers * (capacity * channels)) <= SIZE_MAX
      && keys.Length == values.Length == layers * (capacity * channels)
      && keys != values
    }

    ghost function Keys(): (t: seq<seq<seq<F>>>)
      requires Valid()
      reads keys
      ensures |t| == layers && forall l :: 0 <= l < layers ==> IsMatrix(t[l], capacity, channels)
    {
      Table(keys[..], layers, capacity, channels)
    }

    ghost function Values(): (t: seq<seq<seq<F>>>)
      requires Valid()
      reads values
      ensures |t| == layers && forall l :: 0 <= l < layers ==> IsMatrix(t[l], capacity, channels)
    {
      Table(values[..], layers, capacity, channels)
    }

    constructor (layers: Word, capacity: Word, channels: Word, zero: F)
      requires CacheSize(layers, capacity, channels).Success?
      ensures Valid() && fresh(keys) && fresh(values)
      ensures this.layers == layers && this.capacity == capacity && this.channels == channels
    {
      this.layers := layers;
      this.capacity := capacity;
      this.channels := channels;
      var total := CacheSize(layers, capacity, channels).value;
      keys := new F[total](_ => zero);
      values := new F[total](_ => zero);
    }

    /** layer_offset and position_offset: bounds-checked, and then in range without any further check. */
    function PositionOffset(layer: Word, position: Word): (r: Result<Word>)
      requires Valid()
      ensures r.Success? <==> layer < layers && position < capacity
      ensures r.Success? ==> r.value == layer * (capacity * channels) + position * channels
                             && r.value + channels <= keys.Length
    {
      if position >= capacity then Failure(OutOfRange)
      else if layer >= layers then Failure(OutOfRange)
      else
        RowFits(position, capacity, channels);
        RowFits(layer, layers, capacity * channels);
        Success(layer * (capacity * channels) + position * channels)
    }

    /** Replaces the key and the value of one layer and position, and nothing else. */
    method Store(layer: Word, position: Word, key: seq<F>, value: seq<F>) returns (r: Outcome)
      requires Valid()
      modifies keys, values
      ensures r.Pass? <==> |key| == |value| == channels && layer < layers && position < capacity
      ensures r.Pass? ==>
        && Keys() == old(Keys())[layer := old(Keys())[layer][position := key]]
        && Values() == old(Values())[layer := old(Values())[layer][position := value]]
      ensures r.Fail? ==> keys[..] == old(keys[..]) && values[..] == old(values[..])
    {
      if |key| != channels || |value| != channels {
        return Fail(InvalidArgument);
      }
      var offset := PositionOffset(layer, position);
      if offset.Failure? {
        return Fail(OutOfRange);
      }
      TableStore(keys[..], layers, capacity, channels, layer, position, key);
      TableStore(values[..], layers, capacity, channels, layer, position, value);
      hide *;
      CopyInto(keys, offset.value, key);
      CopyInto(values, offset.value, value);
      return Pass;
    }

    /** The whole cache layer, visible or not. */
    method LayerKeys(layer: Word) returns (r: Result<seq<F>>)
      requires Valid()
      ensures r.Success? <==> layer < layers
      ensures r.Success? ==> |r.value| == capacity * channels && Rows(r.value, capacity, channels) == Keys()[layer]
    {
      r := LayerOf(keys, layer);
    }

    method LayerValues(layer: Word) returns (r: Result<seq<F>>)
      requires Valid()
      ensures r.Success? <==> layer < layers
      ensures r.Success? ==> |r.value| == capacity * channels && Rows(r.value, capacity, channels) == Values()[layer]
    {
      r := LayerOf(values, layer);
    }

    method LayerOf(buffer: array<F>, layer: Word) returns (r: Result<seq<F>>)
      requires Valid() && buffer.Length == layers * (capacity * channels)
      ensures r.Success? <==> layer < layers
      ensures r.Success? ==> |r.value| == capacity * channels
                             && Rows(r.value, capacity, channels)
                                == Table(buffer[..], layers, capacity, channels)[layer]
    {
      if layer >= layers {
        return Failure(OutOfRange);
      }
      RowFits(layer, layers, capacity * channels);
      var size: Word := capacity * channels;
      var offset: Word := layer * size;
      assert buffer[offset..offset + size] == Rows(buffer[..], layers, size)[layer];
      return Success(buffer[offset..offset + size]);
    }
  }

  /** The KVCache constructor as its callers see it, with the dimensions it refuses. */
  method CreateCache<F>(layers: Word, capacity: Word, channels: Word, zero: F) returns (r: Result<KVCache<F>>)
    ensures r.Success? <==> && layers > 0 && capacity > 0 && channels > 0
                            && 8 * (layers * (capacity * channels)) <= SIZE_MAX
    ensures r.Failure? ==>
              r.error == if layers == 0 || capacity == 0 || channels == 0 then InvalidArgument else Overflow
    ensures r.Success? ==> && fresh(r.value) && r.value.Valid() && fresh(r.value.keys) && fresh(r.value.values)
                           && r.value.layers == layers && r.value.capacity == capacity && r.value.channels == channels
  {
    var size := CacheSize(layers, capacity, channels);
    if size.Failure? {
      return Failure(size.error);
    }
    var cache := new KVCache(layers, capacity, channels, zero);
    return Success(cache);
  }

  /** std::copy into a part of a buffer. */
  method CopyInto<F>(buffer: array<F>, offset: nat, source: seq<F>)
    requires offset + |source| <= buffer.Length
    modifies buffer
    ensures buffer[..] == Splice(old(buffer[..]), offset, source)
  {
    for i := 0 to |source|
      invariant forall j :: 0 <= j < buffer.Length ==>
                  buffer[j] == if offset <= j < offset + i then source[j - offset] else old(buffer[j])
    {
      buffer[offset + i] := source[i];
    }
  }
}
