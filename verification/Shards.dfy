/** How a one-row linear job is divided among threads, and what running the shards computes. */
module Shards {
  import opened Words
  import opened Arithmetic
  import opened Matrices
  import opened Reference
  import opened Kernels

  function Min(x: nat, y: nat): nat { if x < y then x else y }

  /** Quotient/remainder partition: the first output channel of a shard. */
  function ShardFirst(outputs: nat, threads: nat, shard: nat): nat
    requires threads > 0
  {
    shard * (outputs / threads) + Min(shard, outputs % threads)
  }

  function ShardCount(outputs: nat, threads: nat, shard: nat): nat
    requires threads > 0
  {
    outputs / threads + (if shard < outputs % threads then 1 else 0)
  }

  /** Shards are consecutive, start at channel 0, and end at the last channel. */
  lemma ShardsConsecutive(outputs: nat, threads: nat, shard: nat)
    requires threads > 0
    ensures ShardFirst(outputs, threads, 0) == 0
    ensures ShardFirst(outputs, threads, threads) == outputs
    ensures ShardFirst(outputs, threads, shard + 1)
         == ShardFirst(outputs, threads, shard) + ShardCount(outputs, threads, shard)
  {
    var q, r := outputs / threads, outputs % threads;
    assert outputs == threads * q + r;
    assert (shard + 1) * q == shard * q + q;
  }

  lemma {:induction false} ShardsGrow(outputs: nat, threads: nat, s: nat, t: nat)
    requires threads > 0 && s <= t
    ensures ShardFirst(outputs, threads, s) <= ShardFirst(outputs, threads, t)
  {
    if s < t {
      ShardsGrow(outputs, threads, s, t - 1);
      ShardsConsecutive(outputs, threads, t - 1);
    }
  }

  /** A shard stays inside the row, so the sums and products of run_shard cannot wrap. */
  lemma ShardInRange(outputs: nat, threads: nat, shard: nat, inputs: nat)
    requires shard < threads
    ensures shard * (outputs / threads) <= ShardFirst(outputs, threads, shard)
    ensures ShardFirst(outputs, threads, shard) + ShardCount(outputs, threads, shard) <= outputs
    ensures 0 <= ShardFirst(outputs, threads, shard) * inputs
    ensures ShardFirst(outputs, threads, shard) * inputs + ShardCount(outputs, threads, shard) * inputs
         <= outputs * inputs
  {
    ShardsConsecutive(outputs, threads, shard);
    ShardsGrow(outputs, threads, shard + 1, threads);
    var first, count := ShardFirst(outputs, threads, shard), ShardCount(outputs, threads, shard);
    RangeTimes(first, count, outputs, inputs);
  }

  lemma RangeTimes(first: nat, count: nat, outputs: nat, inputs: nat)
    requires first + count <= outputs
    ensures 0 <= first * inputs && first * inputs + count * inputs == (first + count) * inputs <= outputs * inputs
  {
    assert (outputs - first - count) * inputs >= 0;
    assert outputs * inputs == (first + count) * inputs + (outputs - first - count) * inputs;
  }

  /** Shards differ in size by at most one, and none is empty when there are enough channels. */
  lemma ShardsBalanced(outputs: nat, threads: nat, s: nat, t: nat)
    requires threads > 0
    ensures ShardCount(outputs, threads, s) <= ShardCount(outputs, threads, t) + 1
    ensures outputs >= threads ==> ShardCount(outputs, threads, s) > 0
  {
    assert outputs == threads * (outputs / threads) + outputs % threads;
  }

  ghost predicate Owns(outputs: nat, threads: nat, shard: nat, c: nat)
    requires threads > 0
  {
    ShardFirst(outputs, threads, shard) <= c < ShardFirst(outputs, threads, shard) + ShardCount(outputs, threads, shard)
  }

  /** No channel belongs to two shards. */
  lemma ShardsDisjoint(outputs: nat, threads: nat, s: nat, t: nat, c: nat)
    requires threads > 0 && Owns(outputs, threads, s, c) && Owns(outputs, threads, t, c)
    ensures s == t
  {
    ShardsConsecutive(outputs, threads, s);
    ShardsConsecutive(outputs, threads, t);
    if s < t {
      ShardsGrow(outputs, threads, s + 1, t);
    } else if t < s {
      ShardsGrow(outputs, threads, t + 1, s);
    }
  }

  /** Every channel belongs to one of the first n shards that reach beyond it. */
  lemma {:induction false} OwnerBelow(outputs: nat, threads: nat, c: nat, n: nat) returns (shard: nat)
    requires threads > 0 && n > 0 && c < ShardFirst(outputs, threads, n)
    ensures shard < n && Owns(outputs, threads, shard, c)
  {
    ShardsConsecutive(outputs, threads, n - 1);
    if n > 1 && c < ShardFirst(outputs, threads, n - 1) {
      shard := OwnerBelow(outputs, threads, c, n - 1);
    } else {
      shard := n - 1;
    }
  }

  /** The partition is exact: every channel has one owner among the threads. */
  lemma ShardsTile(outputs: nat, threads: nat, c: nat)
    requires threads > 0 && c < outputs
    ensures exists shard :: 0 <= shard < threads && Owns(outputs, threads, shard, c)
    ensures forall s, t | 0 <= s < threads && 0 <= t < threads ::
              Owns(outputs, threads, s, c) && Owns(outputs, threads, t, c) ==> s == t
  {
    ShardsConsecutive(outputs, threads, 0);
    var owner := OwnerBelow(outputs, threads, c, threads);
    forall s, t | 0 <= s < threads && 0 <= t < threads && Owns(outputs, threads, s, c) && Owns(outputs, threads, t, c)
      ensures s == t
    {
      ShardsDisjoint(outputs, threads, s, t, c);
    }
  }

  /** The read-only spans and the sizes of a submission. */
  datatype Job<F> = Job(input: seq<F>, weight: seq<F>, bias: seq<F>, inputs: nat, outputs: nat) {
    ghost predicate Valid() {
      && |input| == inputs
      && |weight| == outputs * inputs <= SIZE_MAX
      && (bias == [] || |bias| == outputs)
    }

    /** The scalar result of the whole job. */
    ghost function Whole(o: Ops<F>): (y: seq<F>)
      requires Valid()
      ensures |y| == outputs
    {
      LinearRow(o, input, Rows(weight, outputs, inputs), bias)
    }

    /** The job over the count channels from first on: their weights and biases alone. */
    ghost function Range(first: nat, count: nat): (part: Job<F>)
      requires Valid() && first + count <= outputs
      ensures part.Valid() && part.outputs == count
    {
      RangeTimes(first, count, outputs, inputs);
      Job(input, weight[first * inputs..first * inputs + count * inputs],
          if bias == [] then [] else bias[first..first + count], inputs, count)
    }

    /** The job a shard hands to the scalar kernel. */
    ghost function Part(threads: nat, shard: nat): (part: Job<F>)
      requires Valid() && shard < threads
      ensures part.Valid() && part.outputs == ShardCount(outputs, threads, shard)
    {
      ShardInRange(outputs, threads, shard, inputs);
      Range(ShardFirst(outputs, threads, shard), ShardCount(outputs, threads, shard))
    }
  }

  /** Channel by channel, what a range of channels computes from its own spans is the whole job's result. */
  lemma RangeIsSlice<F>(o: Ops<F>, job: Job<F>, first: nat, count: nat)
    requires job.Valid() && first + count <= job.outputs
    ensures job.Range(first, count).Whole(o) == job.Whole(o)[first..first + count]
  {
    var part := job.Range(first, count);
    RangeTimes(first, count, job.outputs, job.inputs);
    forall c | 0 <= c < count ensures part.Whole(o)[c] == job.Whole(o)[first + c] {
      PartChannel(o, job, part, first, count, c);
    }
  }

  lemma PartIsSlice<F>(o: Ops<F>, job: Job<F>, threads: nat, shard: nat)
    requires job.Valid() && shard < threads
    ensures ShardFirst(job.outputs, threads, shard) + ShardCount(job.outputs, threads, shard) <= job.outputs
    ensures job.Part(threads, shard).Whole(o)
         == job.Whole(o)[ShardFirst(job.outputs, threads, shard)
                         ..ShardFirst(job.outputs, threads, shard) + ShardCount(job.outputs, threads, shard)]
  {
    hide ShardFirst, ShardCount, Job<F>.Whole, Job<F>.Range, Job<F>.Valid;
    ShardInRange(job.outputs, threads, shard, job.inputs);
    RangeIsSlice(o, job, ShardFirst(job.outputs, threads, shard), ShardCount(job.outputs, threads, shard));
  }

  lemma PartChannel<F>(o: Ops<F>, job: Job<F>, part: Job<F>, first: nat, count: nat, c: nat)
    requires job.Valid() && part.Valid() && c < count && first + count <= job.outputs
    requires 0 <= first * job.inputs && first * job.inputs + count * job.inputs <= |job.weight|
    requires part == Job(job.input, job.weight[first * job.inputs..first * job.inputs + count * job.inputs],
                         if job.bias == [] then [] else job.bias[first..first + count], job.inputs, count)
    ensures part.Whole(o)[c] == job.Whole(o)[first + c]
  {
    hide DotTo;
    var inputs := job.inputs;
    RowFits(c, count, inputs);
    RowFits(first + c, job.outputs, inputs);
    Distributes(first, c, inputs);
    SliceOfSlice(job.weight, first * inputs, first * inputs + count * inputs, c * inputs, inputs);
    assert Rows(part.weight, count, inputs)[c] == Rows(job.weight, job.outputs, inputs)[first + c];
  }

  /** The quotient and remainder of run_shard, none of which can overflow. */
  method ShardRange(outputs: Word, threads: nat, shard: nat) returns (first: Word, count: Word)
    requires shard < threads
    ensures first == ShardFirst(outputs, threads, shard) && count == ShardCount(outputs, threads, shard)
    ensures first + count <= outputs
  {
    ShardInRange(outputs, threads, shard, 0);
    var block: Word := outputs / threads;
    var remainder: Word := outputs % threads;
    first := shard * block + Min(shard, remainder);
    count := block + (if shard < remainder then 1 else 0);
  }

  /** run_shard: one call of the scalar kernel on the shard's spans, in place in the shared output. */
  method RunShard<F>(o: Ops<F>, output: array<F>, job: Job<F>, threads: nat, shard: nat)
    requires job.Valid() && shard < threads && output.Length == job.outputs <= SIZE_MAX && job.inputs <= SIZE_MAX
    modifies output
    ensures ShardFirst(job.outputs, threads, shard) + ShardCount(job.outputs, threads, shard) <= job.outputs
    ensures output[..] == Splice(old(output[..]), ShardFirst(job.outputs, threads, shard),
              job.Whole(o)[ShardFirst(job.outputs, threads, shard)
                           ..ShardFirst(job.outputs, threads, shard) + ShardCount(job.outputs, threads, shard)])
  {
    hide ShardFirst, ShardCount, Job<F>.Whole, Job<F>.Valid;
    var first, count := ShardRange(job.outputs, threads, shard);
    if count == 0 {
      assert output[..] == Splice(old(output[..]), first, []);
      return;
    }
    RunRange(o, output, job, first, count);
  }

  /** The scalar kernel on the spans of count channels from first on. */
  method RunRange<F>(o: Ops<F>, output: array<F>, job: Job<F>, first: Word, count: Word)
    requires job.Valid() && first + count <= job.outputs == output.Length <= SIZE_MAX && job.inputs <= SIZE_MAX
    modifies output
    ensures output[..] == Splice(old(output[..]), first, job.Whole(o)[first..first + count])
  {
    RangeTimes(first, count, job.outputs, job.inputs);
    RangeIsSlice(o, job, first, count);
    hide Job<F>.Whole, Splice;
    var weightFirst: Word := first * job.inputs;
    var weightCount: Word := count * job.inputs;
    var bias := if job.bias == [] then [] else job.bias[first..first + count];
    RunPart(o, output, first,
            Job(job.input, job.weight[weightFirst..weightFirst + weightCount], bias, job.inputs, count),
            job.Range(first, count));
  }

  method RunPart<F>(o: Ops<F>, output: array<F>, first: nat, part: Job<F>, ghost spec: Job<F>)
    requires part == spec && part.Valid() && first + part.outputs <= output.Length
    requires part.inputs <= SIZE_MAX && part.outputs <= SIZE_MAX
    modifies output
    ensures output[..] == Splice(old(output[..]), first, spec.Whole(o))
  {
    SingleRow(part.input);
    var outcome := LinearSpan(o, output, first, part.outputs, part.input, part.weight, part.bias,
                              1, part.inputs, part.outputs);
    assert outcome.Pass?;
    ghost var y := LinearRows(o, [part.input], Rows(part.weight, part.outputs, part.inputs), part.bias, part.inputs);
    assert y == [part.Whole(o)];
    SingleRow(part.Whole(o));
  }
}
