/**
 One submission to the executor, as its caller sees it: the shards of a parallel job run in some
 order, each may fail, and the call waits for all of them. PoolProtocol.SubmissionEffect proves that
 every submission in every interleaving of the worker pool has the Effect stated here.
 */
module LinearExecutor {
  import opened Wrappers
  import opened Words
  import opened Arithmetic
  import opened Matrices
  import opened Reference
  import opened Kernels
  import opened Shards

  /** Which shards of a submission throw, and how many channels each has written by then. */
  type Faults = map<nat, nat>

  /** The linear layers of consume_token. */
  datatype Place = InQkv | InProjection | InHidden | InOutput | InLogits

  /** One submission of a session: the position consumed, the layer, and the linear layer in it. */
  datatype Site = Site(position: nat, layer: nat, place: Place)

  /**
   No executor, or a pool: its number of threads, its least number of weights per thread, and the faults
   that the submissions made through it run into.
   */
  datatype Executor = Scalar | Pool(threads: Word, minimumWeights: nat, faults: Site -> Faults) {
    predicate Valid() {
      Pool? ==> threads > 0
    }

    /** The submission of a job of these sizes throws. */
    ghost predicate Throws(site: Site, inputs: nat, outputs: nat) {
      && Pool? && threads > 0
      && Divides(threads, minimumWeights, outputs, outputs * inputs)
      && SomeFault(threads, faults(site), {})
    }

    /** No shard ever throws. */
    ghost predicate Faultless() {
      Pool? ==> forall site: Site :: faults(site) == map[]
    }
  }

  /** Whether a job of these sizes is divided among the threads. */
  predicate Divides(threads: Word, minimumWeights: nat, outputs: nat, weights: nat)
    requires threads > 0
  {
    !(threads == 1 || outputs < threads || weights / threads < minimumWeights)
  }

  /** A job is divided when there is more than one thread, a channel for each, and enough weights for each. */
  lemma DividesWhen(threads: Word, minimumWeights: nat, outputs: nat, weights: nat)
    requires threads > 0
    ensures Divides(threads, minimumWeights, outputs, weights) <==>
              threads >= 2 && outputs >= threads && minimumWeights * threads <= weights
  {
    QuotientAtLeast(weights, threads, minimumWeights);
  }

  lemma QuotientAtLeast(n: nat, d: nat, q: nat)
    requires d > 0
    ensures q <= n / d <==> q * d <= n
  {
    var k, rest := n / d, n % d;
    assert n == k * d + rest;
    if q <= k {
      FactorGrows(q, k, d);
    } else {
      FactorGrows(k + 1, q, d);
      Distributes(k, 1, d);
    }
  }

  lemma FactorGrows(a: nat, b: nat, d: nat)
    requires a <= b
    ensures a * d <= b * d
  {
    Distributes(a, b - a, d);
  }

  predicate IsParallel<F>(threads: Word, minimumWeights: nat, job: Job<F>)
    requires threads > 0
  {
    Divides(threads, minimumWeights, job.outputs, |job.weight|)
  }

  /** Some thread has a fault, of those that are not in pending. */
  ghost predicate SomeFault(threads: nat, faults: Faults, pending: set<nat>) {
    exists t :: 0 <= t < threads && t in faults && t !in pending
  }

  /** Every channel whose shard is through has its final value if the shard reached it; the others are untouched. */
  ghost predicate Shown<F>(o: Ops<F>, job: Job<F>, threads: nat, faults: Faults, pending: set<nat>,
                           before: seq<F>, now: seq<F>)
    requires job.Valid() && threads > 0
  {
    && |before| == |now| == job.outputs
    && forall t, c :: 0 <= t < threads && 0 <= c < job.outputs && Owns(job.outputs, threads, t, c) ==>
         now[c] == if t !in pending && (t in faults ==> c < ShardFirst(job.outputs, threads, t) + faults[t])
                   then job.Whole(o)[c] else before[c]
  }

  /** What a submission of a validated job does to its output span, and whether it throws. */
  ghost predicate Effect<F>(o: Ops<F>, threads: Word, minimumWeights: nat, job: Job<F>, faults: Faults,
                            before: seq<F>, after: seq<F>, r: Outcome)
    requires job.Valid() && threads > 0
  {
    var divided := IsParallel(threads, minimumWeights, job);
    && (r.Pass? <==> !(divided && SomeFault(threads, faults, {})))
    && (r.Fail? ==> r.error == ShardFailure)
    && (if divided then Shown(o, job, threads, faults, {}, before, after) else after == job.Whole(o))
  }

  /** A submission that passes has replaced its output span by the scalar result. */
  lemma ShownWhole<F>(o: Ops<F>, job: Job<F>, threads: nat, faults: Faults, before: seq<F>, after: seq<F>)
    requires job.Valid() && threads > 0
    requires Shown(o, job, threads, faults, {}, before, after) && !SomeFault(threads, faults, {})
    ensures after == job.Whole(o)
  {
    hide ShardFirst, ShardCount, Owns, Job<F>.Whole;
    forall c | 0 <= c < job.outputs ensures after[c] == job.Whole(o)[c] {
      ShardsTile(job.outputs, threads, c);
    }
  }

  lemma NoneShown<F>(o: Ops<F>, job: Job<F>, threads: nat, faults: Faults, pending: set<nat>, before: seq<F>)
    requires job.Valid() && threads > 0 && |before| == job.outputs
    requires forall t :: 0 <= t < threads ==> t in pending
    ensures Shown(o, job, threads, faults, pending, before, before)
  {
  }

  /** How far a shard of count channels gets. */
  function ShardReach(faults: Faults, shard: nat, count: nat): (written: nat)
    ensures written <= count
  {
    if shard in faults && faults[shard] < count then faults[shard] else count
  }

  lemma OneMoreShown<F>(o: Ops<F>, job: Job<F>, threads: nat, faults: Faults, pending: set<nat>, shard: nat,
                        before: seq<F>, was: seq<F>, now: seq<F>)
    requires job.Valid() && shard < threads && Shown(o, job, threads, faults, pending, before, was) && shard in pending
    requires ShardFirst(job.outputs, threads, shard) + ShardCount(job.outputs, threads, shard) <= job.outputs
    requires var first, written := ShardFirst(job.outputs, threads, shard),
                                   ShardReach(faults, shard, ShardCount(job.outputs, threads, shard));
             now == Splice(was, first, job.Whole(o)[first..first + written])
    ensures Shown(o, job, threads, faults, pending - {shard}, before, now)
  {
    hide ShardFirst, ShardCount, Job<F>.Whole;
    forall t, c | 0 <= t < threads && 0 <= c < job.outputs && Owns(job.outputs, threads, t, c)
      ensures now[c] == if t !in pending - {shard}
                           && (t in faults ==> c < ShardFirst(job.outputs, threads, t) + faults[t])
                        then job.Whole(o)[c] else before[c]
    {
      if Owns(job.outputs, threads, shard, c) {
        ShardsDisjoint(job.outputs, threads, shard, t, c);
      }
    }
  }

  function AllShards(threads: nat): (shards: set<nat>)
    ensures forall s :: s in shards <==> 0 <= s < threads
  {
    if threads == 0 then {} else AllShards(threads - 1) + {threads - 1}
  }

  /** run_shard, up to where it throws if it does. */
  method RunFaulty<F>(o: Ops<F>, output: array<F>, job: Job<F>, threads: Word, faults: Faults, shard: nat)
    requires job.Valid() && shard < threads && output.Length == job.outputs <= SIZE_MAX && job.inputs <= SIZE_MAX
    modifies output
    ensures ShardFirst(job.outputs, threads, shard) + ShardCount(job.outputs, threads, shard) <= job.outputs
    ensures var first, written := ShardFirst(job.outputs, threads, shard),
                                  ShardReach(faults, shard, ShardCount(job.outputs, threads, shard));
            output[..] == Splice(old(output[..]), first, job.Whole(o)[first..first + written])
  {
    hide Splice, Job<F>.Whole, Job<F>.Valid, ShardFirst, ShardCount;
    if shard in faults {
      var first, count := ShardRange(job.outputs, threads, shard);
      RunRange(o, output, job, first, ShardReach(faults, shard, count));
    } else {
      RunShard(o, output, job, threads, shard);
    }
  }

  /** The shards of a divided job, in any order; the call waits for all of them even when some throw. */
  method RunShards<F>(o: Ops<F>, threads: Word, faults: Faults, output: array<F>, job: Job<F>) returns (failed: bool)
    requires job.Valid() && threads > 0 && output.Length == job.outputs <= SIZE_MAX && job.inputs <= SIZE_MAX
    modifies output
    ensures failed <==> SomeFault(threads, faults, {})
    ensures Shown(o, job, threads, faults, {}, old(output[..]), output[..])
  {
    var pending := AllShards(threads);
    ghost var before := output[..];
    hide Shown, ShardFirst, ShardCount, Splice, Job<F>.Whole, Job<F>.Part;
    NoneShown(o, job, threads, faults, pending, before);
    failed := false;
    while pending != {}
      invariant forall s :: s in pending ==> 0 <= s < threads
      invariant failed <==> SomeFault(threads, faults, pending)
      invariant Shown(o, job, threads, faults, pending, before, output[..])
      decreases pending
    {
      var shard :| shard in pending;
      ghost var was := output[..];
      RunFaulty(o, output, job, threads, faults, shard);
      OneMoreShown(o, job, threads, faults, pending, shard, before, was, output[..]);
      failed := failed || shard in faults;
      pending := pending - {shard};
    }
  }

  /**
   LinearExecutor::linear. A job of the right sizes passes if and only if it is undivided or no shard
   throws; in either case what every channel holds afterwards is determined.
   */
  method Submit<F>(o: Ops<F>, threads: Word, minimumWeights: nat, faults: Faults, output: array<F>,
                   input: seq<F>, weight: seq<F>, bias: seq<F>, inputs: Word, outputs: Word) returns (r: Outcome)
    requires threads > 0 && output.Length <= SIZE_MAX && |weight| <= SIZE_MAX
    modifies output
    ensures r.Pass? <==> && outputs * inputs <= SIZE_MAX
                         && LinearSizes(output.Length, input, weight, bias, 1, inputs, outputs)
                         && !(Divides(threads, minimumWeights, outputs, outputs * inputs)
                              && SomeFault(threads, faults, {}))
    ensures r.Pass? ==> output[..] == LinearRow(o, input, Rows(weight, outputs, inputs), bias)
    ensures r == Fail(Overflow) <==> outputs * inputs > SIZE_MAX
    ensures r == Fail(InvalidArgument) <==>
              outputs * inputs <= SIZE_MAX && !LinearSizes(output.Length, input, weight, bias, 1, inputs, outputs)
    ensures r.Pass? || r.error in {Overflow, InvalidArgument, ShardFailure}
    ensures r.Fail? && r.error != ShardFailure ==> output[..] == old(output[..])
    ensures r.Pass? || r.error == ShardFailure ==>
              && Job(input, weight, bias, inputs, outputs).Valid()
              && Effect(o, threads, minimumWeights, Job(input, weight, bias, inputs, outputs), faults,
                        old(output[..]), output[..], r)
  {
    hide Shown, SomeFault, Divides;
    var size := CheckedMultiply(inputs, outputs);
    if size.Failure? {
      return Fail(Overflow);
    }
    if output.Length != outputs || |input| != inputs || |weight| != size.value
      || (|bias| != 0 && |bias| != outputs) {
      return Fail(InvalidArgument);
    }
    assert inputs * outputs == outputs * inputs;
    var job := Job(input, weight, bias, inputs, outputs);
    if !IsParallel(threads, minimumWeights, job) {
      RunPart(o, output, 0, job, job);
      return Pass;
    }
    ghost var before := output[..];
    var failed := RunShards(o, threads, faults, output, job);
    if failed {
      return Fail(ShardFailure);
    }
    ShownWhole(o, job, threads, faults, before, output[..]);
    return Pass;
  }

  /** The linear lambda of consume_token: scalar without an executor, submitted with one. */
  method RowLinear<F>(o: Ops<F>, executor: Executor, site: Site, output: array<F>,
                      input: seq<F>, weight: seq<F>, bias: seq<F>, inputs: Word, outputs: Word) returns (r: Outcome)
    requires executor.Valid() && outputs * inputs <= SIZE_MAX
    requires LinearSizes(output.Length, input, weight, bias, 1, inputs, outputs)
    modifies output
    ensures r.Pass? <==> !executor.Throws(site, inputs, outputs)
    ensures r.Pass? ==> output[..] == LinearRow(o, input, Rows(weight, outputs, inputs), bias)
    ensures r.Fail? ==> r.error == ShardFailure
  {
    hide Divides, SomeFault;
    if executor.Scalar? {
      RunPart(o, output, 0, Job(input, weight, bias, inputs, outputs), Job(input, weight, bias, inputs, outputs));
      return Pass;
    }
    r := Submit(o, executor.threads, executor.minimumWeights, executor.faults(site), output,
                input, weight, bias, inputs, outputs);
  }
}
