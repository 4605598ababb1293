/**
 One submission in progress, seen channel by channel: each thread of the crew works through its own
 shard in order and may give up at any point. What holds of every interleaving of the threads.
 */
module DividedJob {
  import opened Wrappers
  import opened Arithmetic
  import opened LinearExecutor
  import opened Shards

  /** A thread that has written the first next channels of its shard, or one that has finished or failed. */
  datatype Stage = At(next: nat) | Over

  datatype Progress<F> = Progress(
    stages: seq<Stage>,
    base: seq<F>,              // the output span when the submission took the lock
    now: seq<F>,
    writers: seq<seq<nat>>,    // which threads have written each channel
    failures: Faults)          // which threads have failed, and how far each had got

  /** Channel c of the shard of thread t, which starts at first. */
  ghost predicate ChannelHolds<F>(whole: seq<F>, v: Progress<F>, first: nat, t: nat, c: nat)
    requires t < |v.stages| && c < |whole| && |v.base| == |v.now| == |v.writers| == |whole|
  {
    && (|| (v.writers[c] == [] && v.now[c] == v.base[c])
        || (v.writers[c] == [t] && v.now[c] == whole[c]))
    && match v.stages[t]
       case At(n) => v.writers[c] == [t] <==> c < first + n
       case Over => v.writers[c] == [t] <==> (t in v.failures ==> c < first + v.failures[t])
  }

  ghost predicate InStep<F>(o: Ops<F>, job: Job<F>, v: Progress<F>) {
    && job.Valid() && |v.stages| > 0
    && |v.base| == |v.now| == |v.writers| == job.outputs
    && (forall t :: t in v.failures ==> t < |v.stages| && v.stages[t].Over?)
    && forall t, c :: 0 <= t < |v.stages| && 0 <= c < job.outputs && Owns(job.outputs, |v.stages|, t, c) ==>
         ChannelHolds(job.Whole(o), v, ShardFirst(job.outputs, |v.stages|, t), t, c)
  }

  /** What a submission leaves: whose exception it rethrows, and every channel written once by its owner. */
  ghost predicate Settled<F>(o: Ops<F>, job: Job<F>, crew: nat, threw: Option<nat>, failures: Faults,
                             writers: seq<seq<nat>>, before: seq<F>, after: seq<F>) {
    && job.Valid() && crew > 0
    && |before| == |after| == |writers| == job.outputs
    && (threw == None <==> failures == map[])
    && (threw.Some? ==> threw.value in failures)
    && (0 in failures ==> threw == Some(0))
    && (forall t :: t in failures ==> t < crew)
    && forall t, c :: 0 <= t < crew && 0 <= c < job.outputs && Owns(job.outputs, crew, t, c) ==>
         if t in failures ==> c < ShardFirst(job.outputs, crew, t) + failures[t]
         then writers[c] == [t] && after[c] == job.Whole(o)[c]
         else writers[c] == [] && after[c] == before[c]
  }

  /** The value thread t computes for the nth channel of its shard, from the spans of that shard alone. */
  ghost function ShardValue<F>(o: Ops<F>, job: Job<F>, crew: nat, t: nat, n: nat): F
    requires job.Valid() && t < crew && n < ShardCount(job.outputs, crew, t)
  {
    job.Part(crew, t).Whole(o)[n]
  }

  function Position<F>(job: Job<F>, crew: nat, t: nat, n: nat): nat
    requires crew > 0
  {
    ShardFirst(job.outputs, crew, t) + n
  }

  lemma PositionOwned<F>(o: Ops<F>, job: Job<F>, crew: nat, t: nat, n: nat)
    requires job.Valid() && t < crew && n < ShardCount(job.outputs, crew, t)
    ensures Position(job, crew, t, n) < job.outputs && Owns(job.outputs, crew, t, Position(job, crew, t, n))
    ensures ShardValue(o, job, crew, t, n) == job.Whole(o)[Position(job, crew, t, n)]
  {
    hide ShardFirst, ShardCount, Job<F>.Whole, Job<F>.Part;
    PartIsSlice(o, job, crew, t);
  }

  /** Nobody has started. */
  lemma Untouched<F>(o: Ops<F>, job: Job<F>, v: Progress<F>)
    requires job.Valid() && |v.stages| > 0 && v.now == v.base && |v.now| == job.outputs && |v.writers| == job.outputs
    requires v.failures == map[] && forall t :: 0 <= t < |v.stages| ==> v.stages[t] == At(0)
    requires forall c :: 0 <= c < job.outputs ==> v.writers[c] == []
    ensures InStep(o, job, v)
  {
    hide ShardFirst, ShardCount, Job<F>.Whole;
  }

  /** A thread writes the next channel of its shard. */
  lemma WriteKept<F>(o: Ops<F>, job: Job<F>, v: Progress<F>, t: nat, n: nat, c: nat, value: F)
    requires InStep(o, job, v) && t < |v.stages| && v.stages[t] == At(n)
    requires n < ShardCount(job.outputs, |v.stages|, t) && c == Position(job, |v.stages|, t, n)
    requires value == ShardValue(o, job, |v.stages|, t, n)
    ensures c < job.outputs
    ensures InStep(o, job, v.(stages := v.stages[t := At(n + 1)], now := v.now[c := value],
                              writers := v.writers[c := v.writers[c] + [t]]))
  {
    hide ShardFirst, ShardCount, Job<F>.Whole, ShardValue;
    var crew := |v.stages|;
    PositionOwned(o, job, crew, t, n);
    var w := v.(stages := v.stages[t := At(n + 1)], now := v.now[c := value],
                writers := v.writers[c := v.writers[c] + [t]]);
    forall u, d | 0 <= u < crew && 0 <= d < job.outputs && Owns(job.outputs, crew, u, d)
      ensures ChannelHolds(job.Whole(o), w, ShardFirst(job.outputs, crew, u), u, d)
    {
      assert ChannelHolds(job.Whole(o), v, ShardFirst(job.outputs, crew, u), u, d);
      if d == c {
        ShardsDisjoint(job.outputs, crew, u, t, d);
      }
    }
  }

  /** The failures, and one more of thread t after n channels. */
  function Failed(failures: Faults, t: nat, n: nat, failed: bool): Faults {
    if failed then failures[t := n] else failures
  }

  /** A thread finishes, having written its whole shard, or fails where it is. */
  lemma EndKept<F>(o: Ops<F>, job: Job<F>, v: Progress<F>, t: nat, n: nat, failed: bool)
    requires InStep(o, job, v) && t < |v.stages| && v.stages[t] == At(n)
    requires failed || n >= ShardCount(job.outputs, |v.stages|, t)
    ensures InStep(o, job, v.(stages := v.stages[t := Over], failures := Failed(v.failures, t, n, failed)))
  {
    hide ShardFirst, ShardCount, Job<F>.Whole;
    var crew := |v.stages|;
    var w := v.(stages := v.stages[t := Over], failures := Failed(v.failures, t, n, failed));
    forall u, d | 0 <= u < crew && 0 <= d < job.outputs && Owns(job.outputs, crew, u, d)
      ensures ChannelHolds(job.Whole(o), w, ShardFirst(job.outputs, crew, u), u, d)
    {
      assert ChannelHolds(job.Whole(o), v, ShardFirst(job.outputs, crew, u), u, d);
    }
  }

  /** Once every thread is through, the submission is settled. */
  lemma AllOver<F>(o: Ops<F>, job: Job<F>, v: Progress<F>, threw: Option<nat>)
    requires InStep(o, job, v) && forall t :: 0 <= t < |v.stages| ==> v.stages[t].Over?
    requires (threw == None <==> v.failures == map[]) && (threw.Some? ==> threw.value in v.failures)
    requires 0 in v.failures ==> threw == Some(0)
    ensures Settled(o, job, |v.stages|, threw, v.failures, v.writers, v.base, v.now)
  {
    hide ShardFirst, ShardCount, Owns, Job<F>.Whole;
    var crew := |v.stages|;
    forall t, c | 0 <= t < crew && 0 <= c < job.outputs && Owns(job.outputs, crew, t, c)
      ensures if t in v.failures ==> c < ShardFirst(job.outputs, crew, t) + v.failures[t]
              then v.writers[c] == [t] && v.now[c] == job.Whole(o)[c]
              else v.writers[c] == [] && v.now[c] == v.base[c]
    {
      assert ChannelHolds(job.Whole(o), v, ShardFirst(job.outputs, crew, t), t, c);
    }
  }

  /** Without a failure the output is the scalar result and every channel was written exactly once. */
  lemma SettledWhole<F>(o: Ops<F>, job: Job<F>, crew: nat, failures: Faults,
                        writers: seq<seq<nat>>, before: seq<F>, after: seq<F>)
    requires Settled(o, job, crew, None, failures, writers, before, after)
    ensures after == job.Whole(o)
    ensures forall c :: 0 <= c < job.outputs ==> |writers[c]| == 1 && Owns(job.outputs, crew, writers[c][0], c)
  {
    hide ShardFirst, ShardCount, Owns, Job<F>.Whole;
    forall c | 0 <= c < job.outputs
      ensures after[c] == job.Whole(o)[c] && |writers[c]| == 1 && Owns(job.outputs, crew, writers[c][0], c)
    {
      ShardsTile(job.outputs, crew, c);
    }
  }

  /** With or without failures, every channel holds what the shards that reached it have written. */
  lemma SettledShown<F>(o: Ops<F>, job: Job<F>, crew: nat, threw: Option<nat>, failures: Faults,
                        writers: seq<seq<nat>>, before: seq<F>, after: seq<F>)
    requires Settled(o, job, crew, threw, failures, writers, before, after)
    ensures Shown(o, job, crew, failures, {}, before, after)
    ensures SomeFault(crew, failures, {}) <==> threw.Some?
  {
    hide ShardFirst, ShardCount, Owns, Job<F>.Whole;
    if t :| t in failures {
      assert t < crew;
    }
  }
}
