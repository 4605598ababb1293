/**
 What every reachable state of the worker pool satisfies, and that every step of every thread keeps it.
 */
module PoolInvariant {
  import opened Wrappers
  import opened Shards
  import opened LinearExecutor
  import opened DividedJob
  import opened PoolState

  // Counting

  function Sum(s: seq<nat>): nat {
    if s == [] then 0 else Sum(s[..|s| - 1]) + s[|s| - 1]
  }

  lemma {:induction false} SumUpdate(s: seq<nat>, i: nat, v: nat)
    requires i < |s|
    ensures Sum(s[i := v]) + s[i] == Sum(s) + v
  {
    var n := |s| - 1;
    if i == n {
      assert s[i := v][..n] == s[..n];
    } else {
      assert s[i := v][..n] == s[..n][i := v];
      SumUpdate(s[..n], i, v);
    }
  }

  lemma {:induction false} SumBound(s: seq<nat>, t: seq<nat>, d: nat)
    requires |s| == |t| && forall i :: 0 <= i < |s| ==> t[i] <= s[i] + d
    ensures Sum(t) <= Sum(s) + d * |s|
  {
    if s != [] {
      var n := |s| - 1;
      SumBound(s[..n], t[..n], d);
      assert d * |s| == d * n + d;
    }
  }

  /** Flags that add up to their number are all raised, and lowered flags add up to nothing. */
  lemma {:induction false} SumOfFlags(s: seq<nat>)
    requires forall i :: 0 <= i < |s| ==> s[i] <= 1
    ensures Sum(s) <= |s|
    ensures Sum(s) == |s| <==> forall i :: 0 <= i < |s| ==> s[i] == 1
    ensures (forall i :: 0 <= i < |s| ==> s[i] == 0) ==> Sum(s) == 0
  {
    if s != [] {
      SumOfFlags(s[..|s| - 1]);
    }
  }

  // The parts of the invariant

  /** A client that has submit_mutex_. */
  predicate Holds<F>(pc: ClientPc<F>) {
    !pc.Idle? && !pc.Waiting?
  }

  /** A client whose job is published and not yet cleared. */
  predicate InFlight<F>(pc: ClientPc<F>) {
    pc.Announcing? || pc.RunningOwn? || pc.Checking? || pc.Resting?
  }

  ghost predicate LifeOk<F>(p: Pool<F>, s: State<F>) {
    && p.Valid()
    && (s.stopping <==> s.life != Building && s.life != Ready)
    && |s.workers| + 1 <= p.threads
    && (s.life == Ready ==> |s.workers| + 1 == p.threads)
    && (s.life != Ready ==> forall c :: 0 <= c < |s.clients| ==> s.clients[c].Idle?)
    && s.generation < p.modulus
    && (s.life == Building ==> s.generation == 0)
  }

  /** One holder of submit_mutex_, and job_ is the job of the submission in flight. */
  ghost predicate MutexOk<F>(s: State<F>) {
    && (s.submitMutex.Some? ==> s.submitMutex.value < |s.clients|)
    && (forall c :: 0 <= c < |s.clients| ==> (Holds(s.clients[c]) <==> s.submitMutex == Some(c)))
    && (forall c :: 0 <= c < |s.clients| && InFlight(s.clients[c]) ==> s.job == Some(s.clients[c].sub))
    && (s.job.Some? ==> s.submitMutex.Some? && InFlight(s.clients[s.submitMutex.value]))
  }

  /** Every pending submission refers to spans of the sizes it was checked for. */
  ghost predicate SpansOk<F>(s: State<F>) {
    forall c :: 0 <= c < |s.clients| && !s.clients[c].Idle? ==> Acceptable(s.memory, s.clients[c].sub)
  }

  /** Finished with the current generation. */
  predicate Done<F>(w: Worker<F>, generation: nat) {
    w.observed == generation && !w.pc.Running? && !w.pc.Finishing?
  }

  predicate Announced<F>(s: State<F>) {
    s.submitMutex.Some? && s.submitMutex.value < |s.clients| && !s.clients[s.submitMutex.value].Announcing?
  }

  ghost predicate WorkerOk<F>(s: State<F>, w: Worker<F>) {
    && !w.pc.RunningCleared?
    && (w.pc.Exited? ==> s.stopping)
    && (s.life == Joined ==> w.pc.Exited?)
    && (s.job == None ==> Done(w, s.generation))
    && (w.observed != s.generation ==> w.pc.AtLoop? || w.pc.Asleep? || w.pc.Notifying?)
    && (w.pc.Running? ==> s.job == Some(w.pc.current))
    // No lost wakeup: a thread asleep without a notification has nothing to see.
    && (w.pc == Asleep(false) && w.observed != s.generation ==> !Announced(s))
    && (w.pc == Asleep(false) && s.stopping ==> s.life == Stopping)
  }

  ghost predicate WorkersOk<F>(s: State<F>) {
    forall i :: 0 <= i < |s.workers| ==> WorkerOk(s, s.workers[i])
  }

  function Flags<F>(workers: seq<Worker<F>>, generation: nat): (flags: seq<nat>)
    ensures |flags| == |workers|
    ensures forall i :: 0 <= i < |workers| ==> flags[i] == if Done(workers[i], generation) then 1 else 0
  {
    seq(|workers|, (i: nat) requires i < |workers| => if Done(workers[i], generation) then 1 else 0)
  }

  /** completed_ is the number of workers that have finished with the current generation. */
  ghost predicate CountOk<F>(s: State<F>) {
    s.job.Some? ==> s.completed == Sum(Flags(s.workers, s.generation))
  }

  /** No lost wakeup for the submitter either: a notify_one is still to come. */
  ghost predicate NotifyOk<F>(s: State<F>) {
    forall c :: 0 <= c < |s.clients| && s.clients[c].Resting? && !s.clients[c].notified
                && s.completed == |s.workers| ==>
      exists i :: 0 <= i < |s.workers| && s.workers[i].pc.Notifying?
  }

  // The submission that has submit_mutex_

  function Crew<F>(p: Pool<F>, job: Job<F>): nat
    requires p.Valid()
  {
    if IsParallel(p.threads, p.minimumWeights, job) then p.threads else 1
  }

  function WorkerStage<F>(w: Worker<F>, generation: nat): Stage {
    if w.observed != generation then At(0) else if w.pc.Running? then At(w.pc.next) else Over
  }

  function CallerStage<F>(pc: ClientPc<F>): Stage {
    match pc
    case Announcing(_) => At(0)
    case RunningOwn(_, next) => At(next)
    case _ => Over
  }

  function Stages<F>(p: Pool<F>, s: State<F>, pc: ClientPc<F>): seq<Stage>
    requires p.Valid()
  {
    match pc
    case Fallback(_, next) => [At(next)]
    case Publishing(_) => seq(p.threads, _ => At(0))
    case Returning(sub, _, _) => seq(Crew(p, sub.job), _ => Over)
    case _ =>
      [CallerStage(pc)]
      + seq(|s.workers|, (i: nat) requires i < |s.workers| => WorkerStage(s.workers[i], s.generation))
  }

  ghost function View<F>(p: Pool<F>, s: State<F>, pc: ClientPc<F>): Progress<F>
    requires p.Valid() && Holds(pc) && pc.sub.buffer in s.memory && pc.sub.buffer in s.committed
  {
    Progress(Stages(p, s, pc), s.committed[pc.sub.buffer], s.memory[pc.sub.buffer], s.writers, s.failures)
  }

  /** Where the exceptions of the failed shards are kept. */
  ghost predicate ErrorsOk<F>(s: State<F>, pc: ClientPc<F>) {
    match pc
    case Fallback(_, _) => s.failures == map[]
    case Publishing(_) => s.failures == map[]
    case Returning(_, failed, workerError) =>
      && (failed <==> 0 in s.failures)
      && (workerError == None ==> forall t :: t in s.failures ==> t == 0)
      && (workerError.Some? ==> workerError.value in s.failures)
    case _ =>
      && (pc.Checking? || pc.Resting? ==> (pc.failed <==> 0 in s.failures))
      && (s.workerError.Some? ==> s.workerError.value in s.failures)
      && forall i :: 0 <= i < |s.workers| ==>
           && (s.workers[i].pc.Finishing? ==> (s.workers[i].pc.failed <==> i + 1 in s.failures))
           && (Done(s.workers[i], s.generation) && i + 1 in s.failures ==> s.workerError.Some?)
  }

  /** Two memories with the same buffers of the same sizes, and the same contents but for one. */
  ghost predicate SameBut<F>(m: map<nat, seq<F>>, n: map<nat, seq<F>>, buffer: nat) {
    && m.Keys == n.Keys
    && (forall b :: b in m ==> |m[b]| == |n[b]|)
    && (forall b :: b in m && b != buffer ==> m[b] == n[b])
  }

  /** Only a job that is divided among the threads is published, and only such a job can fail. */
  ghost predicate PathOk<F>(p: Pool<F>, s: State<F>, pc: ClientPc<F>)
    requires p.Valid() && Holds(pc)
  {
    && (pc.Publishing? || InFlight(pc) ==> IsParallel(p.threads, p.minimumWeights, pc.sub.job))
    && (s.failures != map[] ==> IsParallel(p.threads, p.minimumWeights, pc.sub.job))
  }

  ghost predicate HolderOk<F>(p: Pool<F>, s: State<F>, pc: ClientPc<F>)
    requires p.Valid() && Holds(pc)
  {
    && Acceptable(s.committed, pc.sub)
    && SameBut(s.committed, s.memory, pc.sub.buffer)
    && |Stages(p, s, pc)| == Crew(p, pc.sub.job)
    && PathOk(p, s, pc)
    && InStep(p.o, pc.sub.job, View(p, s, pc))
    && ErrorsOk(s, pc)
  }

  ghost predicate SubmissionOk<F>(p: Pool<F>, s: State<F>)
    requires p.Valid()
  {
    s.submitMutex.Some? && s.submitMutex.value < |s.clients| && Holds(s.clients[s.submitMutex.value]) ==>
      HolderOk(p, s, s.clients[s.submitMutex.value])
  }

  /** Every worker has copied the job just once. */
  predicate CopiedOnce(copies: seq<nat>) {
    forall i :: 0 <= i < |copies| ==> copies[i] == 1
  }

  /** A client whose divided submission is about to return. */
  predicate Collected<F>(p: Pool<F>, pc: ClientPc<F>)
    requires p.Valid()
  {
    pc.Returning? && IsParallel(p.threads, p.minimumWeights, pc.sub.job)
  }

  /**
   A worker has copied the published job once if it has observed its generation, and not at all before.
   When a divided submission is about to return, each worker has done so.
   */
  ghost predicate CopiesOk<F>(p: Pool<F>, s: State<F>)
    requires p.Valid()
  {
    && |s.copies| == |s.workers|
    && (forall i :: 0 <= i < |s.copies| ==> s.copies[i] <= 1)
    && (s.job.Some? ==> forall i :: 0 <= i < |s.copies| ==>
          s.copies[i] == if s.workers[i].observed == s.generation then 1 else 0)
    && (forall c :: 0 <= c < |s.clients| && Collected(p, s.clients[c]) ==> CopiedOnce(s.copies))
  }

  // Finished submissions

  ghost predicate EntryOk<F>(p: Pool<F>, e: Entry<F>)
    requires p.Valid()
  {
    && Acceptable(e.before, e.sub)
    && SameBut(e.before, e.after, e.sub.buffer)
    && (e.failures != map[] ==> IsParallel(p.threads, p.minimumWeights, e.sub.job))
    && (IsParallel(p.threads, p.minimumWeights, e.sub.job) ==> |e.copies| + 1 == p.threads && CopiedOnce(e.copies))
    && Settled(p.o, e.sub.job, Crew(p, e.sub.job), e.threw, e.failures, e.writers,
               e.before[e.sub.buffer], e.after[e.sub.buffer])
  }

  function Latest<F>(start: map<nat, seq<F>>, log: seq<Entry<F>>): map<nat, seq<F>> {
    if log == [] then start else log[|log| - 1].after
  }

  /** The submissions took effect one after another. */
  ghost predicate Serial<F>(p: Pool<F>, start: map<nat, seq<F>>, log: seq<Entry<F>>)
    requires p.Valid()
  {
    forall k :: 0 <= k < |log| ==> EntryOk(p, log[k]) && log[k].before == Latest(start, log[..k])
  }

  ghost predicate LogOk<F>(p: Pool<F>, start: map<nat, seq<F>>, s: State<F>)
    requires p.Valid()
  {
    && Serial(p, start, s.log)
    && Latest(start, s.log) == if s.submitMutex == None then s.memory else s.committed
  }

  ghost predicate Inv<F>(p: Pool<F>, start: map<nat, seq<F>>, s: State<F>) {
    && LifeOk(p, s)
    && MutexOk(s)
    && SpansOk(s)
    && WorkersOk(s)
    && CountOk(s)
    && NotifyOk(s)
    && CopiesOk(p, s)
    && SubmissionOk(p, s)
    && LogOk(p, start, s)
  }

  lemma InitialOk<F>(p: Pool<F>, clients: nat, memory: map<nat, seq<F>>)
    requires p.Valid()
    ensures Inv(p, memory, Initial(clients, memory))
  {
  }
}
