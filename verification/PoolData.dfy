/** Every step of every thread keeps the data part of the invariant: what the submission in progress has written. */
module PoolData {
  import opened Wrappers
  import opened Arithmetic
  import opened Shards
  import opened LinearExecutor
  import opened DividedJob
  import opened PoolState
  import opened PoolInvariant
  import opened PoolSteps

  ghost predicate DataSame<F>(s: State<F>, t: State<F>) {
    t.memory == s.memory && t.committed == s.committed && t.writers == s.writers && t.failures == s.failures
  }

  /** The scalar kernel is a crew of one. */
  lemma CrewOfOne<F>(o: Ops<F>, job: Job<F>, n: nat)
    requires job.Valid()
    ensures ShardCount(job.outputs, 1, 0) == job.outputs
    ensures Position(job, 1, 0, n) == n
    ensures n < job.outputs ==> ShardValue(o, job, 1, 0, n) == job.Whole(o)[n]
  {
    hide Job<F>.Whole, Job<F>.Part;
    PartIsSlice(o, job, 1, 0);
  }

  lemma HolderSame<F>(p: Pool<F>, s: State<F>, t: State<F>, pc: ClientPc<F>, qc: ClientPc<F>)
    requires p.Valid() && Holds(pc) && Holds(qc) && pc.sub == qc.sub
    requires HolderOk(p, s, pc) && DataSame(s, t) && Stages(p, t, qc) == Stages(p, s, pc) && ErrorsOk(t, qc)
    requires qc.Publishing? || InFlight(qc) ==> pc.Publishing? || InFlight(pc)
    ensures HolderOk(p, t, qc)
  {
    hide Stages, ErrorsOk, InStep, Crew, Acceptable, SameBut;
  }

  /** A thread of the crew writes its next channel. */
  lemma HolderWritten<F>(p: Pool<F>, s: State<F>, u: State<F>, t: State<F>, pc: ClientPc<F>, qc: ClientPc<F>,
                         thread: nat, n: nat)
    requires p.Valid() && Holds(pc) && Holds(qc) && pc.sub == qc.sub && HolderOk(p, s, pc) && DataSame(s, u)
    requires thread < |Stages(p, s, pc)| && Stages(p, s, pc)[thread] == At(n)
    requires n < ShardCount(pc.sub.job.outputs, Crew(p, pc.sub.job), thread)
    requires t == Written(u, pc.sub, Position(pc.sub.job, Crew(p, pc.sub.job), thread, n),
                          ShardValue(p.o, pc.sub.job, Crew(p, pc.sub.job), thread, n), thread)
    requires Stages(p, t, qc) == Stages(p, s, pc)[thread := At(n + 1)] && ErrorsOk(t, qc)
    requires InFlight(qc) <==> InFlight(pc)
    requires !qc.Publishing?
    ensures HolderOk(p, t, qc)
  {
    hide Stages, ErrorsOk, Crew, InStep, ShardCount, Position, ShardValue, Job<F>.Valid, Job<F>.Whole;
    HolderSizes(p, s, pc);
    var c := Position(pc.sub.job, Crew(p, pc.sub.job), thread, n);
    WriteKept(p.o, pc.sub.job, View(p, s, pc), thread, n, c,
              ShardValue(p.o, pc.sub.job, Crew(p, pc.sub.job), thread, n));
  }

  lemma HolderSizes<F>(p: Pool<F>, s: State<F>, pc: ClientPc<F>)
    requires p.Valid() && Holds(pc) && HolderOk(p, s, pc)
    ensures pc.sub.job.Valid() && pc.sub.buffer in s.memory
    ensures |s.memory[pc.sub.buffer]| == pc.sub.job.outputs == |s.writers|
  {
    hide Stages, ErrorsOk, Crew, ChannelHolds, Job<F>.Valid;
  }

  /** A thread of the crew finishes or fails. */
  lemma HolderEnded<F>(p: Pool<F>, s: State<F>, t: State<F>, pc: ClientPc<F>, qc: ClientPc<F>, thread: nat, n: nat,
                       failed: bool)
    requires p.Valid() && Holds(pc) && Holds(qc) && pc.sub == qc.sub && HolderOk(p, s, pc)
    requires thread < |Stages(p, s, pc)| && Stages(p, s, pc)[thread] == At(n)
    requires failed || n >= ShardCount(pc.sub.job.outputs, Crew(p, pc.sub.job), thread)
    requires t.memory == s.memory && t.committed == s.committed && t.writers == s.writers
    requires t.failures == Failed(s.failures, thread, n, failed)
    requires Stages(p, t, qc) == Stages(p, s, pc)[thread := Over] && ErrorsOk(t, qc)
    requires (InFlight(qc) || failed ==> InFlight(pc)) && !qc.Publishing?
    ensures HolderOk(p, t, qc)
  {
    hide Stages, ErrorsOk, Crew, InStep, ShardCount, Job<F>.Valid;
    HolderSizes(p, s, pc);
    EndKept(p.o, pc.sub.job, View(p, s, pc), thread, n, failed);
  }

  // Worker steps

  lemma StageMoved<F>(p: Pool<F>, s: State<F>, t: State<F>, pc: ClientPc<F>, qc: ClientPc<F>, i: nat)
    requires p.Valid() && InFlight(pc) && InFlight(qc) && CallerStage(pc) == CallerStage(qc)
    requires i < |s.workers| == |t.workers| && t.workers == s.workers[i := t.workers[i]] && t.generation == s.generation
    ensures |Stages(p, s, pc)| == |s.workers| + 1
    ensures Stages(p, s, pc)[i + 1] == WorkerStage(s.workers[i], s.generation)
    ensures Stages(p, t, qc) == Stages(p, s, pc)[i + 1 := WorkerStage(t.workers[i], t.generation)]
  {
  }

  /** A worker that only waits, wakes, counts itself or notifies touches no data. */
  ghost predicate QuietFrame<F>(s: State<F>, t: State<F>, i: nat) {
    && WorkerFrame(s, t, i) && !s.workers[i].pc.Running? && DataSame(s, t)
    && t.workerError == (if s.workers[i].pc.Finishing? && s.workers[i].pc.failed && s.workerError == None
                         then Some(i + 1) else s.workerError)
  }

  lemma QuietStep<F>(p: Pool<F>, s: State<F>, step: Step<F>, i: nat)
    requires p.Valid() && IsWorkerStep(step) && WorkerMay(p, s, step, i) && !s.workers[i].pc.Running?
    ensures QuietFrame(s, WorkerDo(p, s, step, i), i)
  {
    WorkerStep(p, s, step, i);
    hide WorkerFrame, ShardFirst, ShardCount, Job<F>.Valid, Job<F>.Whole, ShardValue, Position, Written;
  }

  lemma QuietErrors<F>(s: State<F>, t: State<F>, i: nat, pc: ClientPc<F>, qc: ClientPc<F>)
    requires WorkersOk(s) && QuietFrame(s, t, i) && InFlight(pc) && s.job == Some(pc.sub) && !s.stopping
    requires qc == pc || (pc.Resting? && qc == pc.(notified := true))
    requires ErrorsOk(s, pc)
    ensures ErrorsOk(t, qc)
    ensures WorkerStage(t.workers[i], t.generation) == WorkerStage(s.workers[i], s.generation)
  {
    assert WorkerOk(s, s.workers[i]);
  }

  lemma HolderKeptByQuiet<F>(p: Pool<F>, s: State<F>, t: State<F>, i: nat, pc: ClientPc<F>, qc: ClientPc<F>)
    requires p.Valid() && WorkersOk(s) && QuietFrame(s, t, i) && InFlight(pc) && s.job == Some(pc.sub) && !s.stopping
    requires qc == pc || (pc.Resting? && qc == pc.(notified := true))
    requires HolderOk(p, s, pc)
    ensures HolderOk(p, t, qc)
  {
    hide InStep, Acceptable, SameBut, Crew, Job<F>.Valid, ErrorsOk, Stages, WorkersOk, WorkerStage;
    QuietErrors(s, t, i, pc, qc);
    StageMoved(p, s, t, pc, qc, i);
    HolderSame(p, s, t, pc, qc);
  }

  lemma RunningStage<F>(s: State<F>, i: nat, pc: ClientPc<F>)
    requires WorkersOk(s) && i < |s.workers| && s.workers[i].pc.Running? && InFlight(pc) && s.job == Some(pc.sub)
    ensures s.workers[i].pc.current == pc.sub && s.workers[i].observed == s.generation
    ensures WorkerStage(s.workers[i], s.generation) == At(s.workers[i].pc.next)
  {
    assert WorkerOk(s, s.workers[i]);
  }

  lemma RunningSteps<F>(p: Pool<F>, s: State<F>, step: Step<F>, i: nat, pc: ClientPc<F>)
    requires p.Valid() && IsWorkerStep(step) && WorkerMay(p, s, step, i) && s.workers[i].pc.Running?
    requires HolderInPlace(s, pc, i)
    ensures (step.WorkerWrite? || step.WorkerFail? || step.WorkerDone?) && InFlight(pc)
  {
    hide ShardCount, Job<F>.Valid;
  }

  lemma HolderKeptByWrite<F>(p: Pool<F>, s: State<F>, t: State<F>, step: Step<F>, i: nat, pc: ClientPc<F>)
    requires p.Valid() && LifeOk(p, s) && WorkersOk(s) && InFlight(pc) && s.job == Some(pc.sub)
    requires step.WorkerWrite? && WorkerMay(p, s, step, i) && t == WorkerDo(p, s, step, i) && HolderOk(p, s, pc)
    ensures t.clients == s.clients && HolderOk(p, t, pc)
  {
    hide InStep, Acceptable, SameBut, Stages, Job<F>.Whole, ShardCount, ShardValue, Position, Crew, WorkersOk;
    hide LifeOk, HolderOk, WorkerDo, ErrorsOk, PathOk;
    RunningStage(s, i, pc);
    var n := s.workers[i].pc.next;
    WorkerWrites(p, s, t, step, i, pc);
    StageMoved(p, s, t, pc, pc, i);
    CrewInFlight(p, s, pc);
    HolderErrors(p, s, pc);
    ErrorsByWrite(s, t, i, pc);
    HolderWritten(p, s, SetWorker(s, i, Running(pc.sub, n + 1)), t, pc, pc, i + 1, n);
  }

  lemma HolderErrors<F>(p: Pool<F>, s: State<F>, pc: ClientPc<F>)
    requires p.Valid() && Holds(pc) && HolderOk(p, s, pc)
    ensures ErrorsOk(s, pc)
  {
    hide InStep, Acceptable, SameBut, ErrorsOk, Stages, Crew;
  }

  /** What a write of worker i is, for a job in flight. */
  lemma WorkerWrites<F>(p: Pool<F>, s: State<F>, t: State<F>, step: Step<F>, i: nat, pc: ClientPc<F>)
    requires LifeOk(p, s) && step.WorkerWrite? && WorkerMay(p, s, step, i) && t == WorkerDo(p, s, step, i)
    requires InFlight(pc) && s.workers[i].pc.current == pc.sub
    ensures var n := s.workers[i].pc.next;
            && s.workers != [] && i + 1 < p.threads && pc.sub.job.Valid()
            && n < ShardCount(pc.sub.job.outputs, p.threads, i + 1)
            && t.clients == s.clients && t.generation == s.generation && |t.workers| == |s.workers|
            && t.workers == s.workers[i := Worker(s.workers[i].observed, Running(pc.sub, n + 1))]
            && t.failures == s.failures && t.workerError == s.workerError
            && t == Written(SetWorker(s, i, Running(pc.sub, n + 1)), pc.sub, Position(pc.sub.job, p.threads, i + 1, n),
                            ShardValue(p.o, pc.sub.job, p.threads, i + 1, n), i + 1)
  {
    hide Job<F>.Whole, Job<F>.Valid, ShardCount, ShardValue, Position;
  }

  lemma ErrorsByWrite<F>(s: State<F>, t: State<F>, i: nat, pc: ClientPc<F>)
    requires InFlight(pc) && ErrorsOk(s, pc) && i < |s.workers| && s.workers[i].pc.Running?
    requires t.workers == s.workers[i := Worker(s.workers[i].observed, Running(pc.sub, s.workers[i].pc.next + 1))]
    requires t.generation == s.generation && t.failures == s.failures && t.workerError == s.workerError
    ensures ErrorsOk(t, pc)
  {
  }

  /** A submission in flight is divided among all the threads. */
  lemma CrewInFlight<F>(p: Pool<F>, s: State<F>, pc: ClientPc<F>)
    requires LifeOk(p, s) && InFlight(pc) && HolderOk(p, s, pc) && (s.workers != [] || s.life == Ready)
    ensures Crew(p, pc.sub.job) == p.threads == |s.workers| + 1
  {
    hide InStep, Acceptable, SameBut, ErrorsOk;
  }

  lemma HolderKeptByEnd<F>(p: Pool<F>, s: State<F>, t: State<F>, step: Step<F>, i: nat, pc: ClientPc<F>)
    requires LifeOk(p, s) && WorkersOk(s) && InFlight(pc) && s.job == Some(pc.sub)
    requires (step.WorkerFail? || step.WorkerDone?) && WorkerMay(p, s, step, i) && t == WorkerDo(p, s, step, i)
    requires HolderOk(p, s, pc)
    ensures t.clients == s.clients && HolderOk(p, t, pc)
  {
    hide InStep, Acceptable, SameBut, Stages, Job<F>.Valid, ShardCount, Crew, WorkersOk;
    RunningStage(s, i, pc);
    StageMoved(p, s, t, pc, pc, i);
    CrewInFlight(p, s, pc);
    NotFailed(p, s, pc, i + 1);
    HolderEnded(p, s, t, pc, pc, i + 1, s.workers[i].pc.next, step.WorkerFail?);
  }

  lemma NotFailed<F>(p: Pool<F>, s: State<F>, pc: ClientPc<F>, thread: nat)
    requires p.Valid() && Holds(pc) && HolderOk(p, s, pc) && thread < |Stages(p, s, pc)| && Stages(p, s, pc)[thread].At?
    ensures thread !in s.failures
  {
    hide Stages, ChannelHolds, ErrorsOk, Crew, Acceptable, SameBut;
  }

  /** The client with submit_mutex_, seen before and after a worker's step. */
  lemma HolderFacts<F>(p: Pool<F>, s: State<F>, t: State<F>, i: nat)
    requires ControlOk(p, s) && WorkerFrame(s, t, i) && s.submitMutex.Some?
    ensures i < |s.workers| && s.submitMutex.value < |s.clients| == |t.clients|
    ensures HolderInPlace(s, s.clients[s.submitMutex.value], i)
    ensures var pc, qc := s.clients[s.submitMutex.value], t.clients[s.submitMutex.value];
            qc == pc || (s.workers[i].pc.Notifying? && pc.Resting? && qc == pc.(notified := true))
  {
    assert WorkerOk(s, s.workers[i]);
  }

  lemma HolderKeptByWorker<F>(p: Pool<F>, s: State<F>, t: State<F>, step: Step<F>, i: nat, pc: ClientPc<F>,
                              qc: ClientPc<F>)
    requires p.Valid() && ControlOk(p, s) && HolderInPlace(s, pc, i)
    requires IsWorkerStep(step) && WorkerMay(p, s, step, i) && t == WorkerDo(p, s, step, i)
    requires qc == pc || (s.workers[i].pc.Notifying? && pc.Resting? && qc == pc.(notified := true))
    requires HolderOk(p, s, pc)
    ensures HolderOk(p, t, qc)
  {
    var w := s.workers[i].pc;
    if w.Running? {
      RunningSteps(p, s, step, i, pc);
      hide WorkersOk, MutexOk, CountOk, NotifyOk, LifeOk, WorkerDo, HolderOk, WorkerMay;
      if step.WorkerWrite? {
        HolderKeptByWrite(p, s, t, step, i, pc);
      } else {
        HolderKeptByEnd(p, s, t, step, i, pc);
      }
    } else {
      hide WorkersOk, MutexOk, CountOk, NotifyOk, LifeOk, WorkerDo, HolderOk, WorkerMay, QuietFrame;
      QuietStep(p, s, step, i);
      if InFlight(pc) {
        HolderKeptByQuiet(p, s, t, i, pc, qc);
      } else {
        HolderKeptApart(p, s, t, i, pc);
      }
    }
  }

  lemma FrameMutex<F>(s: State<F>, t: State<F>, i: nat)
    requires WorkerFrame(s, t, i)
    ensures t.submitMutex == s.submitMutex && |t.clients| == |s.clients|
  {
  }

  lemma HolderKeptApart<F>(p: Pool<F>, s: State<F>, t: State<F>, i: nat, pc: ClientPc<F>)
    requires p.Valid() && QuietFrame(s, t, i) && Holds(pc) && !InFlight(pc) && HolderOk(p, s, pc)
    ensures HolderOk(p, t, pc)
  {
    hide InStep, Acceptable, SameBut, Crew, Job<F>.Valid;
    HolderSame(p, s, t, pc, pc);
  }

  /** The client that has submit_mutex_ when worker i takes a step. */
  ghost predicate HolderInPlace<F>(s: State<F>, pc: ClientPc<F>, i: nat) {
    && Holds(pc) && !s.stopping && i < |s.workers|
    && (if InFlight(pc) then s.job == Some(pc.sub) else !s.workers[i].pc.Running? && !s.workers[i].pc.Finishing?)
  }

  lemma SubmissionKeptByWorker<F>(p: Pool<F>, s: State<F>, t: State<F>, step: Step<F>, i: nat)
    requires p.Valid() && ControlOk(p, s) && SubmissionOk(p, s)
    requires IsWorkerStep(step) && WorkerMay(p, s, step, i) && t == WorkerDo(p, s, step, i)
    ensures SubmissionOk(p, t)
  {
    hide WorkersOk, MutexOk, CountOk, NotifyOk, LifeOk, WorkerDo, HolderOk, WorkerFrame, WorkerMay, HolderInPlace;
    WorkerStep(p, s, step, i);
    FrameMutex(s, t, i);
    if s.submitMutex.Some? {
      HolderFacts(p, s, t, i);
      HolderKeptByWorker(p, s, t, step, i, s.clients[s.submitMutex.value], t.clients[s.submitMutex.value]);
    }
  }

  // Client steps

  lemma CallerMoved<F>(p: Pool<F>, s: State<F>, t: State<F>, pc: ClientPc<F>, qc: ClientPc<F>)
    requires p.Valid() && InFlight(pc) && InFlight(qc) && t.workers == s.workers && t.generation == s.generation
    ensures |Stages(p, s, pc)| == |s.workers| + 1 && Stages(p, s, pc)[0] == CallerStage(pc)
    ensures Stages(p, t, qc) == Stages(p, s, pc)[0 := CallerStage(qc)]
  {
  }

  /** submit_mutex_ is taken: nothing of this submission has been written. */
  lemma HolderTaken<F>(p: Pool<F>, s: State<F>, t: State<F>, step: Step<F>, c: nat)
    requires p.Valid() && step.Acquire? && ClientMay(p, s, step, c) && t == ClientDo(p, s, step, c)
    requires Acceptable(s.memory, s.clients[c].sub)
    ensures HolderOk(p, t, t.clients[c])
  {
    hide InStep, IsParallel, Job<F>.Valid;
    Untouched(p.o, s.clients[c].sub.job, View(p, t, t.clients[c]));
  }

  lemma HolderFallback<F>(p: Pool<F>, s: State<F>, t: State<F>, step: Step<F>, c: nat)
    requires p.Valid() && ClientMay(p, s, step, c) && step.FallbackWrite? && t == ClientDo(p, s, step, c)
    requires HolderOk(p, s, s.clients[c])
    ensures HolderOk(p, t, t.clients[c])
  {
    var pc := s.clients[c];
    var qc := Fallback(pc.sub, pc.next + 1);
    hide InStep, Acceptable, SameBut, Job<F>.Whole, ShardCount, ShardValue, Position, IsParallel;
    CrewOfOne(p.o, pc.sub.job, pc.next);
    assert Stages(p, t, qc) == Stages(p, s, pc)[0 := At(pc.next + 1)];
    HolderWritten(p, s, SetClient(s, c, qc), t, pc, qc, 0, pc.next);
  }

  lemma HolderFallbackDone<F>(p: Pool<F>, s: State<F>, t: State<F>, step: Step<F>, c: nat)
    requires p.Valid() && ClientMay(p, s, step, c) && step.FallbackDone? && t == ClientDo(p, s, step, c)
    requires HolderOk(p, s, s.clients[c])
    ensures HolderOk(p, t, t.clients[c])
  {
    var pc, qc := s.clients[c], t.clients[c];
    hide InStep, Acceptable, SameBut, Job<F>.Valid, ShardCount, IsParallel;
    HolderSizes(p, s, pc);
    CrewOfOne(p.o, pc.sub.job, pc.next);
    assert Stages(p, t, qc) == Stages(p, s, pc)[0 := Over];
    HolderEnded(p, s, t, pc, qc, 0, pc.next, false);
  }

  lemma HolderOwnWrite<F>(p: Pool<F>, s: State<F>, t: State<F>, step: Step<F>, c: nat)
    requires p.Valid() && LifeOk(p, s) && s.life == Ready
    requires ClientMay(p, s, step, c) && step.OwnWrite? && t == ClientDo(p, s, step, c)
    requires HolderOk(p, s, s.clients[c])
    ensures HolderOk(p, t, t.clients[c])
  {
    var pc := s.clients[c];
    var qc := RunningOwn(pc.sub, pc.next + 1);
    hide LifeOk, IsParallel, PathOk, HolderOk, Job<F>.Valid, ClientDo, ClientMay, ErrorsOk;
    hide InStep, Acceptable, SameBut, Stages, Job<F>.Whole, ShardCount, ShardValue, Position, Crew;
    OwnWrites(p, s, t, step, c);
    CrewInFlight(p, s, pc);
    CallerMoved(p, s, t, pc, qc);
    HolderErrors(p, s, pc);
    ErrorsByOwnWrite(s, t, pc, qc);
    HolderWritten(p, s, SetClient(s, c, qc), t, pc, qc, 0, pc.next);
  }

  /** What a write of the submitter's own shard is. */
  lemma OwnWrites<F>(p: Pool<F>, s: State<F>, t: State<F>, step: Step<F>, c: nat)
    requires p.Valid() && ClientMay(p, s, step, c) && step.OwnWrite? && t == ClientDo(p, s, step, c)
    ensures var pc := s.clients[c];
            && pc.RunningOwn? && pc.sub.job.Valid() && pc.next < ShardCount(pc.sub.job.outputs, p.threads, 0)
            && t.clients == s.clients[c := RunningOwn(pc.sub, pc.next + 1)]
            && t.workers == s.workers && t.generation == s.generation
            && t.failures == s.failures && t.workerError == s.workerError
            && t == Written(SetClient(s, c, RunningOwn(pc.sub, pc.next + 1)), pc.sub,
                            Position(pc.sub.job, p.threads, 0, pc.next),
                            ShardValue(p.o, pc.sub.job, p.threads, 0, pc.next), 0)
  {
    hide Job<F>.Whole, Job<F>.Valid, ShardCount, ShardValue, Position;
  }

  lemma ErrorsByOwnWrite<F>(s: State<F>, t: State<F>, pc: ClientPc<F>, qc: ClientPc<F>)
    requires pc.RunningOwn? && qc.RunningOwn? && ErrorsOk(s, pc) && t.workers == s.workers
    requires t.generation == s.generation && t.failures == s.failures && t.workerError == s.workerError
    ensures ErrorsOk(t, qc)
  {
  }

  lemma HolderOwnEnd<F>(p: Pool<F>, s: State<F>, t: State<F>, step: Step<F>, c: nat)
    requires LifeOk(p, s) && s.life == Ready
    requires ClientMay(p, s, step, c) && (step.OwnFail? || step.OwnDone?) && t == ClientDo(p, s, step, c)
    requires HolderOk(p, s, s.clients[c])
    ensures HolderOk(p, t, t.clients[c])
  {
    var pc, qc := s.clients[c], t.clients[c];
    hide InStep, Acceptable, SameBut, Stages, Job<F>.Valid, ShardCount, Crew;
    CallerMoved(p, s, t, pc, qc);
    CrewInFlight(p, s, pc);
    NotFailed(p, s, pc, 0);
    HolderEnded(p, s, t, pc, qc, 0, pc.next, step.OwnFail?);
  }

  /** The job is published: every worker has it ahead. */
  lemma HolderPublished<F>(p: Pool<F>, s: State<F>, t: State<F>, step: Step<F>, c: nat)
    requires LifeOk(p, s) && s.life == Ready && WorkersOk(s) && s.job == None
    requires ClientMay(p, s, step, c) && step.Publish? && t == ClientDo(p, s, step, c)
    requires HolderOk(p, s, s.clients[c])
    ensures HolderOk(p, t, t.clients[c])
  {
    var pc, qc := s.clients[c], t.clients[c];
    hide InStep, Acceptable, SameBut, Job<F>.Valid, IsParallel;
    assert t.generation != s.generation;
    forall i | 0 <= i < |t.workers| ensures t.workers[i].observed != t.generation && !t.workers[i].pc.Finishing? {
      assert WorkerOk(s, s.workers[i]);
    }
    assert Stages(p, t, qc) == Stages(p, s, pc);
    HolderSame(p, s, t, pc, qc);
  }

  lemma HolderAnnounced<F>(p: Pool<F>, s: State<F>, t: State<F>, step: Step<F>, c: nat)
    requires LifeOk(p, s) && WorkersOk(s)
    requires ClientMay(p, s, step, c) && step.Announce? && t == ClientDo(p, s, step, c)
    requires HolderOk(p, s, s.clients[c])
    ensures HolderOk(p, t, t.clients[c])
  {
    var pc, qc := s.clients[c], t.clients[c];
    hide InStep, Acceptable, SameBut, Job<F>.Valid, IsParallel;
    assert Stages(p, t, qc) == Stages(p, s, pc);
    HolderSame(p, s, t, pc, qc);
  }

  /** The wait for the workers goes on. */
  lemma HolderWaits<F>(p: Pool<F>, s: State<F>, t: State<F>, step: Step<F>, c: nat)
    requires p.Valid() && (step.Check? || step.ClientWake? || step.ClientSpurious?)
    requires ClientMay(p, s, step, c) && t == ClientDo(p, s, step, c) && HolderOk(p, s, s.clients[c])
    requires step.Check? ==> s.completed != |s.workers|
    ensures HolderOk(p, t, t.clients[c])
  {
    var pc, qc := s.clients[c], t.clients[c];
    hide InStep, Acceptable, SameBut, Job<F>.Valid, Stages, Crew;
    CallerMoved(p, s, t, pc, qc);
    HolderSame(p, s, t, pc, qc);
  }

  /** The wait ends only when every worker is done. */
  lemma HolderReturns<F>(p: Pool<F>, s: State<F>, t: State<F>, step: Step<F>, c: nat)
    requires LifeOk(p, s) && s.life == Ready && CountOk(s) && s.job.Some?
    requires step.Check? && ClientMay(p, s, step, c) && t == ClientDo(p, s, step, c) && HolderOk(p, s, s.clients[c])
    requires s.completed == |s.workers|
    ensures HolderOk(p, t, t.clients[c])
  {
    var pc, qc := s.clients[c], t.clients[c];
    EveryoneDone(s);
    CrewInFlight(p, s, pc);
    ErrorsCollected(p, s, pc);
    hide InStep, Acceptable, SameBut, Crew, Job<F>.Valid, Sum, CountOk, LifeOk;
    StagesOver(p, s, t, pc, qc);
    HolderSame(p, s, t, pc, qc);
  }

  lemma EveryoneDone<F>(s: State<F>)
    requires CountOk(s) && s.job.Some? && s.completed == |s.workers|
    ensures forall i :: 0 <= i < |s.workers| ==> Done(s.workers[i], s.generation)
  {
    SumOfFlags(Flags(s.workers, s.generation));
    hide Sum;
  }

  lemma StagesOver<F>(p: Pool<F>, s: State<F>, t: State<F>, pc: ClientPc<F>, qc: ClientPc<F>)
    requires p.Valid() && pc.Checking? && qc.Returning? && pc.sub == qc.sub && Crew(p, pc.sub.job) == |s.workers| + 1
    requires forall i :: 0 <= i < |s.workers| ==> Done(s.workers[i], s.generation)
    ensures Stages(p, t, qc) == Stages(p, s, pc)
  {
    hide Crew;
  }

  lemma ErrorsCollected<F>(p: Pool<F>, s: State<F>, pc: ClientPc<F>)
    requires LifeOk(p, s) && pc.Checking? && HolderOk(p, s, pc)
    requires forall i :: 0 <= i < |s.workers| ==> Done(s.workers[i], s.generation)
    ensures s.workerError == None ==> forall t :: t in s.failures ==> t == 0
  {
    hide ChannelHolds, Acceptable, SameBut, Crew;
    forall t | t in s.failures && t != 0 ensures s.workerError.Some? {
      assert t < |Stages(p, s, pc)|;
      assert Done(s.workers[t - 1], s.generation);
    }
  }

  lemma HolderKeptByClient<F>(p: Pool<F>, s: State<F>, t: State<F>, step: Step<F>, c: nat)
    requires p.Valid() && LifeOk(p, s) && s.life == Ready && WorkersOk(s) && CountOk(s)
    requires IsClientStep(step) && ClientMay(p, s, step, c) && t == ClientDo(p, s, step, c)
    requires Holds(s.clients[c]) && HolderOk(p, s, s.clients[c]) && !step.Return?
    requires InFlight(s.clients[c]) <==> s.job.Some?
    ensures c < |t.clients| && Holds(t.clients[c]) && HolderOk(p, t, t.clients[c])
  {
    hide LifeOk, WorkersOk, CountOk, HolderOk, ClientDo, Job<F>.Valid, ShardCount, Acceptable;
    MovesOn(p, s, t, step, c);
    match step
    case FallbackWrite(_) => HolderFallback(p, s, t, step, c);
    case FallbackDone(_) => HolderFallbackDone(p, s, t, step, c);
    case Publish(_) => HolderPublished(p, s, t, step, c);
    case Announce(_) => HolderAnnounced(p, s, t, step, c);
    case OwnWrite(_) => HolderOwnWrite(p, s, t, step, c);
    case OwnFail(_) => HolderOwnEnd(p, s, t, step, c);
    case OwnDone(_) => HolderOwnEnd(p, s, t, step, c);
    case Check(_) =>
      if s.completed == |s.workers| {
        HolderReturns(p, s, t, step, c);
      } else {
        HolderWaits(p, s, t, step, c);
      }
    case ClientWake(_) => HolderWaits(p, s, t, step, c);
    case ClientSpurious(_) => HolderWaits(p, s, t, step, c);
    case _ =>
  }

  lemma MovesOn<F>(p: Pool<F>, s: State<F>, t: State<F>, step: Step<F>, c: nat)
    requires LifeOk(p, s) && IsClientStep(step) && ClientMay(p, s, step, c) && t == ClientDo(p, s, step, c)
    requires Holds(s.clients[c]) && !step.Return?
    ensures c < |t.clients| && Holds(t.clients[c])
  {
    ClientStep(p, s, step, c);
    hide ClientDo;
  }

  /** A step of another client leaves the submission that has submit_mutex_ alone. */
  lemma HolderKeptByOther<F>(p: Pool<F>, s: State<F>, t: State<F>, step: Step<F>, c: nat, pc: ClientPc<F>)
    requires p.Valid() && step.Submit? && ClientMay(p, s, step, c) && t == ClientDo(p, s, step, c)
    requires Holds(pc) && HolderOk(p, s, pc)
    ensures HolderOk(p, t, pc)
  {
    hide InStep, Acceptable, SameBut, Crew;
    HolderSame(p, s, t, pc, pc);
  }

  lemma SubmissionKeptByClient<F>(p: Pool<F>, s: State<F>, t: State<F>, step: Step<F>, c: nat)
    requires p.Valid() && ControlOk(p, s) && SpansOk(s) && SubmissionOk(p, s)
    requires IsClientStep(step) && ClientMay(p, s, step, c) && t == ClientDo(p, s, step, c)
    ensures SubmissionOk(p, t)
  {
    hide HolderOk, ClientDo, WorkersOk, CountOk, NotifyOk, Acceptable, Job<F>.Valid, ShardCount;
    ClientStep(p, s, step, c);
    if t.submitMutex.Some? {
      if t.submitMutex.value != c {
        assert s.clients[c].Idle? && step.Submit?;
        HolderKeptByOther(p, s, t, step, c, s.clients[t.submitMutex.value]);
      } else if step.Acquire? {
        HolderTaken(p, s, t, step, c);
      } else {
        HolderKeptByClient(p, s, t, step, c);
      }
    }
  }

  lemma SubmissionKeptByLife<F>(p: Pool<F>, s: State<F>, t: State<F>)
    requires ControlOk(p, s) && LifeFrame(s, t)
    ensures t.submitMutex == None && SubmissionOk(p, t)
  {
    hide WorkersOk, CountOk, NotifyOk, HolderOk;
  }

  // The spans of waiting submissions, and the log

  ghost predicate SameShape<F>(m: map<nat, seq<F>>, n: map<nat, seq<F>>) {
    m.Keys == n.Keys && forall b :: b in m ==> |m[b]| == |n[b]|
  }

  /** Only the holder of submit_mutex_ and the running workers write memory, and no step changes its shape. */
  lemma ClientMemory<F>(p: Pool<F>, s: State<F>, step: Step<F>, c: nat)
    requires p.Valid() && IsClientStep(step) && ClientMay(p, s, step, c)
    ensures SameShape(s.memory, ClientDo(p, s, step, c).memory)
    ensures !Holds(s.clients[c]) || s.clients[c].Returning? ==> ClientDo(p, s, step, c).memory == s.memory
  {
    if step.FallbackWrite? || step.OwnWrite? {
      hide ShardFirst, ShardCount, Job<F>.Valid, Job<F>.Whole, ShardValue, IsParallel, Position, Acceptable, Wake;
    } else {
      hide *;
      ClientQuiet(p, s, step, c);
    }
  }

  lemma ClientQuiet<F>(p: Pool<F>, s: State<F>, step: Step<F>, c: nat)
    requires p.Valid() && IsClientStep(step) && ClientMay(p, s, step, c) && !step.FallbackWrite? && !step.OwnWrite?
    ensures ClientDo(p, s, step, c).memory == s.memory && SameShape(s.memory, s.memory)
  {
    hide ShardFirst, ShardCount, Job<F>.Valid, Job<F>.Whole, ShardValue, IsParallel, Position, Acceptable, Wake;
    hide Written;
  }

  lemma WorkerMemory<F>(p: Pool<F>, s: State<F>, step: Step<F>, i: nat)
    requires p.Valid() && IsWorkerStep(step) && WorkerMay(p, s, step, i)
    ensures SameShape(s.memory, WorkerDo(p, s, step, i).memory)
    ensures !s.workers[i].pc.Running? ==> WorkerDo(p, s, step, i).memory == s.memory
  {
    hide ShardFirst, ShardCount, Job<F>.Valid, Job<F>.Whole, ShardValue, IsParallel, Position, Acceptable, Wake;
  }

  lemma SpansKeptByWorker<F>(s: State<F>, t: State<F>, i: nat)
    requires SpansOk(s) && WorkerFrame(s, t, i) && SameShape(s.memory, t.memory)
    ensures SpansOk(t)
  {
    hide Job<F>.Valid;
  }

  lemma SpansKeptByClient<F>(p: Pool<F>, s: State<F>, t: State<F>, step: Step<F>, c: nat)
    requires SpansOk(s) && ClientFrame(s, t, c) && SameShape(s.memory, t.memory)
    requires t.clients[c].Waiting? ==> Acceptable(s.memory, t.clients[c].sub)
    ensures SpansOk(t)
  {
    hide Job<F>.Valid;
  }

  lemma SubmitChecked<F>(p: Pool<F>, s: State<F>, t: State<F>, step: Step<F>, c: nat)
    requires p.Valid() && IsClientStep(step) && ClientMay(p, s, step, c) && t == ClientDo(p, s, step, c)
    requires c < |t.clients| && t.clients[c].Waiting?
    ensures Acceptable(s.memory, t.clients[c].sub)
  {
    hide ShardFirst, ShardCount, Job<F>.Valid, Job<F>.Whole, ShardValue, IsParallel, Position, Acceptable, Wake;
  }

  lemma ClientLog<F>(p: Pool<F>, s: State<F>, step: Step<F>, c: nat)
    requires p.Valid() && IsClientStep(step) && ClientMay(p, s, step, c)
    ensures ClientDo(p, s, step, c).log
         == if s.clients[c].Returning? then s.log + [EntryOf(s, s.clients[c], c)] else s.log
    ensures ClientDo(p, s, step, c).committed == if s.clients[c].Waiting? then s.memory else s.committed
  {
    if step.Return? || step.Acquire? {
      hide ShardFirst, ShardCount, Job<F>.Valid, Job<F>.Whole, ShardValue, IsParallel, Position, Acceptable, Wake;
    } else {
      hide *;
      ClientLogSame(p, s, step, c);
    }
  }

  lemma ClientLogSame<F>(p: Pool<F>, s: State<F>, step: Step<F>, c: nat)
    requires p.Valid() && IsClientStep(step) && ClientMay(p, s, step, c) && !step.Return? && !step.Acquire?
    ensures !s.clients[c].Returning? && !s.clients[c].Waiting?
    ensures ClientDo(p, s, step, c).log == s.log && ClientDo(p, s, step, c).committed == s.committed
  {
    hide ShardFirst, ShardCount, Job<F>.Valid, Job<F>.Whole, ShardValue, IsParallel, Position, Acceptable, Wake;
  }

  /** What the log gains when a client gives submit_mutex_ back. */
  lemma LogKeptByClient<F>(p: Pool<F>, start: map<nat, seq<F>>, s: State<F>, t: State<F>, c: nat)
    requires p.Valid() && MutexOk(s) && LogOk(p, start, s) && ClientFrame(s, t, c)
    requires s.clients[c].Returning? ==> EntryOk(p, EntryOf(s, s.clients[c], c))
    requires t.log == if s.clients[c].Returning? then s.log + [EntryOf(s, s.clients[c], c)] else s.log
    requires t.committed == if s.clients[c].Waiting? then s.memory else s.committed
    requires !Holds(s.clients[c]) || s.clients[c].Returning? ==> t.memory == s.memory
    ensures LogOk(p, start, t)
  {
    hide EntryOk, Serial, Latest;
    if s.clients[c].Returning? {
      SerialExtended(p, start, s.log, EntryOf(s, s.clients[c], c));
    }
  }

  lemma SerialExtended<F>(p: Pool<F>, start: map<nat, seq<F>>, log: seq<Entry<F>>, e: Entry<F>)
    requires p.Valid() && Serial(p, start, log) && EntryOk(p, e) && e.before == Latest(start, log)
    ensures Serial(p, start, log + [e]) && Latest(start, log + [e]) == e.after
  {
    hide EntryOk;
    forall k | 0 <= k < |log| + 1
      ensures EntryOk(p, (log + [e])[k]) && (log + [e])[k].before == Latest(start, (log + [e])[..k])
    {
      assert (log + [e])[..k] == log[..k];
    }
  }

  lemma EntrySettled<F>(p: Pool<F>, s: State<F>, pc: ClientPc<F>, c: nat)
    requires p.Valid() && pc.Returning? && HolderOk(p, s, pc)
    requires IsParallel(p.threads, p.minimumWeights, pc.sub.job) ==> |s.copies| + 1 == p.threads && CopiedOnce(s.copies)
    ensures EntryOk(p, EntryOf(s, pc, c))
  {
    hide InStep, Settled;
    AllOver(p.o, pc.sub.job, View(p, s, pc), EntryOf(s, pc, c).threw);
  }

  lemma LogKeptByWorker<F>(p: Pool<F>, start: map<nat, seq<F>>, s: State<F>, t: State<F>, i: nat)
    requires ControlOk(p, s) && LogOk(p, start, s) && WorkerFrame(s, t, i)
    requires !s.workers[i].pc.Running? ==> t.memory == s.memory
    ensures LogOk(p, start, t)
  {
    hide EntryOk, CountOk, NotifyOk;
    assert WorkerOk(s, s.workers[i]);
  }

  // How often each worker has copied the job

  lemma CopiesKeptByWorker<F>(p: Pool<F>, s: State<F>, t: State<F>, i: nat)
    requires ControlOk(p, s) && CopiesOk(p, s) && WorkerFrame(s, t, i)
    ensures CopiesOk(p, t)
  {
    hide CountOk, NotifyOk, IsParallel;
    assert WorkerOk(s, s.workers[i]);
  }

  lemma CopiesKeptByLife<F>(p: Pool<F>, s: State<F>, t: State<F>)
    requires ControlOk(p, s) && CopiesOk(p, s) && LifeFrame(s, t)
    ensures CopiesOk(p, t)
  {
    hide CountOk, NotifyOk, WorkersOk, IsParallel;
  }

  lemma CopiesKeptByClient<F>(p: Pool<F>, s: State<F>, t: State<F>, c: nat)
    requires ControlOk(p, s) && CopiesOk(p, s) && ClientFrame(s, t, c)
    requires s.clients[c].Fallback? ==> !IsParallel(p.threads, p.minimumWeights, s.clients[c].sub.job)
    ensures CopiesOk(p, t)
  {
    if s.clients[c].Checking? && s.completed == |s.workers| {
      EveryoneDone(s);
    }
    forall i | 0 <= i < |s.workers| ensures s.clients[c].Publishing? ==> s.workers[i].observed == s.generation {
      assert WorkerOk(s, s.workers[i]);
    }
    hide CountOk, NotifyOk, WorkersOk, IsParallel;
  }

  /** A submission in the fallback is one that is not divided. */
  lemma FallbackIsScalar<F>(p: Pool<F>, s: State<F>, pc: ClientPc<F>)
    requires p.Valid() && pc.Fallback? && HolderOk(p, s, pc)
    ensures !IsParallel(p.threads, p.minimumWeights, pc.sub.job)
  {
    hide InStep, ErrorsOk, Acceptable, SameBut;
  }

  lemma ClientKept<F>(p: Pool<F>, start: map<nat, seq<F>>, s: State<F>, t: State<F>, step: Step<F>, c: nat)
    requires p.Valid() && Inv(p, start, s) && IsClientStep(step) && ClientMay(p, s, step, c)
    requires t == ClientDo(p, s, step, c)
    ensures SpansOk(t) && CopiesOk(p, t) && SubmissionOk(p, t) && LogOk(p, start, t)
  {
    SubmissionKeptByClient(p, s, t, step, c);
    ClientStep(p, s, step, c);
    ClientMemory(p, s, step, c);
    ClientLog(p, s, step, c);
    hide ClientDo, WorkersOk, CountOk, NotifyOk, HolderOk, SameShape, LogOk, SpansOk, Acceptable, ClientMay, IsParallel;
    if s.clients[c].Fallback? {
      FallbackIsScalar(p, s, s.clients[c]);
    }
    CopiesKeptByClient(p, s, t, c);
    if t.clients[c].Waiting? {
      SubmitChecked(p, s, t, step, c);
    }
    if s.clients[c].Returning? {
      EntrySettled(p, s, s.clients[c], c);
    }
    SpansKeptByClient(p, s, t, step, c);
    LogKeptByClient(p, start, s, t, c);
  }

  lemma WorkerKept<F>(p: Pool<F>, start: map<nat, seq<F>>, s: State<F>, t: State<F>, step: Step<F>, i: nat)
    requires p.Valid() && Inv(p, start, s) && IsWorkerStep(step) && WorkerMay(p, s, step, i)
    requires t == WorkerDo(p, s, step, i)
    ensures SpansOk(t) && CopiesOk(p, t) && SubmissionOk(p, t) && LogOk(p, start, t)
  {
    hide WorkerDo, LifeOk, MutexOk, WorkersOk, CountOk, NotifyOk, HolderOk, SameShape, LogOk, SpansOk;
    hide WorkerMay, SubmissionOk, CopiesOk, WorkerFrame;
    SubmissionKeptByWorker(p, s, t, step, i);
    WorkerStep(p, s, step, i);
    WorkerMemory(p, s, step, i);
    SpansKeptByWorker(s, t, i);
    LogKeptByWorker(p, start, s, t, i);
    CopiesKeptByWorker(p, s, t, i);
  }

  lemma LifeDataKept<F>(p: Pool<F>, start: map<nat, seq<F>>, s: State<F>, t: State<F>)
    requires p.Valid() && Inv(p, start, s) && LifeFrame(s, t)
    ensures SpansOk(t) && CopiesOk(p, t) && SubmissionOk(p, t) && LogOk(p, start, t)
  {
    hide LifeOk, MutexOk, WorkersOk, CountOk, NotifyOk, HolderOk, Serial, Acceptable, CopiesOk;
    SubmissionKeptByLife(p, s, t);
    CopiesKeptByLife(p, s, t);
  }

  /** Every step of every thread keeps the invariant. */
  lemma InvKept<F>(p: Pool<F>, start: map<nat, seq<F>>, s: State<F>, step: Step<F>)
    requires p.Valid() && Inv(p, start, s) && Enabled(p, s, step)
    ensures Inv(p, start, Do(p, s, step))
  {
    hide LifeOk, MutexOk, WorkersOk, CountOk, NotifyOk, CopiesOk, SubmissionOk, LogOk, SpansOk;
    hide LifeMay, ClientMay, WorkerMay, LifeDo, ClientDo, WorkerDo, LifeFrame;
    var t := Do(p, s, step);
    ControlKept(p, s, step);
    if IsLifeStep(step) {
      LifeStep(p, s, step);
      LifeDataKept(p, start, s, t);
    } else if IsWorkerStep(step) {
      WorkerKept(p, start, s, t, step, step.i);
    } else {
      ClientKept(p, start, s, t, step, step.c);
    }
  }
}
