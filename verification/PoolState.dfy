/**
 The worker pool as a transition system. A block of code under state_mutex_ is one step; a shard
 writes one output channel per step; a condition variable is the set of threads asleep on it, each
 with a flag that says a notification has reached it. Any thread may take the next step.
 */
module PoolState {
  import opened Wrappers
  import opened Words
  import opened Arithmetic
  import opened Shards
  import opened DividedJob
  import opened LinearExecutor

  /** A validated call of linear: the job, and the buffer its output span refers to. */
  datatype Submission<F> = Submission(buffer: nat, job: Job<F>)

  /** What worker_loop is about to do. */
  datatype WorkerPc<F> =
    | AtLoop                                       // lock state_mutex_ and test the wait predicate
    | Asleep(notified: bool)                       // in work_ready_.wait
    | Running(current: Submission<F>, next: nat)   // in run_shard, with next channels written
    | RunningCleared                               // would be running a job_ that was cleared
    | Finishing(failed: bool)                      // lock state_mutex_ and count itself
    | Notifying                                    // call work_done_.notify_one
    | Exited

  datatype Worker<F> = Worker(observed: nat, pc: WorkerPc<F>)

  /** What a client is about to do in linear. */
  datatype ClientPc<F> =
    | Idle
    | Waiting(sub: Submission<F>)                                  // for submit_mutex_
    | Fallback(sub: Submission<F>, next: nat)                      // the scalar kernel, under submit_mutex_
    | Publishing(sub: Submission<F>)                               // set job_, completed_, worker_error_, generation_
    | Announcing(sub: Submission<F>)                               // work_ready_.notify_all
    | RunningOwn(sub: Submission<F>, next: nat)                    // run_shard(current, 0)
    | Checking(sub: Submission<F>, failed: bool)                   // lock and test completed_
    | Resting(sub: Submission<F>, failed: bool, notified: bool)    // in work_done_.wait
    | Returning(sub: Submission<F>, failed: bool, workerError: Option<nat>)

  datatype Life = Building | Ready | Stopping | Joining | Joined

  /**
   A finished submission: the shard whose exception linear rethrew, if it threw; the shards that failed;
   who wrote each channel; how often each worker copied job_ since the last publication; and all of
   memory when it took and when it gave back submit_mutex_.
   */
  datatype Entry<F> = Entry(client: nat, sub: Submission<F>, threw: Option<nat>, failures: Faults,
                            writers: seq<seq<nat>>, copies: seq<nat>,
                            before: map<nat, seq<F>>, after: map<nat, seq<F>>)

  datatype State<F> = State(
    workers: seq<Worker<F>>,
    clients: seq<ClientPc<F>>,
    submitMutex: Option<nat>,
    job: Option<Submission<F>>,
    generation: nat,
    completed: nat,
    workerError: Option<nat>,      // the shard whose exception is stored
    stopping: bool,
    life: Life,
    memory: map<nat, seq<F>>,
    // History, which no thread reads.
    committed: map<nat, seq<F>>,   // memory when submit_mutex_ was last taken
    writers: seq<seq<nat>>,        // which threads wrote each channel of the submission in progress
    failures: Faults,            // which shards of it have failed
    copies: seq<nat>,              // how often each worker has copied job_ since it was last published
    log: seq<Entry<F>>)

  /** The executor's constants; generation_ counts modulo modulus. */
  datatype Pool<!F> = Pool(o: Ops<F>, threads: Word, minimumWeights: nat, modulus: nat) {
    predicate Valid() {
      threads > 0 && modulus >= 2
    }
  }

  datatype Step<F> =
    // constructor and destructor
    | Spawn | Built | SpawnFails | Destroy | NotifyStop | Join
    // client c
    | Submit(c: nat, sub: Submission<F>) | Acquire(c: nat) | FallbackWrite(c: nat) | FallbackDone(c: nat)
    | Publish(c: nat) | Announce(c: nat) | OwnWrite(c: nat) | OwnFail(c: nat) | OwnDone(c: nat)
    | Check(c: nat) | ClientWake(c: nat) | ClientSpurious(c: nat) | Return(c: nat)
    // worker i, which runs shard i + 1
    | Test(i: nat) | WorkerWrite(i: nat) | WorkerFail(i: nat) | WorkerDone(i: nat) | CountDone(i: nat)
    | NotifyOne(i: nat, target: Option<nat>) | WorkerWake(i: nat) | WorkerSpurious(i: nat)

  /** No worker yet, nothing submitted. */
  function Initial<F>(clients: nat, memory: map<nat, seq<F>>): State<F> {
    State([], seq(clients, _ => Idle), None, None, 0, 0, None, false, Building, memory, memory, [], map[], [], [])
  }

  /** The checks linear makes before it takes submit_mutex_. */
  ghost predicate Acceptable<F>(memory: map<nat, seq<F>>, sub: Submission<F>) {
    sub.job.Valid() && sub.buffer in memory && |memory[sub.buffer]| == sub.job.outputs
  }

  function Wake<F>(workers: seq<Worker<F>>): (woken: seq<Worker<F>>)
    ensures |woken| == |workers|
    ensures forall i :: 0 <= i < |workers| ==>
              woken[i] == if workers[i].pc.Asleep? then workers[i].(pc := Asleep(true)) else workers[i]
  {
    seq(|workers|, (i: nat) requires i < |workers| =>
      if workers[i].pc.Asleep? then workers[i].(pc := Asleep(true)) else workers[i])
  }

  /** Thread t writes its channel at position ch of a submission's output span. */
  ghost function Written<F>(s: State<F>, sub: Submission<F>, ch: nat, value: F, thread: nat): State<F> {
    if sub.buffer in s.memory && ch < |s.memory[sub.buffer]| && ch < |s.writers| then
      s.(memory := s.memory[sub.buffer := s.memory[sub.buffer][ch := value]],
         writers := s.writers[ch := s.writers[ch] + [thread]])
    else s
  }

  function SetClient<F>(s: State<F>, c: nat, pc: ClientPc<F>): State<F>
    requires c < |s.clients|
  {
    s.(clients := s.clients[c := pc])
  }

  function SetWorker<F>(s: State<F>, i: nat, pc: WorkerPc<F>): State<F>
    requires i < |s.workers|
  {
    s.(workers := s.workers[i := s.workers[i].(pc := pc)])
  }

  /** What a client that gives submit_mutex_ back leaves in the log. */
  function EntryOf<F>(s: State<F>, pc: ClientPc<F>, c: nat): Entry<F>
    requires pc.Returning?
  {
    Entry(c, pc.sub, if pc.failed then Some(0) else pc.workerError, s.failures, s.writers, s.copies,
          s.committed, s.memory)
  }

  /** One more at position i. */
  function Counted(counts: seq<nat>, i: nat): seq<nat> {
    if i < |counts| then counts[i := counts[i] + 1] else counts
  }

  ghost predicate ClientMay<F>(p: Pool<F>, s: State<F>, step: Step<F>, c: nat)
    requires p.Valid()
  {
    c < |s.clients| &&
    var pc := s.clients[c];
    match step
    case Submit(_, sub) => pc.Idle? && s.life == Ready && Acceptable(s.memory, sub)
    case Acquire(_) => pc.Waiting? && s.submitMutex == None
    case FallbackWrite(_) => pc.Fallback? && pc.sub.job.Valid() && pc.next < pc.sub.job.outputs
    case FallbackDone(_) => pc.Fallback? && pc.next >= pc.sub.job.outputs
    case Publish(_) => pc.Publishing?
    case Announce(_) => pc.Announcing?
    case OwnWrite(_) => pc.RunningOwn? && pc.sub.job.Valid() && pc.next < ShardCount(pc.sub.job.outputs, p.threads, 0)
    case OwnFail(_) => pc.RunningOwn?
    case OwnDone(_) => pc.RunningOwn? && pc.next >= ShardCount(pc.sub.job.outputs, p.threads, 0)
    case Check(_) => pc.Checking?
    case ClientWake(_) => pc.Resting? && pc.notified
    case ClientSpurious(_) => pc.Resting? && !pc.notified
    case Return(_) => pc.Returning?
    case _ => false
  }

  ghost predicate WorkerMay<F>(p: Pool<F>, s: State<F>, step: Step<F>, i: nat)
    requires p.Valid()
  {
    i < |s.workers| && i + 1 < p.threads &&
    var pc := s.workers[i].pc;
    match step
    case Test(_) => pc.AtLoop?
    case WorkerWrite(_) =>
      pc.Running? && pc.current.job.Valid() && pc.next < ShardCount(pc.current.job.outputs, p.threads, i + 1)
    case WorkerFail(_) => pc.Running?
    case WorkerDone(_) => pc.Running? && pc.next >= ShardCount(pc.current.job.outputs, p.threads, i + 1)
    case CountDone(_) => pc.Finishing?
    case NotifyOne(_, target) =>
      // notify_one reaches some thread that waits; with none waiting it is lost.
      pc.Notifying? &&
      (match target
       case Some(c) => c < |s.clients| && s.clients[c].Resting? && !s.clients[c].notified
       case None => forall c :: 0 <= c < |s.clients| ==> !(s.clients[c].Resting? && !s.clients[c].notified))
    case WorkerWake(_) => pc.Asleep? && pc.notified
    case WorkerSpurious(_) => pc.Asleep? && !pc.notified
    case _ => false
  }

  ghost predicate LifeMay<F>(p: Pool<F>, s: State<F>, step: Step<F>) {
    match step
    case Spawn => s.life == Building && |s.workers| + 1 < p.threads
    case Built => s.life == Building && |s.workers| + 1 == p.threads
    case SpawnFails => s.life == Building && |s.workers| + 1 < p.threads
    case Destroy => s.life == Ready && forall c :: 0 <= c < |s.clients| ==> s.clients[c].Idle?
    case NotifyStop => s.life == Stopping
    case Join => s.life == Joining && forall i :: 0 <= i < |s.workers| ==> s.workers[i].pc.Exited?
    case _ => false
  }

  predicate IsLifeStep<F>(step: Step<F>) {
    step.Spawn? || step.Built? || step.SpawnFails? || step.Destroy? || step.NotifyStop? || step.Join?
  }

  predicate IsClientStep<F>(step: Step<F>) {
    !IsLifeStep(step) && !IsWorkerStep(step)
  }

  predicate IsWorkerStep<F>(step: Step<F>) {
    || step.Test? || step.WorkerWrite? || step.WorkerFail? || step.WorkerDone? || step.CountDone?
    || step.NotifyOne? || step.WorkerWake? || step.WorkerSpurious?
  }

  ghost predicate Enabled<F>(p: Pool<F>, s: State<F>, step: Step<F>)
    requires p.Valid()
  {
    if IsLifeStep(step) then LifeMay(p, s, step)
    else if IsWorkerStep(step) then WorkerMay(p, s, step, step.i)
    else ClientMay(p, s, step, step.c)
  }

  ghost function LifeDo<F>(p: Pool<F>, s: State<F>, step: Step<F>): State<F>
    requires p.Valid() && IsLifeStep(step)
  {
    match step
    case Spawn => s.(workers := s.workers + [Worker(0, AtLoop)], copies := s.copies + [0])
    case Built => s.(life := Ready)
    case SpawnFails => s.(life := Stopping, stopping := true)
    case Destroy => s.(life := Stopping, stopping := true)
    case NotifyStop => s.(life := Joining, workers := Wake(s.workers))
    case Join => s.(life := Joined)
  }

  ghost function ClientDo<F>(p: Pool<F>, s: State<F>, step: Step<F>, c: nat): State<F>
    requires p.Valid() && IsClientStep(step) && ClientMay(p, s, step, c)
  {
    var pc := s.clients[c];
    match step
    case Submit(_, sub) => SetClient(s, c, Waiting(sub))
    case Acquire(_) =>
      SetClient(s, c, if IsParallel(p.threads, p.minimumWeights, pc.sub.job) then Publishing(pc.sub)
                      else Fallback(pc.sub, 0))
        .(submitMutex := Some(c), committed := s.memory, writers := seq(pc.sub.job.outputs, _ => []), failures := map[])
    case FallbackWrite(_) =>
      Written(SetClient(s, c, Fallback(pc.sub, pc.next + 1)), pc.sub, pc.next, pc.sub.job.Whole(p.o)[pc.next], 0)
    case FallbackDone(_) => SetClient(s, c, Returning(pc.sub, false, None))
    case Publish(_) =>
      SetClient(s, c, Announcing(pc.sub))
        .(job := Some(pc.sub), completed := 0, workerError := None, generation := (s.generation + 1) % p.modulus,
          copies := seq(|s.workers|, _ => 0))
    case Announce(_) => SetClient(s, c, RunningOwn(pc.sub, 0)).(workers := Wake(s.workers))
    case OwnWrite(_) =>
      Written(SetClient(s, c, RunningOwn(pc.sub, pc.next + 1)), pc.sub,
              Position(pc.sub.job, p.threads, 0, pc.next), ShardValue(p.o, pc.sub.job, p.threads, 0, pc.next), 0)
    case OwnFail(_) => SetClient(s, c, Checking(pc.sub, true)).(failures := s.failures[0 := pc.next])
    case OwnDone(_) => SetClient(s, c, Checking(pc.sub, false))
    case Check(_) =>
      if s.completed == |s.workers| then
        SetClient(s, c, Returning(pc.sub, pc.failed, s.workerError)).(job := None)
      else SetClient(s, c, Resting(pc.sub, pc.failed, false))
    case ClientWake(_) => SetClient(s, c, Checking(pc.sub, pc.failed))
    case ClientSpurious(_) => SetClient(s, c, Checking(pc.sub, pc.failed))
    case Return(_) =>
      SetClient(s, c, Idle)
        .(submitMutex := None,
          log := s.log + [EntryOf(s, pc, c)])
  }

  ghost function WorkerDo<F>(p: Pool<F>, s: State<F>, step: Step<F>, i: nat): State<F>
    requires p.Valid() && IsWorkerStep(step) && WorkerMay(p, s, step, i)
  {
    var w := s.workers[i];
    match step
    case Test(_) =>
      if s.stopping then SetWorker(s, i, Exited)
      else if s.generation != w.observed then
        s.(workers := s.workers[i := Worker(s.generation, match s.job
                                                          case Some(sub) => Running(sub, 0)
                                                          case None => RunningCleared)],
           copies := Counted(s.copies, i))
      else SetWorker(s, i, Asleep(false))
    case WorkerWrite(_) =>
      Written(SetWorker(s, i, Running(w.pc.current, w.pc.next + 1)), w.pc.current,
              Position(w.pc.current.job, p.threads, i + 1, w.pc.next),
              ShardValue(p.o, w.pc.current.job, p.threads, i + 1, w.pc.next), i + 1)
    case WorkerFail(_) => SetWorker(s, i, Finishing(true)).(failures := s.failures[i + 1 := w.pc.next])
    case WorkerDone(_) => SetWorker(s, i, Finishing(false))
    case CountDone(_) =>
      SetWorker(s, i, Notifying)
        .(workerError := if w.pc.failed && s.workerError == None then Some(i + 1) else s.workerError,
          completed := s.completed + 1)
    case NotifyOne(_, target) =>
      var s' := SetWorker(s, i, AtLoop);
      (match target
       case Some(c) => SetClient(s', c, s.clients[c].(notified := true))
       case None => s')
    case WorkerWake(_) => SetWorker(s, i, AtLoop)
    case WorkerSpurious(_) => SetWorker(s, i, AtLoop)
  }

  ghost function Do<F>(p: Pool<F>, s: State<F>, step: Step<F>): State<F>
    requires p.Valid() && Enabled(p, s, step)
  {
    if IsLifeStep(step) then LifeDo(p, s, step)
    else if IsWorkerStep(step) then WorkerDo(p, s, step, step.i)
    else ClientDo(p, s, step, step.c)
  }

  /** A finite run: every step is enabled where it is taken. */
  ghost predicate IsRun<F>(p: Pool<F>, s: State<F>, steps: seq<Step<F>>)
    requires p.Valid()
    decreases |steps|
  {
    steps == [] || (Enabled(p, s, steps[0]) && IsRun(p, Do(p, s, steps[0]), steps[1..]))
  }

  ghost function EndOf<F>(p: Pool<F>, s: State<F>, steps: seq<Step<F>>): State<F>
    requires p.Valid() && IsRun(p, s, steps)
    decreases |steps|
  {
    if steps == [] then s else EndOf(p, Do(p, s, steps[0]), steps[1..])
  }
}
