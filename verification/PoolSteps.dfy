/** Every step of every thread keeps the control part of the invariant: who waits, who runs, who is counted. */
module PoolSteps {
  import opened Wrappers
  import opened Shards
  import opened LinearExecutor
  import opened DividedJob
  import opened PoolState
  import opened PoolInvariant

  /** How client c moves from pc to qc, as far as submit_mutex_ and the job go. */
  ghost predicate ClientMoves<F>(s: State<F>, pc: ClientPc<F>, qc: ClientPc<F>) {
    match pc
    case Idle => qc.Waiting?
    case Waiting(_) => (qc.Publishing? || qc.Fallback?) && qc.sub == pc.sub
    case Fallback(_, _) => (qc.Returning? || qc.Fallback?) && qc.sub == pc.sub
    case Publishing(_) => qc.Announcing? && qc.sub == pc.sub
    case Announcing(_) => qc.RunningOwn? && qc.sub == pc.sub
    case RunningOwn(_, _) => (qc.RunningOwn? || qc.Checking?) && qc.sub == pc.sub
    case Checking(_, _) =>
      (if s.completed == |s.workers| then qc.Returning? else qc.Resting? && !qc.notified) && qc.sub == pc.sub
    case Resting(_, _, _) => qc.Checking? && qc.sub == pc.sub
    case Returning(_, _, _) => qc.Idle?
  }

  /** How a step of client c changes everything but the data. */
  ghost predicate ClientFrame<F>(s: State<F>, t: State<F>, c: nat) {
    && c < |s.clients| == |t.clients|
    && var pc, qc := s.clients[c], t.clients[c];
    && t.clients == s.clients[c := qc]
    && ClientMoves(s, pc, qc)
    && t.stopping == s.stopping && t.life == s.life
    && (pc.Idle? ==> s.life == Ready)
    && t.workers == (if pc.Announcing? then Wake(s.workers) else s.workers)
    && (if pc.Publishing? then t.generation != s.generation && t.completed == 0
        else t.generation == s.generation && t.completed == s.completed)
    && (pc.Waiting? ==> s.submitMutex == None)
    && t.submitMutex == (if pc.Waiting? then Some(c) else if pc.Returning? then None else s.submitMutex)
    && t.copies == (if pc.Publishing? then seq(|s.workers|, _ => 0) else s.copies)
    && t.job == (if pc.Publishing? then Some(qc.sub) else if pc.Checking? && qc.Returning? then None else s.job)
  }

  lemma ClientStep<F>(p: Pool<F>, s: State<F>, step: Step<F>, c: nat)
    requires LifeOk(p, s) && IsClientStep(step) && ClientMay(p, s, step, c)
    ensures ClientFrame(s, ClientDo(p, s, step, c), c) && ClientDo(p, s, step, c).generation < p.modulus
  {
    hide *;
    if c < |s.clients| && InFlight(s.clients[c]) {
      FlightStep(p, s, step, c);
    } else {
      GroundStep(p, s, step, c);
    }
  }

  lemma GroundStep<F>(p: Pool<F>, s: State<F>, step: Step<F>, c: nat)
    requires LifeOk(p, s) && IsClientStep(step) && ClientMay(p, s, step, c)
    requires c < |s.clients| ==> !InFlight(s.clients[c])
    ensures ClientFrame(s, ClientDo(p, s, step, c), c) && ClientDo(p, s, step, c).generation < p.modulus
  {
    hide ShardFirst, ShardCount, Job<F>.Valid, Job<F>.Whole, ShardValue, IsParallel, Position, Acceptable, Wake;
  }

  lemma FlightStep<F>(p: Pool<F>, s: State<F>, step: Step<F>, c: nat)
    requires LifeOk(p, s) && IsClientStep(step) && ClientMay(p, s, step, c) && InFlight(s.clients[c])
    ensures ClientFrame(s, ClientDo(p, s, step, c), c) && ClientDo(p, s, step, c).generation < p.modulus
  {
    hide ShardFirst, ShardCount, Job<F>.Valid, Job<F>.Whole, ShardValue, IsParallel, Position, Acceptable, Wake;
  }

  lemma MutexKeptByClient<F>(s: State<F>, t: State<F>, c: nat)
    requires MutexOk(s) && ClientFrame(s, t, c)
    ensures MutexOk(t)
  {
  }

  /** How worker w moves on to v. */
  ghost predicate WorkerMoves<F>(s: State<F>, w: Worker<F>, v: Worker<F>) {
    match w.pc
    case AtLoop =>
      if s.stopping then v == w.(pc := Exited)
      else if w.observed != s.generation then
        v.observed == s.generation
        && (if s.job.Some? then v.pc == Running(s.job.value, 0) else v.pc.RunningCleared?)
      else v == w.(pc := Asleep(false))
    case Running(sub, next) => v == w.(pc := Running(sub, next + 1)) || (v.pc.Finishing? && v == w.(pc := v.pc))
    case Finishing(_) => v == w.(pc := Notifying)
    case Notifying => v == w.(pc := AtLoop)
    case Asleep(_) => v == w.(pc := AtLoop)
    case _ => false
  }

  /** The next step of worker w copies job_. */
  predicate Copies<F>(s: State<F>, w: Worker<F>) {
    w.pc.AtLoop? && !s.stopping && w.observed != s.generation
  }

  /** How a step of worker i changes everything but the data. */
  ghost predicate WorkerFrame<F>(s: State<F>, t: State<F>, i: nat) {
    && i < |s.workers| == |t.workers|
    && t.workers == s.workers[i := t.workers[i]]
    && WorkerMoves(s, s.workers[i], t.workers[i])
    && t.completed == s.completed + (if s.workers[i].pc.Finishing? then 1 else 0)
    && t.copies == (if Copies(s, s.workers[i]) then Counted(s.copies, i) else s.copies)
    && t.submitMutex == s.submitMutex && t.job == s.job && t.generation == s.generation
    && t.stopping == s.stopping && t.life == s.life && t.committed == s.committed && t.log == s.log
    && |t.clients| == |s.clients|
    && (forall c :: 0 <= c < |s.clients| ==>
          || t.clients[c] == s.clients[c]
          || (&& s.workers[i].pc.Notifying? && s.clients[c].Resting?
              && t.clients[c] == s.clients[c].(notified := true)))
    && (s.workers[i].pc.Notifying? && t.clients == s.clients ==>
          forall c :: 0 <= c < |s.clients| && s.clients[c].Resting? ==> s.clients[c].notified)
  }

  lemma WorkerStep<F>(p: Pool<F>, s: State<F>, step: Step<F>, i: nat)
    requires p.Valid() && IsWorkerStep(step) && WorkerMay(p, s, step, i)
    ensures WorkerFrame(s, WorkerDo(p, s, step, i), i)
  {
    hide *;
    if i < |s.workers| && s.workers[i].pc.Running? {
      RunningStep(p, s, step, i);
    } else if i < |s.workers| && s.workers[i].pc.Notifying? {
      NotifyingStep(p, s, step, i);
    } else {
      WaitingStep(p, s, step, i);
    }
  }

  lemma RunningStep<F>(p: Pool<F>, s: State<F>, step: Step<F>, i: nat)
    requires p.Valid() && IsWorkerStep(step) && WorkerMay(p, s, step, i) && s.workers[i].pc.Running?
    ensures WorkerFrame(s, WorkerDo(p, s, step, i), i)
  {
    hide ShardFirst, ShardCount, Job<F>.Valid, Job<F>.Whole, ShardValue, IsParallel, Position, Acceptable, Wake;
  }

  lemma NotifyingStep<F>(p: Pool<F>, s: State<F>, step: Step<F>, i: nat)
    requires p.Valid() && IsWorkerStep(step) && WorkerMay(p, s, step, i) && s.workers[i].pc.Notifying?
    ensures WorkerFrame(s, WorkerDo(p, s, step, i), i)
  {
    hide ShardFirst, ShardCount, Job<F>.Valid, Job<F>.Whole, ShardValue, IsParallel, Position, Acceptable, Wake;
    hide Written;
  }

  lemma WaitingStep<F>(p: Pool<F>, s: State<F>, step: Step<F>, i: nat)
    requires p.Valid() && IsWorkerStep(step) && WorkerMay(p, s, step, i)
    requires i < |s.workers| ==> !s.workers[i].pc.Running? && !s.workers[i].pc.Notifying?
    ensures WorkerFrame(s, WorkerDo(p, s, step, i), i)
  {
    hide ShardFirst, ShardCount, Job<F>.Valid, Job<F>.Whole, ShardValue, IsParallel, Position, Acceptable, Wake;
    hide Written;
  }

  lemma MutexKeptByWorker<F>(s: State<F>, t: State<F>, i: nat)
    requires MutexOk(s) && WorkerFrame(s, t, i)
    ensures MutexOk(t)
  {
  }

  lemma WorkersKeptByWorker<F>(p: Pool<F>, s: State<F>, t: State<F>, i: nat)
    requires LifeOk(p, s) && MutexOk(s) && WorkersOk(s) && WorkerFrame(s, t, i)
    ensures WorkersOk(t)
  {
    assert WorkerOk(s, s.workers[i]);
    forall j | 0 <= j < |t.workers| ensures WorkerOk(t, t.workers[j]) {
      assert WorkerOk(s, s.workers[j]);
    }
  }

  lemma CountKeptByWorker<F>(s: State<F>, t: State<F>, i: nat)
    requires WorkersOk(s) && CountOk(s) && WorkerFrame(s, t, i)
    ensures CountOk(t)
  {
    assert WorkerOk(s, s.workers[i]);
    var f, g := Flags(s.workers, s.generation), Flags(t.workers, s.generation);
    SumUpdate(f, i, g[i]);
    assert g == f[i := g[i]];
  }

  lemma NotifyKeptByWorker<F>(s: State<F>, t: State<F>, i: nat)
    requires MutexOk(s) && NotifyOk(s) && WorkerFrame(s, t, i)
    ensures NotifyOk(t)
  {
    forall c | 0 <= c < |t.clients| && t.clients[c].Resting? && !t.clients[c].notified && t.completed == |t.workers|
      ensures exists j :: 0 <= j < |t.workers| && t.workers[j].pc.Notifying?
    {
      assert t.clients[c] == s.clients[c];
      if s.workers[i].pc.Finishing? {
        assert t.workers[i].pc.Notifying?;
      } else {
        var j :| 0 <= j < |s.workers| && s.workers[j].pc.Notifying?;
        assert j != i ==> t.workers[j].pc.Notifying?;
      }
    }
  }

  lemma WorkersKeptByClient<F>(p: Pool<F>, s: State<F>, t: State<F>, c: nat)
    requires LifeOk(p, s) && MutexOk(s) && WorkersOk(s) && CountOk(s) && ClientFrame(s, t, c)
    ensures WorkersOk(t)
  {
    hide Sum;
    SumOfFlags(Flags(s.workers, s.generation));
    forall i | 0 <= i < |t.workers| ensures WorkerOk(t, t.workers[i]) {
      assert WorkerOk(s, s.workers[i]);
    }
  }

  lemma CountKeptByClient<F>(p: Pool<F>, s: State<F>, t: State<F>, c: nat)
    requires LifeOk(p, s) && MutexOk(s) && WorkersOk(s) && CountOk(s) && ClientFrame(s, t, c)
    ensures CountOk(t)
  {
    var f, g := Flags(s.workers, s.generation), Flags(t.workers, t.generation);
    if s.clients[c].Publishing? {
      forall i | 0 <= i < |g| ensures g[i] == 0 {
        assert WorkerOk(s, s.workers[i]);
      }
      SumOfFlags(g);
    } else {
      assert f == g;
    }
  }

  lemma NotifyKeptByClient<F>(s: State<F>, t: State<F>, c: nat)
    requires MutexOk(s) && NotifyOk(s) && ClientFrame(s, t, c)
    ensures NotifyOk(t)
  {
    forall d | 0 <= d < |t.clients| && t.clients[d].Resting? && !t.clients[d].notified && t.completed == |t.workers|
      ensures exists j :: 0 <= j < |t.workers| && t.workers[j].pc.Notifying?
    {
      var j :| 0 <= j < |s.workers| && s.workers[j].pc.Notifying?;
      assert t.workers[j].pc.Notifying?;
    }
  }

  lemma LifeKeptByClient<F>(p: Pool<F>, s: State<F>, t: State<F>, c: nat)
    requires LifeOk(p, s) && ClientFrame(s, t, c) && t.generation < p.modulus
    ensures LifeOk(p, t)
  {
  }

  /** How a step of the constructor or destructor changes the state. */
  ghost predicate LifeFrame<F>(s: State<F>, t: State<F>) {
    && t == s.(workers := t.workers, stopping := t.stopping, life := t.life, copies := t.copies)
    && t.copies == (if |t.workers| > |s.workers| then s.copies + [0] else s.copies)
    && (|| (s.life == t.life == Building && !t.stopping && t.workers == s.workers + [Worker(0, AtLoop)])
        || (s.life == Building && t.life == Ready && !t.stopping && t.workers == s.workers)
        || (s.life == Building && t.life == Stopping && t.stopping && t.workers == s.workers)
        || (&& s.life == Ready && t.life == Stopping && t.stopping && t.workers == s.workers
            && forall c :: 0 <= c < |s.clients| ==> s.clients[c].Idle?)
        || (s.life == Stopping && t.life == Joining && t.stopping == s.stopping && t.workers == Wake(s.workers))
        || (&& s.life == Joining && t.life == Joined && t.stopping == s.stopping && t.workers == s.workers
            && forall i :: 0 <= i < |s.workers| ==> s.workers[i].pc.Exited?))
  }

  lemma LifeStep<F>(p: Pool<F>, s: State<F>, step: Step<F>)
    requires LifeOk(p, s) && IsLifeStep(step) && LifeMay(p, s, step)
    ensures LifeFrame(s, LifeDo(p, s, step)) && LifeOk(p, LifeDo(p, s, step))
  {
    hide Wake;
  }

  lemma ControlKeptByLife<F>(p: Pool<F>, s: State<F>, t: State<F>)
    requires LifeOk(p, s) && MutexOk(s) && WorkersOk(s) && NotifyOk(s) && LifeFrame(s, t)
    ensures MutexOk(t) && WorkersOk(t) && CountOk(t) && NotifyOk(t)
  {
    forall i | 0 <= i < |t.workers| ensures WorkerOk(t, t.workers[i]) {
      assert i < |s.workers| ==> WorkerOk(s, s.workers[i]);
    }
  }

  lemma LifeKeptByWorker<F>(p: Pool<F>, s: State<F>, t: State<F>, i: nat)
    requires LifeOk(p, s) && WorkerFrame(s, t, i)
    ensures LifeOk(p, t)
  {
  }

  ghost predicate ControlOk<F>(p: Pool<F>, s: State<F>) {
    LifeOk(p, s) && MutexOk(s) && WorkersOk(s) && CountOk(s) && NotifyOk(s)
  }

  lemma ControlKept<F>(p: Pool<F>, s: State<F>, step: Step<F>)
    requires p.Valid() && ControlOk(p, s) && Enabled(p, s, step)
    ensures ControlOk(p, Do(p, s, step))
  {
    hide LifeOk, MutexOk, WorkersOk, CountOk, NotifyOk, LifeMay, ClientMay, WorkerMay, LifeDo, ClientDo, WorkerDo;
    hide WorkerFrame, ClientFrame, LifeFrame;
    var t := Do(p, s, step);
    if IsLifeStep(step) {
      LifeStep(p, s, step);
      ControlKeptByLife(p, s, t);
    } else if IsWorkerStep(step) {
      WorkerStep(p, s, step, step.i);
      LifeKeptByWorker(p, s, t, step.i);
      MutexKeptByWorker(s, t, step.i);
      WorkersKeptByWorker(p, s, t, step.i);
      CountKeptByWorker(s, t, step.i);
      NotifyKeptByWorker(s, t, step.i);
    } else {
      ClientStep(p, s, step, step.c);
      LifeKeptByClient(p, s, t, step.c);
      MutexKeptByClient(s, t, step.c);
      WorkersKeptByClient(p, s, t, step.c);
      CountKeptByClient(p, s, t, step.c);
      NotifyKeptByClient(s, t, step.c);
    }
  }
}
