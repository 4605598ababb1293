/**
 The worker pool never gets stuck: until every submission has returned some thread can take a step that
 lowers a rank, and no step but a new request raises it, however many wakeups are spurious.
 */
module PoolLiveness {
  import opened Wrappers
  import opened Shards
  import opened LinearExecutor
  import opened DividedJob
  import opened PoolState
  import opened PoolInvariant
  import opened PoolSteps
  import opened PoolData

  /** Every step but a new request to the pool and a spurious wakeup. */
  predicate Advances<F>(step: Step<F>) {
    !step.Submit? && !step.Destroy? && !step.ClientSpurious? && !step.WorkerSpurious?
  }

  /** A step of the environment's choosing that no thread has to avoid. */
  predicate Failing<F>(step: Step<F>) {
    step.OwnFail? || step.WorkerFail? || step.SpawnFails?
  }

  /** Every step that advances, but for a test of a wait predicate that finds nothing. */
  predicate Productive<F>(s: State<F>, step: Step<F>) {
    && Advances(step)
    && (step.Test? ==> step.i < |s.workers| && (s.stopping || s.workers[step.i].observed != s.generation))
    && (step.Check? ==> s.completed == |s.workers|)
  }

  /**
   The steps that may raise the rank. It either counts waiting submissions, which only a new request
   makes more, or leaves them out, and then only a client that takes submit_mutex_ raises it.
   */
  predicate Asks<F>(step: Step<F>, waiting: bool) {
    step.Destroy? || (if waiting then step.Submit? else step.Acquire?)
  }

  function Left(total: nat, next: nat): nat {
    if next < total then total - next else 0
  }

  function WorkerRank<F>(w: Worker<F>, generation: nat, job: Option<Submission<F>>, stopping: bool): nat {
    (match w.pc
     case AtLoop => 0
     case Asleep(notified) => if notified then 1 else 0
     case Running(sub, next) => 4 + Left(sub.job.outputs, next)
     case RunningCleared => 0
     case Finishing(_) => 3
     case Notifying => 2
     case Exited => 0)
    + (if stopping && !w.pc.Exited? then 1 else 0)
    + (if job.Some? && w.observed != generation then 5 + job.value.job.outputs else 0)
  }

  function ClientRank<F>(threads: nat, pc: ClientPc<F>, waiting: bool): nat {
    match pc
    case Idle => 0
    case Waiting(sub) => if waiting then 6 + sub.job.outputs + threads + threads * (5 + sub.job.outputs) else 0
    case Fallback(sub, next) => 2 + Left(sub.job.outputs, next)
    case Publishing(sub) => 5 + sub.job.outputs + threads + threads * (5 + sub.job.outputs)
    case Announcing(sub) => 4 + sub.job.outputs + threads
    case RunningOwn(sub, next) => 3 + Left(sub.job.outputs, next)
    case Checking(_, _) => 2
    case Resting(_, _, notified) => if notified then 3 else 2
    case Returning(_, _, _) => 1
  }

  function LifeRank(threads: nat, life: Life, workers: nat): nat {
    match life
    case Building => 3 + 2 * threads + Left(threads, workers)
    case Stopping => 1 + threads
    case Joining => 1
    case _ => 0
  }

  function WorkerRanks<F>(s: State<F>): (r: seq<nat>)
    ensures |r| == |s.workers|
    ensures forall i :: 0 <= i < |r| ==> r[i] == WorkerRank(s.workers[i], s.generation, s.job, s.stopping)
  {
    seq(|s.workers|, (i: nat) requires i < |s.workers| => WorkerRank(s.workers[i], s.generation, s.job, s.stopping))
  }

  function ClientRanks<F>(threads: nat, s: State<F>, waiting: bool): (r: seq<nat>)
    ensures |r| == |s.clients|
    ensures forall c :: 0 <= c < |r| ==> r[c] == ClientRank(threads, s.clients[c], waiting)
  {
    seq(|s.clients|, (c: nat) requires c < |s.clients| => ClientRank(threads, s.clients[c], waiting))
  }

  /** At most this many productive steps are left, but for new requests. */
  function Rank<F>(p: Pool<F>, s: State<F>, waiting: bool): nat {
    Sum(WorkerRanks(s)) + Sum(ClientRanks(p.threads, s, waiting)) + LifeRank(p.threads, s.life, |s.workers|)
  }

  /** A worker whose next step, if it is not spurious, finds nothing to do. */
  predicate Finds<F>(s: State<F>, w: Worker<F>) {
    !(w.pc == Asleep(false)) && (w.pc.AtLoop? ==> s.stopping || w.observed != s.generation)
  }

  lemma WorkerRankMoves<F>(s: State<F>, w: Worker<F>, v: Worker<F>)
    requires WorkerOk(s, w) && WorkerMoves(s, w, v)
    requires w.pc.Running? && v.pc.Running? ==> w.pc.next < w.pc.current.job.outputs
    ensures var was := WorkerRank(w, s.generation, s.job, s.stopping);
            var now := WorkerRank(v, s.generation, s.job, s.stopping);
            if !Finds(s, w) then now == was else if w.pc.Notifying? then now + 2 <= was else now < was
  {
  }

  lemma ClientRankMoves<F>(s: State<F>, threads: nat, pc: ClientPc<F>, qc: ClientPc<F>, waiting: bool)
    requires ClientMoves(s, pc, qc) && (if waiting then !pc.Idle? else !pc.Waiting?)
    requires (pc.Fallback? && qc.Fallback?) || (pc.RunningOwn? && qc.RunningOwn?) ==>
               pc.next < pc.sub.job.outputs && qc.next == pc.next + 1
    requires (pc.Waiting? && qc.Fallback?) || (pc.Announcing? && qc.RunningOwn?) ==> qc.next == 0
    ensures var was, now := ClientRank(threads, pc, waiting), ClientRank(threads, qc, waiting);
            if pc.Idle? || (pc.Resting? && !pc.notified) || qc.Resting? then now == was
            else now < was && (pc.Publishing? ==> now + threads * (5 + pc.sub.job.outputs) < was)
                 && (pc.Announcing? ==> now + threads < was)
  {
  }

  /** What a worker's step does to the clients, and how far a shard may go. */
  lemma WorkerGuards<F>(p: Pool<F>, s: State<F>, step: Step<F>, i: nat) returns (c: nat)
    requires p.Valid() && IsWorkerStep(step) && WorkerMay(p, s, step, i)
    ensures step.WorkerSpurious? <==> s.workers[i].pc == Asleep(false)
    ensures step.WorkerWrite? ==> s.workers[i].pc.next < s.workers[i].pc.current.job.outputs
    ensures !step.WorkerWrite? ==> !WorkerDo(p, s, step, i).workers[i].pc.Running? || !s.workers[i].pc.Running?
    ensures var t := WorkerDo(p, s, step, i);
            || t.clients == s.clients
            || (&& s.workers[i].pc.Notifying? && c < |s.clients| && s.clients[c].Resting?
                && t.clients == s.clients[c := s.clients[c].(notified := true)])
  {
    c := 0;
    if step.WorkerWrite? {
      var job := s.workers[i].pc.current.job;
      ShardInRange(job.outputs, p.threads, i + 1, job.inputs);
    } else if step.NotifyOne? && step.target.Some? {
      c := step.target.value;
    }
    hide ShardFirst, ShardCount, Job<F>.Valid, Job<F>.Whole, ShardValue, Position;
  }

  lemma WorkersRankByWorker<F>(s: State<F>, t: State<F>, i: nat)
    requires WorkersOk(s) && WorkerFrame(s, t, i)
    requires s.workers[i].pc.Running? && t.workers[i].pc.Running? ==>
               s.workers[i].pc.next < s.workers[i].pc.current.job.outputs
    ensures |t.workers| == |s.workers| && t.life == s.life
    ensures var was, now := Sum(WorkerRanks(s)), Sum(WorkerRanks(t));
            if !Finds(s, s.workers[i]) then now == was
            else if s.workers[i].pc.Notifying? then now + 2 <= was else now < was
  {
    assert WorkerOk(s, s.workers[i]);
    hide WorkersOk, WorkerOk, WorkerRank, Sum, WorkerMoves, Finds;
    WorkerRankMoves(s, s.workers[i], t.workers[i]);
    var f, g := WorkerRanks(s), WorkerRanks(t);
    assert g == f[i := g[i]];
    SumUpdate(f, i, g[i]);
  }

  lemma ClientsRankByWorker<F>(threads: nat, s: State<F>, t: State<F>, c: nat, waiting: bool)
    requires || t.clients == s.clients
             || (&& c < |s.clients| && s.clients[c].Resting?
                 && t.clients == s.clients[c := s.clients[c].(notified := true)])
    ensures var was, now := Sum(ClientRanks(threads, s, waiting)), Sum(ClientRanks(threads, t, waiting));
            now <= was + 1 && (t.clients == s.clients ==> now == was)
  {
    hide Sum;
    var h, k := ClientRanks(threads, s, waiting), ClientRanks(threads, t, waiting);
    if t.clients == s.clients {
      assert h == k;
    } else {
      assert k == h[c := k[c]];
      SumUpdate(h, c, k[c]);
    }
  }

  lemma RankByWorker<F>(p: Pool<F>, s: State<F>, t: State<F>, step: Step<F>, i: nat, waiting: bool)
    requires p.Valid() && WorkersOk(s) && IsWorkerStep(step) && WorkerMay(p, s, step, i) && t == WorkerDo(p, s, step, i)
    ensures if Finds(s, s.workers[i]) then Rank(p, t, waiting) < Rank(p, s, waiting)
            else Rank(p, t, waiting) == Rank(p, s, waiting)
  {
    WorkerStep(p, s, step, i);
    var c := WorkerGuards(p, s, step, i);
    hide WorkerDo, WorkerMay, WorkersOk, WorkerFrame, Sum, WorkerRanks, ClientRanks, LifeRank;
    WorkersRankByWorker(s, t, i);
    ClientsRankByWorker(p.threads, s, t, c, waiting);
  }

  lemma ClientGuards<F>(p: Pool<F>, s: State<F>, step: Step<F>, c: nat)
    requires p.Valid() && IsClientStep(step) && ClientMay(p, s, step, c)
    ensures step.ClientSpurious? <==> s.clients[c].Resting? && !s.clients[c].notified
    ensures step.Submit? <==> s.clients[c].Idle?
    ensures var pc, qc := s.clients[c], ClientDo(p, s, step, c).clients[c];
            && ((pc.Fallback? && qc.Fallback?) || (pc.RunningOwn? && qc.RunningOwn?) ==>
                  pc.next < pc.sub.job.outputs && qc.next == pc.next + 1)
            && ((pc.Waiting? && qc.Fallback?) || (pc.Announcing? && qc.RunningOwn?) ==> qc.next == 0)
  {
    if step.OwnWrite? {
      var job := s.clients[c].sub.job;
      ShardInRange(job.outputs, p.threads, 0, job.inputs);
    }
    hide ShardFirst, ShardCount, Job<F>.Valid, Job<F>.Whole, ShardValue, Position, IsParallel, Wake, Acceptable;
  }

  /** What publishing, announcing and clearing a job add to the ranks of the workers. */
  lemma WorkersRankByClient<F>(s: State<F>, t: State<F>, c: nat)
    requires MutexOk(s) && WorkersOk(s) && CountOk(s) && ClientFrame(s, t, c)
    ensures var pc, n := s.clients[c], |s.workers|;
            if pc.Publishing? then Sum(WorkerRanks(t)) <= Sum(WorkerRanks(s)) + (5 + pc.sub.job.outputs) * n
            else if pc.Announcing? then Sum(WorkerRanks(t)) <= Sum(WorkerRanks(s)) + n
            else WorkerRanks(t) == WorkerRanks(s)
  {
    var pc := s.clients[c];
    var d := if pc.Publishing? then 5 + pc.sub.job.outputs else if pc.Announcing? then 1 else 0;
    var f, g := WorkerRanks(s), WorkerRanks(t);
    if t.job == None && s.job.Some? {
      EveryoneDone(s);
    }
    hide Sum, CountOk, Flags;
    forall i | 0 <= i < |f| ensures if d == 0 then g[i] == f[i] else g[i] <= f[i] + d {
      assert WorkerOk(s, s.workers[i]);
    }
    if d > 0 {
      SumBound(f, g, d);
    }
  }

  lemma ClientsRankByClient<F>(p: Pool<F>, s: State<F>, t: State<F>, step: Step<F>, c: nat, waiting: bool)
    requires LifeOk(p, s) && IsClientStep(step) && step.c == c && ClientMay(p, s, step, c)
    requires t == ClientDo(p, s, step, c)
    requires !Asks(step, waiting)
    ensures |t.workers| == |s.workers| <= p.threads && t.life == s.life
    ensures var was, now := Sum(ClientRanks(p.threads, s, waiting)), Sum(ClientRanks(p.threads, t, waiting));
            var pc := s.clients[c];
            if !Productive(s, step) then now == was && !pc.Publishing? && !pc.Announcing?
            else now < was && (pc.Publishing? ==> now + p.threads * (5 + pc.sub.job.outputs) < was)
                 && (pc.Announcing? ==> now + p.threads < was)
  {
    ClientStep(p, s, step, c);
    ClientGuards(p, s, step, c);
    ClientProduces(p, s, t, step, c);
    hide ClientDo, ClientMay, ClientRank, ClientRanks, Sum, Productive, Asks, ClientMoves, LifeOk;
    ClientRankMoves(s, p.threads, s.clients[c], t.clients[c], waiting);
    ClientRankUpdate(p.threads, s, t, c, waiting);
  }

  lemma ClientRankUpdate<F>(threads: nat, s: State<F>, t: State<F>, c: nat, waiting: bool)
    requires c < |s.clients| == |t.clients| && t.clients == s.clients[c := t.clients[c]]
    ensures Sum(ClientRanks(threads, t, waiting)) + ClientRank(threads, s.clients[c], waiting)
         == Sum(ClientRanks(threads, s, waiting)) + ClientRank(threads, t.clients[c], waiting)
  {
    hide Sum, ClientRank;
    var f, g := ClientRanks(threads, s, waiting), ClientRanks(threads, t, waiting);
    assert g == f[c := g[c]];
    SumUpdate(f, c, g[c]);
  }

  lemma ClientProduces<F>(p: Pool<F>, s: State<F>, t: State<F>, step: Step<F>, c: nat)
    requires LifeOk(p, s) && IsClientStep(step) && step.c == c && ClientMay(p, s, step, c)
    requires t == ClientDo(p, s, step, c)
    ensures c < |t.clients|
    ensures !Productive(s, step) <==> || s.clients[c].Idle? || t.clients[c].Resting?
                                      || (s.clients[c].Resting? && !s.clients[c].notified)
    ensures step.Acquire? <==> s.clients[c].Waiting?
  {
    ClientStep(p, s, step, c);
    hide ShardCount, Job<F>.Valid, Acceptable, ClientDo, IsParallel;
  }

  lemma RankByClient<F>(p: Pool<F>, s: State<F>, t: State<F>, step: Step<F>, c: nat, waiting: bool)
    requires ControlOk(p, s) && IsClientStep(step) && step.c == c && ClientMay(p, s, step, c)
    requires t == ClientDo(p, s, step, c)
    requires !Asks(step, waiting)
    ensures if Productive(s, step) then Rank(p, t, waiting) < Rank(p, s, waiting)
            else Rank(p, t, waiting) == Rank(p, s, waiting)
  {
    ClientStep(p, s, step, c);
    ClientsRankByClient(p, s, t, step, c, waiting);
    WorkersRankByClient(s, t, c);
    hide ClientDo, ClientMay, ClientFrame, WorkersOk, MutexOk, CountOk, NotifyOk, LifeOk, ClientRank, Sum, Productive;
    var pc := s.clients[c];
    if pc.Publishing? {
      ProductGrows(|s.workers|, p.threads, 5 + pc.sub.job.outputs);
    }
  }

  lemma ProductGrows(n: nat, m: nat, d: nat)
    requires n <= m
    ensures d * n <= m * d
  {
    assert (m - n) * d >= 0;
  }

  lemma RankByLife<F>(p: Pool<F>, s: State<F>, t: State<F>, waiting: bool)
    requires LifeOk(p, s) && LifeFrame(s, t) && s.life != Ready
    ensures Rank(p, t, waiting) < Rank(p, s, waiting)
  {
    assert ClientRanks(p.threads, t, waiting) == ClientRanks(p.threads, s, waiting);
    hide ClientRanks, Sum;
    var f, g := WorkerRanks(s), WorkerRanks(t);
    if |t.workers| == |s.workers| {
      SumBound(f, g, if t.stopping == s.stopping && t.workers == s.workers then 0 else 1);
    } else {
      assert g == f + [0];
      SumAppend(f, 0);
    }
  }

  lemma SumAppend(s: seq<nat>, v: nat)
    ensures Sum(s + [v]) == Sum(s) + v
  {
    assert (s + [v])[..|s|] == s;
  }

  lemma WorkerProduces<F>(p: Pool<F>, s: State<F>, step: Step<F>, i: nat)
    requires p.Valid() && IsWorkerStep(step) && step.i == i && WorkerMay(p, s, step, i)
    ensures Productive(s, step) <==> Finds(s, s.workers[i])
  {
    hide ShardCount, Job<F>.Valid;
  }

  lemma RankByOwner<F>(p: Pool<F>, s: State<F>, step: Step<F>, waiting: bool)
    requires LifeOk(p, s) && IsLifeStep(step) && LifeMay(p, s, step) && !step.Destroy?
    ensures Productive(s, step) && Rank(p, LifeDo(p, s, step), waiting) < Rank(p, s, waiting)
  {
    LifeStep(p, s, step);
    hide LifeOk, LifeDo, LifeFrame, Rank;
    RankByLife(p, s, LifeDo(p, s, step), waiting);
  }

  /** A productive step lowers the rank, and any other step but a new request leaves it as it is. */
  lemma RankStep<F>(p: Pool<F>, start: map<nat, seq<F>>, s: State<F>, step: Step<F>, waiting: bool)
    requires p.Valid() && Inv(p, start, s) && Enabled(p, s, step) && !Asks(step, waiting)
    ensures if Productive(s, step) then Rank(p, Do(p, s, step), waiting) < Rank(p, s, waiting)
            else Rank(p, Do(p, s, step), waiting) == Rank(p, s, waiting)
  {
    hide LifeOk, MutexOk, WorkersOk, CountOk, NotifyOk, CopiesOk, SubmissionOk, LogOk, SpansOk, Rank, Productive;
    hide LifeMay, WorkerMay, ClientMay, LifeDo, WorkerDo, ClientDo, Finds;
    if IsLifeStep(step) {
      RankByOwner(p, s, step, waiting);
    } else if IsWorkerStep(step) {
      RankByWorker(p, s, Do(p, s, step), step, step.i, waiting);
      WorkerProduces(p, s, step, step.i);
    } else {
      RankByClient(p, s, Do(p, s, step), step, step.c, waiting);
    }
  }

  /** How many steps of a run are productive. */
  ghost function ProductiveCount<F>(p: Pool<F>, s: State<F>, steps: seq<Step<F>>): nat
    requires p.Valid() && IsRun(p, s, steps)
    decreases |steps|
  {
    if steps == [] then 0
    else (if Productive(s, steps[0]) then 1 else 0) + ProductiveCount(p, Do(p, s, steps[0]), steps[1..])
  }

  /**
   A run without new requests takes at most Rank productive steps, however many spurious wakeups it has.
   Leaving out the submissions that wait, so does a run in which clients go on submitting.
   */
  lemma {:induction false} RunsEnd<F>(p: Pool<F>, start: map<nat, seq<F>>, s: State<F>, steps: seq<Step<F>>,
                                      waiting: bool)
    requires p.Valid() && Inv(p, start, s) && IsRun(p, s, steps)
    requires forall k :: 0 <= k < |steps| ==> !Asks(steps[k], waiting)
    ensures ProductiveCount(p, s, steps) + Rank(p, EndOf(p, s, steps), waiting) <= Rank(p, s, waiting)
    decreases |steps|
  {
    hide Inv, Rank, Do, Enabled, Asks, Productive;
    if steps != [] {
      InvKept(p, start, s, steps[0]);
      RankStep(p, start, s, steps[0], waiting);
      RunsEnd(p, start, Do(p, s, steps[0]), steps[1..], waiting);
    }
  }

  // Which thread can always help

  datatype Thread = Owner | ClientThread(c: nat) | WorkerThread(i: nat)

  /** The thread that takes a step; the owner builds and destroys the pool. */
  function ThreadOf<F>(step: Step<F>): Thread {
    if IsLifeStep(step) then Owner else if IsWorkerStep(step) then WorkerThread(step.i) else ClientThread(step.c)
  }

  /** A worker that can move, and whose every next step is productive. */
  predicate Busy<F>(s: State<F>, w: Worker<F>) {
    || w.pc.Running? || w.pc.Finishing? || w.pc.Notifying? || (w.pc.Asleep? && w.pc.notified)
    || (w.pc.AtLoop? && (s.stopping || w.observed != s.generation))
  }

  /** The same of the client that has submit_mutex_. */
  predicate Acting<F>(s: State<F>, pc: ClientPc<F>) {
    && Holds(pc)
    && (pc.Resting? ==> pc.notified)
    && (pc.Checking? ==> s.completed == |s.workers|)
  }

  predicate Able<F>(s: State<F>, thread: Thread) {
    match thread
    case Owner =>
      || s.life == Building || s.life == Stopping
      || (s.life == Joining && forall i :: 0 <= i < |s.workers| ==> s.workers[i].pc.Exited?)
    case WorkerThread(i) => i < |s.workers| && Busy(s, s.workers[i])
    case ClientThread(c) => c < |s.clients| && Acting(s, s.clients[c])
  }

  /** A submission has submit_mutex_, or the pool is being built or stopped. */
  predicate Pending<F>(s: State<F>) {
    s.submitMutex.Some? || (s.life != Ready && s.life != Joined)
  }

  /** While the submitter waits for the workers, one of them has yet to act. */
  lemma SomeWorkerActs<F>(s: State<F>, c: nat) returns (i: nat)
    requires MutexOk(s) && WorkersOk(s) && CountOk(s) && NotifyOk(s) && !s.stopping
    requires c < |s.clients| && Holds(s.clients[c]) && !Acting(s, s.clients[c])
    ensures i < |s.workers| && Busy(s, s.workers[i])
  {
    assert s.submitMutex == Some(c) && s.job.Some?;
    if s.completed == |s.workers| {
      i :| 0 <= i < |s.workers| && s.workers[i].pc.Notifying?;
    } else {
      SumOfFlags(Flags(s.workers, s.generation));
      i :| 0 <= i < |s.workers| && !Done(s.workers[i], s.generation);
      assert WorkerOk(s, s.workers[i]);
    }
  }

  lemma SomeoneAble<F>(p: Pool<F>, start: map<nat, seq<F>>, s: State<F>) returns (thread: Thread)
    requires p.Valid() && Inv(p, start, s) && Pending(s)
    ensures Able(s, thread)
  {
    hide CopiesOk, SubmissionOk, LogOk, CountOk, NotifyOk, SpansOk;
    thread := Owner;
    if s.life == Joining {
      if i :| 0 <= i < |s.workers| && !s.workers[i].pc.Exited? {
        assert WorkerOk(s, s.workers[i]);
        thread := WorkerThread(i);
      }
    } else if s.life == Ready {
      var c := s.submitMutex.value;
      if Acting(s, s.clients[c]) {
        thread := ClientThread(c);
      } else {
        var i := SomeWorkerActs(s, c);
        thread := WorkerThread(i);
      }
    }
  }

  /** A thread that can help can do so until it does: no step of another thread takes that away. */
  lemma AbleStays<F>(p: Pool<F>, start: map<nat, seq<F>>, s: State<F>, step: Step<F>, thread: Thread)
    requires p.Valid() && Inv(p, start, s) && Enabled(p, s, step) && ThreadOf(step) != thread && Able(s, thread)
    ensures Able(Do(p, s, step), thread)
  {
    var t := Do(p, s, step);
    hide MutexOk, WorkersOk, CountOk, NotifyOk, CopiesOk, SubmissionOk, LogOk, SpansOk, Able;
    hide LifeDo, WorkerDo, ClientDo, LifeFrame, WorkerFrame, ClientFrame;
    if IsLifeStep(step) {
      LifeStep(p, s, step);
      AbleStaysByLife(p, s, t, thread);
    } else if IsWorkerStep(step) {
      WorkerStep(p, s, step, step.i);
      AbleStaysByWorker(p, s, t, step.i, thread);
    } else {
      ClientStep(p, s, step, step.c);
      AbleStaysByClient(p, s, t, step.c, thread);
    }
  }

  lemma AbleStaysByLife<F>(p: Pool<F>, s: State<F>, t: State<F>, thread: Thread)
    requires ControlOk(p, s) && LifeFrame(s, t) && thread != Owner && Able(s, thread)
    ensures Able(t, thread)
  {
    hide CountOk, NotifyOk, WorkersOk, MutexOk;
  }

  lemma AbleStaysByWorker<F>(p: Pool<F>, s: State<F>, t: State<F>, i: nat, thread: Thread)
    requires ControlOk(p, s) && WorkerFrame(s, t, i) && thread != WorkerThread(i) && Able(s, thread)
    ensures Able(t, thread)
  {
    if thread.ClientThread? && s.clients[thread.c].Checking? {
      EveryoneDone(s);
    }
    hide CountOk, NotifyOk, WorkersOk, LifeOk;
  }

  lemma AbleStaysByClient<F>(p: Pool<F>, s: State<F>, t: State<F>, c: nat, thread: Thread)
    requires ControlOk(p, s) && ClientFrame(s, t, c) && thread != ClientThread(c) && Able(s, thread)
    ensures Able(t, thread)
  {
    if thread.WorkerThread? {
      assert WorkerOk(s, s.workers[thread.i]);
    }
    hide CountOk, NotifyOk, WorkersOk, LifeOk;
  }

  /** Whatever step such a thread takes is productive. */
  lemma AbleProduces<F>(p: Pool<F>, s: State<F>, step: Step<F>)
    requires p.Valid() && Enabled(p, s, step) && Able(s, ThreadOf(step))
    ensures Productive(s, step)
  {
    hide ShardCount, Job<F>.Valid, Acceptable;
  }

  /** And it has one to take that is no failure. */
  lemma AbleMoves<F>(p: Pool<F>, start: map<nat, seq<F>>, s: State<F>, thread: Thread) returns (step: Step<F>)
    requires p.Valid() && Inv(p, start, s) && Able(s, thread)
    ensures Enabled(p, s, step) && ThreadOf(step) == thread && Productive(s, step) && !Failing(step)
  {
    hide CopiesOk, SubmissionOk, LogOk, CountOk, NotifyOk;
    match thread
    case Owner =>
      step := if s.life == Stopping then NotifyStop
              else if s.life == Joining then Join
              else if |s.workers| + 1 < p.threads then Spawn
              else Built;
    case WorkerThread(i) =>
      step := WorkerMoving(p, s, i);
    case ClientThread(c) =>
      step := HolderMoving(p, s, c);
  }

  lemma WorkerMoving<F>(p: Pool<F>, s: State<F>, i: nat) returns (step: Step<F>)
    requires LifeOk(p, s) && WorkersOk(s) && MutexOk(s) && SpansOk(s) && i < |s.workers| && Busy(s, s.workers[i])
    ensures Enabled(p, s, step) && ThreadOf(step) == WorkerThread(i) && Productive(s, step) && !Failing(step)
  {
    assert WorkerOk(s, s.workers[i]);
    var pc := s.workers[i].pc;
    if pc.Notifying? {
      step := NotifyOne(i, None);
      if c :| 0 <= c < |s.clients| && s.clients[c].Resting? && !s.clients[c].notified {
        step := NotifyOne(i, Some(c));
      }
    } else {
      step :=
        if pc.AtLoop? then Test(i)
        else if pc.Asleep? then WorkerWake(i)
        else if pc.Finishing? then CountDone(i)
        else if pc.next < ShardCount(pc.current.job.outputs, p.threads, i + 1) then WorkerWrite(i)
        else WorkerDone(i);
    }
  }

  lemma HolderMoving<F>(p: Pool<F>, s: State<F>, c: nat) returns (step: Step<F>)
    requires LifeOk(p, s) && SpansOk(s) && c < |s.clients| && Acting(s, s.clients[c])
    ensures Enabled(p, s, step) && ThreadOf(step) == ClientThread(c) && Productive(s, step) && !Failing(step)
  {
    var pc := s.clients[c];
    step := match pc
      case Fallback(sub, next) => if next < sub.job.outputs then FallbackWrite(c) else FallbackDone(c)
      case Publishing(_) => Publish(c)
      case Announcing(_) => Announce(c)
      case RunningOwn(sub, next) => if next < ShardCount(sub.job.outputs, p.threads, 0) then OwnWrite(c) else OwnDone(c)
      case Checking(_, _) => Check(c)
      case Resting(_, _, _) => ClientWake(c)
      case _ => Return(c);
  }

  /** Nothing is asked of the pool, and it is neither being built nor being stopped. */
  predicate Quiet<F>(s: State<F>) {
    (s.life == Ready || s.life == Joined) && forall c :: 0 <= c < |s.clients| ==> s.clients[c].Idle?
  }

  /** No deadlock: short of quiet, some thread can take a productive step that is no failure. */
  lemma NoDeadlock<F>(p: Pool<F>, start: map<nat, seq<F>>, s: State<F>) returns (step: Step<F>)
    requires p.Valid() && Inv(p, start, s) && !Quiet(s)
    ensures Enabled(p, s, step) && Productive(s, step) && !Failing(step)
  {
    hide CopiesOk, SubmissionOk, LogOk, CountOk, NotifyOk, SpansOk, WorkersOk;
    if Pending(s) {
      var thread := SomeoneAble(p, start, s);
      step := AbleMoves(p, start, s, thread);
    } else {
      var c :| 0 <= c < |s.clients| && !s.clients[c].Idle?;
      step := Acquire(c);
    }
  }

  /** From every reachable state the pool can run until every submission has returned, or the pool is joined. */
  lemma {:induction false} Drain<F>(p: Pool<F>, start: map<nat, seq<F>>, s: State<F>) returns (steps: seq<Step<F>>)
    requires p.Valid() && Inv(p, start, s)
    ensures IsRun(p, s, steps) && Quiet(EndOf(p, s, steps)) && Inv(p, start, EndOf(p, s, steps))
    ensures forall k :: 0 <= k < |steps| ==> Advances(steps[k]) && !Failing(steps[k])
    decreases Rank(p, s, true)
  {
    hide Inv, Rank, Do, Enabled, Quiet;
    steps := [];
    if !Quiet(s) {
      var step := NoDeadlock(p, start, s);
      InvKept(p, start, s, step);
      RankStep(p, start, s, step, true);
      var rest := Drain(p, start, Do(p, s, step));
      steps := [step] + rest;
      assert steps[1..] == rest;
    }
  }
}
