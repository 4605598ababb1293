/** What holds of every run of the worker pool, from construction on. */
module PoolProtocol {
  import opened Wrappers
  import opened Matrices
  import opened Reference
  import opened Shards
  import opened LinearExecutor
  import opened DividedJob
  import opened PoolState
  import opened PoolInvariant
  import opened PoolData
  import opened PoolLiveness

  lemma {:induction false} RunKept<F>(p: Pool<F>, start: map<nat, seq<F>>, s: State<F>, steps: seq<Step<F>>)
    requires p.Valid() && Inv(p, start, s) && IsRun(p, s, steps)
    ensures Inv(p, start, EndOf(p, s, steps))
    decreases |steps|
  {
    hide Inv, Do, Enabled;
    if steps != [] {
      InvKept(p, start, s, steps[0]);
      RunKept(p, start, Do(p, s, steps[0]), steps[1..]);
    }
  }

  /** A state that some run of the pool reaches. */
  ghost predicate Reached<F>(p: Pool<F>, clients: nat, start: map<nat, seq<F>>, steps: seq<Step<F>>, s: State<F>)
    requires p.Valid()
  {
    IsRun(p, Initial(clients, start), steps) && s == EndOf(p, Initial(clients, start), steps)
  }

  lemma ReachedOk<F>(p: Pool<F>, clients: nat, start: map<nat, seq<F>>, steps: seq<Step<F>>, s: State<F>)
    requires p.Valid() && Reached(p, clients, start, steps, s)
    ensures Inv(p, start, s)
  {
    hide Inv, IsRun, EndOf;
    InitialOk(p, clients, start);
    RunKept(p, start, Initial(clients, start), steps);
  }

  /**
   The submissions of a run take effect one after another. One that returns normally has replaced its
   output span by the scalar result of its whole job and changed nothing else; every channel was
   written once, by the one thread that owns it.
   */
  lemma SubmissionsSerial<F>(p: Pool<F>, clients: nat, start: map<nat, seq<F>>, steps: seq<Step<F>>, s: State<F>,
                             k: nat)
    requires p.Valid() && Reached(p, clients, start, steps, s) && k < |s.log|
    ensures var e := s.log[k];
            && e.before == (if k == 0 then start else s.log[k - 1].after)
            && e.sub.job.Valid() && e.sub.buffer in e.before
            && (e.threw == None ==>
                  var job := e.sub.job;
                  && e.after == e.before[e.sub.buffer :=
                                  LinearRow(p.o, job.input, Rows(job.weight, job.outputs, job.inputs), job.bias)]
                  && |e.writers| == job.outputs
                  && forall c :: 0 <= c < job.outputs ==>
                       |e.writers[c]| == 1 && Owns(job.outputs, Crew(p, job), e.writers[c][0], c))
  {
    ReachedOk(p, clients, start, steps, s);
    EntryAt(p, start, s, k);
    hide *;
    PreviousEntry(start, s.log, k);
    EntrySizes(p, s.log[k]);
    if s.log[k].threw == None {
      EntryWhole(p, s.log[k]);
    }
  }

  lemma PreviousEntry<F>(start: map<nat, seq<F>>, log: seq<Entry<F>>, k: nat)
    requires k < |log|
    ensures Latest(start, log[..k]) == if k == 0 then start else log[k - 1].after
  {
  }

  lemma EntrySizes<F>(p: Pool<F>, e: Entry<F>)
    requires p.Valid() && EntryOk(p, e)
    ensures |e.writers| == e.sub.job.outputs && e.sub.job.Valid() && e.sub.buffer in e.before
  {
  }

  /** A submission that returned normally. */
  lemma EntryWhole<F>(p: Pool<F>, e: Entry<F>)
    requires p.Valid() && EntryOk(p, e) && e.threw == None
    ensures e.sub.job.Valid() && |e.writers| == e.sub.job.outputs
    ensures e.after == e.before[e.sub.buffer := LinearRow(p.o, e.sub.job.input,
                                  Rows(e.sub.job.weight, e.sub.job.outputs, e.sub.job.inputs), e.sub.job.bias)]
    ensures forall c :: 0 <= c < e.sub.job.outputs ==>
              |e.writers[c]| == 1 && Owns(e.sub.job.outputs, Crew(p, e.sub.job), e.writers[c][0], c)
  {
    EntrySizes(p, e);
    hide Settled, Crew, Owns, Job<F>.Valid;
    SettledWhole(p.o, e.sub.job, Crew(p, e.sub.job), e.failures, e.writers,
                 e.before[e.sub.buffer], e.after[e.sub.buffer]);
    assert e.after == e.before[e.sub.buffer := e.after[e.sub.buffer]];
  }

  lemma EntryAt<F>(p: Pool<F>, start: map<nat, seq<F>>, s: State<F>, k: nat)
    requires p.Valid() && Inv(p, start, s) && k < |s.log|
    ensures EntryOk(p, s.log[k]) && s.log[k].before == Latest(start, s.log[..k])
  {
    hide LifeOk, MutexOk, WorkersOk, CountOk, NotifyOk, CopiesOk, SubmissionOk, SpansOk, EntryOk;
  }

  /**
   A submission throws exactly when a shard of that very job failed; the exception is that of a failed
   shard, the caller's own if its shard failed. Even then the shards that did not fail are complete, a
   failed one has written the channels before the one it failed at, and no other span has changed.
   */
  lemma FailuresReported<F>(p: Pool<F>, clients: nat, start: map<nat, seq<F>>, steps: seq<Step<F>>, s: State<F>, k: nat)
    requires p.Valid() && Reached(p, clients, start, steps, s) && k < |s.log|
    ensures var e := s.log[k];
            && (e.threw.Some? <==> e.failures != map[])
            && (e.threw.Some? ==> e.threw.value in e.failures)
            && (0 in e.failures ==> e.threw == Some(0))
            && (e.threw.Some? ==> IsParallel(p.threads, p.minimumWeights, e.sub.job))
            && (forall t :: t in e.failures ==> t < Crew(p, e.sub.job))
    ensures EntryOk(p, s.log[k])
  {
    ReachedOk(p, clients, start, steps, s);
    EntryAt(p, start, s, k);
    hide Inv;
  }

  /** What linear reports for a finished submission. */
  function OutcomeOf<F>(e: Entry<F>): Outcome {
    if e.threw == None then Pass else Fail(ShardFailure)
  }

  /** Every submission of every run has the effect that a session takes one call of linear to have. */
  lemma SubmissionEffect<F>(p: Pool<F>, clients: nat, start: map<nat, seq<F>>, steps: seq<Step<F>>, s: State<F>, k: nat)
    requires p.Valid() && Reached(p, clients, start, steps, s) && k < |s.log|
    ensures var e := s.log[k];
            && e.sub.job.Valid() && e.sub.buffer in e.before && e.sub.buffer in e.after
            && Effect(p.o, p.threads, p.minimumWeights, e.sub.job, e.failures,
                      e.before[e.sub.buffer], e.after[e.sub.buffer], OutcomeOf(e))
  {
    ReachedOk(p, clients, start, steps, s);
    EntryAt(p, start, s, k);
    hide Inv, IsRun, EndOf, Reached, Owns;
    var e := s.log[k];
    SettledShown(p.o, e.sub.job, Crew(p, e.sub.job), e.threw, e.failures, e.writers,
                 e.before[e.sub.buffer], e.after[e.sub.buffer]);
    if e.threw == None {
      SettledWhole(p.o, e.sub.job, Crew(p, e.sub.job), e.failures, e.writers,
                   e.before[e.sub.buffer], e.after[e.sub.buffer]);
    }
  }

  /**
   A job's spans are borrowed only while its submission is in flight: a thread in run_shard has the job
   of the one client between publishing it and clearing it, which is job_ itself.
   */
  lemma BorrowsEnd<F>(p: Pool<F>, clients: nat, start: map<nat, seq<F>>, steps: seq<Step<F>>, s: State<F>, i: nat)
    requires p.Valid() && Reached(p, clients, start, steps, s) && i < |s.workers|
    ensures !s.workers[i].pc.RunningCleared?
    ensures s.workers[i].pc.Running? ==>
              && s.submitMutex.Some? && s.submitMutex.value < |s.clients|
              && InFlight(s.clients[s.submitMutex.value])
              && s.clients[s.submitMutex.value].sub == s.workers[i].pc.current
              && s.job == Some(s.workers[i].pc.current)
    ensures forall c :: 0 <= c < |s.clients| && (s.clients[c].Returning? || s.clients[c].Fallback?) ==>
              !s.workers[i].pc.Running? && !s.workers[i].pc.Finishing?
  {
    ReachedOk(p, clients, start, steps, s);
    hide LifeOk, CountOk, NotifyOk, CopiesOk, SubmissionOk, SpansOk, LogOk, IsRun, EndOf;
    assert WorkerOk(s, s.workers[i]);
    forall c | 0 <= c < |s.clients| && (s.clients[c].Returning? || s.clients[c].Fallback?)
      ensures !s.workers[i].pc.Running? && !s.workers[i].pc.Finishing?
    {
      assert s.submitMutex == Some(c) by { assert Holds(s.clients[c]); }
    }
  }

  /**
   Each worker runs each published job exactly once, for every modulus of generation_: in every reachable
   state it has copied the job at most once since publication, and once exactly when it has observed the
   generation; when a divided submission is about to return, failed or not, each worker has copied it,
   and so the log says of every finished one.
   */
  lemma EachRunsOnce<F>(p: Pool<F>, clients: nat, start: map<nat, seq<F>>, steps: seq<Step<F>>, s: State<F>)
    requires p.Valid() && Reached(p, clients, start, steps, s)
    ensures |s.copies| == |s.workers| && forall i :: 0 <= i < |s.workers| ==> s.copies[i] <= 1
    ensures s.job.Some? ==> forall i :: 0 <= i < |s.workers| ==>
              s.copies[i] == if s.workers[i].observed == s.generation then 1 else 0
    ensures forall c :: 0 <= c < |s.clients| && Collected(p, s.clients[c]) ==>
              |s.copies| + 1 == p.threads && CopiedOnce(s.copies)
    ensures forall k :: 0 <= k < |s.log| && IsParallel(p.threads, p.minimumWeights, s.log[k].sub.job) ==>
              |s.log[k].copies| + 1 == p.threads && CopiedOnce(s.log[k].copies)
  {
    ReachedOk(p, clients, start, steps, s);
    hide MutexOk, WorkersOk, CountOk, NotifyOk, SubmissionOk, SpansOk, IsRun, EndOf, IsParallel;
    forall k | 0 <= k < |s.log| && IsParallel(p.threads, p.minimumWeights, s.log[k].sub.job)
      ensures |s.log[k].copies| + 1 == p.threads && CopiedOnce(s.log[k].copies)
    {
      EntryAt(p, start, s, k);
    }
  }

  /** While a job is published, completed_ counts the workers that are through with this generation. */
  lemma CompletedCounts<F>(p: Pool<F>, clients: nat, start: map<nat, seq<F>>, steps: seq<Step<F>>, s: State<F>)
    requires p.Valid() && Reached(p, clients, start, steps, s) && s.job.Some?
    ensures s.completed == Sum(Flags(s.workers, s.generation)) <= |s.workers|
    ensures s.completed == |s.workers| <==> forall i :: 0 <= i < |s.workers| ==> Done(s.workers[i], s.generation)
    ensures forall i :: 0 <= i < |s.workers| && s.workers[i].observed != s.generation ==>
              s.workers[i].pc.AtLoop? || s.workers[i].pc.Asleep? || s.workers[i].pc.Notifying?
  {
    hide LifeOk, NotifyOk, CopiesOk, SubmissionOk, SpansOk, LogOk, IsRun, EndOf, Reached, Sum;
    ReachedOk(p, clients, start, steps, s);
    SumOfFlags(Flags(s.workers, s.generation));
    forall i | 0 <= i < |s.workers| && s.workers[i].observed != s.generation
      ensures s.workers[i].pc.AtLoop? || s.workers[i].pc.Asleep? || s.workers[i].pc.Notifying?
    {
      assert WorkerOk(s, s.workers[i]);
    }
  }

  /**
   No wakeup is lost: a worker asleep with a generation still to see, or with the pool stopping, has been
   or is about to be notified; so has a submitter asleep though every worker is done.
   */
  lemma WakeupsKept<F>(p: Pool<F>, clients: nat, start: map<nat, seq<F>>, steps: seq<Step<F>>, s: State<F>)
    requires p.Valid() && Reached(p, clients, start, steps, s)
    ensures forall i :: 0 <= i < |s.workers| && s.workers[i].pc == Asleep(false)
                        && s.workers[i].observed != s.generation ==>
              exists c :: 0 <= c < |s.clients| && s.clients[c].Announcing?
    ensures forall i :: 0 <= i < |s.workers| && s.workers[i].pc == Asleep(false) && s.stopping ==> s.life == Stopping
    ensures forall c :: 0 <= c < |s.clients| && s.clients[c].Resting? && s.completed == |s.workers| ==>
              s.clients[c].notified || exists i :: 0 <= i < |s.workers| && s.workers[i].pc.Notifying?
  {
    ReachedOk(p, clients, start, steps, s);
    hide LifeOk, CountOk, CopiesOk, SubmissionOk, SpansOk, LogOk, IsRun, EndOf;
    forall i | 0 <= i < |s.workers| && s.workers[i].pc == Asleep(false)
      ensures s.stopping ==> s.life == Stopping
      ensures s.workers[i].observed != s.generation ==> exists c :: 0 <= c < |s.clients| && s.clients[c].Announcing?
    {
      assert WorkerOk(s, s.workers[i]);
      if s.workers[i].observed != s.generation {
        assert s.clients[s.submitMutex.value].Announcing?;
      }
    }
  }

  /** Stopping drops no job: it begins with nothing published, and every worker has exited when it ends. */
  lemma StoppingDropsNothing<F>(p: Pool<F>, clients: nat, start: map<nat, seq<F>>, steps: seq<Step<F>>, s: State<F>)
    requires p.Valid() && Reached(p, clients, start, steps, s) && s.stopping
    ensures s.job == None && s.submitMutex == None
    ensures forall c :: 0 <= c < |s.clients| ==> s.clients[c].Idle?
    ensures s.life == Joined ==> forall i :: 0 <= i < |s.workers| ==> s.workers[i].pc.Exited?
  {
    ReachedOk(p, clients, start, steps, s);
    hide CountOk, NotifyOk, CopiesOk, SubmissionOk, SpansOk, LogOk, IsRun, EndOf;
    forall i | 0 <= i < |s.workers| ensures s.life == Joined ==> s.workers[i].pc.Exited? {
      assert WorkerOk(s, s.workers[i]);
    }
  }

  /**
   Every submission returns and every shutdown ends: from any reachable state, the productive steps of a
   run without new requests are at most the rank, however many wakeups are spurious; the same holds with
   clients going on to submit, for the submission that has submit_mutex_. A run is stuck only when the
   pool is quiet, and can get there without any failure.
   */
  lemma EverythingFinishes<F>(p: Pool<F>, clients: nat, start: map<nat, seq<F>>, steps: seq<Step<F>>, s: State<F>,
                              more: seq<Step<F>>, waiting: bool) returns (last: seq<Step<F>>)
    requires p.Valid() && Reached(p, clients, start, steps, s) && IsRun(p, s, more)
    requires forall k :: 0 <= k < |more| ==> !Asks(more[k], waiting)
    ensures ProductiveCount(p, s, more) <= Rank(p, s, waiting)
    ensures !Quiet(EndOf(p, s, more)) ==>
              exists step :: && Enabled(p, EndOf(p, s, more), step)
                             && Productive(EndOf(p, s, more), step) && !Failing(step)
    ensures IsRun(p, EndOf(p, s, more), last) && Quiet(EndOf(p, EndOf(p, s, more), last))
    ensures forall k :: 0 <= k < |last| ==> Advances(last[k]) && !Failing(last[k])
  {
    hide Inv, Reached, IsRun, EndOf, Rank, Enabled, Quiet, Asks, Productive;
    ReachedOk(p, clients, start, steps, s);
    RunsEnd(p, start, s, more, waiting);
    RunKept(p, start, s, more);
    if !Quiet(EndOf(p, s, more)) {
      var step := NoDeadlock(p, start, EndOf(p, s, more));
    }
    last := Drain(p, start, EndOf(p, s, more));
  }
}
