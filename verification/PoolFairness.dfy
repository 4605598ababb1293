/**
 Infinite runs of the worker pool. Under weak fairness of the threads every submission that has
 submit_mutex_ returns, with any number of spurious wakeups and of requests by other clients, and every
 shutdown ends; if the mutex is fair as well, every submission returns.
 */
module PoolFairness {
  import opened Wrappers
  import opened Shards
  import opened PoolState
  import opened PoolInvariant
  import opened PoolSteps
  import opened PoolData
  import opened PoolLiveness

  /** At each moment one thread takes a step, or nothing happens. */
  type Run<!F> = nat -> Option<Step<F>>

  ghost function After<F>(p: Pool<F>, s: State<F>, move: Option<Step<F>>): State<F>
    requires p.Valid()
  {
    if move.Some? && Enabled(p, s, move.value) then Do(p, s, move.value) else s
  }

  ghost function StateAt<F>(p: Pool<F>, s: State<F>, run: Run<F>, n: nat): State<F>
    requires p.Valid()
  {
    if n == 0 then s else After(p, StateAt(p, s, run, n - 1), run(n - 1))
  }

  /** Every step of the run is enabled where it is taken. */
  ghost predicate IsSchedule<F(!new)>(p: Pool<F>, s: State<F>, run: Run<F>)
    requires p.Valid()
  {
    forall n: nat :: run(n).Some? ==> Enabled(p, StateAt(p, s, run, n), run(n).value)
  }

  /** The thread can take a step that is no new request and no spurious wakeup. */
  ghost predicate CanMove<F(!new)>(p: Pool<F>, s: State<F>, thread: Thread)
    requires p.Valid()
  {
    exists step: Step<F> :: ThreadOf(step) == thread && Enabled(p, s, step) && Advances(step)
  }

  predicate Moves<F>(move: Option<Step<F>>, thread: Thread) {
    move.Some? && ThreadOf(move.value) == thread
  }

  ghost predicate Served<F(!new)>(p: Pool<F>, s: State<F>, run: Run<F>, thread: Thread, n: nat)
    requires p.Valid()
  {
    !CanMove(p, StateAt(p, s, run, n), thread) || Moves(run(n), thread)
  }

  ghost predicate ServedAfter<F(!new)>(p: Pool<F>, s: State<F>, run: Run<F>, thread: Thread, n: nat)
    requires p.Valid()
  {
    exists m: nat :: m >= n && Served(p, s, run, thread, m)
  }

  /** Weak fairness: a thread that could move from some moment on moves; it is never passed over for ever. */
  ghost predicate Fair<F(!new)>(p: Pool<F>, s: State<F>, run: Run<F>, thread: Thread)
    requires p.Valid()
  {
    forall n: nat :: ServedAfter(p, s, run, thread, n)
  }

  /** A fair run from a state that satisfies the invariant. */
  ghost predicate FairRun<F(!new)>(p: Pool<F>, start: map<nat, seq<F>>, s: State<F>, run: Run<F>) {
    && p.Valid() && Inv(p, start, s) && IsSchedule(p, s, run)
    && forall thread :: Fair(p, s, run, thread)
  }

  lemma {:induction false} InvAt<F(!new)>(p: Pool<F>, start: map<nat, seq<F>>, s: State<F>, run: Run<F>, n: nat)
    requires p.Valid() && Inv(p, start, s)
    ensures Inv(p, start, StateAt(p, s, run, n))
  {
    hide Inv, Do, Enabled;
    if n > 0 {
      InvAt(p, start, s, run, n - 1);
      if run(n - 1).Some? && Enabled(p, StateAt(p, s, run, n - 1), run(n - 1).value) {
        InvKept(p, start, StateAt(p, s, run, n - 1), run(n - 1).value);
      }
    }
  }

  lemma NextState<F(!new)>(p: Pool<F>, s: State<F>, run: Run<F>, n: nat)
    requires p.Valid() && IsSchedule(p, s, run)
    ensures run(n) == None ==> StateAt(p, s, run, n + 1) == StateAt(p, s, run, n)
    ensures run(n).Some? ==> && Enabled(p, StateAt(p, s, run, n), run(n).value)
                             && StateAt(p, s, run, n + 1) == Do(p, StateAt(p, s, run, n), run(n).value)
  {
    hide Enabled, Do;
  }

  /** While something is pending, nobody takes submit_mutex_ and nobody destroys the pool. */
  lemma PendingStep<F>(p: Pool<F>, start: map<nat, seq<F>>, s: State<F>, step: Step<F>)
    requires p.Valid() && Inv(p, start, s) && Pending(s) && Enabled(p, s, step)
    ensures !Asks(step, false)
  {
    hide WorkersOk, CountOk, NotifyOk, CopiesOk, SubmissionOk, LogOk, SpansOk, WorkerMay;
    if s.submitMutex.Some? {
      assert Holds(s.clients[s.submitMutex.value]);
    }
  }

  lemma AbleCanMove<F(!new)>(p: Pool<F>, start: map<nat, seq<F>>, s: State<F>, thread: Thread)
    requires p.Valid() && Inv(p, start, s) && Able(s, thread)
    ensures CanMove(p, s, thread)
  {
    hide Inv, Enabled, Able;
    var step := AbleMoves(p, start, s, thread);
  }

  /** Nothing is pending at k, or something of lower rank than at n, and something was all the way there. */
  ghost predicate Progressed<F(!new)>(p: Pool<F>, s: State<F>, run: Run<F>, n: nat, k: nat)
    requires p.Valid()
  {
    && n < k
    && (forall j :: n <= j < k ==> Pending(StateAt(p, s, run, j)))
    && (Pending(StateAt(p, s, run, k)) ==>
          Rank(p, StateAt(p, s, run, k), false) < Rank(p, StateAt(p, s, run, n), false))
  }

  /** A thread that can help is served by moment m; the rank has fallen by then. */
  lemma {:induction false} HelpComes<F(!new)>(p: Pool<F>, start: map<nat, seq<F>>, s: State<F>, run: Run<F>, n: nat,
                                              m: nat, thread: Thread) returns (k: nat)
    requires p.Valid() && Inv(p, start, StateAt(p, s, run, n)) && IsSchedule(p, s, run)
    requires n <= m && Served(p, s, run, thread, m)
    requires Pending(StateAt(p, s, run, n)) && Able(StateAt(p, s, run, n), thread)
    ensures Progressed(p, s, run, n, k)
    decreases m - n
  {
    hide Inv, Enabled, Do, Able, Pending, Rank, IsSchedule, Asks, Productive, CanMove, StateAt;
    var now, next := StateAt(p, s, run, n), StateAt(p, s, run, n + 1);
    NextState(p, s, run, n);
    AbleCanMove(p, start, now, thread);
    k := n + 1;
    if run(n) == None {
      k := HelpComes(p, start, s, run, n + 1, m, thread);
    } else {
      var step := run(n).value;
      PendingStep(p, start, now, step);
      RankStep(p, start, now, step, false);
      InvKept(p, start, now, step);
      if ThreadOf(step) == thread {
        AbleProduces(p, now, step);
      } else if Pending(next) {
        AbleStays(p, start, now, step, thread);
        k := HelpComes(p, start, s, run, n + 1, m, thread);
      }
    }
  }

  lemma ServedMoment<F(!new)>(p: Pool<F>, s: State<F>, run: Run<F>, thread: Thread, n: nat) returns (m: nat)
    requires p.Valid() && Fair(p, s, run, thread)
    ensures n <= m && Served(p, s, run, thread, m)
  {
    hide Served;
    assert ServedAfter(p, s, run, thread, n);
    m :| m >= n && Served(p, s, run, thread, m);
  }

  /** On a fair run nothing stays pending: the submission returns, or the construction or shutdown ends. */
  lemma {:induction false} Settles<F(!new)>(p: Pool<F>, start: map<nat, seq<F>>, s: State<F>, run: Run<F>, n: nat)
    returns (m: nat)
    requires FairRun(p, start, s, run)
    ensures n <= m && !Pending(StateAt(p, s, run, m))
    ensures forall j :: n <= j < m ==> Pending(StateAt(p, s, run, j))
    decreases Rank(p, StateAt(p, s, run, n), false)
  {
    hide Inv, Able, Pending, Rank, IsSchedule, StateAt, Served, Fair;
    m := n;
    if Pending(StateAt(p, s, run, n)) {
      InvAt(p, start, s, run, n);
      var thread := SomeoneAble(p, start, StateAt(p, s, run, n));
      assert Fair(p, s, run, thread);
      var served := ServedMoment(p, s, run, thread, n);
      m := HelpComes(p, start, s, run, n, served, thread);
      if Pending(StateAt(p, s, run, m)) {
        m := Settles(p, start, s, run, m);
      }
    }
  }

  /** submit_mutex_ is given up by its holder's return and in no other way. */
  lemma MutexKeptUntilReturn<F>(p: Pool<F>, start: map<nat, seq<F>>, s: State<F>, step: Step<F>, c: nat)
    requires p.Valid() && Inv(p, start, s) && Enabled(p, s, step) && s.submitMutex == Some(c)
    ensures Do(p, s, step).submitMutex == Some(c) || step == Return(c)
  {
    hide WorkersOk, CountOk, NotifyOk, CopiesOk, SubmissionOk, LogOk, SpansOk;
    if IsLifeStep(step) {
      LifeStep(p, s, step);
    } else if IsWorkerStep(step) {
      WorkerStep(p, s, step, step.i);
    } else {
      ClientStep(p, s, step, step.c);
    }
  }

  lemma {:induction false} FindReturn<F(!new)>(p: Pool<F>, start: map<nat, seq<F>>, s: State<F>, run: Run<F>, n: nat,
                                               m: nat, c: nat) returns (k: nat)
    requires FairRun(p, start, s, run) && n <= m
    requires StateAt(p, s, run, n).submitMutex == Some(c) && StateAt(p, s, run, m).submitMutex != Some(c)
    ensures n <= k < m && run(k) == Some(Return(c))
    decreases m - n
  {
    hide Inv, Enabled, Do, IsSchedule, StateAt, Fair;
    InvAt(p, start, s, run, n);
    NextState(p, s, run, n);
    k := n;
    if run(n) == None {
      k := FindReturn(p, start, s, run, n + 1, m, c);
    } else {
      MutexKeptUntilReturn(p, start, StateAt(p, s, run, n), run(n).value, c);
      if run(n).value != Return(c) {
        k := FindReturn(p, start, s, run, n + 1, m, c);
      }
    }
  }

  /**
   Every submission that has taken submit_mutex_ returns: on every fair run, whatever other clients ask of
   the pool meanwhile, however many wakeups are spurious, and whichever shards fail.
   */
  lemma HolderReturns<F(!new)>(p: Pool<F>, start: map<nat, seq<F>>, s: State<F>, run: Run<F>, n: nat, c: nat)
    returns (m: nat)
    requires FairRun(p, start, s, run) && StateAt(p, s, run, n).submitMutex == Some(c)
    ensures n <= m && run(m) == Some(Return(c))
  {
    hide FairRun, StateAt;
    m := Settles(p, start, s, run, n);
    m := FindReturn(p, start, s, run, n, m, c);
  }

  /** A waiting client could take submit_mutex_ at this moment. */
  ghost predicate CouldLock<F>(s: State<F>, c: nat) {
    c < |s.clients| && s.clients[c].Waiting? && s.submitMutex == None
  }

  ghost predicate CouldLockAfter<F(!new)>(p: Pool<F>, s: State<F>, run: Run<F>, c: nat, n: nat)
    requires p.Valid()
  {
    exists m: nat :: m >= n && CouldLock(StateAt(p, s, run, m), c)
  }

  ghost predicate LocksAfter<F(!new)>(run: Run<F>, c: nat, n: nat) {
    exists m: nat :: m >= n && run(m) == Some(Acquire(c))
  }

  /** Strong fairness of the mutex: a client that could lock it again and again does. */
  ghost predicate MutexFair<F(!new)>(p: Pool<F>, s: State<F>, run: Run<F>, c: nat)
    requires p.Valid()
  {
    forall n: nat :: (forall k: nat :: k >= n ==> CouldLockAfter(p, s, run, c, k)) ==> LocksAfter(run, c, n)
  }

  lemma WaitsOn<F>(p: Pool<F>, start: map<nat, seq<F>>, s: State<F>, step: Step<F>, c: nat)
    requires p.Valid() && Inv(p, start, s) && Enabled(p, s, step) && c < |s.clients| && s.clients[c].Waiting?
    ensures c < |Do(p, s, step).clients|
    ensures step != Acquire(c) ==> Do(p, s, step).clients[c].Waiting?
    ensures step == Acquire(c) ==> Do(p, s, step).submitMutex == Some(c)
  {
    hide MutexOk, WorkersOk, CountOk, NotifyOk, CopiesOk, SubmissionOk, LogOk, SpansOk;
    if IsLifeStep(step) {
      LifeStep(p, s, step);
    } else if IsWorkerStep(step) {
      WorkerStep(p, s, step, step.i);
    } else {
      ClientStep(p, s, step, step.c);
    }
  }

  lemma {:induction false} StillWaits<F(!new)>(p: Pool<F>, start: map<nat, seq<F>>, s: State<F>, run: Run<F>, n: nat,
                                               m: nat, c: nat)
    requires FairRun(p, start, s, run) && n <= m && !LocksAfter(run, c, n)
    requires c < |StateAt(p, s, run, n).clients| && StateAt(p, s, run, n).clients[c].Waiting?
    ensures c < |StateAt(p, s, run, m).clients| && StateAt(p, s, run, m).clients[c].Waiting?
    decreases m - n
  {
    hide Inv, Enabled, Do, IsSchedule, StateAt, Fair;
    if n < m {
      StillWaits(p, start, s, run, n, m - 1, c);
      InvAt(p, start, s, run, m - 1);
      NextState(p, s, run, m - 1);
      if run(m - 1).Some? {
        assert run(m - 1) != Some(Acquire(c));
        WaitsOn(p, start, StateAt(p, s, run, m - 1), run(m - 1).value, c);
      }
    }
  }

  /** The holder of submit_mutex_ returns, so the mutex is free again and again. */
  lemma FreeAgain<F(!new)>(p: Pool<F>, start: map<nat, seq<F>>, s: State<F>, run: Run<F>, n: nat, k: nat, c: nat)
    requires FairRun(p, start, s, run) && n <= k && !LocksAfter(run, c, n)
    requires c < |StateAt(p, s, run, n).clients| && StateAt(p, s, run, n).clients[c].Waiting?
    ensures CouldLockAfter(p, s, run, c, k)
  {
    assert p.Valid();
    hide FairRun, StateAt, LocksAfter;
    var m := Settles(p, start, s, run, k);
    StillWaits(p, start, s, run, n, m, c);
    assert CouldLock(StateAt(p, s, run, m), c);
  }

  lemma LockTaken<F(!new)>(p: Pool<F>, start: map<nat, seq<F>>, s: State<F>, run: Run<F>, m: nat, c: nat)
    requires FairRun(p, start, s, run) && run(m) == Some(Acquire(c))
    ensures StateAt(p, s, run, m + 1).submitMutex == Some(c)
  {
    hide Inv, IsSchedule, StateAt, Fair;
    NextState(p, s, run, m);
  }

  /** A waiting client takes the mutex: otherwise it could again and again, and the mutex is fair. */
  lemma LockMoment<F(!new)>(p: Pool<F>, start: map<nat, seq<F>>, s: State<F>, run: Run<F>, n: nat, c: nat)
    returns (m: nat)
    requires FairRun(p, start, s, run) && MutexFair(p, s, run, c)
    requires c < |StateAt(p, s, run, n).clients| && StateAt(p, s, run, n).clients[c].Waiting?
    ensures n <= m && run(m) == Some(Acquire(c))
  {
    assert p.Valid();
    hide FairRun, StateAt, CouldLockAfter;
    if !LocksAfter(run, c, n) {
      forall k: nat | k >= n ensures CouldLockAfter(p, s, run, c, k) {
        FreeAgain(p, start, s, run, n, k, c);
      }
    }
    m :| m >= n && run(m) == Some(Acquire(c));
  }

  lemma HoldsOrWaits<F>(p: Pool<F>, start: map<nat, seq<F>>, s: State<F>, c: nat)
    requires p.Valid() && Inv(p, start, s) && c < |s.clients| && !s.clients[c].Idle?
    ensures s.clients[c].Waiting? || s.submitMutex == Some(c)
  {
    hide LifeOk, WorkersOk, CountOk, NotifyOk, CopiesOk, SubmissionOk, LogOk, SpansOk;
  }

  /** If the mutex is fair too, every submission returns, those that wait for the mutex included. */
  lemma EverySubmissionReturns<F(!new)>(p: Pool<F>, start: map<nat, seq<F>>, s: State<F>, run: Run<F>, n: nat, c: nat)
    returns (m: nat)
    requires FairRun(p, start, s, run) && MutexFair(p, s, run, c)
    requires c < |StateAt(p, s, run, n).clients| && !StateAt(p, s, run, n).clients[c].Idle?
    ensures n <= m && run(m) == Some(Return(c))
  {
    hide Inv, IsSchedule, StateAt, Fair, LocksAfter, CouldLockAfter, MutexFair;
    InvAt(p, start, s, run, n);
    HoldsOrWaits(p, start, StateAt(p, s, run, n), c);
    if StateAt(p, s, run, n).clients[c].Waiting? {
      var locked := LockMoment(p, start, s, run, n, c);
      LockTaken(p, start, s, run, locked, c);
      m := HolderReturns(p, start, s, run, locked + 1, c);
    } else {
      m := HolderReturns(p, start, s, run, n, c);
    }
  }

  lemma {:induction false} StaysStopping<F(!new)>(p: Pool<F>, start: map<nat, seq<F>>, s: State<F>, run: Run<F>, n: nat,
                                                  m: nat)
    requires FairRun(p, start, s, run) && n <= m && StateAt(p, s, run, n).stopping
    ensures StateAt(p, s, run, m).stopping
    decreases m - n
  {
    hide Fair, IsSchedule, StateAt, Inv, Do, Enabled;
    if n < m {
      StaysStopping(p, start, s, run, n, m - 1);
      InvAt(p, start, s, run, m - 1);
      NextState(p, s, run, m - 1);
      if run(m - 1).Some? {
        StoppingKept(p, start, StateAt(p, s, run, m - 1), run(m - 1).value);
      }
    }
  }

  lemma StoppingKept<F>(p: Pool<F>, start: map<nat, seq<F>>, s: State<F>, step: Step<F>)
    requires p.Valid() && Inv(p, start, s) && Enabled(p, s, step) && s.stopping
    ensures Do(p, s, step).stopping
  {
    hide MutexOk, WorkersOk, CountOk, NotifyOk, CopiesOk, SubmissionOk, LogOk, SpansOk;
    if IsLifeStep(step) {
      LifeStep(p, s, step);
    } else if IsWorkerStep(step) {
      WorkerStep(p, s, step, step.i);
    } else {
      ClientStep(p, s, step, step.c);
    }
  }

  /** Every shutdown ends, after full or partial construction: all joins return, and every worker has exited. */
  lemma ShutdownEnds<F(!new)>(p: Pool<F>, start: map<nat, seq<F>>, s: State<F>, run: Run<F>, n: nat) returns (m: nat)
    requires FairRun(p, start, s, run) && StateAt(p, s, run, n).stopping
    ensures n <= m && StateAt(p, s, run, m).life == Joined
    ensures forall i :: 0 <= i < |StateAt(p, s, run, m).workers| ==> StateAt(p, s, run, m).workers[i].pc.Exited?
  {
    m := Settles(p, start, s, run, n);
    StaysStopping(p, start, s, run, n, m);
    InvAt(p, start, s, run, m);
    hide Fair, IsSchedule, StateAt;
    JoinedExited(p, start, StateAt(p, s, run, m));
  }

  lemma JoinedExited<F>(p: Pool<F>, start: map<nat, seq<F>>, s: State<F>)
    requires p.Valid() && Inv(p, start, s) && s.stopping && !Pending(s)
    ensures s.life == Joined && forall i :: 0 <= i < |s.workers| ==> s.workers[i].pc.Exited?
  {
    hide MutexOk, CountOk, NotifyOk, CopiesOk, SubmissionOk, LogOk, SpansOk;
    forall i | 0 <= i < |s.workers| ensures s.workers[i].pc.Exited? {
      assert WorkerOk(s, s.workers[i]);
    }
  }

  // Fair runs exist

  /** Nobody can move but by a new request or a spurious wakeup. */
  predicate Still<F>(s: State<F>) {
    Quiet(s) && forall i :: 0 <= i < |s.workers| ==> !Busy(s, s.workers[i]) && !s.workers[i].pc.AtLoop?
  }

  lemma StillCannotMove<F(!new)>(p: Pool<F>, s: State<F>, thread: Thread)
    requires p.Valid() && Still(s)
    ensures !CanMove(p, s, thread)
  {
    forall step: Step<F> | ThreadOf(step) == thread && Advances(step) ensures !Enabled(p, s, step) {
      StillDisables(p, s, step);
    }
  }

  lemma StillDisables<F>(p: Pool<F>, s: State<F>, step: Step<F>)
    requires p.Valid() && Still(s) && Advances(step)
    ensures !Enabled(p, s, step)
  {
    hide ShardCount, Job<F>.Valid, Acceptable;
  }

  function Loopers<F>(s: State<F>): (flags: seq<nat>)
    ensures |flags| == |s.workers|
    ensures forall i :: 0 <= i < |s.workers| ==> flags[i] == if s.workers[i].pc.AtLoop? then 1 else 0
  {
    seq(|s.workers|, (i: nat) requires i < |s.workers| => if s.workers[i].pc.AtLoop? then 1 else 0)
  }

  lemma IdleTest<F>(p: Pool<F>, start: map<nat, seq<F>>, s: State<F>, i: nat)
    requires p.Valid() && Inv(p, start, s) && i < |s.workers| && s.workers[i].pc.AtLoop? && !Busy(s, s.workers[i])
    ensures Enabled(p, s, Test(i)) && !Productive(s, Test(i))
    ensures Sum(Loopers(Do(p, s, Test(i)))) < Sum(Loopers(s))
  {
    hide MutexOk, WorkersOk, CountOk, NotifyOk, CopiesOk, SubmissionOk, LogOk, SpansOk, Sum;
    var t := Do(p, s, Test(i));
    SumUpdate(Loopers(s), i, 0);
    assert Loopers(t) == Loopers(s)[i := 0];
  }

  /** From every state that satisfies the invariant the pool can come to rest. */
  lemma {:induction false} Rest<F>(p: Pool<F>, start: map<nat, seq<F>>, s: State<F>) returns (steps: seq<Step<F>>)
    requires p.Valid() && Inv(p, start, s)
    ensures IsRun(p, s, steps) && Still(EndOf(p, s, steps))
    decreases Rank(p, s, true), Sum(Loopers(s))
  {
    hide Inv, Rank, Do, Enabled, Quiet, Busy, Loopers, Productive;
    steps := [];
    if !Still(s) {
      var step: Step<F>;
      if !Quiet(s) {
        step := NoDeadlock(p, start, s);
      } else if i :| 0 <= i < |s.workers| && Busy(s, s.workers[i]) {
        step := AbleMoves(p, start, s, WorkerThread(i));
      } else {
        var i :| 0 <= i < |s.workers| && s.workers[i].pc.AtLoop?;
        IdleTest(p, start, s, i);
        step := Test(i);
      }
      ProductiveAsksNothing(s, step);
      InvKept(p, start, s, step);
      RankStep(p, start, s, step, true);
      var rest := Rest(p, start, Do(p, s, step));
      steps := [step] + rest;
      assert steps[1..] == rest;
    }
  }

  lemma ProductiveAsksNothing<F>(s: State<F>, step: Step<F>)
    requires Productive(s, step) || step.Test?
    ensures !Asks(step, true)
  {
  }

  /** A finite run and then nothing. */
  function Finite<F>(steps: seq<Step<F>>): Run<F> {
    (n: nat) => if n < |steps| then Some(steps[n]) else None
  }

  lemma {:induction false} FiniteStates<F(!new)>(p: Pool<F>, s: State<F>, run: Run<F>, k: nat, rest: seq<Step<F>>)
    requires p.Valid() && IsRun(p, StateAt(p, s, run, k), rest)
    requires forall j: nat :: j < |rest| ==> run(k + j) == Some(rest[j])
    requires forall n: nat :: n >= k + |rest| ==> run(n) == None
    ensures forall n: nat :: n >= k && run(n).Some? ==> Enabled(p, StateAt(p, s, run, n), run(n).value)
    ensures forall n: nat :: n >= k + |rest| ==> StateAt(p, s, run, n) == EndOf(p, StateAt(p, s, run, k), rest)
    decreases |rest|
  {
    hide Enabled, Do;
    if rest == [] {
      forall n: nat | n >= k ensures StateAt(p, s, run, n) == StateAt(p, s, run, k) {
        NothingHappens(p, s, run, k, n);
      }
    } else {
      assert run(k + 0) == Some(rest[0]);
      assert StateAt(p, s, run, k + 1) == Do(p, StateAt(p, s, run, k), rest[0]);
      forall j: nat | j < |rest| - 1 ensures run(k + 1 + j) == Some(rest[1..][j]) {
        assert run(k + (j + 1)) == Some(rest[j + 1]);
      }
      FiniteStates(p, s, run, k + 1, rest[1..]);
    }
  }

  lemma {:induction false} NothingHappens<F(!new)>(p: Pool<F>, s: State<F>, run: Run<F>, k: nat, n: nat)
    requires p.Valid() && n >= k && forall j: nat :: j >= k ==> run(j) == None
    ensures StateAt(p, s, run, n) == StateAt(p, s, run, k)
  {
    if n > k {
      NothingHappens(p, s, run, k, n - 1);
    }
  }

  /** From every state that satisfies the invariant there is a fair run. */
  lemma FairRunExists<F(!new)>(p: Pool<F>, start: map<nat, seq<F>>, s: State<F>) returns (run: Run<F>)
    requires p.Valid() && Inv(p, start, s)
    ensures FairRun(p, start, s, run)
  {
    hide Inv, IsRun, EndOf, Still, Enabled, CanMove;
    var steps := Rest(p, start, s);
    run := Finite(steps);
    FiniteStates(p, s, run, 0, steps);
    forall thread: Thread ensures Fair(p, s, run, thread) {
      forall n: nat ensures ServedAfter(p, s, run, thread, n) {
        var m := if n < |steps| then |steps| else n;
        StillCannotMove(p, StateAt(p, s, run, m), thread);
        assert Served(p, s, run, thread, m);
      }
    }
  }
}
