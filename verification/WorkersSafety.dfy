/** What every reachable state of the worker pool satisfies, and the refinement
    of the mutex-and-condvar code to the atomic counting semaphore. */
module WorkersSafety {
  import opened Folds
  import opened Workers
  import opened Wrappers
  import Sem = CountingSemaphore

  /** The dispatcher, and the worker, that a step moves or adds. */
  function MovedDispatcher(s: System, step: Step): int
  {
    match step
    case Arrive(_) => |s.dispatchers|
    case Call(i) => i
    case LockToAcquire(i) => i
    case Check(i) => i
    case WakeSpuriously(i) => i
    case Relock(i) => i
    case Decrement(i) => i
    case UnlockAcquired(i) => i
    case Spawn(i) => i
    case NotifyOne(_, target) => target
    case _ => -1
  }

  function MovedWorker(s: System, step: Step): int
  {
    match step
    case Spawn(_) => |s.workers|
    case StartTask(j) => j
    case EndTask(j, _) => j
    case LockToRelease(j) => j
    case Increment(j) => j
    case NotifyOne(j, _) => j
    case UnlockReleased(j) => j
    case _ => -1
  }

  lemma StepIsLocal(s: System, step: Step)
    requires Enabled(s, step)
    ensures OneChange(s.dispatchers, Apply(s, step).dispatchers, MovedDispatcher(s, step))
    ensures OneChange(s.workers, Apply(s, step).workers, MovedWorker(s, step))
  {
  }

  /** The permit a step takes from the pool and the permit it gives back. */
  function Added(s: System, step: Step): multiset<int>
    requires Enabled(s, step)
  {
    if step.Decrement? && s.available > 0 then PermitOfDispatcher(Apply(s, step).dispatchers[step.i]) else multiset{}
  }

  function Removed(s: System, step: Step): multiset<int>
    requires Enabled(s, step)
  {
    if step.Increment? && s.available < USIZE_MAX then multiset{s.workers[step.j].task} else multiset{}
  }

  /** What a step leaves alone in the threads it moves. */
  lemma ThreadsStay(s: System, step: Step)
    requires Enabled(s, step) && !step.Arrive? && !step.Spawn?
    ensures var t, i, j := Apply(s, step), MovedDispatcher(s, step), MovedWorker(s, step);
      && (i >= 0 ==>
            && i < |t.dispatchers| == |s.dispatchers|
            && t.dispatchers[i].tasks == s.dispatchers[i].tasks
            && (!step.Decrement? ==> t.dispatchers[i].pc.HasPermit() == s.dispatchers[i].pc.HasPermit()))
      && (j >= 0 ==>
            && j < |t.workers| == |s.workers|
            && t.workers[j].task == s.workers[j].task
            && (!step.Increment? ==> t.workers[j].pc.HasPermit() == s.workers[j].pc.HasPermit())
            && (!step.StartTask? ==> t.workers[j].pc.Ready? == s.workers[j].pc.Ready?))
      && (!step.StartTask? ==> t.ran == s.ran)
  {
  }

  lemma SamePermits(s: System, t: System, i: int, j: int)
    requires i >= 0 ==>
      && i < |t.dispatchers| == |s.dispatchers|
      && t.dispatchers[i].tasks == s.dispatchers[i].tasks
      && t.dispatchers[i].pc.HasPermit() == s.dispatchers[i].pc.HasPermit()
    requires j >= 0 ==>
      && j < |t.workers| == |s.workers|
      && t.workers[j].task == s.workers[j].task
      && t.workers[j].pc.HasPermit() == s.workers[j].pc.HasPermit()
    ensures BagAt(t.dispatchers, i, PermitOfDispatcher) == BagAt(s.dispatchers, i, PermitOfDispatcher)
    ensures BagAt(t.workers, j, PermitOfWorker) == BagAt(s.workers, j, PermitOfWorker)
  {
  }

  lemma DecrementTakes(s: System, step: Step)
    requires Enabled(s, step) && step.Decrement?
    ensures BagAt(s.dispatchers, step.i, PermitOfDispatcher) == multiset{}
    ensures BagAt(Apply(s, step).dispatchers, step.i, PermitOfDispatcher) == Added(s, step)
  {
  }

  lemma IncrementGives(s: System, step: Step)
    requires Enabled(s, step) && step.Increment?
    ensures BagAt(s.workers, step.j, PermitOfWorker)
         == BagAt(Apply(s, step).workers, step.j, PermitOfWorker) + Removed(s, step)
  {
    var t, task := Apply(s, step), s.workers[step.j].task;
    assert BagAt(s.workers, step.j, PermitOfWorker) == multiset{task};
    if s.available < USIZE_MAX {
      assert BagAt(t.workers, step.j, PermitOfWorker) == multiset{};
    } else {
      assert t.workers == s.workers;
    }
  }

  lemma SpawnHandsOver(s: System, step: Step)
    requires Enabled(s, step) && step.Spawn?
    ensures BagAt(Apply(s, step).dispatchers, step.i, PermitOfDispatcher) == multiset{}
    ensures BagAt(s.workers, |s.workers|, PermitOfWorker) == multiset{}
    ensures BagAt(Apply(s, step).workers, |s.workers|, PermitOfWorker)
         == BagAt(s.dispatchers, step.i, PermitOfDispatcher)
  {
  }

  lemma ArriveBringsNone(s: System, step: Step)
    requires step.Arrive?
    ensures BagAt(Apply(s, step).dispatchers, |s.dispatchers|, PermitOfDispatcher) == multiset{}
  {
  }

  lemma PermitsBalance(s: System, t: System, i: int, j: int, out: multiset<int>, into: multiset<int>)
    requires OneChange(s.dispatchers, t.dispatchers, i) && OneChange(s.workers, t.workers, j)
    requires BagAt(t.dispatchers, i, PermitOfDispatcher) + BagAt(t.workers, j, PermitOfWorker) + out
          == BagAt(s.dispatchers, i, PermitOfDispatcher) + BagAt(s.workers, j, PermitOfWorker) + into
    ensures HeldPermits(t) + out == HeldPermits(s) + into
  {
    GatherChange(s.dispatchers, t.dispatchers, i, PermitOfDispatcher);
    GatherChange(s.workers, t.workers, j, PermitOfWorker);
    RebalanceBoth(
      Gather(t.dispatchers, PermitOfDispatcher), BagAt(s.dispatchers, i, PermitOfDispatcher),
      Gather(s.dispatchers, PermitOfDispatcher), BagAt(t.dispatchers, i, PermitOfDispatcher),
      Gather(t.workers, PermitOfWorker), BagAt(s.workers, j, PermitOfWorker),
      Gather(s.workers, PermitOfWorker), BagAt(t.workers, j, PermitOfWorker), out, into);
  }

  /** Only the decrement adds a held permit and only the increment removes one. */
  lemma HeldAfter(s: System, step: Step)
    requires Enabled(s, step)
    ensures HeldPermits(Apply(s, step)) + Removed(s, step) == HeldPermits(s) + Added(s, step)
  {
    var t, i, j := Apply(s, step), MovedDispatcher(s, step), MovedWorker(s, step);
    StepIsLocal(s, step);
    if step.Decrement? {
      DecrementTakes(s, step);
    } else if step.Increment? {
      IncrementGives(s, step);
    } else if step.Spawn? {
      SpawnHandsOver(s, step);
    } else if step.Arrive? {
      ArriveBringsNone(s, step);
    } else {
      ThreadsStay(s, step);
      SamePermits(s, t, i, j);
    }
    PermitsBalance(s, t, i, j, Removed(s, step), Added(s, step));
  }

  /** An incrementing worker still holds its permit, so the counter is below
      the capacity and the increment cannot overflow. */
  lemma IncrementHasRoom(s: System, j: nat)
    requires WorkerAt(s, j, Incrementing) && Inv(s)
    ensures s.available < s.capacity && s.workers[j].task in HeldPermits(s)
  {
    GatherContains(s.workers, j, PermitOfWorker);
    SubmultisetCardinality(multiset{s.workers[j].task}, HeldPermits(s));
  }

  function Arrived(step: Step): multiset<int>
  {
    if step.Arrive? then multiset(step.tasks) else multiset{}
  }

  lemma SameTasks(s: System, t: System, i: int, j: int)
    requires i >= 0 ==>
      && i < |t.dispatchers| == |s.dispatchers|
      && t.dispatchers[i].tasks == s.dispatchers[i].tasks
    requires j >= 0 ==> j < |t.workers| == |s.workers| && t.workers[j].task == s.workers[j].task
    ensures BagAt(t.dispatchers, i, OwedTasks) == BagAt(s.dispatchers, i, OwedTasks)
    ensures BagAt(t.workers, j, TaskOf) == BagAt(s.workers, j, TaskOf)
  {
  }

  lemma SpawnMovesTask(s: System, step: Step)
    requires Enabled(s, step) && step.Spawn?
    ensures BagAt(s.workers, |s.workers|, TaskOf) == multiset{}
    ensures BagAt(Apply(s, step).dispatchers, step.i, OwedTasks) + BagAt(Apply(s, step).workers, |s.workers|, TaskOf)
         == BagAt(s.dispatchers, step.i, OwedTasks)
  {
    var tasks := s.dispatchers[step.i].tasks;
    assert tasks == [tasks[0]] + tasks[1..];
  }

  lemma TasksBalance(s: System, t: System, i: int, j: int, into: multiset<int>)
    requires OneChange(s.dispatchers, t.dispatchers, i) && OneChange(s.workers, t.workers, j)
    requires BagAt(t.dispatchers, i, OwedTasks) + BagAt(t.workers, j, TaskOf)
          == BagAt(s.dispatchers, i, OwedTasks) + BagAt(s.workers, j, TaskOf) + into
    ensures KnownTasks(t) == KnownTasks(s) + into
  {
    GatherChange(s.dispatchers, t.dispatchers, i, OwedTasks);
    GatherChange(s.workers, t.workers, j, TaskOf);
    RebalanceBoth(
      Gather(t.dispatchers, OwedTasks), BagAt(s.dispatchers, i, OwedTasks),
      Gather(s.dispatchers, OwedTasks), BagAt(t.dispatchers, i, OwedTasks),
      Gather(t.workers, TaskOf), BagAt(s.workers, j, TaskOf),
      Gather(s.workers, TaskOf), BagAt(t.workers, j, TaskOf), multiset{}, into);
  }

  /** A task is never lost or duplicated: it is owed until its thread exists. */
  lemma KnownAfter(s: System, step: Step)
    requires Enabled(s, step)
    ensures KnownTasks(Apply(s, step)) == KnownTasks(s) + Arrived(step)
  {
    var t, i, j := Apply(s, step), MovedDispatcher(s, step), MovedWorker(s, step);
    StepIsLocal(s, step);
    if step.Spawn? {
      SpawnMovesTask(s, step);
    } else if !step.Arrive? {
      ThreadsStay(s, step);
      SameTasks(s, t, i, j);
    }
    TasksBalance(s, t, i, j, Arrived(step));
  }

  lemma SameStarted(s: System, t: System, j: int)
    requires j >= 0 ==>
      && j < |t.workers| == |s.workers|
      && t.workers[j].task == s.workers[j].task
      && t.workers[j].pc.Ready? == s.workers[j].pc.Ready?
    ensures BagAt(t.workers, j, StartedTask) == BagAt(s.workers, j, StartedTask)
  {
  }

  lemma StartTaskRecords(s: System, step: Step)
    requires Enabled(s, step) && step.StartTask?
    ensures BagAt(s.workers, step.j, StartedTask) == multiset{}
    ensures multiset(Apply(s, step).ran) == multiset(s.ran) + BagAt(Apply(s, step).workers, step.j, StartedTask)
  {
  }

  lemma StepKeepsRunsRecorded(s: System, step: Step)
    requires Enabled(s, step) && RunsRecorded(s)
    ensures RunsRecorded(Apply(s, step))
  {
    var t, j := Apply(s, step), MovedWorker(s, step);
    StepIsLocal(s, step);
    GatherChange(s.workers, t.workers, j, StartedTask);
    if step.StartTask? {
      StartTaskRecords(s, step);
    } else {
      if !step.Spawn? && !step.Arrive? {
        ThreadsStay(s, step);
        SameStarted(s, t, j);
      }
      Rebalance(Gather(t.workers, StartedTask), BagAt(s.workers, j, StartedTask),
                Gather(s.workers, StartedTask), BagAt(t.workers, j, StartedTask),
                multiset{}, multiset{}, multiset{}, multiset{});
      assert t.ran == s.ran;
      assert Gather(t.workers, StartedTask) == Gather(t.workers, StartedTask) + multiset{} + multiset{};
    }
  }

  lemma EntryKeepsThreads(s: System, step: Step)
    requires Enabled(s, step) && ThreadsAgree(s) && IsEntry(step)
    ensures ThreadsAgree(Apply(s, step))
  {
  }

  lemma TakingKeepsThreads(s: System, step: Step)
    requires Enabled(s, step) && ThreadsAgree(s) && IsTaking(step)
    ensures ThreadsAgree(Apply(s, step))
  {
  }

  /** A panicking task locks while already panicking, so its guard never poisons
      the mutex. */
  lemma WorkersKeepThreads(s: System, step: Step)
    requires Enabled(s, step) && ThreadsAgree(s) && IsWorkers(step)
    requires step.Increment? ==> s.available < USIZE_MAX
    ensures ThreadsAgree(Apply(s, step))
  {
  }

  /** Every step but four leaves the wakeup accounts as they were. */
  lemma WakeupsStay(s: System, step: Step)
    requires Enabled(s, step) && !step.Check? && !step.Decrement? && !step.Increment? && !step.NotifyOne?
    ensures var t, i, j := Apply(s, step), MovedDispatcher(s, step), MovedWorker(s, step);
      && t.available == s.available
      && NatAt(t.dispatchers, i, PendingWakeup) == NatAt(s.dispatchers, i, PendingWakeup)
      && NatAt(t.workers, j, UnsentWakeup) == NatAt(s.workers, j, UnsentWakeup)
      && (SomebodySleeps(t) ==> SomebodySleeps(s))
  {
    var t := Apply(s, step);
    if SomebodySleeps(t) {
      var k :| 0 <= k < |t.dispatchers| && t.dispatchers[k].pc.Sleeping?;
      assert s.dispatchers[k].pc.Sleeping?;
    }
  }

  predicate WakeupsOwedAreKept(s: System, step: Step)
    requires Enabled(s, step)
  {
    var t, i, j := Apply(s, step), MovedDispatcher(s, step), MovedWorker(s, step);
    SomebodySleeps(t) && t.available > 0 ==>
      && SomebodySleeps(s)
      && t.available + NatAt(s.dispatchers, i, PendingWakeup) + NatAt(s.workers, j, UnsentWakeup)
         <= s.available + NatAt(t.dispatchers, i, PendingWakeup) + NatAt(t.workers, j, UnsentWakeup)
  }

  lemma CheckKeepsWakeups(s: System, step: Step)
    requires Enabled(s, step) && ThreadsAgree(s) && (step.Check? || step.Decrement?)
    ensures WakeupsOwedAreKept(s, step)
  {
    var t := Apply(s, step);
    if SomebodySleeps(t) && t.available > 0 {
      var k :| 0 <= k < |t.dispatchers| && t.dispatchers[k].pc.Sleeping?;
      assert s.dispatchers[k].pc.Sleeping?;
    }
  }

  lemma ReleaseKeepsWakeups(s: System, step: Step)
    requires Enabled(s, step) && ThreadsAgree(s) && (step.Increment? || step.NotifyOne?)
    requires step.Increment? ==> s.available < USIZE_MAX
    ensures WakeupsOwedAreKept(s, step)
  {
    var t := Apply(s, step);
    if SomebodySleeps(t) && t.available > 0 {
      var k :| 0 <= k < |t.dispatchers| && t.dispatchers[k].pc.Sleeping?;
      assert s.dispatchers[k].pc.Sleeping?;
    }
  }

  /** The heart of the condvar protocol: whoever makes a permit available owes a
      wakeup, and a notified thread that finds the counter at zero may sleep
      again because then nothing is available. */
  lemma StepKeepsWakeups(s: System, step: Step)
    requires Enabled(s, step) && Inv(s)
    ensures NoLostWakeup(Apply(s, step))
  {
    var t, i, j := Apply(s, step), MovedDispatcher(s, step), MovedWorker(s, step);
    StepIsLocal(s, step);
    SumChange(s.dispatchers, t.dispatchers, i, PendingWakeup);
    SumChange(s.workers, t.workers, j, UnsentWakeup);
    if step.Check? || step.Decrement? {
      CheckKeepsWakeups(s, step);
    } else if step.Increment? || step.NotifyOne? {
      if step.Increment? { IncrementHasRoom(s, step.j); }
      ReleaseKeepsWakeups(s, step);
    } else {
      WakeupsStay(s, step);
    }
  }

  lemma CounterMoves(s: System, step: Step)
    requires Enabled(s, step) && Inv(s)
    ensures Apply(s, step).capacity == s.capacity
    ensures Apply(s, step).available + |Added(s, step)| == s.available + |Removed(s, step)|
  {
    if step.Increment? { IncrementHasRoom(s, step.j); }
  }

  lemma {:induction false} StepConservesPermits(s: System, step: Step)
    requires Enabled(s, step) && Inv(s)
    ensures PermitsConserved(Apply(s, step)) && Apply(s, step).capacity == s.capacity
  {
    HeldAfter(s, step);
    CounterMoves(s, step);
    assert |HeldPermits(Apply(s, step)) + Removed(s, step)| == |HeldPermits(s) + Added(s, step)|;
  }

  lemma StepKeepsInv(s: System, step: Step)
    requires Enabled(s, step) && Inv(s)
    ensures Inv(Apply(s, step)) && Apply(s, step).capacity == s.capacity
  {
    if IsEntry(step) {
      EntryKeepsThreads(s, step);
    } else if IsTaking(step) {
      TakingKeepsThreads(s, step);
    } else {
      if step.Increment? { IncrementHasRoom(s, step.j); }
      WorkersKeepThreads(s, step);
    }
    StepKeepsWakeups(s, step);
    StepKeepsRunsRecorded(s, step);
    StepConservesPermits(s, step);
  }

  lemma {:induction false} RunKeepsInv(s: System, run: seq<Step>)
    requires ValidRun(s, run) && Inv(s)
    ensures Inv(End(s, run)) && End(s, run).capacity == s.capacity
    decreases |run|
  {
    if run != [] {
      StepKeepsInv(s, run[0]);
      RunKeepsInv(Apply(s, run[0]), run[1..]);
    }
  }

  /** Every state the pool can reach, from any requested capacity, satisfies the
      invariant; in particular no lock or counter operation ever panics. */
  lemma ReachableStatesAreSafe(requested: nat, run: seq<Step>)
    requires requested <= USIZE_MAX && ValidRun(Init(requested), run)
    ensures var s := End(Init(requested), run);
      Inv(s) && s.capacity == (if requested == 0 then 1 else requested)
  {
    RunKeepsInv(Init(requested), run);
  }

  /** With the mutex free and every wakeup used up, a sleeping dispatcher means
      that every permit is taken, and there is one. */
  lemma AllAsleepMeansAllTaken(requested: nat, run: seq<Step>)
    requires requested <= USIZE_MAX && ValidRun(Init(requested), run)
    requires var s := End(Init(requested), run);
      SomebodySleeps(s) && s.guard.Free?
      && forall i :: 0 <= i < |s.dispatchers| ==> !s.dispatchers[i].pc.IsPending()
    ensures var s := End(Init(requested), run);
      s.available == 0 && |HeldPermits(s)| == s.capacity >= 1
  {
    var s := End(Init(requested), run);
    ReachableStatesAreSafe(requested, run);
    SumIsZero(s.dispatchers, PendingWakeup);
    SumIsZero(s.workers, UnsentWakeup);
  }

  /** The number of tasks running at once never exceeds the capacity. */
  lemma RunningNeverExceedsCapacity(requested: nat, run: seq<Step>)
    requires requested <= USIZE_MAX && ValidRun(Init(requested), run)
    ensures var s := End(Init(requested), run);
      |Gather(s.workers, RunningTask)| <= |HeldPermits(s)| <= s.capacity
  {
    var s := End(Init(requested), run);
    ReachableStatesAreSafe(requested, run);
    GatherMonotone(s.workers, RunningTask, PermitOfWorker);
    SubmultisetCardinality(Gather(s.workers, RunningTask), HeldPermits(s));
  }

  // ---------- what a schedule says about panics and wakeups ----------

  /** A worker that has not ended its task is not unwinding. */
  predicate OnlyEndedPanic(s: System)
  {
    forall j :: 0 <= j < |s.workers| && (s.workers[j].pc.Ready? || s.workers[j].pc.Running?) ==> !s.workers[j].panicking
  }

  predicate Unwinds(s: System, j: nat)
  {
    j < |s.workers| && s.workers[j].panicking
  }

  lemma {:induction false} StepRecordsPanic(s: System, step: Step, j: nat)
    requires Enabled(s, step) && OnlyEndedPanic(s)
    ensures OnlyEndedPanic(Apply(s, step)) && |s.workers| <= |Apply(s, step).workers|
    ensures Unwinds(Apply(s, step), j) <==> Unwinds(s, j) || step == EndTask(j, true)
  {
  }

  lemma {:induction false} RunRecordsPanic(s: System, run: seq<Step>, j: nat)
    requires ValidRun(s, run) && OnlyEndedPanic(s)
    ensures |s.workers| <= |End(s, run).workers|
    ensures Unwinds(End(s, run), j) <==> Unwinds(s, j) || EndTask(j, true) in run
    decreases |run|
  {
    if run != [] {
      StepRecordsPanic(s, run[0], j);
      RunRecordsPanic(Apply(s, run[0]), run[1..], j);
      assert run == [run[0]] + run[1..];
    }
  }

  /** In every run exactly the workers whose task panicked unwind, and a worker's
      guard remembers the panic exactly in that case: panics do happen while the
      permit is given back, and still nothing is poisoned. */
  lemma {:induction false} PanicsReachTheGuard(requested: nat, run: seq<Step>, j: nat)
    requires requested <= USIZE_MAX && ValidRun(Init(requested), run)
    ensures var s := End(Init(requested), run);
      && (j < |s.workers| ==> (s.workers[j].panicking <==> EndTask(j, true) in run))
      && (s.guard.Held? && s.guard.owner == ByWorker(j) ==>
            (s.guard.panickingAtLock <==> EndTask(j, true) in run))
      && !s.poisoned && !s.crashed
  {
    RunRecordsPanic(Init(requested), run, j);
    ReachableStatesAreSafe(requested, run);
  }

  /** What would go wrong otherwise: a guard taken before the panic and dropped
      during it poisons the mutex, and whoever locks next panics too. */
  lemma {:induction false} PanicUnderTheGuardPoisons(s: System, j: nat, next: Step)
    requires WorkerAt(s, j, Leaving) && s.workers[j].panicking && s.guard == Held(ByWorker(j), false)
    requires next.LockToAcquire? || next.Relock? || next.LockToRelease?
    requires Enabled(Apply(s, UnlockReleased(j)), next)
    ensures Apply(s, UnlockReleased(j)).poisoned
    ensures Apply(Apply(s, UnlockReleased(j)), next).crashed
  {
  }

  /** The counter is checked arithmetic: below zero or past `usize::MAX` it would
      panic instead of wrapping. */
  lemma {:induction false} CounterIsChecked(s: System, step: Step)
    requires Enabled(s, step)
    requires (step.Decrement? && s.available == 0) || (step.Increment? && s.available >= USIZE_MAX)
    ensures Apply(s, step).crashed && Apply(s, step).available == s.available
  {
  }

  /** The pool after worker `j` has given its permit back. */
  function Returned(s: System, j: nat, panics: bool, target: int): System
    requires j < |s.workers| && target < |s.dispatchers|
  {
    var t := s.(available := s.available + 1, workers := s.workers[j := Worker(s.workers[j].task, Finished, panics)]);
    if target < 0 then t else MoveDispatcher(t, target, Woken(true))
  }

  lemma {:induction false} NotifiesAndLeaves(s: System, j: nat, target: int)
    requires NoPanicInPool(s) && WorkerAt(s, j, Notifying) && s.guard == Held(ByWorker(j), s.workers[j].panicking)
    requires if target < 0 then NobodySleeps(s) else DispatcherAt(s, target, Sleeping)
    ensures ValidRun(s, [NotifyOne(j, target)] + [UnlockReleased(j)])
    ensures End(s, [NotifyOne(j, target)] + [UnlockReleased(j)]) ==
      var t := MoveWorker(s, j, Finished).(guard := Free);
      if target < 0 then t else MoveDispatcher(t, target, Woken(true))
  {
    var notified := Apply(s, NotifyOne(j, target));
    RunCons(notified, UnlockReleased(j), []);
    assert [UnlockReleased(j)] == [UnlockReleased(j)] + [];
    RunCons(s, NotifyOne(j, target), [UnlockReleased(j)]);
    assert Apply(notified, UnlockReleased(j)).workers == MoveWorker(s, j, Finished).workers;
  }

  /** However a task ends, its worker can give the permit back, wake a sleeper if
      there is one, and leave the mutex as healthy as before. */
  lemma {:induction false} PermitComesBack(s: System, j: nat, panics: bool, target: int)
    requires NoPanicInPool(s) && s.available < USIZE_MAX && s.guard.Free? && WorkerAt(s, j, Running)
    requires if target < 0 then NobodySleeps(s) else DispatcherAt(s, target, Sleeping)
    ensures var run := [EndTask(j, panics)] + ([LockToRelease(j)] + ([Increment(j)] + ([NotifyOne(j, target)] + [UnlockReleased(j)])));
      ValidRun(s, run) && End(s, run) == Returned(s, j, panics, target)
  {
    var task, held := s.workers[j].task, Held(ByWorker(j), panics);
    var s1 := s.(workers := s.workers[j := Worker(task, Dropping, panics)]);
    var s2 := s.(workers := s.workers[j := Worker(task, Incrementing, panics)], guard := held);
    var s3 := s2.(workers := s.workers[j := Worker(task, Notifying, panics)], available := s.available + 1);
    assert Apply(s, EndTask(j, panics)) == s1;
    assert Apply(s1, LockToRelease(j)) == s2;
    assert Apply(s2, Increment(j)) == s3;
    NotifiesAndLeaves(s3, j, target);
    assert MoveWorker(s3, j, Finished).workers == s.workers[j := Worker(task, Finished, panics)];
    RunCons(s2, Increment(j), [NotifyOne(j, target)] + [UnlockReleased(j)]);
    RunCons(s1, LockToRelease(j), [Increment(j)] + ([NotifyOne(j, target)] + [UnlockReleased(j)]));
    RunCons(s, EndTask(j, panics), [LockToRelease(j)] + ([Increment(j)] + ([NotifyOne(j, target)] + [UnlockReleased(j)])));
  }

  /** The task a step starts, named by its worker. */
  function StartedBy(workers: seq<Worker>, step: Step): seq<Task>
  {
    if step.StartTask? && step.j < |workers| then [workers[step.j].task] else []
  }

  function StartedIn(workers: seq<Worker>, run: seq<Step>): seq<Task>
  {
    if run == [] then [] else StartedBy(workers, run[0]) + StartedIn(workers, run[1..])
  }

  predicate KeepsWorkers(s: System, t: System)
  {
    |s.workers| <= |t.workers| && forall j :: 0 <= j < |s.workers| ==> t.workers[j].task == s.workers[j].task
  }

  lemma {:induction false} StepKeepsWorkers(s: System, step: Step)
    requires Enabled(s, step)
    ensures KeepsWorkers(s, Apply(s, step))
    ensures Apply(s, step).ran == s.ran + StartedBy(s.workers, step)
  {
  }

  lemma {:induction false} RunKeepsWorkers(s: System, run: seq<Step>)
    requires ValidRun(s, run)
    ensures KeepsWorkers(s, End(s, run))
    decreases |run|
  {
    if run != [] {
      StepKeepsWorkers(s, run[0]);
      RunKeepsWorkers(Apply(s, run[0]), run[1..]);
    }
  }

  /** Tasks run on the workers they were given to, in the order of the schedule. */
  lemma {:induction false} TasksRunInOrder(s: System, run: seq<Step>)
    requires ValidRun(s, run)
    ensures End(s, run).ran == s.ran + StartedIn(End(s, run).workers, run)
    decreases |run|
  {
    if run != [] {
      var t, workers := Apply(s, run[0]), End(s, run).workers;
      StepKeepsWorkers(s, run[0]);
      RunKeepsWorkers(t, run[1..]);
      TasksRunInOrder(t, run[1..]);
      assert StartedBy(s.workers, run[0]) == StartedBy(workers, run[0]);
      assert s.ran + StartedBy(workers, run[0]) + StartedIn(workers, run[1..])
          == s.ran + (StartedBy(workers, run[0]) + StartedIn(workers, run[1..]));
    }
  }

  /** A sleeper may wake for nothing; it then finds the counter at zero and sleeps
      again, and nothing has changed. */
  lemma {:induction false} SpuriousWakeIsHarmless(s: System, i: nat)
    requires NoPanicInPool(s) && DispatcherAt(s, i, Sleeping) && s.guard.Free? && s.available == 0
    ensures var run := [WakeSpuriously(i), Relock(i), Check(i)];
      ValidRun(s, run) && End(s, run) == s
  {
    var s1 := Apply(s, WakeSpuriously(i));
    var s2 := Apply(s1, Relock(i));
    var s3 := Apply(s2, Check(i));
    assert s3.dispatchers == s.dispatchers;
    RunCons(s2, Check(i), []);
    RunCons(s1, Relock(i), [Check(i)]);
    RunCons(s, WakeSpuriously(i), [Relock(i), Check(i)]);
    assert [WakeSpuriously(i), Relock(i), Check(i)] == [WakeSpuriously(i)] + [Relock(i), Check(i)];
  }

  /** How often `notify_one` found a sleeper. */
  function Notifications(run: seq<Step>): nat
  {
    if run == [] then 0
    else (if run[0].NotifyOne? && run[0].target >= 0 then 1 else 0) + Notifications(run[1..])
  }

  predicate WakeupsAreNotified(s: System, step: Step)
    requires Enabled(s, step)
  {
    var t, i := Apply(s, step), MovedDispatcher(s, step);
    NatAt(t.dispatchers, i, PendingWakeup)
    <= NatAt(s.dispatchers, i, PendingWakeup) + if step.NotifyOne? && step.target >= 0 then 1 else 0
  }

  lemma {:induction false} StepNotifies(s: System, step: Step)
    requires Enabled(s, step)
    ensures WakeupsAreNotified(s, step)
  {
  }

  /** A pending wakeup comes from a notification: spurious wakes and newcomers are
      never taken for one. */
  lemma {:induction false} PendingWakeupsAreNotified(s: System, run: seq<Step>)
    requires ValidRun(s, run)
    ensures PendingWakeups(End(s, run)) <= PendingWakeups(s) + Notifications(run)
    decreases |run|
  {
    if run != [] {
      var t := Apply(s, run[0]);
      StepIsLocal(s, run[0]);
      StepNotifies(s, run[0]);
      SumChange(s.dispatchers, t.dispatchers, MovedDispatcher(s, run[0]), PendingWakeup);
      PendingWakeupsAreNotified(t, run[1..]);
    }
  }

  predicate DispatcherWaitsOnlyForMutex(s: System, i: nat)
    requires i < |s.dispatchers|
  {
    match s.dispatchers[i].pc
    case Outside => s.dispatchers[i].tasks != [] ==> Enabled(s, Call(i))
    case Locking => s.guard.Free? ==> Enabled(s, LockToAcquire(i))
    case Woken(_) => s.guard.Free? ==> Enabled(s, Relock(i))
    case Sleeping => Enabled(s, WakeSpuriously(i))
    case Checking(_) => Enabled(s, Check(i))
    case Decrementing(_) => Enabled(s, Decrement(i))
    case Acquired => Enabled(s, UnlockAcquired(i))
    case Spawning => s.dispatchers[i].tasks != [] ==> Enabled(s, Spawn(i))
  }

  ghost predicate WorkerWaitsOnlyForMutex(s: System, j: nat)
    requires j < |s.workers|
  {
    match s.workers[j].pc
    case Ready => Enabled(s, StartTask(j))
    case Running => Enabled(s, EndTask(j, false)) && Enabled(s, EndTask(j, true))
    case Dropping => s.guard.Free? ==> Enabled(s, LockToRelease(j))
    case Incrementing => Enabled(s, Increment(j))
    case Notifying =>
      if NobodySleeps(s) then Enabled(s, NotifyOne(j, -1))
      else forall i: nat :: DispatcherAt(s, i, Sleeping) ==> Enabled(s, NotifyOne(j, i))
    case Leaving => Enabled(s, UnlockReleased(j))
    case Finished => true
  }

  /** What threads wait for: a thread that needs the mutex waits only for the
      mutex, a sleeper may wake at any time, a release may wake any sleeper, and
      all others wait for nobody. */
  lemma {:induction false} OnlyTheMutexBlocks(s: System)
    ensures forall i :: 0 <= i < |s.dispatchers| ==> DispatcherWaitsOnlyForMutex(s, i)
    ensures forall j :: 0 <= j < |s.workers| ==> WorkerWaitsOnlyForMutex(s, j)
  {
  }

  /** The pool after thread `k` has taken a permit without waiting. */
  function Taken(s: System, k: nat): System
    requires k < |s.dispatchers| && s.available > 0
  {
    MoveDispatcher(s, k, Spawning).(available := s.available - 1)
  }

  lemma {:induction false} DispatcherTakes(s: System, k: nat, rest: seq<Step>)
    requires NoPanicInPool(s) && s.guard.Free? && s.available > 0
    requires DispatcherAt(s, k, Outside) && s.dispatchers[k].tasks != [] && ValidRun(Taken(s, k), rest)
    ensures var run := [Call(k)] + ([LockToAcquire(k)] + ([Check(k)] + ([Decrement(k)] + ([UnlockAcquired(k)] + rest))));
      ValidRun(s, run) && End(s, run) == End(Taken(s, k), rest)
  {
    var s1 := MoveDispatcher(s, k, Locking);
    var s2 := MoveDispatcher(s, k, Checking(false)).(guard := Held(ByDispatcher(k), false));
    var s3 := MoveDispatcher(s, k, Decrementing(false)).(guard := Held(ByDispatcher(k), false));
    var s4 := MoveDispatcher(s, k, Acquired).(guard := Held(ByDispatcher(k), false), available := s.available - 1);
    assert Apply(s, Call(k)) == s1;
    assert Apply(s1, LockToAcquire(k)) == s2;
    assert Apply(s2, Check(k)) == s3;
    assert Apply(s3, Decrement(k)) == s4;
    assert Apply(s4, UnlockAcquired(k)) == Taken(s, k);
    RunCons(s4, UnlockAcquired(k), rest);
    RunCons(s3, Decrement(k), [UnlockAcquired(k)] + rest);
    RunCons(s2, Check(k), [Decrement(k)] + ([UnlockAcquired(k)] + rest));
    RunCons(s1, LockToAcquire(k), [Check(k)] + ([Decrement(k)] + ([UnlockAcquired(k)] + rest)));
    RunCons(s, Call(k), [LockToAcquire(k)] + ([Check(k)] + ([Decrement(k)] + ([UnlockAcquired(k)] + rest))));
  }

  lemma {:induction false} WokenSleepsAgain(s: System, i: nat)
    requires NoPanicInPool(s) && s.guard.Free? && s.available == 0
    requires i < |s.dispatchers| && s.dispatchers[i].pc.Woken?
    ensures ValidRun(s, [Relock(i), Check(i)])
    ensures End(s, [Relock(i), Check(i)]) == MoveDispatcher(s, i, Sleeping)
  {
    var locked := Apply(s, Relock(i));
    RunCons(locked, Check(i), []);
    RunCons(s, Relock(i), [Check(i)]);
    assert [Relock(i), Check(i)] == [Relock(i)] + [Check(i)];
    assert Apply(locked, Check(i)) == MoveDispatcher(s, i, Sleeping);
  }

  /** Barging: whenever one permit is free, a thread that was notified for it can
      lose it to a newcomer and has to sleep again. */
  lemma {:induction false} NewcomerMayOvertake(s: System, i: nat, k: nat) returns (run: seq<Step>)
    requires NoPanicInPool(s) && s.guard.Free? && s.available == 1
    requires DispatcherAt(s, i, Woken(true)) && DispatcherAt(s, k, Outside) && s.dispatchers[k].tasks != []
    ensures ValidRun(s, run)
    ensures DispatcherAt(End(s, run), k, Spawning) && DispatcherAt(End(s, run), i, Sleeping)
    ensures End(s, run).available == 0 && End(s, run).guard.Free?
  {
    WokenSleepsAgain(Taken(s, k), i);
    DispatcherTakes(s, k, [Relock(i), Check(i)]);
    run := [Call(k)] + ([LockToAcquire(k)] + ([Check(k)] + ([Decrement(k)] + ([UnlockAcquired(k)] + [Relock(i), Check(i)]))));
  }

  // ---------- refinement to the atomic semaphore ----------

  function Abstraction(s: System): Sem.Semaphore
  {
    Sem.Semaphore(s.capacity, s.available, HeldPermits(s))
  }

  /** The abstract event of one step; every other step is a stutter. */
  function EventsOf(s: System, step: Step): seq<Sem.Event>
    requires Enabled(s, step)
  {
    match step
    case Decrement(i) => if s.dispatchers[i].tasks == [] then [] else [Sem.Acquire(s.dispatchers[i].tasks[0])]
    case Increment(j) => [Sem.Release(s.workers[j].task)]
    case _ => []
  }

  lemma DecrementIsAcquire(s: System, t: System, task: Task)
    requires t.capacity == s.capacity && t.available + 1 == s.available
    requires HeldPermits(t) == HeldPermits(s) + multiset{task}
    ensures Sem.Permits(Abstraction(s), [Sem.Acquire(task)])
    ensures Sem.Final(Abstraction(s), [Sem.Acquire(task)]) == Abstraction(t)
  {
    Sem.OneEvent(Abstraction(s), Sem.Acquire(task));
  }

  lemma IncrementIsRelease(s: System, t: System, task: Task)
    requires t.capacity == s.capacity && t.available == s.available + 1
    requires HeldPermits(t) + multiset{task} == HeldPermits(s)
    ensures Sem.Permits(Abstraction(s), [Sem.Release(task)])
    ensures Sem.Final(Abstraction(s), [Sem.Release(task)]) == Abstraction(t)
  {
    assert HeldPermits(t) + multiset{task} - multiset{task} == HeldPermits(t);
    Sem.OneEvent(Abstraction(s), Sem.Release(task));
  }

  lemma ChangesOf(s: System, step: Step)
    requires Enabled(s, step) && Inv(s)
    ensures step.Decrement? ==> Added(s, step) == multiset{s.dispatchers[step.i].tasks[0]} && Removed(s, step) == multiset{}
    ensures step.Increment? ==> Removed(s, step) == multiset{s.workers[step.j].task} && Added(s, step) == multiset{}
    ensures !step.Decrement? && !step.Increment? ==> Added(s, step) == Removed(s, step) == multiset{}
  {
    if step.Increment? { IncrementHasRoom(s, step.j); }
  }

  lemma StepRefinesSemaphore(s: System, step: Step)
    requires Enabled(s, step) && Inv(s)
    ensures Sem.Permits(Abstraction(s), EventsOf(s, step))
    ensures Sem.Final(Abstraction(s), EventsOf(s, step)) == Abstraction(Apply(s, step))
  {
    var t := Apply(s, step);
    HeldAfter(s, step);
    CounterMoves(s, step);
    ChangesOf(s, step);
    assert HeldPermits(t) + multiset{} == HeldPermits(t);
    if step.Decrement? {
      DecrementIsAcquire(s, t, s.dispatchers[step.i].tasks[0]);
    } else if step.Increment? {
      IncrementIsRelease(s, t, s.workers[step.j].task);
    }
  }

  function EventsOfRun(s: System, run: seq<Step>): seq<Sem.Event>
    requires ValidRun(s, run)
    decreases |run|
  {
    if run == [] then [] else EventsOf(s, run[0]) + EventsOfRun(Apply(s, run[0]), run[1..])
  }

  lemma {:induction false} RunRefinesSemaphoreFrom(s: System, run: seq<Step>)
    requires ValidRun(s, run) && Inv(s)
    ensures var events := EventsOfRun(s, run);
      && Sem.Permits(Abstraction(s), events)
      && Sem.Final(Abstraction(s), events) == Abstraction(End(s, run))
    decreases |run|
  {
    if run != [] {
      var first, next := EventsOf(s, run[0]), Apply(s, run[0]);
      StepRefinesSemaphore(s, run[0]);
      StepKeepsInv(s, run[0]);
      RunRefinesSemaphoreFrom(next, run[1..]);
      Sem.HistoriesCompose(Abstraction(s), first, EventsOfRun(next, run[1..]));
    }
  }

  /** Every run of the mutex-and-condvar code is a run of the atomic counting
      semaphore with the clamped capacity, in which exactly the decrements are
      acquires and exactly the increments are releases. */
  lemma PoolRefinesSemaphore(requested: nat, run: seq<Step>)
    requires requested <= USIZE_MAX && ValidRun(Init(requested), run)
    ensures var events := EventsOfRun(Init(requested), run);
      && Sem.Permits(Sem.Fresh(Init(requested).capacity), events)
      && Sem.Final(Sem.Fresh(Init(requested).capacity), events) == Abstraction(End(Init(requested), run))
  {
    RunRefinesSemaphoreFrom(Init(requested), run);
    assert Abstraction(Init(requested)) == Sem.Fresh(Init(requested).capacity);
  }
}
