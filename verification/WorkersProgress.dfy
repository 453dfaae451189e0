/** Every finite batch of dispatches completes: a rank bounds the number of
    steps of any run, and a state in which the pool cannot move is one in which
    every task has run exactly once and every permit is back. */
module WorkersProgress {
  import opened Folds
  import opened Workers
  import opened WorkersSafety
  import opened Wrappers

  /** Steps still ahead of a dispatcher, counting the worker it will start.
      Waking a sleeper costs two, which is the price of one wasted wakeup. */
  function PcRank(pc: DispatcherPc): nat
  {
    match pc
    case Outside => 0
    case Locking => 14
    case Woken(_) => 14
    case Checking(_) => 13
    case Sleeping => 12
    case Decrementing(_) => 11
    case Acquired => 10
    case Spawning => 9
  }

  function DispatcherRank(d: Dispatcher): nat
  {
    if d.pc.Outside? || d.tasks == [] then 15 * |d.tasks| else 15 * (|d.tasks| - 1) + PcRank(d.pc)
  }

  function WorkerRank(w: Worker): nat
  {
    match w.pc
    case Ready => 8
    case Running => 7
    case Dropping => 6
    case Incrementing => 5
    case Notifying => 4
    case Leaving => 1
    case Finished => 0
  }

  function Rank(s: System): nat
  {
    Sum(s.dispatchers, DispatcherRank) + Sum(s.workers, WorkerRank)
  }

  /** What the environment may add: a batch of dispatches, or a spurious wake. */
  function Cost(step: Step): nat
  {
    match step
    case Arrive(tasks) => 15 * |tasks| + 1
    case WakeSpuriously(_) => 3
    case _ => 0
  }

  function TotalCost(run: seq<Step>): nat
  {
    if run == [] then 0 else Cost(run[0]) + TotalCost(run[1..])
  }

  predicate LocalRankDrops(s: System, step: Step)
    requires Enabled(s, step)
  {
    var t, i, j := Apply(s, step), MovedDispatcher(s, step), MovedWorker(s, step);
    NatAt(t.dispatchers, i, DispatcherRank) + NatAt(t.workers, j, WorkerRank) + 1
    <= NatAt(s.dispatchers, i, DispatcherRank) + NatAt(s.workers, j, WorkerRank) + Cost(step)
  }

  lemma EntryLowersRank(s: System, step: Step)
    requires Enabled(s, step) && ThreadsAgree(s) && IsEntry(step)
    ensures LocalRankDrops(s, step)
  {
  }

  lemma TakingLowersRank(s: System, step: Step)
    requires Enabled(s, step) && ThreadsAgree(s) && IsTaking(step)
    ensures LocalRankDrops(s, step)
  {
  }

  lemma WorkersLowerRank(s: System, step: Step)
    requires Enabled(s, step) && ThreadsAgree(s) && IsWorkers(step)
    requires step.Increment? ==> s.available < USIZE_MAX
    ensures LocalRankDrops(s, step)
  {
  }

  /** Every step of the pool itself lowers the rank; a release pays for at most
      one wake-and-sleep-again. */
  lemma RankDrops(s: System, step: Step)
    requires Enabled(s, step) && Inv(s)
    ensures Rank(Apply(s, step)) + 1 <= Rank(s) + Cost(step)
  {
    var t, i, j := Apply(s, step), MovedDispatcher(s, step), MovedWorker(s, step);
    StepIsLocal(s, step);
    if IsEntry(step) {
      EntryLowersRank(s, step);
    } else if IsTaking(step) {
      TakingLowersRank(s, step);
    } else {
      if step.Increment? { IncrementHasRoom(s, step.j); }
      WorkersLowerRank(s, step);
    }
    SumChange(s.dispatchers, t.dispatchers, i, DispatcherRank);
    SumChange(s.workers, t.workers, j, WorkerRank);
  }

  /** A run can be no longer than its starting rank and what its arrivals and
      spurious wakes pay for: no schedule makes the pool work for ever. */
  lemma {:induction false} RunLengthIsBounded(s: System, run: seq<Step>)
    requires ValidRun(s, run) && Inv(s)
    ensures |run| + Rank(End(s, run)) <= Rank(s) + TotalCost(run)
    decreases |run|
  {
    if run != [] {
      RankDrops(s, run[0]);
      StepKeepsInv(s, run[0]);
      RunLengthIsBounded(Apply(s, run[0]), run[1..]);
    }
  }

  predicate IsPoolStep(step: Step)
  {
    !step.Arrive? && !step.WakeSpuriously?
  }

  /** No thread of the pool can take a step of its own. */
  ghost predicate Stuck(s: System)
  {
    forall step: Step :: Enabled(s, step) ==> !IsPoolStep(step)
  }

  predicate Quiescent(s: System)
  {
    && s.guard.Free?
    && s.available == s.capacity
    && (forall i :: 0 <= i < |s.dispatchers| ==> s.dispatchers[i] == Dispatcher(Outside, []))
    && (forall j :: 0 <= j < |s.workers| ==> s.workers[j].pc.Finished?)
  }

  /** The thread that has the guard can always go on. */
  lemma HolderMoves(s: System) returns (step: Step)
    requires Inv(s) && s.guard.Held?
    ensures Enabled(s, step) && IsPoolStep(step)
  {
    match s.guard.owner
    case ByDispatcher(i) =>
      step := match s.dispatchers[i].pc
        case Checking(_) => Check(i)
        case Decrementing(_) => Decrement(i)
        case _ => UnlockAcquired(i);
    case ByWorker(j) =>
      if s.workers[j].pc.Incrementing? {
        step := Increment(j);
      } else if s.workers[j].pc.Leaving? {
        step := UnlockReleased(j);
      } else if i :| 0 <= i < |s.dispatchers| && s.dispatchers[i].pc.Sleeping? {
        step := NotifyOne(j, i);
      } else {
        step := NotifyOne(j, -1);
      }
  }

  predicate DispatcherAtRest(d: Dispatcher)
  {
    d.pc.Sleeping? || d == Dispatcher(Outside, [])
  }

  lemma AwakeDispatcherMoves(s: System, i: nat) returns (step: Step)
    requires Inv(s) && s.guard.Free? && i < |s.dispatchers| && !DispatcherAtRest(s.dispatchers[i])
    ensures Enabled(s, step) && IsPoolStep(step)
  {
    step := match s.dispatchers[i].pc
      case Outside => Call(i)
      case Locking => LockToAcquire(i)
      case Woken(_) => Relock(i)
      case _ => Spawn(i);
  }

  lemma UnfinishedWorkerMoves(s: System, j: nat) returns (step: Step)
    requires Inv(s) && s.guard.Free? && j < |s.workers| && !s.workers[j].pc.Finished?
    ensures Enabled(s, step) && IsPoolStep(step)
  {
    step := match s.workers[j].pc
      case Ready => StartTask(j)
      case Running => EndTask(j, false)
      case _ => LockToRelease(j);
  }

  predicate AtRest(s: System)
  {
    && (forall i :: 0 <= i < |s.dispatchers| ==> DispatcherAtRest(s.dispatchers[i]))
    && (forall j :: 0 <= j < |s.workers| ==> s.workers[j].pc.Finished?)
  }

  lemma RestHoldsNothing(s: System)
    requires AtRest(s)
    ensures |HeldPermits(s)| == 0
  {
    GatherIsEmpty(s.dispatchers, PermitOfDispatcher);
    GatherIsEmpty(s.workers, PermitOfWorker);
  }

  lemma RestOwesNoWakeup(s: System)
    requires AtRest(s)
    ensures PendingWakeups(s) + UnsentWakeups(s) == 0
  {
    SumIsZero(s.dispatchers, PendingWakeup);
    SumIsZero(s.workers, UnsentWakeup);
  }

  /** If nobody can move then nobody sleeps either: sleepers would need every
      permit to be held, and nobody is left to hold one. */
  lemma RestIsQuiescent(s: System)
    requires Inv(s) && s.guard.Free? && AtRest(s)
    ensures Quiescent(s)
  {
    RestHoldsNothing(s);
    RestOwesNoWakeup(s);
    assert s.available == s.capacity >= 1;
    assert !SomebodySleeps(s);
  }

  /** No deadlock: a pool that has not finished its work can move. */
  lemma PoolMovesUntilQuiescent(s: System) returns (step: Step)
    requires Inv(s) && !Quiescent(s)
    ensures Enabled(s, step) && IsPoolStep(step)
  {
    if s.guard.Held? {
      step := HolderMoves(s);
    } else if i :| 0 <= i < |s.dispatchers| && !DispatcherAtRest(s.dispatchers[i]) {
      step := AwakeDispatcherMoves(s, i);
    } else if j :| 0 <= j < |s.workers| && !s.workers[j].pc.Finished? {
      step := UnfinishedWorkerMoves(s, j);
    } else {
      RestIsQuiescent(s);
      assert false;
    }
  }

  lemma {:induction false} RunKnowsArrivals(s: System, run: seq<Step>)
    requires ValidRun(s, run)
    ensures KnownTasks(End(s, run)) == KnownTasks(s) + ArrivedTasks(run)
    decreases |run|
  {
    if run != [] {
      KnownAfter(s, run[0]);
      RunKnowsArrivals(Apply(s, run[0]), run[1..]);
    }
  }

  lemma QuiescentRanEverything(s: System)
    requires Inv(s) && Quiescent(s)
    ensures multiset(s.ran) == KnownTasks(s)
  {
    GatherIsEmpty(s.dispatchers, OwedTasks);
    GatherMonotone(s.workers, StartedTask, TaskOf);
    GatherMonotone(s.workers, TaskOf, StartedTask);
  }

  /** Every maximal run ends with each dispatched task run exactly once, every
      thread done and every permit back. */
  lemma MaximalRunsComplete(requested: nat, run: seq<Step>)
    requires requested <= USIZE_MAX && ValidRun(Init(requested), run)
    requires Stuck(End(Init(requested), run))
    ensures var s := End(Init(requested), run);
      Quiescent(s) && multiset(s.ran) == ArrivedTasks(run)
  {
    var s := End(Init(requested), run);
    ReachableStatesAreSafe(requested, run);
    if !Quiescent(s) {
      var step := PoolMovesUntilQuiescent(s);
    }
    QuiescentRanEverything(s);
    RunKnowsArrivals(Init(requested), run);
    assert KnownTasks(Init(requested)) == multiset{};
  }

  lemma StepOn(s: System) returns (step: Step)
    requires Inv(s) && !Quiescent(s)
    ensures Enabled(s, step) && IsPoolStep(step)
    ensures Inv(Apply(s, step)) && Rank(Apply(s, step)) < Rank(s)
  {
    step := PoolMovesUntilQuiescent(s);
    RankDrops(s, step);
    StepKeepsInv(s, step);
  }

  /** A schedule of the pool's own steps that ends with all work done. */
  predicate Finishes(s: System, rest: seq<Step>)
  {
    && ValidRun(s, rest) && Quiescent(End(s, rest))
    && forall k :: 0 <= k < |rest| ==> IsPoolStep(rest[k])
  }

  lemma FinishesAfter(s: System, step: Step, rest: seq<Step>)
    requires Enabled(s, step) && IsPoolStep(step) && Finishes(Apply(s, step), rest)
    ensures Finishes(s, [step] + rest)
  {
    RunCons(s, step, rest);
  }

  /** From every reachable state the pool can finish what it was given, without
      help from arrivals or spurious wakes. */
  lemma {:induction false} CanAlwaysFinish(s: System) returns (rest: seq<Step>)
    requires Inv(s)
    ensures Finishes(s, rest)
    decreases Rank(s)
  {
    rest := [];
    if !Quiescent(s) {
      var step := StepOn(s);
      rest := CanAlwaysFinish(Apply(s, step));
      FinishesAfter(s, step, rest);
      rest := [step] + rest;
    }
  }

  /** Nobody has got past the test of the counter. */
  predicate NothingStarted(s: System)
  {
    && s.available == 0 && s.workers == [] && s.ran == []
    && forall i :: 0 <= i < |s.dispatchers| ==>
         !s.dispatchers[i].pc.Decrementing? && !s.dispatchers[i].pc.HasPermit()
  }

  lemma {:induction false} NothingEverStarts(s: System, run: seq<Step>)
    requires NothingStarted(s) && ValidRun(s, run)
    ensures NothingStarted(End(s, run))
    decreases |run|
  {
    if run != [] {
      assert NothingStarted(Apply(s, run[0]));
      NothingEverStarts(Apply(s, run[0]), run[1..]);
    }
  }

  /** Why the capacity is clamped: with zero permits no schedule, however long and
      whatever is dispatched, ever starts a task. */
  lemma WithoutClampNoTaskEverStarts(run: seq<Step>)
    requires ValidRun(System(0, 0, Free, false, false, [], [], []), run)
    ensures var s := End(System(0, 0, Free, false, false, [], [], []), run);
      s.available == 0 && s.workers == [] && s.ran == []
  {
    NothingEverStarts(System(0, 0, Free, false, false, [], [], []), run);
  }

  lemma LoneSleeperIsStuck(task: Task)
    ensures var s := System(0, 0, Free, false, false, [Dispatcher(Sleeping, [task])], [], []);
      Stuck(s) && !Quiescent(s)
  {
    var s := System(0, 0, Free, false, false, [Dispatcher(Sleeping, [task])], [], []);
    assert s.dispatchers[0].pc == Sleeping;
  }

  /** The shortest such schedule: the first dispatch sleeps and nothing in the
      pool can ever wake it. */
  lemma WithoutClampFirstDispatchHangs(task: Task)
    ensures var s := System(0, 0, Free, false, false, [], [], []);
      var run := [Arrive([task]), Call(0), LockToAcquire(0), Check(0)];
      ValidRun(s, run) && Stuck(End(s, run)) && !Quiescent(End(s, run))
  {
    var s0 := System(0, 0, Free, false, false, [], [], []);
    var s1 := s0.(dispatchers := [Dispatcher(Outside, [task])]);
    var s2 := s0.(dispatchers := [Dispatcher(Locking, [task])]);
    var s3 := s0.(dispatchers := [Dispatcher(Checking(false), [task])], guard := Held(ByDispatcher(0), false));
    var s4 := s0.(dispatchers := [Dispatcher(Sleeping, [task])]);
    assert Apply(s0, Arrive([task])) == s1;
    assert Apply(s1, Call(0)) == s2;
    assert Apply(s2, LockToAcquire(0)) == s3;
    assert Apply(s3, Check(0)) == s4;
    RunCons(s3, Check(0), []);
    RunCons(s2, LockToAcquire(0), [Check(0)]);
    RunCons(s1, Call(0), [LockToAcquire(0), Check(0)]);
    RunCons(s0, Arrive([task]), [Call(0), LockToAcquire(0), Check(0)]);
    assert [LockToAcquire(0)] + [Check(0)] == [LockToAcquire(0), Check(0)];
    LoneSleeperIsStuck(task);
  }
}
