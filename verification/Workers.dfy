/** src/workers.rs: `BoundedWorkers`, a counting semaphore written with a mutex
    and a condition variable, and one thread per dispatched task.

    The model is a step system over an unbounded number of dispatching
    threads and worker threads. One step is one indivisible action of one
    thread: taking the mutex, testing the counter, going to sleep (which gives
    the mutex back), waking, updating the counter, notifying, giving the mutex
    back. Steps of different threads interleave in any order, a sleeper may
    wake for no reason, and a newcomer may take a permit ahead of a thread that
    was already notified. Tasks do not dispatch on their own pool. */
module Workers {
  import opened Folds
  import opened Wrappers

  type Task = int

  /** Where a dispatching thread stands in `dispatch` and `acquire`. The flag
      says that the thread was chosen by `notify_one` and has not yet used or
      wasted that wakeup. */
  datatype DispatcherPc =
    | Outside
    | Locking
    | Checking(notified: bool)
    | Sleeping
    | Woken(notified: bool)
    | Decrementing(notified: bool)
    | Acquired
    | Spawning
  {
    predicate HasGuard() { Checking? || Decrementing? || Acquired? }
    predicate HasPermit() { Acquired? || Spawning? }
    predicate IsPending() { (Checking? || Woken? || Decrementing?) && notified }
  }

  /** `tasks` are the dispatches this thread still owes; the first one is the
      call in progress unless the thread is `Outside`. */
  datatype Dispatcher = Dispatcher(pc: DispatcherPc, tasks: seq<Task>)

  datatype WorkerPc = Ready | Running | Dropping | Incrementing | Notifying | Leaving | Finished
  {
    predicate HasGuard() { Incrementing? || Notifying? || Leaving? }
    predicate HasPermit() { Ready? || Running? || Dropping? || Incrementing? }
  }

  datatype Worker = Worker(task: Task, pc: WorkerPc, panicking: bool)

  datatype Owner = ByDispatcher(i: nat) | ByWorker(j: nat)

  /** A held guard remembers whether its thread was already panicking when it
      locked; that decides whether dropping the guard poisons the mutex. */
  datatype Guard = Free | Held(owner: Owner, panickingAtLock: bool)

  datatype System = System(
    capacity: nat,
    available: nat,
    guard: Guard,
    poisoned: bool,
    crashed: bool,
    dispatchers: seq<Dispatcher>,
    workers: seq<Worker>,
    ran: seq<Task>)

  datatype Step =
    | Arrive(tasks: seq<Task>)
    | Call(i: nat)
    | LockToAcquire(i: nat)
    | Check(i: nat)
    | WakeSpuriously(i: nat)
    | Relock(i: nat)
    | Decrement(i: nat)
    | UnlockAcquired(i: nat)
    | Spawn(i: nat)
    | StartTask(j: nat)
    | EndTask(j: nat, panics: bool)
    | LockToRelease(j: nat)
    | Increment(j: nat)
    | NotifyOne(j: nat, target: int)
    | UnlockReleased(j: nat)

  /** The three parts of the program a step can belong to. */
  predicate IsEntry(step: Step)
  {
    step.Arrive? || step.Call? || step.LockToAcquire? || step.Check? || step.WakeSpuriously? || step.Relock?
  }

  predicate IsTaking(step: Step)
  {
    step.Decrement? || step.UnlockAcquired? || step.Spawn?
  }

  predicate IsWorkers(step: Step)
  {
    !IsEntry(step) && !IsTaking(step)
  }

  function Init(requested: nat): System
  {
    var capacity := if requested == 0 then 1 else requested;
    System(capacity, capacity, Free, false, false, [], [], [])
  }

  predicate DispatcherAt(s: System, i: nat, pc: DispatcherPc)
  {
    i < |s.dispatchers| && s.dispatchers[i].pc == pc
  }

  predicate WorkerAt(s: System, j: nat, pc: WorkerPc)
  {
    j < |s.workers| && s.workers[j].pc == pc
  }

  predicate NobodySleeps(s: System)
  {
    forall i :: 0 <= i < |s.dispatchers| ==> !s.dispatchers[i].pc.Sleeping?
  }

  predicate Enabled(s: System, step: Step)
  {
    match step
    case Arrive(_) => true
    case Call(i) => DispatcherAt(s, i, Outside) && s.dispatchers[i].tasks != []
    case LockToAcquire(i) => DispatcherAt(s, i, Locking) && s.guard.Free?
    case Check(i) => i < |s.dispatchers| && s.dispatchers[i].pc.Checking?
    case WakeSpuriously(i) => DispatcherAt(s, i, Sleeping)
    case Relock(i) => i < |s.dispatchers| && s.dispatchers[i].pc.Woken? && s.guard.Free?
    case Decrement(i) => i < |s.dispatchers| && s.dispatchers[i].pc.Decrementing?
    case UnlockAcquired(i) => DispatcherAt(s, i, Acquired)
    case Spawn(i) => DispatcherAt(s, i, Spawning) && s.dispatchers[i].tasks != []
    case StartTask(j) => WorkerAt(s, j, Ready)
    case EndTask(j, _) => WorkerAt(s, j, Running)
    case LockToRelease(j) => WorkerAt(s, j, Dropping) && s.guard.Free?
    case Increment(j) => WorkerAt(s, j, Incrementing)
    case NotifyOne(j, target) =>
      && WorkerAt(s, j, Notifying)
      && if target < 0 then NobodySleeps(s) else DispatcherAt(s, target, Sleeping)
    case UnlockReleased(j) => WorkerAt(s, j, Leaving)
  }

  function MoveDispatcher(s: System, i: nat, pc: DispatcherPc): System
    requires i < |s.dispatchers|
  {
    s.(dispatchers := s.dispatchers[i := s.dispatchers[i].(pc := pc)])
  }

  function MoveWorker(s: System, j: nat, pc: WorkerPc): System
    requires j < |s.workers|
  {
    s.(workers := s.workers[j := s.workers[j].(pc := pc)])
  }

  /** The mutex is poisoned by a guard dropped during a panic that began after
      the guard was taken. */
  function Unlocked(s: System, panicking: bool): System
  {
    s.(guard := Free,
       poisoned := s.poisoned || (s.guard.Held? && !s.guard.panickingAtLock && panicking))
  }

  /** `lock().expect(..)`: taking a poisoned mutex panics. */
  function Locked(s: System, owner: Owner, panicking: bool): System
  {
    s.(guard := Held(owner, panicking), crashed := s.crashed || s.poisoned)
  }

  function Apply(s: System, step: Step): System
    requires Enabled(s, step)
  {
    match step
    case Arrive(tasks) => s.(dispatchers := s.dispatchers + [Dispatcher(Outside, tasks)])
    case Call(i) => MoveDispatcher(s, i, Locking)
    case LockToAcquire(i) => Locked(MoveDispatcher(s, i, Checking(false)), ByDispatcher(i), false)
    case Check(i) =>
      if s.available == 0 then Unlocked(MoveDispatcher(s, i, Sleeping), false)
      else MoveDispatcher(s, i, Decrementing(s.dispatchers[i].pc.notified))
    case WakeSpuriously(i) => MoveDispatcher(s, i, Woken(false))
    case Relock(i) =>
      Locked(MoveDispatcher(s, i, Checking(s.dispatchers[i].pc.notified)), ByDispatcher(i), false)
    case Decrement(i) =>
      if s.available == 0 then s.(crashed := true)
      else MoveDispatcher(s, i, Acquired).(available := s.available - 1)
    case UnlockAcquired(i) => Unlocked(MoveDispatcher(s, i, Spawning), false)
    case Spawn(i) =>
      var d := s.dispatchers[i];
      s.(dispatchers := s.dispatchers[i := Dispatcher(Outside, d.tasks[1..])],
         workers := s.workers + [Worker(d.tasks[0], Ready, false)])
    case StartTask(j) => MoveWorker(s, j, Running).(ran := s.ran + [s.workers[j].task])
    case EndTask(j, panics) =>
      s.(workers := s.workers[j := s.workers[j].(pc := Dropping, panicking := panics)])
    case LockToRelease(j) =>
      Locked(MoveWorker(s, j, Incrementing), ByWorker(j), s.workers[j].panicking)
    case Increment(j) =>
      if s.available >= USIZE_MAX then s.(crashed := true)
      else MoveWorker(s, j, Notifying).(available := s.available + 1)
    case NotifyOne(j, target) =>
      if target < 0 then MoveWorker(s, j, Leaving)
      else MoveDispatcher(MoveWorker(s, j, Leaving), target, Woken(true))
    case UnlockReleased(j) => Unlocked(MoveWorker(s, j, Finished), s.workers[j].panicking)
  }

  predicate ValidRun(s: System, run: seq<Step>)
    decreases |run|
  {
    run == [] || (Enabled(s, run[0]) && ValidRun(Apply(s, run[0]), run[1..]))
  }

  function End(s: System, run: seq<Step>): System
    requires ValidRun(s, run)
    decreases |run|
  {
    if run == [] then s else End(Apply(s, run[0]), run[1..])
  }

  lemma RunCons(s: System, step: Step, rest: seq<Step>)
    requires Enabled(s, step) && ValidRun(Apply(s, step), rest)
    ensures ValidRun(s, [step] + rest)
    ensures End(s, [step] + rest) == End(Apply(s, step), rest)
  {
    assert ([step] + rest)[1..] == rest;
  }

  // ---------- what a state says about permits, wakeups and tasks ----------

  function PermitOfDispatcher(d: Dispatcher): multiset<int>
  {
    if d.pc.HasPermit() && d.tasks != [] then multiset{d.tasks[0]} else multiset{}
  }

  function PermitOfWorker(w: Worker): multiset<int>
  {
    if w.pc.HasPermit() then multiset{w.task} else multiset{}
  }

  /** The permits in use, each labelled with its task: taken by a dispatcher but
      not yet handed to a thread, or owned by a worker until its increment. */
  function HeldPermits(s: System): multiset<int>
  {
    Gather(s.dispatchers, PermitOfDispatcher) + Gather(s.workers, PermitOfWorker)
  }

  function RunningTask(w: Worker): multiset<int>
  {
    if w.pc.Running? then multiset{w.task} else multiset{}
  }

  function StartedTask(w: Worker): multiset<int>
  {
    if w.pc.Ready? then multiset{} else multiset{w.task}
  }

  function TaskOf(w: Worker): multiset<int>
  {
    multiset{w.task}
  }

  function OwedTasks(d: Dispatcher): multiset<int>
  {
    multiset(d.tasks)
  }

  /** Every task ever handed to the pool: still owed, or already given a thread. */
  function KnownTasks(s: System): multiset<int>
  {
    Gather(s.dispatchers, OwedTasks) + Gather(s.workers, TaskOf)
  }

  function ArrivedTasks(run: seq<Step>): multiset<int>
  {
    if run == [] then multiset{}
    else (if run[0].Arrive? then multiset(run[0].tasks) else multiset{}) + ArrivedTasks(run[1..])
  }

  function PendingWakeup(d: Dispatcher): nat
  {
    if d.pc.IsPending() then 1 else 0
  }

  /** A release between its increment and its `notify_one`. */
  function UnsentWakeup(w: Worker): nat
  {
    if w.pc.Notifying? then 1 else 0
  }

  /** Threads notified that have not yet rechecked and used the counter. */
  function PendingWakeups(s: System): nat
  {
    Sum(s.dispatchers, PendingWakeup)
  }

  function UnsentWakeups(s: System): nat
  {
    Sum(s.workers, UnsentWakeup)
  }

  predicate SomebodySleeps(s: System)
  {
    exists i :: 0 <= i < |s.dispatchers| && s.dispatchers[i].pc.Sleeping?
  }

  // ---------- the invariant ----------

  predicate DispatchersAgree(s: System)
  {
    forall i :: 0 <= i < |s.dispatchers| ==>
      (s.dispatchers[i].pc.HasGuard() <==> s.guard.Held? && s.guard.owner == ByDispatcher(i))
  }

  predicate WorkersAgree(s: System)
  {
    forall j :: 0 <= j < |s.workers| ==>
      (s.workers[j].pc.HasGuard() <==> s.guard.Held? && s.guard.owner == ByWorker(j))
  }

  predicate OwnerExists(s: System)
  {
    s.guard.Held? ==>
      match s.guard.owner
      case ByDispatcher(i) => i < |s.dispatchers|
      case ByWorker(j) => j < |s.workers| && s.guard.panickingAtLock == s.workers[j].panicking
  }

  predicate ThreadsAreSane(s: System)
  {
    && (forall i :: 0 <= i < |s.dispatchers| && !s.dispatchers[i].pc.Outside? ==> s.dispatchers[i].tasks != [])
    && (forall i :: 0 <= i < |s.dispatchers| && s.dispatchers[i].pc.Decrementing? ==> s.available > 0)
  }

  predicate NoPanicInPool(s: System)
  {
    !s.poisoned && !s.crashed
  }

  /** The guard is where the program counters say it is, and no thread is
      where it cannot be. */
  predicate ThreadsAgree(s: System)
  {
    && DispatchersAgree(s)
    && WorkersAgree(s)
    && OwnerExists(s)
    && ThreadsAreSane(s)
    && NoPanicInPool(s)
  }

  predicate PermitsConserved(s: System)
  {
    s.available + |HeldPermits(s)| == s.capacity
  }

  predicate NoLostWakeup(s: System)
  {
    SomebodySleeps(s) ==> s.available <= PendingWakeups(s) + UnsentWakeups(s)
  }

  predicate RunsRecorded(s: System)
  {
    multiset(s.ran) == Gather(s.workers, StartedTask)
  }

  predicate Inv(s: System)
  {
    && 1 <= s.capacity <= USIZE_MAX
    && ThreadsAgree(s)
    && PermitsConserved(s)
    && NoLostWakeup(s)
    && RunsRecorded(s)
  }
}
