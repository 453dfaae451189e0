/** `BoundedWorkers` as the object its threads share. Each method is one
    indivisible region of `dispatch`, `acquire`, the spawned closure or
    `WorkerPermit::drop`. It keeps the object valid, says what it does to the
    atomic semaphore the object implements, and is the step of the same name;
    `Execute` plays any schedule of threads on the object. */
module WorkersPool {
  import opened Folds
  import opened Workers
  import opened WorkersSafety
  import opened Wrappers
  import Sem = CountingSemaphore

  /** `notify_one` turns the wakeup a release owes into a pending one, or, with
      nobody asleep, settles it. */
  lemma NotifyMovesWakeup(s: System, j: nat, target: int)
    requires Enabled(s, NotifyOne(j, target))
    ensures var t := Apply(s, NotifyOne(j, target));
      && UnsentWakeups(t) + 1 == UnsentWakeups(s)
      && PendingWakeups(t) == PendingWakeups(s) + if SomebodySleeps(s) then 1 else 0
  {
    var step := NotifyOne(j, target);
    var t := Apply(s, step);
    StepIsLocal(s, step);
    SumChange(s.workers, t.workers, j, UnsentWakeup);
    SumChange(s.dispatchers, t.dispatchers, target, PendingWakeup);
    assert NatAt(t.workers, j, UnsentWakeup) == 0 && NatAt(s.workers, j, UnsentWakeup) == 1;
    if target < 0 {
      assert !SomebodySleeps(s);
    } else {
      assert s.dispatchers[target].pc.Sleeping?;
    }
  }

  /** Exactly one thread, this one, is between its lock and its unlock. */
  predicate InCriticalSection(s: System, owner: Owner)
  {
    && (forall i :: 0 <= i < |s.dispatchers| ==> (s.dispatchers[i].pc.HasGuard() <==> owner == ByDispatcher(i)))
    && (forall j :: 0 <= j < |s.workers| ==> (s.workers[j].pc.HasGuard() <==> owner == ByWorker(j)))
  }

  predicate NobodyInCriticalSection(s: System)
  {
    && (forall i :: 0 <= i < |s.dispatchers| ==> !s.dispatchers[i].pc.HasGuard())
    && (forall j :: 0 <= j < |s.workers| ==> !s.workers[j].pc.HasGuard())
  }

  lemma GuardExcludes(s: System)
    requires ThreadsAgree(s)
    ensures s.guard.Held? ==> InCriticalSection(s, s.guard.owner)
    ensures s.guard.Free? ==> NobodyInCriticalSection(s)
  {
  }

  class BoundedWorkers {
    const capacity: nat
    var available: nat
    var guard: Guard
    var poisoned: bool
    var crashed: bool
    var dispatchers: seq<Dispatcher>
    var workers: seq<Worker>
    var ran: seq<Task>

    ghost function State(): System
      reads this
    {
      System(capacity, available, guard, poisoned, crashed, dispatchers, workers, ran)
    }

    /** Mutual exclusion, conserved permits, no lost wakeup, nothing panicked. */
    ghost predicate Valid()
      reads this
    {
      Inv(State())
    }

    /** The atomic semaphore this object stands for. */
    ghost function Semaphore(): Sem.Semaphore
      reads this
    {
      Abstraction(State())
    }

    constructor (requested: nat)
      requires requested <= USIZE_MAX
      ensures Valid() && State() == Init(requested)
      ensures capacity >= 1 && Semaphore() == Sem.Fresh(capacity)
    {
      capacity := if requested > 1 then requested else 1;
      available := if requested > 1 then requested else 1;
      guard := Free;
      poisoned := false;
      crashed := false;
      dispatchers := [];
      workers := [];
      ran := [];
      new;
      ReachableStatesAreSafe(requested, []);
    }

    method MoveDispatcherTo(i: nat, pc: DispatcherPc)
      requires i < |dispatchers|
      modifies this`dispatchers
      ensures dispatchers == old(dispatchers)[i := old(dispatchers)[i].(pc := pc)]
    {
      dispatchers := dispatchers[i := dispatchers[i].(pc := pc)];
    }

    method MoveWorkerTo(j: nat, pc: WorkerPc)
      requires j < |workers|
      modifies this`workers
      ensures workers == old(workers)[j := old(workers)[j].(pc := pc)]
    {
      workers := workers[j := workers[j].(pc := pc)];
    }

    /** `lock().expect(..)` on a free mutex. */
    method TakeGuard(owner: Owner, panicking: bool)
      modifies this`guard, this`crashed
      ensures guard == Held(owner, panicking)
      ensures crashed == (old(crashed) || poisoned)
    {
      if poisoned {
        crashed := true;
      }
      guard := Held(owner, panicking);
    }

    /** Dropping the guard. */
    method DropGuard(panicking: bool)
      requires guard.Held?
      modifies this`guard, this`poisoned
      ensures guard == Free
      ensures poisoned == (old(poisoned) || (!old(guard).panickingAtLock && panicking))
    {
      if panicking && !guard.panickingAtLock {
        poisoned := true;
      }
      guard := Free;
    }

    /** What a finished region owes to the proof: it was a step, so the object is
        valid again and the semaphore moved by the events of that step. */
    twostate lemma WasStep(step: Step)
      requires old(Valid()) && Enabled(old(State()), step)
      requires State() == Apply(old(State()), step)
      ensures Valid()
      ensures Sem.Permits(old(Semaphore()), EventsOf(old(State()), step))
      ensures Semaphore() == Sem.Final(old(Semaphore()), EventsOf(old(State()), step))
    {
      StepKeepsInv(old(State()), step);
      StepRefinesSemaphore(old(State()), step);
    }

    /** A thread with tasks to dispatch: no permit moves. */
    method Arrives(tasks: seq<Task>)
      requires Valid()
      modifies this
      ensures Valid() && State() == Apply(old(State()), Arrive(tasks))
      ensures Semaphore() == old(Semaphore())
    {
      dispatchers := dispatchers + [Dispatcher(Outside, tasks)];
      WasStep(Arrive(tasks));
    }

    method BeginsDispatch(i: nat)
      requires Valid() && Enabled(State(), Call(i))
      modifies this
      ensures Valid() && State() == Apply(old(State()), Call(i))
      ensures Semaphore() == old(Semaphore())
    {
      MoveDispatcherTo(i, Locking);
      WasStep(Call(i));
    }

    /** Locking succeeds: the mutex is never poisoned. */
    method LocksToAcquire(i: nat)
      requires Valid() && Enabled(State(), LockToAcquire(i))
      modifies this
      ensures Valid() && State() == Apply(old(State()), LockToAcquire(i))
      ensures Semaphore() == old(Semaphore())
      ensures !crashed && InCriticalSection(State(), ByDispatcher(i))
    {
      TakeGuard(ByDispatcher(i), false);
      MoveDispatcherTo(i, Checking(false));
      WasStep(LockToAcquire(i));
      GuardExcludes(State());
    }

    /** One evaluation of `while *available == 0`, and the first half of `wait`:
        giving up the mutex and joining the queue are one action. A thread goes to
        sleep exactly when every permit is held by somebody. */
    method ChecksAvailable(i: nat)
      requires Valid() && Enabled(State(), Check(i))
      modifies this
      ensures Valid() && State() == Apply(old(State()), Check(i))
      ensures Semaphore() == old(Semaphore())
      ensures dispatchers[i].pc.Sleeping? <==> |Semaphore().held| == capacity
      ensures dispatchers[i].pc.Sleeping? <==> guard.Free?
    {
      if available == 0 {
        DropGuard(false);
        MoveDispatcherTo(i, Sleeping);
      } else {
        MoveDispatcherTo(i, Decrementing(dispatchers[i].pc.notified));
      }
      WasStep(Check(i));
    }

    method WakesSpuriously(i: nat)
      requires Valid() && Enabled(State(), WakeSpuriously(i))
      modifies this
      ensures Valid() && State() == Apply(old(State()), WakeSpuriously(i))
      ensures Semaphore() == old(Semaphore())
    {
      MoveDispatcherTo(i, Woken(false));
      WasStep(WakeSpuriously(i));
    }

    /** The second half of `wait`: the mutex is taken again before returning, by
        this thread alone, and without a panic. */
    method Relocks(i: nat)
      requires Valid() && Enabled(State(), Relock(i))
      modifies this
      ensures Valid() && State() == Apply(old(State()), Relock(i))
      ensures Semaphore() == old(Semaphore())
      ensures !crashed && InCriticalSection(State(), ByDispatcher(i))
    {
      TakeGuard(ByDispatcher(i), false);
      MoveDispatcherTo(i, Checking(dispatchers[i].pc.notified));
      WasStep(Relock(i));
      GuardExcludes(State());
    }

    /** The decrement is an acquire of the atomic semaphore: the counter cannot
        be zero here, so it never underflows. */
    method Decrements(i: nat)
      requires Valid() && Enabled(State(), Decrement(i))
      modifies this
      ensures Valid() && State() == Apply(old(State()), Decrement(i))
      ensures !crashed && available + 1 == old(available)
      ensures var acquire := Sem.Acquire(old(dispatchers)[i].tasks[0]);
        Sem.Allowed(old(Semaphore()), acquire) && Semaphore() == Sem.After(old(Semaphore()), acquire)
    {
      assert available > 0;
      available := available - 1;
      MoveDispatcherTo(i, Acquired);
      WasStep(Decrement(i));
      Sem.OneEvent(old(Semaphore()), Sem.Acquire(old(dispatchers)[i].tasks[0]));
    }

    /** Afterwards nobody has the mutex, and the permit is kept. */
    method UnlocksAcquired(i: nat)
      requires Valid() && Enabled(State(), UnlockAcquired(i))
      modifies this
      ensures Valid() && State() == Apply(old(State()), UnlockAcquired(i))
      ensures Semaphore() == old(Semaphore()) && !poisoned
      ensures NobodyInCriticalSection(State())
    {
      DropGuard(false);
      MoveDispatcherTo(i, Spawning);
      WasStep(UnlockAcquired(i));
      GuardExcludes(State());
    }

    /** `thread::spawn`: the permit moves into the new thread, so the semaphore
        does not change, and no task is lost or duplicated. */
    method SpawnsWorker(i: nat)
      requires Valid() && Enabled(State(), Spawn(i))
      modifies this
      ensures Valid() && State() == Apply(old(State()), Spawn(i))
      ensures Semaphore() == old(Semaphore())
      ensures KnownTasks(State()) == old(KnownTasks(State()))
      ensures |workers| == |old(workers)| + 1
    {
      workers := workers + [Worker(dispatchers[i].tasks[0], Ready, false)];
      dispatchers := dispatchers[i := Dispatcher(Outside, dispatchers[i].tasks[1..])];
      WasStep(Spawn(i));
      KnownAfter(old(State()), Spawn(i));
    }

    method StartsTask(j: nat)
      requires Valid() && Enabled(State(), StartTask(j))
      modifies this
      ensures Valid() && State() == Apply(old(State()), StartTask(j))
      ensures Semaphore() == old(Semaphore())
      ensures |Gather(workers, RunningTask)| <= capacity
    {
      ran := ran + [workers[j].task];
      MoveWorkerTo(j, Running);
      WasStep(StartTask(j));
      GatherMonotone(workers, RunningTask, PermitOfWorker);
      SubmultisetCardinality(Gather(workers, RunningTask), HeldPermits(State()));
    }

    /** The task returns, or unwinds; either way its permit is still held and
        the worker goes on to drop it. */
    method EndsTask(j: nat, panics: bool)
      requires Valid() && Enabled(State(), EndTask(j, panics))
      modifies this
      ensures Valid() && State() == Apply(old(State()), EndTask(j, panics))
      ensures Semaphore() == old(Semaphore())
      ensures workers[j].task in Semaphore().held
      ensures workers[j].panicking == panics
    {
      workers := workers[j := workers[j].(pc := Dropping, panicking := panics)];
      WasStep(EndTask(j, panics));
      GatherContains(workers, j, PermitOfWorker);
    }

    /** A panicking worker gets the guard as well, without a second panic. */
    method LocksToRelease(j: nat)
      requires Valid() && Enabled(State(), LockToRelease(j))
      modifies this
      ensures Valid() && State() == Apply(old(State()), LockToRelease(j))
      ensures Semaphore() == old(Semaphore())
      ensures !crashed && InCriticalSection(State(), ByWorker(j))
    {
      TakeGuard(ByWorker(j), workers[j].panicking);
      MoveWorkerTo(j, Incrementing);
      WasStep(LockToRelease(j));
      GuardExcludes(State());
    }

    /** The increment is a release of the atomic semaphore; the counter stays
        within the capacity, so it never overflows. */
    method Increments(j: nat)
      requires Valid() && Enabled(State(), Increment(j))
      modifies this
      ensures Valid() && State() == Apply(old(State()), Increment(j))
      ensures !crashed && available == old(available) + 1 <= capacity
      ensures var release := Sem.Release(workers[j].task);
        Sem.Allowed(old(Semaphore()), release) && Semaphore() == Sem.After(old(Semaphore()), release)
    {
      IncrementHasRoom(State(), j);
      assert available < USIZE_MAX;
      available := available + 1;
      MoveWorkerTo(j, Notifying);
      WasStep(Increment(j));
      Sem.OneEvent(old(Semaphore()), Sem.Release(workers[j].task));
    }

    /** `notify_one`, called while the guard is still alive: some sleeper is
        woken, whichever the system picks, and none only if there is none. The
        wakeup owed by this release becomes a pending one, so the two together
        still cover the free permits. */
    method Notifies(j: nat, target: int)
      requires Valid() && Enabled(State(), NotifyOne(j, target))
      modifies this
      ensures Valid() && State() == Apply(old(State()), NotifyOne(j, target))
      ensures Semaphore() == old(Semaphore()) && guard == old(guard) && guard.Held?
      ensures UnsentWakeups(State()) + 1 == old(UnsentWakeups(State()))
      ensures PendingWakeups(State()) == old(PendingWakeups(State())) + if old(SomebodySleeps(State())) then 1 else 0
    {
      MoveWorkerTo(j, Leaving);
      if target >= 0 {
        MoveDispatcherTo(target, Woken(true));
      }
      WasStep(NotifyOne(j, target));
      NotifyMovesWakeup(old(State()), j, target);
    }

    /** Dropping the guard of a panicking worker does not poison the mutex. */
    method UnlocksReleased(j: nat)
      requires Valid() && Enabled(State(), UnlockReleased(j))
      modifies this
      ensures Valid() && State() == Apply(old(State()), UnlockReleased(j))
      ensures Semaphore() == old(Semaphore()) && !poisoned
      ensures NobodyInCriticalSection(State())
    {
      DropGuard(workers[j].panicking);
      MoveWorkerTo(j, Finished);
      WasStep(UnlockReleased(j));
      GuardExcludes(State());
    }

    method DispatcherTakes(step: Step)
      requires Valid() && Enabled(State(), step) && !IsWorkers(step)
      modifies this
      ensures Valid() && State() == Apply(old(State()), step)
    {
      match step {
        case Arrive(tasks) => Arrives(tasks);
        case Call(i) => BeginsDispatch(i);
        case LockToAcquire(i) => LocksToAcquire(i);
        case Check(i) => ChecksAvailable(i);
        case WakeSpuriously(i) => WakesSpuriously(i);
        case Relock(i) => Relocks(i);
        case Decrement(i) => Decrements(i);
        case UnlockAcquired(i) => UnlocksAcquired(i);
        case Spawn(i) => SpawnsWorker(i);
      }
    }

    method WorkerTakes(step: Step)
      requires Valid() && Enabled(State(), step) && IsWorkers(step)
      modifies this
      ensures Valid() && State() == Apply(old(State()), step)
    {
      match step {
        case StartTask(j) => StartsTask(j);
        case EndTask(j, panics) => EndsTask(j, panics);
        case LockToRelease(j) => LocksToRelease(j);
        case Increment(j) => Increments(j);
        case NotifyOne(j, target) => Notifies(j, target);
        case UnlockReleased(j) => UnlocksReleased(j);
      }
    }

    /** Any schedule of the threads, played on the object: it ends where the run
        of the step system ends, still valid, and the semaphore went through a
        legal history. */
    method Execute(run: seq<Step>)
      requires Valid() && ValidRun(State(), run)
      modifies this
      ensures Valid() && State() == End(old(State()), run)
      ensures var events := EventsOfRun(old(State()), run);
        Sem.Permits(old(Semaphore()), events) && Semaphore() == Sem.Final(old(Semaphore()), events)
    {
      ghost var start := State();
      var k := 0;
      while k < |run|
        invariant 0 <= k <= |run| && Valid()
        invariant ValidRun(State(), run[k..]) && End(State(), run[k..]) == End(start, run)
      {
        assert run[k..][0] == run[k] && run[k..][1..] == run[k + 1..];
        if IsWorkers(run[k]) {
          WorkerTakes(run[k]);
        } else {
          DispatcherTakes(run[k]);
        }
        k := k + 1;
      }
      RunRefinesSemaphoreFrom(start, run);
    }
  }
}
