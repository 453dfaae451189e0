# The concurrency and control core of triad-runtime, in Dafny

This project models the parts of the crate whose correctness depends on more than
one function at a time, and proves what they promise. `dafny verify dfyconfig.toml`
checks everything; no module assumes anything that is not written down here.

## What is modelled

**Worker pool** (`src/workers.rs`): `CountingSemaphore`, `Workers`, `WorkersSafety`,
`WorkersProgress`, `WorkersPool`. `Workers` is a step system: any number of dispatching
threads and worker threads, one indivisible action of one thread per step (lock, test,
sleep and give the mutex back, wake, relock, decrement, unlock, spawn, start, return or
panic, increment, notify, unlock), in any interleaving, with spurious wakeups and with
newcomers overtaking notified threads. It also models mutex poisoning, the checked
counter arithmetic of a debug build, and `notify_one` while the guard is alive.
`WorkersSafety` proves the invariant, the absence of lost wakeups and the refinement to
the atomic semaphore of `CountingSemaphore`; `WorkersProgress` proves that every finite
batch completes; `WorkersPool` is the shared object, with one method per region of the
code. Every method keeps the invariant, says what it does to the atomic semaphore the object
stands for, and is the step of the same name; `Execute` plays any schedule on the object.

**Request admission** (`src/async_runtime.rs`, `src/tcp.rs`): `Admission`,
`AdmissionSafety`, `AdmissionShell` (one listener as a shared object, built like
`WorkersPool`), `Listeners`. One listener is a gate actor with a
mailbox, a permit pool, delegated waiters outside the actor, a sequential accept loop and
detached handlers; the Unix and TCP loops differ only in that a Unix loop can fail to read
the peer's credentials. `Listeners` puts any number of them under one daemon with its
start, serve, stop life cycle; the single-listener Unix daemon and the TCP daemon are the
cases with one listener.

**Runner** (`src/runner.rs`, `src/reaction.rs`): `Runner`, `Reaction`. An engine is any
family of state transformers over an opaque state. The unbounded semantics is defined
first, without a budget; the loop with its budget is proved to do exactly what that
semantics prescribes under a limit.

**Codec** (`src/frame.rs`): `Frame`. Encoding and decoding as functions of byte strings,
and the codec and a reader that hands out bytes in arbitrary pieces as objects.

**Polling daemon** (`src/daemon.rs`): `PollingDaemon`, `PollingShell`. The three nested
loops against an environment that may deliver streams, fail an accept and change its mind
about stopping at every call.

**Socket files** (`src/daemon.rs`, `src/process.rs`): `SocketFiles`, `SocketShell`. The
file system is a map from locations to kinds; every system call of the bind path can be
refused.

`Folds` holds sums and multiset unions over sequences, `Wrappers` the option type and the
integer ranges.

## What the proofs brought to light

- The permit mutex of the worker pool is never poisoned, even when work panics: the guard
  is then taken by a thread that is already panicking, and dropping such a guard does not
  poison. So neither `expect` can fire (`WorkersSafety.PanicsReachTheGuard`; what would
  happen otherwise is `WorkersSafety.PanicUnderTheGuardPoisons`).
- With at least one listener an asynchronous daemon never reports success and never
  reports an error from `stop`: the accept loops only end by failing, and a listener error
  outranks a stop error. The listener error is always an I/O error, never that of a refused
  request, because gates are stopped only after a loop has failed
  (`Listeners.RunEndsWithListenerError`).
- `ARCHITECTURE.md` (lines 225-228) presents `should_continue` as the stop boundary of the
  polling daemon. In the code it is asked twice in a row, by the inner and by the outer
  loop, so a no to the inner loop that is followed by two yeses still lets a request
  through; `PollingDaemon.RelapseIsServed` is such a run, from bind to the request. For a
  given runtime, start state and number of listeners, no run in any environment handles a
  request after a no if and only if the runtime's own answers allow no path from the first
  question to such a relapse (`PollingDaemon.StopIsHeededIff`). A no that lasts, like a
  shutdown flag, is always heeded (`PollingDaemon.LastingNoIsEnough`).
- At the limit `u32::MAX` an exhausted budget reports an attempted count equal to the
  completed one (`Runner.BoundsOfOutcome`).
- If `listen`, setting the mode or setting the nonblocking flag fails, the listener's own
  fresh socket file stays behind, because no guard owns it yet, unless an earlier listener
  has the same path: then that listener's guard removes it
  (`SocketFiles.OwnSocketStaysIff`, `SocketFiles.FreshSocketStaysOrGoes`). The paths of all
  earlier listeners end up empty either way (`SocketFiles.FailedBindRollsBack`).

## Assumptions

Tokio's semaphore is the atomic counting semaphore and serves waiters in any order; an
actor handles one message at a time, a graceful stop is itself a message, requests queued
behind it and requests made later are answered with an error; a permit whose reply nobody
awaits is dropped. A requested concurrency limit is within what Tokio's semaphore accepts
(`usize::MAX >> 3`; above that its constructor panics). Work running on a worker pool does not dispatch on the same pool.
`usize` has 64 bits. The file system has no symlinked directories on configured paths and
no other writer during bind. What a runtime, an engine or a client does is arbitrary.

## Main results

- Worker pool: `WorkersSafety.PoolRefinesSemaphore`, `WorkersSafety.StepKeepsWakeups`,
  `WorkersSafety.PanicsReachTheGuard`, `WorkersProgress.MaximalRunsComplete`.
- Admission of one listener: `AdmissionSafety.PermitsAlwaysConserved`,
  `AdmissionSafety.PoolIsSemaphoreHistory`, `AdmissionSafety.MailboxIsFirstInFirstOut`,
  `AdmissionSafety.MailboxDrains`, `AdmissionSafety.BacklogAlwaysBounded`,
  `AdmissionSafety.ErrorLogIsExact`.
- The asynchronous daemons: `Listeners.NoListenerBlocksAnother`, `Listeners.LifeCycleInOrder`,
  `Listeners.RunEndsWithListenerError`, `Listeners.StopCanMove` with
  `Listeners.StopRankOnlyFalls`.
- Runner and seam: `Runner.Drive` with `Runner.OutcomeExistsAndIsUnique`,
  `Runner.RunsAreMonotoneInLimit`, `Reaction.DrivingThroughSeamIsInterpreting`.
- Codec: `Frame.StreamRoundTrip`, `Frame.StreamReadsAccountForBytes`,
  `Frame.LengthPrefixedCodec.ReadBody`.
- Polling daemon: `PollingDaemon.RunsKeepOrder`, `PollingDaemon.PollingHandlesAllInIndexOrder`,
  `PollingDaemon.QuietEndServesEverything`, `PollingDaemon.RunShape`,
  `PollingDaemon.RunFollowsRuntime`, `PollingDaemon.RequestErrorsAreIsolated`,
  `PollingDaemon.StopIsHeededIff`.
- Socket files: `SocketFiles.FailedBindRollsBack`, `SocketFiles.OwnSocketStaysIff`,
  `SocketFiles.BindSucceedsIff`.

The other rows are steps towards these or facts about one operation.
`Listeners.ProjectionIsRun` and `Listeners.ScheduleIsRunIffPartsAre` hold of any such product
of state machines, `Frame.EncodeSucceedsIff` and `Reaction.SeamIsBijective` only unfold
definitions for later use, and `WorkersSafety.OnlyTheMutexBlocks` and
`AdmissionSafety.NothingElseBlocks` say which schedules the models allow.

## Model

| member | source | states |
|---|---|---|
| CountingSemaphore.HistoriesCompose | src/workers.rs:53-58 | Legal semaphore histories can be put one after the other, and the final state is that of the parts |
| CountingSemaphore.HistoryIsBalanced | src/workers.rs:53-58 | No legal history of acquires and releases creates or loses a permit |
| WorkersSafety.HeldAfter | src/workers.rs:75-103 | Only the decrement adds to the permits in use and only the increment removes one, handing a permit to a new thread included |
| WorkersSafety.IncrementHasRoom | src/workers.rs:93-102 | A releasing worker still owns its permit, so the counter is below capacity and the increment cannot overflow |
| WorkersSafety.KnownAfter | src/workers.rs:41-50 | No step loses or duplicates a dispatched piece of work |
| WorkersSafety.StepKeepsWakeups | src/workers.rs:76-102 | Every step keeps: if somebody sleeps on the condition variable, the free permits do not exceed the wakeups sent and not yet used plus the releases about to notify |
| WorkersSafety.WorkersKeepThreads | src/workers.rs:93-102 | Every worker step leaves the mutex unpoisoned and owned by exactly the thread whose position says so, with the guard remembering whether that worker unwinds |
| WorkersSafety.StepConservesPermits | src/workers.rs:53-102 | Available plus held permits equal the capacity after every step |
| WorkersSafety.StepKeepsInv | src/workers.rs:41-102 | The whole invariant is inductive: mutual exclusion, sane positions, conservation, no lost wakeup, start record |
| WorkersSafety.ReachableStatesAreSafe | src/workers.rs:28-102 | Every reachable state from any requested capacity satisfies the invariant with the clamped capacity, and no lock or counter operation has panicked |
| WorkersSafety.AllAsleepMeansAllTaken | src/workers.rs:76-102 | With the mutex free and no wakeup in flight, a sleeping dispatcher implies that every permit is held, and that there is at least one |
| WorkersSafety.RunningNeverExceedsCapacity | src/workers.rs:39-50 | Pieces of work running at once never exceed the capacity, in every run |
| WorkersSafety.PanicsReachTheGuard | src/workers.rs:46-49 | In every run exactly the workers whose task panicked unwind, the guard they hold to give the permit back remembers it, and the mutex is not poisoned all the same |
| WorkersSafety.PanicUnderTheGuardPoisons | src/workers.rs:94-102 | A guard taken before a panic and dropped during it would poison the mutex, and whoever locks next would panic |
| WorkersSafety.CounterIsChecked | src/workers.rs:87-100 | Below zero or past the largest `usize` the counter would panic instead of wrapping |
| WorkersSafety.PermitComesBack | src/workers.rs:93-102 | Whether its task returned or panicked, a worker alone with the mutex gives one permit back, wakes a sleeper if there is one and leaves everything else as it was |
| WorkersSafety.TasksRunInOrder | src/workers.rs:46-49 | The record of started tasks is exactly the tasks of the workers that the schedule starts, in its order |
| WorkersSafety.PendingWakeupsAreNotified | src/workers.rs:82-101 | Pending wakeups never outnumber the notifications that found a sleeper: spurious wakes and newcomers do not count |
| WorkersSafety.SpuriousWakeIsHarmless | src/workers.rs:81-86 | A sleeper woken for nothing tests the counter and sleeps again, with nothing changed |
| WorkersSafety.NewcomerMayOvertake | src/workers.rs:76-90 | Whenever one permit is free a notified thread can lose it to a newcomer and sleep again |
| WorkersSafety.OnlyTheMutexBlocks | src/workers.rs:41-102 | A thread that needs the mutex waits for nothing else, a sleeper may always wake, a release may wake any sleeper, and all others wait for nobody |
| WorkersSafety.StepRefinesSemaphore | src/workers.rs:75-103 | Every concrete step is an abstract acquire, an abstract release or a stutter of the atomic semaphore |
| WorkersSafety.PoolRefinesSemaphore | src/workers.rs:53-103 | Every run of the mutex-and-condvar code is a legal history of the atomic semaphore with the clamped capacity and ends in the corresponding state |
| WorkersProgress.RankDrops | src/workers.rs:41-102 | Every step lowers a numeric rank, up to what an arriving batch or a spurious wake adds; each release pays for at most one wake and sleep again |
| WorkersProgress.RunLengthIsBounded | src/workers.rs:41-102 | No schedule keeps the pool busy for ever: the length of a run is bounded by its initial rank, its arrivals and its spurious wakes |
| WorkersProgress.PoolMovesUntilQuiescent | src/workers.rs:41-102 | No deadlock: unless all work is done, some thread of the pool can take a step of its own |
| WorkersProgress.MaximalRunsComplete | src/workers.rs:41-102 | Every maximal run ends with each dispatched piece of work started exactly once, every thread done and every permit back |
| WorkersProgress.CanAlwaysFinish | src/workers.rs:41-102 | From every safe state the pool can finish without further arrivals or spurious wakes |
| WorkersProgress.WithoutClampNoTaskEverStarts | src/workers.rs:26-31 | At capacity zero no schedule, whatever is dispatched, ever starts a task: why the capacity is clamped |
| WorkersProgress.WithoutClampFirstDispatchHangs | src/workers.rs:26-31 | The shortest such schedule ends stuck after its first dispatch, with the work undone |
| WorkersPool.BoundedWorkers.constructor | src/workers.rs:28-32 | A fresh pool is valid and stands for a fresh atomic semaphore of at least one permit |
| WorkersPool.BoundedWorkers.ChecksAvailable | src/workers.rs:81-85 | A dispatcher goes to sleep exactly when every permit is held, and it sleeps exactly if it gave the mutex back; no permit moves |
| WorkersPool.BoundedWorkers.Relocks | src/workers.rs:82-85 | A woken thread is alone between lock and unlock when it tests again, and taking the mutex did not panic |
| WorkersPool.BoundedWorkers.Decrements | src/workers.rs:87 | The decrement is an allowed acquire of the atomic semaphore by the task being dispatched, and cannot underflow |
| WorkersPool.BoundedWorkers.UnlocksAcquired | src/workers.rs:88 | Afterwards nobody is between lock and unlock, the mutex is not poisoned and the permit is still held |
| WorkersPool.BoundedWorkers.SpawnsWorker | src/workers.rs:45-49 | Handing the permit to the new thread leaves the semaphore unchanged and loses or duplicates no task |
| WorkersPool.BoundedWorkers.EndsTask | src/workers.rs:46-49 | Whether the task returned or panicked, which the worker remembers, its permit is still held, so it can be given back exactly once |
| WorkersPool.BoundedWorkers.LocksToRelease | src/workers.rs:94-99 | A worker that drops its permit, panicking or not, is alone between lock and unlock without a second panic |
| WorkersPool.BoundedWorkers.Increments | src/workers.rs:100 | The increment is an allowed release of the atomic semaphore by the task that ended, and stays within the capacity |
| WorkersPool.BoundedWorkers.Notifies | src/workers.rs:101 | The wakeup this release owes becomes a pending one exactly if somebody sleeps, with the guard still held |
| WorkersPool.BoundedWorkers.UnlocksReleased | src/workers.rs:102 | Dropping the guard of a panicking worker does not poison the mutex, and leaves nobody between lock and unlock |
| WorkersPool.NotifyMovesWakeup | src/workers.rs:101 | Over all threads one owed wakeup is settled and at most one pending wakeup added, exactly one if there is a sleeper |
| WorkersPool.BoundedWorkers.Execute | src/workers.rs:25-103 | Any schedule played on the object keeps it valid, ends where the run of the step system ends, and is a legal history of the atomic semaphore |
| AdmissionSafety.StepConservesPermits | src/async_runtime.rs:288-312 | Available plus held equals the limit after every step: abandoned asks, handler failure and panic, `into_parts`, loop abort and gate shutdown included |
| AdmissionSafety.StepIsSemaphoreHistory | src/async_runtime.rs:305-312 | One step moves the pool by at most one legal event, on the permit of the request that moved |
| AdmissionSafety.PoolIsSemaphoreHistory | src/async_runtime.rs:288-312 | Over its whole life, gate shutdown and loop abort included, the pool goes through a legal history of the atomic semaphore with the clamped limit |
| AdmissionSafety.StepKeepsCount | src/async_runtime.rs:385-388 | The accepted count is the number of acquire messages handled so far, capped at the largest `u64` |
| AdmissionSafety.StepKeepsInv | src/async_runtime.rs:504-528 | The whole invariant of one listener is inductive: conservation, named holders, exact count, loop and mailbox agreement |
| AdmissionSafety.PermitsAlwaysConserved | src/async_runtime.rs:260-312 | Every reachable state is safe and conserves permits, with a limit of at least one whatever was requested |
| AdmissionSafety.BacklogAlwaysBounded | src/async_runtime.rs:939-964 | Accepted streams still in the loop plus connections holding a permit never exceed the limit plus one |
| AdmissionSafety.BacklogIsBounded | src/tcp.rs:112-119 | The same bound for any safe state of either transport, and the limit itself once the loop holds its permit |
| AdmissionSafety.StatusIsExact | src/async_runtime.rs:377-388 | A status reply satisfies available plus held equals limit at that instant; its count is everything waiting, held or released, capped at the largest `u64` |
| AdmissionSafety.NoStatusIsLost | src/async_runtime.rs:519-528 | While a gate lives every status request of a run has its reply or is still in the mailbox, and replies stay in order for ever |
| AdmissionSafety.ErrorLogIsExact | src/async_runtime.rs:966-980 | In every run the error log is exactly the connections whose handlers returned an error, in the order they did |
| AdmissionSafety.LoopEndsAsItFailed | src/async_runtime.rs:933-964 | In every run the loop ended with an I/O error exactly if an accept or reading a peer failed, with a gate error exactly if it saw a refusal, aborted exactly if it was; TCP reads no peer |
| AdmissionSafety.AnyAcceptMayFail | src/async_runtime.rs:910-913 | Any accept, and on a Unix socket any reading of the peer, can fail and end the loop |
| AdmissionSafety.AbandonedIsUnheard | src/async_runtime.rs:507-515 | In every run a client request is unheard exactly if its client abandoned it |
| AdmissionSafety.AcceptedFirstComeFirst | src/async_runtime.rs:939-945 | After n accepts of a run the waiting streams are everything that came without the first n |
| AdmissionSafety.NothingElseBlocks | src/async_runtime.rs:504-528 | A waiter waits only for a free permit, the actor only for a message, the loop only for a stream or an answer, and delivery and handlers for nothing, gate down or not |
| AdmissionSafety.StreamOutlivesPermit | src/async_runtime.rs:353-360 | After `into_parts` the handler goes on without a permit, and its end gives none back but still logs its error |
| AdmissionSafety.MailboxIsFirstInFirstOut | src/async_runtime.rs:504-528 | In every run, whatever asks, permits and handlers come between, the message at position n is the next one after n turns of the actor and the rest is still there in order |
| AdmissionSafety.MailboxDrains | src/async_runtime.rs:504-528 | From every safe state of a live gate the actor empties its mailbox in one turn per message, up to a stop signal, without touching the pool: with no permit free too |
| AdmissionSafety.ServeAsking | src/async_runtime.rs:956-985 | A loop waiting for its permit reaches the end of its handler if the permit is already granted, whatever the gate does, or if one is free and nobody has asked the gate to stop |
| AdmissionSafety.AdmitAndServe | src/async_runtime.rs:947-985 | With a free permit and an empty mailbox the loop's request is granted, delivered, handed to a handler and finished |
| AdmissionSafety.ServesNextStream | src/async_runtime.rs:939-945 | Wherever its loop is, a listener with a stream and a permit in hand, granted, or free behind an open gate can bring that very stream to the end of its handler on its own steps alone |
| AdmissionShell.ListenerShell.constructor | src/async_runtime.rs:363-369 | A fresh listener is valid, with at least one permit, all of them available |
| AdmissionShell.ListenerShell.Ask | src/async_runtime.rs:956-964 | A live gate gets exactly one message for the new request, a stopped one refuses it; the queued requests stay exactly the acquire messages in the mailbox |
| AdmissionShell.ListenerShell.IdentifiesAndAsks | src/async_runtime.rs:947-954 | Failing to read the peer leaves no request and no stream in the loop; otherwise the loop waits for a request of this very connection |
| AdmissionShell.ListenerShell.NoticesRejection | src/async_runtime.rs:956-964 | A loop ends with a gate error only after its gate went down, with no permit moved |
| AdmissionShell.ListenerShell.SpawnsConnection | src/async_runtime.rs:966-979 | Held permits do not change: the loop has one stream less and one connection more holds a permit |
| AdmissionShell.ListenerShell.AbortsLoop | src/async_runtime.rs:717-725 | A permit the loop had comes back, and no permit can reach the loop any more |
| AdmissionShell.ListenerShell.TakesTurn | src/async_runtime.rs:504-528 | No turn moves a permit; an acquire is counted once, a status reply is consistent at its instant, a stop leaves nothing queued |
| AdmissionShell.ListenerShell.TakesPermit | src/async_runtime.rs:305-312 | One permit more is held, within the limit, and exactly one under the name of this request |
| AdmissionShell.ListenerShell.DeliversPermit | src/async_runtime.rs:507-515 | With nobody listening exactly one permit comes back; a loop that gets one was waiting for exactly this request |
| AdmissionShell.ListenerShell.IntoParts | src/async_runtime.rs:353-360 | Exactly one permit comes back and one connection less holds one, while the handler goes on |
| AdmissionShell.ListenerShell.EndsHandler | src/async_runtime.rs:966-980 | A permit comes back exactly if the handler still had one, and its connection is logged exactly if it returned an error |
| AdmissionShell.ListenerShell.Execute | src/async_runtime.rs:916-985 | Any schedule played on the object keeps it valid, ends where the run of the step system ends, and takes the pool through a legal history of the atomic semaphore |
| Listeners.ProjectionIsRun | src/async_runtime.rs:692-746 | What listener j goes through in any run of the daemon is a run of j alone, ending in the same state |
| Listeners.ScheduleIsRunIffPartsAre | src/async_runtime.rs:707-711 | Independent local runs interleave freely: a schedule is possible exactly when each listener could follow its part alone |
| Listeners.NoListenerBlocksAnother | src/async_runtime.rs:707-711 | In every reachable serving state, wherever its loop is, a listener with a stream and a permit within reach can serve it while all others stand still, whatever they hold |
| Listeners.DaemonBacklogIsBounded | src/async_runtime.rs:692-711 | Over n listeners streams in the loops plus connections holding permits are at most n times the limit plus one |
| Listeners.RunEndsWithListenerError | src/async_runtime.rs:679-690 | A finished run reports a start error exactly if the runtime did not start; with listeners otherwise the I/O error of a loop in which an accept or a peer failed, never success, a refused request or a stop error; without listeners what stopping answered; unless the start failed every gate is down |
| Listeners.LifeCycleInOrder | src/async_runtime.rs:655-711 | In every run the runtime is started once and first, loops exist exactly if it started and accept nothing before, nothing is aborted or stopped before serving is over, and the runtime is stopped once and last |
| Listeners.IoErrorsHappened | src/async_runtime.rs:939-954 | A loop that ended with an I/O error had an accept or the reading of a peer fail in the schedule |
| Listeners.DaemonLogsAreExact | src/async_runtime.rs:966-980 | The error log of every listener is exactly its own connections whose handlers returned an error, in order |
| Listeners.FailedLoopEndsDaemon | src/async_runtime.rs:713-724 | From every reachable serving state with a failed loop the daemon can go to its listener error, with every pool as it is |
| Listeners.LoopsCanBeAborted | src/async_runtime.rs:713-724 | Once serving is over every loop that has not failed can be aborted, and then it is |
| Listeners.EmptyDaemonRuns | src/async_runtime.rs:679-690 | A daemon without listeners can start or not and stop or not, and reports each accordingly |
| Listeners.StopNeverWaitsForHandlers | src/async_runtime.rs:871-885 | Once a loop has failed the daemon can reach its result with every pool exactly as it is: no permit, waiter or handler is waited for |
| Listeners.StopCanMove | src/async_runtime.rs:871-885 | While the daemon stops some step towards the end is always enabled, a step of its own or a turn of a gate it asked, and it needs no permit, waiter or handler |
| Listeners.StopRankOnlyFalls | src/async_runtime.rs:871-885 | Every such step lowers a rank that no other step of listeners, clients or handlers can raise, until the daemon is done with the result of its cause |
| Listeners.ReachableCanStop | src/async_runtime.rs:679-690 | Every reachable state after a loop has failed satisfies what the two rows above require |
| Runner.GoesSplit | src/runner.rs:168-196 | Running m steps and then n is running m + n: same state, same dispatches |
| Runner.OutcomeExistsAndIsUnique | src/runner.rs:157-197 | For every engine and limit exactly one outcome is prescribed; it is the exhausted one if and only if no reply comes within the limit |
| Runner.BoundsOfOutcome | src/runner.rs:109-125 | At most limit dispatches and one decision more; an exhausted record has completed equal to the limit and attempted one more, except at the largest `u32` |
| Runner.RunsAreMonotoneInLimit | src/runner.rs:157-197 | Raising the limit only extends the dispatches, and a run that replied is unchanged |
| Runner.ContinuationBudget.SpendNextStep | src/runner.rs:113-125 | A step is spent exactly while completed is below the limit; completed plus remaining stays equal to the limit |
| Runner.Drive | src/runner.rs:157-197 | The loop ends for every engine, and its reply, final state, dispatches, number of decisions and exhaustion record are what the unbounded semantics prescribes |
| Reaction.SeamIsBijective | src/reaction.rs:112-125 | Every next step comes from exactly one action |
| Reaction.DrivingThroughSeamIsInterpreting | src/reaction.rs:105-125 | Driving through the projection and interpreting actions directly are the same run, for every engine, start and limit |
| Frame.LengthSurvives | src/frame.rs:93-96 | Four big-endian bytes give back the length, over the whole `u32` range |
| Frame.BytesSurvive | src/frame.rs:119-121 | Every four bytes are the encoding of the length they decode to |
| Frame.PrefixIsPositional | src/frame.rs:119-121 | The prefix is the length to base 256, most significant byte first |
| Frame.EncodeSucceedsIff | src/frame.rs:91-99 | Encoding succeeds if and only if the body fits the maximum and the prefix, with the exact frame length or the found length |
| Frame.FrameRoundTrip | src/frame.rs:118-126 | A frame followed by anything decodes to its body and leaves the rest, or is refused by its length with nothing after the prefix read |
| Frame.ReadConsumesEncoding | src/frame.rs:118-126 | A successful read consumed exactly the encoding of its result |
| Frame.StrictPrefixFails | src/frame.rs:118-126 | No strict prefix of a frame decodes |
| Frame.LengthDecides | src/frame.rs:118-126 | Whatever follows the prefix: a length above the maximum is refused with nothing more read, and too little following a permitted one is the end of input |
| Frame.StreamRoundTrip | src/frame.rs:91-126 | Decoding the concatenated encodings of any list of bodies gives back the list and leaves the tail |
| Frame.StreamReadsAccountForBytes | src/frame.rs:118-126 | On arbitrary input the bodies read and what is left account for every byte |
| Frame.StreamsAreUnambiguous | src/frame.rs:91-99 | The encoding of a list of bodies determines the list |
| Frame.ByteReader.ReadExact | src/frame.rs:118-124 | However the bytes are cut into pieces, exactly the wanted prefix is read, or the end of input is reported |
| Frame.LengthPrefixedCodec.EncodeBody | src/frame.rs:91-99 | The codec writes the frame of the body, or reports its length |
| Frame.LengthPrefixedCodec.ReadBody | src/frame.rs:118-142 | Result and unread rest depend only on the bytes, not on how they arrive |
| PollingDaemon.RunsKeepOrder | src/daemon.rs:373-402 | In every run everything sent to a listener has arrived there, its handled streams are a first-come prefix of that, handled plus queued is arrived, and the error log is exactly the failing requests in order |
| PollingDaemon.QuietScan | src/daemon.rs:373-385 | With nothing arriving from now on a scan serves the oldest stream of the first listener that has one, and reports idle exactly when nobody waits |
| PollingDaemon.ScanStopsAt | src/daemon.rs:373-385 | In any environment a scan asks the listeners in index order, fails exactly at the first accept that fails, serves the listener it asked last and is idle only after asking all |
| PollingDaemon.ServeFailsOnlyOnAccept | src/daemon.rs:387-402 | Serving fails only because the accept just made failed: neither a request error nor a stop does it |
| PollingDaemon.PollingHandlesAllInIndexOrder | src/daemon.rs:373-385 | With nothing arriving from now on repeated polling handles exactly the waiting streams, queue after queue in index order, before it reports idle |
| PollingDaemon.QuietEndServesEverything | src/daemon.rs:373-385 | After any run, once the world is quiet, one poll per waiting stream leaves every stream that ever arrived handled, in order of arrival at its listener |
| PollingDaemon.ServeIsDisciplined | src/daemon.rs:387-402 | While serving every request directly follows a question answered yes, and a clean end follows a no |
| PollingDaemon.RunShape | src/daemon.rs:328-340 | A finished run is a failed start alone, or start, questions and requests, and exactly one stop; the first accept that fails ends it with a listener error, which outranks a stop error and occurs in no other run; a run still going has reached the horizon |
| PollingDaemon.RunFollowsRuntime | src/daemon.rs:328-340 | The runtime goes through start, the handled requests in order, each meeting what its predecessors left, and stop; the answers of start and stop are the ones reported |
| PollingDaemon.RequestErrorsAreIsolated | src/daemon.rs:373-385 | Which requests fail changes nothing but the log: same result, same requests in the same order, same runtime, same queues |
| PollingDaemon.PathsAreServed | src/daemon.rs:387-402 | Every path through the loop heads that the runtime's answers allow is taken by the daemon in some environment, with the events the path prescribes |
| PollingDaemon.ServeHeedsStop | src/daemon.rs:387-402 | If no path from here leads to a relapse, nothing is handled after the first no |
| PollingDaemon.RelapseIsServed | src/daemon.rs:387-402 | A whole run of a one-listener daemon whose runtime says no just once handles a request after it: the documented boundary fails |
| PollingDaemon.StopIsHeededIff | src/daemon.rs:387-402 | For a given runtime, start state and number of listeners: no run in any environment handles a request after a no if and only if the answers allow no path to no, yes, yes at an inner loop head |
| PollingDaemon.LastingNoIsEnough | src/daemon.rs:387-402 | A runtime whose no lasts for at least one of the next two questions is heeded from every start |
| PollingShell.BoundMultiListenerDaemon.AcceptNextStream | src/daemon.rs:453-459 | An accept takes the oldest waiting stream, reports that nobody waits, or fails, and changes no other queue |
| PollingShell.BoundMultiListenerDaemon.TryServeNextStream | src/daemon.rs:373-385 | The index loop is the scan: at most one request is handled, from the first listener that has one |
| PollingShell.BoundMultiListenerDaemon.ServeNextStream | src/daemon.rs:387-395 | The inner loop returns after one request, a no or an error, and sleeps only after an idle scan |
| PollingShell.BoundMultiListenerDaemon.ServeStreams | src/daemon.rs:397-402 | The two nested loops are the serving function, up to any horizon |
| PollingShell.BoundMultiListenerDaemon.Run | src/daemon.rs:328-340 | The object starts its runtime, serves and stops it in that order, reports the answers it got and lets a listener error outrank a stop error |
| SocketFiles.BindOneOnlyTouches | src/daemon.rs:556-573 | Binding one listener creates directories above its path, replaces nothing but a socket at its path, and changes nothing else |
| SocketFiles.DropAllRemovesExactly | src/process.rs:570-577 | Dropping guards removes exactly the sockets at their paths |
| SocketFiles.FailedBindRollsBack | src/daemon.rs:307-326 | If binding fails at listener k, earlier listeners' paths are empty, nothing that was not a socket changed, and the only other traces are new ancestor directories and possibly k's own fresh socket |
| SocketFiles.OwnSocketStaysIff | src/daemon.rs:556-573 | With nothing at the path of listener k before, binding fails at k leaving a fresh socket there exactly if all earlier listeners can bind, k reaches bind, bind makes the file, a later call fails and no earlier listener has the same path |
| SocketFiles.FailureAfterBindLeavesSocket | src/daemon.rs:307-326 | A failure after the bind of listener k is an I/O error at k, and the socket stays at its path exactly if no earlier listener has the same path, a stale socket before or not |
| SocketFiles.FreshSocketStaysOrGoes | src/daemon.rs:307-326 | Both outcomes on an empty file system: one listener leaves its file, the same path configured twice does not |
| SocketFiles.BoundDaemonCleansUp | src/daemon.rs:468-472 | A bound daemon has a socket at every path; dropping it leaves none and leaves every earlier non-socket as it was |
| SocketFiles.CreateDirAllSucceedsIff | src/process.rs:579-584 | Creating the parents succeeds exactly if every existing ancestor is a directory and the system makes as many as are missing, and it makes no more |
| SocketFiles.AttemptKeepsDirectories | src/process.rs:579-584 | Whether an attempt succeeds or fails, above its path exactly those directories exist that did before or that the system let it make |
| SocketFiles.PathIsValidIff | src/process.rs:337-367 | A path is accepted if and only if it is absolute and no component goes up, and each of the three errors has its own exact condition |
| SocketFiles.LocationFollowsNames | src/process.rs:356-366 | An accepted path leads along its named components, and a single dot anywhere makes no difference |
| SocketFiles.BindSucceedsIff | src/daemon.rs:307-326 | Whatever the system refuses: binding succeeds if and only if every path is accepted (as the two rows above say), free and nests with no earlier one and no refused call is reached, all told from the state before; otherwise it fails at exactly the first listener of which this is not so |
| SocketFiles.UnacceptedPathFails | src/process.rs:561-565 | If all earlier listeners can bind, a path that is not accepted ends the loop at its listener with the reason, and no earlier socket is left |
| SocketFiles.ParentDirectoryIsRefused | src/process.rs:356-365 | An absolute path that goes up is refused as such wherever it leads |
| SocketFiles.AttemptFailsBecause | src/process.rs:586-603 | A failed attempt names the kind of a non-socket at its path if only directories are above and nothing was refused on the way, and reports an I/O error otherwise |
| SocketShell.FileSystem.RemoveStaleSocket | src/process.rs:586-603 | Only a socket is removed; anything else at the path is reported by its kind and kept |
| SocketShell.FileSystem.PrepareLocation | src/process.rs:561-568 | Parents are made before the stale socket is looked for |
| SocketShell.FileSystem.BindListener | src/daemon.rs:556-573 | Prepare, bind, mode and nonblocking in this order, each able to fail |
| SocketShell.FileSystem.RemoveSocketIfCurrent | src/process.rs:570-577 | The guard removes its path only if a socket is there |
| SocketShell.FileSystem.DropGuards | src/daemon.rs:468-472 | Guards run front to back |
| SocketShell.FileSystem.Bind | src/daemon.rs:307-326 | The bind loop pushes guards as it goes and drops exactly those on failure |

## Left out

- Nested dispatch: work that dispatches on its own worker pool can block itself; the model assumes it does not.
- Failure of `thread::spawn` in the worker pool: it would unwind the dispatcher with the permit in the closure; spawning always succeeds in the model.
- Fairness: which waiter a permit goes to, and starvation, are not promised by the code.
- The inside of Tokio and Kameo: only the behaviour listed under Assumptions is used.
- Handlers still running when `stop` returns, or starting after `abort_all`: the code promises nothing about them.
- Listeners.RunEndsWithListenerError: an accept task that panics, which the multi-listener daemon reports as a `ListenerTask` error and which unwinds `run` in a single-listener one, is not modelled; accept loops end by failing or by being aborted.
- PollingDaemon.RunShape: a `handle_stream`, `start` or `should_continue` that panics unwinds the daemon past `stop`; the model's runtime always returns, and "exactly one stop" rests on that.
- Manual serving of one connection on a bound daemon, and its index error: one turn of the same loop.
- The bind loop of the asynchronous daemon (`src/async_runtime.rs:556-575`): it prepares, binds and guards in the same order as the polling daemon's, and starts a gate in between, which touches no file.
- PollingShell.BoundMultiListenerDaemon.ServeStreams: a run without end is followed only up to an arbitrary horizon, counted in accepts, sleeps and questions.
- The single-listener polling daemon: one blocking accept loop without a stop signal.
- Frame.LengthPrefixedCodec.ReadBody: the only read error modelled is the end of input; how many bytes `read_exact` consumes before an early end is fixed to all of them.
- `write_body` and `write_body_async`: `encode_body` followed by a library call.
- SocketFiles.FailedBindRollsBack: removals by drop guards do not fail; other writers and symlinked directories are excluded.
- Parsing a path string into components: a path is given as its components.
- `src/trace.rs`, `src/argument.rs`, `src/role.rs`, exit reports, display implementations, connection context accessors: the codec again, wall-clock time, or one branch each.
- Archive and datom derives on the reaction types: generated code.
