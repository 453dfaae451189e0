/** src/async_runtime.rs and src/tcp.rs: a daemon with any number of listeners.
    Every listener has its own gate and its own accept task; the daemon itself
    only starts the runtime, waits for the first task to fail, aborts the others,
    stops the gates in order, waits for them in order and stops the runtime.
    Handlers are detached and nobody waits for them. */
module Listeners {
  import opened Folds
  import A = Admission
  import Safety = AdmissionSafety

  datatype Cause = NothingToServe | TaskFailed(error: A.ListenerError)

  datatype Result = RanOk | StartError | ListenerError(error: A.ListenerError) | StopError

  datatype Phase =
    | Starting
    | Serving
    | StoppingGates(next: nat, cause: Cause)
    | AwaitingGates(next: nat, cause: Cause)
    | Done(result: Result)
  {
    /** The accept tasks exist from the moment serving begins. */
    predicate LoopsSpawned() { !Starting? && this != Done(StartError) }

    predicate HasCause() { StoppingGates? || AwaitingGates? }
  }

  datatype Daemon = Daemon(listeners: seq<A.Listener>, phase: Phase)

  datatype Step =
    | Local(j: nat, step: A.Step)
    | RuntimeStarts(ok: bool)
    | JoinFailedTask(j: nat)
    | JoinNothing
    | AbortTask(j: nat)
    | StopNextGate
    | NextGateIsDown
    | RuntimeStops(ok: bool)

  /** The multi-listener daemon binds Unix sockets only. The single-listener
      Unix daemon and the TCP daemon are the cases `[Unix]` and `[Tcp]`: their
      one accept loop runs inside `run` itself, and there is nothing to abort. */
  function Bound(transports: seq<A.Transport>, requested: nat): Daemon
  {
    Daemon(seq(|transports|, i requires 0 <= i < |transports| => A.Init(transports[i], requested)), Starting)
  }

  /** Steps a listener takes without the daemon: aborting its loop and asking
      its gate to stop belong to the daemon. */
  predicate IsOwnStep(step: A.Step)
  {
    !step.AbortLoop? && !step.AskStop?
  }

  predicate IsTaskStep(step: A.Step)
  {
    A.IsLoopStep(step) && !step.Connect?
  }

  predicate Enabled(d: Daemon, step: Step)
  {
    match step
    case Local(j, local) =>
      && j < |d.listeners| && IsOwnStep(local) && A.Enabled(d.listeners[j], local)
      && (IsTaskStep(local) ==> d.phase.LoopsSpawned())
    case RuntimeStarts(_) => d.phase.Starting?
    case JoinFailedTask(j) => d.phase.Serving? && j < |d.listeners| && d.listeners[j].loop.Failed?
    case JoinNothing => d.phase.Serving? && d.listeners == []
    case AbortTask(j) =>
      && (d.phase.HasCause() || d.phase.Done?) && d.phase.LoopsSpawned()
      && j < |d.listeners| && A.Enabled(d.listeners[j], A.AbortLoop)
    case StopNextGate => d.phase.StoppingGates? && d.phase.next < |d.listeners|
    case NextGateIsDown =>
      d.phase.AwaitingGates? && d.phase.next < |d.listeners| && !d.listeners[d.phase.next].live
    case RuntimeStops(_) => d.phase.AwaitingGates? && d.phase.next == |d.listeners|
  }

  function Stopping(d: Daemon, next: nat, cause: Cause): Phase
  {
    if next < |d.listeners| then StoppingGates(next, cause) else AwaitingGates(0, cause)
  }

  /** The final match of `run`: a listener error outranks a stop error. */
  function ResultOf(cause: Cause, stopped: bool): Result
  {
    match cause
    case TaskFailed(error) => ListenerError(error)
    case NothingToServe => if stopped then RanOk else StopError
  }

  function OnListener(d: Daemon, j: nat, step: A.Step): Daemon
    requires j < |d.listeners| && A.Enabled(d.listeners[j], step)
  {
    d.(listeners := d.listeners[j := A.Apply(d.listeners[j], step)])
  }

  function Apply(d: Daemon, step: Step): Daemon
    requires Enabled(d, step)
  {
    match step
    case Local(j, local) => OnListener(d, j, local)
    case RuntimeStarts(ok) => d.(phase := if ok then Serving else Done(StartError))
    case JoinFailedTask(j) => d.(phase := Stopping(d, 0, TaskFailed(d.listeners[j].loop.error)))
    case JoinNothing => d.(phase := Stopping(d, 0, NothingToServe))
    case AbortTask(j) => OnListener(d, j, A.AbortLoop)
    case StopNextGate =>
      OnListener(d, d.phase.next, A.AskStop).(phase := Stopping(d, d.phase.next + 1, d.phase.cause))
    case NextGateIsDown => d.(phase := AwaitingGates(d.phase.next + 1, d.phase.cause))
    case RuntimeStops(ok) => d.(phase := Done(ResultOf(d.phase.cause, ok)))
  }

  predicate ValidRun(d: Daemon, run: seq<Step>)
    decreases |run|
  {
    run == [] || (Enabled(d, run[0]) && ValidRun(Apply(d, run[0]), run[1..]))
  }

  function End(d: Daemon, run: seq<Step>): Daemon
    requires ValidRun(d, run)
    decreases |run|
  {
    if run == [] then d else End(Apply(d, run[0]), run[1..])
  }

  // ---------- what listener j sees of a run ----------

  /** The step of the daemon as listener `j` experiences it, if at all. */
  function ViewOf(d: Daemon, step: Step, j: nat): seq<A.Step>
  {
    match step
    case Local(i, local) => if i == j then [local] else []
    case AbortTask(i) => if i == j then [A.AbortLoop] else []
    case StopNextGate => if d.phase.StoppingGates? && d.phase.next == j then [A.AskStop] else []
    case _ => []
  }

  function Projection(d: Daemon, run: seq<Step>, j: nat): seq<A.Step>
    requires ValidRun(d, run)
    decreases |run|
  {
    if run == [] then [] else ViewOf(d, run[0], j) + Projection(Apply(d, run[0]), run[1..], j)
  }

  lemma StepSeenLocally(d: Daemon, step: Step, j: nat)
    requires Enabled(d, step) && j < |d.listeners|
    ensures |Apply(d, step).listeners| == |d.listeners|
    ensures A.ValidRun(d.listeners[j], ViewOf(d, step, j))
    ensures A.End(d.listeners[j], ViewOf(d, step, j)) == Apply(d, step).listeners[j]
  {
    var view := ViewOf(d, step, j);
    if view != [] {
      A.RunCons(d.listeners[j], view[0], []);
      assert view == [view[0]] + [];
    }
  }

  /** Listener independence, first half: whatever the daemon and the other
      listeners do, listener `j` goes through a run of its own. */
  lemma {:induction false} ProjectionIsRun(d: Daemon, run: seq<Step>, j: nat)
    requires ValidRun(d, run) && j < |d.listeners|
    ensures |End(d, run).listeners| == |d.listeners|
    ensures A.ValidRun(d.listeners[j], Projection(d, run, j))
    ensures A.End(d.listeners[j], Projection(d, run, j)) == End(d, run).listeners[j]
    decreases |run|
  {
    if run != [] {
      StepSeenLocally(d, run[0], j);
      ProjectionIsRun(Apply(d, run[0]), run[1..], j);
      A.RunsCompose(d.listeners[j], ViewOf(d, run[0], j), Projection(Apply(d, run[0]), run[1..], j));
    }
  }

  // ---------- interleaving local runs ----------

  /** Who moves when, and how. */
  type Schedule = seq<(nat, A.Step)>

  function AsRun(schedule: Schedule): (run: seq<Step>)
    ensures |run| == |schedule|
  {
    if schedule == [] then [] else [Local(schedule[0].0, schedule[0].1)] + AsRun(schedule[1..])
  }

  function Part(schedule: Schedule, j: nat): seq<A.Step>
  {
    if schedule == [] then []
    else (if schedule[0].0 == j then [schedule[0].1] else []) + Part(schedule[1..], j)
  }

  predicate IsOwnSchedule(d: Daemon, schedule: Schedule)
  {
    forall p :: 0 <= p < |schedule| ==> schedule[p].0 < |d.listeners| && IsOwnStep(schedule[p].1)
  }

  lemma HeadMoves(d: Daemon, j: nat, local: A.Step)
    requires d.phase.LoopsSpawned() && Enabled(d, Local(j, local))
    ensures var e := Apply(d, Local(j, local));
      && e.phase == d.phase && |e.listeners| == |d.listeners|
      && e.listeners[j] == A.Apply(d.listeners[j], local)
      && forall i :: 0 <= i < |d.listeners| && i != j ==> e.listeners[i] == d.listeners[i]
  {
  }

  /** How the head of a schedule enters the part of listener `j`. */
  lemma HeadOfPart(schedule: Schedule, j: nat, l: A.Listener)
    requires schedule != []
    ensures var (i, local) := schedule[0];
      var part, rest := Part(schedule, j), Part(schedule[1..], j);
      if i == j then
        && (A.ValidRun(l, part) <==> A.Enabled(l, local) && A.ValidRun(A.Apply(l, local), rest))
        && (A.ValidRun(l, part) ==> A.End(l, part) == A.End(A.Apply(l, local), rest))
      else part == rest
  {
    var rest := Part(schedule[1..], j);
    assert ([schedule[0].1] + rest)[1..] == rest;
    assert [] + rest == rest;
  }

  /** Listener independence, second half: once the daemon serves, a schedule of
      listener steps is possible exactly when each listener could follow its own
      part of it alone, and every listener ends where it would end alone. */
  lemma {:induction false} ScheduleIsRunIffPartsAre(d: Daemon, schedule: Schedule)
    requires d.phase.LoopsSpawned() && IsOwnSchedule(d, schedule)
    ensures ValidRun(d, AsRun(schedule)) <==>
      forall j :: 0 <= j < |d.listeners| ==> A.ValidRun(d.listeners[j], Part(schedule, j))
    ensures ValidRun(d, AsRun(schedule)) ==>
      var e := End(d, AsRun(schedule));
      && e.phase == d.phase && |e.listeners| == |d.listeners|
      && forall j :: 0 <= j < |d.listeners| ==>
           A.ValidRun(d.listeners[j], Part(schedule, j))
           && e.listeners[j] == A.End(d.listeners[j], Part(schedule, j))
    decreases |schedule|
  {
    if schedule != [] {
      var (i, local) := schedule[0];
      var rest := schedule[1..];
      assert AsRun(schedule)[1..] == AsRun(rest);
      forall j | 0 <= j < |d.listeners|
        ensures j != i ==> Part(schedule, j) == Part(rest, j)
      {
        HeadOfPart(schedule, j, d.listeners[j]);
      }
      HeadOfPart(schedule, i, d.listeners[i]);
      if Enabled(d, Local(i, local)) {
        HeadMoves(d, i, local);
        ScheduleIsRunIffPartsAre(Apply(d, Local(i, local)), rest);
      } else {
        assert !A.ValidRun(d.listeners[i], Part(schedule, i));
      }
    }
  }

  function OnlyOn(j: nat, run: seq<A.Step>): (schedule: Schedule)
    ensures |schedule| == |run|
    ensures forall p :: 0 <= p < |run| ==> schedule[p] == (j, run[p])
  {
    if run == [] then [] else [(j, run[0])] + OnlyOn(j, run[1..])
  }

  lemma {:induction false} PartsOfOnlyOn(j: nat, run: seq<A.Step>, i: nat)
    ensures Part(OnlyOn(j, run), i) == if i == j then run else []
    decreases |run|
  {
    if run != [] {
      PartsOfOnlyOn(j, run[1..], i);
      assert OnlyOn(j, run)[1..] == OnlyOn(j, run[1..]);
      assert run == [run[0]] + run[1..];
    }
  }

  // ---------- invariants of the whole daemon ----------

  predicate CauseIsReal(d: Daemon, cause: Cause)
  {
    match cause
    case NothingToServe => d.listeners == []
    case TaskFailed(error) => exists j :: 0 <= j < |d.listeners| && d.listeners[j].loop == A.Failed(error)
  }

  predicate AllGatesDown(d: Daemon, count: nat)
    requires count <= |d.listeners|
  {
    forall j :: 0 <= j < count ==> !d.listeners[j].live
  }

  ghost predicate PhaseInv(d: Daemon)
  {
    match d.phase
    case Starting => forall j :: 0 <= j < |d.listeners| ==> Safety.GateIsOpen(d.listeners[j])
    case Serving => forall j :: 0 <= j < |d.listeners| ==> Safety.GateIsOpen(d.listeners[j])
    case StoppingGates(next, cause) => next < |d.listeners| && CauseIsReal(d, cause)
    case AwaitingGates(next, cause) => next <= |d.listeners| && CauseIsReal(d, cause) && AllGatesDown(d, next)
    case Done(StartError) => true
    case Done(result) =>
      && AllGatesDown(d, |d.listeners|)
      && (result.ListenerError? ==> CauseIsReal(d, TaskFailed(result.error)))
      && (!result.ListenerError? ==> d.listeners == [])
  }

  ghost predicate ListenersSafe(d: Daemon, requested: nat)
  {
    forall j :: 0 <= j < |d.listeners| ==>
      A.Inv(d.listeners[j]) && d.listeners[j].pool.capacity == A.Limit(requested)
  }

  /** A failed loop stays failed, a dead gate stays dead, and only the daemon
      closes gates. */
  lemma ListenerStepIsMonotone(l: A.Listener, step: A.Step)
    requires A.Enabled(l, step) && A.LoopAgrees(l)
    ensures l.loop.Failed? ==> A.Apply(l, step).loop == l.loop
    ensures !l.live ==> !A.Apply(l, step).live
    ensures Safety.GateIsOpen(l) && IsOwnStep(step) ==> Safety.GateIsOpen(A.Apply(l, step))
  {
    if step.Deliver? {
      assert A.AskAgrees(l.loop, step.k, l.asks[step.k]);
    }
  }

  lemma MovedListenerKeepsPhase(d: Daemon, e: Daemon, j: nat, step: A.Step)
    requires PhaseInv(d) && j < |d.listeners| && A.Enabled(d.listeners[j], step)
    requires A.LoopAgrees(d.listeners[j]) && e == OnListener(d, j, step)
    requires IsOwnStep(step) || !(d.phase.Starting? || d.phase.Serving?)
    ensures PhaseInv(e)
    ensures d.phase.HasCause() ==> CauseIsReal(e, d.phase.cause)
  {
    ListenerStepIsMonotone(d.listeners[j], step);
    if d.phase.HasCause() {
      CauseSurvives(d, e, d.phase.cause, j);
    } else if d.phase.Done? && d.phase.result.ListenerError? {
      CauseSurvives(d, e, TaskFailed(d.phase.result.error), j);
    }
  }

  lemma CauseSurvives(d: Daemon, e: Daemon, cause: Cause, j: nat)
    requires CauseIsReal(d, cause) && j < |d.listeners| == |e.listeners|
    requires forall i :: 0 <= i < |d.listeners| && i != j ==> e.listeners[i] == d.listeners[i]
    requires d.listeners[j].loop.Failed? ==> e.listeners[j].loop == d.listeners[j].loop
    ensures CauseIsReal(e, cause)
  {
    if cause.TaskFailed? {
      var i :| 0 <= i < |d.listeners| && d.listeners[i].loop == A.Failed(cause.error);
      assert e.listeners[i].loop == A.Failed(cause.error);
    }
  }

  lemma StopKeepsPhase(d: Daemon, requested: nat)
    requires Enabled(d, StopNextGate) && PhaseInv(d) && ListenersSafe(d, requested)
    ensures PhaseInv(Apply(d, StopNextGate))
  {
    var next := d.phase.next;
    var asked := OnListener(d, next, A.AskStop);
    MovedListenerKeepsPhase(d, asked, next, A.AskStop);
    assert Apply(d, StopNextGate) == asked.(phase := Stopping(d, next + 1, d.phase.cause));
  }

  lemma MovingOnKeepsPhase(d: Daemon, step: Step)
    requires Enabled(d, step) && PhaseInv(d)
    requires !step.Local? && !step.AbortTask? && !step.StopNextGate?
    ensures PhaseInv(Apply(d, step))
  {
    if step.JoinFailedTask? {
      assert CauseIsReal(d, TaskFailed(d.listeners[step.j].loop.error));
    }
  }

  lemma StepKeepsPhase(d: Daemon, step: Step, requested: nat)
    requires Enabled(d, step) && PhaseInv(d) && ListenersSafe(d, requested)
    ensures PhaseInv(Apply(d, step))
  {
    match step
    case Local(j, local) => MovedListenerKeepsPhase(d, Apply(d, step), j, local);
    case AbortTask(j) => MovedListenerKeepsPhase(d, Apply(d, step), j, A.AbortLoop);
    case StopNextGate => StopKeepsPhase(d, requested);
    case _ => MovingOnKeepsPhase(d, step);
  }

  lemma StepKeepsListenersSafe(d: Daemon, step: Step, requested: nat)
    requires Enabled(d, step) && ListenersSafe(d, requested)
    ensures ListenersSafe(Apply(d, step), requested)
  {
    match step
    case Local(j, local) => Safety.StepKeepsInv(d.listeners[j], local);
    case AbortTask(j) => Safety.StepKeepsInv(d.listeners[j], A.AbortLoop);
    case StopNextGate => Safety.StepKeepsInv(d.listeners[d.phase.next], A.AskStop);
    case _ =>
  }

  lemma {:induction false} RunKeepsInv(d: Daemon, run: seq<Step>, requested: nat)
    requires ValidRun(d, run) && PhaseInv(d) && ListenersSafe(d, requested)
    ensures PhaseInv(End(d, run)) && ListenersSafe(End(d, run), requested)
    ensures |End(d, run).listeners| == |d.listeners|
    decreases |run|
  {
    if run != [] {
      StepKeepsPhase(d, run[0], requested);
      StepKeepsListenersSafe(d, run[0], requested);
      RunKeepsInv(Apply(d, run[0]), run[1..], requested);
    }
  }

  lemma BoundIsSafe(transports: seq<A.Transport>, requested: nat)
    ensures PhaseInv(Bound(transports, requested)) && ListenersSafe(Bound(transports, requested), requested)
  {
    Safety.InitIsSafe(A.Unix, requested);
    Safety.InitIsSafe(A.Tcp, requested);
  }

  // ---------- which errors a daemon can report ----------

  /** A loop learns of a closed gate only from a gate that is down. */
  predicate OpenGateErrorsAreIo(l: A.Listener)
  {
    l.live && l.loop.Failed? ==> l.loop.error == A.Io
  }

  ghost predicate ErrorsAreIo(d: Daemon)
  {
    && (forall j :: 0 <= j < |d.listeners| ==> OpenGateErrorsAreIo(d.listeners[j]))
    && (d.phase.HasCause() && d.phase.cause.TaskFailed? ==> d.phase.cause.error == A.Io)
    && (d.phase.Done? && d.phase.result.ListenerError? ==> d.phase.result.error == A.Io)
  }

  lemma ListenerKeepsErrorsIo(l: A.Listener, step: A.Step)
    requires A.Enabled(l, step) && A.LoopAgrees(l) && A.MailboxAgrees(l) && OpenGateErrorsAreIo(l)
    ensures OpenGateErrorsAreIo(A.Apply(l, step))
  {
    ListenerStepIsMonotone(l, step);
    if step.NoticeRejection? { assert !l.live; }
  }

  lemma {:induction false} StepKeepsErrorsIo(d: Daemon, step: Step, requested: nat)
    requires Enabled(d, step) && PhaseInv(d) && ListenersSafe(d, requested) && ErrorsAreIo(d)
    ensures ErrorsAreIo(Apply(d, step))
  {
    match step
    case Local(j, local) => ListenerKeepsErrorsIo(d.listeners[j], local);
    case AbortTask(j) => ListenerKeepsErrorsIo(d.listeners[j], A.AbortLoop);
    case StopNextGate => ListenerKeepsErrorsIo(d.listeners[d.phase.next], A.AskStop);
    case JoinFailedTask(j) => assert Safety.GateIsOpen(d.listeners[j]);
    case _ =>
  }

  lemma {:induction false} RunKeepsErrorsIo(d: Daemon, run: seq<Step>, requested: nat)
    requires ValidRun(d, run) && PhaseInv(d) && ListenersSafe(d, requested) && ErrorsAreIo(d)
    ensures ErrorsAreIo(End(d, run))
    decreases |run|
  {
    if run != [] {
      StepKeepsPhase(d, run[0], requested);
      StepKeepsListenersSafe(d, run[0], requested);
      StepKeepsErrorsIo(d, run[0], requested);
      RunKeepsErrorsIo(Apply(d, run[0]), run[1..], requested);
    }
  }

  // ---------- what a schedule says about the life cycle ----------

  /** The runtime has been stopped and `run` has its result. */
  predicate Finished(d: Daemon)
  {
    d.phase.Done? && !d.phase.result.StartError?
  }

  predicate StopsBegun(d: Daemon)
  {
    d.phase.HasCause() || d.phase.Done?
  }

  function Starts(run: seq<Step>): nat
  {
    if run == [] then 0 else (if run[0].RuntimeStarts? then 1 else 0) + Starts(run[1..])
  }

  function Stops(run: seq<Step>): nat
  {
    if run == [] then 0 else (if run[0].RuntimeStops? then 1 else 0) + Stops(run[1..])
  }

  lemma {:induction false} StepStarts(d: Daemon, step: Step)
    requires Enabled(d, step)
    ensures var e := Apply(d, step);
      && (e.phase == Done(StartError) <==> d.phase == Done(StartError) || step == RuntimeStarts(false))
      && (e.phase.LoopsSpawned() <==> d.phase.LoopsSpawned() || step == RuntimeStarts(true))
      && (d.phase.Starting? <==> e.phase.Starting? || step.RuntimeStarts?)
      && !(e.phase.Starting? && step.RuntimeStarts?)
      && (step.Local? && IsTaskStep(step.step) ==> e.phase.LoopsSpawned())
  {
  }

  lemma {:induction false} StepFinishes(d: Daemon, step: Step)
    requires Enabled(d, step) && PhaseInv(d)
    ensures var e := Apply(d, step);
      && (e.phase == Done(RanOk) <==> d.phase == Done(RanOk) || (step == RuntimeStops(true) && d.listeners == []))
      && (e.phase == Done(StopError) <==> d.phase == Done(StopError) || (step == RuntimeStops(false) && d.listeners == []))
      && (Finished(e) <==> Finished(d) || step.RuntimeStops?)
      && !(Finished(d) && step.RuntimeStops?)
      && (StopsBegun(d) || step.AbortTask? || step.StopNextGate? ==> StopsBegun(e))
      && |e.listeners| == |d.listeners|
  {
  }

  lemma {:induction false} RunStarts(d: Daemon, run: seq<Step>)
    requires ValidRun(d, run)
    ensures var e := End(d, run);
      && (e.phase == Done(StartError) <==> d.phase == Done(StartError) || RuntimeStarts(false) in run)
      && (e.phase.LoopsSpawned() <==> d.phase.LoopsSpawned() || RuntimeStarts(true) in run)
      && Starts(run) == (if d.phase.Starting? && !e.phase.Starting? then 1 else 0)
      && (e.phase.Starting? ==> d.phase.Starting?)
      && (!e.phase.LoopsSpawned() ==> forall p :: 0 <= p < |run| && run[p].Local? ==> !IsTaskStep(run[p].step))
    decreases |run|
  {
    if run != [] {
      StepStarts(d, run[0]);
      RunStarts(Apply(d, run[0]), run[1..]);
      assert run == [run[0]] + run[1..];
    }
  }

  lemma {:induction false} RunFinishes(d: Daemon, run: seq<Step>, requested: nat)
    requires ValidRun(d, run) && PhaseInv(d) && ListenersSafe(d, requested)
    ensures var e := End(d, run);
      && |e.listeners| == |d.listeners|
      && (e.phase == Done(RanOk) <==> d.phase == Done(RanOk) || (RuntimeStops(true) in run && d.listeners == []))
      && (e.phase == Done(StopError) <==> d.phase == Done(StopError) || (RuntimeStops(false) in run && d.listeners == []))
      && Stops(run) == (if !Finished(d) && Finished(e) then 1 else 0)
      && (Finished(d) ==> Finished(e)) && (StopsBegun(d) ==> StopsBegun(e))
      && (!StopsBegun(e) ==> forall p :: 0 <= p < |run| ==> !run[p].AbortTask? && !run[p].StopNextGate?)
    decreases |run|
  {
    if run != [] {
      StepFinishes(d, run[0]);
      StepKeepsPhase(d, run[0], requested);
      StepKeepsListenersSafe(d, run[0], requested);
      RunFinishes(Apply(d, run[0]), run[1..], requested);
      assert run == [run[0]] + run[1..];
    }
  }

  /** The life cycle, in every run: the runtime is started once and first; the
      accept loops exist exactly if it started, and nothing is accepted before; no
      loop is aborted and no gate stopped before serving is over; the runtime is
      stopped once and last. Without listeners its answer is the result. */
  lemma {:induction false} LifeCycleInOrder(transports: seq<A.Transport>, requested: nat, run: seq<Step>)
    requires ValidRun(Bound(transports, requested), run)
    ensures var d := End(Bound(transports, requested), run);
      && (d.phase == Done(StartError) <==> RuntimeStarts(false) in run)
      && (d.phase.LoopsSpawned() <==> RuntimeStarts(true) in run)
      && Starts(run) == (if d.phase.Starting? then 0 else 1)
      && (RuntimeStarts(true) !in run ==> forall p :: 0 <= p < |run| && run[p].Local? ==> !IsTaskStep(run[p].step))
      && (!StopsBegun(d) ==> forall p :: 0 <= p < |run| ==> !run[p].AbortTask? && !run[p].StopNextGate?)
      && Stops(run) == (if Finished(d) then 1 else 0)
      && (d.phase == Done(RanOk) <==> RuntimeStops(true) in run && transports == [])
      && (d.phase == Done(StopError) <==> RuntimeStops(false) in run && transports == [])
  {
    BoundIsSafe(transports, requested);
    RunStarts(Bound(transports, requested), run);
    RunFinishes(Bound(transports, requested), run, requested);
  }

  lemma {:induction false} SeenMeansDone(d: Daemon, run: seq<Step>, j: nat, step: A.Step)
    requires ValidRun(d, run) && step in Projection(d, run, j) && IsOwnStep(step)
    ensures Local(j, step) in run
    decreases |run|
  {
    var view := ViewOf(d, run[0], j);
    if step in view {
      assert run[0] == Local(j, step);
    } else {
      SeenMeansDone(Apply(d, run[0]), run[1..], j, step);
    }
    assert run == [run[0]] + run[1..];
  }

  /** A loop that ended with an I/O error had an accept or a peer fail. */
  lemma {:induction false} IoErrorsHappened(transports: seq<A.Transport>, requested: nat, run: seq<Step>, j: nat)
    requires ValidRun(Bound(transports, requested), run) && j < |transports|
    requires |End(Bound(transports, requested), run).listeners| == |transports|
    requires End(Bound(transports, requested), run).listeners[j].loop == A.Failed(A.Io)
    ensures Local(j, A.AcceptFails) in run || Local(j, A.IdentifyFails) in run
  {
    var d := Bound(transports, requested);
    var local := Projection(d, run, j);
    ProjectionIsRun(d, run, j);
    Safety.LoopEndsAsItFailed(transports[j], requested, local);
    if A.AcceptFails in local {
      SeenMeansDone(d, run, j, A.AcceptFails);
    } else {
      SeenMeansDone(d, run, j, A.IdentifyFails);
    }
  }

  /** The error log of every listener is exactly the connections whose handlers
      returned an error in its own part of the run, in order. */
  lemma {:induction false} DaemonLogsAreExact(transports: seq<A.Transport>, requested: nat, run: seq<Step>, j: nat)
    requires ValidRun(Bound(transports, requested), run) && j < |transports|
    ensures var d := End(Bound(transports, requested), run);
      && j < |d.listeners|
      && d.listeners[j].errorLog == Safety.FailuresIn(d.listeners[j].asks, Projection(Bound(transports, requested), run, j))
  {
    ProjectionIsRun(Bound(transports, requested), run, j);
    Safety.ErrorLogIsExact(transports[j], requested, Projection(Bound(transports, requested), run, j));
  }

  predicate LoopReallyFailed(d: Daemon, run: seq<Step>, j: nat)
    requires j < |d.listeners|
  {
    d.listeners[j].loop == A.Failed(A.Io) && (Local(j, A.AcceptFails) in run || Local(j, A.IdentifyFails) in run)
  }

  /** How `run` can end: with a start error exactly if the runtime did not start.
      With at least one listener the accept loops never return successfully, so
      otherwise the daemon reports the error of a loop in which an accept or a peer
      really failed, and then an I/O error: gates are stopped only after that. An
      error from `stop` is never visible. Only a daemon with no listeners reports
      success or a stop error, as its runtime answers. Unless it failed to start,
      every gate is down before it returns. */
  lemma {:induction false} RunEndsWithListenerError(transports: seq<A.Transport>, requested: nat, run: seq<Step>)
    requires ValidRun(Bound(transports, requested), run) && End(Bound(transports, requested), run).phase.Done?
    ensures var d := End(Bound(transports, requested), run);
      var result := d.phase.result;
      && |d.listeners| == |transports|
      && (result == StartError <==> RuntimeStarts(false) in run)
      && (result != StartError <==> RuntimeStarts(true) in run)
      && (result == RanOk <==> RuntimeStops(true) in run && transports == [])
      && (result == StopError <==> RuntimeStops(false) in run && transports == [])
      && (result.ListenerError? ==> result.error == A.Io)
      && (result.ListenerError? ==> exists j :: 0 <= j < |transports| && LoopReallyFailed(d, run, j))
      && (result != StartError ==> AllGatesDown(d, |transports|))
  {
    BoundIsSafe(transports, requested);
    RunKeepsInv(Bound(transports, requested), run, requested);
    RunKeepsErrorsIo(Bound(transports, requested), run, requested);
    LifeCycleInOrder(transports, requested, run);
    var d := End(Bound(transports, requested), run);
    if d.phase.result.ListenerError? {
      var j :| 0 <= j < |d.listeners| && d.listeners[j].loop == A.Failed(A.Io);
      IoErrorsHappened(transports, requested, run, j);
      assert LoopReallyFailed(d, run, j);
    }
  }

  /** Over all listeners the accepted streams still in a loop and the
      connections still holding a permit number at most n * (limit + 1). */
  lemma DaemonBacklogIsBounded(transports: seq<A.Transport>, requested: nat, run: seq<Step>)
    requires ValidRun(Bound(transports, requested), run)
    ensures var d := End(Bound(transports, requested), run);
      Sum(d.listeners, A.StreamsInLoop) + Sum(d.listeners, A.ConnectionsHolding)
      <= |transports| * (A.Limit(requested) + 1)
  {
    var d := End(Bound(transports, requested), run);
    BoundIsSafe(transports, requested);
    RunKeepsInv(Bound(transports, requested), run, requested);
    forall j | 0 <= j < |d.listeners|
      ensures Backlog(d.listeners[j]) <= A.Limit(requested) + 1
    {
      Safety.BacklogIsBounded(d.listeners[j]);
    }
    SumSplits(d.listeners, Backlog, A.StreamsInLoop, A.ConnectionsHolding, Nothing);
    SumIsZero(d.listeners, Nothing);
    SumBound(d.listeners, Backlog, A.Limit(requested) + 1);
  }

  function Backlog(l: A.Listener): nat { A.StreamsInLoop(l) + A.ConnectionsHolding(l) }

  function Nothing(l: A.Listener): nat { 0 }

  /** A listener is never blocked by another one: in every reachable serving
      state, wherever its loop is and whatever permits and handlers the others
      hold, listener `j` can take its stream to the end of its handler while every
      other listener stands still. */
  lemma NoListenerBlocksAnother(transports: seq<A.Transport>, requested: nat, run: seq<Step>, j: nat) returns (more: seq<Step>)
    requires ValidRun(Bound(transports, requested), run)
    requires var d := End(Bound(transports, requested), run);
      d.phase.Serving? && j < |d.listeners| && Safety.CanServe(d.listeners[j])
    ensures var d := End(Bound(transports, requested), run);
      && ValidRun(d, more)
      && var e, l := End(d, more), d.listeners[j];
      && A.LoopAgrees(l)
      && |e.listeners| == |d.listeners| && e.phase == d.phase
      && (forall i :: 0 <= i < |d.listeners| && i != j ==> e.listeners[i] == d.listeners[i])
      && var m, k := e.listeners[j], Safety.CurrentAsk(l);
      && m.loop.Accepting? && m.backlog == (if l.loop.Accepting? then l.backlog[1..] else l.backlog)
      && A.AskAt(m, k, A.Ended) && m.asks[k].origin == A.AcceptLoop(Safety.CurrentStream(l))
  {
    var d := End(Bound(transports, requested), run);
    BoundIsSafe(transports, requested);
    RunKeepsInv(Bound(transports, requested), run, requested);
    var local := Safety.ServesNextStream(d.listeners[j]);
    var schedule := OnlyOn(j, local);
    forall i: nat ensures Part(schedule, i) == if i == j then local else [] {
      PartsOfOnlyOn(j, local, i);
    }
    ScheduleIsRunIffPartsAre(d, schedule);
    more := AsRun(schedule);
  }

  // ---------- stopping never waits for permits or handlers ----------

  predicate GateStops(l: A.Listener)
  {
    !l.live || A.StopSignal in l.mailbox
  }

  /** Every gate the daemon has already asked to stop will stop. */
  predicate StopsAsked(d: Daemon)
  {
    match d.phase
    case StoppingGates(next, _) => next <= |d.listeners| && forall j :: 0 <= j < next ==> GateStops(d.listeners[j])
    case AwaitingGates(_, _) => forall j :: 0 <= j < |d.listeners| ==> GateStops(d.listeners[j])
    case _ => true
  }

  lemma StopSurvives(l: A.Listener, step: A.Step)
    requires A.Enabled(l, step) && A.LoopAgrees(l)
    ensures GateStops(l) || step.AskStop? ==> GateStops(A.Apply(l, step))
  {
    ListenerStepIsMonotone(l, step);
    var m := A.Apply(l, step);
    if step.HandleMessage? && l.live && A.StopSignal in l.mailbox && !l.mailbox[0].StopSignal? {
      assert l.mailbox == [l.mailbox[0]] + m.mailbox;
    }
  }

  lemma {:induction false} StepKeepsStops(d: Daemon, step: Step, requested: nat)
    requires Enabled(d, step) && ListenersSafe(d, requested) && StopsAsked(d)
    ensures StopsAsked(Apply(d, step))
  {
    match step
    case Local(j, local) => StopSurvives(d.listeners[j], local);
    case AbortTask(j) => StopSurvives(d.listeners[j], A.AbortLoop);
    case StopNextGate => StopSurvives(d.listeners[d.phase.next], A.AskStop);
    case _ =>
  }

  lemma {:induction false} RunKeepsStops(d: Daemon, run: seq<Step>, requested: nat)
    requires ValidRun(d, run) && ListenersSafe(d, requested) && StopsAsked(d)
    ensures StopsAsked(End(d, run))
    decreases |run|
  {
    if run != [] {
      StepKeepsStops(d, run[0], requested);
      StepKeepsListenersSafe(d, run[0], requested);
      RunKeepsStops(Apply(d, run[0]), run[1..], requested);
    }
  }

  lemma {:induction false} RunsCompose(d: Daemon, first: seq<Step>, rest: seq<Step>)
    requires ValidRun(d, first) && ValidRun(End(d, first), rest)
    ensures ValidRun(d, first + rest)
    ensures End(d, first + rest) == End(End(d, first), rest)
    decreases |first|
  {
    if first == [] {
      assert first + rest == rest;
    } else {
      RunsCompose(Apply(d, first[0]), first[1..], rest);
      assert (first + rest)[1..] == first[1..] + rest;
    }
  }

  lemma OneStep(d: Daemon, step: Step)
    requires Enabled(d, step)
    ensures ValidRun(d, [step]) && End(d, [step]) == Apply(d, step)
  {
    assert [step][1..] == [];
  }

  predicate SamePools(d: Daemon, e: Daemon)
  {
    |e.listeners| == |d.listeners| && forall j :: 0 <= j < |d.listeners| ==> e.listeners[j].pool == d.listeners[j].pool
  }

  ghost predicate CanStop(d: Daemon, requested: nat)
  {
    PhaseInv(d) && ListenersSafe(d, requested) && StopsAsked(d) && d.phase.HasCause()
  }

  /** Every reachable state with a cause is one from which the daemon can stop. */
  lemma ReachableCanStop(transports: seq<A.Transport>, requested: nat, run: seq<Step>)
    requires ValidRun(Bound(transports, requested), run)
    requires End(Bound(transports, requested), run).phase.HasCause()
    ensures CanStop(End(Bound(transports, requested), run), requested)
  {
    BoundIsSafe(transports, requested);
    RunKeepsInv(Bound(transports, requested), run, requested);
    RunKeepsStops(Bound(transports, requested), run, requested);
  }

  /** The daemon's own steps towards the end, and the turns of a gate that has
      been asked to stop. */
  predicate IsStopStep(d: Daemon, step: Step)
  {
    match step
    case Local(j, local) => local.HandleMessage? && j < |d.listeners| && A.StopSignal in d.listeners[j].mailbox
    case StopNextGate => true
    case NextGateIsDown => true
    case RuntimeStops(_) => true
    case _ => false
  }

  lemma {:induction false} AskedGateCanTurn(d: Daemon, j: nat)
    requires j < |d.listeners| && A.Inv(d.listeners[j]) && d.phase.HasCause()
    requires d.listeners[j].live && A.StopSignal in d.listeners[j].mailbox
    ensures Enabled(d, Local(j, A.HandleMessage)) && SamePools(d, Apply(d, Local(j, A.HandleMessage)))
  {
    var l := d.listeners[j];
    assert A.MailboxAgrees(l);
    assert A.Enabled(l, A.HandleMessage);
    Safety.TurnEffect(l);
  }

  /** Stopping is never stuck: some step towards the end is enabled, and it needs
      no permit back, no waiter served and no handler ended. */
  lemma {:induction false} StopCanMove(d: Daemon, requested: nat, ok: bool) returns (step: Step)
    requires CanStop(d, requested)
    ensures Enabled(d, step) && IsStopStep(d, step) && SamePools(d, Apply(d, step))
    ensures step.RuntimeStops? ==> step.ok == ok
  {
    var next := d.phase.next;
    if d.phase.StoppingGates? {
      step := StopNextGate;
    } else if next == |d.listeners| {
      step := RuntimeStops(ok);
    } else if !d.listeners[next].live {
      step := NextGateIsDown;
    } else {
      step := Local(next, A.HandleMessage);
      assert GateStops(d.listeners[next]);
      AskedGateCanTurn(d, next);
    }
  }

  /** Steps the daemon itself still has to take before it is done. */
  function StopRank(d: Daemon): nat
    requires d.phase.HasCause() && d.phase.next <= |d.listeners|
  {
    |d.listeners| - d.phase.next + (if d.phase.StoppingGates? then |d.listeners| + 1 else 0)
  }

  /** The turns a gate needs to handle the stop it has been sent. */
  function TurnsToStop(l: A.Listener): nat
  {
    if l.live && A.StopSignal in l.mailbox then Safety.TurnsNeeded(l.mailbox) else 0
  }

  function TurnsLeft(d: Daemon): nat { Sum(d.listeners, TurnsToStop) }

  predicate RankFalls(d: Daemon, e: Daemon)
    requires d.phase.HasCause() && d.phase.next <= |d.listeners|
    requires e.phase.HasCause() && e.phase.next <= |e.listeners|
  {
    StopRank(e) < StopRank(d) || (StopRank(e) == StopRank(d) && TurnsLeft(e) < TurnsLeft(d))
  }

  predicate RankStays(d: Daemon, e: Daemon)
    requires d.phase.HasCause() && d.phase.next <= |d.listeners|
    requires e.phase.HasCause() && e.phase.next <= |e.listeners|
  {
    StopRank(e) == StopRank(d) && TurnsLeft(e) <= TurnsLeft(d)
  }

  lemma {:induction false} LaterMessagesCostNothing(mailbox: seq<A.Message>, more: seq<A.Message>)
    requires A.StopSignal in mailbox
    ensures Safety.TurnsNeeded(mailbox + more) == Safety.TurnsNeeded(mailbox)
    decreases |mailbox|
  {
    assert (mailbox + more)[0] == mailbox[0];
    if !mailbox[0].StopSignal? {
      assert mailbox == [mailbox[0]] + mailbox[1..];
      assert (mailbox + more)[1..] == mailbox[1..] + more;
      LaterMessagesCostNothing(mailbox[1..], more);
    }
  }

  lemma {:induction false} TurnLowersTurns(l: A.Listener)
    requires A.Enabled(l, A.HandleMessage)
    ensures var m := A.Apply(l, A.HandleMessage);
      TurnsToStop(m) + (if A.StopSignal in l.mailbox then 1 else 0) == TurnsToStop(l)
  {
    Safety.TurnEffect(l);
  }

  /** No step but being asked to stop adds a turn to the ones a gate still needs. */
  lemma {:induction false} OtherStepsAddNoTurn(l: A.Listener, step: A.Step)
    requires A.Enabled(l, step) && !step.AskStop? && !step.HandleMessage?
    ensures TurnsToStop(A.Apply(l, step)) <= TurnsToStop(l)
  {
    var m := A.Apply(l, step);
    if l.live {
      Safety.MailboxMoves(l, step);
      var more := m.mailbox[|l.mailbox|..];
      assert m.mailbox == l.mailbox + more;
      assert A.StopSignal !in more;
      if A.StopSignal in l.mailbox { LaterMessagesCostNothing(l.mailbox, more); }
    }
  }

  lemma {:induction false} MovedListenerRank(d: Daemon, j: nat, local: A.Step)
    requires j < |d.listeners| && A.Enabled(d.listeners[j], local) && !local.AskStop?
    ensures var e := OnListener(d, j, local);
      TurnsLeft(e) + (if local.HandleMessage? && A.StopSignal in d.listeners[j].mailbox then 1 else 0) <= TurnsLeft(d)
  {
    if local.HandleMessage? {
      TurnLowersTurns(d.listeners[j]);
    } else {
      OtherStepsAddNoTurn(d.listeners[j], local);
    }
    SumChange(d.listeners, OnListener(d, j, local).listeners, j, TurnsToStop);
  }

  /** Whatever happens while the daemon stops, it is done, or the rank is no
      higher than before; and every step towards the end lowers it. */
  lemma {:induction false} StopRankOnlyFalls(d: Daemon, step: Step, requested: nat)
    requires CanStop(d, requested) && Enabled(d, step)
    ensures var e := Apply(d, step);
      if step.RuntimeStops? then e.phase == Done(ResultOf(d.phase.cause, step.ok))
      else
        && CanStop(e, requested) && e.phase.cause == d.phase.cause && e.phase.next <= |e.listeners|
        && (if IsStopStep(d, step) then RankFalls(d, e) else RankStays(d, e))
  {
    StepKeepsPhase(d, step, requested);
    StepKeepsListenersSafe(d, step, requested);
    StepKeepsStops(d, step, requested);
    match step
    case Local(j, local) => MovedListenerRank(d, j, local);
    case AbortTask(j) => MovedListenerRank(d, j, A.AbortLoop);
    case _ =>
  }

  lemma {:induction false} StopCompletes(d: Daemon, requested: nat, ok: bool) returns (run: seq<Step>)
    requires CanStop(d, requested)
    ensures ValidRun(d, run)
    ensures End(d, run).phase == Done(ResultOf(d.phase.cause, ok)) && SamePools(d, End(d, run))
    decreases StopRank(d), TurnsLeft(d)
  {
    var step := StopCanMove(d, requested, ok);
    StopRankOnlyFalls(d, step, requested);
    OneStep(d, step);
    run := [step];
    if !step.RuntimeStops? {
      var rest := StopCompletes(Apply(d, step), requested, ok);
      RunsCompose(d, [step], rest);
      run := [step] + rest;
    }
  }

  /** Once a task has failed the daemon can stop with every pool exactly as it
      is: no permit has to come back, no waiter has to be served and no handler
      has to end. */
  lemma StopNeverWaitsForHandlers(transports: seq<A.Transport>, requested: nat, run: seq<Step>, ok: bool)
    returns (more: seq<Step>)
    requires ValidRun(Bound(transports, requested), run)
    requires End(Bound(transports, requested), run).phase.HasCause()
    ensures var d := End(Bound(transports, requested), run);
      && ValidRun(d, more)
      && End(d, more).phase == Done(ResultOf(d.phase.cause, ok))
      && SamePools(d, End(d, more))
  {
    ReachableCanStop(transports, requested, run);
    more := StopCompletes(End(Bound(transports, requested), run), requested, ok);
  }

  /** A loop that fails ends the daemon: from every reachable serving state with a
      failed loop the daemon can go to its listener error with every pool exactly as
      it is. */
  lemma {:induction false} FailedLoopEndsDaemon(transports: seq<A.Transport>, requested: nat, run: seq<Step>, j: nat, ok: bool)
    returns (more: seq<Step>)
    requires ValidRun(Bound(transports, requested), run)
    requires var d := End(Bound(transports, requested), run);
      d.phase.Serving? && j < |d.listeners| && d.listeners[j].loop.Failed?
    ensures var d := End(Bound(transports, requested), run);
      && ValidRun(d, more)
      && End(d, more).phase == Done(ListenerError(A.Io))
      && SamePools(d, End(d, more))
  {
    var start := Bound(transports, requested);
    var d := End(start, run);
    BoundIsSafe(transports, requested);
    RunKeepsInv(start, run, requested);
    RunKeepsErrorsIo(start, run, requested);
    OneStep(d, JoinFailedTask(j));
    RunsCompose(start, run, [JoinFailedTask(j)]);
    more := StopNeverWaitsForHandlers(transports, requested, run + [JoinFailedTask(j)], ok);
    assert Safety.GateIsOpen(d.listeners[j]);
    RunsCompose(d, [JoinFailedTask(j)], more);
    more := [JoinFailedTask(j)] + more;
  }

  /** Every way to start and, without listeners, to end is open to the runtime. */
  lemma {:induction false} EmptyDaemonRuns(requested: nat, started: bool, stopped: bool)
    ensures var d := Bound([], requested);
      var run := if started then [RuntimeStarts(true), JoinNothing, RuntimeStops(stopped)] else [RuntimeStarts(false)];
      && ValidRun(d, run)
      && End(d, run).phase == Done(if !started then StartError else if stopped then RanOk else StopError)
  {
    var d := Bound([], requested);
    if started {
      var d1 := Apply(d, RuntimeStarts(true));
      var d2 := Apply(d1, JoinNothing);
      OneStep(d, RuntimeStarts(true));
      OneStep(d1, JoinNothing);
      OneStep(d2, RuntimeStops(stopped));
      RunsCompose(d1, [JoinNothing], [RuntimeStops(stopped)]);
      RunsCompose(d, [RuntimeStarts(true)], [JoinNothing] + [RuntimeStops(stopped)]);
      assert [RuntimeStarts(true), JoinNothing, RuntimeStops(stopped)]
          == [RuntimeStarts(true)] + ([JoinNothing] + [RuntimeStops(stopped)]);
    } else {
      OneStep(d, RuntimeStarts(false));
    }
  }

  /** Once serving is over every loop that has not failed can be aborted, and then
      it is. */
  lemma {:induction false} LoopsCanBeAborted(d: Daemon, requested: nat, j: nat)
    requires CanStop(d, requested) && j < |d.listeners| && !d.listeners[j].loop.Failed?
    ensures Enabled(d, AbortTask(j)) && Apply(d, AbortTask(j)).listeners[j].loop == A.Aborted
  {
    Safety.NothingElseBlocks(d.listeners[j]);
  }
}
