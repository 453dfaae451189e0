/** What every reachable state of one listener satisfies: permits are conserved
    over the whole life of the gate, the status counters are exact, and the
    backlog of accepted streams is bounded. */
module AdmissionSafety {
  import opened Folds
  import opened Admission
  import opened Wrappers
  import Sem = CountingSemaphore

  /** The request a step moves or adds; stopping the gate moves many. */
  function MovedAsk(l: Listener, step: Step): int
    requires Enabled(l, step)
  {
    match step
    case SendAsk => |l.asks|
    case ClientAsks => |l.asks|
    case SpawnHandler => l.loop.k
    case AbortLoop => if l.loop.Asking? || l.loop.Admitted? then l.loop.k else -1
    case HandleMessage => if l.mailbox[0].AcquirePermit? then l.mailbox[0].k else -1
    case ClientAbandons(k) => k
    case ClientDrops(k) => k
    case TakePermit(k) => k
    case Deliver(k) => k
    case SplitStream(k) => k
    case HandlerEnds(k, _) => k
    case _ => -1
  }

  predicate StopsGate(l: Listener, step: Step)
  {
    step.HandleMessage? && l.mailbox != [] && l.mailbox[0].StopSignal?
  }

  lemma StepIsLocal(l: Listener, step: Step)
    requires Enabled(l, step) && !StopsGate(l, step)
    ensures OneChange(l.asks, Apply(l, step).asks, MovedAsk(l, step))
  {
  }

  /** Whether a step takes a permit from the pool or gives one back, and which. */
  predicate Takes(step: Step) { step.TakePermit? }

  predicate Frees(l: Listener, step: Step)
    requires Enabled(l, step)
  {
    match step
    case AbortLoop => l.loop.Admitted?
    case ClientDrops(_) => true
    case Deliver(k) => !l.asks[k].listening
    case SplitStream(_) => true
    case HandlerEnds(k, _) => l.asks[k].pc.Handling?
    case _ => false
  }

  /** The pool changes exactly as the request that moves says. */
  predicate PoolFollowsAsk(l: Listener, step: Step)
    requires Enabled(l, step)
  {
    PoolFollows(l, Apply(l, step), MovedAsk(l, step), Takes(step), Frees(l, step))
  }

  predicate PoolFollows(l: Listener, m: Listener, k: int, takes: bool, frees: bool)
  {
    && NatAt(m.asks, k, HoldCount) + (if frees then 1 else 0) == NatAt(l.asks, k, HoldCount) + (if takes then 1 else 0)
    && PoolMoves(l, m, k, takes, frees)
  }

  predicate PoolMoves(l: Listener, m: Listener, k: int, takes: bool, frees: bool)
  {
    && !(takes && frees)
    && m.pool.capacity == l.pool.capacity
    && m.pool.available + (if takes then 1 else 0) == l.pool.available + (if frees then 1 else 0)
    && m.pool.held == (if takes then l.pool.held + multiset{k}
                       else if frees then l.pool.held - multiset{k} else l.pool.held)
    && (takes || frees ==> 0 <= k < |l.asks| == |m.asks|)
  }

  lemma LoopMovesPool(l: Listener, step: Step)
    requires Enabled(l, step) && LoopAgrees(l) && IsLoopStep(step)
    ensures PoolFollowsAsk(l, step)
  {
  }

  lemma GateMovesPool(l: Listener, step: Step)
    requires Enabled(l, step) && MailboxAgrees(l) && IsGateStep(step) && !StopsGate(l, step)
    ensures PoolFollowsAsk(l, step)
  {
  }

  lemma DeliveryMovesPool(l: Listener, step: Step)
    requires Enabled(l, step) && (step.TakePermit? || step.Deliver?)
    ensures PoolFollowsAsk(l, step)
  {
  }

  lemma SplittingMovesPool(l: Listener, step: Step)
    requires Enabled(l, step) && step.SplitStream?
    ensures PoolFollowsAsk(l, step)
  {
  }

  lemma EndingMovesPool(l: Listener, step: Step)
    requires Enabled(l, step) && step.HandlerEnds?
    ensures PoolFollowsAsk(l, step)
  {
  }

  lemma {:induction false} StepFollowsPool(l: Listener, step: Step)
    requires Enabled(l, step) && Inv(l) && !StopsGate(l, step)
    ensures PoolFollowsAsk(l, step)
  {
    if IsLoopStep(step) {
      LoopMovesPool(l, step);
    } else if IsGateStep(step) {
      GateMovesPool(l, step);
    } else if step.TakePermit? || step.Deliver? {
      DeliveryMovesPool(l, step);
    } else if step.SplitStream? {
      SplittingMovesPool(l, step);
    } else {
      EndingMovesPool(l, step);
    }
  }

  lemma StopKeepsCounts(l: Listener)
    ensures Sum(RejectQueued(l.asks), HoldCount) == Sum(l.asks, HoldCount)
    ensures Sum(RejectQueued(l.asks), HandledCount) == Sum(l.asks, HandledCount)
  {
    var rejected := RejectQueued(l.asks);
    SumMonotone(l.asks, rejected, HoldCount, HoldCount);
    SumMonotone(rejected, l.asks, HoldCount, HoldCount);
    SumMonotone(l.asks, rejected, HandledCount, HandledCount);
    SumMonotone(rejected, l.asks, HandledCount, HandledCount);
  }

  /** Conservation through every step: delivery to nobody, handler failure and
      panic, `into_parts`, abort of the loop and shutdown of the gate included. */
  lemma {:induction false} StepConservesPermits(l: Listener, step: Step)
    requires Enabled(l, step) && Inv(l)
    ensures PermitsConserved(Apply(l, step)) && HeldIsNamed(Apply(l, step))
    ensures Apply(l, step).pool.capacity == l.pool.capacity
  {
    if StopsGate(l, step) {
      StopConserves(l, step);
    } else {
      StepIsLocal(l, step);
      StepFollowsPool(l, step);
      ConservedAfter(l, Apply(l, step), MovedAsk(l, step), Takes(step), Frees(l, step));
    }
  }

  lemma StopConserves(l: Listener, step: Step)
    requires Enabled(l, step) && Inv(l) && StopsGate(l, step)
    ensures PermitsConserved(Apply(l, step)) && HeldIsNamed(Apply(l, step))
    ensures Apply(l, step).pool == l.pool
  {
    StopKeepsCounts(l);
  }

  lemma ConservedAfter(l: Listener, m: Listener, k: int, takes: bool, frees: bool)
    requires PermitsConserved(l) && HeldIsNamed(l) && OneChange(l.asks, m.asks, k)
    requires PoolFollows(l, m, k, takes, frees)
    ensures PermitsConserved(m) && HeldIsNamed(m) && m.pool.capacity == l.pool.capacity
  {
    SumChange(l.asks, m.asks, k, HoldCount);
    if frees {
      assert l.pool.held[k] == 1;
      assert l.pool.held == m.pool.held + multiset{k};
    }
  }

  function PoolEvents(l: Listener, step: Step): seq<Sem.Event>
    requires Enabled(l, step)
  {
    if StopsGate(l, step) then []
    else if Takes(step) then [Sem.Acquire(MovedAsk(l, step))]
    else if Frees(l, step) then [Sem.Release(MovedAsk(l, step))]
    else []
  }

  lemma MovesAreEvents(l: Listener, m: Listener, k: int, takes: bool, frees: bool)
    requires HeldIsNamed(l) && PoolMoves(l, m, k, takes, frees)
    requires takes ==> l.pool.available > 0
    requires frees ==> NatAt(l.asks, k, HoldCount) == 1
    ensures var events := if takes then [Sem.Acquire(k)] else if frees then [Sem.Release(k)] else [];
      Sem.Permits(l.pool, events) && Sem.Final(l.pool, events) == m.pool
  {
    if takes {
      Sem.OneEvent(l.pool, Sem.Acquire(k));
    } else if frees {
      assert l.pool.held[k] == 1;
      Sem.OneEvent(l.pool, Sem.Release(k));
    }
  }

  /** One step moves the pool by at most one legal event, on the permit of the
      request that moved. */
  lemma {:induction false} StepIsSemaphoreHistory(l: Listener, step: Step)
    requires Enabled(l, step) && Inv(l)
    ensures Sem.Permits(l.pool, PoolEvents(l, step))
    ensures Sem.Final(l.pool, PoolEvents(l, step)) == Apply(l, step).pool
  {
    if !StopsGate(l, step) {
      StepFollowsPool(l, step);
      MovesAreEvents(l, Apply(l, step), MovedAsk(l, step), Takes(step), Frees(l, step));
    }
  }

  // ---------- the request count ----------

  predicate CountFollowsAsk(l: Listener, step: Step)
    requires Enabled(l, step)
  {
    var m, k := Apply(l, step), MovedAsk(l, step);
    var handles := step.HandleMessage? && l.mailbox[0].AcquirePermit?;
    && NatAt(m.asks, k, HandledCount) == NatAt(l.asks, k, HandledCount) + (if handles then 1 else 0)
    && m.accepted == (if handles then SaturatingIncrement(l.accepted) else l.accepted)
  }

  lemma LoopKeepsCount(l: Listener, step: Step)
    requires Enabled(l, step) && LoopAgrees(l) && IsLoopStep(step)
    ensures CountFollowsAsk(l, step)
  {
  }

  lemma GateMovesCount(l: Listener, step: Step)
    requires Enabled(l, step) && MailboxAgrees(l) && IsGateStep(step) && !StopsGate(l, step)
    ensures CountFollowsAsk(l, step)
  {
  }

  lemma PermitsKeepCount(l: Listener, step: Step)
    requires Enabled(l, step) && IsPermitStep(step)
    ensures CountFollowsAsk(l, step)
  {
  }

  lemma StepKeepsCount(l: Listener, step: Step)
    requires Enabled(l, step) && Inv(l)
    ensures CountIsExact(Apply(l, step))
  {
    if StopsGate(l, step) {
      StopKeepsCounts(l);
    } else {
      if IsLoopStep(step) {
        LoopKeepsCount(l, step);
      } else if IsGateStep(step) {
        GateMovesCount(l, step);
      } else {
        PermitsKeepCount(l, step);
      }
      StepIsLocal(l, step);
      SumChange(l.asks, Apply(l, step).asks, MovedAsk(l, step), HandledCount);
    }
  }

  // ---------- the loop and the mailbox ----------

  lemma NewAskKeepsMailbox(l: Listener, origin: Origin)
    requires MailboxAgrees(l)
    ensures MailboxAgrees(NewAsk(l, origin))
  {
    var m := NewAsk(l, origin);
    assert forall k :: 0 <= k < |l.asks| ==> m.asks[k] == l.asks[k];
    if l.live {
      assert m.mailbox[|l.mailbox|] == AcquirePermit(|l.asks|);
      assert forall p :: 0 <= p < |l.mailbox| ==> m.mailbox[p] == l.mailbox[p];
    }
  }

  lemma LoopStepKeepsAgreement(l: Listener, step: Step)
    requires Enabled(l, step) && LoopAgrees(l) && IsLoopStep(step)
    ensures LoopAgrees(Apply(l, step))
  {
  }

  lemma GateStepKeepsAgreement(l: Listener, step: Step)
    requires Enabled(l, step) && LoopAgrees(l) && MailboxAgrees(l) && IsGateStep(step)
    ensures LoopAgrees(Apply(l, step))
  {
  }

  lemma DeliveryKeepsAgreement(l: Listener, step: Step)
    requires Enabled(l, step) && LoopAgrees(l) && (step.TakePermit? || step.Deliver?)
    ensures LoopAgrees(Apply(l, step))
  {
    assert AskAgrees(l.loop, step.k, l.asks[step.k]);
  }

  lemma HandlersKeepAgreement(l: Listener, step: Step)
    requires Enabled(l, step) && LoopAgrees(l) && (step.SplitStream? || step.HandlerEnds?)
    ensures LoopAgrees(Apply(l, step))
  {
    assert AskAgrees(l.loop, step.k, l.asks[step.k]);
  }

  lemma LoopStepKeepsMailbox(l: Listener, step: Step)
    requires Enabled(l, step) && LoopAgrees(l) && MailboxAgrees(l) && IsLoopStep(step)
    ensures MailboxAgrees(Apply(l, step))
  {
    if step.SendAsk? { NewAskKeepsMailbox(l, AcceptLoop(l.loop.conn)); }
  }

  lemma GateStepKeepsMailbox(l: Listener, step: Step)
    requires Enabled(l, step) && MailboxAgrees(l) && IsGateStep(step) && !step.HandleMessage?
    ensures MailboxAgrees(Apply(l, step))
  {
    if step.ClientAsks? { NewAskKeepsMailbox(l, Client); }
  }

  /** The head of the mailbox is taken out and its request, if any, is no longer
      queued. */
  lemma TakingHeadKeepsMailbox(l: Listener, m: Listener)
    requires MailboxAgrees(l) && l.live && m.live && l.mailbox != [] && m.mailbox == l.mailbox[1..]
    requires |m.asks| == |l.asks| && forall k :: 0 <= k < |l.asks| ==>
      && m.asks[k].pc.Rejected? == l.asks[k].pc.Rejected?
      && m.asks[k].pc.Queued? == (l.asks[k].pc.Queued? && l.mailbox[0] != AcquirePermit(k))
    ensures MailboxAgrees(m)
  {
    assert l.mailbox == [l.mailbox[0]] + m.mailbox;
    assert forall p :: 0 <= p < |m.mailbox| ==> m.mailbox[p] == l.mailbox[p + 1];
  }

  lemma HandlingKeepsMailbox(l: Listener, step: Step)
    requires Enabled(l, step) && MailboxAgrees(l) && step.HandleMessage?
    ensures MailboxAgrees(Apply(l, step))
  {
    if !l.mailbox[0].StopSignal? {
      TakingHeadKeepsMailbox(l, Apply(l, step));
    }
  }

  /** Nothing queued, handled or refused: the mailbox still agrees. */
  lemma SettledKeepsMailbox(l: Listener, m: Listener)
    requires MailboxAgrees(l) && m.mailbox == l.mailbox && m.live == l.live && |m.asks| == |l.asks|
    requires forall k :: 0 <= k < |l.asks| ==>
      m.asks[k].pc.Queued? == l.asks[k].pc.Queued? && m.asks[k].pc.Rejected? == l.asks[k].pc.Rejected?
    ensures MailboxAgrees(m)
  {
  }

  lemma PermitStepKeepsMailbox(l: Listener, step: Step)
    requires Enabled(l, step) && MailboxAgrees(l) && IsPermitStep(step)
    ensures MailboxAgrees(Apply(l, step))
  {
    var m := Apply(l, step);
    assert m.mailbox == l.mailbox && m.live == l.live && |m.asks| == |l.asks|;
    SettledKeepsMailbox(l, m);
  }

  lemma StepKeepsInv(l: Listener, step: Step)
    requires Enabled(l, step) && Inv(l)
    ensures Inv(Apply(l, step)) && Apply(l, step).pool.capacity == l.pool.capacity
  {
    StepConservesPermits(l, step);
    StepKeepsCount(l, step);
    if IsLoopStep(step) {
      LoopStepKeepsAgreement(l, step);
      LoopStepKeepsMailbox(l, step);
    } else if IsPermitStep(step) {
      if step.TakePermit? || step.Deliver? { DeliveryKeepsAgreement(l, step); } else { HandlersKeepAgreement(l, step); }
      PermitStepKeepsMailbox(l, step);
    } else {
      GateStepKeepsAgreement(l, step);
      if step.HandleMessage? { HandlingKeepsMailbox(l, step); } else { GateStepKeepsMailbox(l, step); }
    }
  }

  lemma {:induction false} RunKeepsInv(l: Listener, run: seq<Step>)
    requires ValidRun(l, run) && Inv(l)
    ensures Inv(End(l, run)) && End(l, run).pool.capacity == l.pool.capacity
    decreases |run|
  {
    if run != [] {
      StepKeepsInv(l, run[0]);
      RunKeepsInv(Apply(l, run[0]), run[1..]);
    }
  }

  function PoolEventsOfRun(l: Listener, run: seq<Step>): seq<Sem.Event>
    requires ValidRun(l, run)
    decreases |run|
  {
    if run == [] then [] else PoolEvents(l, run[0]) + PoolEventsOfRun(Apply(l, run[0]), run[1..])
  }

  lemma {:induction false} RunIsSemaphoreHistory(l: Listener, run: seq<Step>)
    requires ValidRun(l, run) && Inv(l)
    ensures Sem.Permits(l.pool, PoolEventsOfRun(l, run))
    ensures Sem.Final(l.pool, PoolEventsOfRun(l, run)) == End(l, run).pool
    decreases |run|
  {
    if run != [] {
      StepIsSemaphoreHistory(l, run[0]);
      StepKeepsInv(l, run[0]);
      RunIsSemaphoreHistory(Apply(l, run[0]), run[1..]);
      Sem.HistoriesCompose(l.pool, PoolEvents(l, run[0]), PoolEventsOfRun(Apply(l, run[0]), run[1..]));
    }
  }

  lemma InitIsSafe(transport: Transport, requested: nat)
    ensures Inv(Init(transport, requested))
  {
    assert Init(transport, requested).asks == [];
  }

  /** Every reachable state is safe: permits are conserved, each held permit has
      exactly one owner, and the limit is never zero, whatever was requested. */
  lemma PermitsAlwaysConserved(transport: Transport, requested: nat, run: seq<Step>)
    requires ValidRun(Init(transport, requested), run)
    ensures var l := End(Init(transport, requested), run);
      && Inv(l)
      && l.pool.available + HeldPermits(l) == l.pool.capacity
      && l.pool.capacity == (if requested == 0 then 1 else requested) >= 1
  {
    InitIsSafe(transport, requested);
    RunKeepsInv(Init(transport, requested), run);
  }

  /** Over its whole life the pool of a gate goes through a legal history of the
      atomic semaphore, however the gate, its clients and its handlers end. */
  lemma PoolIsSemaphoreHistory(transport: Transport, requested: nat, run: seq<Step>)
    requires ValidRun(Init(transport, requested), run)
    ensures var events := PoolEventsOfRun(Init(transport, requested), run);
      && Sem.Permits(Sem.Fresh(Limit(requested)), events)
      && Sem.Final(Sem.Fresh(Limit(requested)), events) == End(Init(transport, requested), run).pool
  {
    InitIsSafe(transport, requested);
    RunIsSemaphoreHistory(Init(transport, requested), run);
  }

  lemma BacklogIsBounded(l: Listener)
    requires Inv(l)
    ensures StreamsInLoop(l) + ConnectionsHolding(l) <= l.pool.capacity + 1
    ensures l.loop.Admitted? ==> StreamsInLoop(l) + ConnectionsHolding(l) <= l.pool.capacity
  {
    SumMonotone(l.asks, l.asks, ConnectionCount, HoldCount);
    if l.loop.Admitted? {
      var k := l.loop.k;
      var without := l.asks[k := l.asks[k].(pc := Dropped)];
      SumChange(l.asks, without, k, HoldCount);
      SumChange(l.asks, without, k, ConnectionCount);
      SumMonotone(without, without, ConnectionCount, HoldCount);
    }
  }

  /** In every run: accepted streams not yet handed to a handler, plus
      connections whose handler still holds its permit, never exceed the limit by
      more than one, because the loop does not accept again before it is
      admitted. */
  lemma BacklogAlwaysBounded(transport: Transport, requested: nat, run: seq<Step>)
    requires ValidRun(Init(transport, requested), run)
    ensures var l := End(Init(transport, requested), run);
      StreamsInLoop(l) + ConnectionsHolding(l) <= Limit(requested) + 1
  {
    PermitsAlwaysConserved(transport, requested, run);
    BacklogIsBounded(End(Init(transport, requested), run));
  }

  /** What a status reply says: the permits not held at that instant and the
      number of acquire messages handled so far, capped at `u64::MAX`; below the
      cap that number is everything waiting, held or released. */
  lemma StatusIsExact(l: Listener)
    requires Inv(l) && l.live && l.mailbox != [] && l.mailbox[0].StatusRequest?
    ensures var m := Apply(l, HandleMessage);
      && |m.replies| == |l.replies| + 1
      && var reply := m.replies[|l.replies|];
      && reply.limit == l.pool.capacity
      && reply.available + HeldPermits(l) == reply.limit
      && var handled := Sum(l.asks, WaitCount) + HeldPermits(l) + Sum(l.asks, ReleaseCount);
         reply.accepted == (if handled <= U64_MAX then handled else U64_MAX)
  {
    SumSplits(l.asks, HandledCount, WaitCount, HoldCount, ReleaseCount);
  }

  // ---------- what a schedule says about errors and abandonment ----------

  /** Requests keep their place and their asker. */
  predicate KeepsAskers(l: Listener, m: Listener)
  {
    |l.asks| <= |m.asks| && forall k :: 0 <= k < |l.asks| ==> m.asks[k].origin == l.asks[k].origin
  }

  lemma {:induction false} StepKeepsAskers(l: Listener, step: Step)
    requires Enabled(l, step)
    ensures KeepsAskers(l, Apply(l, step))
  {
  }

  lemma {:induction false} RunKeepsAskers(l: Listener, run: seq<Step>)
    requires ValidRun(l, run)
    ensures KeepsAskers(l, End(l, run))
    decreases |run|
  {
    if run != [] {
      StepKeepsAskers(l, run[0]);
      RunKeepsAskers(Apply(l, run[0]), run[1..]);
    }
  }

  /** The connection whose handler a step ends with an error, if it does. */
  function FailureOf(asks: seq<Ask>, step: Step): seq<Conn>
  {
    if step.HandlerEnds? && step.outcome.ReturnsError? && step.k < |asks| && asks[step.k].origin.AcceptLoop?
    then [asks[step.k].origin.conn] else []
  }

  /** The connections whose handlers failed, in the order of the schedule. */
  function FailuresIn(asks: seq<Ask>, run: seq<Step>): seq<Conn>
  {
    if run == [] then [] else FailureOf(asks, run[0]) + FailuresIn(asks, run[1..])
  }

  lemma {:induction false} StepLogsFailure(l: Listener, step: Step)
    requires Enabled(l, step)
    ensures Apply(l, step).errorLog == l.errorLog + FailureOf(l.asks, step)
  {
  }

  lemma {:induction false} RunLogsFailures(l: Listener, run: seq<Step>)
    requires ValidRun(l, run)
    ensures End(l, run).errorLog == l.errorLog + FailuresIn(End(l, run).asks, run)
    decreases |run|
  {
    if run != [] {
      var m, asks := Apply(l, run[0]), End(l, run).asks;
      StepLogsFailure(l, run[0]);
      StepKeepsAskers(l, run[0]);
      RunKeepsAskers(m, run[1..]);
      RunLogsFailures(m, run[1..]);
      assert FailureOf(l.asks, run[0]) == FailureOf(asks, run[0]);
      assert l.errorLog + FailureOf(asks, run[0]) + FailuresIn(asks, run[1..])
          == l.errorLog + (FailureOf(asks, run[0]) + FailuresIn(asks, run[1..]));
    }
  }

  /** Only connections have handlers, so no failed handler goes unlogged. */
  lemma {:induction false} HandlersServeConnections(l: Listener, step: Step)
    requires Inv(l) && Enabled(l, step) && step.HandlerEnds?
    ensures l.asks[step.k].origin.AcceptLoop?
  {
    assert AskAgrees(l.loop, step.k, l.asks[step.k]);
  }

  /** The error log of a listener is exactly the connections whose handlers
      returned an error, in the order they did. */
  lemma {:induction false} ErrorLogIsExact(transport: Transport, requested: nat, run: seq<Step>)
    requires ValidRun(Init(transport, requested), run)
    ensures var l := End(Init(transport, requested), run);
      l.errorLog == FailuresIn(l.asks, run)
  {
    RunLogsFailures(Init(transport, requested), run);
  }

  /** Some accept, or reading some peer, failed. */
  predicate IoFails(run: seq<Step>)
  {
    AcceptFails in run || IdentifyFails in run
  }

  predicate IoFailed(l: Listener) { l.loop == Failed(Io) }

  predicate GateFailed(l: Listener) { l.loop == Failed(RequestGateError) }

  lemma {:induction false} StepEndsLoop(l: Listener, step: Step)
    requires Enabled(l, step) && LoopAgrees(l)
    ensures var m := Apply(l, step);
      && (IoFailed(m) <==> IoFailed(l) || step.AcceptFails? || step.IdentifyFails?)
      && (GateFailed(m) <==> GateFailed(l) || step.NoticeRejection?)
      && (m.loop.Aborted? <==> l.loop.Aborted? || step.AbortLoop?)
  {
    if step.Deliver? { assert AskAgrees(l.loop, step.k, l.asks[step.k]); }
  }

  lemma {:induction false} RunEndsLoop(l: Listener, run: seq<Step>)
    requires ValidRun(l, run) && Inv(l)
    ensures var m := End(l, run);
      && (IoFailed(m) <==> IoFailed(l) || IoFails(run))
      && (GateFailed(m) <==> GateFailed(l) || NoticeRejection in run)
      && (m.loop.Aborted? <==> l.loop.Aborted? || AbortLoop in run)
    decreases |run|
  {
    if run != [] {
      StepEndsLoop(l, run[0]);
      StepKeepsInv(l, run[0]);
      RunEndsLoop(Apply(l, run[0]), run[1..]);
      assert run == [run[0]] + run[1..];
    }
  }

  lemma {:induction false} TcpReadsNoPeer(l: Listener, run: seq<Step>)
    requires ValidRun(l, run) && l.transport.Tcp?
    ensures IdentifyFails !in run
    decreases |run|
  {
    if run != [] {
      TcpReadsNoPeer(Apply(l, run[0]), run[1..]);
      assert run == [run[0]] + run[1..];
    }
  }

  /** How an accept loop ends, in every run: with an I/O error exactly if an accept
      or the reading of a peer failed, with a gate error exactly if it saw its
      request refused, aborted exactly if it was. The TCP loop reads no peer. */
  lemma {:induction false} LoopEndsAsItFailed(transport: Transport, requested: nat, run: seq<Step>)
    requires ValidRun(Init(transport, requested), run)
    ensures var l := End(Init(transport, requested), run);
      && (l.loop == Failed(Io) <==> AcceptFails in run || IdentifyFails in run)
      && (l.loop == Failed(RequestGateError) <==> NoticeRejection in run)
      && (l.loop == Aborted <==> AbortLoop in run)
    ensures transport.Tcp? ==> IdentifyFails !in run
  {
    InitIsSafe(transport, requested);
    RunEndsLoop(Init(transport, requested), run);
    if transport.Tcp? { TcpReadsNoPeer(Init(transport, requested), run); }
  }

  function Connections(run: seq<Step>): seq<Conn>
  {
    if run == [] then [] else (if run[0].Connect? then [run[0].conn] else []) + Connections(run[1..])
  }

  function Accepts(run: seq<Step>): nat
  {
    if run == [] then 0 else (if run[0].Accept? then 1 else 0) + Accepts(run[1..])
  }

  lemma {:induction false} StepQueuesStreams(l: Listener, step: Step)
    requires Enabled(l, step)
    ensures var m := Apply(l, step);
      && (step.Connect? ==> m.backlog == l.backlog + [step.conn])
      && (step.Accept? ==> l.backlog != [] && m.backlog == l.backlog[1..] && m.loop == Identifying(l.backlog[0]))
      && (!step.Connect? && !step.Accept? ==> m.backlog == l.backlog)
  {
  }

  /** Streams are accepted in the order in which they came: after n accepts the
      backlog is everything that came, without the first n. */
  lemma {:induction false} AcceptedFirstComeFirst(l: Listener, run: seq<Step>)
    requires ValidRun(l, run)
    ensures var came := l.backlog + Connections(run);
      Accepts(run) <= |came| && End(l, run).backlog == came[Accepts(run)..]
    decreases |run|
  {
    if run != [] {
      var m := Apply(l, run[0]);
      StepQueuesStreams(l, run[0]);
      AcceptedFirstComeFirst(m, run[1..]);
      var came, later := l.backlog + Connections(run), m.backlog + Connections(run[1..]);
      if run[0].Accept? {
        assert later == came[1..];
      } else {
        assert later == came;
      }
    }
  }

  /** What the parts of a listener wait for: a request for a permit to be free, an
      actor for a message, a loop for a stream or the answer to its request, and a
      handler for nothing, whatever the state of the gate. */
  lemma {:induction false} NothingElseBlocks(l: Listener)
    requires Inv(l)
    ensures forall k :: 0 <= k < |l.asks| ==>
      match l.asks[k].pc
      case Waiting => l.pool.available > 0 ==> Enabled(l, TakePermit(k))
      case Granted => Enabled(l, Deliver(k))
      case Delivered => l.asks[k].origin.Client? ==> Enabled(l, ClientDrops(k))
      case Handling => Enabled(l, SplitStream(k)) && forall outcome :: Enabled(l, HandlerEnds(k, outcome))
      case Split => forall outcome :: Enabled(l, HandlerEnds(k, outcome))
      case _ => true
    ensures forall k :: 0 <= k < |l.asks| && l.asks[k].origin.Client? ==> Enabled(l, ClientAbandons(k))
    ensures l.live && l.mailbox != [] ==> Enabled(l, HandleMessage)
    ensures
      match l.loop
      case Accepting => l.backlog != [] ==> Enabled(l, Accept)
      case Identifying(_) => Enabled(l, SendAsk)
      case Asking(k) => AskAt(l, k, Rejected) ==> Enabled(l, NoticeRejection)
      case Admitted(_) => Enabled(l, SpawnHandler)
      case _ => true
    ensures !l.loop.Failed? ==> Enabled(l, AbortLoop)
    ensures Enabled(l, AskStatus) <==> l.live
  {
  }

  /** `into_parts` gives the permit back while the handler goes on, and its later
      end gives nothing back a second time. */
  lemma {:induction false} StreamOutlivesPermit(l: Listener, k: nat, outcome: Outcome)
    requires Inv(l) && AskAt(l, k, Handling)
    ensures var run := [SplitStream(k)] + [HandlerEnds(k, outcome)];
      && ValidRun(l, run)
      && Apply(l, SplitStream(k)).pool.available == l.pool.available + 1
      && End(l, run).pool == Apply(l, SplitStream(k)).pool
      && End(l, run).errorLog == l.errorLog + if outcome.ReturnsError? then [l.asks[k].origin.conn] else []
  {
    var split := Apply(l, SplitStream(k));
    StepKeepsInv(l, SplitStream(k));
    HandlersServeConnections(l, HandlerEnds(k, outcome));
    StepLogsFailure(split, HandlerEnds(k, outcome));
    RunCons(split, HandlerEnds(k, outcome), []);
    assert [HandlerEnds(k, outcome)] == [HandlerEnds(k, outcome)] + [];
    RunCons(l, SplitStream(k), [HandlerEnds(k, outcome)]);
  }

  /** What the outside can always do to a loop: make an accept fail, and on a Unix
      socket the reading of the peer. */
  lemma {:induction false} AnyAcceptMayFail(l: Listener)
    ensures l.loop.Accepting? ==> ValidRun(l, [AcceptFails]) && IoFailed(End(l, [AcceptFails]))
    ensures l.loop.Identifying? && l.transport.Unix? ==> ValidRun(l, [IdentifyFails]) && IoFailed(End(l, [IdentifyFails]))
  {
    if l.loop.Accepting? {
      RunCons(l, AcceptFails, []);
      assert [AcceptFails] == [AcceptFails] + [];
    } else if l.loop.Identifying? && l.transport.Unix? {
      RunCons(l, IdentifyFails, []);
      assert [IdentifyFails] == [IdentifyFails] + [];
    }
  }

  function StatusAsks(run: seq<Step>): nat
  {
    if run == [] then 0 else (if run[0].AskStatus? then 1 else 0) + StatusAsks(run[1..])
  }

  function StatusWaiting(mailbox: seq<Message>): nat
  {
    if mailbox == [] then 0 else (if mailbox[0].StatusRequest? then 1 else 0) + StatusWaiting(mailbox[1..])
  }

  lemma {:induction false} StatusWaitingSplits(a: seq<Message>, b: seq<Message>)
    ensures StatusWaiting(a + b) == StatusWaiting(a) + StatusWaiting(b)
    decreases |a|
  {
    if a == [] {
      assert a + b == b;
    } else {
      StatusWaitingSplits(a[1..], b);
      assert (a + b)[1..] == a[1..] + b;
    }
  }

  /** Status requests replied to or still in the mailbox. */
  function StatusKnown(l: Listener): nat { |l.replies| + StatusWaiting(l.mailbox) }

  lemma {:induction false} StepAnswersStatus(l: Listener, step: Step)
    requires Enabled(l, step) && Apply(l, step).live
    ensures l.live
    ensures StatusKnown(Apply(l, step)) == StatusKnown(l) + if step.AskStatus? then 1 else 0
  {
    var m := Apply(l, step);
    if step.SendAsk? || step.ClientAsks? || step.AskStatus? || step.AskStop? {
      var more := m.mailbox[|l.mailbox|..];
      assert m.mailbox == l.mailbox + more && |more| == 1 && more[1..] == [];
      StatusWaitingSplits(l.mailbox, more);
    } else if step.HandleMessage? {
      assert m.mailbox == l.mailbox[1..];
    } else {
      assert m.mailbox == l.mailbox && m.replies == l.replies;
    }
  }

  lemma {:induction false} StepKeepsReplies(l: Listener, step: Step)
    requires Enabled(l, step)
    ensures l.replies <= Apply(l, step).replies
  {
  }

  /** Replies are kept in order; and while a gate lives, every status request ever
      made has had its reply or is still in the mailbox. */
  lemma {:induction false} NoStatusIsLost(l: Listener, run: seq<Step>)
    requires ValidRun(l, run)
    ensures l.replies <= End(l, run).replies
    ensures End(l, run).live ==> l.live && StatusKnown(End(l, run)) == StatusKnown(l) + StatusAsks(run)
    decreases |run|
  {
    if run != [] {
      var m := Apply(l, run[0]);
      NoStatusIsLost(m, run[1..]);
      StepKeepsReplies(l, run[0]);
      if End(l, run).live { StepAnswersStatus(l, run[0]); }
    }
  }

  /** A client request that somebody still listens for. */
  predicate Heard(l: Listener, k: nat)
  {
    k < |l.asks| ==> l.asks[k].listening
  }

  /** The loop abandons only its own requests. */
  lemma {:induction false} LoopUnhearsNoClient(l: Listener, step: Step, k: nat)
    requires Enabled(l, step) && LoopAgrees(l) && IsLoopStep(step)
    requires k < |Apply(l, step).asks| && Apply(l, step).asks[k].origin.Client?
    ensures Heard(Apply(l, step), k) <==> Heard(l, k)
  {
  }

  lemma {:induction false} PermitsUnhearNobody(l: Listener, step: Step, k: nat)
    requires Enabled(l, step) && IsPermitStep(step)
    ensures Heard(Apply(l, step), k) <==> Heard(l, k)
  {
  }

  lemma {:induction false} StepUnhears(l: Listener, step: Step, k: nat)
    requires Enabled(l, step) && LoopAgrees(l)
    requires k < |Apply(l, step).asks| && Apply(l, step).asks[k].origin.Client?
    ensures Heard(Apply(l, step), k) <==> Heard(l, k) && step != ClientAbandons(k)
  {
    if IsLoopStep(step) {
      LoopUnhearsNoClient(l, step, k);
    } else if IsPermitStep(step) {
      PermitsUnhearNobody(l, step, k);
    }
  }

  lemma {:induction false} RunUnhears(l: Listener, run: seq<Step>, k: nat)
    requires ValidRun(l, run) && Inv(l)
    requires k < |End(l, run).asks| && End(l, run).asks[k].origin.Client?
    ensures Heard(End(l, run), k) <==> Heard(l, k) && ClientAbandons(k) !in run
    decreases |run|
  {
    if run != [] {
      var m := Apply(l, run[0]);
      StepKeepsInv(l, run[0]);
      StepKeepsAskers(l, run[0]);
      RunKeepsAskers(m, run[1..]);
      RunUnhears(m, run[1..], k);
      if k < |m.asks| {
        StepUnhears(l, run[0], k);
      } else {
        assert run[0] != ClientAbandons(k);
      }
      assert run == [run[0]] + run[1..];
    }
  }

  /** A client's request is unheard exactly if that client abandoned it. */
  lemma {:induction false} AbandonedIsUnheard(transport: Transport, requested: nat, run: seq<Step>, k: nat)
    requires ValidRun(Init(transport, requested), run)
    requires var l := End(Init(transport, requested), run);
      k < |l.asks| && l.asks[k].origin.Client?
    ensures End(Init(transport, requested), run).asks[k].listening <==> ClientAbandons(k) !in run
  {
    InitIsSafe(transport, requested);
    RunUnhears(Init(transport, requested), run, k);
  }

  // ---------- the mailbox never waits for permits ----------

  function Turns(n: nat): (run: seq<Step>)
    ensures |run| == n
  {
    if n == 0 then [] else [HandleMessage] + Turns(n - 1)
  }

  /** The actor's turns up to and including the first stop signal. */
  function TurnsNeeded(mailbox: seq<Message>): nat
  {
    if mailbox == [] then 0
    else if mailbox[0].StopSignal? then 1
    else 1 + TurnsNeeded(mailbox[1..])
  }

  predicate SameAskers(l: Listener, m: Listener)
  {
    |m.asks| == |l.asks| && forall k :: 0 <= k < |l.asks| ==>
      m.asks[k].origin == l.asks[k].origin && m.asks[k].listening == l.asks[k].listening
  }

  lemma TurnEffect(l: Listener)
    requires Enabled(l, HandleMessage)
    ensures var m := Apply(l, HandleMessage);
      && m.pool == l.pool && m.loop == l.loop && m.backlog == l.backlog && SameAskers(l, m)
      && (if l.mailbox[0].StopSignal? then !m.live && m.mailbox == []
          else m.live && l.mailbox == [l.mailbox[0]] + m.mailbox)
  {
  }

  /** The actor's turns taken in a run. */
  function TurnsIn(run: seq<Step>): (n: nat)
    ensures n <= |run|
  {
    if run == [] then 0 else (if run[0].HandleMessage? then 1 else 0) + TurnsIn(run[1..])
  }

  lemma MailboxMoves(l: Listener, step: Step)
    requires Enabled(l, step) && l.live
    ensures var m := Apply(l, step);
      if step.HandleMessage? then
        !l.mailbox[0].StopSignal? ==> m.live && m.mailbox == l.mailbox[1..]
      else m.live && l.mailbox <= m.mailbox
  {
  }

  lemma MailboxShifts(l: Listener, m: Listener, n: nat)
    requires l.mailbox != [] && m.mailbox == l.mailbox[1..] && 0 < n <= |l.mailbox|
    requires StopSignal !in l.mailbox[..n]
    ensures StopSignal !in m.mailbox[..n - 1] && m.mailbox[n - 1..] == l.mailbox[n..]
  {
    assert forall p :: 0 <= p < n - 1 ==> m.mailbox[p] == l.mailbox[..n][p + 1];
  }

  /** In every run, whatever asks, permits and handlers come between: after n turns
      of the actor, none of them a stop, the next message is the one that was at
      position n, and everything behind it is still there in order. A message is
      never overtaken, skipped or kept waiting by anything but earlier messages. */
  lemma {:induction false} MailboxIsFirstInFirstOut(l: Listener, run: seq<Step>)
    requires ValidRun(l, run) && l.live
    requires TurnsIn(run) <= |l.mailbox| && StopSignal !in l.mailbox[..TurnsIn(run)]
    ensures End(l, run).live && l.mailbox[TurnsIn(run)..] <= End(l, run).mailbox
    decreases |run|
  {
    if run != [] {
      var m, n := Apply(l, run[0]), TurnsIn(run);
      MailboxMoves(l, run[0]);
      if run[0].HandleMessage? {
        assert l.mailbox[0] == l.mailbox[..n][0];
        MailboxShifts(l, m, n);
      } else {
        assert m.mailbox[..n] == l.mailbox[..n];
      }
      MailboxIsFirstInFirstOut(m, run[1..]);
    }
  }

  /** One more turn before n turns. */
  lemma TurnThenTurns(l: Listener, n: nat)
    requires Enabled(l, HandleMessage) && ValidRun(Apply(l, HandleMessage), Turns(n))
    ensures ValidRun(l, Turns(n + 1)) && End(l, Turns(n + 1)) == End(Apply(l, HandleMessage), Turns(n))
  {
    RunCons(l, HandleMessage, Turns(n));
  }

  /** From every reachable state of a live gate the actor empties its mailbox in
      one turn per message, up to a stop signal if there is one, with the pool
      untouched: at zero available permits too. */
  lemma {:induction false} MailboxDrains(l: Listener)
    requires Inv(l) && l.live
    ensures var run := Turns(TurnsNeeded(l.mailbox));
      && ValidRun(l, run)
      && var m := End(l, run);
      && m.mailbox == []
      && m.live == (StopSignal !in l.mailbox)
      && m.pool == l.pool && m.loop == l.loop && m.backlog == l.backlog && SameAskers(l, m)
    ensures StopSignal !in l.mailbox ==> TurnsNeeded(l.mailbox) == |l.mailbox|
    decreases |l.mailbox|
  {
    if l.mailbox != [] {
      var next := Apply(l, HandleMessage);
      StepKeepsInv(l, HandleMessage);
      TurnEffect(l);
      if l.mailbox[0].StopSignal? {
        TurnThenTurns(l, 0);
      } else {
        assert l.mailbox[1..] == next.mailbox;
        MailboxDrains(next);
        TurnThenTurns(l, TurnsNeeded(next.mailbox));
      }
    }
  }

  // ---------- progress of one listener ----------

  /** The stream the loop is working on, or would take next. */
  function CurrentStream(l: Listener): Conn
    requires LoopAgrees(l) && (l.loop.Accepting? ==> l.backlog != [])
  {
    match l.loop
    case Identifying(conn) => conn
    case Asking(k) => l.asks[k].origin.conn
    case Admitted(k) => l.asks[k].origin.conn
    case _ => if l.backlog == [] then 0 else l.backlog[0]
  }

  /** The request of that stream: the current one, or the next to be made. */
  function CurrentAsk(l: Listener): nat
  {
    if l.loop.Asking? || l.loop.Admitted? then l.loop.k else |l.asks|
  }

  /** The gate is up and nobody has asked it to stop. */
  predicate GateIsOpen(l: Listener)
  {
    l.live && StopSignal !in l.mailbox
  }

  /** The loop has a stream, and its permit is in its hands, on its way, or free
      behind an open gate. */
  predicate CanServe(l: Listener)
  {
    match l.loop
    case Accepting => l.backlog != [] && GateIsOpen(l) && l.pool.available > 0
    case Identifying(_) => GateIsOpen(l) && l.pool.available > 0
    case Asking(k) => AskAt(l, k, Granted) || (GateIsOpen(l) && l.pool.available > 0)
    case Admitted(_) => true
    case _ => false
  }

  /** The run leads to the end of the handler of request `k`, made for `conn`,
      and back to `accept`, without the daemon's help. */
  predicate Serves(l: Listener, run: seq<Step>, k: nat, conn: Conn, backlog: seq<Conn>)
  {
    && ValidRun(l, run)
    && var m := End(l, run);
    && m.loop.Accepting? && m.backlog == backlog && AskAt(m, k, Ended) && m.asks[k].origin == AcceptLoop(conn)
    && forall p :: 0 <= p < |run| ==> !run[p].AbortLoop? && !run[p].AskStop?
  }

  lemma ServesAfter(l: Listener, step: Step, rest: seq<Step>, k: nat, conn: Conn, backlog: seq<Conn>)
    requires Enabled(l, step) && !step.AbortLoop? && !step.AskStop?
    requires Serves(Apply(l, step), rest, k, conn, backlog)
    ensures Serves(l, [step] + rest, k, conn, backlog)
  {
    RunCons(l, step, rest);
  }

  lemma ServeAdmitted(l: Listener) returns (run: seq<Step>)
    requires Inv(l) && l.loop.Admitted?
    ensures Serves(l, run, l.loop.k, CurrentStream(l), l.backlog)
  {
    var k := l.loop.k;
    var spawned := Apply(l, SpawnHandler);
    var ended := Apply(spawned, HandlerEnds(k, Completes));
    assert Serves(ended, [], k, CurrentStream(l), l.backlog);
    ServesAfter(spawned, HandlerEnds(k, Completes), [], k, CurrentStream(l), l.backlog);
    run := [HandlerEnds(k, Completes)] + [];
    ServesAfter(l, SpawnHandler, run, k, CurrentStream(l), l.backlog);
    run := [SpawnHandler] + run;
  }

  lemma ServeGranted(l: Listener) returns (run: seq<Step>)
    requires Inv(l) && l.loop.Asking? && AskAt(l, l.loop.k, Granted)
    ensures Serves(l, run, l.loop.k, CurrentStream(l), l.backlog)
  {
    var k := l.loop.k;
    StepKeepsInv(l, Deliver(k));
    run := ServeAdmitted(Apply(l, Deliver(k)));
    ServesAfter(l, Deliver(k), run, k, CurrentStream(l), l.backlog);
    run := [Deliver(k)] + run;
  }

  /** With the mailbox empty the request waits in the pool, or has its permit. */
  lemma AdmitAndServe(l: Listener) returns (run: seq<Step>)
    requires Inv(l) && l.live && l.mailbox == [] && l.loop.Asking? && l.pool.available > 0
    ensures Serves(l, run, l.loop.k, CurrentStream(l), l.backlog)
  {
    var k := l.loop.k;
    if l.asks[k].pc.Waiting? {
      StepKeepsInv(l, TakePermit(k));
      run := ServeGranted(Apply(l, TakePermit(k)));
      ServesAfter(l, TakePermit(k), run, k, CurrentStream(l), l.backlog);
      run := [TakePermit(k)] + run;
    } else {
      run := ServeGranted(l);
    }
  }

  lemma ServesAfterTurns(l: Listener, n: nat, rest: seq<Step>, k: nat, conn: Conn, backlog: seq<Conn>)
    requires ValidRun(l, Turns(n)) && Serves(End(l, Turns(n)), rest, k, conn, backlog)
    ensures Serves(l, Turns(n) + rest, k, conn, backlog)
  {
    RunsCompose(l, Turns(n), rest);
    TurnsOnlyHandle(n);
  }

  lemma ServeAsking(l: Listener) returns (run: seq<Step>)
    requires Inv(l) && l.loop.Asking? && CanServe(l)
    ensures Serves(l, run, l.loop.k, CurrentStream(l), l.backlog)
  {
    if AskAt(l, l.loop.k, Granted) {
      run := ServeGranted(l);
    } else {
      var n := TurnsNeeded(l.mailbox);
      MailboxDrains(l);
      RunKeepsInv(l, Turns(n));
      var drained := End(l, Turns(n));
      var rest := AdmitAndServe(drained);
      assert CurrentStream(drained) == CurrentStream(l);
      ServesAfterTurns(l, n, rest, l.loop.k, CurrentStream(l), l.backlog);
      run := Turns(n) + rest;
    }
  }

  lemma ServeIdentified(l: Listener) returns (run: seq<Step>)
    requires Inv(l) && l.loop.Identifying? && CanServe(l)
    ensures Serves(l, run, |l.asks|, CurrentStream(l), l.backlog)
  {
    StepKeepsInv(l, SendAsk);
    run := ServeAsking(Apply(l, SendAsk));
    ServesAfter(l, SendAsk, run, |l.asks|, CurrentStream(l), l.backlog);
    run := [SendAsk] + run;
  }

  /** A listener with a stream and a permit within reach can serve that stream to
      the end of its handler on its own steps alone, wherever in the loop it is; a
      permit already granted is enough even when the gate is going down. */
  lemma ServesNextStream(l: Listener) returns (run: seq<Step>)
    requires Inv(l) && CanServe(l)
    ensures Serves(l, run, CurrentAsk(l), CurrentStream(l), if l.loop.Accepting? then l.backlog[1..] else l.backlog)
  {
    match l.loop
    case Accepting =>
      StepKeepsInv(l, Accept);
      run := ServeIdentified(Apply(l, Accept));
      ServesAfter(l, Accept, run, |l.asks|, l.backlog[0], l.backlog[1..]);
      run := [Accept] + run;
    case Identifying(_) => run := ServeIdentified(l);
    case Asking(_) => run := ServeAsking(l);
    case Admitted(_) => run := ServeAdmitted(l);
  }

  lemma {:induction false} TurnsOnlyHandle(n: nat)
    ensures forall p :: 0 <= p < n ==> Turns(n)[p] == HandleMessage
  {
    if n > 0 { TurnsOnlyHandle(n - 1); }
  }
}
