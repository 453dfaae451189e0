/** One bound listener as the object its tasks share: the gate's pool, count and
    mailbox, the accept loop's position and the request table. Each method is
    one indivisible region of the accept loop, of a `RequestGate` message
    handler, of a delegated permit task, of a connection handler or of a client.
    It keeps the object valid, says what becomes of the permits, and is the step
    of the same name; `Execute` plays any schedule on the object. */
module AdmissionShell {
  import opened Admission
  import opened AdmissionSafety
  import opened Folds
  import opened Wrappers
  import Sem = CountingSemaphore

  lemma SpawningAddsConnection(l: Listener)
    requires Enabled(l, SpawnHandler) && Inv(l)
    ensures ConnectionsHolding(Apply(l, SpawnHandler)) == ConnectionsHolding(l) + 1
  {
    StepIsLocal(l, SpawnHandler);
    SumChange(l.asks, Apply(l, SpawnHandler).asks, l.loop.k, ConnectionCount);
  }

  lemma SplittingReleasesConnection(l: Listener, k: nat)
    requires Enabled(l, SplitStream(k)) && Inv(l)
    ensures var m := Apply(l, SplitStream(k));
      ConnectionsHolding(m) + 1 == ConnectionsHolding(l) && HeldPermits(m) + 1 == HeldPermits(l)
  {
    StepIsLocal(l, SplitStream(k));
    SumChange(l.asks, Apply(l, SplitStream(k)).asks, k, ConnectionCount);
    SumChange(l.asks, Apply(l, SplitStream(k)).asks, k, HoldCount);
  }

  lemma TurnCountsAcquires(l: Listener)
    requires Enabled(l, HandleMessage) && Inv(l)
    ensures HandledRequests(Apply(l, HandleMessage)) == HandledRequests(l) + if l.mailbox[0].AcquirePermit? then 1 else 0
  {
    if l.mailbox[0].StopSignal? {
      StopKeepsCounts(l);
    } else {
      GateMovesCount(l, HandleMessage);
      StepIsLocal(l, HandleMessage);
      SumChange(l.asks, Apply(l, HandleMessage).asks, MovedAsk(l, HandleMessage), HandledCount);
    }
  }

  /** Nobody in the accept loop waits for, or can still be given, a permit. */
  predicate LoopIsUnheard(asks: seq<Ask>)
  {
    forall k :: 0 <= k < |asks| && asks[k].origin.AcceptLoop? && asks[k].listening ==>
      !asks[k].pc.Queued? && !asks[k].pc.Waiting? && !asks[k].pc.Granted? && !asks[k].pc.Delivered?
  }

  lemma AbortedLoopIsUnheard(l: Listener)
    requires LoopAgrees(l) && l.loop.Aborted?
    ensures LoopIsUnheard(l.asks)
  {
    forall k | 0 <= k < |l.asks| && l.asks[k].origin.AcceptLoop? && l.asks[k].listening
      ensures !l.asks[k].pc.Queued? && !l.asks[k].pc.Waiting? && !l.asks[k].pc.Granted? && !l.asks[k].pc.Delivered?
    {
      assert AskAgrees(l.loop, k, l.asks[k]);
    }
  }

  lemma AbortGivesBack(l: Listener)
    requires Enabled(l, AbortLoop) && Inv(l)
    ensures var m := Apply(l, AbortLoop);
      && HeldPermits(m) + (if l.loop.Admitted? then 1 else 0) == HeldPermits(l)
      && StreamsInLoop(m) == 0 && LoopIsUnheard(m.asks)
  {
    StepKeepsInv(l, AbortLoop);
    AbortedLoopIsUnheard(Apply(l, AbortLoop));
  }

  lemma DeliveryKeepsOrReturns(l: Listener, k: nat)
    requires Enabled(l, Deliver(k)) && Inv(l)
    ensures var m := Apply(l, Deliver(k));
      && HeldPermits(m) + (if l.asks[k].listening then 0 else 1) == HeldPermits(l)
      && (l.asks[k].listening && l.asks[k].origin.AcceptLoop? ==> l.loop == Asking(k) && m.loop == Admitted(k))
  {
    StepKeepsInv(l, Deliver(k));
    assert AskAgrees(l.loop, k, l.asks[k]);
  }

  lemma {:induction false} HandlerEndIsLogged(l: Listener, k: nat, outcome: Outcome)
    requires Inv(l) && Enabled(l, HandlerEnds(k, outcome))
    ensures var m := Apply(l, HandlerEnds(k, outcome));
      && l.asks[k].origin.AcceptLoop?
      && m.errorLog == l.errorLog + (if outcome.ReturnsError? then [l.asks[k].origin.conn] else [])
      && HeldPermits(m) + (if l.asks[k].pc.Handling? then 1 else 0) == HeldPermits(l)
  {
    HandlersServeConnections(l, HandlerEnds(k, outcome));
    StepLogsFailure(l, HandlerEnds(k, outcome));
    StepKeepsInv(l, HandlerEnds(k, outcome));
  }

  class ListenerShell {
    const transport: Transport
    var pool: Sem.Semaphore
    var accepted: nat
    var mailbox: seq<Message>
    var live: bool
    var asks: seq<Ask>
    var loop: LoopPc
    var backlog: seq<Conn>
    var replies: seq<Status>
    var errorLog: seq<Conn>

    ghost function State(): Listener
      reads this
    {
      Listener(transport, pool, accepted, mailbox, live, asks, loop, backlog, replies, errorLog)
    }

    /** Conserved and named permits, an exact count, a loop and a mailbox that
        agree with the request table. */
    ghost predicate Valid()
      reads this
    {
      Inv(State())
    }

    ghost function Held(): nat
      reads this
    {
      HeldPermits(State())
    }

    constructor (transport: Transport, requested: nat)
      ensures Valid() && State() == Init(transport, requested)
      ensures pool.available == pool.capacity >= 1 && Held() == 0
    {
      this.transport := transport;
      pool := Sem.Fresh(if requested == 0 then 1 else requested);
      accepted := 0;
      mailbox := [];
      live := true;
      asks := [];
      loop := Accepting;
      backlog := [];
      replies := [];
      errorLog := [];
      new;
      InitIsSafe(transport, requested);
    }

    /** What a finished region owes to the proof. */
    twostate lemma WasStep(step: Step)
      requires old(Valid()) && Enabled(old(State()), step)
      requires State() == Apply(old(State()), step)
      ensures Valid() && pool.capacity == old(pool).capacity
      ensures pool.available + Held() == old(pool).available + old(Held()) == pool.capacity
    {
      StepKeepsInv(old(State()), step);
    }

    method SetAsk(k: nat, pc: AskPc)
      requires k < |asks|
      modifies this`asks
      ensures asks == old(asks)[k := old(asks)[k].(pc := pc)]
    {
      asks := asks[k := asks[k].(pc := pc)];
    }

    /** Dropping a `RequestPermit` returns it to the semaphore. */
    method DropPermit(k: nat, pc: AskPc)
      requires k < |asks|
      modifies this`asks, this`pool
      ensures State() == ReleasePermit(MoveAsk(old(State()), k, pc), k)
    {
      asks := asks[k := asks[k].(pc := pc)];
      pool := pool.(available := pool.available + 1, held := pool.held - multiset{k});
    }

    /** `ActorRef::ask(AcquireRequestPermit)`: a live gate gets exactly one message
        for the new request, a stopped gate refuses it, and either way the queued
        requests are still exactly the acquire messages in the mailbox. */
    method Ask(origin: Origin)
      requires MailboxAgrees(State())
      modifies this`asks, this`mailbox
      ensures State() == NewAsk(old(State()), origin)
      ensures MailboxAgrees(State())
      ensures AskAt(State(), |old(asks)|, if live then Queued else Rejected)
      ensures AcquirePermit(|old(asks)|) in mailbox <==> live
    {
      NewAskKeepsMailbox(State(), origin);
      if live {
        mailbox := mailbox + [AcquirePermit(|asks|)];
        asks := asks + [Admission.Ask.Ask(origin, true, Queued)];
      } else {
        asks := asks + [Admission.Ask.Ask(origin, true, Rejected)];
      }
    }

    method Connects(conn: Conn)
      requires Valid()
      modifies this
      ensures Valid() && State() == Apply(old(State()), Connect(conn))
      ensures pool == old(pool)
    {
      backlog := backlog + [conn];
      WasStep(Connect(conn));
    }

    /** One stream more in the loop, one less waiting. */
    method AcceptsConnection()
      requires Valid() && Enabled(State(), Accept)
      modifies this
      ensures Valid() && State() == Apply(old(State()), Accept)
      ensures pool == old(pool)
      ensures StreamsInLoop(State()) + |backlog| == old(StreamsInLoop(State()) + |backlog|)
    {
      loop := Identifying(backlog[0]);
      backlog := backlog[1..];
      WasStep(Accept);
    }

    method FailsToAccept()
      requires Valid() && Enabled(State(), AcceptFails)
      modifies this
      ensures Valid() && State() == Apply(old(State()), AcceptFails)
      ensures pool == old(pool) && StreamsInLoop(State()) == 0
    {
      loop := Failed(Io);
      WasStep(AcceptFails);
    }

    /** `ConnectionContext::from_tokio_stream`, then `acquire_permit`. A TCP
        loop has nothing to read and cannot fail here. A failure leaves no request
        behind; otherwise the loop waits for a request of this very connection. */
    method IdentifiesAndAsks(credentialsRead: bool)
      requires Valid() && loop.Identifying? && (transport.Tcp? ==> credentialsRead)
      modifies this
      ensures Valid() && State() == Apply(old(State()), if credentialsRead then SendAsk else IdentifyFails)
      ensures pool == old(pool)
      ensures !credentialsRead ==> StreamsInLoop(State()) == 0 && asks == old(asks) && mailbox == old(mailbox)
      ensures credentialsRead ==>
        && loop == Asking(|old(asks)|) && |asks| == |old(asks)| + 1
        && asks[loop.k].origin == AcceptLoop(old(loop).conn)
        && (AcquirePermit(loop.k) in mailbox <==> live)
    {
      if !credentialsRead {
        loop := Failed(Io);
        WasStep(IdentifyFails);
      } else {
        var k := |asks|;
        Ask(AcceptLoop(loop.conn));
        loop := Asking(k);
        WasStep(SendAsk);
      }
    }

    /** The loop ends with a gate error only after its gate has gone down. */
    method NoticesRejection()
      requires Valid() && Enabled(State(), NoticeRejection)
      modifies this
      ensures Valid() && State() == Apply(old(State()), NoticeRejection)
      ensures !live && pool == old(pool) && StreamsInLoop(State()) == 0
    {
      loop := Failed(RequestGateError);
      WasStep(NoticeRejection);
    }

    /** `spawn_connection`: the connection, permit included, moves into a
        detached task and the loop goes back to `accept`. */
    method SpawnsConnection()
      requires Valid() && Enabled(State(), SpawnHandler)
      modifies this
      ensures Valid() && State() == Apply(old(State()), SpawnHandler)
      ensures pool == old(pool) && Held() == old(Held())
      ensures ConnectionsHolding(State()) == old(ConnectionsHolding(State())) + 1
      ensures loop.Accepting? && StreamsInLoop(State()) + 1 == old(StreamsInLoop(State()))
    {
      SpawningAddsConnection(State());
      SetAsk(loop.k, Handling);
      loop := Accepting;
      WasStep(SpawnHandler);
    }

    /** Cancelling the accept task drops whatever its future holds: a permit it
        had comes back, and no permit can reach it any more. */
    method AbortsLoop()
      requires Valid() && Enabled(State(), AbortLoop)
      modifies this
      ensures Valid() && State() == Apply(old(State()), AbortLoop)
      ensures Held() + (if old(loop).Admitted? then 1 else 0) == old(Held())
      ensures StreamsInLoop(State()) == 0 && LoopIsUnheard(asks)
    {
      match loop {
        case Asking(k) => asks := asks[k := asks[k].(listening := false)];
        case Admitted(k) =>
          DropPermit(k, Dropped);
        case _ =>
      }
      loop := Aborted;
      WasStep(AbortLoop);
      AbortGivesBack(old(State()));
    }

    method ClientAsksForPermit()
      requires Valid()
      modifies this
      ensures Valid() && State() == Apply(old(State()), ClientAsks)
      ensures pool == old(pool)
    {
      Ask(Client);
      WasStep(ClientAsks);
    }

    /** An asker that goes away keeps no permit and loses none. */
    method ClientAbandonsAsk(k: nat)
      requires Valid() && Enabled(State(), ClientAbandons(k))
      modifies this
      ensures Valid() && State() == Apply(old(State()), ClientAbandons(k))
      ensures pool == old(pool) && Held() == old(Held())
    {
      asks := asks[k := asks[k].(listening := false)];
      WasStep(ClientAbandons(k));
    }

    method ClientDropsPermit(k: nat)
      requires Valid() && Enabled(State(), ClientDrops(k))
      modifies this
      ensures Valid() && State() == Apply(old(State()), ClientDrops(k))
      ensures Held() + 1 == old(Held()) && pool.available == old(pool).available + 1
    {
      DropPermit(k, Dropped);
      WasStep(ClientDrops(k));
    }

    method AsksForStatus()
      requires Valid() && live
      modifies this
      ensures Valid() && State() == Apply(old(State()), AskStatus)
      ensures pool == old(pool)
    {
      mailbox := mailbox + [StatusRequest];
      WasStep(AskStatus);
    }

    /** `stop_gracefully`: a message like any other; asking twice is harmless. */
    method AsksToStop()
      requires Valid()
      modifies this
      ensures Valid() && State() == Apply(old(State()), AskStop)
      ensures pool == old(pool) && live == old(live)
      ensures live ==> StopSignal in mailbox
    {
      if live {
        mailbox := mailbox + [StopSignal];
      }
      WasStep(AskStop);
    }

    /** One turn of the actor: the two message handlers, or the stop signal. No
        turn takes or returns a permit; an acquire is counted once; a status reply
        is consistent with the permits held at that instant; a stop leaves nothing
        queued. */
    method TakesTurn()
      requires Valid() && Enabled(State(), HandleMessage)
      modifies this
      ensures Valid() && State() == Apply(old(State()), HandleMessage)
      ensures pool == old(pool) && Held() == old(Held())
      ensures HandledRequests(State()) == old(HandledRequests(State())) + if old(mailbox)[0].AcquirePermit? then 1 else 0
      ensures old(mailbox)[0].StatusRequest? ==>
        && |replies| == |old(replies)| + 1
        && var reply := replies[|old(replies)|];
        && reply.available + Held() == reply.limit
        && reply.accepted == (if HandledRequests(State()) <= U64_MAX then HandledRequests(State()) else U64_MAX)
      ensures old(mailbox)[0].StopSignal? ==>
        !live && mailbox == [] && forall k :: 0 <= k < |asks| ==> !asks[k].pc.Queued?
    {
      TurnCountsAcquires(State());
      match mailbox[0] {
        case AcquirePermit(k) =>
          mailbox := mailbox[1..];
          if accepted < U64_MAX {
            accepted := accepted + 1;
          } else {
            accepted := U64_MAX;
          }
          SetAsk(k, Waiting);
        case StatusRequest =>
          mailbox := mailbox[1..];
          replies := replies + [Status(pool.capacity, pool.available, accepted)];
        case StopSignal =>
          live := false;
          mailbox := [];
          asks := RejectQueued(asks);
      }
      WasStep(HandleMessage);
    }

    /** The delegated task obtains a permit from the semaphore. */
    method TakesPermit(k: nat)
      requires Valid() && Enabled(State(), TakePermit(k))
      modifies this
      ensures Valid() && State() == Apply(old(State()), TakePermit(k))
      ensures Held() == old(Held()) + 1 <= pool.capacity
      ensures pool.held[k] == 1
    {
      pool := Sem.After(pool, Sem.Acquire(k));
      SetAsk(k, Granted);
      WasStep(TakePermit(k));
    }

    /** The delegated task replies; with nobody listening the permit drops and is
        back in the pool. A loop that gets it waited for exactly this request. */
    method DeliversPermit(k: nat)
      requires Valid() && Enabled(State(), Deliver(k))
      modifies this
      ensures Valid() && State() == Apply(old(State()), Deliver(k))
      ensures Held() + (if asks[k].listening then 0 else 1) == old(Held())
      ensures asks[k].listening && asks[k].origin.AcceptLoop? ==> old(loop) == Asking(k) && loop == Admitted(k)
    {
      if !asks[k].listening {
        DropPermit(k, Dropped);
      } else {
        if asks[k].origin.AcceptLoop? {
          loop := Admitted(k);
        }
        SetAsk(k, Delivered);
      }
      WasStep(Deliver(k));
      DeliveryKeepsOrReturns(old(State()), k);
    }

    /** `AcceptedConnection::into_parts` gives up the permit and keeps the
        stream. */
    method IntoParts(k: nat)
      requires Valid() && Enabled(State(), SplitStream(k))
      modifies this
      ensures Valid() && State() == Apply(old(State()), SplitStream(k))
      ensures Held() + 1 == old(Held()) && pool.available == old(pool).available + 1
      ensures ConnectionsHolding(State()) + 1 == old(ConnectionsHolding(State()))
      ensures AskAt(State(), k, Split)
    {
      DropPermit(k, Split);
      WasStep(SplitStream(k));
      SplittingReleasesConnection(old(State()), k);
    }

    /** The handler's future ends: it returns, fails and is logged, or panics. It
        gives a permit back exactly if it had not already given it up. */
    method EndsHandler(k: nat, outcome: Outcome)
      requires Valid() && Enabled(State(), HandlerEnds(k, outcome))
      modifies this
      ensures Valid() && State() == Apply(old(State()), HandlerEnds(k, outcome))
      ensures Held() + (if old(asks)[k].pc.Handling? then 1 else 0) == old(Held())
      ensures old(asks)[k].origin.AcceptLoop?
      ensures errorLog == old(errorLog) + if outcome.ReturnsError? then [old(asks)[k].origin.conn] else []
    {
      if outcome.ReturnsError? && asks[k].origin.AcceptLoop? {
        errorLog := errorLog + [asks[k].origin.conn];
      }
      if asks[k].pc.Handling? {
        DropPermit(k, Ended);
      } else {
        SetAsk(k, Ended);
      }
      WasStep(HandlerEnds(k, outcome));
      HandlerEndIsLogged(old(State()), k, outcome);
    }

    method LoopTakes(step: Step)
      requires Valid() && Enabled(State(), step) && IsLoopStep(step)
      modifies this
      ensures Valid() && State() == Apply(old(State()), step)
    {
      match step {
        case Connect(conn) => Connects(conn);
        case Accept => AcceptsConnection();
        case AcceptFails => FailsToAccept();
        case IdentifyFails => IdentifiesAndAsks(false);
        case SendAsk => IdentifiesAndAsks(true);
        case NoticeRejection => NoticesRejection();
        case SpawnHandler => SpawnsConnection();
        case AbortLoop => AbortsLoop();
      }
    }

    method GateTakes(step: Step)
      requires Valid() && Enabled(State(), step) && IsGateStep(step)
      modifies this
      ensures Valid() && State() == Apply(old(State()), step)
    {
      match step {
        case ClientAsks => ClientAsksForPermit();
        case ClientAbandons(k) => ClientAbandonsAsk(k);
        case ClientDrops(k) => ClientDropsPermit(k);
        case AskStatus => AsksForStatus();
        case AskStop => AsksToStop();
        case HandleMessage => TakesTurn();
      }
    }

    method PermitMoves(step: Step)
      requires Valid() && Enabled(State(), step) && IsPermitStep(step)
      modifies this
      ensures Valid() && State() == Apply(old(State()), step)
    {
      match step {
        case TakePermit(k) => TakesPermit(k);
        case Deliver(k) => DeliversPermit(k);
        case SplitStream(k) => IntoParts(k);
        case HandlerEnds(k, outcome) => EndsHandler(k, outcome);
      }
    }

    /** Any schedule of the loop, the actor, the waiters, the handlers and the
        clients, played on the object: it ends where the run of the step system
        ends, still valid, and the pool went through a legal history of the atomic
        semaphore. */
    method Execute(run: seq<Step>)
      requires Valid() && ValidRun(State(), run)
      modifies this
      ensures Valid() && State() == End(old(State()), run)
      ensures var events := PoolEventsOfRun(old(State()), run);
        Sem.Permits(old(pool), events) && pool == Sem.Final(old(pool), events)
    {
      ghost var start := State();
      var p := 0;
      while p < |run|
        invariant 0 <= p <= |run| && Valid()
        invariant ValidRun(State(), run[p..]) && End(State(), run[p..]) == End(start, run)
      {
        assert run[p..][0] == run[p] && run[p..][1..] == run[p + 1..];
        if IsLoopStep(run[p]) {
          LoopTakes(run[p]);
        } else if IsPermitStep(run[p]) {
          PermitMoves(run[p]);
        } else {
          GateTakes(run[p]);
        }
        p := p + 1;
      }
      RunIsSemaphoreHistory(start, run);
    }
  }
}
