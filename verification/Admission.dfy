/** src/async_runtime.rs and src/tcp.rs: request admission for one listener.

    A listener owns a `RequestGate` actor with a mailbox and a permit pool, one
    sequential accept loop, and detached connection handlers. Asking for a
    permit puts a message in the mailbox; handling it only counts the request
    and starts a delegated task outside the actor, which waits for the pool and
    then delivers the permit to whoever asked, or drops it when nobody listens
    any more. The pool is the atomic counting semaphore; which waiter it serves
    next is left open. */
module Admission {
  import opened Folds
  import opened Wrappers
  import Sem = CountingSemaphore

  type Conn = int

  /** A Unix listener reads the peer's credentials after `accept`, which can
      fail; a TCP listener already has the peer's address. */
  datatype Transport = Unix | Tcp

  datatype Origin = AcceptLoop(conn: Conn) | Client

  /** The life of one request for a permit. `Delivered` is a permit that reached
      its asker; `Handling` a connection whose handler owns it; `Split` a
      connection after `into_parts`, whose stream outlives its permit. */
  datatype AskPc =
    | Queued
    | Waiting
    | Granted
    | Delivered
    | Handling
    | Split
    | Ended
    | Dropped
    | Rejected
  {
    predicate Holds() { Granted? || Delivered? || Handling? }
    predicate IsReleased() { Split? || Ended? || Dropped? }
    predicate IsHandled() { !Queued? && !Rejected? }
  }

  datatype Ask = Ask(origin: Origin, listening: bool, pc: AskPc)

  datatype Message = AcquirePermit(k: nat) | StatusRequest | StopSignal

  datatype ListenerError = Io | RequestGateError

  datatype LoopPc =
    | Accepting
    | Identifying(conn: Conn)
    | Asking(k: nat)
    | Admitted(k: nat)
    | Failed(error: ListenerError)
    | Aborted

  datatype Status = Status(limit: nat, available: nat, accepted: nat)

  datatype Outcome = Completes | ReturnsError | Panics

  datatype Listener = Listener(
    transport: Transport,
    pool: Sem.Semaphore,
    accepted: nat,
    mailbox: seq<Message>,
    live: bool,
    asks: seq<Ask>,
    loop: LoopPc,
    backlog: seq<Conn>,
    replies: seq<Status>,
    errorLog: seq<Conn>)

  datatype Step =
    | Connect(conn: Conn)
    | Accept
    | AcceptFails
    | IdentifyFails
    | SendAsk
    | NoticeRejection
    | SpawnHandler
    | AbortLoop
    | ClientAsks
    | ClientAbandons(k: nat)
    | ClientDrops(k: nat)
    | AskStatus
    | AskStop
    | HandleMessage
    | TakePermit(k: nat)
    | Deliver(k: nat)
    | SplitStream(k: nat)
    | HandlerEnds(k: nat, outcome: Outcome)

  /** The three parts of the program a step can belong to: the accept loop, the
      clients and mailbox of the gate, and the permits and their holders. */
  predicate IsLoopStep(step: Step)
  {
    || step.Connect? || step.Accept? || step.AcceptFails? || step.IdentifyFails? || step.SendAsk?
    || step.NoticeRejection? || step.SpawnHandler? || step.AbortLoop?
  }

  predicate IsPermitStep(step: Step)
  {
    step.TakePermit? || step.Deliver? || step.SplitStream? || step.HandlerEnds?
  }

  predicate IsGateStep(step: Step)
  {
    !IsLoopStep(step) && !IsPermitStep(step)
  }

  /** `RequestConcurrencyLimit::new`: a limit of zero becomes one. */
  function Limit(requested: nat): nat
  {
    if requested == 0 then 1 else requested
  }

  function Init(transport: Transport, requested: nat): Listener
  {
    Listener(transport, Sem.Fresh(Limit(requested)), 0, [], true, [], Accepting, [], [], [])
  }

  predicate AskAt(l: Listener, k: nat, pc: AskPc)
  {
    k < |l.asks| && l.asks[k].pc == pc
  }

  predicate Enabled(l: Listener, step: Step)
  {
    match step
    case Connect(_) => true
    case Accept => l.loop.Accepting? && l.backlog != []
    case AcceptFails => l.loop.Accepting?
    case IdentifyFails => l.loop.Identifying? && l.transport.Unix?
    case SendAsk => l.loop.Identifying?
    case NoticeRejection => l.loop.Asking? && AskAt(l, l.loop.k, Rejected)
    case SpawnHandler => l.loop.Admitted? && l.loop.k < |l.asks|
    case AbortLoop => !l.loop.Failed? && ((l.loop.Asking? || l.loop.Admitted?) ==> l.loop.k < |l.asks|)
    case ClientAsks => true
    case ClientAbandons(k) => k < |l.asks| && l.asks[k].origin.Client?
    case ClientDrops(k) => AskAt(l, k, Delivered) && l.asks[k].origin.Client?
    case AskStatus => l.live
    case AskStop => true
    case HandleMessage =>
      l.live && l.mailbox != [] && (l.mailbox[0].AcquirePermit? ==> l.mailbox[0].k < |l.asks|)
    case TakePermit(k) => AskAt(l, k, Waiting) && l.pool.available > 0
    case Deliver(k) => AskAt(l, k, Granted)
    case SplitStream(k) => AskAt(l, k, Handling)
    case HandlerEnds(k, _) => AskAt(l, k, Handling) || AskAt(l, k, Split)
  }

  function MoveAsk(l: Listener, k: nat, pc: AskPc): Listener
    requires k < |l.asks|
  {
    l.(asks := l.asks[k := l.asks[k].(pc := pc)])
  }

  function ReleasePermit(l: Listener, k: nat): Listener
  {
    l.(pool := l.pool.(available := l.pool.available + 1, held := l.pool.held - multiset{k}))
  }

  /** A new request: queued while the gate lives, refused afterwards. */
  function NewAsk(l: Listener, origin: Origin): Listener
  {
    if l.live then
      l.(asks := l.asks + [Ask(origin, true, Queued)], mailbox := l.mailbox + [AcquirePermit(|l.asks|)])
    else
      l.(asks := l.asks + [Ask(origin, true, Rejected)])
  }

  function RejectQueued(asks: seq<Ask>): (rejected: seq<Ask>)
  {
    seq(|asks|, k requires 0 <= k < |asks| =>
      if asks[k].pc.Queued? then asks[k].(pc := Rejected) else asks[k])
  }

  function SaturatingIncrement(count: nat): nat
  {
    if count >= U64_MAX then U64_MAX else count + 1
  }

  /** One turn of the actor. It never looks at the pool except to report it. */
  function Handled(l: Listener): Listener
    requires Enabled(l, HandleMessage)
  {
    var rest := l.(mailbox := l.mailbox[1..]);
    match l.mailbox[0]
    case AcquirePermit(k) => MoveAsk(rest, k, Waiting).(accepted := SaturatingIncrement(l.accepted))
    case StatusRequest =>
      rest.(replies := l.replies + [Status(l.pool.capacity, l.pool.available, l.accepted)])
    case StopSignal => l.(live := false, mailbox := [], asks := RejectQueued(l.asks))
  }

  /** The reply of the delegated task: the asker gets the permit, or it is
      dropped with the reply. */
  function Delivery(l: Listener, k: nat): Listener
    requires k < |l.asks|
  {
    if !l.asks[k].listening then ReleasePermit(MoveAsk(l, k, Dropped), k)
    else if l.asks[k].origin.AcceptLoop? then MoveAsk(l, k, Delivered).(loop := Admitted(k))
    else MoveAsk(l, k, Delivered)
  }

  function Apply(l: Listener, step: Step): Listener
    requires Enabled(l, step)
  {
    match step
    case Connect(conn) => l.(backlog := l.backlog + [conn])
    case Accept => l.(backlog := l.backlog[1..], loop := Identifying(l.backlog[0]))
    case AcceptFails => l.(loop := Failed(Io))
    case IdentifyFails => l.(loop := Failed(Io))
    case SendAsk =>
      NewAsk(l, AcceptLoop(l.loop.conn)).(loop := Asking(|l.asks|))
    case NoticeRejection => l.(loop := Failed(RequestGateError))
    case SpawnHandler => MoveAsk(l, l.loop.k, Handling).(loop := Accepting)
    case AbortLoop =>
      (match l.loop
       case Asking(k) => l.(asks := l.asks[k := l.asks[k].(listening := false)], loop := Aborted)
       case Admitted(k) => ReleasePermit(MoveAsk(l, k, Dropped), k).(loop := Aborted)
       case _ => l.(loop := Aborted))
    case ClientAsks => NewAsk(l, Client)
    case ClientAbandons(k) => l.(asks := l.asks[k := l.asks[k].(listening := false)])
    case ClientDrops(k) => ReleasePermit(MoveAsk(l, k, Dropped), k)
    case AskStatus => l.(mailbox := l.mailbox + [StatusRequest])
    case AskStop => if l.live then l.(mailbox := l.mailbox + [StopSignal]) else l
    case HandleMessage => Handled(l)
    case TakePermit(k) =>
      MoveAsk(l, k, Granted).(pool := Sem.After(l.pool, Sem.Acquire(k)))
    case Deliver(k) => Delivery(l, k)
    case SplitStream(k) => ReleasePermit(MoveAsk(l, k, Split), k)
    case HandlerEnds(k, outcome) =>
      var ended := MoveAsk(l, k, Ended);
      var freed := if l.asks[k].pc.Handling? then ReleasePermit(ended, k) else ended;
      if outcome.ReturnsError? && l.asks[k].origin.AcceptLoop?
      then freed.(errorLog := l.errorLog + [l.asks[k].origin.conn])
      else freed
  }

  predicate ValidRun(l: Listener, run: seq<Step>)
    decreases |run|
  {
    run == [] || (Enabled(l, run[0]) && ValidRun(Apply(l, run[0]), run[1..]))
  }

  function End(l: Listener, run: seq<Step>): Listener
    requires ValidRun(l, run)
    decreases |run|
  {
    if run == [] then l else End(Apply(l, run[0]), run[1..])
  }

  lemma RunCons(l: Listener, step: Step, rest: seq<Step>)
    requires Enabled(l, step) && ValidRun(Apply(l, step), rest)
    ensures ValidRun(l, [step] + rest)
    ensures End(l, [step] + rest) == End(Apply(l, step), rest)
  {
    assert ([step] + rest)[1..] == rest;
  }

  lemma {:induction false} RunsCompose(l: Listener, first: seq<Step>, rest: seq<Step>)
    requires ValidRun(l, first) && ValidRun(End(l, first), rest)
    ensures ValidRun(l, first + rest)
    ensures End(l, first + rest) == End(End(l, first), rest)
    decreases |first|
  {
    if first == [] {
      assert first + rest == rest;
    } else {
      RunsCompose(Apply(l, first[0]), first[1..], rest);
      RunCons(l, first[0], first[1..] + rest);
      assert first + rest == [first[0]] + (first[1..] + rest);
    }
  }

  // ---------- counts over the requests ----------

  function HoldCount(a: Ask): nat { if a.pc.Holds() then 1 else 0 }

  function WaitCount(a: Ask): nat { if a.pc.Waiting? then 1 else 0 }

  function ReleaseCount(a: Ask): nat { if a.pc.IsReleased() then 1 else 0 }

  function HandledCount(a: Ask): nat { if a.pc.IsHandled() then 1 else 0 }

  function ConnectionCount(a: Ask): nat { if a.pc.Handling? then 1 else 0 }

  function HeldPermits(l: Listener): nat { Sum(l.asks, HoldCount) }

  function HandledRequests(l: Listener): nat { Sum(l.asks, HandledCount) }

  /** An accepted stream the loop has not yet handed to a handler. */
  function StreamsInLoop(l: Listener): nat
  {
    if l.loop.Identifying? || l.loop.Asking? || l.loop.Admitted? then 1 else 0
  }

  function ConnectionsHolding(l: Listener): nat { Sum(l.asks, ConnectionCount) }

  // ---------- the invariant of one listener ----------

  predicate PermitsConserved(l: Listener)
  {
    && l.pool.capacity >= 1
    && Sem.Balanced(l.pool)
    && l.pool.available + HeldPermits(l) == l.pool.capacity
  }

  ghost predicate HeldIsNamed(l: Listener)
  {
    forall k :: l.pool.held[k] == NatAt(l.asks, k, HoldCount)
  }

  predicate CountIsExact(l: Listener)
  {
    l.accepted == if HandledRequests(l) <= U64_MAX then HandledRequests(l) else U64_MAX
  }

  /** A request made by the accept loop is the loop's current one until its
      permit reaches a handler or is dropped; only connections have handlers. */
  predicate AskAgrees(loop: LoopPc, k: nat, a: Ask)
  {
    match a.pc
    case Delivered => a.origin.AcceptLoop? ==> loop == Admitted(k)
    case Handling => a.origin.AcceptLoop?
    case Split => a.origin.AcceptLoop?
    case Ended => true
    case Dropped => true
    case Rejected => true
    case _ => a.origin.AcceptLoop? && a.listening ==> loop == Asking(k)
  }

  predicate LoopAgrees(l: Listener)
  {
    && (l.loop.Asking? ==>
          && l.loop.k < |l.asks|
          && l.asks[l.loop.k].origin.AcceptLoop?
          && l.asks[l.loop.k].listening
          && !l.asks[l.loop.k].pc.Delivered? && !l.asks[l.loop.k].pc.Handling?
          && !l.asks[l.loop.k].pc.IsReleased())
    && (l.loop.Admitted? ==> AskAt(l, l.loop.k, Delivered) && l.asks[l.loop.k].origin.AcceptLoop?)
    && (forall k :: 0 <= k < |l.asks| ==> AskAgrees(l.loop, k, l.asks[k]))
  }

  /** The queued requests are exactly the acquire messages in the mailbox. */
  predicate MailboxAgrees(l: Listener)
  {
    && (forall p :: 0 <= p < |l.mailbox| && l.mailbox[p].AcquirePermit? ==> AskAt(l, l.mailbox[p].k, Queued))
    && (forall p, q :: 0 <= p < q < |l.mailbox| && l.mailbox[p].AcquirePermit? ==> l.mailbox[p] != l.mailbox[q])
    && (forall k :: 0 <= k < |l.asks| && l.asks[k].pc.Queued? ==> AcquirePermit(k) in l.mailbox)
    && (!l.live ==> l.mailbox == [])
    && (l.live ==> forall k :: 0 <= k < |l.asks| ==> !l.asks[k].pc.Rejected?)
  }

  ghost predicate Inv(l: Listener)
  {
    PermitsConserved(l) && HeldIsNamed(l) && CountIsExact(l) && LoopAgrees(l) && MailboxAgrees(l)
  }
}
