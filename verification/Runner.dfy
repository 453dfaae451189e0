/** src/runner.rs: `Runner::drive`, a loop over an arbitrary stateful engine
    with a budget of non-reply steps. */
module Runner {
  import opened Wrappers

  type u32 = n: nat | n <= U32_MAX

  // The component's own types; nothing is assumed about them.
  type State(!new)
  type ReplyValue(!new)
  type WriteCommand(!new)
  type ReadCommand(!new)
  type EffectCommand(!new)
  type WorkItem(!new)

  datatype NextStep =
    | Reply(reply: ReplyValue)
    | SemaWrite(write: WriteCommand)
    | SemaRead(read: ReadCommand)
    | RunEffect(effect: EffectCommand)
    | Continue(work: WorkItem)

  datatype ContinuationExhausted = ContinuationExhausted(limit: u32, completed: u32, attempted: u32)

  /** The role trait as arbitrary state transformers. */
  datatype Engines = Engines(
    decideNextStep: (State, WorkItem) -> (State, NextStep),
    applySemaWrite: (State, WriteCommand) -> (State, WorkItem),
    observeSemaRead: (State, ReadCommand) -> (State, WorkItem),
    runEffect: (State, EffectCommand) -> (State, WorkItem),
    budgetExhaustedReply: (State, ContinuationExhausted) -> (State, ReplyValue))

  function SaturatingAdd(a: u32, b: u32): u32
  {
    if a + b > U32_MAX then U32_MAX else a + b
  }

  function SaturatingSub(a: u32, b: u32): u32
  {
    if a < b then 0 else a - b
  }

  // ---------- the unbounded semantics ----------

  datatype Config = Config(state: State, work: WorkItem)

  datatype Dispatch =
    | Wrote(write: WriteCommand)
    | Observed(read: ReadCommand)
    | Effected(effect: EffectCommand)
    | Continued(work: WorkItem)

  predicate Replies(e: Engines, c: Config)
  {
    e.decideNextStep(c.state, c.work).1.Reply?
  }

  /** One decision that is not a reply, and its dispatch. */
  function Step(e: Engines, c: Config): (Config, Dispatch)
    requires !Replies(e, c)
  {
    var (decided, step) := e.decideNextStep(c.state, c.work);
    match step
    case SemaWrite(write) =>
      var (after, work) := e.applySemaWrite(decided, write);
      (Config(after, work), Wrote(write))
    case SemaRead(read) =>
      var (after, work) := e.observeSemaRead(decided, read);
      (Config(after, work), Observed(read))
    case RunEffect(effect) =>
      var (after, work) := e.runEffect(decided, effect);
      (Config(after, work), Effected(effect))
    case Continue(work) => (Config(decided, work), Continued(work))
  }

  /** The engine takes `n` steps from `c` before it might reply. */
  predicate Goes(e: Engines, c: Config, n: nat)
    decreases n
  {
    n == 0 || (!Replies(e, c) && Goes(e, Step(e, c).0, n - 1))
  }

  function Nth(e: Engines, c: Config, n: nat): Config
    requires Goes(e, c, n)
    decreases n
  {
    if n == 0 then c else Nth(e, Step(e, c).0, n - 1)
  }

  function Trace(e: Engines, c: Config, n: nat): (trace: seq<Dispatch>)
    requires Goes(e, c, n)
    ensures |trace| == n
    decreases n
  {
    if n == 0 then [] else [Step(e, c).1] + Trace(e, Step(e, c).0, n - 1)
  }

  /** The unbounded run first replies after exactly `k` steps. */
  predicate RepliesAfter(e: Engines, c: Config, k: nat)
  {
    Goes(e, c, k) && Replies(e, Nth(e, c, k))
  }

  /** The unbounded run does not reply in its first `n + 1` decisions. */
  predicate Outlasts(e: Engines, c: Config, n: nat)
  {
    Goes(e, c, n) && !Replies(e, Nth(e, c, n))
  }

  lemma {:induction false} GoesSplit(e: Engines, c: Config, m: nat, n: nat)
    ensures Goes(e, c, m + n) <==> Goes(e, c, m) && Goes(e, Nth(e, c, m), n)
    ensures Goes(e, c, m + n) ==>
      && Nth(e, c, m + n) == Nth(e, Nth(e, c, m), n)
      && Trace(e, c, m + n) == Trace(e, c, m) + Trace(e, Nth(e, c, m), n)
    decreases m
  {
    if m > 0 && !Replies(e, c) {
      GoesSplit(e, Step(e, c).0, m - 1, n);
    }
  }

  // ---------- what a bounded run amounts to ----------

  /** Everything observable about one call of `drive`. */
  datatype Outcome = Outcome(
    reply: ReplyValue,
    state: State,
    trace: seq<Dispatch>,
    decisions: nat,
    exhausted: Option<ContinuationExhausted>)

  function RepliedOutcome(e: Engines, c: Config, k: nat): Outcome
    requires RepliesAfter(e, c, k)
  {
    var last := Nth(e, c, k);
    var (state, step) := e.decideNextStep(last.state, last.work);
    Outcome(step.reply, state, Trace(e, c, k), k + 1, None)
  }

  /** One decision past the last permitted step, then the exhausted reply. */
  function ExhaustedOutcome(e: Engines, c: Config, limit: u32): Outcome
    requires Goes(e, c, limit)
  {
    var last := Nth(e, c, limit);
    var decided := e.decideNextStep(last.state, last.work).0;
    var record := ContinuationExhausted(limit, limit, if limit + 1 <= U32_MAX then limit + 1 else U32_MAX);
    var (state, reply) := e.budgetExhaustedReply(decided, record);
    Outcome(reply, state, Trace(e, c, limit), limit + 1, Some(record))
  }

  /** `outcome` is what the unbounded semantics prescribes under `limit`. */
  ghost predicate Prescribed(e: Engines, c: Config, limit: u32, outcome: Outcome)
  {
    && (forall k :: 0 <= k <= limit && RepliesAfter(e, c, k) ==> outcome == RepliedOutcome(e, c, k))
    && (Outlasts(e, c, limit) ==> outcome == ExhaustedOutcome(e, c, limit))
  }

  lemma {:induction false} ReplyOrGo(e: Engines, c: Config, n: nat) returns (k: nat)
    ensures k <= n && Goes(e, c, k) && (k < n ==> RepliesAfter(e, c, k))
    decreases n
  {
    if n == 0 || Replies(e, c) {
      k := 0;
    } else {
      var rest := ReplyOrGo(e, Step(e, c).0, n - 1);
      k := rest + 1;
    }
  }

  lemma RepliesAfterOnce(e: Engines, c: Config, k: nat, n: nat)
    requires RepliesAfter(e, c, k) && Goes(e, c, n)
    ensures n <= k
  {
    if n > k {
      GoesSplit(e, c, k, n - k);
    }
  }

  /** Under every limit exactly one outcome is prescribed: the first reply if it
      comes within the limit, the exhausted reply if it does not. */
  lemma OutcomeExistsAndIsUnique(e: Engines, c: Config, limit: u32) returns (outcome: Outcome)
    ensures Prescribed(e, c, limit, outcome)
    ensures forall other :: Prescribed(e, c, limit, other) ==> other == outcome
    ensures outcome.exhausted.Some? <==> Outlasts(e, c, limit)
    ensures outcome.exhausted.None? <==> exists k :: 0 <= k <= limit && RepliesAfter(e, c, k)
  {
    var k := ReplyOrGo(e, c, limit);
    if Replies(e, Nth(e, c, k)) {
      outcome := RepliedOutcome(e, c, k);
      forall i | 0 <= i <= limit && RepliesAfter(e, c, i) ensures i == k {
        RepliesAfterOnce(e, c, k, i);
        RepliesAfterOnce(e, c, i, k);
      }
      if Goes(e, c, limit) { RepliesAfterOnce(e, c, k, limit); }
    } else {
      outcome := ExhaustedOutcome(e, c, limit);
      forall i | 0 <= i <= limit && RepliesAfter(e, c, i) ensures false {
        RepliesAfterOnce(e, c, i, limit);
      }
    }
  }

  lemma BoundsOfOutcome(e: Engines, c: Config, limit: u32, outcome: Outcome)
    requires Prescribed(e, c, limit, outcome)
    ensures |outcome.trace| <= limit && outcome.decisions == |outcome.trace| + 1
    ensures outcome.exhausted.Some? ==>
      var record := outcome.exhausted.value;
      record.limit == record.completed == limit == |outcome.trace|
      && (record.attempted == limit + 1 || (limit == U32_MAX && record.attempted == limit))
  {
    var other := OutcomeExistsAndIsUnique(e, c, limit);
    if k :| 0 <= k <= limit && RepliesAfter(e, c, k) {
      assert outcome == RepliedOutcome(e, c, k);
    } else {
      assert Outlasts(e, c, limit);
      assert outcome == ExhaustedOutcome(e, c, limit);
    }
  }

  /** Raising the limit only extends a run: the shorter run's dispatches are a
      prefix of the longer one's, and a run that replied stays as it was. */
  lemma RunsAreMonotoneInLimit(e: Engines, c: Config, small: u32, large: u32, a: Outcome, b: Outcome)
    requires small <= large && Prescribed(e, c, small, a) && Prescribed(e, c, large, b)
    ensures a.trace <= b.trace
    ensures a.exhausted.None? ==> b == a
  {
    var short := OutcomeExistsAndIsUnique(e, c, small);
    var long := OutcomeExistsAndIsUnique(e, c, large);
    if a.exhausted.None? {
      var k :| 0 <= k <= small && RepliesAfter(e, c, k);
      assert a == RepliedOutcome(e, c, k) == b;
    } else {
      assert a.trace == Trace(e, c, small);
      if b.exhausted.None? {
        var k :| 0 <= k <= large && RepliesAfter(e, c, k);
        RepliesAfterOnce(e, c, k, small);
        GoesSplit(e, c, small, k - small);
      } else {
        GoesSplit(e, c, small, large - small);
      }
    }
  }

  // ---------- the loop ----------

  datatype SpendResult = Spent | Refused(exhausted: ContinuationExhausted)

  class ContinuationBudget {
    const limit: u32
    var completed: u32

    constructor (limit: u32)
      ensures this.limit == limit && completed == 0
    {
      this.limit := limit;
      completed := 0;
    }

    function Remaining(): u32
      reads this
    {
      SaturatingSub(limit, completed)
    }

    method SpendNextStep() returns (result: SpendResult)
      modifies this
      ensures old(completed) < limit ==> result == Spent && completed == old(completed) + 1
      ensures old(completed) >= limit ==>
        && completed == old(completed)
        && result == Refused(ContinuationExhausted(limit, completed, SaturatingAdd(completed, 1)))
      ensures old(completed) <= limit ==> completed <= limit && completed + Remaining() == limit
    {
      var attempted := SaturatingAdd(completed, 1);
      if completed >= limit {
        result := Refused(ContinuationExhausted(limit, completed, attempted));
      } else {
        completed := attempted;
        result := Spent;
      }
    }
  }

  /** A component engine with its state, and a record of what it was asked. */
  class EngineObject {
    const rules: Engines
    var state: State
    var dispatched: seq<Dispatch>
    var decisions: nat

    constructor (rules: Engines, state: State)
      ensures this.rules == rules && this.state == state && dispatched == [] && decisions == 0
    {
      this.rules := rules;
      this.state := state;
      dispatched := [];
      decisions := 0;
    }

    method DecideNextStep(work: WorkItem) returns (step: NextStep)
      modifies this
      ensures (state, step) == rules.decideNextStep(old(state), work)
      ensures dispatched == old(dispatched) && decisions == old(decisions) + 1
    {
      var (after, decided) := rules.decideNextStep(state, work);
      state, step, decisions := after, decided, decisions + 1;
    }

    method ApplySemaWrite(write: WriteCommand) returns (work: WorkItem)
      modifies this
      ensures (state, work) == rules.applySemaWrite(old(state), write)
      ensures dispatched == old(dispatched) + [Wrote(write)] && decisions == old(decisions)
    {
      var (after, next) := rules.applySemaWrite(state, write);
      state, work, dispatched := after, next, dispatched + [Wrote(write)];
    }

    method ObserveSemaRead(read: ReadCommand) returns (work: WorkItem)
      modifies this
      ensures (state, work) == rules.observeSemaRead(old(state), read)
      ensures dispatched == old(dispatched) + [Observed(read)] && decisions == old(decisions)
    {
      var (after, next) := rules.observeSemaRead(state, read);
      state, work, dispatched := after, next, dispatched + [Observed(read)];
    }

    method RunEffect(effect: EffectCommand) returns (work: WorkItem)
      modifies this
      ensures (state, work) == rules.runEffect(old(state), effect)
      ensures dispatched == old(dispatched) + [Effected(effect)] && decisions == old(decisions)
    {
      var (after, next) := rules.runEffect(state, effect);
      state, work, dispatched := after, next, dispatched + [Effected(effect)];
    }

    /** `Continue` re-enters without touching the engine. */
    method RecordContinue(work: WorkItem)
      modifies this`dispatched
      ensures dispatched == old(dispatched) + [Continued(work)]
    {
      dispatched := dispatched + [Continued(work)];
    }

    method BudgetExhaustedReply(exhausted: ContinuationExhausted) returns (reply: ReplyValue)
      modifies this
      ensures (state, reply) == rules.budgetExhaustedReply(old(state), exhausted)
      ensures dispatched == old(dispatched) && decisions == old(decisions)
    {
      var (after, answer) := rules.budgetExhaustedReply(state, exhausted);
      state, reply := after, answer;
    }
  }

  lemma PrescribedByReply(e: Engines, c: Config, limit: u32, k: nat)
    requires k <= limit && RepliesAfter(e, c, k)
    ensures Prescribed(e, c, limit, RepliedOutcome(e, c, k))
  {
    var outcome := OutcomeExistsAndIsUnique(e, c, limit);
  }

  lemma PrescribedByExhaustion(e: Engines, c: Config, limit: u32)
    requires Outlasts(e, c, limit)
    ensures Prescribed(e, c, limit, ExhaustedOutcome(e, c, limit))
  {
    var outcome := OutcomeExistsAndIsUnique(e, c, limit);
  }

  lemma OneMoreStep(e: Engines, c: Config, n: nat)
    requires Outlasts(e, c, n)
    ensures Goes(e, c, n + 1)
    ensures Nth(e, c, n + 1) == Step(e, Nth(e, c, n)).0
    ensures Trace(e, c, n + 1) == Trace(e, c, n) + [Step(e, Nth(e, c, n)).1]
  {
    GoesSplit(e, c, n, 1);
    var last := Nth(e, c, n);
    assert Goes(e, last, 1) && Nth(e, last, 1) == Step(e, last).0 && Trace(e, last, 1) == [Step(e, last).1];
  }

  /** `Runner::drive`. It terminates for every engine, and what it does is
      exactly what the unbounded semantics prescribes under the limit. */
  method Drive(limit: u32, engines: EngineObject, firstWork: WorkItem)
    returns (reply: ReplyValue, ghost exhausted: Option<ContinuationExhausted>)
    modifies engines
    ensures old(engines.dispatched) <= engines.dispatched && old(engines.decisions) <= engines.decisions
    ensures var trace := engines.dispatched[|old(engines.dispatched)|..];
      var decisions := engines.decisions - old(engines.decisions);
      Prescribed(engines.rules, Config(old(engines.state), firstWork), limit,
                 Outcome(reply, engines.state, trace, decisions, exhausted))
  {
    var e := engines.rules;
    ghost var c := Config(engines.state, firstWork);
    ghost var before, asked := engines.dispatched, engines.decisions;
    var work := firstWork;
    var budget := new ContinuationBudget(limit);
    while true
      invariant budget.limit == limit && fresh(budget)
      invariant budget.completed <= limit && budget.completed + budget.Remaining() == limit
      invariant Goes(e, c, budget.completed)
      invariant Nth(e, c, budget.completed) == Config(engines.state, work)
      invariant engines.dispatched == before + Trace(e, c, budget.completed)
      invariant engines.decisions == asked + budget.completed
      decreases budget.Remaining()
    {
      ghost var taken := budget.completed;
      var step := engines.DecideNextStep(work);
      if !step.Reply? {
        OneMoreStep(e, c, taken);
        var spend := budget.SpendNextStep();
        if spend.Refused? {
          exhausted := Some(spend.exhausted);
          reply := engines.BudgetExhaustedReply(spend.exhausted);
          PrescribedByExhaustion(e, c, limit);
          return;
        }
      }
      match step {
        case Reply(answer) =>
          PrescribedByReply(e, c, limit, taken);
          return answer, None;
        case SemaWrite(write) => work := engines.ApplySemaWrite(write);
        case SemaRead(read) => work := engines.ObserveSemaRead(read);
        case RunEffect(effect) => work := engines.RunEffect(effect);
        case Continue(next) =>
          engines.RecordContinue(next);
          work := next;
      }
    }
  }
}
