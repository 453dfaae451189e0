/** src/reaction.rs: the seam through which the runner is driven by a
    component's own `Action` decisions. */
module Reaction {
  import opened Runner
  import opened Wrappers

  datatype Action =
    | ReplyToSignal(reply: ReplyValue)
    | CommandSemaWrite(write: WriteCommand)
    | CommandSemaRead(read: ReadCommand)
    | CommandEffect(effect: EffectCommand)
    | ContinueWith(work: WorkItem)

  /** `From<Action> for NextStep`. */
  function FromAction(action: Action): NextStep
  {
    match action
    case ReplyToSignal(reply) => Reply(reply)
    case CommandSemaWrite(write) => SemaWrite(write)
    case CommandSemaRead(read) => SemaRead(read)
    case CommandEffect(effect) => RunEffect(effect)
    case ContinueWith(work) => Continue(work)
  }

  /** No decision is lost or merged at the seam, and every step can be named. */
  lemma SeamIsBijective(step: NextStep) returns (action: Action)
    ensures FromAction(action) == step
    ensures forall other :: FromAction(other) == step ==> other == action
  {
    action := match step
      case Reply(reply) => ReplyToSignal(reply)
      case SemaWrite(write) => CommandSemaWrite(write)
      case SemaRead(read) => CommandSemaRead(read)
      case RunEffect(effect) => CommandEffect(effect)
      case Continue(work) => ContinueWith(work);
  }

  /** An engine that decides in `Action`s. */
  datatype ActionEngines = ActionEngines(
    decide: (State, WorkItem) -> (State, Action),
    write: (State, WriteCommand) -> (State, WorkItem),
    read: (State, ReadCommand) -> (State, WorkItem),
    effect: (State, EffectCommand) -> (State, WorkItem),
    exhausted: (State, ContinuationExhausted) -> (State, ReplyValue))

  function Projected(a: ActionEngines): Engines
  {
    Engines(
      (state, work) => var (after, action) := a.decide(state, work); (after, FromAction(action)),
      a.write, a.read, a.effect, a.exhausted)
  }

  /** A loop that interprets `Action`s directly, counting its own steps. */
  function Interpret(a: ActionEngines, c: Config, limit: u32, completed: u32): Outcome
    requires completed <= limit
    decreases limit - completed
  {
    var (state, action) := a.decide(c.state, c.work);
    if action.ReplyToSignal? then
      Outcome(action.reply, state, [], 1, None)
    else if completed == limit then
      var record := ContinuationExhausted(limit, completed, SaturatingAdd(completed, 1));
      var (final, reply) := a.exhausted(state, record);
      Outcome(reply, final, [], 1, Some(record))
    else
      var (next, dispatch) :=
        match action
        case CommandSemaWrite(write) =>
          (var (after, work) := a.write(state, write); (Config(after, work), Wrote(write)))
        case CommandSemaRead(read) =>
          (var (after, work) := a.read(state, read); (Config(after, work), Observed(read)))
        case CommandEffect(effect) =>
          (var (after, work) := a.effect(state, effect); (Config(after, work), Effected(effect)))
        case ContinueWith(work) => (Config(state, work), Continued(work))
        case ReplyToSignal(_) => (c, Continued(c.work));
      var rest := Interpret(a, next, limit, completed + 1);
      rest.(trace := [dispatch] + rest.trace, decisions := rest.decisions + 1)
  }

  lemma ProjectedDecision(a: ActionEngines, c: Config)
    ensures Projected(a).decideNextStep(c.state, c.work)
         == (a.decide(c.state, c.work).0, FromAction(a.decide(c.state, c.work).1))
  {
  }

  /** The rest of a run from a budget already partly spent. */
  lemma {:induction false} InterpretFrom(a: ActionEngines, c: Config, limit: u32, completed: u32)
    requires completed <= limit
    ensures var e, left := Projected(a), limit - completed;
      var o := Interpret(a, c, limit, completed);
      && (forall k :: 0 <= k <= left && RepliesAfter(e, c, k) ==> o == RepliedOutcome(e, c, k))
      && (Outlasts(e, c, left) ==>
            var last := Nth(e, c, left);
            var record := ContinuationExhausted(limit, limit, SaturatingAdd(limit, 1));
            var (final, reply) := e.budgetExhaustedReply(e.decideNextStep(last.state, last.work).0, record);
            o == Outcome(reply, final, Trace(e, c, left), left + 1, Some(record)))
    decreases limit - completed
  {
    var e, left := Projected(a), limit - completed;
    ProjectedDecision(a, c);
    if !Replies(e, c) && completed < limit {
      InterpretFrom(a, Step(e, c).0, limit, completed + 1);
      forall k | 0 <= k <= left && RepliesAfter(e, c, k)
        ensures Interpret(a, c, limit, completed) == RepliedOutcome(e, c, k)
      {
        assert RepliesAfter(e, Step(e, c).0, k - 1);
      }
    }
  }

  /** Driving an engine of `Action`s through the projection is the same run as
      interpreting the `Action`s directly: same dispatches in the same order,
      same reply, same final state, same exhaustion record, for every engine,
      start and limit. */
  lemma DrivingThroughSeamIsInterpreting(a: ActionEngines, c: Config, limit: u32, outcome: Outcome)
    ensures Prescribed(Projected(a), c, limit, outcome) <==> outcome == Interpret(a, c, limit, 0)
  {
    var unique := OutcomeExistsAndIsUnique(Projected(a), c, limit);
    InterpretFrom(a, c, limit, 0);
    assert Prescribed(Projected(a), c, limit, Interpret(a, c, limit, 0));
  }
}
