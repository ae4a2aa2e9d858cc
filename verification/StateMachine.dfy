/** The recommendation state machine: a pure table from a state, an event and validated
    guards to the next state, or a refusal. */
module StateMachine {

  datatype Option<+T> = None | Some(value: T)

  datatype State =
    | IDLE | WATCHING | NEAR_TRIGGER | ACTION_PENDING | ACTION_NOTIFIED | DATA_DEGRADED
    | INVALIDATED | PARTIALLY_EXECUTED | WAITING_CONFIRMATION | STAGE_COMPLETED
    | ROTATION_COMPLETED | PAUSED

  datatype Event =
    | PlanActivated | DataDegraded | DataRecovered | NearSignal | ActionSignal
    | DecisionValidated | ValidationFailed | SignalInvalidated | ExecutionConfirmed
    | NextStageEligible | ResumeRemainingStages | AllStagesDone | PlanPaused | PlanResumed

  datatype DataOutcome = DataUnknown | Degraded | FreshComplete | FreshData
  datatype RuleOutcome = NotEvaluated | RuleFailed | RulePassed | FreshRule
  datatype SizingOutcome = NotValidated | SizingFailed | SizingPassed
  datatype Confirmation = Partial | StageDone

  datatype Guards = Guards(
    planIsValid: bool,
    data: DataOutcome,
    rule: RuleOutcome,
    sizing: SizingOutcome,
    authorized: bool,
    confirmed: bool,
    confirmation: Confirmation)

  /** What the durable record holds: the state and whether the remaining stages are halted. */
  datatype Status = Status(state: State, halted: bool)

  datatype Role = RotationSource | ProtectedCore | Normal | CashProxy

  datatype Position = Position(id: nat, portfolio: nat, quantity: real, role: Role, isOpen: bool)

  datatype Plan = Plan(id: nat, portfolio: nat, sources: set<nat>, protectedIds: set<nat>)

  datatype Request = Request(
    current: Status,
    event: Event,
    guards: Guards,
    source: Option<Position>,
    saleQuantity: Option<real>)

  datatype Outcome =
    | Allowed(next: Status, noop: bool, notify: bool, freshEvaluation: bool)
    | Refused

  predicate AuthorizedSource(plan: Plan, p: Position) {
    && p.id in plan.sources
    && p.portfolio == plan.portfolio
    && p.isOpen
    && p.role != ProtectedCore
    && p.id !in plan.protectedIds
  }

  predicate AuthorizedSale(plan: Plan, p: Position, quantity: real) {
    AuthorizedSource(plan, p) && 0.0 < quantity <= p.quantity
  }

  /** The three events that may lead to a sale must cite an authorised source position, and a
      validated decision must also cite a quantity that position can sell. */
  predicate SaleSourceAccepted(plan: Plan, r: Request) {
    r.event in {ActionSignal, DecisionValidated, NextStageEligible} ==>
      && r.source.Some?
      && AuthorizedSource(plan, r.source.value)
      && (r.event == DecisionValidated && r.guards.sizing == SizingPassed ==>
            r.saleQuantity.Some? && AuthorizedSale(plan, r.source.value, r.saleQuantity.value))
  }

  function Stay(r: Request): Outcome {
    Allowed(r.current, true, false, false)
  }

  function Go(r: Request, next: State): Outcome {
    Allowed(Status(next, r.current.halted), false, false, false)
  }

  function Halt(next: State): Outcome {
    Allowed(Status(next, true), false, false, false)
  }

  function Transition(plan: Plan, r: Request): Outcome {
    var state, g := r.current.state, r.guards;
    if !SaleSourceAccepted(plan, r) then Refused
    else match r.event
      case PlanPaused =>
        if !g.authorized then Refused
        else if state == PAUSED then Stay(r)
        else if state == ROTATION_COMPLETED then Refused
        else Go(r, PAUSED)
      case PlanResumed =>
        if !g.authorized || g.rule != FreshRule then Refused
        else if state == WATCHING then Stay(r)
        else if state != PAUSED then Refused
        else Go(r, WATCHING).(freshEvaluation := true)
      case DataDegraded =>
        if g.data != Degraded then Refused
        else if state == DATA_DEGRADED then Stay(r)
        else if state == PARTIALLY_EXECUTED then Halt(WAITING_CONFIRMATION)
        else if state in {WATCHING, NEAR_TRIGGER, ACTION_PENDING, ACTION_NOTIFIED, STAGE_COMPLETED} then
          Go(r, DATA_DEGRADED)
        else if state == WAITING_CONFIRMATION then Stay(r)
        else Refused
      case DataRecovered =>
        if g.data != FreshData then Refused
        else if state == WATCHING then Stay(r)
        else if state != DATA_DEGRADED then Refused
        else if r.current.halted then Halt(WAITING_CONFIRMATION).(freshEvaluation := true)
        else Go(r, WATCHING).(freshEvaluation := true)
      case PlanActivated =>
        if !g.planIsValid then Refused
        else if state == WATCHING then Stay(r)
        else if state != IDLE then Refused
        else Go(r, WATCHING)
      case NearSignal =>
        if g.rule != RulePassed then Refused
        else if state == NEAR_TRIGGER then Stay(r)
        else if state != WATCHING then Refused
        else Go(r, NEAR_TRIGGER)
      case ActionSignal =>
        if g.rule != RulePassed then Refused
        else if state == ACTION_PENDING then Stay(r)
        else if state != NEAR_TRIGGER then Refused
        else Go(r, ACTION_PENDING)
      case DecisionValidated =>
        if g.sizing != SizingPassed then Refused
        else if state == ACTION_NOTIFIED then Stay(r)
        else if state != ACTION_PENDING then Refused
        else Go(r, ACTION_NOTIFIED).(notify := true)
      case ValidationFailed =>
        if state != ACTION_PENDING then Refused else Go(r, WATCHING)
      case SignalInvalidated =>
        if g.rule != RulePassed then Refused
        else if state == INVALIDATED then Stay(r)
        else if state == PARTIALLY_EXECUTED then Halt(WAITING_CONFIRMATION)
        else if state !in {WATCHING, NEAR_TRIGGER, ACTION_PENDING, ACTION_NOTIFIED} then Refused
        else Halt(INVALIDATED)
      case ExecutionConfirmed =>
        if !g.confirmed then Refused
        else if state in {DATA_DEGRADED, INVALIDATED, WAITING_CONFIRMATION} then Halt(WAITING_CONFIRMATION)
        else if state != ACTION_NOTIFIED then Refused
        else if g.confirmation == Partial then Go(r, PARTIALLY_EXECUTED)
        else Go(r, STAGE_COMPLETED)
      case NextStageEligible =>
        if r.current.halted || g.rule != FreshRule then Refused
        else if state == ACTION_PENDING then Stay(r)
        else if state != PARTIALLY_EXECUTED then Refused
        else Go(r, ACTION_PENDING)
      case ResumeRemainingStages =>
        if !g.authorized || g.rule != FreshRule then Refused
        else if state == WATCHING then Stay(r)
        else if !(state == WAITING_CONFIRMATION && r.current.halted) then Refused
        else Allowed(Status(WATCHING, false), false, false, true)
      case AllStagesDone =>
        if state == ROTATION_COMPLETED then Stay(r)
        else if state != STAGE_COMPLETED then Refused
        else Go(r, ROTATION_COMPLETED)
  }

  /** Some request moves a plan from one durable status to the next. */
  ghost predicate Edge(plan: Plan, from: Status, to: Status, notify: bool) {
    exists r: Request :: r.current == from && Causes(plan, r, to, notify)
  }

  /** A request carries a sale quantity only for a validated decision whose sizing passed. */
  predicate Constructible(r: Request) {
    r.saleQuantity.Some? ==> r.event == DecisionValidated && r.guards.sizing == SizingPassed
  }

  ghost predicate Causes(plan: Plan, r: Request, to: Status, notify: bool) {
    var o := Transition(plan, r);
    Constructible(r) && o.Allowed? && o.next == to && o.notify == notify
  }

  /** The machine's edges written out as a table: which statuses may follow which. The
      events that may lead to a sale are available only to a plan with a source position. */
  predicate EdgeTable(hasSource: bool, from: Status, to: Status, notify: bool) {
    if notify then
      hasSource && from.state == ACTION_PENDING && to == Status(ACTION_NOTIFIED, from.halted)
    else if from == to then
      || from.state in {PAUSED, WATCHING, DATA_DEGRADED, WAITING_CONFIRMATION, NEAR_TRIGGER,
                        INVALIDATED, ROTATION_COMPLETED}
      || (hasSource && from.state in {ACTION_PENDING, ACTION_NOTIFIED})
    else
      match to.state
      case PAUSED => from.state !in {PAUSED, ROTATION_COMPLETED} && to.halted == from.halted
      case WATCHING =>
        || (from.state in {PAUSED, IDLE, ACTION_PENDING} && to.halted == from.halted)
        || (from.state == DATA_DEGRADED && !from.halted && !to.halted)
        || (from == Status(WAITING_CONFIRMATION, true) && !to.halted)
      case NEAR_TRIGGER => from.state == WATCHING && to.halted == from.halted
      case ACTION_PENDING =>
        && hasSource && to.halted == from.halted
        && (from.state == NEAR_TRIGGER || from == Status(PARTIALLY_EXECUTED, false))
      case DATA_DEGRADED =>
        && to.halted == from.halted
        && from.state in {WATCHING, NEAR_TRIGGER, ACTION_PENDING, ACTION_NOTIFIED, STAGE_COMPLETED}
      case INVALIDATED =>
        to.halted && from.state in {WATCHING, NEAR_TRIGGER, ACTION_PENDING, ACTION_NOTIFIED}
      case WAITING_CONFIRMATION =>
        to.halted && from.state in {PARTIALLY_EXECUTED, DATA_DEGRADED, INVALIDATED, WAITING_CONFIRMATION}
      case PARTIALLY_EXECUTED => from.state == ACTION_NOTIFIED && to.halted == from.halted
      case STAGE_COMPLETED => from.state == ACTION_NOTIFIED && to.halted == from.halted
      case ROTATION_COMPLETED => from.state == STAGE_COMPLETED && to.halted == from.halted
      case _ => false
  }

  predicate HasSource(plan: Plan) {
    plan.sources - plan.protectedIds != {}
  }

  lemma EdgeInTable(plan: Plan, r: Request, to: Status, notify: bool)
    requires Causes(plan, r, to, notify)
    ensures EdgeTable(HasSource(plan), r.current, to, notify)
  {
    if r.event in {ActionSignal, DecisionValidated, NextStageEligible} {
      assert r.source.value.id in plan.sources - plan.protectedIds;
    }
  }

  /** A request with every guard satisfied, citing the given position. */
  function Willing(from: Status, event: Event, data: DataOutcome, rule: RuleOutcome, done: Confirmation,
                   source: Option<Position>): Request {
    Request(from, event, Guards(true, data, rule, SizingPassed, true, true, done), source,
            if source.Some? && event == DecisionValidated then Some(source.value.quantity) else None)
  }

  /** The event that realises a table edge, by the state it enters. */
  function Realise(from: Status, to: Status, notify: bool, source: Option<Position>): Request {
    if notify then Willing(from, DecisionValidated, Degraded, RulePassed, Partial, source)
    else match to.state
      case PAUSED => Willing(from, PlanPaused, Degraded, RulePassed, Partial, source)
      case WATCHING =>
        if from.state in {PAUSED, WATCHING} then Willing(from, PlanResumed, Degraded, FreshRule, Partial, source)
        else if from.state == IDLE then Willing(from, PlanActivated, Degraded, FreshRule, Partial, source)
        else if from.state == ACTION_PENDING then Willing(from, ValidationFailed, Degraded, FreshRule, Partial, source)
        else if from.state == DATA_DEGRADED then Willing(from, DataRecovered, FreshData, FreshRule, Partial, source)
        else Willing(from, ResumeRemainingStages, Degraded, FreshRule, Partial, source)
      case NEAR_TRIGGER => Willing(from, NearSignal, Degraded, RulePassed, Partial, source)
      case ACTION_PENDING =>
        if from.state == PARTIALLY_EXECUTED then Willing(from, NextStageEligible, Degraded, FreshRule, Partial, source)
        else Willing(from, ActionSignal, Degraded, RulePassed, Partial, source)
      case ACTION_NOTIFIED => Willing(from, DecisionValidated, Degraded, RulePassed, Partial, source)
      case DATA_DEGRADED => Willing(from, DataDegraded, Degraded, RulePassed, Partial, source)
      case INVALIDATED => Willing(from, SignalInvalidated, Degraded, RulePassed, Partial, source)
      case WAITING_CONFIRMATION =>
        if from == to || from.state == PARTIALLY_EXECUTED then
          Willing(from, DataDegraded, Degraded, RulePassed, Partial, source)
        else Willing(from, ExecutionConfirmed, Degraded, RulePassed, Partial, source)
      case PARTIALLY_EXECUTED => Willing(from, ExecutionConfirmed, Degraded, RulePassed, Partial, source)
      case STAGE_COMPLETED => Willing(from, ExecutionConfirmed, Degraded, RulePassed, StageDone, source)
      case _ => Willing(from, AllStagesDone, Degraded, RulePassed, Partial, source)
  }

  lemma TableIsRealised(plan: Plan, from: Status, to: Status, notify: bool)
    requires EdgeTable(HasSource(plan), from, to, notify)
    ensures Edge(plan, from, to, notify)
  {
    var source := None;
    if HasSource(plan) {
      var id :| id in plan.sources - plan.protectedIds;
      source := Some(Position(id, plan.portfolio, 1.0, Normal, true));
    }
    var r := Realise(from, to, notify, source);
    assert r.current == from && Causes(plan, r, to, notify);
  }

  /** The code's case chain reaches exactly the edges of the table, for every plan. */
  lemma EdgesAreTheTable(plan: Plan, from: Status, to: Status, notify: bool)
    ensures Edge(plan, from, to, notify) <==> EdgeTable(HasSource(plan), from, to, notify)
  {
    if Edge(plan, from, to, notify) {
      var r: Request :| r.current == from && Causes(plan, r, to, notify);
      EdgeInTable(plan, r, to, notify);
    } else if EdgeTable(HasSource(plan), from, to, notify) {
      TableIsRealised(plan, from, to, notify);
    }
  }

  /** Some request for the event moves the plan from one status to the next. */
  ghost predicate MovedBy(plan: Plan, event: Event, from: Status, to: Status) {
    exists r: Request, notify: bool :: r.current == from && r.event == event && Causes(plan, r, to, notify)
  }

  /** The resumption moves the plan from one status to the next, and no other event does. */
  ghost predicate OnlyResumes(plan: Plan, from: Status, to: Status) {
    forall event :: MovedBy(plan, event, from, to) <==> event == ResumeRemainingStages
  }

  /** An edge that clears the halt can be taken, and by no event but the resumption. */
  lemma LiftingResumes(plan: Plan, from: Status, to: Status, notify: bool)
    requires Edge(plan, from, to, notify) && from.halted && !to.halted
    ensures from.state == WAITING_CONFIRMATION && to.state == WATCHING
    ensures OnlyResumes(plan, from, to)
  {
    hide Transition, Causes;
    var r: Request :| r.current == from && Causes(plan, r, to, notify);
    EdgeSafety(plan, r, to, notify);
    assert MovedBy(plan, ResumeRemainingStages, from, to);
    forall event | MovedBy(plan, event, from, to) ensures event == ResumeRemainingStages {
      var s: Request, n: bool :| s.current == from && s.event == event && Causes(plan, s, to, n);
      EdgeSafety(plan, s, to, n);
    }
  }

  /** The halt is lifted by one event only, and a completed rotation is never left. */
  lemma EdgeSafety(plan: Plan, r: Request, to: Status, notify: bool)
    requires Causes(plan, r, to, notify)
    ensures r.current.halted && !to.halted ==>
              r.event == ResumeRemainingStages && r.current.state == WAITING_CONFIRMATION && to.state == WATCHING
    ensures r.current.state == ROTATION_COMPLETED ==> to == r.current
    ensures notify ==> r.current.state == ACTION_PENDING && to.state == ACTION_NOTIFIED
  {
  }
}
