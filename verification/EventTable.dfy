/** What every event does in every state, written out as a table apart from the machine's case chain,
    and what that means for halts, pauses and notifications. */
module EventTable {
  import opened StateMachine

  const ACTIVE := {WATCHING, NEAR_TRIGGER, ACTION_PENDING, ACTION_NOTIFIED}

  /** What an event needs besides the state: its evidence, its authorisation or its confirmation. */
  predicate Evident(r: Request) {
    && (r.event == PlanActivated ==> r.guards.planIsValid)
    && (r.event == DataDegraded ==> r.guards.data == Degraded)
    && (r.event == DataRecovered ==> r.guards.data == FreshData)
    && (r.event in {NearSignal, ActionSignal, SignalInvalidated} ==> r.guards.rule == RulePassed)
    && (r.event in {PlanResumed, ResumeRemainingStages, NextStageEligible} ==> r.guards.rule == FreshRule)
    && (r.event in {PlanPaused, PlanResumed, ResumeRemainingStages} ==> r.guards.authorized)
    && (r.event == DecisionValidated ==> r.guards.sizing == SizingPassed)
    && (r.event == ExecutionConfirmed ==> r.guards.confirmed)
    && (r.event == NextStageEligible ==> !r.current.halted)
  }

  /** The position a sale would be taken from: open, of the plan's portfolio, one of its sources, and
      protected neither by its role nor by the plan. */
  predicate Sellable(plan: Plan, p: Position) {
    && p.isOpen && p.portfolio == plan.portfolio
    && p.id in plan.sources - plan.protectedIds && p.role in {RotationSource, Normal, CashProxy}
  }

  /** An event on the way to a sale cites such a position, and a validated decision a quantity of it. */
  predicate Backed(plan: Plan, r: Request) {
    && (r.event in {ActionSignal, DecisionValidated, NextStageEligible} ==>
          r.source.Some? && Sellable(plan, r.source.value))
    && (r.event == DecisionValidated && r.guards.sizing == SizingPassed ==>
          r.saleQuantity.Some? && 0.0 < r.saleQuantity.value <= r.source.value.quantity)
  }

  /** The states in which an event has nothing left to do. */
  function SettledIn(event: Event): set<State> {
    match event
    case PlanActivated => {WATCHING}
    case DataDegraded => {DATA_DEGRADED, WAITING_CONFIRMATION}
    case DataRecovered => {WATCHING}
    case NearSignal => {NEAR_TRIGGER}
    case ActionSignal => {ACTION_PENDING}
    case DecisionValidated => {ACTION_NOTIFIED}
    case ValidationFailed => {}
    case SignalInvalidated => {INVALIDATED}
    case ExecutionConfirmed => {}
    case NextStageEligible => {ACTION_PENDING}
    case ResumeRemainingStages => {WATCHING}
    case AllStagesDone => {ROTATION_COMPLETED}
    case PlanPaused => {PAUSED}
    case PlanResumed => {WATCHING}
  }

  /** Where an event leads from a status, if anywhere. */
  function Leads(event: Event, from: Status, done: Confirmation): Option<Status> {
    match (event, from.state)
    case (PlanActivated, IDLE) => Some(Status(WATCHING, from.halted))
    case (NearSignal, WATCHING) => Some(Status(NEAR_TRIGGER, from.halted))
    case (ActionSignal, NEAR_TRIGGER) => Some(Status(ACTION_PENDING, from.halted))
    case (DecisionValidated, ACTION_PENDING) => Some(Status(ACTION_NOTIFIED, from.halted))
    case (ValidationFailed, ACTION_PENDING) => Some(Status(WATCHING, from.halted))
    case (NextStageEligible, PARTIALLY_EXECUTED) => Some(Status(ACTION_PENDING, false))
    case (ExecutionConfirmed, ACTION_NOTIFIED) =>
      Some(Status(if done == Partial then PARTIALLY_EXECUTED else STAGE_COMPLETED, from.halted))
    case (ExecutionConfirmed, s) =>
      if s in {DATA_DEGRADED, INVALIDATED, WAITING_CONFIRMATION} then Some(Status(WAITING_CONFIRMATION, true))
      else None
    case (AllStagesDone, STAGE_COMPLETED) => Some(Status(ROTATION_COMPLETED, from.halted))
    case (SignalInvalidated, PARTIALLY_EXECUTED) => Some(Status(WAITING_CONFIRMATION, true))
    case (SignalInvalidated, s) => if s in ACTIVE then Some(Status(INVALIDATED, true)) else None
    case (DataDegraded, PARTIALLY_EXECUTED) => Some(Status(WAITING_CONFIRMATION, true))
    case (DataDegraded, s) =>
      if s in ACTIVE + {STAGE_COMPLETED} then Some(Status(DATA_DEGRADED, from.halted)) else None
    case (DataRecovered, DATA_DEGRADED) =>
      Some(if from.halted then Status(WAITING_CONFIRMATION, true) else Status(WATCHING, false))
    case (PlanResumed, PAUSED) => Some(Status(WATCHING, from.halted))
    case (ResumeRemainingStages, WAITING_CONFIRMATION) => if from.halted then Some(Status(WATCHING, false)) else None
    case (PlanPaused, s) => if s != ROTATION_COMPLETED then Some(Status(PAUSED, from.halted)) else None
    case _ => None
  }

  /** The machine is the table: an allowed request is evident and backed, and either changes nothing or
      leads where the table says, notifying and asking for a fresh evaluation exactly as it says. */
  lemma TransitionIsTheTable(plan: Plan, r: Request)
    ensures var o, to := Transition(plan, r), Leads(r.event, r.current, r.guards.confirmation);
            var settled := r.current.state in SettledIn(r.event);
            && (o.Allowed? <==> Evident(r) && Backed(plan, r) && (settled || to.Some?))
            && (o.Allowed? ==>
                  && o.noop == settled
                  && o.next == (if settled then r.current else to.value)
                  && (o.notify <==> r.event == DecisionValidated && !settled)
                  && (o.freshEvaluation <==>
                        r.event in {PlanResumed, DataRecovered, ResumeRemainingStages} && !settled))
  {
    match r.event {
      case PlanActivated =>
      case DataDegraded =>
      case DataRecovered =>
      case ExecutionConfirmed =>
      case SignalInvalidated =>
      case PlanPaused =>
      case PlanResumed =>
      case _ =>
    }
  }

  /** What the moves that matter need: only an authorised pause pauses, and only an authorised resumption
      with a fresh evaluation resumes; only such a resumption lifts a halt; a notification names a
      quantity that an unprotected open position of the plan can sell; and an execution that is under way
      and loses its signal or its data always ends halted. */
  lemma {:induction false} MovesAreGuarded(plan: Plan, r: Request)
    requires Transition(plan, r).Allowed? && Transition(plan, r).next != r.current
    ensures var from, to := r.current, Transition(plan, r).next;
            && (to.state == PAUSED ==> r.event == PlanPaused && r.guards.authorized)
            && (from.state == PAUSED ==>
                  to.state == WATCHING && r.event == PlanResumed && r.guards.authorized && r.guards.rule == FreshRule)
            && (from.halted && !to.halted ==>
                  && r.event == ResumeRemainingStages && r.guards.authorized && r.guards.rule == FreshRule
                  && from.state == WAITING_CONFIRMATION && to.state == WATCHING)
            && (to.state == ACTION_NOTIFIED ==>
                  && r.event == DecisionValidated && r.source.Some? && Sellable(plan, r.source.value)
                  && r.saleQuantity.Some? && 0.0 < r.saleQuantity.value <= r.source.value.quantity)
            && (from.state == PARTIALLY_EXECUTED && r.event in {SignalInvalidated, DataDegraded} ==>
                  to == Status(WAITING_CONFIRMATION, true))
  {
    hide Transition;
    TransitionIsTheTable(plan, r);
  }
}
