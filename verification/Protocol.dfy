/** The run coordinator as a small-step system. Every repository call is one atomic step and may
    raise before or after its effect; any number of coordinators interleave over the shared
    stores, and a coordinator may stop for good between two calls. */
module Protocol {
  import opened StateMachine
  import opened ScanLog
  import opened Stores

  datatype Setup = Setup(plans: map<nat, Plan>, maxFetches: nat)

  datatype Trigger = Api | Scheduler

  datatype RunDisposition =
    | RunCompleted | ApiConflict | SchedulerSkipped | RunDegraded | RunSuperseded | RunFailed | RetryExhausted

  datatype Result = Raised | Returned(disposition: RunDisposition, run: Option<Run>)

  /** A stored recommendation record together with the scan whose coordinator stored it. */
  datatype Entry = Entry(record: Record, author: ScanKey)

  /** The shared stores, with two observers the code does not keep: every record ever stored per
      plan, and how often the provider was called per scan. */
  datatype World = World(
    records: Records,
    scans: Scans,
    runs: Runs,
    intents: Intents,
    locks: set<ScanKey>,
    nextId: nat,
    history: map<nat, seq<Entry>>,
    fetches: map<ScanKey, nat>)

  datatype Job = Job(key: ScanKey, config: nat, trigger: Trigger)

  /** A finalisation either follows its own evaluation, after a running attempt, or recovers a
      candidate that an earlier run stored. */
  datatype Mode = Fresh(running: Attempt) | Recovering

  /** Where an exception raised while a result is being audited is caught. */
  datatype Handler = Propagate | FailAttempt(running: Attempt, snapshot: string) | ReportPending

  /** The next repository call of one coordinator, with the values it has read so far. */
  datatype Pc =
    | Acquire
    | GetScan
    | CreateScan
    | GetPending
    | CountFetches
    | ListForRunning
    | RecordRunning(attempt: Attempt)
    | Fetch(running: Attempt)
    | DegradedGet(running: Attempt, snapshot: string)
    | DegradedWrite(running: Attempt, snapshot: string, read: Record, next: Status)
    | DegradedList(running: Attempt, snapshot: string)
    | DegradedRecord(attempt: Attempt)
    | EvaluateGet(running: Attempt, snapshot: string)
    | Evaluate(running: Attempt, snapshot: string, read: Record)
    | StoreRun(running: Attempt, run: Run)
    | FindApplied(run: Run)
    | CheckIntent(run: Run)
    | EffectsGet(mode: Mode, run: Run)
    | EffectsWrite(mode: Mode, run: Run, read: Record)
    | PutIntent(mode: Mode, run: Run)
    | FinalList(mode: Mode, run: Run, disposition: Disposition)
    | FinalRecord(mode: Mode, run: Run, disposition: Disposition, attempt: Attempt)
    | Attach(mode: Mode, run: Run, disposition: Disposition)
    | FailedList(running: Attempt, evidence: Option<string>)
    | FailedRecord(attempt: Attempt)
    | ReplayRun
    | ReplayList(run: Run)
    | ReplayFinalList(run: Run)
    | ReplayFinalRecord(run: Run, attempt: Attempt)
    | Audit(handler: Handler, result: Result)
    | Release(result: Result)
    | Done(result: Result)

  datatype Fault = NoFault | Before | After

  datatype Fetched = FetchRaised | InvalidSnapshot | Snapshot(id: string, actionable: bool)

  datatype Sizing = Sizing(actionable: bool, source: nat, quantity: real)

  /** What the evaluator proposes; it supplies neither the recommendation state nor a trusted
      position, so the position is the one the repository holds. */
  datatype Evaluation = Evaluation(event: Event, guards: Guards, source: Option<Position>, sizing: Option<Sizing>)

  /** What the environment decides at one step. */
  datatype Choice = Choice(fault: Fault, fetched: Fetched, evaluation: Option<Evaluation>)

  // Attempts the coordinator builds

  function RunningAttempt(job: Job, log: seq<Attempt>, id: nat): Attempt {
    Attempt(id, |log| + 1, RUNNING, job.config, false, false, None,
            if log == [] then None else Some(log[|log| - 1].id), None, None, None, None)
  }

  function LostAttempt(job: Job, log: seq<Attempt>, id: nat, running: Attempt, status: AttemptStatus,
                       evidence: Option<string>): Attempt {
    Attempt(id, |log| + 1, status, job.config, true, true, evidence, Some(running.id), None, None,
            if evidence.Some? then Some(FinalKey(job.key, evidence.value)) else None, None)
  }

  function FinalAttempt(log: seq<Attempt>, id: nat, run: Run, disposition: Disposition): Attempt
    requires log != []
  {
    Attempt(id, |log| + 1, SUCCEEDED, run.config, true, false, Some(run.key.snapshot),
            Some(log[|log| - 1].id), None, Some(run.id), Some(run.key), Some(disposition))
  }

  predicate MatchesEvidence(a: Attempt, run: Run) {
    && a.finalKey == Some(run.key)
    && a.config == run.config
    && a.snapshot == Some(run.key.snapshot)
  }

  // Pure decisions

  function DegradedRequest(current: Status): Request {
    Request(current, DataDegraded,
            Guards(false, Degraded, NotEvaluated, NotValidated, false, false, Partial), None, None)
  }

  /** The request an evaluation leads to, or None where the code raises before asking the machine. */
  function Proposal(plan: Plan, current: Status, e: Evaluation): Option<Request> {
    var sized := e.event == DecisionValidated && e.guards.sizing == SizingPassed;
    if sized != e.sizing.Some? then None
    else if e.source.Some? && !AuthorizedSource(plan, e.source.value) then None
    else if !sized then Some(Request(current, e.event, e.guards, e.source, None))
    else if e.source.None? || !e.sizing.value.actionable || e.sizing.value.source != e.source.value.id then None
    else Some(Request(current, e.event, e.guards, e.source, Some(e.sizing.value.quantity)))
  }

  function Candidate(plan: Plan, job: Job, snapshot: string, read: Record, e: Evaluation, id: nat): Option<Run> {
    var p := Proposal(plan, read.status, e);
    if p.None? then None
    else
      var o := Transition(plan, p.value);
      if o.Refused? then None
      else Some(Run(id, FinalKey(job.key, snapshot), job.config, read.status, o.next, o.notify))
  }

  function FenceOf(run: Run): Fence {
    Fence(run.id, run.key)
  }

  // Where an exception goes

  const PENDING := Returned(RunFailed, None)

  /** The lock is given back and the exception leaves the coordinator. */
  const BROKEN := Release(Raised)

  function EffectsRaise(mode: Mode, run: Run): Pc {
    match mode
    case Fresh(running) => FailedList(running, Some(run.key.snapshot))
    case Recovering => Audit(Propagate, PENDING)
  }

  function SupersededHandler(mode: Mode, run: Run): Handler {
    match mode
    case Fresh(running) => FailAttempt(running, run.key.snapshot)
    case Recovering => ReportPending
  }

  function FinalRaise(mode: Mode, run: Run, disposition: Disposition): Pc {
    match disposition
    case Applied => EffectsRaise(mode, run)
    case Superseded => Audit(SupersededHandler(mode, run), PENDING)
  }

  function AttachRaise(mode: Mode, run: Run, disposition: Disposition): Pc {
    match disposition
    case Applied => Audit(Propagate, PENDING)
    case Superseded => Audit(SupersededHandler(mode, run), PENDING)
  }

  function AuditRaise(handler: Handler): Pc {
    match handler
    case Propagate => Release(Raised)
    case FailAttempt(running, snapshot) => FailedList(running, Some(snapshot))
    case ReportPending => Audit(Propagate, PENDING)
  }

  function Raise(pc: Pc): Pc {
    match pc
    case Acquire => Done(Raised)
    case Fetch(running) => FailedList(running, None)
    case DegradedGet(running, snapshot) => FailedList(running, Some(snapshot))
    case DegradedWrite(running, snapshot, _, _) => FailedList(running, Some(snapshot))
    case EvaluateGet(running, snapshot) => FailedList(running, Some(snapshot))
    case Evaluate(running, snapshot, _) => FailedList(running, Some(snapshot))
    case StoreRun(running, run) => FailedList(running, Some(run.key.snapshot))
    case FindApplied(run) => EffectsRaise(Recovering, run)
    case CheckIntent(run) => EffectsRaise(Recovering, run)
    case EffectsGet(mode, run) => EffectsRaise(mode, run)
    case EffectsWrite(mode, run, _) => EffectsRaise(mode, run)
    case PutIntent(mode, run) => EffectsRaise(mode, run)
    case FinalList(mode, run, disposition) => FinalRaise(mode, run, disposition)
    case FinalRecord(mode, run, disposition, _) => FinalRaise(mode, run, disposition)
    case Attach(mode, run, disposition) => AttachRaise(mode, run, disposition)
    case Audit(handler, _) => AuditRaise(handler)
    case Release(_) => Done(Raised)
    case Done(result) => Done(result)
    case _ => BROKEN
  }

  // Repository calls

  function WithRecords(w: World, k: ScanKey, records: Records): World
    requires k.plan in records
  {
    var log := if k.plan in w.history then w.history[k.plan] else [];
    w.(records := records, history := w.history[k.plan := log + [Entry(records[k.plan], k)]])
  }

  function GetOrCreate(w: World, k: ScanKey): World {
    if k.plan in w.records then w else WithRecords(w, k, Ensured(w.records, k.plan))
  }

  function Read(w: World, k: ScanKey): Record {
    Ensured(w.records, k.plan)[k.plan]
  }

  /** The append of one attempt, or where its rejection is caught. */
  function AppendCall(w: World, k: ScanKey, a: Attempt, raised: Pc, next: Pc): (World, Pc) {
    match Appended(w.scans, w.runs, k, a)
    case Some(scans) => (w.(scans := scans), next)
    case None => (w, raised)
  }

  function WriteCall(w: World, k: ScanKey, read: Record, to: Status, fence: Option<Fence>, raised: Pc, next: Pc)
    : (World, Pc)
  {
    match Transitioned(w.records, k.plan, read, to, fence)
    case Some(records) => (WithRecords(w, k, records), next)
    case None => (w, raised)
  }

  function FetchCount(w: World, k: ScanKey): nat {
    if k in w.fetches then w.fetches[k] else 0
  }

  /** The notification intent is recorded only for a validated decision. */
  function AfterEffects(mode: Mode, run: Run): Pc {
    if !run.notify then FinalList(mode, run, Applied)
    else if run.prev.state == ACTION_PENDING && run.next.state == ACTION_NOTIFIED then PutIntent(mode, run)
    else EffectsRaise(mode, run)
  }

  /** What the durable record says about a candidate that is not yet finalised. */
  function Adjudicate(mode: Mode, run: Run, current: Record): Pc {
    if current.status == run.next then
      if current.fence == Some(FenceOf(run)) then AfterEffects(mode, run) else FinalList(mode, run, Superseded)
    else if current.status == run.prev then EffectsWrite(mode, run, current)
    else FinalList(mode, run, Superseded)
  }

  /** Whether the latest success already says what this finalisation would say. */
  predicate AlreadyFinal(log: seq<Attempt>, run: Run, disposition: Disposition) {
    var existing := LastFinal(log, run.id);
    && existing.Some?
    && (existing.value.disposition == Some(disposition)
        || (disposition == Applied && existing.value.disposition.None?))
  }

  // One function per repository call: the new stores and the call after it

  function AcquireCall(w: World, job: Job): (World, Pc) {
    if job.key in w.locks then
      (w, Done(Returned(if job.trigger == Api then ApiConflict else SchedulerSkipped, None)))
    else (w.(locks := w.locks + {job.key}), GetScan)
  }

  function GetScanCall(w: World, k: ScanKey): Pc {
    if k !in w.scans.states then CreateScan else if w.scans.states[k].Completed? then ReplayRun else GetPending
  }

  function GetPendingCall(w: World, k: ScanKey): Pc {
    if k in w.runs.byScan then FindApplied(w.runs.byScan[k]) else CountFetches
  }

  function CountFetchesCall(setup: Setup, w: World, k: ScanKey): Pc {
    if RunningCount(Log(w.scans, k)) >= setup.maxFetches then Audit(Propagate, Returned(RetryExhausted, None))
    else ListForRunning
  }

  function ListForRunningCall(w: World, job: Job): (World, Pc) {
    var log := Log(w.scans, job.key);
    if log != [] && log[|log| - 1].status == SUCCEEDED then (w, BROKEN)
    else (w.(nextId := w.nextId + 1), RecordRunning(RunningAttempt(job, log, w.nextId)))
  }

  function FetchCall(w: World, k: ScanKey, running: Attempt, fetched: Fetched): (World, Pc) {
    (w.(fetches := w.fetches[k := FetchCount(w, k) + 1]),
     match fetched
     case Snapshot(id, true) => EvaluateGet(running, id)
     case Snapshot(id, false) => DegradedGet(running, id)
     case _ => FailedList(running, None))
  }

  function DegradedGetCall(plan: Plan, w: World, k: ScanKey, running: Attempt, snapshot: string): (World, Pc) {
    var current := Read(w, k);
    var o := Transition(plan, DegradedRequest(current.status));
    (GetOrCreate(w, k),
     if current.status.state == IDLE then DegradedList(running, snapshot)
     else if o.Refused? then FailedList(running, Some(snapshot))
     else DegradedWrite(running, snapshot, current, o.next))
  }

  function DegradedListCall(w: World, job: Job, running: Attempt, snapshot: string): (World, Pc) {
    (w.(nextId := w.nextId + 1),
     DegradedRecord(LostAttempt(job, Log(w.scans, job.key), w.nextId, running, DEGRADED, Some(snapshot))))
  }

  function EvaluateCall(plan: Plan, w: World, job: Job, running: Attempt, snapshot: string, read: Record,
                        evaluation: Option<Evaluation>): (World, Pc)
  {
    var run := if evaluation.None? then None else Candidate(plan, job, snapshot, read, evaluation.value, w.nextId);
    if run.None? then (w, FailedList(running, Some(snapshot)))
    else (w.(nextId := w.nextId + 1), StoreRun(running, run.value))
  }

  function StoreRunCall(w: World, k: ScanKey, running: Attempt, run: Run): (World, Pc) {
    match RunStored(w.runs, w.scans, run, k)
    case Some((runs, stored)) => (w.(runs := runs), EffectsGet(Fresh(running), stored))
    case None => (w, FailedList(running, Some(run.key.snapshot)))
  }

  function FindAppliedCall(w: World, k: ScanKey, run: Run): Pc {
    match LastApplied(Log(w.scans, k), run.id)
    case None => EffectsGet(Recovering, run)
    case Some(a) =>
      if !MatchesEvidence(a, run) then EffectsRaise(Recovering, run)
      else if run.notify then CheckIntent(run)
      else Attach(Recovering, run, Applied)
  }

  function CheckIntentCall(w: World, run: Run): Pc {
    if |MatchingIntents(w.intents, run)| == 1 then Attach(Recovering, run, Applied) else EffectsRaise(Recovering, run)
  }

  function PutIntentCall(w: World, mode: Mode, run: Run): (World, Pc) {
    match IntentStored(w.intents, w.runs, IntentOf(run))
    case Some(intents) => (w.(intents := intents), FinalList(mode, run, Applied))
    case None => (w, EffectsRaise(mode, run))
  }

  function FinalListCall(w: World, k: ScanKey, mode: Mode, run: Run, d: Disposition): (World, Pc) {
    var log := Log(w.scans, k);
    if AlreadyFinal(log, run, d) then (w, Attach(mode, run, d))
    else if log == [] then (w, FinalRaise(mode, run, d))
    else (w.(nextId := w.nextId + 1), FinalRecord(mode, run, d, FinalAttempt(log, w.nextId, run, d)))
  }

  function AttachCall(w: World, k: ScanKey, mode: Mode, run: Run, d: Disposition): (World, Pc) {
    match Attached(w.scans, w.runs, k, run.id)
    case None => (w, AttachRaise(mode, run, d))
    case Some(scans) =>
      (w.(scans := scans),
       match d
       case Applied => Audit(Propagate, Returned(RunCompleted, Some(run)))
       case Superseded => Audit(SupersededHandler(mode, run), Returned(RunSuperseded, Some(run))))
  }

  function FailedListCall(w: World, job: Job, running: Attempt, evidence: Option<string>): (World, Pc) {
    (w.(nextId := w.nextId + 1),
     FailedRecord(LostAttempt(job, Log(w.scans, job.key), w.nextId, running, FAILED, evidence)))
  }

  function ReplayListCall(w: World, k: ScanKey, run: Run): Pc {
    match LastFinal(Log(w.scans, k), run.id)
    case None => ReplayFinalList(run)
    case Some(a) => Audit(Propagate, Replayed(a, run))
  }

  function ReplayFinalListCall(w: World, k: ScanKey, run: Run): (World, Pc) {
    var log := Log(w.scans, k);
    if AlreadyFinal(log, run, Applied) then (w, Audit(Propagate, Returned(RunCompleted, Some(run))))
    else if log == [] then (w, BROKEN)
    else (w.(nextId := w.nextId + 1), ReplayFinalRecord(run, FinalAttempt(log, w.nextId, run, Applied)))
  }

  /** One repository call that does not fail of itself. */
  function Call(setup: Setup, job: Job, w: World, pc: Pc, c: Choice): (World, Pc)
    requires job.key.plan in setup.plans
  {
    var k := job.key;
    match pc
    case Acquire => AcquireCall(w, job)
    case GetScan => (w, GetScanCall(w, k))
    case CreateScan => (w.(scans := Opened(w.scans, k)), GetPending)
    case GetPending => (w, GetPendingCall(w, k))
    case CountFetches => (w, CountFetchesCall(setup, w, k))
    case ListForRunning => ListForRunningCall(w, job)
    case RecordRunning(attempt) => AppendCall(w, k, attempt, BROKEN, Fetch(attempt))
    case Fetch(running) => FetchCall(w, k, running, c.fetched)
    case DegradedGet(running, snapshot) => DegradedGetCall(setup.plans[k.plan], w, k, running, snapshot)
    case DegradedWrite(running, snapshot, read, next) =>
      WriteCall(w, k, read, next, None, FailedList(running, Some(snapshot)), DegradedList(running, snapshot))
    case DegradedList(running, snapshot) => DegradedListCall(w, job, running, snapshot)
    case DegradedRecord(attempt) =>
      AppendCall(w, k, attempt, BROKEN, Audit(Propagate, Returned(RunDegraded, None)))
    case EvaluateGet(running, snapshot) => (GetOrCreate(w, k), Evaluate(running, snapshot, Read(w, k)))
    case Evaluate(running, snapshot, read) =>
      EvaluateCall(setup.plans[k.plan], w, job, running, snapshot, read, c.evaluation)
    case StoreRun(running, run) => StoreRunCall(w, k, running, run)
    case FindApplied(run) => (w, FindAppliedCall(w, k, run))
    case CheckIntent(run) => (w, CheckIntentCall(w, run))
    case EffectsGet(mode, run) => (GetOrCreate(w, k), Adjudicate(mode, run, Read(w, k)))
    case EffectsWrite(mode, run, read) =>
      WriteCall(w, k, read, run.next, Some(FenceOf(run)), EffectsRaise(mode, run), AfterEffects(mode, run))
    case PutIntent(mode, run) => PutIntentCall(w, mode, run)
    case FinalList(mode, run, d) => FinalListCall(w, k, mode, run, d)
    case FinalRecord(mode, run, d, attempt) =>
      AppendCall(w, k, attempt, FinalRaise(mode, run, d), Attach(mode, run, d))
    case Attach(mode, run, d) => AttachCall(w, k, mode, run, d)
    case FailedList(running, evidence) => FailedListCall(w, job, running, evidence)
    case FailedRecord(attempt) =>
      AppendCall(w, k, attempt, BROKEN, Audit(Propagate, Returned(RunFailed, None)))
    case ReplayRun => (w, if k in w.runs.byScan then ReplayList(w.runs.byScan[k]) else BROKEN)
    case ReplayList(run) => (w, ReplayListCall(w, k, run))
    case ReplayFinalList(run) => ReplayFinalListCall(w, k, run)
    case ReplayFinalRecord(run, attempt) =>
      AppendCall(w, k, attempt, BROKEN, Audit(Propagate, Returned(RunCompleted, Some(run))))
    case Audit(_, result) => (w, Release(result))
    case Release(result) => (w.(locks := w.locks - {k}), Done(result))
    case Done(_) => (w, pc)
  }

  function Replayed(a: Attempt, run: Run): Result {
    Returned(if a.disposition == Some(Superseded) then RunSuperseded else RunCompleted, Some(run))
  }

  /** Calls that only read; an identifier is drawn after such a call returned. */
  predicate OnlyReads(pc: Pc) {
    pc.ListForRunning? || pc.DegradedList? || pc.FailedList? || pc.FinalList? || pc.ReplayFinalList? || pc.Evaluate?
  }

  function Step(setup: Setup, job: Job, w: World, pc: Pc, c: Choice): (World, Pc)
    requires job.key.plan in setup.plans
  {
    match c.fault
    case NoFault => Call(setup, job, w, pc, c)
    case Before => (w, Raise(pc))
    case After => (if OnlyReads(pc) then w else Call(setup, job, w, pc, c).0, Raise(pc))
  }

  // The system

  /** `touched` observes whether this run changed an intent or an existing record. */
  datatype Session = Session(job: Job, pc: Pc, touched: bool)

  datatype Sys = Sys(world: World, sessions: map<nat, Session>)

  datatype Action =
    | Start(id: nat, job: Job)
    | Proceed(id: nat, choice: Choice)
    | Vanish(id: nat, unlock: bool)

  predicate Holds(pc: Pc) {
    !pc.Acquire? && !pc.Done?
  }

  predicate Touches(w: World, w': World) {
    w.intents != w'.intents || exists p | p in w.records :: p !in w'.records || w'.records[p] != w.records[p]
  }

  function Apply(setup: Setup, y: Sys, a: Action): Sys {
    match a
    case Start(id, job) =>
      if id in y.sessions || job.key.plan !in setup.plans then y
      else y.(sessions := y.sessions[id := Session(job, Acquire, false)])
    case Proceed(id, c) =>
      if id !in y.sessions || y.sessions[id].job.key.plan !in setup.plans then y
      else
        var s := y.sessions[id];
        var (w, pc) := Step(setup, s.job, y.world, s.pc, c);
        Sys(w, y.sessions[id := Session(s.job, pc, s.touched || Touches(y.world, w))])
    case Vanish(id, unlock) =>
      if id !in y.sessions then y
      else
        var s := y.sessions[id];
        var w := if unlock && Holds(s.pc) then y.world.(locks := y.world.locks - {s.job.key}) else y.world;
        Sys(w, y.sessions - {id})
  }

  const EMPTY := World(map[], Scans(map[], map[]), Runs(map[], map[], map[]), Intents(map[], map[]), {}, 0, map[],
      map[])

  /** The system after any sequence of actions, from empty stores. */
  function Execute(setup: Setup, actions: seq<Action>): Sys {
    if actions == [] then Sys(EMPTY, map[])
    else Apply(setup, Execute(setup, actions[..|actions| - 1]), actions[|actions| - 1])
  }
}
