/** What every step of the coordinator system keeps, from empty stores, under every
    interleaving and every failure. */
module ProtocolInvariant {
  import opened StateMachine
  import opened ScanLog
  import opened Stores
  import opened Protocol

  // One scan

  predicate Final(a: Attempt, run: Run) {
    a.status == SUCCEEDED && a.finalRun == Some(run.id) && MatchesEvidence(a, run) && a.disposition.Some?
    && a.duplicateOf.None?
  }

  /** Successes stand at the end of a log: one of either disposition, or a superseded one followed
      by an applied one. */
  ghost predicate FinalsOk(log: seq<Attempt>, run: Run) {
    forall i :: 0 <= i < |log| && log[i].status == SUCCEEDED ==>
      && Final(log[i], run)
      && (i == |log| - 1 || (i == |log| - 2 && log[i].disposition == Some(Superseded) && AppliedLast(log)))
  }

  predicate SucceededLast(log: seq<Attempt>) {
    log != [] && log[|log| - 1].status == SUCCEEDED
  }

  predicate AppliedLast(log: seq<Attempt>) {
    SucceededLast(log) && log[|log| - 1].disposition == Some(Applied)
  }

  ghost predicate LogOk(w: World, log: seq<Attempt>) {
    && Numbered(log)
    && forall i :: 0 <= i < |log| ==>
         log[i].id < w.nextId && WellFormed(log[i]) && log[i].recoveryOf == Predecessor(log, i)
  }

  function History(w: World, plan: nat): seq<Entry> {
    if plan in w.history then w.history[plan] else []
  }

  /** The run's fence was stored at some revision. */
  ghost predicate Fenced(w: World, run: Run) {
    exists i :: 0 <= i < |History(w, run.key.scan.plan)|
      && History(w, run.key.scan.plan)[i].record.fence == Some(FenceOf(run))
  }

  ghost predicate RunOk(setup: Setup, w: World, k: ScanKey, run: Run) {
    && run.key.scan == k
    && run.id < w.nextId
    && k.plan in setup.plans
    && Edge(setup.plans[k.plan], run.prev, run.next, run.notify)
    && (run.notify ==> run.prev.state == ACTION_PENDING && run.next.state == ACTION_NOTIFIED)
  }

  /** A run has at most one intent, filed once under its id, and only after it held the fence. */
  ghost predicate IntentOk(w: World, run: Run) {
    && (run.id in w.intents.byRun <==> run.key in w.intents.byKey)
    && (run.key in w.intents.byKey ==>
          && w.intents.byKey[run.key] == IntentOf(run)
          && w.intents.byRun[run.id] == [run.key]
          && run.notify
          && Fenced(w, run))
  }

  ghost predicate Finished(w: World, run: Run) {
    Fenced(w, run) && (run.notify ==> run.key in w.intents.byKey)
  }

  ghost predicate CountsOk(setup: Setup, w: World, k: ScanKey) {
    var log := Log(w.scans, k);
    && LostCount(log) <= RunningCount(log) <= setup.maxFetches
    && FetchCount(w, k) <= RunningCount(log)
  }

  ghost predicate ScanOk(setup: Setup, w: World, k: ScanKey) {
    var log := Log(w.scans, k);
    && (k in w.scans.states <==> k in w.scans.logs)
    && (k !in w.scans.states ==> k !in w.runs.byScan)
    && LogOk(w, log)
    && CountsOk(setup, w, k)
    && (k in w.runs.byScan ==>
          var run := w.runs.byScan[k];
          && RunOk(setup, w, k, run)
          && log != []
          && FinalsOk(log, run)
          && IntentOk(w, run)
          && (AppliedLast(log) ==> Finished(w, run)))
    && (k !in w.runs.byScan ==> !HasSuccess(log))
    && (k in w.scans.states && w.scans.states[k].Completed? ==>
          k in w.runs.byScan && w.scans.states[k].finalRun == w.runs.byScan[k].id && SucceededLast(log))
  }

  // All stores

  /** The three indexes of the run store hold the same runs. */
  ghost predicate RunsAgree(r: Runs) {
    && (forall k :: k in r.byScan ==> Filed(r, k))
    && (forall f :: f in r.byKey ==> f.scan in r.byScan && r.byScan[f.scan].key == f)
    && (forall id :: id in r.byId ==> Named(r, id))
  }

  ghost predicate Filed(r: Runs, k: ScanKey)
    requires k in r.byScan
  {
    var run := r.byScan[k];
    run.key.scan == k && run.key in r.byKey && r.byKey[run.key] == (run, k) && run.id in r.byId && r.byId[run.id] == run
  }

  ghost predicate Named(r: Runs, id: nat)
    requires id in r.byId
  {
    var run := r.byId[id];
    run.id == id && run.key.scan in r.byScan && r.byScan[run.key.scan] == run
  }

  ghost predicate IntentsAgree(t: Intents, r: Runs) {
    && (forall f :: f in t.byKey ==> f.scan in r.byScan && r.byScan[f.scan].key == f)
    && (forall id :: id in t.byRun ==> id in r.byId)
  }

  ghost predicate Follows(plan: Plan, from: Status, to: Status) {
    Edge(plan, from, to, false) || Edge(plan, from, to, true)
  }

  /** The move a degraded snapshot makes. */
  predicate DegradedMove(plan: Plan, from: Status, to: Status) {
    var o := Transition(plan, DegradedRequest(from));
    o.Allowed? && o.next == to
  }

  /** One revision: it follows the one before it by a machine edge. With a fence it is exactly the
      fenced run's transition, which is never a no-op; without one it is a degraded move. */
  ghost predicate EntryOk(setup: Setup, w: World, h: seq<Entry>, i: nat, p: nat)
    requires i < |h| && p in setup.plans
  {
    var e := h[i];
    && e.record.revision == i
    && e.author.plan == p
    && (i == 0 ==> e.record == Record(Status(IDLE, false), 0, None))
    && (i > 0 ==> Follows(setup.plans[p], h[i - 1].record.status, e.record.status))
    && (i > 0 && e.record.fence.None? ==> DegradedMove(setup.plans[p], h[i - 1].record.status, e.record.status))
    && (e.record.fence.Some? ==>
          && i > 0
          && e.author in w.runs.byScan
          && var run := w.runs.byScan[e.author];
             e.record.fence == Some(FenceOf(run)) && run.prev == h[i - 1].record.status
             && run.next == e.record.status && run.prev != run.next)
  }

  ghost predicate HistoryOk(setup: Setup, w: World) {
    && w.history.Keys == w.records.Keys
    && forall p :: p in w.history ==>
         && p in setup.plans
         && w.history[p] != []
         && w.records[p] == w.history[p][|w.history[p]| - 1].record
         && forall i :: 0 <= i < |w.history[p]| ==> EntryOk(setup, w, w.history[p], i, p)
  }

  ghost predicate WorldOk(setup: Setup, w: World) {
    && (forall k :: ScanOk(setup, w, k))
    && RunsAgree(w.runs)
    && IntentsAgree(w.intents, w.runs)
    && HistoryOk(setup, w)
  }

  // One coordinator

  ghost predicate IsOpen(w: World, k: ScanKey) {
    k in w.scans.states && w.scans.states[k].Open?
  }

  /** The attempt this coordinator started is still the last one in the log. */
  ghost predicate Working(w: World, k: ScanKey, running: Attempt) {
    var log := Log(w.scans, k);
    && IsOpen(w, k)
    && log != []
    && log[|log| - 1] == running
    && running.status == RUNNING
    && LostCount(log) < RunningCount(log)
  }

  ghost predicate Unstored(w: World, k: ScanKey) {
    IsOpen(w, k) && k !in w.runs.byScan
  }

  ghost predicate Stored(w: World, k: ScanKey, run: Run) {
    k in w.runs.byScan && w.runs.byScan[k] == run
  }

  ghost predicate Pending(w: World, k: ScanKey, mode: Mode, run: Run) {
    && IsOpen(w, k)
    && Stored(w, k, run)
    && !AppliedLast(Log(w.scans, k))
    && (mode.Fresh? ==> Working(w, k, mode.running))
  }

  ghost predicate Settled(w: World, k: ScanKey, run: Run, disposition: Disposition) {
    var log := Log(w.scans, k);
    && Stored(w, k, run)
    && SucceededLast(log)
    && log[|log| - 1].disposition == Some(disposition)
  }

  ghost predicate Failing(w: World, k: ScanKey, running: Attempt) {
    k in w.scans.states && (Working(w, k, running) || SucceededLast(Log(w.scans, k)))
  }

  /** An attempt built to close the running one. */
  ghost predicate Closing(w: World, k: ScanKey, a: Attempt) {
    var log := Log(w.scans, k);
    && k in w.scans.states
    && a.status in {FAILED, DEGRADED}
    && a.finalRun.None? && a.duplicateOf.None?
    && (SucceededLast(log)
        || (&& log != [] && log[|log| - 1].status == RUNNING
            && LostCount(log) < RunningCount(log)
            && IsOpen(w, k)
            && a.id < w.nextId && a.number == |log| + 1 && a.recoveryOf == Predecessor(log, |log|) && WellFormed(a)))
  }

  ghost predicate Replays(w: World, k: ScanKey, run: Run, disposition: Disposition) {
    k in w.scans.states && w.scans.states[k] == Completed(run.id) && Settled(w, k, run, disposition)
  }

  /** A result that names a run names the scan's run, with the disposition on record. */
  ghost predicate ResultOk(w: World, k: ScanKey, r: Result) {
    match r
    case Raised => true
    case Returned(RunCompleted, run) => run.Some? && Replays(w, k, run.value, Applied)
    case Returned(RunSuperseded, run) => run.Some? && Replays(w, k, run.value, Superseded)
    case Returned(_, run) => run.None?
  }

  ghost predicate Local(setup: Setup, w: World, job: Job, pc: Pc)
    requires job.key.plan in setup.plans
  {
    var k := job.key;
    var log := Log(w.scans, k);
    match pc
    case Acquire => true
    case GetScan => true
    case CreateScan => k !in w.scans.states
    case GetPending => IsOpen(w, k)
    case CountFetches => Unstored(w, k)
    case ListForRunning => Unstored(w, k) && RunningCount(log) < setup.maxFetches
    case RecordRunning(a) =>
      && Unstored(w, k) && RunningCount(log) < setup.maxFetches
      && a == RunningAttempt(job, log, a.id) && a.id < w.nextId && (log != [] ==> log[|log| - 1].id < a.id)
    case Fetch(running) => Unstored(w, k) && Working(w, k, running) && FetchCount(w, k) < RunningCount(log)
    case DegradedGet(running, _) => Unstored(w, k) && Working(w, k, running)
    case DegradedWrite(running, _, read, next) =>
      Unstored(w, k) && Working(w, k, running)
      && DegradedMove(setup.plans[k.plan], read.status, next)
    case DegradedList(running, _) => Unstored(w, k) && Working(w, k, running)
    case DegradedRecord(a) => Unstored(w, k) && Closing(w, k, a)
    case EvaluateGet(running, _) => Unstored(w, k) && Working(w, k, running)
    case Evaluate(running, _, _) => Unstored(w, k) && Working(w, k, running)
    case StoreRun(running, run) =>
      Unstored(w, k) && Working(w, k, running) && RunOk(setup, w, k, run) && run.id !in w.runs.byId
    case FindApplied(run) => IsOpen(w, k) && Stored(w, k, run)
    case CheckIntent(run) => IsOpen(w, k) && Settled(w, k, run, Applied)
    case EffectsGet(mode, run) => Pending(w, k, mode, run)
    case EffectsWrite(mode, run, read) => Pending(w, k, mode, run) && read.status == run.prev && run.prev != run.next
    case PutIntent(mode, run) => Pending(w, k, mode, run) && Fenced(w, run) && run.notify
    case FinalList(mode, run, d) => Pending(w, k, mode, run) && (d == Applied ==> Finished(w, run))
    case FinalRecord(mode, run, d, a) =>
      && Pending(w, k, mode, run) && (d == Applied ==> Finished(w, run))
      && log != [] && a == FinalAttempt(log, a.id, run, d) && a.id < w.nextId && log[|log| - 1].id < a.id
      && !AlreadyFinal(log, run, d)
    case Attach(mode, run, d) => IsOpen(w, k) && Settled(w, k, run, d)
    case FailedList(running, _) => Failing(w, k, running)
    case FailedRecord(a) => Closing(w, k, a)
    case ReplayRun => k in w.scans.states && w.scans.states[k].Completed?
    case ReplayList(run) => Stored(w, k, run) && k in w.scans.states && w.scans.states[k].Completed?
    case ReplayFinalList(_) => false
    case ReplayFinalRecord(_, _) => false
    case Audit(h, r) => ResultOk(w, k, r) && (h.FailAttempt? ==> Failing(w, k, h.running))
    case Release(r) => ResultOk(w, k, r)
    case Done(r) => ResultOk(w, k, r)
  }

  /** A run that is about to be, or was, reported as superseded changed nothing that existed. */
  predicate Untouched(pc: Pc) {
    match pc
    case DegradedGet(_, _) => false
    case DegradedWrite(_, _, _, _) => false
    case DegradedList(_, _) => false
    case DegradedRecord(_) => false
    case EffectsWrite(_, _, _) => false
    case PutIntent(_, _) => false
    case FinalList(_, _, d) => d == Superseded
    case FinalRecord(_, _, d, _) => d == Superseded
    case Attach(_, _, d) => d == Superseded
    case FailedList(_, _) => false
    case FailedRecord(_) => false
    case Audit(_, r) => Reports(r)
    case Release(r) => Reports(r)
    case Done(r) => Reports(r)
    case _ => true
  }

  predicate Reports(r: Result) {
    r.Returned? && r.disposition == RunSuperseded
  }

  ghost predicate SessionOk(setup: Setup, w: World, s: Session) {
    && s.job.key.plan in setup.plans
    && (Holds(s.pc) ==> s.job.key in w.locks)
    && Local(setup, w, s.job, s.pc)
    && (Untouched(s.pc) ==> !s.touched)
  }

  ghost predicate Disjoint(a: Session, b: Session) {
    && (Holds(a.pc) && Holds(b.pc) ==> a.job.key != b.job.key)
    && (a.pc.StoreRun? && b.pc.StoreRun? ==> a.pc.run.id != b.pc.run.id)
  }

  ghost predicate Inv(setup: Setup, y: Sys) {
    && WorldOk(setup, y.world)
    && (forall i :: i in y.sessions ==> SessionOk(setup, y.world, y.sessions[i]))
    && (forall i, j :: i in y.sessions && j in y.sessions && i != j ==> Disjoint(y.sessions[i], y.sessions[j]))
  }
}
