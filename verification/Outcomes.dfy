/** What an uninterrupted run without failures comes to where it does not finish its scan: on data that
    is not actionable, on a failing provider or evaluator, out of attempts, on a scan that is completed,
    and on one that is locked. */
module Outcomes {
  import opened StateMachine
  import opened EventTable
  import opened ScanLog
  import opened Stores
  import opened Protocol
  import opened ProtocolInvariant
  import opened ProtocolSteps
  import opened ProtocolCalls
  import opened ProtocolSystem
  import opened ProtocolTheorems
  import opened Recovery

  // What such a run leaves behind

  /** Two attempts more: one that was started, and one that closes it, with the evidence it had. */
  ghost predicate Grew(job: Job, before: seq<Attempt>, after: seq<Attempt>, status: AttemptStatus,
                       evidence: Option<string>)
  {
    var n := |before|;
    && |after| == n + 2 && after[..n] == before
    && var started, closed := after[n], after[n + 1];
       && started.status == RUNNING && closed.status == status
       && started.config == closed.config == job.config
       && started.number == n + 1 && closed.number == n + 2
       && started.recoveryOf == (if n == 0 then None else Some(before[n - 1].id))
       && closed.recoveryOf == Some(started.id)
       && closed.snapshot == evidence && closed.finalRun.None? && closed.disposition.None?
       && closed.finalKey == (if evidence.None? then None else Some(FinalKey(job.key, evidence.value)))
  }

  /** The scan stays open and its log grew so; the provider was called once; runs, intents, locks and all
      other scans are as before. */
  ghost predicate Attempted(job: Job, w: World, end: World, status: AttemptStatus, evidence: Option<string>) {
    var k := job.key;
    && Grew(job, Log(w.scans, k), Log(end.scans, k), status, evidence)
    && end.scans == Scans(w.scans.states[k := Open], w.scans.logs[k := Log(end.scans, k)])
    && end.fetches == w.fetches[k := FetchCount(w, k) + 1]
    && end.runs == w.runs && end.intents == w.intents && end.locks == w.locks
  }

  /** Where a snapshot that is not actionable takes a record, if it may be degraded: out of the five
      states that wait for data, into a halted wait for confirmation while an execution is under way, and
      nowhere else where it already waits for data or for confirmation. */
  function Degrades(from: Status): Option<Status> {
    match from.state
    case WATCHING => Some(Status(DATA_DEGRADED, from.halted))
    case NEAR_TRIGGER => Some(Status(DATA_DEGRADED, from.halted))
    case ACTION_PENDING => Some(Status(DATA_DEGRADED, from.halted))
    case ACTION_NOTIFIED => Some(Status(DATA_DEGRADED, from.halted))
    case STAGE_COMPLETED => Some(Status(DATA_DEGRADED, from.halted))
    case PARTIALLY_EXECUTED => Some(Status(WAITING_CONFIRMATION, true))
    case DATA_DEGRADED => Some(from)
    case WAITING_CONFIRMATION => Some(from)
    case _ => None
  }

  /** What a run on data that is not actionable does to the record of its plan and to its scan: an idle
      record stays; another one gets exactly one revision, without a fence, to the degraded status; and
      where the state refuses to be degraded the attempt fails and the record stays. */
  ghost predicate DegradesPlan(job: Job, w: World, snapshot: string, end: (World, Pc)) {
    var p, current, v := job.key.plan, Read(w, job.key), end.0;
    var to := Degrades(current.status);
    if current.status.state == IDLE || to.Some? then
      && end.1 == Done(Returned(RunDegraded, None))
      && Attempted(job, w, v, DEGRADED, Some(snapshot))
      && if current.status.state == IDLE then
           v.records == w.records[p := current] && History(v, p) == History(GetOrCreate(w, job.key), p)
         else
           var next := Record(to.value, current.revision + 1, None);
           v.records == w.records[p := next] && History(v, p) == History(w, p) + [Entry(next, job.key)]
    else
      && end.1 == Done(Returned(RunFailed, None))
      && Attempted(job, w, v, FAILED, Some(snapshot))
      && v.records == w.records && v.history == w.history
  }

  // Closing an attempt

  lemma LostFits(job: Job, log: seq<Attempt>, id: nat, running: Attempt, status: AttemptStatus,
                 evidence: Option<string>)
    requires log != [] && Numbered(log) && !HasSuccess(log) && log[|log| - 1] == running && running.status == RUNNING
    requires status in {FAILED, DEGRADED} && (status == DEGRADED ==> evidence.Some?) && running.id < id
    ensures var a := LostAttempt(job, log, id, running, status, evidence);
            && WellFormed(a)
            && AppendAllowed(log, a)
            && forall i :: 0 <= i < |log| ==> log[i].number != a.number
  {
    LatestIsLast(log);
  }

  /** The stores once an attempt is closed. */
  function ClosedBy(w: World, k: ScanKey, a: Attempt): World {
    w.(nextId := w.nextId + 1, scans := w.scans.(logs := w.scans.logs[k := Log(w.scans, k) + [a]]))
  }

  lemma LostIsAccepted(setup: Setup, job: Job, w: World, running: Attempt, status: AttemptStatus,
                       evidence: Option<string>)
    requires WorldOk(setup, w) && Working(w, job.key, running)
    requires status in {FAILED, DEGRADED} && (status == DEGRADED ==> evidence.Some?)
    ensures var a := LostAttempt(job, Log(w.scans, job.key), w.nextId, running, status, evidence);
            Appended(w.scans, w.runs, job.key, a)
            == Some(w.scans.(logs := w.scans.logs[job.key := Log(w.scans, job.key) + [a]]))
  {
    hide HistoryOk, RunsAgree, IntentsAgree, CountsOk, WellFormed, AppendAllowed, RunOk, IntentOk, Finished;
    Own(setup, w, job.key);
    var log := Log(w.scans, job.key);
    assert log[|log| - 1].id < w.nextId;
    LostFits(job, log, w.nextId, running, status, evidence);
    assert log[|log| - 1].id == running.id;
  }

  lemma {:induction false} FailureEnds(setup: Setup, job: Job, w: World, running: Attempt, evidence: Option<string>,
                                       choices: seq<Choice>)
    requires Ready(setup, job, w, FailedList(running, evidence)) && Faultless(choices) && |choices| >= 4
    requires Working(w, job.key, running)
    ensures var a := LostAttempt(job, Log(w.scans, job.key), w.nextId, running, FAILED, evidence);
            var v := ClosedBy(w, job.key, a);
            Drive(setup, job, w, FailedList(running, evidence), choices)
            == (v.(locks := v.locks - {job.key}), Done(Returned(RunFailed, None)))
  {
    hide WorldOk, Local, Drive, Ready, Appended, Working, Unstored;
    OnOwnPlan(setup, job, w, FailedList(running, evidence));
    ReadyOpened(setup, job, w, FailedList(running, evidence));
    var a := LostAttempt(job, Log(w.scans, job.key), w.nextId, running, FAILED, evidence);
    LostIsAccepted(setup, job, w, running, FAILED, evidence);
    DriveOn(setup, job, w, FailedList(running, evidence), choices);
    var u := w.(nextId := w.nextId + 1);
    DriveOn(setup, job, u, FailedRecord(a), choices[1..]);
    AuditEnds(setup, job, ClosedBy(w, job.key, a), Propagate, Returned(RunFailed, None), choices[1..][1..]);
  }

  lemma {:induction false} DegradationEnds(setup: Setup, job: Job, w: World, running: Attempt, snapshot: string,
                                           choices: seq<Choice>)
    requires Ready(setup, job, w, DegradedList(running, snapshot)) && Faultless(choices) && |choices| >= 4
    ensures var a := LostAttempt(job, Log(w.scans, job.key), w.nextId, running, DEGRADED, Some(snapshot));
            var v := ClosedBy(w, job.key, a);
            Drive(setup, job, w, DegradedList(running, snapshot), choices)
            == (v.(locks := v.locks - {job.key}), Done(Returned(RunDegraded, None)))
  {
    hide WorldOk, Local, Drive, Ready, Appended, Working, Unstored;
    OnOwnPlan(setup, job, w, DegradedList(running, snapshot));
    ReadyOpened(setup, job, w, DegradedList(running, snapshot));
    StillWorking(setup, job, w, DegradedList(running, snapshot), running);
    var a := LostAttempt(job, Log(w.scans, job.key), w.nextId, running, DEGRADED, Some(snapshot));
    LostIsAccepted(setup, job, w, running, DEGRADED, Some(snapshot));
    DriveOn(setup, job, w, DegradedList(running, snapshot), choices);
    var u := w.(nextId := w.nextId + 1);
    DriveOn(setup, job, u, DegradedRecord(a), choices[1..]);
    AuditEnds(setup, job, ClosedBy(w, job.key, a), Propagate, Returned(RunDegraded, None), choices[1..][1..]);
  }

  lemma StillWorking(setup: Setup, job: Job, w: World, pc: Pc, running: Attempt)
    requires Ready(setup, job, w, pc)
    requires match pc
             case Fetch(r) => r == running
             case DegradedGet(r, _) => r == running
             case DegradedWrite(r, _, _, _) => r == running
             case DegradedList(r, _) => r == running
             case EvaluateGet(r, _) => r == running
             case Evaluate(r, _, _) => r == running
             case _ => false
    ensures Unstored(w, job.key) && Working(w, job.key, running)
  {
    hide WorldOk;
  }

  // Data that is not actionable

  /** The attempt of this world is closed, and nothing else of it changes but records and history. */
  ghost predicate Closes(job: Job, w: World, running: Attempt, status: AttemptStatus, evidence: Option<string>,
                         v: World)
  {
    var log := Log(w.scans, job.key);
    var a := LostAttempt(job, log, w.nextId, running, status, evidence);
    && v.scans == w.scans.(logs := w.scans.logs[job.key := log + [a]])
    && v.fetches == w.fetches && v.runs == w.runs && v.intents == w.intents && v.locks == w.locks - {job.key}
  }

  /** The degradation as the run reaches it, from the call that reads the record. */
  ghost predicate DegradesFrom(job: Job, w: World, running: Attempt, snapshot: string, end: (World, Pc)) {
    var p, current, v := job.key.plan, Read(w, job.key), end.0;
    var to := Degrades(current.status);
    if current.status.state == IDLE || to.Some? then
      && end.1 == Done(Returned(RunDegraded, None))
      && Closes(job, w, running, DEGRADED, Some(snapshot), v)
      && if current.status.state == IDLE then
           v.records == w.records[p := current] && History(v, p) == History(GetOrCreate(w, job.key), p)
         else
           var next := Record(to.value, current.revision + 1, None);
           v.records == w.records[p := next] && History(v, p) == History(w, p) + [Entry(next, job.key)]
    else
      && end.1 == Done(Returned(RunFailed, None))
      && Closes(job, w, running, FAILED, Some(snapshot), v)
      && v.records == w.records && v.history == w.history
  }

  lemma DegradesIsTheMachine(plan: Plan, from: Status)
    ensures var o := Transition(plan, DegradedRequest(from));
            from.state != IDLE ==> Degrades(from) == if o.Allowed? then Some(o.next) else None
  {
  }

  lemma {:induction false} DegradedGetEnds(setup: Setup, job: Job, w: World, running: Attempt, snapshot: string,
                                           choices: seq<Choice>)
    requires Ready(setup, job, w, DegradedGet(running, snapshot)) && Faultless(choices) && |choices| >= 6
    ensures DegradesFrom(job, w, running, snapshot,
                         Drive(setup, job, w, DegradedGet(running, snapshot), choices))
  {
    hide WorldOk, Local, Drive, Ready, Transition, Degrades, LostAttempt, Working, Unstored;
    OnOwnPlan(setup, job, w, DegradedGet(running, snapshot));
    StillWorking(setup, job, w, DegradedGet(running, snapshot), running);
    var current := Read(w, job.key);
    DegradesIsTheMachine(setup.plans[job.key.plan], current.status);
    DriveOn(setup, job, w, DegradedGet(running, snapshot), choices);
    var u := GetOrCreate(w, job.key);
    if current.status.state == IDLE {
      DegradationEnds(setup, job, u, running, snapshot, choices[1..]);
    } else if Degrades(current.status).None? {
      SameScans(w, u, job.key, running);
      FailureEnds(setup, job, u, running, Some(snapshot), choices[1..]);
    } else {
      DegradedWriteEnds(setup, job, u, running, snapshot, current, Degrades(current.status).value, choices[1..]);
    }
  }

  lemma {:induction false} DegradedWriteEnds(setup: Setup, job: Job, w: World, running: Attempt, snapshot: string,
                                             current: Record, to: Status, choices: seq<Choice>)
    requires Ready(setup, job, w, DegradedWrite(running, snapshot, current, to)) && Faultless(choices)
    requires |choices| >= 5 && job.key.plan in w.records && w.records[job.key.plan] == current
    ensures var end := Drive(setup, job, w, DegradedWrite(running, snapshot, current, to), choices);
            var next := Record(to, current.revision + 1, None);
            && end.1 == Done(Returned(RunDegraded, None))
            && Closes(job, w, running, DEGRADED, Some(snapshot), end.0)
            && end.0.records == w.records[job.key.plan := next]
            && History(end.0, job.key.plan) == History(w, job.key.plan) + [Entry(next, job.key)]
  {
    hide WorldOk, Local, Drive, Ready, LostAttempt, Working, Unstored;
    OnOwnPlan(setup, job, w, DegradedWrite(running, snapshot, current, to));
    DriveOn(setup, job, w, DegradedWrite(running, snapshot, current, to), choices);
    var records := Transitioned(w.records, job.key.plan, current, to, None).value;
    DegradationEnds(setup, job, WithRecords(w, job.key, records), running, snapshot, choices[1..]);
  }

  lemma SameScans(w: World, v: World, k: ScanKey, running: Attempt)
    requires v.scans == w.scans && v.runs == w.runs && Unstored(w, k) && Working(w, k, running)
    ensures Unstored(v, k) && Working(v, k, running)
  {
  }

  /** Closing the attempt that a run started makes the scan grow by both. */
  lemma ClosingGrows(setup: Setup, job: Job, w: World, u: World, status: AttemptStatus, evidence: Option<string>,
                     v: World)
    requires WorldOk(setup, w) && job.key !in w.locks
    requires u == Started(job, w).(fetches := w.fetches[job.key := FetchCount(w, job.key) + 1])
    requires Closes(job, u, StartedAttempt(job, w), status, evidence, v)
    ensures Attempted(job, w, v, status, evidence)
  {
    hide WorldOk;
    var k := job.key;
    var log := Log(w.scans, k);
    assert v.scans.logs == w.scans.logs[k := Log(v.scans, k)];
    assert v.locks == w.locks;
    assert Log(v.scans, k)[..|log|] == log;
  }

  /** From every reachable state in which the scan may be attempted, such a run on a snapshot that is not
      actionable degrades the record of its plan as the table says, and closes its attempt. */
  lemma {:induction false} DegradedRun(setup: Setup, actions: seq<Action>, job: Job, choices: seq<Choice>)
    requires job.key.plan in setup.plans && Faultless(choices) && |choices| >= 14
    requires Attemptable(setup, Reached(setup, actions), job.key)
    requires var fetched := choices[FetchAt(Reached(setup, actions), job.key)].fetched;
             fetched.Snapshot? && !fetched.actionable
    ensures var w := Reached(setup, actions);
            DegradesPlan(job, w, choices[FetchAt(w, job.key)].fetched.id, Drive(setup, job, w, Acquire, choices))
  {
    hide WorldOk, Local, Drive, Ready, Attempted, Execute, StartedAttempt, Attemptable, Degrades, Closes;
    ReachedOk(setup, actions);
    var w, k := Reached(setup, actions), job.key;
    ReachesFetch(setup, job, w, choices);
    var a, rest := StartedAttempt(job, w), choices[FetchAt(w, k)..];
    DriveOn(setup, job, Started(job, w), Fetch(a), rest);
    var u := Started(job, w).(fetches := w.fetches[k := FetchCount(w, k) + 1]);
    DegradedGetEnds(setup, job, u, a, rest[0].fetched.id, rest[1..]);
    IsAttemptable(setup, w, k);
    var end := Drive(setup, job, w, Acquire, choices);
    if end.1 == Done(Returned(RunDegraded, None)) {
      ClosingGrows(setup, job, w, u, DEGRADED, Some(rest[0].fetched.id), end.0);
    } else {
      ClosingGrows(setup, job, w, u, FAILED, Some(rest[0].fetched.id), end.0);
    }
  }

  lemma IsAttemptable(setup: Setup, w: World, k: ScanKey)
    requires Attemptable(setup, w, k)
    ensures k !in w.locks
  {
  }

  // Failures of the provider and of the evaluator

  lemma {:induction false} NoSnapshotEnds(setup: Setup, job: Job, w: World, running: Attempt, choices: seq<Choice>)
    requires Ready(setup, job, w, Fetch(running)) && Faultless(choices) && |choices| >= 5
    requires !choices[0].fetched.Snapshot?
    ensures var end := Drive(setup, job, w, Fetch(running), choices);
            && end.1 == Done(Returned(RunFailed, None))
            && Closes(job, w.(fetches := w.fetches[job.key := FetchCount(w, job.key) + 1]), running, FAILED, None,
                      end.0)
            && end.0.records == w.records && end.0.history == w.history
  {
    hide WorldOk, Local, Drive, Ready, LostAttempt, Working, Unstored;
    OnOwnPlan(setup, job, w, Fetch(running));
    StillWorking(setup, job, w, Fetch(running), running);
    DriveOn(setup, job, w, Fetch(running), choices);
    var u := w.(fetches := w.fetches[job.key := FetchCount(w, job.key) + 1]);
    SameScans(w, u, job.key, running);
    FailureEnds(setup, job, u, running, None, choices[1..]);
  }

  lemma {:induction false} NoCandidateEnds(setup: Setup, job: Job, w: World, running: Attempt, snapshot: string,
                                           choices: seq<Choice>)
    requires Ready(setup, job, w, EvaluateGet(running, snapshot)) && Faultless(choices) && |choices| >= 6
    requires job.key.plan in setup.plans
    requires Proposed(setup, job, w, Snapshot(snapshot, true), choices[1].evaluation, w.nextId).None?
    ensures var end := Drive(setup, job, w, EvaluateGet(running, snapshot), choices);
            && end.1 == Done(Returned(RunFailed, None))
            && Closes(job, w, running, FAILED, Some(snapshot), end.0)
            && end.0.records == Ensured(w.records, job.key.plan)
            && end.0.history == GetOrCreate(w, job.key).history
  {
    hide WorldOk, Local, Drive, Ready, LostAttempt, Working, Unstored, Candidate;
    StillWorking(setup, job, w, EvaluateGet(running, snapshot), running);
    DriveOn(setup, job, w, EvaluateGet(running, snapshot), choices);
    var u := GetOrCreate(w, job.key);
    SameScans(w, u, job.key, running);
    DriveOn(setup, job, u, Evaluate(running, snapshot, Read(w, job.key)), choices[1..]);
    FailureEnds(setup, job, u, running, Some(snapshot), choices[1..][1..]);
  }

  /** From such a state, a run whose provider fails, or whose evaluation yields no candidate for the record
      as it stands, fails its attempt: without evidence in the first case, with the snapshot in the second.
      No record is changed; the evaluation may have created the idle one. */
  lemma {:induction false} FailedRun(setup: Setup, actions: seq<Action>, job: Job, choices: seq<Choice>)
    requires job.key.plan in setup.plans && Faultless(choices) && |choices| >= 14
    requires Attemptable(setup, Reached(setup, actions), job.key)
    ensures var w, end := Reached(setup, actions), Drive(setup, job, Reached(setup, actions), Acquire, choices);
            var at := FetchAt(w, job.key);
            var fetched := choices[at].fetched;
            && (!fetched.Snapshot? ==>
                  && end.1 == Done(Returned(RunFailed, None))
                  && Attempted(job, w, end.0, FAILED, None)
                  && end.0.records == w.records && end.0.history == w.history)
            && (fetched.Snapshot? && fetched.actionable
                && Proposed(setup, job, w, fetched, choices[at + 2].evaluation, w.nextId + 1).None? ==>
                  && end.1 == Done(Returned(RunFailed, None))
                  && Attempted(job, w, end.0, FAILED, Some(fetched.id))
                  && end.0.records == Ensured(w.records, job.key.plan)
                  && end.0.history == GetOrCreate(w, job.key).history)
  {
    hide WorldOk, Local, Drive, Ready, Attempted, Execute, StartedAttempt, Attemptable, Closes, Candidate;
    ReachedOk(setup, actions);
    var w, k := Reached(setup, actions), job.key;
    ReachesFetch(setup, job, w, choices);
    IsAttemptable(setup, w, k);
    var a, rest := StartedAttempt(job, w), choices[FetchAt(w, k)..];
    var u := Started(job, w).(fetches := w.fetches[k := FetchCount(w, k) + 1]);
    var end := Drive(setup, job, w, Acquire, choices);
    if !rest[0].fetched.Snapshot? {
      NoSnapshotEnds(setup, job, Started(job, w), a, rest);
      ClosingGrows(setup, job, w, u, FAILED, None, end.0);
    } else if rest[0].fetched.actionable
              && Proposed(setup, job, w, rest[0].fetched, rest[2].evaluation, w.nextId + 1).None? {
      DriveOn(setup, job, Started(job, w), Fetch(a), rest);
      assert rest[1..][1] == rest[2] && rest[0].fetched == Snapshot(rest[0].fetched.id, true);
      NoCandidateEnds(setup, job, u, a, rest[0].fetched.id, rest[1..]);
      ClosingGrows(setup, job, w, u, FAILED, Some(rest[0].fetched.id), end.0);
    }
  }

  /** What an evaluation proposes: the event, with the position and the quantity it cites. */
  function Asked(current: Status, e: Evaluation): Request {
    Request(current, e.event, e.guards, e.source,
            if e.event == DecisionValidated && e.guards.sizing == SizingPassed && e.sizing.Some? then
              Some(e.sizing.value.quantity)
            else None)
  }

  /** When an evaluation yields a candidate, and which: the snapshot is actionable, the event is evident
      and leads somewhere from the record as it stands, a position it cites can be sold from, and exactly
      for a passed sizing there is an actionable result for that position, of a quantity it has. The
      candidate takes the record where the table says, and notifies exactly if it is a decision that
      changes it. */
  lemma CandidateIsTheTable(setup: Setup, job: Job, w: World, fetched: Fetched, e: Evaluation, id: nat)
    requires job.key.plan in setup.plans
    ensures var run, plan, from := Proposed(setup, job, w, fetched, Some(e), id), setup.plans[job.key.plan],
                                   Read(w, job.key).status;
            var settled, to := from.state in SettledIn(e.event), Leads(e.event, from, e.guards.confirmation);
            var sized := e.event == DecisionValidated && e.guards.sizing == SizingPassed;
            && (run.Some? <==>
                  && fetched.Snapshot? && fetched.actionable
                  && Evident(Asked(from, e)) && (settled || to.Some?)
                  && (e.source.Some? ==> Sellable(plan, e.source.value))
                  && (e.event in {ActionSignal, DecisionValidated, NextStageEligible} ==> e.source.Some?)
                  && (sized <==> e.sizing.Some?)
                  && (sized ==>
                        && e.sizing.value.actionable && e.sizing.value.source == e.source.value.id
                        && 0.0 < e.sizing.value.quantity <= e.source.value.quantity))
            && (run.Some? ==>
                  run.value == Run(id, FinalKey(job.key, fetched.id), job.config, from,
                                   if settled then from else to.value, e.event == DecisionValidated && !settled))
  {
    hide Transition, Leads, SettledIn, Evident, Read;
    var plan, from := setup.plans[job.key.plan], Read(w, job.key).status;
    TransitionIsTheTable(plan, Asked(from, e));
    var p := Proposal(plan, from, e);
    if p.Some? {
      assert p.value == Asked(from, e);
    }
  }

  // Runs that attempt nothing

  /** A run of a scan that somebody else runs changes nothing. */
  lemma {:induction false} LockedRun(setup: Setup, job: Job, w: World, choices: seq<Choice>)
    requires job.key.plan in setup.plans && Faultless(choices) && |choices| >= 1 && job.key in w.locks
    ensures Drive(setup, job, w, Acquire, choices)
            == (w, Done(Returned(if job.trigger == Api then ApiConflict else SchedulerSkipped, None)))
  {
    assert choices[0].fault == NoFault;
    DoneRests(setup, job, w, Returned(if job.trigger == Api then ApiConflict else SchedulerSkipped, None),
              choices[1..]);
  }

  /** Out of attempts, a run only opens the scan where it is new. */
  lemma {:induction false} ExhaustedRun(setup: Setup, actions: seq<Action>, job: Job, choices: seq<Choice>)
    requires job.key.plan in setup.plans && Faultless(choices) && |choices| >= 7
    requires var w, k := Reached(setup, actions), job.key;
             && k !in w.locks && k !in w.runs.byScan && (k in w.scans.states ==> IsOpen(w, k))
             && RunningCount(Log(w.scans, k)) >= setup.maxFetches
    ensures var w := Reached(setup, actions);
            Drive(setup, job, w, Acquire, choices)
            == (w.(scans := Opened(w.scans, job.key)), Done(Returned(RetryExhausted, None)))
  {
    hide WorldOk, Local, Drive, LogOk, RunningCount, LostCount, LastFinal, Execute;
    ReachedOk(setup, actions);
    var w, k := Reached(setup, actions), job.key;
    MayStart(setup, job, w);
    var u := w.(locks := w.locks + {k});
    assert u.locks - {k} == w.locks;
    DriveOn(setup, job, w, Acquire, choices);
    DriveOn(setup, job, u, GetScan, choices[1..]);
    if k in w.scans.states {
      DriveOn(setup, job, u, GetPending, choices[1..][1..]);
      CountingEnds(setup, job, u, choices[1..][1..][1..]);
    } else {
      DriveOn(setup, job, u, CreateScan, choices[1..][1..]);
      var v := u.(scans := Opened(u.scans, k));
      DriveOn(setup, job, v, GetPending, choices[1..][1..][1..]);
      FreshLog(setup, w, k);
      CountingEnds(setup, job, v, choices[1..][1..][1..][1..]);
    }
  }

  lemma {:induction false} CountingEnds(setup: Setup, job: Job, w: World, choices: seq<Choice>)
    requires Ready(setup, job, w, CountFetches) && Faultless(choices) && |choices| >= 3
    requires RunningCount(Log(w.scans, job.key)) >= setup.maxFetches
    ensures Drive(setup, job, w, CountFetches, choices)
            == (w.(locks := w.locks - {job.key}), Done(Returned(RetryExhausted, None)))
  {
    hide WorldOk, Local, Drive, Ready, RunningCount;
    OnOwnPlan(setup, job, w, CountFetches);
    DriveOn(setup, job, w, CountFetches, choices);
    AuditEnds(setup, job, w, Propagate, Returned(RetryExhausted, None), choices[1..]);
  }

  /** A run of a completed scan answers with its stored run and the disposition of its last attempt, and
      changes nothing. */
  lemma {:induction false} ReplayedRun(setup: Setup, actions: seq<Action>, job: Job, choices: seq<Choice>)
    requires job.key.plan in setup.plans && Faultless(choices) && |choices| >= 6
    requires var w, k := Reached(setup, actions), job.key;
             k !in w.locks && k in w.scans.states && w.scans.states[k].Completed?
    ensures var w, k := Reached(setup, actions), job.key;
            var log := Log(w.scans, k);
            && log != [] && log[|log| - 1].disposition.Some? && k in w.runs.byScan
            && w.runs.byScan[k].id == w.scans.states[k].finalRun
            && Drive(setup, job, w, Acquire, choices)
               == (w, Done(Returned(Reported(log[|log| - 1].disposition.value), Some(w.runs.byScan[k]))))
  {
    hide WorldOk, Local, Drive, LogOk, CountsOk, RunOk, IntentOk, Finished, LastFinal, Execute;
    ReachedOk(setup, actions);
    var w, k := Reached(setup, actions), job.key;
    MayStart(setup, job, w);
    Own(setup, w, k);
    var u, run := w.(locks := w.locks + {k}), w.runs.byScan[k];
    assert u.locks - {k} == w.locks;
    LastFinalIsLast(Log(w.scans, k), run);
    DriveOn(setup, job, w, Acquire, choices);
    DriveOn(setup, job, u, GetScan, choices[1..]);
    DriveOn(setup, job, u, ReplayRun, choices[1..][1..]);
    DriveOn(setup, job, u, ReplayList(run), choices[1..][1..][1..]);
    var log := Log(w.scans, k);
    AuditEnds(setup, job, u, Propagate, Replayed(log[|log| - 1], run), choices[1..][1..][1..][1..]);
  }
}
