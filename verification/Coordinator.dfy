/** The coordinator as an object over the repositories: nested handlers and early returns, one
    repository call after another. Every run of it is a run of the step system. */
module Coordinator {
  import opened StateMachine
  import opened ScanLog
  import opened Stores
  import opened Protocol

  /** n steps of one coordinator, the i-th under choice first + i of the environment. */
  function Steps(setup: Setup, job: Job, w: World, environment: nat -> Choice, first: nat, n: nat): (World, Pc)
    requires job.key.plan in setup.plans
  {
    if n == 0 then (w, Acquire)
    else
      var (v, pc) := Steps(setup, job, w, environment, first, n - 1);
      Step(setup, job, v, pc, environment(first + n - 1))
  }

  lemma {:induction false} StepsBegin(setup: Setup, job: Job, w: World, environment: nat -> Choice, first: nat)
    requires job.key.plan in setup.plans
    ensures Steps(setup, job, w, environment, first, 0) == (w, Acquire)
  {
  }

  predicate AppendsAttempt(pc: Pc) {
    pc.RecordRunning? || pc.DegradedRecord? || pc.FailedRecord? || pc.FinalRecord? || pc.ReplayFinalRecord?
  }

  /** Where the code goes on after an attempt was appended. */
  function Appending(pc: Pc): Pc
    requires AppendsAttempt(pc)
  {
    match pc
    case RecordRunning(a) => Fetch(a)
    case DegradedRecord(_) => Audit(Propagate, Returned(RunDegraded, None))
    case FailedRecord(_) => Audit(Propagate, Returned(RunFailed, None))
    case FinalRecord(mode, run, d, _) => Attach(mode, run, d)
    case ReplayFinalRecord(run, _) => Audit(Propagate, Returned(RunCompleted, Some(run)))
  }

  lemma AppendCalls(setup: Setup, job: Job, w: World, pc: Pc, c: Choice)
    requires job.key.plan in setup.plans && AppendsAttempt(pc)
    ensures Call(setup, job, w, pc, c) == AppendCall(w, job.key, pc.attempt, Raise(pc), Appending(pc)) && !OnlyReads(pc)
  {
    hide EffectsRaise;
  }

  datatype Effects = Secured | Lost | Broken

  class RunCoordinator {
    const setup: Setup
    const environment: nat -> Choice
    const records: RecordStore
    const scans: ScanStore
    const runs: RunStore
    const intents: IntentStore
    const locks: LockStore
    var job: Job
    var calls: nat
    var nextId: nat
    ghost var history: map<nat, seq<Entry>>
    ghost var fetches: map<ScanKey, nat>
    ghost var start: World
    ghost var first: nat
    ghost var pc: Pc

    constructor (setup: Setup, environment: nat -> Choice, records: RecordStore, scans: ScanStore, runs: RunStore,
                 intents: IntentStore, locks: LockStore, request: Job, firstId: nat)
      ensures this.setup == setup && this.environment == environment && this.records == records
      ensures this.scans == scans && this.runs == runs && this.intents == intents && this.locks == locks
    {
      this.setup, this.environment, this.records, this.scans := setup, environment, records, scans;
      this.runs, this.intents, this.locks := runs, intents, locks;
      job, calls, nextId, history, fetches, pc := request, 0, firstId, map[], map[], Acquire;
    }

    ghost function View(): World
      reads this, records, scans, runs, intents, locks
    {
      World(records.records, scans.View(), runs.View(), intents.View(), locks.held, nextId, history, fetches)
    }

    /** The stores and the position in the code are where the step system would be. */
    ghost predicate Valid()
      reads this, records, scans, runs, intents, locks
    {
      && LogsChained(scans.View())
      && job.key.plan in setup.plans
      && first <= calls
      && Steps(setup, job, start, environment, first, calls - first) == (View(), pc)
    }

    /** One repository call has been made since the stores were w: it was the step of the system
        that leads to the given position. */
    ghost method Settle(w: World, next: Pc)
      requires LogsChained(scans.View()) && job.key.plan in setup.plans && first < calls
      requires Steps(setup, job, start, environment, first, calls - 1 - first) == (w, pc)
      requires Step(setup, job, w, pc, environment(calls - 1)) == (View(), next)
      modifies this`pc
      ensures Valid() && pc == next
    {
      hide Step;
      pc := next;
    }

    function Fate(): Fault
      reads this
    {
      environment(calls).fault
    }

    // Repository calls; `ok` is false where the call raises, before or after its effect

    method ListAttempts() returns (ok: bool, log: seq<Attempt>)
      requires LogsChained(scans.View())
      modifies this`calls
      ensures calls == old(calls) + 1 && ok == (old(Fate()) == NoFault) && log == Log(scans.View(), job.key)
    {
      ok := Fate() == NoFault;
      log := scans.ListAttempts(job.key);
      calls := calls + 1;
    }

    method GetScan() returns (ok: bool, scan: Option<ScanState>)
      modifies this`calls
      ensures calls == old(calls) + 1 && ok == (old(Fate()) == NoFault)
      ensures scan == if job.key in scans.View().states then Some(scans.View().states[job.key]) else None
    {
      ok := Fate() == NoFault;
      scan := scans.GetByLockKey(job.key);
      calls := calls + 1;
    }

    method CreateOrRecover() returns (ok: bool)
      requires LogsChained(scans.View())
      modifies this`calls, scans
      ensures calls == old(calls) + 1 && ok == (old(Fate()) == NoFault) && LogsChained(scans.View())
      ensures scans.View() == if old(Fate()) == Before then old(scans.View()) else Opened(old(scans.View()), job.key)
    {
      ok := Fate() == NoFault;
      if Fate() != Before {
        scans.CreateOrRecover(job.key);
      }
      calls := calls + 1;
    }

    method GetStoredRun() returns (ok: bool, run: Option<Run>)
      modifies this`calls
      ensures calls == old(calls) + 1 && ok == (old(Fate()) == NoFault)
      ensures run == if job.key in runs.View().byScan then Some(runs.View().byScan[job.key]) else None
    {
      ok := Fate() == NoFault;
      run := runs.GetForLogicalScan(job.key);
      calls := calls + 1;
    }

    method RecordAttempt(a: Attempt) returns (ok: bool)
      requires LogsChained(scans.View())
      modifies this`calls, scans
      ensures var after := Appended(old(scans.View()), runs.View(), job.key, a);
              && calls == old(calls) + 1 && ok == (old(Fate()) == NoFault && after.Some?) && LogsChained(scans.View())
              && scans.View() == if old(Fate()) == Before || after.None? then old(scans.View()) else after.value
    {
      hide WellFormed, AppendAllowed, ReferencesExist, Chained, Numbered;
      ok := false;
      if Fate() != Before {
        ok := scans.RecordAttempt(job.key, a, runs);
      }
      ok := ok && Fate() == NoFault;
      calls := calls + 1;
    }

    method AttachRun(run: Run) returns (ok: bool)
      requires LogsChained(scans.View())
      modifies this`calls, scans
      ensures var after := Attached(old(scans.View()), runs.View(), job.key, run.id);
              && calls == old(calls) + 1 && ok == (old(Fate()) == NoFault && after.Some?) && LogsChained(scans.View())
              && scans.View() == if old(Fate()) == Before || after.None? then old(scans.View()) else after.value
    {
      hide Chained, Numbered, LastFinal;
      ok := false;
      if Fate() != Before {
        ok := scans.AttachFinalStrategyRun(job.key, run.id, runs);
      }
      ok := ok && Fate() == NoFault;
      calls := calls + 1;
    }

    method GetOrCreateRecord() returns (ok: bool, current: Record)
      modifies this`calls, this`history, records
      ensures calls == old(calls) + 1 && ok == (old(Fate()) == NoFault)
      ensures old(Fate()) == Before ==> records.records == old(records.records) && history == old(history)
      ensures old(Fate()) != Before ==>
                View() == GetOrCreate(old(View()), job.key) && current == Read(old(View()), job.key)
    {
      ghost var w := View();
      ok := Fate() == NoFault;
      if Fate() != Before {
        history := GetOrCreate(w, job.key).history;
        current := records.GetOrCreate(job.key.plan);
      } else {
        current := Record(Status(IDLE, false), 0, None);
      }
      calls := calls + 1;
    }

    method RecordTransition(previous: Record, next: Status, fence: Option<Fence>) returns (ok: bool)
      modifies this`calls, this`history, records
      ensures calls == old(calls) + 1
      ensures var w := old(View());
              var after := Transitioned(w.records, job.key.plan, previous, next, fence);
              && ok == (old(Fate()) == NoFault && after.Some?)
              && View() == if old(Fate()) == Before || after.None? then w else WithRecords(w, job.key, after.value)
    {
      ghost var w := View();
      ok := false;
      if Fate() != Before {
        ok := records.RecordTransition(job.key.plan, previous, next, fence);
        if ok {
          history := WithRecords(w, job.key, records.records).history;
        }
      }
      ok := ok && Fate() == NoFault;
      calls := calls + 1;
    }

    method RecordRun(run: Run) returns (ok: bool)
      modifies this`calls, runs
      ensures var after := RunStored(old(runs.View()), scans.View(), run, job.key);
              && calls == old(calls) + 1 && ok == (old(Fate()) == NoFault && after.Some?)
              && runs.View() == if old(Fate()) == Before || after.None? then old(runs.View()) else after.value.0
    {
      ok := false;
      if Fate() != Before {
        ok := runs.RecordOrGet(run, job.key, scans);
      }
      ok := ok && Fate() == NoFault;
      calls := calls + 1;
    }

    method RecordIntent(run: Run) returns (ok: bool)
      modifies this`calls, intents
      ensures var after := IntentStored(old(intents.View()), runs.View(), IntentOf(run));
              && calls == old(calls) + 1 && ok == (old(Fate()) == NoFault && after.Some?)
              && intents.View() == if old(Fate()) == Before || after.None? then old(intents.View()) else after.value
    {
      ok := false;
      if Fate() != Before {
        ok := intents.RecordOrGet(IntentOf(run), runs);
      }
      ok := ok && Fate() == NoFault;
      calls := calls + 1;
    }

    method ListIntents(run: Run) returns (ok: bool, found: seq<FinalKey>)
      modifies this`calls
      ensures calls == old(calls) + 1 && ok == (old(Fate()) == NoFault) && found == MatchingIntents(intents.View(), run)
    {
      ok := Fate() == NoFault;
      found := intents.ListMatching(run);
      calls := calls + 1;
    }

    method FetchSnapshot() returns (ok: bool, fetched: Fetched)
      modifies this`calls, this`fetches
      ensures calls == old(calls) + 1 && ok == (old(Fate()) == NoFault) && fetched == environment(old(calls)).fetched
      ensures fetches == if old(Fate()) == Before then old(fetches)
                         else old(fetches)[job.key := FetchCount(old(View()), job.key) + 1]
    {
      ok, fetched := Fate() == NoFault, environment(calls).fetched;
      if Fate() != Before {
        fetches := fetches[job.key := FetchCount(View(), job.key) + 1];
      }
      calls := calls + 1;
    }

    /** A call that leaves the stores alone: evaluating, or rendering a result's audit. */
    method Consult() returns (ok: bool, evaluation: Option<Evaluation>)
      modifies this`calls
      ensures calls == old(calls) + 1 && ok == (old(Fate()) == NoFault)
      ensures evaluation == environment(old(calls)).evaluation
    {
      ok, evaluation := Fate() == NoFault, environment(calls).evaluation;
      calls := calls + 1;
    }

    method AcquireLock() returns (ok: bool, lease: bool)
      modifies this`calls, locks
      ensures calls == old(calls) + 1 && ok == (old(Fate()) == NoFault)
      ensures old(Fate()) != Before ==> lease == (job.key !in old(locks.held))
      ensures locks.held == if old(Fate()) == Before || job.key in old(locks.held) then old(locks.held)
                            else old(locks.held) + {job.key}
    {
      ok, lease := Fate() == NoFault, false;
      if Fate() != Before {
        lease := locks.Acquire(job.key);
        assert job.key in old(locks.held) ==> locks.held == old(locks.held);
      }
      calls := calls + 1;
    }

    method ReleaseLock() returns (ok: bool)
      modifies this`calls, locks
      ensures calls == old(calls) + 1 && ok == (old(Fate()) == NoFault)
      ensures locks.held == if old(Fate()) == Before then old(locks.held) else old(locks.held) - {job.key}
    {
      ok := Fate() == NoFault;
      if Fate() != Before {
        locks.Release(job.key);
      }
      calls := calls + 1;
    }

    // The coordinator

    /** Runs one scan. From the stores as they stand it takes exactly the steps of the system, until
        it returns, or raises, what the system ends with. */
    method Run(request: Job) returns (result: Result)
      requires LogsChained(scans.View()) && request.key.plan in setup.plans
      modifies this, records, scans, runs, intents, locks
      ensures calls >= old(calls)
      ensures Steps(setup, request, old(View()), environment, old(calls), calls - old(calls)) == (View(), Done(result))
      ensures LogsChained(scans.View())
    {
      hide LogsChained, Step, Steps, View;
      Begin(request);
      var ok, lease := TakeLock();
      if !ok {
        return Raised;
      }
      if !lease {
        return Returned(if job.trigger == Api then ApiConflict else SchedulerSkipped, None);
      }
      result := RunLocked();
      result := GiveBack(result);
    }

    method Begin(request: Job)
      requires LogsChained(scans.View()) && request.key.plan in setup.plans
      modifies this
      ensures Valid() && pc == Acquire && job == request && start == old(View()) && first == calls == old(calls)
    {
      hide LogsChained, Step, Steps;
      job, start, first, pc := request, View(), calls, Acquire;
      StepsBegin(setup, job, start, environment, first);
    }

    method TakeLock() returns (ok: bool, lease: bool)
      requires Valid() && pc == Acquire
      modifies this`calls, this`pc, locks
      ensures Valid() && calls >= old(calls)
      ensures pc == if !ok then Done(Raised)
                    else if lease then Protocol.GetScan
                    else Done(Returned(if job.trigger == Api then ApiConflict else SchedulerSkipped, None))
    {
      hide LogsChained, Steps;
      ghost var w := View();
      ok, lease := AcquireLock();
      Settle(w, if !ok then Done(Raised)
                else if lease then Protocol.GetScan
                else Done(Returned(if job.trigger == Api then ApiConflict else SchedulerSkipped, None)));
    }

    /** The lock is given back whatever happened; an exception here hides the result. */
    method GiveBack(earned: Result) returns (result: Result)
      requires Valid() && pc == Release(earned)
      modifies this`calls, this`pc, locks
      ensures Valid() && pc == Done(result) && calls >= old(calls)
    {
      hide LogsChained, Steps;
      ghost var w := View();
      var ok := ReleaseLock();
      result := if ok then earned else Raised;
      Settle(w, Done(result));
    }

    /** The part between taking the lock and giving it back. */
    method RunLocked() returns (result: Result)
      requires Valid() && pc == Protocol.GetScan
      modifies this`calls, this`nextId, this`history, this`fetches, this`pc, records, scans, runs, intents
      ensures Valid() && pc == Release(result) && calls >= old(calls)
    {
      hide LogsChained, Steps;
      ghost var w := View();
      var ok, scan := GetScan();
      if !ok {
        Settle(w, BROKEN);
        return Raised;
      }
      if scan.Some? && scan.value.Completed? {
        Settle(w, ReplayRun);
        result := CompletedResult();
        return;
      }
      if scan.None? {
        Settle(w, CreateScan);
        ok := OpenScan();
        if !ok {
          return Raised;
        }
      } else {
        Settle(w, GetPending);
      }
      result := RunOpen();
    }

    method OpenScan() returns (ok: bool)
      requires Valid() && pc == CreateScan
      modifies this`calls, this`nextId, this`history, this`fetches, this`pc, records, scans, runs, intents
      ensures Valid() && pc == (if ok then GetPending else BROKEN) && calls >= old(calls)
    {
      hide LogsChained, Steps, Opened;
      ghost var w := View();
      ok := CreateOrRecover();
      Settle(w, if ok then GetPending else BROKEN);
    }

    /** A stored candidate is recovered; otherwise a provider attempt is made if one is left. */
    method RunOpen() returns (result: Result)
      requires Valid() && pc == GetPending
      modifies this`calls, this`nextId, this`history, this`fetches, this`pc, records, scans, runs, intents
      ensures Valid() && pc == Release(result) && calls >= old(calls)
    {
      hide LogsChained, Steps;
      ghost var w := View();
      var ok, pending := GetStoredRun();
      if !ok {
        Settle(w, BROKEN);
        return Raised;
      }
      if pending.Some? {
        Settle(w, FindApplied(pending.value));
        result := RecoverPendingFinalization(pending.value);
        return;
      }
      Settle(w, CountFetches);
      result := RunAttempt();
    }

    method RunAttempt() returns (result: Result)
      requires Valid() && pc == CountFetches
      modifies this`calls, this`nextId, this`history, this`fetches, this`pc, records, scans, runs, intents
      ensures Valid() && pc == Release(result) && calls >= old(calls)
    {
      hide LogsChained, Steps;
      ghost var w := View();
      var ok, log := ListAttempts();
      if !ok {
        Settle(w, BROKEN);
        return Raised;
      }
      var count := CountRunning(log);
      if count >= setup.maxFetches {
        Settle(w, Audit(Propagate, Returned(RetryExhausted, None)));
        result := Audited(Returned(RetryExhausted, None));
        return;
      }
      Settle(w, ListForRunning);
      var running;
      ok, running := RecordRunningAttempt();
      if !ok {
        return Raised;
      }
      result := Attempted(running);
    }

    method CountRunning(log: seq<Attempt>) returns (count: nat)
      ensures count == RunningCount(log)
    {
      count := 0;
      for i := 0 to |log|
        invariant count == RunningCount(log[..i])
      {
        assert log[..i + 1][..i] == log[..i];
        if log[i].status == RUNNING {
          count := count + 1;
        }
      }
      assert log[..|log|] == log;
    }

    /** The last call before a result is returned. */
    method Audited(rendered: Result) returns (result: Result)
      requires Valid() && pc == Audit(Propagate, rendered)
      modifies this`calls, this`nextId, this`history, this`fetches, this`pc, records, scans, runs, intents
      ensures Valid() && pc == Release(result) && calls >= old(calls)
    {
      hide LogsChained, Steps;
      ghost var w := View();
      var ok, _ := Consult();
      result := if ok then rendered else Raised;
      Settle(w, Release(result));
    }

    method RecordRunningAttempt() returns (ok: bool, attempt: Attempt)
      requires Valid() && pc == ListForRunning
      modifies this`calls, this`nextId, this`history, this`fetches, this`pc, records, scans, runs, intents
      ensures Valid() && pc == (if ok then Fetch(attempt) else BROKEN) && calls >= old(calls)
    {
      hide LogsChained, Step, Steps;
      ok, attempt := DrawRunningAttempt();
      if ok {
        ok := StoreAttempt(attempt);
      }
    }

    method DrawRunningAttempt() returns (ok: bool, attempt: Attempt)
      requires Valid() && pc == ListForRunning
      modifies this`calls, this`nextId, this`history, this`fetches, this`pc, records, scans, runs, intents
      ensures Valid() && pc == (if ok then RecordRunning(attempt) else BROKEN) && calls >= old(calls)
    {
      hide LogsChained, Steps;
      ghost var w := View();
      var log;
      ok, log := ListAttempts();
      attempt := RunningAttempt(job, log, nextId);
      if !ok || (log != [] && log[|log| - 1].status == SUCCEEDED) {
        ok := false;
        Settle(w, BROKEN);
        return;
      }
      nextId := nextId + 1;
      Settle(w, RecordRunning(attempt));
    }

    /** Everything after the provider attempt is on record. */
    method Attempted(running: Attempt) returns (result: Result)
      requires Valid() && pc == Fetch(running)
      modifies this`calls, this`nextId, this`history, this`fetches, this`pc, records, scans, runs, intents
      ensures Valid() && pc == Release(result) && calls >= old(calls)
    {
      hide LogsChained, Steps;
      ghost var w := View();
      var ok, fetched := FetchSnapshot();
      if !ok || !fetched.Snapshot? {
        Settle(w, FailedList(running, None));
        result := FailedResult(running, None);
        return;
      }
      if fetched.actionable {
        Settle(w, EvaluateGet(running, fetched.id));
        result := Evaluated(running, fetched.id);
      } else {
        Settle(w, DegradedGet(running, fetched.id));
        result := DegradedResult(running, fetched.id);
      }
    }

    method FailedResult(running: Attempt, evidence: Option<string>) returns (result: Result)
      requires Valid() && pc == FailedList(running, evidence)
      modifies this`calls, this`nextId, this`history, this`fetches, this`pc, records, scans, runs, intents
      ensures Valid() && pc == Release(result) && calls >= old(calls)
    {
      hide LogsChained, Step, Steps, LostAttempt;
      var ok, attempt := DrawLostAttempt(running, FAILED, evidence);
      if ok {
        ok := StoreAttempt(attempt);
      }
      if !ok {
        return Raised;
      }
      result := Audited(Returned(RunFailed, None));
    }

    /** The terminal attempt of a provider attempt that ended without a result. */
    method DrawLostAttempt(running: Attempt, status: AttemptStatus, evidence: Option<string>)
      returns (ok: bool, attempt: Attempt)
      requires Valid()
      requires (status == FAILED && pc == FailedList(running, evidence))
            || (status == DEGRADED && evidence.Some? && pc == DegradedList(running, evidence.value))
      modifies this`calls, this`nextId, this`history, this`fetches, this`pc, records, scans, runs, intents
      ensures Valid() && calls >= old(calls)
      ensures pc == if !ok then BROKEN else if status == FAILED then FailedRecord(attempt) else DegradedRecord(attempt)
    {
      hide LogsChained, Steps;
      ghost var w := View();
      var log;
      ok, log := ListAttempts();
      attempt := LostAttempt(job, log, nextId, running, status, evidence);
      if ok {
        nextId := nextId + 1;
      }
      Settle(w, if !ok then BROKEN else if status == FAILED then FailedRecord(attempt) else DegradedRecord(attempt));
    }

    /** A snapshot that is not actionable moves any plan that left IDLE to its degraded state. */
    method DegradedResult(running: Attempt, snapshot: string) returns (result: Result)
      requires Valid() && pc == DegradedGet(running, snapshot)
      modifies this`calls, this`nextId, this`history, this`fetches, this`pc, records, scans, runs, intents
      ensures Valid() && pc == Release(result) && calls >= old(calls)
    {
      hide LogsChained, Steps;
      var ok := DegradeRecord(running, snapshot);
      result := if ok then Returned(RunDegraded, None) else Raised;
      if !ok {
        result := FailedResult(running, Some(snapshot));
        return;
      }
      result := DegradedAttempt(running, snapshot);
    }

    method DegradeRecord(running: Attempt, snapshot: string) returns (ok: bool)
      requires Valid() && pc == DegradedGet(running, snapshot)
      modifies this`calls, this`nextId, this`history, this`fetches, this`pc, records, scans, runs, intents
      ensures Valid() && calls >= old(calls)
      ensures pc == if ok then DegradedList(running, snapshot) else FailedList(running, Some(snapshot))
    {
      hide LogsChained, Steps, Transition;
      ghost var w := View();
      var current;
      ok, current := GetOrCreateRecord();
      if !ok {
        Settle(w, FailedList(running, Some(snapshot)));
        return;
      }
      if current.status.state == IDLE {
        Settle(w, DegradedList(running, snapshot));
        return;
      }
      var outcome := Transition(setup.plans[job.key.plan], DegradedRequest(current.status));
      if outcome.Refused? {
        ok := false;
        Settle(w, FailedList(running, Some(snapshot)));
        return;
      }
      Settle(w, DegradedWrite(running, snapshot, current, outcome.next));
      ok := WriteDegraded(running, snapshot, current, outcome.next);
    }

    method WriteDegraded(running: Attempt, snapshot: string, current: Record, next: Status) returns (ok: bool)
      requires Valid() && pc == DegradedWrite(running, snapshot, current, next)
      modifies this`calls, this`nextId, this`history, this`fetches, this`pc, records, scans, runs, intents
      ensures Valid() && calls >= old(calls)
      ensures pc == if ok then DegradedList(running, snapshot) else FailedList(running, Some(snapshot))
    {
      hide LogsChained, Steps;
      ghost var w := View();
      ok := RecordTransition(current, next, None);
      Settle(w, if ok then DegradedList(running, snapshot) else FailedList(running, Some(snapshot)));
    }

    method DegradedAttempt(running: Attempt, snapshot: string) returns (result: Result)
      requires Valid() && pc == DegradedList(running, snapshot)
      modifies this`calls, this`nextId, this`history, this`fetches, this`pc, records, scans, runs, intents
      ensures Valid() && pc == Release(result) && calls >= old(calls)
    {
      hide LogsChained, Step, Steps, LostAttempt;
      var ok, attempt := DrawLostAttempt(running, DEGRADED, Some(snapshot));
      if ok {
        ok := StoreAttempt(attempt);
      }
      if !ok {
        return Raised;
      }
      result := Audited(Returned(RunDegraded, None));
    }

    method Evaluated(running: Attempt, snapshot: string) returns (result: Result)
      requires Valid() && pc == EvaluateGet(running, snapshot)
      modifies this`calls, this`nextId, this`history, this`fetches, this`pc, records, scans, runs, intents
      ensures Valid() && pc == Release(result) && calls >= old(calls)
    {
      hide LogsChained, Steps;
      var stored := StoreCandidate(running, snapshot);
      if stored.Some? {
        result := FinishFresh(running, snapshot, stored.value);
      } else {
        result := FailedResult(running, Some(snapshot));
      }
    }

    method StoreCandidate(running: Attempt, snapshot: string) returns (stored: Option<Run>)
      requires Valid() && pc == EvaluateGet(running, snapshot)
      modifies this`calls, this`nextId, this`history, this`fetches, this`pc, records, scans, runs, intents
      ensures Valid() && calls >= old(calls)
      ensures pc == match stored
                    case Some(run) => EffectsGet(Fresh(running), run)
                    case None => FailedList(running, Some(snapshot))
      ensures stored.Some? ==> stored.value.key.snapshot == snapshot
    {
      hide LogsChained, Steps, Candidate, Transition;
      ghost var w := View();
      var ok, current := GetOrCreateRecord();
      if !ok {
        Settle(w, FailedList(running, Some(snapshot)));
        return None;
      }
      Settle(w, Evaluate(running, snapshot, current));
      stored := EvaluateCandidate(running, snapshot, current);
      if stored.Some? {
        ok := StoreEvaluated(running, stored.value);
        stored := if ok then stored else None;
      }
    }

    method EvaluateCandidate(running: Attempt, snapshot: string, current: Record) returns (candidate: Option<Run>)
      requires Valid() && pc == Evaluate(running, snapshot, current)
      modifies this`calls, this`nextId, this`history, this`fetches, this`pc, records, scans, runs, intents
      ensures Valid() && calls >= old(calls)
      ensures pc == match candidate
                    case Some(run) => StoreRun(running, run)
                    case None => FailedList(running, Some(snapshot))
      ensures candidate.Some? ==> candidate.value.key.snapshot == snapshot
    {
      hide LogsChained, Steps, Transition, Proposal;
      ghost var w := View();
      var ok, evaluation := Consult();
      candidate := if !ok || evaluation.None? then None
                   else Candidate(setup.plans[job.key.plan], job, snapshot, current, evaluation.value, nextId);
      if candidate.None? {
        Settle(w, FailedList(running, Some(snapshot)));
        return;
      }
      nextId := nextId + 1;
      Settle(w, StoreRun(running, candidate.value));
    }

    method StoreEvaluated(running: Attempt, run: Run) returns (ok: bool)
      requires Valid() && pc == StoreRun(running, run)
      modifies this`calls, this`nextId, this`history, this`fetches, this`pc, records, scans, runs, intents
      ensures Valid() && calls >= old(calls)
      ensures pc == if ok then EffectsGet(Fresh(running), run) else FailedList(running, Some(run.key.snapshot))
    {
      hide LogsChained, Steps;
      ghost var w := View();
      ok := RecordRun(run);
      Settle(w, if ok then EffectsGet(Fresh(running), run) else FailedList(running, Some(run.key.snapshot)));
    }

    /** The finish of a candidate just stored: what fails before its final attempt is on record
        fails the attempt, and what fails after it leaves the scan to be recovered. */
    method FinishFresh(running: Attempt, snapshot: string, run: Run) returns (result: Result)
      requires Valid() && pc == EffectsGet(Fresh(running), run) && run.key.snapshot == snapshot
      modifies this`calls, this`nextId, this`history, this`fetches, this`pc, records, scans, runs, intents
      ensures Valid() && pc == Release(result) && calls >= old(calls)
    {
      hide LogsChained, Steps, Step;
      var effects := EnsureFinalizationEffects(Fresh(running), run);
      if effects == Lost {
        var ok;
        ok, result := FinalizeSupersededCandidate(Fresh(running), run);
        if !ok {
          result := FailedResult(running, Some(snapshot));
        }
        return;
      }
      var ok := effects == Secured;
      if ok {
        ok := RecordRecoveredFinalAttempt(Fresh(running), run, Applied);
      }
      if !ok {
        result := FailedResult(running, Some(snapshot));
        return;
      }
      result := AttachAndReport(Fresh(running), run);
    }

    method AttachAndReport(ghost mode: Mode, run: Run) returns (result: Result)
      requires Valid() && pc == Attach(mode, run, Applied)
      modifies this`calls, this`nextId, this`history, this`fetches, this`pc, records, scans, runs, intents
      ensures Valid() && pc == Release(result) && calls >= old(calls)
    {
      hide LogsChained, Steps, Step;
      var ok := AttachFinalRun(mode, run, Applied);
      result := Audited(if ok then Returned(RunCompleted, Some(run)) else PENDING);
    }

    /** The finish of a candidate that an earlier run stored. */
    method RecoverPendingFinalization(run: Run) returns (result: Result)
      requires Valid() && pc == FindApplied(run)
      modifies this`calls, this`nextId, this`history, this`fetches, this`pc, records, scans, runs, intents
      ensures Valid() && pc == Release(result) && calls >= old(calls)
    {
      hide LogsChained, Steps, Step;
      var ok, applied := ExistingAppliedFinalization(run);
      if !ok {
        result := Audited(PENDING);
      } else if applied {
        result := AttachAndReport(Recovering, run);
      } else {
        result := Readjudicate(run);
      }
    }

    method Readjudicate(run: Run) returns (result: Result)
      requires Valid() && pc == EffectsGet(Recovering, run)
      modifies this`calls, this`nextId, this`history, this`fetches, this`pc, records, scans, runs, intents
      ensures Valid() && pc == Release(result) && calls >= old(calls)
    {
      hide LogsChained, Steps, Step;
      var effects := EnsureFinalizationEffects(Recovering, run);
      if effects == Lost {
        var ok;
        ok, result := FinalizeSupersededCandidate(Recovering, run);
        if !ok {
          result := Audited(PENDING);
        }
        return;
      }
      var ok := effects == Secured;
      if ok {
        ok := RecordRecoveredFinalAttempt(Recovering, run, Applied);
      }
      if ok {
        result := AttachAndReport(Recovering, run);
      } else {
        result := Audited(PENDING);
      }
    }

    method ExistingAppliedFinalization(run: Run) returns (ok: bool, applied: bool)
      requires Valid() && pc == FindApplied(run)
      modifies this`calls, this`nextId, this`history, this`fetches, this`pc, records, scans, runs, intents
      ensures Valid() && calls >= old(calls)
      ensures pc == if !ok then Audit(Propagate, PENDING)
                    else if applied then Attach(Recovering, run, Applied) else EffectsGet(Recovering, run)
    {
      hide LogsChained, Steps, LastApplied;
      ghost var w := View();
      var log;
      applied := false;
      ok, log := ListAttempts();
      if !ok {
        Settle(w, Audit(Propagate, PENDING));
        return;
      }
      var found := FindLastApplied(log, run);
      if found.None? {
        Settle(w, EffectsGet(Recovering, run));
        return;
      }
      if !MatchesEvidence(found.value, run) {
        ok := false;
        Settle(w, Audit(Propagate, PENDING));
        return;
      }
      applied := true;
      if !run.notify {
        Settle(w, Attach(Recovering, run, Applied));
        return;
      }
      Settle(w, CheckIntent(run));
      ok := ExistingNotificationIntent(run);
    }

    method FindLastApplied(log: seq<Attempt>, run: Run) returns (found: Option<Attempt>)
      ensures found == LastApplied(log, run.id)
    {
      var i := |log|;
      assert log[..i] == log;
      while i > 0
        invariant 0 <= i <= |log| && LastApplied(log, run.id) == LastApplied(log[..i], run.id)
      {
        assert log[..i][..i - 1] == log[..i - 1];
        i := i - 1;
        if AppliedFor(log[i], run.id) {
          return Some(log[i]);
        }
      }
      found := None;
    }

    method ExistingNotificationIntent(run: Run) returns (ok: bool)
      requires Valid() && pc == CheckIntent(run)
      modifies this`calls, this`nextId, this`history, this`fetches, this`pc, records, scans, runs, intents
      ensures Valid() && calls >= old(calls)
      ensures pc == if ok then Attach(Recovering, run, Applied) else Audit(Propagate, PENDING)
    {
      hide LogsChained, Steps, MatchingIntents;
      ghost var w := View();
      var found;
      ok, found := ListIntents(run);
      ok := ok && |found| == 1;
      Settle(w, if ok then Attach(Recovering, run, Applied) else Audit(Propagate, PENDING));
    }

    /** Secures the transition and the notification of a candidate, unless the durable record shows
        that it was superseded. */
    method EnsureFinalizationEffects(ghost mode: Mode, run: Run) returns (effects: Effects)
      requires Valid() && pc == EffectsGet(mode, run)
      modifies this`calls, this`nextId, this`history, this`fetches, this`pc, records, scans, runs, intents
      ensures Valid() && calls >= old(calls)
      ensures pc == match effects
                    case Secured => FinalList(mode, run, Applied)
                    case Lost => FinalList(mode, run, Superseded)
                    case Broken => EffectsRaise(mode, run)
    {
      hide LogsChained, Steps, AfterEffects, EffectsRaise;
      ghost var w := View();
      var ok, current := GetOrCreateRecord();
      if !ok {
        Settle(w, EffectsRaise(mode, run));
        return Broken;
      }
      if current.status == run.next {
        if current.fence != Some(FenceOf(run)) {
          Settle(w, FinalList(mode, run, Superseded));
          return Lost;
        }
        Settle(w, AfterEffects(mode, run));
      } else if current.status == run.prev {
        Settle(w, EffectsWrite(mode, run, current));
        ok := WriteTransition(mode, run, current);
        if !ok {
          return Broken;
        }
      } else {
        Settle(w, FinalList(mode, run, Superseded));
        return Lost;
      }
      ok := RecordNotificationIntent(mode, run);
      effects := if ok then Secured else Broken;
    }

    method WriteTransition(ghost mode: Mode, run: Run, current: Record) returns (ok: bool)
      requires Valid() && pc == EffectsWrite(mode, run, current)
      modifies this`calls, this`nextId, this`history, this`fetches, this`pc, records, scans, runs, intents
      ensures Valid() && calls >= old(calls)
      ensures pc == if ok then AfterEffects(mode, run) else EffectsRaise(mode, run)
    {
      hide LogsChained, Steps, AfterEffects, EffectsRaise;
      ghost var w := View();
      ok := RecordTransition(current, run.next, Some(FenceOf(run)));
      Settle(w, if ok then AfterEffects(mode, run) else EffectsRaise(mode, run));
    }

    method RecordNotificationIntent(ghost mode: Mode, run: Run) returns (ok: bool)
      requires Valid() && pc == AfterEffects(mode, run)
      modifies this`calls, this`nextId, this`history, this`fetches, this`pc, records, scans, runs, intents
      ensures Valid() && calls >= old(calls)
      ensures pc == if ok then FinalList(mode, run, Applied) else EffectsRaise(mode, run)
    {
      hide LogsChained, Steps, EffectsRaise, IntentStored;
      if !run.notify {
        return true;
      }
      if run.prev.state != ACTION_PENDING || run.next.state != ACTION_NOTIFIED {
        return false;
      }
      ghost var w := View();
      ok := RecordIntent(run);
      Settle(w, if ok then FinalList(mode, run, Applied) else EffectsRaise(mode, run));
    }

    method FindLastFinal(log: seq<Attempt>, run: Run) returns (found: Option<Attempt>)
      ensures found == LastFinal(log, run.id)
    {
      var i := |log|;
      assert log[..i] == log;
      while i > 0
        invariant 0 <= i <= |log| && LastFinal(log, run.id) == LastFinal(log[..i], run.id)
      {
        assert log[..i][..i - 1] == log[..i - 1];
        i := i - 1;
        if log[i].status == SUCCEEDED && log[i].finalRun == Some(run.id) {
          return Some(log[i]);
        }
      }
      found := None;
    }

    /** Whether a success on record already says what this finalisation would say. */
    method FindFinal(log: seq<Attempt>, run: Run, d: Disposition) returns (found: bool)
      ensures found == AlreadyFinal(log, run, d)
    {
      var existing := FindLastFinal(log, run);
      found := existing.Some?
        && (existing.value.disposition == Some(d) || (d == Applied && existing.value.disposition.None?));
    }

    method RecordRecoveredFinalAttempt(ghost mode: Mode, run: Run, d: Disposition) returns (ok: bool)
      requires Valid() && pc == FinalList(mode, run, d)
      modifies this`calls, this`nextId, this`history, this`fetches, this`pc, records, scans, runs, intents
      ensures Valid() && calls >= old(calls)
      ensures pc == if ok then Attach(mode, run, d) else FinalRaise(mode, run, d)
    {
      hide LogsChained, Step, Steps, View, FinalRaise, EffectsRaise, AttachRaise, AuditRaise;
      var drawn;
      ok, drawn := DrawFinalAttempt(mode, run, d);
      if ok && drawn.Some? {
        ok := StoreAttempt(drawn.value);
      }
    }

    /** Nothing is drawn where a success on record already says the same. */
    method DrawFinalAttempt(ghost mode: Mode, run: Run, d: Disposition) returns (ok: bool, drawn: Option<Attempt>)
      requires Valid() && pc == FinalList(mode, run, d)
      modifies this`calls, this`nextId, this`history, this`fetches, this`pc, records, scans, runs, intents
      ensures Valid() && calls >= old(calls)
      ensures pc == if !ok then FinalRaise(mode, run, d)
                    else if drawn.Some? then FinalRecord(mode, run, d, drawn.value) else Attach(mode, run, d)
    {
      hide LogsChained, Steps, FinalRaise, AlreadyFinal, EffectsRaise, AttachRaise, AuditRaise, LastFinal;
      ghost var w := View();
      var log;
      drawn := None;
      ok, log := ListAttempts();
      var found := FindFinal(log, run, d);
      if ok && found {
        Settle(w, Attach(mode, run, d));
      } else if !ok || log == [] {
        ok := false;
        Settle(w, FinalRaise(mode, run, d));
      } else {
        drawn := Some(FinalAttempt(log, nextId, run, d));
        nextId := nextId + 1;
        Settle(w, FinalRecord(mode, run, d, drawn.value));
      }
    }

    /** The append of an attempt at any of the positions that append one. */
    method StoreAttempt(a: Attempt) returns (ok: bool)
      requires Valid() && AppendsAttempt(pc) && pc.attempt == a
      modifies this`calls, this`nextId, this`history, this`fetches, this`pc, records, scans, runs, intents
      ensures Valid() && pc == (if ok then Appending(old(pc)) else Raise(old(pc))) && calls >= old(calls)
    {
      hide LogsChained, Steps, Appended, Call, Raise, Appending;
      ghost var w, from := View(), pc;
      AppendCalls(setup, job, w, pc, environment(calls));
      ok := RecordAttempt(a);
      Settle(w, if ok then Appending(from) else Raise(from));
    }

    method AttachFinalRun(ghost mode: Mode, run: Run, d: Disposition) returns (ok: bool)
      requires Valid() && pc == Attach(mode, run, d)
      modifies this`calls, this`nextId, this`history, this`fetches, this`pc, records, scans, runs, intents
      ensures Valid() && calls >= old(calls)
      ensures !ok ==> pc == AttachRaise(mode, run, d)
      ensures ok && d == Applied ==> pc == Audit(Propagate, Returned(RunCompleted, Some(run)))
      ensures ok && d == Superseded ==>
                pc == Audit(SupersededHandler(mode, run), Returned(RunSuperseded, Some(run)))
    {
      hide LogsChained, Steps, AttachRaise, SupersededHandler, Attached;
      ghost var w := View();
      ok := AttachRun(run);
      if !ok {
        Settle(w, AttachRaise(mode, run, d));
      } else if d == Applied {
        Settle(w, Audit(Propagate, Returned(RunCompleted, Some(run))));
      } else {
        Settle(w, Audit(SupersededHandler(mode, run), Returned(RunSuperseded, Some(run))));
      }
    }

    /** Audits a candidate that lost its fence; an exception while the result is rendered is
        caught by the caller. */
    method FinalizeSupersededCandidate(ghost mode: Mode, run: Run) returns (ok: bool, result: Result)
      requires Valid() && pc == FinalList(mode, run, Superseded)
      modifies this`calls, this`nextId, this`history, this`fetches, this`pc, records, scans, runs, intents
      ensures Valid() && calls >= old(calls)
      ensures pc == if ok then Release(result) else AuditRaise(SupersededHandler(mode, run))
    {
      hide LogsChained, Steps, Step, AuditRaise, SupersededHandler;
      ok := RecordRecoveredFinalAttempt(mode, run, Superseded);
      if ok {
        ok := AttachFinalRun(mode, run, Superseded);
      }
      result := if ok then Returned(RunSuperseded, Some(run)) else PENDING;
      ok := AuditSuperseded(SupersededHandler(mode, run), result);
    }

    method AuditSuperseded(ghost handler: Handler, rendered: Result) returns (ok: bool)
      requires Valid() && pc == Audit(handler, rendered)
      modifies this`calls, this`nextId, this`history, this`fetches, this`pc, records, scans, runs, intents
      ensures Valid() && calls >= old(calls)
      ensures pc == if ok then Release(rendered) else AuditRaise(handler)
    {
      hide LogsChained, Steps, AuditRaise;
      ghost var w := View();
      var consulted, _ := Consult();
      ok := consulted;
      Settle(w, if ok then Release(rendered) else AuditRaise(handler));
    }

    /** Replays a completed scan from its run and its last final attempt. */
    method CompletedResult() returns (result: Result)
      requires Valid() && pc == ReplayRun
      modifies this`calls, this`nextId, this`history, this`fetches, this`pc, records, scans, runs, intents
      ensures Valid() && pc == Release(result) && calls >= old(calls)
    {
      hide LogsChained, Steps;
      ghost var w := View();
      var ok, stored := GetStoredRun();
      if !ok || stored.None? {
        Settle(w, BROKEN);
        return Raised;
      }
      var run := stored.value;
      Settle(w, ReplayList(run));
      var final;
      ok, final := ReplayedAttempt(run);
      if !ok {
        return Raised;
      }
      result := Audited(if final.Some? then Replayed(final.value, run) else Returned(RunCompleted, Some(run)));
    }

    method ReplayedAttempt(run: Run) returns (ok: bool, final: Option<Attempt>)
      requires Valid() && pc == ReplayList(run)
      modifies this`calls, this`nextId, this`history, this`fetches, this`pc, records, scans, runs, intents
      ensures Valid() && calls >= old(calls)
      ensures pc == if !ok then BROKEN
                    else Audit(Propagate, if final.Some? then Replayed(final.value, run)
                        else Returned(RunCompleted, Some(run)))
    {
      hide LogsChained, Steps, LastFinal;
      ghost var w := View();
      final := None;
      var log;
      ok, log := ListAttempts();
      if !ok {
        Settle(w, BROKEN);
        return;
      }
      final := FindLastFinal(log, run);
      if final.Some? {
        Settle(w, Audit(Propagate, Replayed(final.value, run)));
        return;
      }
      Settle(w, ReplayFinalList(run));
      ok := RecordReplayedFinalAttempt(run);
    }

    method RecordReplayedFinalAttempt(run: Run) returns (ok: bool)
      requires Valid() && pc == ReplayFinalList(run)
      modifies this`calls, this`nextId, this`history, this`fetches, this`pc, records, scans, runs, intents
      ensures Valid() && calls >= old(calls)
      ensures pc == if ok then Audit(Propagate, Returned(RunCompleted, Some(run))) else BROKEN
    {
      hide LogsChained, Step, Steps, View, FinalRaise, EffectsRaise, AttachRaise, AuditRaise;
      var drawn;
      ok, drawn := DrawReplayedAttempt(run);
      if ok && drawn.Some? {
        ok := StoreAttempt(drawn.value);
      }
    }

    method DrawReplayedAttempt(run: Run) returns (ok: bool, drawn: Option<Attempt>)
      requires Valid() && pc == ReplayFinalList(run)
      modifies this`calls, this`nextId, this`history, this`fetches, this`pc, records, scans, runs, intents
      ensures Valid() && calls >= old(calls)
      ensures pc == if !ok then BROKEN
                    else if drawn.Some? then ReplayFinalRecord(run, drawn.value)
                    else Audit(Propagate, Returned(RunCompleted, Some(run)))
    {
      hide LogsChained, Steps, AlreadyFinal, FinalAttempt;
      ghost var w := View();
      var log;
      drawn := None;
      ok, log := ListAttempts();
      var found := FindFinal(log, run, Applied);
      if ok && found {
        Settle(w, Audit(Propagate, Returned(RunCompleted, Some(run))));
      } else if !ok || log == [] {
        ok := false;
        Settle(w, BROKEN);
      } else {
        drawn := Some(FinalAttempt(log, nextId, run, Applied));
        nextId := nextId + 1;
        Settle(w, ReplayFinalRecord(run, drawn.value));
      }
    }
  }
}
