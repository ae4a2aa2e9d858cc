/** Each repository call keeps the invariant and leaves its own coordinator where it may be,
    whether the call returns or raises afterwards. */
module ProtocolCalls {
  import opened StateMachine
  import opened ScanLog
  import opened Stores
  import opened Protocol
  import opened ProtocolInvariant
  import opened ProtocolSteps

  /** The state after a call: stores, the next call, and the handler of an exception. */
  ghost predicate Landed(setup: Setup, job: Job, v: World, next: Pc, raised: Pc)
    requires job.key.plan in setup.plans
  {
    WorldOk(setup, v) && Local(setup, v, job, next) && Local(setup, v, job, raised)
  }

  ghost predicate Ready(setup: Setup, job: Job, w: World, pc: Pc) {
    job.key.plan in setup.plans && WorldOk(setup, w) && Local(setup, w, job, pc)
  }

  lemma EnsuredKeeps(setup: Setup, w: World, k: ScanKey)
    requires WorldOk(setup, w) && k.plan in setup.plans
    ensures WorldOk(setup, GetOrCreate(w, k)) && Grows(w, GetOrCreate(w, k))
    ensures GetOrCreate(w, k).records == Ensured(w.records, k.plan)
  {
    if k.plan !in w.records {
      RecordKeeps(setup, w, k, Record(Status(IDLE, false), 0, None));
    }
  }

  lemma DegradedFollows(plan: Plan, from: Status, to: Status)
    requires DegradedMove(plan, from, to)
    ensures Follows(plan, from, to)
  {
    assert Causes(plan, DegradedRequest(from), to, false);
  }

  lemma WrittenKeeps(setup: Setup, w: World, k: ScanKey, read: Record, to: Status, fence: Option<Fence>)
    requires WorldOk(setup, w) && k.plan in setup.plans
    requires fence.None? ==> DegradedMove(setup.plans[k.plan], read.status, to)
    requires fence.Some? ==>
               && k in w.runs.byScan
               && fence == Some(FenceOf(w.runs.byScan[k]))
               && w.runs.byScan[k].prev == read.status && w.runs.byScan[k].next == to && read.status != to
               && Edge(setup.plans[k.plan], read.status, to, w.runs.byScan[k].notify)
    requires Transitioned(w.records, k.plan, read, to, fence).Some?
    ensures var v := WithRecords(w, k, Transitioned(w.records, k.plan, read, to, fence).value);
            && WorldOk(setup, v) && Grows(w, v)
            && History(v, k.plan) == History(w, k.plan) + [Entry(Record(to, read.revision + 1, fence), k)]
  {
    hide Transition, ScanOk, WorldOk, Edge, DegradedMove;
    if fence.None? { DegradedFollows(setup.plans[k.plan], read.status, to); }
    RecordKeeps(setup, w, k, Record(to, read.revision + 1, fence));
  }

  lemma WrittenIsFenced(v: World, k: ScanKey, run: Run, h: seq<Entry>, record: Record)
    requires run.key.scan == k && record.fence == Some(FenceOf(run))
    requires History(v, k.plan) == h + [Entry(record, k)]
    ensures Fenced(v, run)
  {
    assert History(v, k.plan)[|h|].record.fence == Some(FenceOf(run));
  }

  lemma CandidateOk(setup: Setup, job: Job, snapshot: string, read: Record, e: Evaluation, id: nat)
    requires job.key.plan in setup.plans
    ensures var run := Candidate(setup.plans[job.key.plan], job, snapshot, read, e, id);
            run.Some? ==>
              && run.value.key.scan == job.key
              && run.value.id == id
              && Edge(setup.plans[job.key.plan], run.value.prev, run.value.next, run.value.notify)
              && (run.value.notify ==>
                     run.value.prev.state == ACTION_PENDING && run.value.next.state == ACTION_NOTIFIED)
  {
    var plan := setup.plans[job.key.plan];
    var run := Candidate(plan, job, snapshot, read, e, id);
    if run.Some? {
      var r := Proposal(plan, read.status, e).value;
      assert r.current == read.status && Causes(plan, r, run.value.next, run.value.notify);
      EdgeSafety(plan, r, run.value.next, run.value.notify);
    }
  }

  lemma IdsBelow(setup: Setup, w: World)
    requires WorldOk(setup, w)
    ensures forall id :: id in w.runs.byId ==> id < w.nextId
  {
    forall id | id in w.runs.byId ensures id < w.nextId {
      assert Named(w.runs, id);
      assert ScanOk(setup, w, w.runs.byId[id].key.scan);
    }
  }

  /** The recovery's search finds an applied attempt exactly when the last attempt is one. */
  lemma {:induction false} AppliedIsLast(log: seq<Attempt>, run: Run)
    requires FinalsOk(log, run)
    ensures LastApplied(log, run.id).Some? <==> AppliedLast(log)
    ensures AppliedLast(log) ==>
              LastApplied(log, run.id).value == log[|log| - 1] && MatchesEvidence(log[|log| - 1], run)
  {
    if AppliedLast(log) {
      assert Final(log[|log| - 1], run);
    }
    forall i | 0 <= i < |log| && AppliedFor(log[i], run.id)
      ensures AppliedLast(log)
    {
      assert log[i].status == SUCCEEDED;
      match log[i].disposition.value { case Applied => case Superseded => }
    }
  }

  lemma FencedIfOwn(setup: Setup, w: World, k: ScanKey, run: Run)
    requires WorldOk(setup, w) && run.key.scan == k && k.plan in w.records
    requires w.records[k.plan].fence == Some(FenceOf(run))
    ensures Fenced(w, run)
  {
    var h := History(w, k.plan);
    assert h[|h| - 1].record.fence == Some(FenceOf(run));
  }

  lemma {:induction false} LastFinalIsLast(log: seq<Attempt>, run: Run)
    requires FinalsOk(log, run)
    ensures LastFinal(log, run.id).Some? <==> SucceededLast(log)
    ensures SucceededLast(log) ==> LastFinal(log, run.id).value == log[|log| - 1] && Final(log[|log| - 1], run)
  {
    if SucceededLast(log) {
      assert Final(log[|log| - 1], run);
    }
  }

  lemma Own(setup: Setup, w: World, k: ScanKey)
    requires WorldOk(setup, w)
    ensures ScanOk(setup, w, k)
  {
  }

  /** Wherever a finalisation raises, its handler finds what it expects. */
  lemma HandlerLands(setup: Setup, job: Job, v: World, mode: Mode, run: Run, d: Disposition)
    requires job.key.plan in setup.plans && (mode.Fresh? ==> Failing(v, job.key, mode.running))
    ensures Local(setup, v, job, EffectsRaise(mode, run))
    ensures Local(setup, v, job, FinalRaise(mode, run, d))
    ensures Local(setup, v, job, AttachRaise(mode, run, d))
  {
    hide Failing, DegradedMove;
  }

  lemma AfterEffectsLands(setup: Setup, job: Job, v: World, mode: Mode, run: Run)
    requires Ready(setup, job, v, EffectsGet(mode, run)) && Fenced(v, run)
    ensures Local(setup, v, job, AfterEffects(mode, run))
  {
    hide WorldOk, LogOk, CountsOk, FinalsOk, IntentOk, Fenced, LastFinal, LastApplied, WellFormed, HasSuccess,
         RunningCount, LostCount, Appended, RunsAgree, DegradedMove;
    Own(setup, v, job.key);
  }

  lemma AdjudicateLands(setup: Setup, job: Job, v: World, mode: Mode, run: Run)
    requires Ready(setup, job, v, EffectsGet(mode, run)) && job.key.plan in v.records
    ensures Local(setup, v, job, Adjudicate(mode, run, v.records[job.key.plan]))
  {
    hide AfterEffects, WorldOk, LogOk, CountsOk, FinalsOk, IntentOk, Fenced, LastFinal, LastApplied, WellFormed,
         HasSuccess, RunningCount, LostCount, Appended, RunsAgree, DegradedMove;
    Own(setup, v, job.key);
    if v.records[job.key.plan].fence == Some(FenceOf(run)) {
      FencedIfOwn(setup, v, job.key, run);
      AfterEffectsLands(setup, job, v, mode, run);
    }
  }

  // One lemma per repository call

  lemma AcquireLands(setup: Setup, job: Job, w: World)
    requires Ready(setup, job, w, Acquire)
    ensures var (v, next) := AcquireCall(w, job); Landed(setup, job, v, next, Raise(Acquire))
  {
    hide WorldOk, DegradedMove;
    CounterKeeps(setup, w, w.nextId, w.locks + {job.key});
  }

  lemma GetScanLands(setup: Setup, job: Job, w: World)
    requires Ready(setup, job, w, GetScan)
    ensures var (v, next) := (w, GetScanCall(w, job.key)); Landed(setup, job, v, next, Raise(GetScan))
  {
    hide WorldOk, DegradedMove;
  }

  lemma CreateScanLands(setup: Setup, job: Job, w: World)
    requires Ready(setup, job, w, CreateScan)
    ensures var (v, next) := (w.(scans := Opened(w.scans, job.key)), GetPending);
            Landed(setup, job, v, next, Raise(CreateScan))
  {
    hide WorldOk, DegradedMove;
    OpenKeeps(setup, w, job.key);
  }

  lemma GetPendingLands(setup: Setup, job: Job, w: World)
    requires Ready(setup, job, w, GetPending)
    ensures var (v, next) := (w, GetPendingCall(w, job.key)); Landed(setup, job, v, next, Raise(GetPending))
  {
    hide WorldOk, DegradedMove;
  }

  lemma CountFetchesLands(setup: Setup, job: Job, w: World)
    requires Ready(setup, job, w, CountFetches)
    ensures var (v, next) := (w, CountFetchesCall(setup, w, job.key)); Landed(setup, job, v, next, Raise(CountFetches))
  {
    hide WorldOk, DegradedMove;
  }

  lemma ListForRunningLands(setup: Setup, job: Job, w: World)
    requires Ready(setup, job, w, ListForRunning)
    ensures var (v, next) := ListForRunningCall(w, job); Landed(setup, job, v, next, Raise(ListForRunning))
  {
    hide WorldOk, LogOk, CountsOk, RunOk, FinalsOk, IntentOk, Fenced, LastFinal, LastApplied, WellFormed,
         HasSuccess, RunningCount, LostCount, Appended, RunsAgree, DegradedMove;
    Own(setup, w, job.key);
    if Log(w.scans, job.key) != [] { LastLogged(setup, w, job.key); }
    CounterKeeps(setup, w, w.nextId + 1, w.locks);
  }

  lemma RecordRunningLands(setup: Setup, job: Job, w: World, a: Attempt)
    requires Ready(setup, job, w, RecordRunning(a))
    ensures var (v, next) := AppendCall(w, job.key, a, BROKEN, Fetch(a));
            Landed(setup, job, v, next, Raise(RecordRunning(a)))
  {
    hide WorldOk, LogOk, RunOk, FinalsOk, IntentOk, Fenced, LastFinal, LastApplied, WellFormed, RunningCount,
         LostCount, RunsAgree, DegradedMove;
    Own(setup, w, job.key);
    if Appended(w.scans, w.runs, job.key, a).Some? {
      CountsOfAppend(Log(w.scans, job.key), a);
      AppendWorkKeeps(setup, w, job.key, a);
    }
  }

  lemma FetchLands(setup: Setup, job: Job, w: World, running: Attempt, fetched: Fetched)
    requires Ready(setup, job, w, Fetch(running))
    ensures var (v, next) := FetchCall(w, job.key, running, fetched); Landed(setup, job, v, next, Raise(Fetch(running)))
  {
    hide WorldOk, DegradedMove;
    FetchKeeps(setup, w, job.key);
  }

  lemma DegradedGetLands(setup: Setup, job: Job, w: World, running: Attempt, snapshot: string)
    requires Ready(setup, job, w, DegradedGet(running, snapshot))
    ensures var (v, next) := DegradedGetCall(setup.plans[job.key.plan], w, job.key, running, snapshot);
            Landed(setup, job, v, next, Raise(DegradedGet(running, snapshot)))
  {
    hide WorldOk;
    EnsuredKeeps(setup, w, job.key);
  }

  lemma DegradedWriteLands(setup: Setup, job: Job, w: World, running: Attempt, snapshot: string, read: Record,
                           to: Status)
    requires Ready(setup, job, w, DegradedWrite(running, snapshot, read, to))
    ensures var (v, next) := WriteCall(w, job.key, read, to, None, FailedList(running, Some(snapshot)),
                                       DegradedList(running, snapshot));
            Landed(setup, job, v, next, Raise(DegradedWrite(running, snapshot, read, to)))
  {
    hide WorldOk;
    if Transitioned(w.records, job.key.plan, read, to, None).Some? {
      WrittenKeeps(setup, w, job.key, read, to, None);
    }
  }

  lemma DegradedListLands(setup: Setup, job: Job, w: World, running: Attempt, snapshot: string)
    requires Ready(setup, job, w, DegradedList(running, snapshot))
    ensures var (v, next) := DegradedListCall(w, job, running, snapshot);
            Landed(setup, job, v, next, Raise(DegradedList(running, snapshot)))
  {
    hide WorldOk, LogOk, CountsOk, RunOk, FinalsOk, IntentOk, Fenced, LastFinal, LastApplied, HasSuccess,
         RunningCount, LostCount, Appended, RunsAgree;
    Own(setup, w, job.key);
    if Log(w.scans, job.key) != [] { LastLogged(setup, w, job.key); }
    CounterKeeps(setup, w, w.nextId + 1, w.locks);
  }

  lemma DegradedRecordLands(setup: Setup, job: Job, w: World, a: Attempt)
    requires Ready(setup, job, w, DegradedRecord(a))
    ensures var (v, next) := AppendCall(w, job.key, a, BROKEN, Audit(Propagate, Returned(RunDegraded, None)));
            Landed(setup, job, v, next, Raise(DegradedRecord(a)))
  {
    hide ReferencesExist, Follows, Finished, AlreadyFinal, FinalAttempt, RunningAttempt, WorldOk, LogOk, CountsOk,
         RunOk, FinalsOk, IntentOk, Fenced, LastFinal, LastApplied, WellFormed, RunningCount, LostCount, RunsAgree;
    Own(setup, w, job.key);
    if Appended(w.scans, w.runs, job.key, a).Some? {
      AppendWorkKeeps(setup, w, job.key, a);
    }
  }

  lemma FailedRecordLands(setup: Setup, job: Job, w: World, a: Attempt)
    requires Ready(setup, job, w, FailedRecord(a))
    ensures var (v, next) := AppendCall(w, job.key, a, BROKEN, Audit(Propagate, Returned(RunFailed, None)));
            Landed(setup, job, v, next, Raise(FailedRecord(a)))
  {
    hide ReferencesExist, Follows, Finished, AlreadyFinal, FinalAttempt, RunningAttempt, WorldOk, LogOk, CountsOk,
         RunOk, FinalsOk, IntentOk, Fenced, LastFinal, LastApplied, WellFormed, RunningCount, LostCount, RunsAgree,
         DegradedMove;
    Own(setup, w, job.key);
    if Appended(w.scans, w.runs, job.key, a).Some? {
      AppendWorkKeeps(setup, w, job.key, a);
    }
  }

  lemma EvaluateGetLands(setup: Setup, job: Job, w: World, running: Attempt, snapshot: string)
    requires Ready(setup, job, w, EvaluateGet(running, snapshot))
    ensures var (v, next) := (GetOrCreate(w, job.key), Evaluate(running, snapshot, Read(w, job.key)));
            Landed(setup, job, v, next, Raise(EvaluateGet(running, snapshot)))
  {
    hide WorldOk, DegradedMove;
    EnsuredKeeps(setup, w, job.key);
  }

  lemma EvaluateLands(setup: Setup, job: Job, w: World, running: Attempt, snapshot: string, read: Record,
                      evaluation: Option<Evaluation>)
    requires Ready(setup, job, w, Evaluate(running, snapshot, read))
    ensures var (v, next) := EvaluateCall(setup.plans[job.key.plan], w, job, running, snapshot, read, evaluation);
            Landed(setup, job, v, next, Raise(Evaluate(running, snapshot, read)))
  {
    hide WorldOk, Candidate, DegradedMove;
    CounterKeeps(setup, w, w.nextId + 1, w.locks);
    if evaluation.Some? {
      CandidateOk(setup, job, snapshot, read, evaluation.value, w.nextId);
      IdsBelow(setup, w);
    }
  }

  lemma StoreRunLands(setup: Setup, job: Job, w: World, running: Attempt, run: Run)
    requires Ready(setup, job, w, StoreRun(running, run))
    ensures var (v, next) := StoreRunCall(w, job.key, running, run);
            Landed(setup, job, v, next, Raise(StoreRun(running, run)))
  {
    hide WorldOk, LogOk, CountsOk, FinalsOk, IntentOk, Fenced, LastFinal, LastApplied, WellFormed, HasSuccess,
         RunningCount, LostCount, Appended, RunsAgree, DegradedMove;
    Own(setup, w, job.key);
    Indexed(setup, w);
    FreshRunStored(w, job.key, run);
    StoreRunKeeps(setup, w, w.(runs := WithRun(w.runs, job.key, run)), job.key, run);
  }

  lemma FindAppliedLands(setup: Setup, job: Job, w: World, run: Run)
    requires Ready(setup, job, w, FindApplied(run))
    ensures var (v, next) := (w, FindAppliedCall(w, job.key, run)); Landed(setup, job, v, next, Raise(FindApplied(run)))
  {
    hide WorldOk, LogOk, CountsOk, RunOk, FinalsOk, IntentOk, Fenced, LastFinal, LastApplied, WellFormed,
         HasSuccess, RunningCount, LostCount, Appended, RunsAgree, DegradedMove;
    Own(setup, w, job.key);
    AppliedIsLast(Log(w.scans, job.key), run);
  }

  lemma CheckIntentLands(setup: Setup, job: Job, w: World, run: Run)
    requires Ready(setup, job, w, CheckIntent(run))
    ensures var (v, next) := (w, CheckIntentCall(w, run)); Landed(setup, job, v, next, Raise(CheckIntent(run)))
  {
    hide WorldOk, DegradedMove;
  }

  lemma EffectsGetLands(setup: Setup, job: Job, w: World, mode: Mode, run: Run)
    requires Ready(setup, job, w, EffectsGet(mode, run))
    ensures var (v, next) := (GetOrCreate(w, job.key), Adjudicate(mode, run, Read(w, job.key)));
            Landed(setup, job, v, next, Raise(EffectsGet(mode, run)))
  {
    hide WorldOk, EffectsRaise, Adjudicate, DegradedMove;
    EnsuredKeeps(setup, w, job.key);
    HandlerLands(setup, job, GetOrCreate(w, job.key), mode, run, Applied);
    AdjudicateLands(setup, job, GetOrCreate(w, job.key), mode, run);
  }

  /** The fenced write is one machine edge, and it puts the run's fence into the history. */
  lemma EffectsWriteKeeps(setup: Setup, job: Job, w: World, mode: Mode, run: Run, read: Record)
    requires Ready(setup, job, w, EffectsWrite(mode, run, read))
    requires Transitioned(w.records, job.key.plan, read, run.next, Some(FenceOf(run))).Some?
    ensures var v := WithRecords(w, job.key,
                                 Transitioned(w.records, job.key.plan, read, run.next, Some(FenceOf(run))).value);
            WorldOk(setup, v) && Fenced(v, run)
  {
    hide WorldOk, LogOk, CountsOk, FinalsOk, IntentOk, Fenced, LastFinal, LastApplied, WellFormed, HasSuccess,
         RunningCount, LostCount, Appended, RunsAgree, DegradedMove;
    Own(setup, w, job.key);
    var fence := Some(FenceOf(run));
    WrittenKeeps(setup, w, job.key, read, run.next, fence);
    WrittenIsFenced(WithRecords(w, job.key, Transitioned(w.records, job.key.plan, read, run.next, fence).value),
                    job.key, run, History(w, job.key.plan), Record(run.next, read.revision + 1, fence));
  }

  lemma EffectsWriteLands(setup: Setup, job: Job, w: World, mode: Mode, run: Run, read: Record)
    requires Ready(setup, job, w, EffectsWrite(mode, run, read))
    ensures var (v, next) := WriteCall(w, job.key, read, run.next, Some(FenceOf(run)), EffectsRaise(mode, run),
                                       AfterEffects(mode, run));
            Landed(setup, job, v, next, Raise(EffectsWrite(mode, run, read)))
  {
    hide EffectsRaise, AfterEffects, WorldOk, LogOk, CountsOk, FinalsOk, IntentOk, Fenced, LastFinal, LastApplied,
         WellFormed, HasSuccess, RunningCount, LostCount, Appended, RunsAgree, DegradedMove;
    Own(setup, w, job.key);
    HandlerLands(setup, job, WriteCall(w, job.key, read, run.next, Some(FenceOf(run)), BROKEN, BROKEN).0, mode, run,
        Applied);
    if Transitioned(w.records, job.key.plan, read, run.next, Some(FenceOf(run))).Some? {
      EffectsWriteKeeps(setup, job, w, mode, run, read);
      AfterEffectsLands(setup, job, WriteCall(w, job.key, read, run.next, Some(FenceOf(run)), BROKEN, BROKEN).0, mode,
          run);
    }
  }

  lemma PutIntentLands(setup: Setup, job: Job, w: World, mode: Mode, run: Run)
    requires Ready(setup, job, w, PutIntent(mode, run))
    ensures var (v, next) := PutIntentCall(w, mode, run); Landed(setup, job, v, next, Raise(PutIntent(mode, run)))
  {
    hide EffectsRaise, IntentStored, AlreadyFinal, FinalAttempt, RunningAttempt, Follows, Closing, WorldOk, LogOk,
         CountsOk, RunOk, FinalsOk, IntentOk, Fenced, LastFinal, LastApplied, WellFormed, HasSuccess, RunningCount,
         LostCount, Appended, RunsAgree, DegradedMove;
    Own(setup, w, job.key);
    HandlerLands(setup, job, PutIntentCall(w, mode, run).0, mode, run, Applied);
    Indexed(setup, w);
    IntentAccepted(w, job.key, run);
    var v := w.(intents := IntentStored(w.intents, w.runs, IntentOf(run)).value);
    IntentKeeps(setup, w, v, job.key, run);
    FencedGrows(w, v, run);
  }

  lemma FinalListLands(setup: Setup, job: Job, w: World, mode: Mode, run: Run, d: Disposition)
    requires Ready(setup, job, w, FinalList(mode, run, d))
    ensures var (v, next) := FinalListCall(w, job.key, mode, run, d);
            Landed(setup, job, v, next, Raise(FinalList(mode, run, d)))
  {
    hide FinalRaise, RunningAttempt, Follows, Closing, WorldOk, LogOk, CountsOk, RunOk, FinalsOk, IntentOk, Fenced,
         LastFinal, LastApplied, WellFormed, HasSuccess, RunningCount, LostCount, Appended, RunsAgree,
         DegradedMove;
    HandlerLands(setup, job, FinalListCall(w, job.key, mode, run, d).0, mode, run, d);
    Own(setup, w, job.key);
    if AlreadyFinal(Log(w.scans, job.key), run, d) {
      LastFinalIsLast(Log(w.scans, job.key), run);
    } else {
      hide AlreadyFinal, Settled;
      if Log(w.scans, job.key) != [] { LastLogged(setup, w, job.key); }
      CounterKeeps(setup, w, w.nextId + 1, w.locks);
      if d == Applied { FencedGrows(w, w.(nextId := w.nextId + 1), run); }
    }
  }

  /** A superseded finalisation never adds a second success, and an applied one follows at most
      one superseded success. */
  lemma FinalIsNews(log: seq<Attempt>, run: Run, d: Disposition)
    requires FinalsOk(log, run) && !AppliedLast(log) && !AlreadyFinal(log, run, d) && SucceededLast(log)
    ensures d == Applied
  {
    LastFinalIsLast(log, run);
    match log[|log| - 1].disposition.value { case Applied => case Superseded => }
  }

  lemma FinalRecordKeeps(setup: Setup, job: Job, w: World, mode: Mode, run: Run, d: Disposition, a: Attempt)
    requires Ready(setup, job, w, FinalRecord(mode, run, d, a))
    ensures WorldOk(setup, AppendCall(w, job.key, a, BROKEN, BROKEN).0)
  {
    hide WorldOk, LogOk, CountsOk, RunOk, FinalsOk, IntentOk, Fenced, LastFinal, LastApplied, WellFormed,
         HasSuccess, RunningCount, LostCount, Appended, RunsAgree, DegradedMove;
    Own(setup, w, job.key);
    if Appended(w.scans, w.runs, job.key, a).Some? {
      if SucceededLast(Log(w.scans, job.key)) { FinalIsNews(Log(w.scans, job.key), run, d); }
      AppendFinalKeeps(setup, w, job.key, run, a);
    }
  }

  /** What a coordinator about to record its final attempt knows. */
  lemma FinalRecordFacts(setup: Setup, job: Job, w: World, mode: Mode, run: Run, d: Disposition, a: Attempt)
    requires Ready(setup, job, w, FinalRecord(mode, run, d, a))
    ensures job.key.plan in setup.plans && WorldOk(setup, w) && ScanOk(setup, w, job.key)
    ensures Pending(w, job.key, mode, run) && !AlreadyFinal(Log(w.scans, job.key), run, d)
    ensures var log := Log(w.scans, job.key);
            log != [] && log[|log| - 1].id < a.id < w.nextId && a == FinalAttempt(log, a.id, run, d)
  {
    hide WorldOk, AlreadyFinal, FinalAttempt, ScanOk;
    Own(setup, w, job.key);
  }

  lemma FinalRecordLands(setup: Setup, job: Job, w: World, mode: Mode, run: Run, d: Disposition, a: Attempt)
    requires Ready(setup, job, w, FinalRecord(mode, run, d, a))
    ensures var (v, next) := AppendCall(w, job.key, a, FinalRaise(mode, run, d), Attach(mode, run, d));
            Landed(setup, job, v, next, Raise(FinalRecord(mode, run, d, a)))
  {
    hide Ready, FinalRaise, AlreadyFinal, Finished, AppendAllowed, ReferencesExist, WorldOk, LogOk, CountsOk, RunOk,
         FinalsOk, IntentOk, Fenced, LastFinal, LastApplied, WellFormed, HasSuccess, RunningCount, LostCount,
         RunsAgree, DegradedMove;
    FinalRecordFacts(setup, job, w, mode, run, d, a);
    HandlerLands(setup, job, AppendCall(w, job.key, a, BROKEN, BROKEN).0, mode, run, d);
    FinalRecordKeeps(setup, job, w, mode, run, d, a);
  }

  function AttachedTo(mode: Mode, run: Run, d: Disposition): Pc {
    match d
    case Applied => Audit(Propagate, Returned(RunCompleted, Some(run)))
    case Superseded => Audit(SupersededHandler(mode, run), Returned(RunSuperseded, Some(run)))
  }

  lemma AttachedLands(setup: Setup, job: Job, v: World, mode: Mode, run: Run, d: Disposition)
    requires job.key.plan in setup.plans && Replays(v, job.key, run, d)
    ensures Local(setup, v, job, AttachedTo(mode, run, d))
    ensures Local(setup, v, job, AttachRaise(mode, run, d))
  {
    hide WorldOk, LastFinal, Fenced, RunningCount, LostCount, Finished, Pending, DegradedMove;
    HandlerLands(setup, job, v, mode, run, d);
  }

  lemma AttachLands(setup: Setup, job: Job, w: World, mode: Mode, run: Run, d: Disposition)
    requires Ready(setup, job, w, Attach(mode, run, d))
    ensures var (v, next) := AttachCall(w, job.key, mode, run, d);
            Landed(setup, job, v, next, Raise(Attach(mode, run, d)))
  {
    hide WorldOk, LastFinal, AttachRaise, Fenced, RunningCount, LostCount, Pending, Closing, RunOk, DegradedMove;
    var (v, next) := AttachCall(w, job.key, mode, run, d);
    if Attached(w.scans, w.runs, job.key, run.id).Some? {
      AttachKeeps(setup, w, job.key, run);
      AttachedLands(setup, job, v, mode, run, d);
      assert next == AttachedTo(mode, run, d);
    } else {
      HandlerLands(setup, job, w, mode, run, d);
    }
  }

  lemma FailedListLands(setup: Setup, job: Job, w: World, running: Attempt, evidence: Option<string>)
    requires Ready(setup, job, w, FailedList(running, evidence))
    ensures var (v, next) := FailedListCall(w, job, running, evidence);
            Landed(setup, job, v, next, Raise(FailedList(running, evidence)))
  {
    hide WorldOk, LogOk, CountsOk, RunOk, FinalsOk, IntentOk, Fenced, LastFinal, LastApplied, HasSuccess,
         RunningCount, LostCount, Appended, RunsAgree, DegradedMove;
    Own(setup, w, job.key);
    if Log(w.scans, job.key) != [] { LastLogged(setup, w, job.key); }
    CounterKeeps(setup, w, w.nextId + 1, w.locks);
  }

  lemma ReplayRunLands(setup: Setup, job: Job, w: World)
    requires Ready(setup, job, w, ReplayRun)
    ensures var (v, next) := (w, if job.key in w.runs.byScan then ReplayList(w.runs.byScan[job.key]) else BROKEN);
            Landed(setup, job, v, next, Raise(ReplayRun))
  {
    hide WorldOk, LogOk, CountsOk, RunOk, FinalsOk, IntentOk, Fenced, LastFinal, LastApplied, WellFormed,
         HasSuccess, RunningCount, LostCount, Appended, RunsAgree, DegradedMove;
    Own(setup, w, job.key);
  }

  /** A completed scan always replays: its run has a success on record with a disposition. */
  lemma ReplayListLands(setup: Setup, job: Job, w: World, run: Run)
    requires Ready(setup, job, w, ReplayList(run))
    ensures var (v, next) := (w, ReplayListCall(w, job.key, run)); Landed(setup, job, v, next, Raise(ReplayList(run)))
  {
    hide WorldOk, LogOk, CountsOk, RunOk, FinalsOk, IntentOk, Fenced, LastFinal, LastApplied, WellFormed,
         HasSuccess, RunningCount, LostCount, Appended, RunsAgree, DegradedMove;
    Own(setup, w, job.key);
    var log := Log(w.scans, job.key);
    LastFinalIsLast(log, run);
    match log[|log| - 1].disposition.value { case Applied => case Superseded => }
  }

  lemma AuditLands(setup: Setup, job: Job, w: World, handler: Handler, result: Result)
    requires Ready(setup, job, w, Audit(handler, result))
    ensures var (v, next) := (w, Release(result)); Landed(setup, job, v, next, Raise(Audit(handler, result)))
  {
    hide WorldOk, DegradedMove;
  }

  lemma DoneLands(setup: Setup, job: Job, w: World, result: Result)
    requires Ready(setup, job, w, Done(result))
    ensures var (v, next) := (w, Done(result)); Landed(setup, job, v, next, Raise(Done(result)))
  {
    hide WorldOk, DegradedMove;
  }

  lemma ReleaseLands(setup: Setup, job: Job, w: World, result: Result)
    requires Ready(setup, job, w, Release(result))
    ensures var (v, next) := (w.(locks := w.locks - {job.key}), Done(result));
            Landed(setup, job, v, next, Raise(Release(result)))
  {
    hide WorldOk, DegradedMove;
    CounterKeeps(setup, w, w.nextId, w.locks - {job.key});
  }

  /** The replay path never has to record a final attempt of its own. */
  lemma NeverFinalizesOnReplay(setup: Setup, job: Job, w: World, pc: Pc)
    requires Ready(setup, job, w, pc)
    ensures !pc.ReplayFinalList? && !pc.ReplayFinalRecord?
  {
  }

  lemma LastLogged(setup: Setup, w: World, k: ScanKey)
    requires WorldOk(setup, w) && Log(w.scans, k) != []
    ensures Log(w.scans, k)[|Log(w.scans, k)| - 1].id < w.nextId
  {
    assert ScanOk(setup, w, k);
  }

  lemma Indexed(setup: Setup, w: World)
    requires WorldOk(setup, w)
    ensures RunsAgree(w.runs)
  {
  }

  lemma CallLands(setup: Setup, job: Job, w: World, pc: Pc, c: Choice)
    requires Ready(setup, job, w, pc)
    ensures var (v, next) := Call(setup, job, w, pc, c); Landed(setup, job, v, next, Raise(pc))
  {
    hide WorldOk, Landed, Local, Raise, Ready, AcquireCall, ListForRunningCall, FetchCall, DegradedGetCall,
         DegradedListCall, EvaluateCall, StoreRunCall, FindAppliedCall, PutIntentCall, FinalListCall, AttachCall,
         FailedListCall, ReplayListCall, AppendCall, WriteCall, Adjudicate, AfterEffects, EffectsRaise, FinalRaise;
    match pc
    case Acquire => AcquireLands(setup, job, w);
    case GetScan => GetScanLands(setup, job, w);
    case CreateScan => CreateScanLands(setup, job, w);
    case GetPending => GetPendingLands(setup, job, w);
    case CountFetches => CountFetchesLands(setup, job, w);
    case ListForRunning => ListForRunningLands(setup, job, w);
    case RecordRunning(a) => RecordRunningLands(setup, job, w, a);
    case Fetch(running) => FetchLands(setup, job, w, running, c.fetched);
    case DegradedGet(running, snapshot) => DegradedGetLands(setup, job, w, running, snapshot);
    case DegradedWrite(running, snapshot, read, to) => DegradedWriteLands(setup, job, w, running, snapshot, read, to);
    case DegradedList(running, snapshot) => DegradedListLands(setup, job, w, running, snapshot);
    case DegradedRecord(a) => DegradedRecordLands(setup, job, w, a);
    case EvaluateGet(running, snapshot) => EvaluateGetLands(setup, job, w, running, snapshot);
    case Evaluate(running, snapshot, read) => EvaluateLands(setup, job, w, running, snapshot, read, c.evaluation);
    case StoreRun(running, run) => StoreRunLands(setup, job, w, running, run);
    case FindApplied(run) => FindAppliedLands(setup, job, w, run);
    case CheckIntent(run) => CheckIntentLands(setup, job, w, run);
    case EffectsGet(mode, run) => EffectsGetLands(setup, job, w, mode, run);
    case EffectsWrite(mode, run, read) => EffectsWriteLands(setup, job, w, mode, run, read);
    case PutIntent(mode, run) => PutIntentLands(setup, job, w, mode, run);
    case FinalList(mode, run, d) => FinalListLands(setup, job, w, mode, run, d);
    case FinalRecord(mode, run, d, a) => FinalRecordLands(setup, job, w, mode, run, d, a);
    case Attach(mode, run, d) => AttachLands(setup, job, w, mode, run, d);
    case FailedList(running, evidence) => FailedListLands(setup, job, w, running, evidence);
    case FailedRecord(a) => FailedRecordLands(setup, job, w, a);
    case ReplayRun => ReplayRunLands(setup, job, w);
    case ReplayList(run) => ReplayListLands(setup, job, w, run);
    case Audit(handler, result) => AuditLands(setup, job, w, handler, result);
    case Release(result) => ReleaseLands(setup, job, w, result);
    case Done(result) => DoneLands(setup, job, w, result);
    case ReplayFinalList(_) => NeverFinalizesOnReplay(setup, job, w, pc);
    case ReplayFinalRecord(_, _) => NeverFinalizesOnReplay(setup, job, w, pc);
  }
}
