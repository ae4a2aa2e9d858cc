/** Progress: one run of the coordinator that is neither interrupted nor failed finishes a scan
    whose candidate is stored, without calling the provider or the evaluator again. */
module Recovery {
  import opened StateMachine
  import opened ScanLog
  import opened Stores
  import opened Protocol
  import opened ProtocolInvariant
  import opened ProtocolSteps
  import opened ProtocolCalls
  import opened ProtocolSystem
  import opened ProtocolTheorems

  /** One coordinator on its own, one choice of the environment per repository call. */
  function Drive(setup: Setup, job: Job, w: World, pc: Pc, choices: seq<Choice>): (World, Pc)
    requires job.key.plan in setup.plans
    decreases |choices|
  {
    if choices == [] then (w, pc)
    else
      var (v, next) := Step(setup, job, w, pc, choices[0]);
      Drive(setup, job, v, next, choices[1..])
  }

  predicate Faultless(choices: seq<Choice>) {
    forall i :: 0 <= i < |choices| ==> choices[i].fault == NoFault
  }

  lemma {:induction false} DriveOn(setup: Setup, job: Job, w: World, pc: Pc, choices: seq<Choice>)
    requires Ready(setup, job, w, pc) && Faultless(choices) && choices != []
    ensures Faultless(choices[1..])
    ensures var (v, next) := Call(setup, job, w, pc, choices[0]);
            && Ready(setup, job, v, next)
            && Drive(setup, job, w, pc, choices) == Drive(setup, job, v, next, choices[1..])
  {
    hide WorldOk, Local, Call, Raise;
    CallLands(setup, job, w, pc, choices[0]);
    assert choices[0].fault == NoFault;
  }

  function Reported(d: Disposition): RunDisposition {
    match d case Applied => RunCompleted case Superseded => RunSuperseded
  }

  /** The coordinator returns the run with the given disposition, and the stores agree. */
  ghost predicate Finishes(k: ScanKey, run: Run, d: Disposition, end: (World, Pc)) {
    && end.1 == Done(Returned(Reported(d), Some(run)))
    && k in end.0.scans.states && end.0.scans.states[k] == Completed(run.id)
    && Settled(end.0, k, run, d)
    && k !in end.0.locks
  }

  /** It does so without asking the provider or storing a candidate. */
  ghost predicate Completes(w: World, k: ScanKey, run: Run, d: Disposition, end: (World, Pc)) {
    Finishes(k, run, d, end) && end.0.fetches == w.fetches && end.0.runs == w.runs
  }

  lemma {:induction false} DoneRests(setup: Setup, job: Job, w: World, r: Result, choices: seq<Choice>)
    requires job.key.plan in setup.plans && Faultless(choices)
    ensures Drive(setup, job, w, Done(r), choices) == (w, Done(r))
    decreases |choices|
  {
    if choices != [] {
      assert choices[0].fault == NoFault;
      DoneRests(setup, job, w, r, choices[1..]);
    }
  }

  lemma {:induction false} AuditEnds(setup: Setup, job: Job, w: World, handler: Handler, r: Result,
                                     choices: seq<Choice>)
    requires job.key.plan in setup.plans
    requires Ready(setup, job, w, Audit(handler, r)) && Faultless(choices) && |choices| >= 2
    ensures Drive(setup, job, w, Audit(handler, r), choices) == (w.(locks := w.locks - {job.key}), Done(r))
  {
    hide WorldOk, Ready, Drive, Step;
    DriveOn(setup, job, w, Audit(handler, r), choices);
    DriveOn(setup, job, w, Release(r), choices[1..]);
    DoneRests(setup, job, w.(locks := w.locks - {job.key}), r, choices[1..][1..]);
  }

  lemma {:induction false} AttachCompletes(setup: Setup, job: Job, w: World, mode: Mode, run: Run, d: Disposition,
                                           choices: seq<Choice>)
    requires Ready(setup, job, w, Attach(mode, run, d)) && Faultless(choices) && |choices| >= 3
    ensures var end := Drive(setup, job, w, Attach(mode, run, d), choices);
            && Completes(w, job.key, run, d, end)
            && end.0.records == w.records && end.0.history == w.history && end.0.intents == w.intents
  {
    hide WorldOk, Log, Drive, Ready, Settled, AttachCall;
    AttachIsAccepted(setup, job, w, mode, run, d);
    DriveOn(setup, job, w, Attach(mode, run, d), choices);
    AuditEnds(setup, job, Closed(w, job.key, run), AttachHandler(mode, run, d), Returned(Reported(d), Some(run)),
              choices[1..]);
    SettledStays(w, Closed(w, job.key, run), {job.key}, job.key, run, d);
  }

  function Closed(w: World, k: ScanKey, run: Run): World {
    w.(scans := w.scans.(states := w.scans.states[k := Completed(run.id)]))
  }

  function AttachHandler(mode: Mode, run: Run, d: Disposition): Handler {
    match d case Applied => Propagate case Superseded => SupersededHandler(mode, run)
  }

  lemma SettledStays(w: World, v: World, locks: set<ScanKey>, k: ScanKey, run: Run, d: Disposition)
    requires v.scans.logs == w.scans.logs && v.runs == w.runs
    ensures Settled(v.(locks := v.locks - locks), k, run, d) <==> Settled(w, k, run, d)
  {
  }

  /** The store attaches the run of a settled scan. */
  lemma AttachIsAccepted(setup: Setup, job: Job, w: World, mode: Mode, run: Run, d: Disposition)
    requires Ready(setup, job, w, Attach(mode, run, d))
    ensures job.key.plan in setup.plans && Settled(w, job.key, run, d)
    ensures AttachCall(w, job.key, mode, run, d)
            == (Closed(w, job.key, run), Audit(AttachHandler(mode, run, d), Returned(Reported(d), Some(run))))
  {
    hide HistoryOk, LogOk, CountsOk, RunOk, IntentOk, FinalsOk, Fenced, LastFinal;
    assert ScanOk(setup, w, job.key);
    LastFinalIsLast(Log(w.scans, job.key), run);
  }

  /** The append rule never rejects the final attempt of a pending candidate. */
  lemma FinalIsAccepted(setup: Setup, job: Job, w: World, mode: Mode, run: Run, d: Disposition, a: Attempt)
    requires Ready(setup, job, w, FinalRecord(mode, run, d, a))
    ensures Appended(w.scans, w.runs, job.key, a).Some?
  {
    hide Ready, WorldOk, CountsOk, RunOk, IntentOk, FinalsOk, LogOk, LastFinal, RunningCount, LostCount, Fenced,
         AlreadyFinal, WellFormed, AppendAllowed, Chained, Working;
    var log := Log(w.scans, job.key);
    FinalRecordFacts(setup, job, w, mode, run, d, a);
    LogIsNumbered(setup, w, job.key);
    FinalFits(log, a.id, run, d);
    assert log[|log| - 1].id == a.recoveryOf.value;
  }

  lemma LogIsNumbered(setup: Setup, w: World, k: ScanKey)
    requires ScanOk(setup, w, k)
    ensures Numbered(Log(w.scans, k))
  {
    hide CountsOk, RunOk, IntentOk, FinalsOk, Fenced;
  }

  lemma FinalFits(log: seq<Attempt>, id: nat, run: Run, d: Disposition)
    requires log != [] && Numbered(log) && log[|log| - 1].id < id
    ensures var a := FinalAttempt(log, id, run, d);
            && WellFormed(a)
            && AppendAllowed(log, a)
            && forall i :: 0 <= i < |log| ==> log[i].number != a.number
  {
    LatestIsLast(log);
  }

  lemma {:induction false} FinalRecordCompletes(setup: Setup, job: Job, w: World, mode: Mode, run: Run, d: Disposition,
                                                a: Attempt, choices: seq<Choice>)
    requires Ready(setup, job, w, FinalRecord(mode, run, d, a)) && Faultless(choices) && |choices| >= 4
    ensures var end := Drive(setup, job, w, FinalRecord(mode, run, d, a), choices);
            && Completes(w, job.key, run, d, end)
            && end.0.records == w.records && end.0.history == w.history && end.0.intents == w.intents
  {
    hide WorldOk, Ready, Drive, Appended, Settled;
    OnOwnPlan(setup, job, w, FinalRecord(mode, run, d, a));
    FinalIsAccepted(setup, job, w, mode, run, d, a);
    DriveOn(setup, job, w, FinalRecord(mode, run, d, a), choices);
    var (v, next) := AppendCall(w, job.key, a, FinalRaise(mode, run, d), Attach(mode, run, d));
    AttachCompletes(setup, job, v, mode, run, d, choices[1..]);
  }

  lemma OnOwnPlan(setup: Setup, job: Job, w: World, pc: Pc)
    requires Ready(setup, job, w, pc)
    ensures job.key.plan in setup.plans
  {
  }

  lemma {:induction false} FinalListCompletes(setup: Setup, job: Job, w: World, mode: Mode, run: Run, d: Disposition,
                                              choices: seq<Choice>)
    requires Ready(setup, job, w, FinalList(mode, run, d)) && Faultless(choices) && |choices| >= 5
    ensures var end := Drive(setup, job, w, FinalList(mode, run, d), choices);
            && Completes(w, job.key, run, d, end)
            && end.0.records == w.records && end.0.history == w.history && end.0.intents == w.intents
  {
    hide WorldOk, Ready, Drive, Settled, AlreadyFinal, LogOk, CountsOk, RunOk, FinalsOk, IntentOk;
    OnOwnPlan(setup, job, w, FinalList(mode, run, d));
    PendingHasLog(setup, job, w, mode, run, d);
    DriveOn(setup, job, w, FinalList(mode, run, d), choices);
    var (v, next) := FinalListCall(w, job.key, mode, run, d);
    if next.Attach? {
      AttachCompletes(setup, job, v, mode, run, d, choices[1..]);
    } else {
      FinalRecordCompletes(setup, job, v, mode, run, d, next.attempt, choices[1..]);
    }
  }

  lemma PendingHasLog(setup: Setup, job: Job, w: World, mode: Mode, run: Run, d: Disposition)
    requires Ready(setup, job, w, FinalList(mode, run, d))
    ensures Log(w.scans, job.key) != []
  {
    hide HistoryOk, RunsAgree, IntentsAgree;
    assert ScanOk(setup, w, job.key);
  }

  lemma {:induction false} PutIntentCompletes(setup: Setup, job: Job, w: World, mode: Mode, run: Run,
                                              choices: seq<Choice>)
    requires Ready(setup, job, w, PutIntent(mode, run)) && Faultless(choices) && |choices| >= 6
    ensures var end := Drive(setup, job, w, PutIntent(mode, run), choices);
            Completes(w, job.key, run, Applied, end) && end.0.records == w.records && end.0.history == w.history
  {
    hide WorldOk, Drive, Settled, LogOk, CountsOk, RunOk, FinalsOk, RunsAgree, Fenced, AppliedLast;
    OnOwnPlan(setup, job, w, PutIntent(mode, run));
    Own(setup, w, job.key);
    Indexed(setup, w);
    IntentAccepted(w, job.key, run);
    DriveOn(setup, job, w, PutIntent(mode, run), choices);
    FinalListCompletes(setup, job, PutIntentCall(w, mode, run).0, mode, run, Applied, choices[1..]);
  }

  lemma {:induction false} AfterEffectsCompletes(setup: Setup, job: Job, w: World, mode: Mode, run: Run,
                                                 choices: seq<Choice>)
    requires Ready(setup, job, w, AfterEffects(mode, run)) && Stored(w, job.key, run)
    requires Faultless(choices) && |choices| >= 6
    ensures var end := Drive(setup, job, w, AfterEffects(mode, run), choices);
            Completes(w, job.key, run, Applied, end) && end.0.records == w.records && end.0.history == w.history
  {
    hide WorldOk, Ready, Drive, LogOk, CountsOk, FinalsOk, IntentOk, Finished, Completes, Edge;
    ReadyOpened(setup, job, w, AfterEffects(mode, run));
    Own(setup, w, job.key);
    if run.notify {
      PutIntentCompletes(setup, job, w, mode, run, choices);
    } else {
      FinalListCompletes(setup, job, w, mode, run, Applied, choices);
    }
  }

  /** The revision a finalisation writes over a record it read. */
  function Finalising(k: ScanKey, run: Run, read: Record): Entry {
    Entry(Record(run.next, read.revision + 1, Some(FenceOf(run))), k)
  }

  /** What a pending candidate adds to the history of a record as it stands. */
  function Writes(k: ScanKey, run: Run, current: Record): seq<Entry> {
    if current.status == run.prev && run.prev != run.next then [Finalising(k, run, current)] else []
  }

  lemma {:induction false} EffectsWriteCompletes(setup: Setup, job: Job, w: World, mode: Mode, run: Run, read: Record,
                                                 choices: seq<Choice>)
    requires Ready(setup, job, w, EffectsWrite(mode, run, read)) && Faultless(choices) && |choices| >= 7
    requires job.key.plan in w.records && w.records[job.key.plan] == read
    ensures var end := Drive(setup, job, w, EffectsWrite(mode, run, read), choices);
            && Completes(w, job.key, run, Applied, end)
            && end.0.records == w.records[job.key.plan := Record(run.next, read.revision + 1, Some(FenceOf(run)))]
            && History(end.0, job.key.plan) == History(w, job.key.plan) + [Finalising(job.key, run, read)]
  {
    hide WorldOk, Drive, LogOk, CountsOk, FinalsOk, IntentOk, Finished, RunOk, AfterEffects, Settled, AppliedLast;
    OnOwnPlan(setup, job, w, EffectsWrite(mode, run, read));
    DriveOn(setup, job, w, EffectsWrite(mode, run, read), choices);
    AfterEffectsCompletes(setup, job, WithRecords(w, job.key, Transitioned(w.records, job.key.plan, read, run.next,
                                                  Some(FenceOf(run))).value), mode, run, choices[1..]);
  }

  /** The disposition a pending candidate gets from the record as it stands. */
  function Verdict(run: Run, current: Record): Disposition {
    if current.status == run.next && current.fence == Some(FenceOf(run)) then Applied
    else if current.status == run.prev && run.prev != run.next then Applied
    else Superseded
  }

  lemma {:induction false} EffectsComplete(setup: Setup, job: Job, w: World, mode: Mode, run: Run, choices: seq<Choice>)
    requires Ready(setup, job, w, EffectsGet(mode, run)) && Faultless(choices) && |choices| >= 8
    ensures var end, d := Drive(setup, job, w, EffectsGet(mode, run), choices), Verdict(run, Read(w, job.key));
            && Completes(w, job.key, run, d, end)
            && (d == Applied ==>
                  && job.key.plan in end.0.records
                  && end.0.records[job.key.plan].status == run.next
                  && end.0.records[job.key.plan].fence == Some(FenceOf(run)))
            && (d == Superseded ==> end.0.records == Ensured(w.records, job.key.plan) && end.0.intents == w.intents)
            && History(end.0, job.key.plan)
               == History(GetOrCreate(w, job.key), job.key.plan) + Writes(job.key, run, Read(w, job.key))
  {
    hide WorldOk, Drive, LogOk, CountsOk, FinalsOk, IntentOk, Finished, RunOk, AfterEffects, Settled, AppliedLast;
    OnOwnPlan(setup, job, w, EffectsGet(mode, run));
    DriveOn(setup, job, w, EffectsGet(mode, run), choices);
    var v, current := GetOrCreate(w, job.key), Read(w, job.key);
    if current.status == run.next {
      if current.fence == Some(FenceOf(run)) {
        AfterEffectsCompletes(setup, job, v, mode, run, choices[1..]);
      } else {
        FinalListCompletes(setup, job, v, mode, run, Superseded, choices[1..]);
      }
    } else if current.status == run.prev {
      EffectsWriteCompletes(setup, job, v, mode, run, current, choices[1..]);
    } else {
      FinalListCompletes(setup, job, v, mode, run, Superseded, choices[1..]);
    }
  }

  // From the trigger

  /** The disposition an interrupted scan gets when it is run again on the stores as they stand. */
  function Resolution(w: World, k: ScanKey): Disposition
    requires k in w.runs.byScan
  {
    if AppliedLast(Log(w.scans, k)) then Applied else Verdict(w.runs.byScan[k], Read(w, k))
  }

  /** What running an interrupted scan again adds to the history of its record. */
  function Rewrites(w: World, k: ScanKey): seq<Entry>
    requires k in w.runs.byScan
  {
    if AppliedLast(Log(w.scans, k)) then []
    else
      (if k.plan in w.records then [] else [Entry(Read(w, k), k)]) + Writes(k, w.runs.byScan[k], Read(w, k))
  }

  lemma CreatedHistory(setup: Setup, w: World, k: ScanKey)
    requires WorldOk(setup, w)
    ensures History(GetOrCreate(w, k), k.plan)
            == History(w, k.plan) + if k.plan in w.records then [] else [Entry(Read(w, k), k)]
  {
    hide ScanOk;
  }

  lemma {:induction false} CheckedCompletes(setup: Setup, job: Job, w: World, run: Run, choices: seq<Choice>)
    requires Ready(setup, job, w, CheckIntent(run)) && Faultless(choices) && |choices| >= 4
    requires |MatchingIntents(w.intents, run)| == 1
    ensures var end := Drive(setup, job, w, CheckIntent(run), choices);
            && Completes(w, job.key, run, Applied, end)
            && end.0.records == w.records && end.0.history == w.history && end.0.intents == w.intents
  {
    hide WorldOk, Ready, Drive, Settled, MatchingIntents, Completes;
    OnOwnPlan(setup, job, w, CheckIntent(run));
    DriveOn(setup, job, w, CheckIntent(run), choices);
    AttachCompletes(setup, job, w, Recovering, run, Applied, choices[1..]);
  }

  lemma {:induction false} FindAppliedCompletes(setup: Setup, job: Job, w: World, run: Run, choices: seq<Choice>)
    requires Ready(setup, job, w, FindApplied(run)) && Faultless(choices) && |choices| >= 9
    requires job.key in w.runs.byScan && w.runs.byScan[job.key] == run
    ensures var end := Drive(setup, job, w, FindApplied(run), choices);
            && Completes(w, job.key, run, Resolution(w, job.key), end)
            && History(end.0, job.key.plan) == History(w, job.key.plan) + Rewrites(w, job.key)
  {
    hide WorldOk, Drive, LogOk, CountsOk, FinalsOk, IntentOk, Finished, RunOk, Settled, LastApplied, MatchingIntents;
    OnOwnPlan(setup, job, w, FindApplied(run));
    Own(setup, w, job.key);
    var log := Log(w.scans, job.key);
    AppliedIsLast(log, run);
    DriveOn(setup, job, w, FindApplied(run), choices);
    if AppliedLast(log) {
      if run.notify {
        AppliedNotifies(setup, w, job.key);
        CheckedCompletes(setup, job, w, run, choices[1..]);
      } else {
        AttachCompletes(setup, job, w, Recovering, run, Applied, choices[1..]);
      }
    } else {
      EffectsComplete(setup, job, w, Recovering, run, choices[1..]);
      ReadyOpened(setup, job, w, FindApplied(run));
      CreatedHistory(setup, w, job.key);
    }
  }

  /** Recovery: from every reachable state in which a scan is open, holds a candidate and is not
      locked, one uninterrupted run without failures completes it. No step of it is a call of the
      provider or of the evaluator, no candidate is stored, the log and the record alone decide the
      disposition, and the transition is written exactly if the record stands where it starts. */
  lemma {:induction false} RecoveryCompletes(setup: Setup, actions: seq<Action>, job: Job, choices: seq<Choice>)
    requires job.key.plan in setup.plans && Faultless(choices) && |choices| >= 12
    requires var w := Reached(setup, actions);
             job.key !in w.locks && IsOpen(w, job.key) && job.key in w.runs.byScan
    ensures var w := Reached(setup, actions);
            var end := Drive(setup, job, w, Acquire, choices);
            && Completes(w, job.key, w.runs.byScan[job.key], Resolution(w, job.key), end)
            && History(end.0, job.key.plan) == History(w, job.key.plan) + Rewrites(w, job.key)
            && forall n :: 0 <= n <= |choices| ==> !Consults(Drive(setup, job, w, Acquire, choices[..n]).1)
  {
    hide WorldOk, Drive, Completes, Execute;
    var w := Reached(setup, actions);
    ReachedOk(setup, actions);
    TriggerCompletes(setup, job, w, choices);
    MayStart(setup, job, w);
    NeverConsults(setup, job, w, Acquire, choices);
  }

  /** A call of the market-data provider or of the evaluator. */
  predicate Consults(pc: Pc) {
    pc.Fetch? || pc.Evaluate?
  }

  lemma ConsultsWithoutRun(setup: Setup, job: Job, w: World, pc: Pc)
    requires Ready(setup, job, w, pc) && Consults(pc)
    ensures job.key !in w.runs.byScan
  {
    hide WorldOk;
  }

  /** Once a scan holds a candidate, whatever fails on the way, no run of it consults anybody. */
  lemma {:induction false} NeverConsults(setup: Setup, job: Job, w: World, pc: Pc, choices: seq<Choice>)
    requires Ready(setup, job, w, pc) && job.key in w.runs.byScan
    ensures forall n :: 0 <= n <= |choices| ==> !Consults(Drive(setup, job, w, pc, choices[..n]).1)
    decreases |choices|
  {
    hide Ready, Consults, Step;
    if Consults(pc) {
      ConsultsWithoutRun(setup, job, w, pc);
    }
    OnOwnPlan(setup, job, w, pc);
    if choices != [] {
      var (v, next) := Step(setup, job, w, pc, choices[0]);
      StaysReady(setup, job, w, pc, choices[0]);
      NeverConsults(setup, job, v, next, choices[1..]);
      forall n | 0 <= n <= |choices| ensures !Consults(Drive(setup, job, w, pc, choices[..n]).1) {
        if n > 0 {
          assert choices[..n][1..] == choices[1..][..n - 1];
        }
      }
    }
  }

  lemma StaysReady(setup: Setup, job: Job, w: World, pc: Pc, c: Choice)
    requires Ready(setup, job, w, pc)
    ensures job.key.plan in setup.plans
    ensures var (v, next) := Step(setup, job, w, pc, c);
            Ready(setup, job, v, next) && (job.key in w.runs.byScan ==> job.key in v.runs.byScan)
  {
    hide WorldOk, Local, Step;
    StepLands(setup, job, w, pc, c);
    RunsStay(setup, job, w, pc, c);
  }

  lemma {:induction false} TriggerCompletes(setup: Setup, job: Job, w: World, choices: seq<Choice>)
    requires job.key.plan in setup.plans && Faultless(choices) && |choices| >= 12
    requires WorldOk(setup, w) && job.key !in w.locks && IsOpen(w, job.key) && job.key in w.runs.byScan
    ensures var end := Drive(setup, job, w, Acquire, choices);
            && Completes(w, job.key, w.runs.byScan[job.key], Resolution(w, job.key), end)
            && History(end.0, job.key.plan) == History(w, job.key.plan) + Rewrites(w, job.key)
  {
    hide WorldOk, Drive, Settled, AppliedLast, Verdict, Writes;
    var v := w.(locks := w.locks + {job.key});
    DriveOn(setup, job, w, Acquire, choices);
    DriveOn(setup, job, v, GetScan, choices[1..]);
    DriveOn(setup, job, v, GetPending, choices[1..][1..]);
    FindAppliedCompletes(setup, job, v, w.runs.byScan[job.key], choices[1..][1..][1..]);
  }

  // From the trigger of a scan that holds no candidate yet

  /** What an evaluation of an actionable snapshot makes of the record as it stands. */
  function Proposed(setup: Setup, job: Job, w: World, fetched: Fetched, evaluation: Option<Evaluation>, id: nat)
    : Option<Run>
    requires job.key.plan in setup.plans
  {
    if !fetched.Snapshot? || !fetched.actionable || evaluation.None? then None
    else Candidate(setup.plans[job.key.plan], job, fetched.id, Read(w, job.key), evaluation.value, id)
  }

  function Moves(run: Run): Disposition {
    if run.prev == run.next then Superseded else Applied
  }

  /** The record of the plan, created idle where there is none, gets one revision: to the status the
      candidate proposes, under its fence; a candidate that changes nothing adds none. */
  predicate Advances(k: ScanKey, run: Run, w: World, v: World) {
    && run.prev == Read(w, k).status
    && History(v, k.plan)
       == History(GetOrCreate(w, k), k.plan)
          + if run.prev == run.next then []
            else [Entry(Record(run.next, Read(w, k).revision + 1, Some(FenceOf(run))), k)]
  }

  /** A fresh fence has never been stored. */
  lemma FenceIsNew(setup: Setup, w: World, run: Run, p: nat)
    requires WorldOk(setup, w) && run.id !in w.runs.byId && p in w.records
    ensures w.records[p].fence != Some(FenceOf(run))
  {
    hide LogOk, CountsOk, FinalsOk, IntentOk, Finished, DegradedMove, Follows;
    var h := History(w, p);
    EntryHolds(setup, w, p, |h| - 1);
    if h[|h| - 1].record.fence.Some? {
      assert Filed(w.runs, h[|h| - 1].author);
    }
  }

  lemma RunNamesScan(setup: Setup, job: Job, w: World, running: Attempt, run: Run)
    requires Ready(setup, job, w, StoreRun(running, run))
    ensures run.key.scan == job.key && Unstored(w, job.key) && run.id !in w.runs.byId
  {
    hide WorldOk;
  }

  lemma {:induction false} StoreRunFinishes(setup: Setup, job: Job, w: World, running: Attempt, run: Run,
                                            choices: seq<Choice>)
    requires Ready(setup, job, w, StoreRun(running, run)) && Faultless(choices) && |choices| >= 9
    requires job.key.plan in w.records && w.records[job.key.plan].status == run.prev
    ensures var end := Drive(setup, job, w, StoreRun(running, run), choices);
            && Finishes(job.key, run, Moves(run), end) && end.0.fetches == w.fetches
            && Advances(job.key, run, w, end.0)
  {
    hide WorldOk, Drive, LogOk, CountsOk, FinalsOk, IntentOk, Finished, RunOk, Settled, AppliedLast, RunsAgree;
    OnOwnPlan(setup, job, w, StoreRun(running, run));
    Indexed(setup, w);
    RunNamesScan(setup, job, w, running, run);
    FreshRunStored(w, job.key, run);
    DriveOn(setup, job, w, StoreRun(running, run), choices);
    FenceIsNew(setup, w, run, job.key.plan);
    EffectsComplete(setup, job, w.(runs := WithRun(w.runs, job.key, run)), Fresh(running), run, choices[1..]);
  }

  lemma {:induction false} EvaluationFinishes(setup: Setup, job: Job, w: World, running: Attempt, snapshot: string,
                                              choices: seq<Choice>)
    requires Ready(setup, job, w, EvaluateGet(running, snapshot)) && Faultless(choices) && |choices| >= 11
    requires job.key.plan in setup.plans
    requires Proposed(setup, job, w, Snapshot(snapshot, true), choices[1].evaluation, w.nextId).Some?
    ensures var end := Drive(setup, job, w, EvaluateGet(running, snapshot), choices);
            var run := Proposed(setup, job, w, Snapshot(snapshot, true), choices[1].evaluation, w.nextId).value;
            && Finishes(job.key, run, Moves(run), end) && end.0.fetches == w.fetches
            && Advances(job.key, run, w, end.0)
  {
    hide WorldOk, Local, Drive, Finishes, Ready, Proposal, Transition, Settled, Moves, RunningCount,
         DegradedMove;
    DriveOn(setup, job, w, EvaluateGet(running, snapshot), choices);
    var v, run := GetOrCreate(w, job.key),
        Proposed(setup, job, w, Snapshot(snapshot, true), choices[1].evaluation, w.nextId).value;
    DriveOn(setup, job, v, Evaluate(running, snapshot, Read(w, job.key)), choices[1..]);
    StoreRunFinishes(setup, job, v.(nextId := v.nextId + 1), running, run, choices[1..][1..]);
  }

  lemma {:induction false} FetchFinishes(setup: Setup, job: Job, w: World, running: Attempt, choices: seq<Choice>)
    requires Ready(setup, job, w, Fetch(running)) && Faultless(choices) && |choices| >= 12
    requires job.key.plan in setup.plans
    requires Proposed(setup, job, w, choices[0].fetched, choices[2].evaluation, w.nextId).Some?
    ensures var end := Drive(setup, job, w, Fetch(running), choices);
            var run := Proposed(setup, job, w, choices[0].fetched, choices[2].evaluation, w.nextId).value;
            && Finishes(job.key, run, Moves(run), end) && FetchCount(end.0, job.key) == FetchCount(w, job.key) + 1
            && Advances(job.key, run, w, end.0)
  {
    hide WorldOk, Local, Drive, Finishes, Ready, Proposal, Transition, Settled, Moves, RunningCount,
         DegradedMove;
    DriveOn(setup, job, w, Fetch(running), choices);
    var u := w.(fetches := w.fetches[job.key := FetchCount(w, job.key) + 1]);
    EvaluationFinishes(setup, job, u, running, choices[0].fetched.id, choices[1..]);
  }

  lemma RunningIsAccepted(setup: Setup, job: Job, w: World, a: Attempt)
    requires Ready(setup, job, w, RecordRunning(a))
    ensures Appended(w.scans, w.runs, job.key, a).Some?
  {
    hide WorldOk, CountsOk, LastFinal, RunningCount, LostCount, Fenced, WellFormed, AppendAllowed, Chained;
    var log := Log(w.scans, job.key);
    Own(setup, w, job.key);
    RunningFits(job, log, a.id);
    if log != [] { assert log[|log| - 1].id == a.recoveryOf.value; }
  }

  lemma RunningFits(job: Job, log: seq<Attempt>, id: nat)
    requires Numbered(log) && !HasSuccess(log) && (log != [] ==> log[|log| - 1].id < id)
    ensures var a := RunningAttempt(job, log, id);
            && WellFormed(a)
            && AppendAllowed(log, a)
            && forall i :: 0 <= i < |log| ==> log[i].number != a.number
  {
    if log != [] { LatestIsLast(log); }
  }

  /** The attempt a run starts, and the stores once it did. */
  function StartedAttempt(job: Job, w: World): Attempt {
    RunningAttempt(job, Log(w.scans, job.key), w.nextId)
  }

  function Started(job: Job, w: World): World {
    var k := job.key;
    w.(nextId := w.nextId + 1, locks := w.locks + {k},
       scans := Scans(w.scans.states[k := Open], w.scans.logs[k := Log(w.scans, k) + [StartedAttempt(job, w)]]))
  }

  /** A scan that may be attempted: not locked, not completed, without a candidate, with attempts left. */
  ghost predicate Attemptable(setup: Setup, w: World, k: ScanKey) {
    && k !in w.locks && k !in w.runs.byScan && (k in w.scans.states ==> IsOpen(w, k))
    && RunningCount(Log(w.scans, k)) < setup.maxFetches
  }

  lemma {:induction false} ReachesAttempt(setup: Setup, job: Job, w: World, choices: seq<Choice>)
    requires Ready(setup, job, w, CountFetches) && Faultless(choices) && |choices| >= 3
    requires job.key in w.scans.logs && RunningCount(Log(w.scans, job.key)) < setup.maxFetches
    ensures var v := Started(job, w).(locks := w.locks);
            && Ready(setup, job, v, Fetch(StartedAttempt(job, w))) && Faultless(choices[3..])
            && Drive(setup, job, w, CountFetches, choices)
               == Drive(setup, job, v, Fetch(StartedAttempt(job, w)), choices[3..])
  {
    hide WorldOk, Drive, Ready, WellFormed, AppendAllowed, ReferencesExist, RunningCount, LastFinal;
    OnOwnPlan(setup, job, w, CountFetches);
    NoSuccessYet(setup, job, w);
    var a, u := StartedAttempt(job, w), w.(nextId := w.nextId + 1);
    DriveOn(setup, job, w, CountFetches, choices);
    DriveOn(setup, job, w, ListForRunning, choices[1..]);
    DriveOn(setup, job, u, RecordRunning(a), choices[1..][1..]);
    RunningIsAccepted(setup, job, u, a);
    OpenedBefore(setup, job, w);
    assert choices[1..][1..][1..] == choices[3..];
  }

  lemma OpenedBefore(setup: Setup, job: Job, w: World)
    requires Ready(setup, job, w, CountFetches)
    ensures w.scans.states[job.key := Open] == w.scans.states
  {
    hide WorldOk;
  }

  lemma NoSuccessYet(setup: Setup, job: Job, w: World)
    requires Ready(setup, job, w, CountFetches)
    ensures var log := Log(w.scans, job.key); log != [] ==> log[|log| - 1].status != SUCCEEDED
  {
    hide HistoryOk, RunsAgree, IntentsAgree, LogOk, CountsOk;
    assert ScanOk(setup, w, job.key);
  }

  /** Where in a run from the trigger the provider is called: a scan that is new is created first. */
  function FetchAt(w: World, k: ScanKey): nat {
    if k in w.scans.states then 6 else 7
  }

  /** A scan without a candidate that is neither locked nor out of attempts: one uninterrupted run
      without failures on an actionable snapshot calls the provider once and completes the scan,
      APPLIED exactly when the proposed transition moves the record, SUPERSEDED when it is a no-op. */
  lemma {:induction false} FreshRunCompletes(setup: Setup, actions: seq<Action>, job: Job, choices: seq<Choice>)
    requires job.key.plan in setup.plans && Faultless(choices) && |choices| >= 19
    requires var w := Reached(setup, actions);
             && Attemptable(setup, w, job.key)
             && var at := FetchAt(w, job.key);
                Proposed(setup, job, w, choices[at].fetched, choices[at + 2].evaluation, w.nextId + 1).Some?
    ensures var w, end := Reached(setup, actions), Drive(setup, job, Reached(setup, actions), Acquire, choices);
            var at := FetchAt(w, job.key);
            var run := Proposed(setup, job, w, choices[at].fetched, choices[at + 2].evaluation, w.nextId + 1).value;
            && Finishes(job.key, run, Moves(run), end) && FetchCount(end.0, job.key) == FetchCount(w, job.key) + 1
            && Advances(job.key, run, w, end.0)
  {
    hide WorldOk, Local, Drive, Finishes, Candidate, LogOk, RunningCount, LostCount, LastFinal, Execute;
    ReachedOk(setup, actions);
    var w := Reached(setup, actions);
    ReachesFetch(setup, job, w, choices);
    FetchFinishes(setup, job, Started(job, w), StartedAttempt(job, w), choices[FetchAt(w, job.key)..]);
  }

  /** From the trigger, such a run comes to the call of the provider. */
  lemma {:induction false} ReachesFetch(setup: Setup, job: Job, w: World, choices: seq<Choice>)
    requires job.key.plan in setup.plans && WorldOk(setup, w) && Attemptable(setup, w, job.key)
    requires Faultless(choices) && |choices| >= 7
    ensures var at, v := FetchAt(w, job.key), Started(job, w);
            && Ready(setup, job, v, Fetch(StartedAttempt(job, w))) && Faultless(choices[at..])
            && Drive(setup, job, w, Acquire, choices)
               == Drive(setup, job, v, Fetch(StartedAttempt(job, w)), choices[at..])
  {
    hide WorldOk, Local, Drive, LogOk, RunningCount, LostCount, LastFinal;
    var k := job.key;
    MayStart(setup, job, w);
    var u := w.(locks := w.locks + {k});
    DriveOn(setup, job, w, Acquire, choices);
    DriveOn(setup, job, u, GetScan, choices[1..]);
    if k in w.scans.states {
      Own(setup, w, k);
      DriveOn(setup, job, u, GetPending, choices[1..][1..]);
      assert choices[1..][1..][1..] == choices[3..] && choices[3..][3..] == choices[6..];
      ReachesAttempt(setup, job, u, choices[3..]);
    } else {
      DriveOn(setup, job, u, CreateScan, choices[1..][1..]);
      var v := u.(scans := Opened(u.scans, k));
      DriveOn(setup, job, v, GetPending, choices[1..][1..][1..]);
      FreshLog(setup, w, k);
      assert choices[1..][1..][1..][1..] == choices[4..] && choices[4..][3..] == choices[7..];
      ReachesAttempt(setup, job, v, choices[4..]);
      assert Started(job, v).scans == Started(job, w).scans;
    }
  }

  lemma MayStart(setup: Setup, job: Job, w: World)
    requires WorldOk(setup, w) && job.key.plan in setup.plans
    ensures Ready(setup, job, w, Acquire)
  {
    hide WorldOk;
  }

  lemma FreshLog(setup: Setup, w: World, k: ScanKey)
    requires WorldOk(setup, w) && k !in w.scans.states
    ensures Log(w.scans, k) == []
  {
    assert ScanOk(setup, w, k);
  }
}
