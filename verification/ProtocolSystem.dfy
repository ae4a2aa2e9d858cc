/** The invariant holds after every action of every execution. */
module ProtocolSystem {
  import opened StateMachine
  import opened ScanLog
  import opened Stores
  import opened Protocol
  import opened ProtocolInvariant
  import opened ProtocolSteps
  import opened ProtocolCalls

  // What one call leaves alone

  predicate RecordSide(pc: Pc) {
    pc.DegradedGet? || pc.DegradedWrite? || pc.EvaluateGet? || pc.EffectsGet? || pc.EffectsWrite?
  }

  predicate ScanSide(pc: Pc) {
    !RecordSide(pc) && !pc.StoreRun? && !pc.PutIntent?
  }

  /** The calls up to the storing of a candidate. */
  predicate Early(pc: Pc) {
    pc.Acquire? || pc.GetScan? || pc.CreateScan? || pc.GetPending? || pc.CountFetches? || pc.ListForRunning?
    || pc.RecordRunning? || pc.Fetch? || pc.DegradedGet? || pc.DegradedWrite? || pc.DegradedList?
    || pc.DegradedRecord? || pc.EvaluateGet? || pc.Evaluate? || pc.StoreRun?
  }

  lemma ScanSideCall(setup: Setup, job: Job, w: World, pc: Pc, c: Choice)
    requires job.key.plan in setup.plans && ScanSide(pc)
    ensures var v := Call(setup, job, w, pc, c).0;
            && v.runs == w.runs && v.intents == w.intents && v.history == w.history && v.records == w.records
            && w.nextId <= v.nextId
            && OneScanChanged(w, v, job.key)
  {
    hide Candidate, Transition, LastFinal, LastApplied, WellFormed, AppendAllowed, ReferencesExist, RunningCount,
         AlreadyFinal, EffectsRaise, FinalRaise, AttachRaise;
  }

  lemma RecordSideCall(setup: Setup, job: Job, w: World, pc: Pc, c: Choice)
    requires Ready(setup, job, w, pc) && RecordSide(pc)
    ensures var v := Call(setup, job, w, pc, c).0;
            && v.scans == w.scans && v.runs == w.runs && v.intents == w.intents && v.fetches == w.fetches
            && v.locks == w.locks && v.nextId == w.nextId
            && Grows(w, v)
  {
    hide Transition, WorldOk, LastFinal, LastApplied, EffectsRaise, Adjudicate, AfterEffects, DegradedMove;
    match pc
    case DegradedWrite(_, _, read, next) =>
      if Transitioned(w.records, job.key.plan, read, next, None).Some? {
        WrittenKeeps(setup, w, job.key, read, next, None);
      }
    case EffectsWrite(mode, run, read) =>
      if Transitioned(w.records, job.key.plan, read, run.next, Some(FenceOf(run))).Some? {
        Own(setup, w, job.key);
        WrittenKeeps(setup, w, job.key, read, run.next, Some(FenceOf(run)));
      }
    case DegradedGet(_, _) => EnsuredKeeps(setup, w, job.key);
    case EvaluateGet(_, _) => EnsuredKeeps(setup, w, job.key);
    case EffectsGet(_, _) => EnsuredKeeps(setup, w, job.key);
  }

  lemma CallElsewhere(setup: Setup, job: Job, w: World, pc: Pc, c: Choice)
    requires Ready(setup, job, w, pc)
    ensures var v := Call(setup, job, w, pc, c).0;
            Grows(w, v) && forall j :: j != job.key ==> SameScan(w, v, j)
  {
    hide Call, ScanOk, HistoryOk, Filed, Named, DegradedMove;
    var v := Call(setup, job, w, pc, c).0;
    if RecordSide(pc) {
      RecordSideCall(setup, job, w, pc, c);
    } else if ScanSide(pc) {
      ScanSideCall(setup, job, w, pc, c);
      ScansElsewhere(w, v, job.key);
    } else if pc.StoreRun? {
      StoreRunElsewhere(setup, job, w, pc.running, pc.run, c);
    } else {
      PutIntentElsewhere(setup, job, w, pc.mode, pc.run, c);
    }
  }

  lemma StoreRunElsewhere(setup: Setup, job: Job, w: World, running: Attempt, run: Run, c: Choice)
    requires Ready(setup, job, w, StoreRun(running, run))
    ensures var v := Call(setup, job, w, StoreRun(running, run), c).0;
            && v == w.(runs := WithRun(w.runs, job.key, run))
            && Grows(w, v)
            && forall j :: j != job.key ==> SameScan(w, v, j)
  {
    hide WorldOk, SameScan, RunsAgree, DegradedMove;
    Indexed(setup, w);
    FreshRunStored(w, job.key, run);
    RunElsewhere(w, w.(runs := WithRun(w.runs, job.key, run)), job.key, run);
  }

  lemma PutIntentElsewhere(setup: Setup, job: Job, w: World, mode: Mode, run: Run, c: Choice)
    requires Ready(setup, job, w, PutIntent(mode, run))
    ensures var v := Call(setup, job, w, PutIntent(mode, run), c).0;
            Grows(w, v) && forall j :: j != job.key ==> SameScan(w, v, j)
  {
    hide SameScan, RunsAgree, IntentsAgree, HistoryOk, Fenced, LogOk, FinalsOk, CountsOk, DegradedMove;
    Own(setup, w, job.key);
    IntentAccepted(w, job.key, run);
    IntentElsewhere(w, w.(intents := IntentStored(w.intents, w.runs, IntentOf(run)).value), job.key, run);
  }

  lemma RaiseLandsEarly(setup: Setup, job: Job, w: World, pc: Pc)
    requires Early(pc)
    requires Ready(setup, job, w, pc)
    ensures Local(setup, w, job, Raise(pc))
  {
    hide WorldOk, LogOk, CountsOk, RunOk, FinalsOk, IntentOk, Fenced, LastFinal, WellFormed, RunningCount,
         LostCount, Finished, AlreadyFinal, Follows, FinalAttempt, RunningAttempt, HasSuccess, DegradedMove;
  }

  lemma RaiseLandsLate(setup: Setup, job: Job, w: World, pc: Pc)
    requires !Early(pc)
    requires Ready(setup, job, w, pc)
    ensures Local(setup, w, job, Raise(pc))
  {
    hide WorldOk, LogOk, CountsOk, RunOk, FinalsOk, IntentOk, Fenced, LastFinal, WellFormed, RunningCount,
         LostCount, Finished, AlreadyFinal, Follows, FinalAttempt, RunningAttempt, HasSuccess, DegradedMove;
  }

  /** An exception before the call took effect is caught where the coordinator expects it. */
  lemma RaiseLands(setup: Setup, job: Job, w: World, pc: Pc)
    requires Ready(setup, job, w, pc)
    ensures Local(setup, w, job, Raise(pc))
  {
    hide Raise, Local, WorldOk;
    if Early(pc) {
      RaiseLandsEarly(setup, job, w, pc);
    } else {
      RaiseLandsLate(setup, job, w, pc);
    }
  }

  lemma StepLands(setup: Setup, job: Job, w: World, pc: Pc, c: Choice)
    requires Ready(setup, job, w, pc)
    ensures var (v, next) := Step(setup, job, w, pc, c); WorldOk(setup, v) && Local(setup, v, job, next)
  {
    hide WorldOk, Local, Call, Raise, DegradedMove;
    ReadyOpened(setup, job, w, pc);
    CallLands(setup, job, w, pc, c);
    RaiseLands(setup, job, w, pc);
  }

  lemma ReadyOpened(setup: Setup, job: Job, w: World, pc: Pc)
    requires Ready(setup, job, w, pc)
    ensures WorldOk(setup, w)
  {
  }

  lemma CallTouchesEarly(setup: Setup, job: Job, w: World, pc: Pc, c: Choice)
    requires Early(pc)
    requires job.key.plan in setup.plans
    ensures var (v, next) := Call(setup, job, w, pc, c); Untouched(next) ==> Untouched(pc) && !Touches(w, v)
  {
    hide Candidate, Transition, LastFinal, LastApplied, WellFormed, AppendAllowed, ReferencesExist, RunningCount,
         AlreadyFinal, DegradedMove;
  }

  lemma CallTouchesLate(setup: Setup, job: Job, w: World, pc: Pc, c: Choice)
    requires !Early(pc)
    requires job.key.plan in setup.plans
    ensures var (v, next) := Call(setup, job, w, pc, c); Untouched(next) ==> Untouched(pc) && !Touches(w, v)
  {
    hide Candidate, Transition, FinalAttempt, RunningAttempt, LastFinal, LastApplied, WellFormed, AppendAllowed,
         ReferencesExist, RunningCount, AlreadyFinal, DegradedMove;
  }

  lemma CallTouches(setup: Setup, job: Job, w: World, pc: Pc, c: Choice)
    requires job.key.plan in setup.plans
    ensures var (v, next) := Call(setup, job, w, pc, c); Untouched(next) ==> Untouched(pc) && !Touches(w, v)
  {
    hide Call, Touches;
    if Early(pc) {
      CallTouchesEarly(setup, job, w, pc, c);
    } else {
      CallTouchesLate(setup, job, w, pc, c);
    }
  }

  /** Whoever goes on to report a superseded run has changed no intent and no existing record. */
  lemma StepTouches(setup: Setup, job: Job, w: World, pc: Pc, c: Choice)
    requires job.key.plan in setup.plans
    ensures var (v, next) := Step(setup, job, w, pc, c); Untouched(next) ==> Untouched(pc) && !Touches(w, v)
  {
    hide Call, Touches, DegradedMove;
    CallTouches(setup, job, w, pc, c);
    if Untouched(Raise(pc)) {
      assert pc.Done?;
      DoneStays(setup, job, w, pc, c);
    }
  }

  lemma DoneStays(setup: Setup, job: Job, w: World, pc: Pc, c: Choice)
    requires job.key.plan in setup.plans && pc.Done?
    ensures Step(setup, job, w, pc, c) == (w, pc) && !Touches(w, w)
  {
  }

  lemma OwnQuietEarly(setup: Setup, job: Job, w: World, pc: Pc, c: Choice)
    requires Early(pc)
    requires Ready(setup, job, w, pc)
    requires AppliedLast(Log(w.scans, job.key)) || (job.key in w.scans.states && w.scans.states[job.key].Completed?)
    ensures var v := Step(setup, job, w, pc, c).0;
            && v.records == w.records && v.history == w.history && v.intents == w.intents && v.runs == w.runs
            && v.fetches == w.fetches && v.scans.logs == w.scans.logs
            && (|| v.scans.states == w.scans.states
                || (IsOpen(w, job.key) && job.key in w.runs.byScan
                    && v.scans.states == w.scans.states[job.key := Completed(w.runs.byScan[job.key].id)]))
  {
    hide EffectsRaise, FinalRaise, AttachRaise, Raise, WorldOk, LogOk, CountsOk, RunOk, FinalsOk, IntentOk, Fenced,
         LastFinal, WellFormed, RunningCount, LostCount, Finished, AlreadyFinal, Follows, FinalAttempt,
         RunningAttempt, Candidate, Transition, DegradedMove, RunsAgree,
         Predecessor;
    Own(setup, w, job.key);
  }

  lemma OwnQuietLate(setup: Setup, job: Job, w: World, pc: Pc, c: Choice)
    requires !Early(pc)
    requires Ready(setup, job, w, pc)
    requires AppliedLast(Log(w.scans, job.key)) || (job.key in w.scans.states && w.scans.states[job.key].Completed?)
    ensures var v := Step(setup, job, w, pc, c).0;
            && v.records == w.records && v.history == w.history && v.intents == w.intents && v.runs == w.runs
            && v.fetches == w.fetches && v.scans.logs == w.scans.logs
            && (|| v.scans.states == w.scans.states
                || (IsOpen(w, job.key) && job.key in w.runs.byScan
                    && v.scans.states == w.scans.states[job.key := Completed(w.runs.byScan[job.key].id)]))
  {
    hide EffectsRaise, FinalRaise, AttachRaise, Raise, WorldOk, LogOk, CountsOk, RunOk, FinalsOk, IntentOk, Fenced,
         LastFinal, WellFormed, RunningCount, LostCount, Finished, AlreadyFinal, Follows, FinalAttempt,
         RunningAttempt, Candidate, Transition, DegradedMove, RunsAgree,
         Predecessor, MatchesEvidence, MatchingIntents, ResultOk, LostAttempt;
    Own(setup, w, job.key);
  }

  /** Once a scan has an applied attempt or is completed, its own coordinators write nothing but
      the completion of the scan. */
  lemma OwnQuiet(setup: Setup, job: Job, w: World, pc: Pc, c: Choice)
    requires Ready(setup, job, w, pc)
    requires AppliedLast(Log(w.scans, job.key)) || (job.key in w.scans.states && w.scans.states[job.key].Completed?)
    ensures var v := Step(setup, job, w, pc, c).0;
            && v.records == w.records && v.history == w.history && v.intents == w.intents && v.runs == w.runs
            && v.fetches == w.fetches && v.scans.logs == w.scans.logs
            && (|| v.scans.states == w.scans.states
                || (IsOpen(w, job.key) && job.key in w.runs.byScan
                    && v.scans.states == w.scans.states[job.key := Completed(w.runs.byScan[job.key].id)]))
  {
    hide Step, Local, WorldOk;
    if Early(pc) {
      OwnQuietEarly(setup, job, w, pc, c);
    } else {
      OwnQuietLate(setup, job, w, pc, c);
    }
  }

  /** What one coordinator relies on survives the steps of the others. */
  lemma LocalFrame(setup: Setup, w: World, v: World, job: Job, pc: Pc)
    requires job.key.plan in setup.plans && Local(setup, w, job, pc)
    requires SameScan(w, v, job.key) && Grows(w, v)
    requires pc.StoreRun? ==> pc.run.id !in v.runs.byId
    ensures Local(setup, v, job, pc)
  {
    hide LastFinal, Fenced, RunningCount, LostCount, FinalAttempt, RunningAttempt, Follows, WellFormed,
         DegradedMove;
    if (pc.PutIntent? || pc.FinalList? || pc.FinalRecord?) && Fenced(w, pc.run) {
      FencedGrows(w, v, pc.run);
    }
  }

  lemma StepElsewhere(setup: Setup, job: Job, w: World, pc: Pc, c: Choice)
    requires Ready(setup, job, w, pc)
    ensures var v := Step(setup, job, w, pc, c).0;
            Grows(w, v) && forall j :: j != job.key ==> SameScan(w, v, j)
  {
    hide Call, WorldOk, Local, DegradedMove;
    CallElsewhere(setup, job, w, pc, c);
  }

  lemma StepLocksEarly(setup: Setup, job: Job, w: World, pc: Pc, c: Choice)
    requires Early(pc)
    requires job.key.plan in setup.plans
    ensures var (v, next) := Step(setup, job, w, pc, c);
            && (Holds(next) && Holds(pc) ==> v.locks == w.locks)
            && (Holds(next) && !Holds(pc) ==> job.key !in w.locks && job.key in v.locks)
            && (forall j :: j in w.locks && (j != job.key || !Holds(pc)) ==> j in v.locks)
            && (!Holds(pc) ==> v == w.(locks := v.locks))
  {
    hide Candidate, Transition, LastFinal, LastApplied, WellFormed, AppendAllowed, ReferencesExist, RunningCount,
         AlreadyFinal, EffectsRaise, FinalRaise, AttachRaise, AuditRaise, Adjudicate, AfterEffects, DegradedMove;
    if Holds(pc) && pc.Release? {
      ReleaseRaises(pc);
    }
  }

  lemma StepLocksLate(setup: Setup, job: Job, w: World, pc: Pc, c: Choice)
    requires !Early(pc)
    requires job.key.plan in setup.plans
    ensures var (v, next) := Step(setup, job, w, pc, c);
            && (Holds(next) && Holds(pc) ==> v.locks == w.locks)
            && (Holds(next) && !Holds(pc) ==> job.key !in w.locks && job.key in v.locks)
            && (forall j :: j in w.locks && (j != job.key || !Holds(pc)) ==> j in v.locks)
            && (!Holds(pc) ==> v == w.(locks := v.locks))
  {
    hide Candidate, Transition, LastFinal, LastApplied, WellFormed, AppendAllowed, ReferencesExist, RunningCount,
         AlreadyFinal, EffectsRaise, FinalRaise, AttachRaise, AuditRaise, Adjudicate, AfterEffects, DegradedMove;
    if Holds(pc) && pc.Release? {
      ReleaseRaises(pc);
    }
  }

  lemma StepLocks(setup: Setup, job: Job, w: World, pc: Pc, c: Choice)
    requires job.key.plan in setup.plans
    ensures var (v, next) := Step(setup, job, w, pc, c);
            && (Holds(next) && Holds(pc) ==> v.locks == w.locks)
            && (Holds(next) && !Holds(pc) ==> job.key !in w.locks && job.key in v.locks)
            && (forall j :: j in w.locks && (j != job.key || !Holds(pc)) ==> j in v.locks)
            && (!Holds(pc) ==> v == w.(locks := v.locks))
  {
    hide Step;
    if Early(pc) {
      StepLocksEarly(setup, job, w, pc, c);
    } else {
      StepLocksLate(setup, job, w, pc, c);
    }
  }

  lemma ReleaseRaises(pc: Pc)
    requires pc.Release?
    ensures Raise(pc) == Done(Raised)
  {
  }

  lemma CallRuns(setup: Setup, job: Job, w: World, pc: Pc, c: Choice)
    requires job.key.plan in setup.plans
    ensures var (v, next) := Call(setup, job, w, pc, c);
            && (next.StoreRun? ==> next.run.id == w.nextId)
            && forall id :: id in v.runs.byId ==> id in w.runs.byId || (pc.StoreRun? && id == pc.run.id)
  {
    hide Proposal, Transition, LastFinal, LastApplied, WellFormed, AppendAllowed, ReferencesExist, RunningCount,
         AlreadyFinal;
  }

  lemma StepRuns(setup: Setup, job: Job, w: World, pc: Pc, c: Choice)
    requires job.key.plan in setup.plans
    ensures var (v, next) := Step(setup, job, w, pc, c);
            && (next.StoreRun? ==> next.run.id == w.nextId)
            && forall id :: id in v.runs.byId ==> id in w.runs.byId || (pc.StoreRun? && id == pc.run.id)
  {
    hide Call;
    CallRuns(setup, job, w, pc, c);
  }

  /** A stored candidate stays stored. */
  lemma RunsStay(setup: Setup, job: Job, w: World, pc: Pc, c: Choice)
    requires job.key.plan in setup.plans
    ensures w.runs.byScan.Keys <= Step(setup, job, w, pc, c).0.runs.byScan.Keys
  {
    hide Step;
    if Early(pc) {
      RunsStayEarly(setup, job, w, pc, c);
    } else {
      RunsStayLate(setup, job, w, pc, c);
    }
  }

  lemma RunsStayEarly(setup: Setup, job: Job, w: World, pc: Pc, c: Choice)
    requires job.key.plan in setup.plans && Early(pc)
    ensures w.runs.byScan.Keys <= Step(setup, job, w, pc, c).0.runs.byScan.Keys
  {
    hide Raise, Transition, Candidate, Appended, RunningCount, DegradedMove, RunningAttempt, LostAttempt;
  }

  lemma RunsStayLate(setup: Setup, job: Job, w: World, pc: Pc, c: Choice)
    requires job.key.plan in setup.plans && !Early(pc)
    ensures w.runs.byScan.Keys <= Step(setup, job, w, pc, c).0.runs.byScan.Keys
  {
    hide EffectsRaise, FinalRaise, AttachRaise, Raise, Appended, Attached, IntentStored, LastFinal, LastApplied,
         MatchingIntents, AlreadyFinal, FinalAttempt, LostAttempt, AfterEffects;
  }

  /** A finished result of the acting coordinator's scan stays true. */
  lemma ResultFrame(setup: Setup, job: Job, w: World, pc: Pc, c: Choice, r: Result)
    requires Ready(setup, job, w, pc) && ResultOk(w, job.key, r)
    ensures ResultOk(Step(setup, job, w, pc, c).0, job.key, r)
  {
    hide Step, WorldOk, Local, DegradedMove;
    if job.key in w.scans.states && w.scans.states[job.key].Completed? {
      OwnQuiet(setup, job, w, pc, c);
    }
  }

  // The whole system

  ghost predicate Paired(a: Session, b: Session) {
    Disjoint(a, b) && Disjoint(b, a)
  }

  /** One coordinator's step seen by another coordinator. */
  lemma OtherKept(setup: Setup, w: World, s: Session, c: Choice, t: Session)
    requires WorldOk(setup, w) && SessionOk(setup, w, s) && SessionOk(setup, w, t) && Paired(s, t)
    ensures SessionOk(setup, Step(setup, s.job, w, s.pc, c).0, t)
  {
    hide Step, WorldOk, Local, Grows, SameScan, DegradedMove;
    var (v, next) := Step(setup, s.job, w, s.pc, c);
    StepElsewhere(setup, s.job, w, s.pc, c);
    StepLocks(setup, s.job, w, s.pc, c);
    StepRuns(setup, s.job, w, s.pc, c);
    if t.pc.StoreRun? { StoringIsFresh(setup, w, t); }
    if t.job.key != s.job.key {
      LocalFrame(setup, w, v, t.job, t.pc);
    } else if Holds(t.pc) {
      LocksFrame(w, v, t.job.key);
      LocalFrame(setup, w, v, t.job, t.pc);
    } else {
      IdleFrame(setup, w, s, c, t);
    }
  }

  lemma StoringIsFresh(setup: Setup, w: World, t: Session)
    requires SessionOk(setup, w, t) && t.pc.StoreRun?
    ensures t.pc.run.id !in w.runs.byId && t.pc.run.id < w.nextId
  {
    hide LastFinal, Fenced, RunningCount, LostCount, DegradedMove;
  }

  lemma LocksFrame(w: World, v: World, k: ScanKey)
    requires v == w.(locks := v.locks)
    ensures SameScan(w, v, k)
  {
  }

  lemma IdleFrame(setup: Setup, w: World, s: Session, c: Choice, t: Session)
    requires WorldOk(setup, w) && SessionOk(setup, w, s) && SessionOk(setup, w, t)
    requires t.job.key == s.job.key && !Holds(t.pc)
    ensures Local(setup, Step(setup, s.job, w, s.pc, c).0, t.job, t.pc)
  {
    hide Step, WorldOk, ResultOk, DegradedMove;
    if t.pc.Done? {
      ResultFrame(setup, s.job, w, s.pc, c, t.pc.result);
    }
  }

  lemma SelfKept(setup: Setup, w: World, s: Session, c: Choice)
    requires WorldOk(setup, w) && SessionOk(setup, w, s)
    ensures WorldOk(setup, Step(setup, s.job, w, s.pc, c).0)
    ensures SessionOk(setup, Step(setup, s.job, w, s.pc, c).0, Moved(setup, w, s, c))
  {
    hide Step, WorldOk, Local, Untouched, Touches, DegradedMove;
    StepLands(setup, s.job, w, s.pc, c);
    StepLocks(setup, s.job, w, s.pc, c);
    StepTouches(setup, s.job, w, s.pc, c);
  }

  function Moved(setup: Setup, w: World, s: Session, c: Choice): Session
    requires s.job.key.plan in setup.plans
  {
    var (v, next) := Step(setup, s.job, w, s.pc, c);
    Session(s.job, next, s.touched || Touches(w, v))
  }

  lemma PairKept(setup: Setup, w: World, s: Session, c: Choice, t: Session)
    requires SessionOk(setup, w, s) && SessionOk(setup, w, t) && Paired(s, t)
    ensures Paired(Moved(setup, w, s, c), t)
  {
    hide Step, Local, Untouched, Touches, DegradedMove;
    StepLocks(setup, s.job, w, s.pc, c);
    StepRuns(setup, s.job, w, s.pc, c);
    if t.pc.StoreRun? { StoringIsFresh(setup, w, t); }
  }

  lemma ProceedKeeps(setup: Setup, y: Sys, id: nat, c: Choice)
    requires Inv(setup, y) && id in y.sessions
    ensures Inv(setup, Apply(setup, y, Proceed(id, c)))
  {
    hide Step, WorldOk, SessionOk, Disjoint, Touches, DegradedMove;
    var w, s := y.world, y.sessions[id];
    OnPlan(setup, w, s);
    var v := Step(setup, s.job, w, s.pc, c).0;
    var z := Apply(setup, y, Proceed(id, c));
    assert z == Sys(v, y.sessions[id := Moved(setup, w, s, c)]);
    SelfKept(setup, w, s, c);
    forall i | i in y.sessions && i != id
      ensures SessionOk(setup, v, y.sessions[i]) && Paired(Moved(setup, w, s, c), y.sessions[i])
    {
      OtherKept(setup, w, s, c, y.sessions[i]);
      PairKept(setup, w, s, c, y.sessions[i]);
    }
  }

  lemma OnPlan(setup: Setup, w: World, s: Session)
    requires SessionOk(setup, w, s)
    ensures s.job.key.plan in setup.plans
  {
  }

  lemma StartKeeps(setup: Setup, y: Sys, id: nat, job: Job)
    requires Inv(setup, y)
    ensures Inv(setup, Apply(setup, y, Start(id, job)))
  {
    hide WorldOk, DegradedMove;
    var z := Apply(setup, y, Start(id, job));
    if z != y {
      forall i, j | i in z.sessions && j in z.sessions && i != j
        ensures Disjoint(z.sessions[i], z.sessions[j])
      {
        assert i != id && j != id ==> Disjoint(y.sessions[i], y.sessions[j]);
      }
    }
  }

  /** A coordinator that stops for good leaves the stores as they are; its lock may be given back. */
  lemma VanishKeeps(setup: Setup, y: Sys, id: nat, unlock: bool)
    requires Inv(setup, y) && id in y.sessions
    ensures Inv(setup, Apply(setup, y, Vanish(id, unlock)))
  {
    hide WorldOk, Local, Untouched, DegradedMove;
    var z := Apply(setup, y, Vanish(id, unlock));
    CounterKeeps(setup, y.world, y.world.nextId, z.world.locks);
    assert z.world == y.world.(nextId := y.world.nextId, locks := z.world.locks);
    forall i | i in z.sessions ensures SessionOk(setup, z.world, z.sessions[i]) {
      var s := y.sessions[i];
      assert SessionOk(setup, y.world, s) && Disjoint(s, y.sessions[id]);
      LocksFrame(y.world, z.world, s.job.key);
      if s.pc.StoreRun? { StoringIsFresh(setup, y.world, s); }
      LocalFrame(setup, y.world, z.world, s.job, s.pc);
    }
  }

  lemma ApplyKeeps(setup: Setup, y: Sys, a: Action)
    requires Inv(setup, y)
    ensures Inv(setup, Apply(setup, y, a))
  {
    hide Inv, Step, DegradedMove;
    match a
    case Start(id, job) => StartKeeps(setup, y, id, job);
    case Proceed(id, c) => if id in y.sessions { ProceedKeeps(setup, y, id, c); }
    case Vanish(id, unlock) => if id in y.sessions { VanishKeeps(setup, y, id, unlock); }
  }

  lemma EmptyOk(setup: Setup)
    ensures Inv(setup, Sys(EMPTY, map[]))
  {
  }

  /** The invariant of every execution. */
  lemma {:induction false} ExecutionsKeepInv(setup: Setup, actions: seq<Action>)
    ensures Inv(setup, Execute(setup, actions))
  {
    hide Inv, Apply, DegradedMove;
    if actions == [] {
      EmptyOk(setup);
    } else {
      ExecutionsKeepInv(setup, actions[..|actions| - 1]);
      ApplyKeeps(setup, Execute(setup, actions[..|actions| - 1]), actions[|actions| - 1]);
    }
  }
}
