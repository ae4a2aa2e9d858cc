/** What holds of every execution: any number of coordinators, any interleaving, any failure of
    any call, before or after its effect. */
module ProtocolTheorems {
  import opened StateMachine
  import opened ScanLog
  import opened Stores
  import opened Protocol
  import opened ProtocolInvariant
  import opened ProtocolSteps
  import opened ProtocolCalls
  import opened ProtocolSystem

  ghost function Reached(setup: Setup, actions: seq<Action>): World {
    Execute(setup, actions).world
  }

  lemma ReachedOk(setup: Setup, actions: seq<Action>)
    ensures WorldOk(setup, Reached(setup, actions))
  {
    ExecutionsKeepInv(setup, actions);
  }

  // Finality

  /** The scan has an applied attempt, or it is completed. */
  predicate Decided(w: World, k: ScanKey) {
    AppliedLast(Log(w.scans, k)) || (k in w.scans.states && w.scans.states[k].Completed?)
  }

  /** From w to v nothing of the scan changed but its completion, and no revision was stored on
      its behalf. */
  ghost predicate Frozen(w: World, v: World, k: ScanKey) {
    && Log(v.scans, k) == Log(w.scans, k)
    && k in w.scans.states && k in v.scans.states
    && (w.scans.states[k].Completed? ==> v.scans.states[k] == w.scans.states[k])
    && k in w.runs.byScan && k in v.runs.byScan && v.runs.byScan[k] == w.runs.byScan[k]
    && SameIntents(w, v, w.runs.byScan[k])
    && FetchCount(v, k) == FetchCount(w, k)
    && forall p :: NoneBy(History(w, p), History(v, p), k)
  }

  /** The later history extends the earlier one without a revision by the scan. */
  ghost predicate NoneBy(h: seq<Entry>, g: seq<Entry>, k: ScanKey) {
    h <= g && forall i :: |h| <= i < |g| ==> g[i].author != k
  }

  lemma StepAuthors(setup: Setup, job: Job, w: World, pc: Pc, c: Choice, k: ScanKey)
    requires job.key.plan in setup.plans && k != job.key
    ensures forall p :: NoneBy(History(w, p), History(Step(setup, job, w, pc, c).0, p), k)
  {
    hide Call, Raise;
    CallAuthors(setup, job, w, pc, c, k);
  }

  lemma CallAuthorsEarly(setup: Setup, job: Job, w: World, pc: Pc, c: Choice, k: ScanKey)
    requires Early(pc)
    requires job.key.plan in setup.plans && k != job.key
    ensures forall p :: NoneBy(History(w, p), History(Call(setup, job, w, pc, c).0, p), k)
  {
    hide Candidate, Transition, LastFinal, LastApplied, WellFormed, AppendAllowed, ReferencesExist, RunningCount,
         AlreadyFinal, EffectsRaise, FinalRaise, AttachRaise, AuditRaise, Adjudicate, AfterEffects;
  }

  lemma CallAuthorsLate(setup: Setup, job: Job, w: World, pc: Pc, c: Choice, k: ScanKey)
    requires !Early(pc)
    requires job.key.plan in setup.plans && k != job.key
    ensures forall p :: NoneBy(History(w, p), History(Call(setup, job, w, pc, c).0, p), k)
  {
    hide Candidate, Transition, LastFinal, LastApplied, WellFormed, AppendAllowed, ReferencesExist, RunningCount,
         AlreadyFinal, EffectsRaise, FinalRaise, AttachRaise, AuditRaise, Adjudicate, AfterEffects;
  }

  lemma CallAuthors(setup: Setup, job: Job, w: World, pc: Pc, c: Choice, k: ScanKey)
    requires job.key.plan in setup.plans && k != job.key
    ensures forall p :: NoneBy(History(w, p), History(Call(setup, job, w, pc, c).0, p), k)
  {
    hide Call;
    if Early(pc) {
      CallAuthorsEarly(setup, job, w, pc, c, k);
    } else {
      CallAuthorsLate(setup, job, w, pc, c, k);
    }
  }

  lemma DecidedHasRun(setup: Setup, w: World, k: ScanKey)
    requires WorldOk(setup, w) && Decided(w, k)
    ensures k in w.runs.byScan && k in w.scans.states
  {
    hide HistoryOk, RunOk, IntentOk, CountsOk, LogOk;
    assert ScanOk(setup, w, k);
  }

  lemma StepFreezes(setup: Setup, w: World, s: Session, c: Choice, k: ScanKey)
    requires WorldOk(setup, w) && SessionOk(setup, w, s) && Decided(w, k)
    ensures Frozen(w, Step(setup, s.job, w, s.pc, c).0, k)
  {
    hide Step, WorldOk, Local, AppliedLast, Fenced;
    DecidedHasRun(setup, w, k);
    if s.job.key == k {
      OwnQuiet(setup, s.job, w, s.pc, c);
    } else {
      StepElsewhere(setup, s.job, w, s.pc, c);
      assert SameScan(w, Step(setup, s.job, w, s.pc, c).0, k);
      StepAuthors(setup, s.job, w, s.pc, c, k);
    }
  }

  lemma ActionFreezes(setup: Setup, y: Sys, a: Action, k: ScanKey)
    requires Inv(setup, y) && Decided(y.world, k)
    ensures Frozen(y.world, Apply(setup, y, a).world, k)
  {
    hide Step, WorldOk, SessionOk, Decided, Touches;
    DecidedHasRun(setup, y.world, k);
    if a.Proceed? && a.id in y.sessions {
      OnPlan(setup, y.world, y.sessions[a.id]);
      StepFreezes(setup, y.world, y.sessions[a.id], a.choice, k);
    }
  }

  lemma FrozenChains(u: World, w: World, v: World, k: ScanKey)
    requires Frozen(u, w, k) && Frozen(w, v, k)
    ensures Frozen(u, v, k)
  {
    forall p ensures NoneBy(History(u, p), History(v, p), k) {
      assert NoneBy(History(u, p), History(w, p), k) && NoneBy(History(w, p), History(v, p), k);
    }
  }

  lemma FrozenStaysDecided(w: World, v: World, k: ScanKey)
    requires Decided(w, k) && Frozen(w, v, k)
    ensures Decided(v, k)
  {
  }

  /** APPLIED is absorbing: once a scan has an applied attempt, or is completed, then whatever
      happens later its log, run, intents and provider calls stand still, its completion is never
      undone, and no revision of any plan's record is stored by it again. */
  lemma {:induction false} DecidedIsAbsorbing(setup: Setup, actions: seq<Action>, more: seq<Action>, k: ScanKey)
    requires Decided(Reached(setup, actions), k)
    ensures Frozen(Reached(setup, actions), Reached(setup, actions + more), k)
  {
    hide Decided, Frozen, Apply, Inv;
    if more == [] {
      assert actions + more == actions;
      ExecutionsKeepInv(setup, actions);
      FrozenReflexive(setup, Execute(setup, actions), k);
    } else {
      var most, last := more[..|more| - 1], more[|more| - 1];
      var whole := actions + more;
      assert whole[..|whole| - 1] == actions + most && whole[|whole| - 1] == last;
      DecidedIsAbsorbing(setup, actions, most, k);
      FrozenStaysDecided(Reached(setup, actions), Reached(setup, actions + most), k);
      ExecutionsKeepInv(setup, actions + most);
      ActionFreezes(setup, Execute(setup, actions + most), last, k);
      FrozenChains(Reached(setup, actions), Reached(setup, actions + most), Reached(setup, whole), k);
    }
  }

  lemma FrozenReflexive(setup: Setup, y: Sys, k: ScanKey)
    requires Inv(setup, y) && Decided(y.world, k)
    ensures Frozen(y.world, y.world, k)
  {
    hide Decided, WorldOk, SessionOk, Disjoint;
    DecidedHasRun(setup, y.world, k);
  }

  predicate AppliedAt(log: seq<Attempt>, i: int) {
    0 <= i < |log| && log[i].status == SUCCEEDED && log[i].disposition != Some(Superseded)
  }

  /** A log holds at most one applied success, and it is the last attempt. */
  lemma AppliedIsUnique(setup: Setup, actions: seq<Action>, k: ScanKey, i: int)
    requires AppliedAt(Log(Reached(setup, actions).scans, k), i)
    ensures i == |Log(Reached(setup, actions).scans, k)| - 1
    ensures AppliedLast(Log(Reached(setup, actions).scans, k))
  {
    var w := Reached(setup, actions);
    ReachedOk(setup, actions);
    OneApplied(setup, w, k, i);
  }

  lemma OneApplied(setup: Setup, w: World, k: ScanKey, i: int)
    requires WorldOk(setup, w) && AppliedAt(Log(w.scans, k), i)
    ensures i == |Log(w.scans, k)| - 1 && AppliedLast(Log(w.scans, k))
  {
    hide HistoryOk, RunOk, IntentOk, CountsOk, LogOk;
    assert ScanOk(setup, w, k);
    var log := Log(w.scans, k);
    assert HasSuccess(log);
    match log[i].disposition.value { case Applied => case Superseded => }
  }

  predicate Answer(y: Sys, id: nat, k: ScanKey, r: Result) {
    id in y.sessions && y.sessions[id].job.key == k && y.sessions[id].pc == Done(r) && r.Returned? && r.run.Some?
  }

  /** A completed scan replays: any two answers that name a run, given to any two runs of one scan
      at any two moments, name the same run with the same disposition. */
  lemma {:induction false} AnswersAgree(setup: Setup, actions: seq<Action>, more: seq<Action>, k: ScanKey,
                                        i: nat, r: Result, j: nat, q: Result)
    requires Answer(Execute(setup, actions), i, k, r) && Answer(Execute(setup, actions + more), j, k, q)
    ensures r == q
    ensures Frozen(Reached(setup, actions), Reached(setup, actions + more), k)
  {
    hide Apply, Inv, WorldOk, NoneBy;
    ExecutionsKeepInv(setup, actions);
    ExecutionsKeepInv(setup, actions + more);
    AnswerIsRecorded(setup, Execute(setup, actions), i, k, r);
    AnswerIsRecorded(setup, Execute(setup, actions + more), j, k, q);
    DecidedIsAbsorbing(setup, actions, more, k);
  }

  ghost predicate Recorded(w: World, k: ScanKey, r: Result)
    requires r.Returned? && r.run.Some?
  {
    && r.disposition in {RunCompleted, RunSuperseded}
    && Replays(w, k, r.run.value, if r.disposition == RunCompleted then Applied else Superseded)
  }

  lemma AnswerIsRecorded(setup: Setup, y: Sys, i: nat, k: ScanKey, r: Result)
    requires Inv(setup, y) && Answer(y, i, k, r)
    ensures Recorded(y.world, k, r) && Decided(y.world, k)
  {
    hide WorldOk, Disjoint, Settled;
    assert SessionOk(setup, y.world, y.sessions[i]);
  }

  /** The replay of a completed scan never has to record a final attempt: the branch that would do
      so is never entered. */
  lemma {:induction false} ReplayNeverFinalizes(setup: Setup, actions: seq<Action>, id: nat)
    requires id in Execute(setup, actions).sessions
    ensures !Execute(setup, actions).sessions[id].pc.ReplayFinalList?
    ensures !Execute(setup, actions).sessions[id].pc.ReplayFinalRecord?
  {
    ExecutionsKeepInv(setup, actions);
    assert SessionOk(setup, Reached(setup, actions), Execute(setup, actions).sessions[id]);
  }

  /** A run that reports SUPERSEDED changed no intent and no record that existed. */
  lemma {:induction false} SupersededChangesNothing(setup: Setup, actions: seq<Action>, id: nat)
    requires id in Execute(setup, actions).sessions
    requires var pc := Execute(setup, actions).sessions[id].pc; pc.Done? && Reports(pc.result)
    ensures !Execute(setup, actions).sessions[id].touched
  {
    ExecutionsKeepInv(setup, actions);
    assert SessionOk(setup, Reached(setup, actions), Execute(setup, actions).sessions[id]);
  }

  // The durable history

  /** Every plan's stored revisions are a run of the state machine from IDLE, whatever interleaved:
      the candidates that made them were computed from earlier reads. */
  lemma HistoryRunsTheMachine(setup: Setup, actions: seq<Action>, p: nat, i: int)
    requires 0 <= i < |History(Reached(setup, actions), p)|
    ensures var w, h := Reached(setup, actions), History(Reached(setup, actions), p);
            && p in setup.plans && p in w.records && h[|h| - 1].record == w.records[p]
            && h[i].record.revision == i
            && (i == 0 ==> h[i].record.status == Status(IDLE, false))
            && (i > 0 ==>
                  var from, to := h[i - 1].record.status, h[i].record.status;
                  EdgeTable(HasSource(setup.plans[p]), from, to, false)
                      || EdgeTable(HasSource(setup.plans[p]), from, to, true))
  {
    var w, h := Reached(setup, actions), History(Reached(setup, actions), p);
    ReachedOk(setup, actions);
    EntryHolds(setup, w, p, i);
    if i > 0 {
      var plan, from, to := setup.plans[p], h[i - 1].record.status, h[i].record.status;
      EdgesAreTheTable(plan, from, to, true);
      EdgesAreTheTable(plan, from, to, false);
    }
  }

  lemma EntryHolds(setup: Setup, w: World, p: nat, i: int)
    requires WorldOk(setup, w) && 0 <= i < |History(w, p)|
    ensures p in setup.plans && p in w.records && p in w.history
    ensures EntryOk(setup, w, History(w, p), i, p)
    ensures w.records[p] == History(w, p)[|History(w, p)| - 1].record
  {
    hide ScanOk, EntryOk;
  }

  /** A halt is lifted only by an authorised resumption from WAITING_CONFIRMATION. */
  lemma HaltIsLiftedByResumption(setup: Setup, actions: seq<Action>, p: nat, i: int)
    requires 0 < i < |History(Reached(setup, actions), p)|
    requires var h := History(Reached(setup, actions), p); h[i - 1].record.status.halted && !h[i].record.status.halted
    ensures var h := History(Reached(setup, actions), p);
            && h[i - 1].record.status.state == WAITING_CONFIRMATION
            && h[i].record.status.state == WATCHING
            && h[i].record.fence.Some?
            && p in setup.plans
            && OnlyResumes(setup.plans[p], h[i - 1].record.status, h[i].record.status)
  {
    var w, h := Reached(setup, actions), History(Reached(setup, actions), p);
    ReachedOk(setup, actions);
    EntryHolds(setup, w, p, i);
    hide EdgeTable, OnlyResumes, Edge;
    var plan, from, to := setup.plans[p], h[i - 1].record.status, h[i].record.status;
    LiftingResumes(plan, from, to, Edge(plan, from, to, true));
  }

  /** A completed rotation is never left. */
  lemma {:induction false} CompletionIsForever(setup: Setup, actions: seq<Action>, p: nat, i: int, j: int)
    requires 0 <= i <= j < |History(Reached(setup, actions), p)|
    requires History(Reached(setup, actions), p)[i].record.status.state == ROTATION_COMPLETED
    ensures History(Reached(setup, actions), p)[j].record.status == History(Reached(setup, actions), p)[i].record.status
    decreases j
  {
    hide Execute, WorldOk, EntryOk, EdgeTable;
    if i < j {
      CompletionIsForever(setup, actions, p, i, j - 1);
      HistoryRunsTheMachine(setup, actions, p, j);
      CompletedIsLeftByNoEdge(History(Reached(setup, actions), p)[j - 1].record.status,
                              History(Reached(setup, actions), p)[j].record.status);
    }
  }

  lemma CompletedIsLeftByNoEdge(from: Status, to: Status)
    ensures from.state == ROTATION_COMPLETED && to != from ==>
              forall source, notify :: !EdgeTable(source, from, to, notify)
  {
  }

  /** The notified state is entered only by the fenced write of a run that carries the
      notification flag. */
  lemma NotifiedByItsRun(setup: Setup, actions: seq<Action>, p: nat, i: int)
    requires 0 < i < |History(Reached(setup, actions), p)|
    requires var h := History(Reached(setup, actions), p);
             h[i].record.status.state == ACTION_NOTIFIED && h[i - 1].record.status.state != ACTION_NOTIFIED
    ensures var w, e := Reached(setup, actions), History(Reached(setup, actions), p)[i];
            && e.author in w.runs.byScan
            && e.record.fence == Some(FenceOf(w.runs.byScan[e.author]))
            && w.runs.byScan[e.author].notify
  {
    var w, h := Reached(setup, actions), History(Reached(setup, actions), p);
    ReachedOk(setup, actions);
    EntryHolds(setup, w, p, i);
    NotifiesWhenEntering(setup, w, p, i);
  }

  lemma NotifiesWhenEntering(setup: Setup, w: World, p: nat, i: int)
    requires WorldOk(setup, w) && 0 < i < |History(w, p)|
    requires var h := History(w, p);
             h[i].record.status.state == ACTION_NOTIFIED && h[i - 1].record.status.state != ACTION_NOTIFIED
    ensures var e := History(w, p)[i];
            && e.author in w.runs.byScan
            && e.record.fence == Some(FenceOf(w.runs.byScan[e.author]))
            && w.runs.byScan[e.author].notify
  {
    hide LogOk, CountsOk, FinalsOk, IntentOk, Finished;
    EntryHolds(setup, w, p, i);
    var e := History(w, p)[i];
    assert e.record.fence.Some?;
    assert ScanOk(setup, w, e.author);
    var run := w.runs.byScan[e.author];
    EdgesAreTheTable(setup.plans[p], run.prev, run.next, run.notify);
  }

  /** The history only ever grows at its end. */
  lemma {:induction false} HistoryIsAppendOnly(setup: Setup, actions: seq<Action>, more: seq<Action>, p: nat)
    ensures History(Reached(setup, actions), p) <= History(Reached(setup, actions + more), p)
  {
    hide Apply, Inv;
    if more == [] {
      assert actions + more == actions;
    } else {
      var most, last, whole := more[..|more| - 1], more[|more| - 1], actions + more;
      assert whole[..|whole| - 1] == actions + most && whole[|whole| - 1] == last;
      HistoryIsAppendOnly(setup, actions, most, p);
      ExecutionsKeepInv(setup, actions + most);
      ActionGrows(setup, Execute(setup, actions + most), last, p);
    }
  }

  lemma ActionGrows(setup: Setup, y: Sys, a: Action, p: nat)
    requires Inv(setup, y)
    ensures History(y.world, p) <= History(Apply(setup, y, a).world, p)
  {
    hide Step, WorldOk, Disjoint, Touches, Local;
    if a.Proceed? && a.id in y.sessions {
      var s := y.sessions[a.id];
      assert SessionOk(setup, y.world, s);
      StepElsewhere(setup, s.job, y.world, s.pc, a.choice);
    }
  }

  /** A candidate whose transition is a no-op is never applied. */
  lemma NoopIsNeverApplied(setup: Setup, actions: seq<Action>, k: ScanKey)
    requires AppliedLast(Log(Reached(setup, actions).scans, k))
    ensures var w := Reached(setup, actions);
            k in w.runs.byScan && w.runs.byScan[k].prev != w.runs.byScan[k].next
  {
    ReachedOk(setup, actions);
    AppliedMoved(setup, Reached(setup, actions), k);
  }

  lemma AppliedMoved(setup: Setup, w: World, k: ScanKey)
    requires WorldOk(setup, w) && AppliedLast(Log(w.scans, k))
    ensures k in w.runs.byScan && w.runs.byScan[k].prev != w.runs.byScan[k].next
  {
    hide LogOk, CountsOk, FinalsOk, IntentOk, RunOk;
    DecidedHasRun(setup, w, k);
    assert ScanOk(setup, w, k);
    var run := w.runs.byScan[k];
    var h := History(w, run.key.scan.plan);
    var i :| 0 <= i < |h| && h[i].record.fence == Some(FenceOf(run));
    EntryHolds(setup, w, run.key.scan.plan, i);
    assert Filed(w.runs, k) && Filed(w.runs, h[i].author);
  }

  // Work and notifications

  lemma {:induction false} LogIsCounted(setup: Setup, w: World, k: ScanKey, n: nat)
    requires WorldOk(setup, w) && n <= |Log(w.scans, k)|
    ensures var log := Log(w.scans, k)[..n];
            n <= RunningCount(log) + LostCount(log)
                 + (if n + 2 <= |Log(w.scans, k)| then 0 else n + 2 - |Log(w.scans, k)|)
  {
    hide HistoryOk, RunOk, IntentOk, CountsOk, LogOk;
    if n > 0 {
      var log := Log(w.scans, k);
      assert log[..n][..n - 1] == log[..n - 1] && log[..n][n - 1] == log[n - 1];
      LogIsCounted(setup, w, k, n - 1);
      assert ScanOk(setup, w, k);
      if log[n - 1].status == SUCCEEDED { assert HasSuccess(log); }
    }
  }

  /** However often a scan is triggered and wherever its calls fail, it calls the provider at most
      maxFetches times and logs at most 2 * maxFetches + 2 attempts, numbered 1..n, each recovering
      its predecessor. */
  lemma WorkIsBounded(setup: Setup, actions: seq<Action>, k: ScanKey)
    ensures var w, log := Reached(setup, actions), Log(Reached(setup, actions).scans, k);
            && FetchCount(w, k) <= setup.maxFetches
            && |log| <= 2 * setup.maxFetches + 2
            && Numbered(log)
            && forall i :: 0 <= i < |log| ==> log[i].recoveryOf == Predecessor(log, i)
  {
    var w, log := Reached(setup, actions), Log(Reached(setup, actions).scans, k);
    ReachedOk(setup, actions);
    assert ScanOk(setup, w, k);
    LogIsCounted(setup, w, k, |log|);
    assert log[..|log|] == log;
  }

  /** A scan that was applied with the notification flag has exactly one intent, its own. */
  lemma NotifiedExactlyOnce(setup: Setup, actions: seq<Action>, k: ScanKey)
    requires AppliedLast(Log(Reached(setup, actions).scans, k))
    ensures var w := Reached(setup, actions);
            && k in w.runs.byScan
            && var run := w.runs.byScan[k];
               run.notify ==>
                 && run.id in w.intents.byRun && w.intents.byRun[run.id] == [run.key]
                 && MatchingIntents(w.intents, run) == [run.key]
                 && forall f :: f in w.intents.byKey && f.scan == k ==> f == run.key
  {
    var w := Reached(setup, actions);
    ReachedOk(setup, actions);
    DecidedHasRun(setup, w, k);
    if w.runs.byScan[k].notify { AppliedNotifies(setup, w, k); }
  }

  lemma AppliedNotifies(setup: Setup, w: World, k: ScanKey)
    requires WorldOk(setup, w) && AppliedLast(Log(w.scans, k)) && k in w.runs.byScan && w.runs.byScan[k].notify
    ensures var run := w.runs.byScan[k];
            && run.id in w.intents.byRun && w.intents.byRun[run.id] == [run.key]
            && MatchingIntents(w.intents, run) == [run.key]
            && forall f :: f in w.intents.byKey && f.scan == k ==> f == run.key
  {
    hide HistoryOk, LogOk, CountsOk, FinalsOk, RunsAgree;
    assert ScanOk(setup, w, k);
    var run := w.runs.byScan[k];
    assert Matching(w.intents, [run.key], run) == [run.key] + Matching(w.intents, [run.key][1..], run);
  }

  /** Every stored intent belongs to a stored run that carries the flag and held the fence at some
      revision of its plan. */
  lemma IntentsAreEarned(setup: Setup, actions: seq<Action>, f: FinalKey)
    requires f in Reached(setup, actions).intents.byKey
    ensures var w := Reached(setup, actions);
            && f.scan in w.runs.byScan
            && var run := w.runs.byScan[f.scan];
               run.key == f && run.notify && w.intents.byKey[f] == IntentOf(run) && Fenced(w, run)
  {
    hide HistoryOk, LogOk, CountsOk, FinalsOk, RunsAgree;
    ReachedOk(setup, actions);
    assert ScanOk(setup, Reached(setup, actions), f.scan);
  }
}
