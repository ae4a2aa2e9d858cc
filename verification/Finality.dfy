/** How often a scan gets a final attempt, and how often a candidate's transition is written. */
module Finality {
  import opened StateMachine
  import opened ScanLog
  import opened Stores
  import opened Protocol
  import opened ProtocolInvariant
  import opened ProtocolSteps
  import opened ProtocolCalls
  import opened ProtocolSystem
  import opened ProtocolTheorems
  import opened Recovery

  // Final attempts

  function SuccessCount(log: seq<Attempt>): nat {
    if log == [] then 0
    else SuccessCount(log[..|log| - 1]) + if log[|log| - 1].status == SUCCEEDED then 1 else 0
  }

  /** A superseded final attempt followed by an applied one, at the end of the log. */
  predicate FinalisedTwice(log: seq<Attempt>) {
    && |log| >= 2
    && log[|log| - 2].status == SUCCEEDED && log[|log| - 2].disposition == Some(Superseded)
    && AppliedLast(log)
  }

  /** A scan has two final attempts exactly if it was superseded first and applied later, and never
      more than two. */
  lemma FinalAttempts(setup: Setup, actions: seq<Action>, k: ScanKey)
    ensures var log := Log(Reached(setup, actions).scans, k);
            SuccessCount(log) == if FinalisedTwice(log) then 2 else if SucceededLast(log) then 1 else 0
  {
    hide HistoryOk, RunsAgree, IntentsAgree, LogOk, CountsOk, RunOk, IntentOk, Finished, Execute;
    var w := Reached(setup, actions);
    var log := Log(w.scans, k);
    ReachedOk(setup, actions);
    assert ScanOk(setup, w, k);
    var n := |log|;
    if n > 0 {
      if n > 1 {
        assert log[..n - 1][..n - 2] == log[..n - 2];
        NoSuccesses(log[..n - 2]);
      }
    }
  }

  lemma {:induction false} NoSuccesses(log: seq<Attempt>)
    requires forall i :: 0 <= i < |log| ==> log[i].status != SUCCEEDED
    ensures SuccessCount(log) == 0
  {
    if log != [] { NoSuccesses(log[..|log| - 1]); }
  }

  /** In every execution the provider and the evaluator are called only for scans that hold no
      candidate yet. */
  lemma {:induction false} ConsultsOnlyWithoutCandidate(setup: Setup, actions: seq<Action>, id: nat)
    requires id in Execute(setup, actions).sessions && Consults(Execute(setup, actions).sessions[id].pc)
    ensures Execute(setup, actions).sessions[id].job.key !in Reached(setup, actions).runs.byScan
  {
    hide Inv, Consults, Ready;
    ExecutionsKeepInv(setup, actions);
    InSession(setup, Execute(setup, actions), id);
    var s := Execute(setup, actions).sessions[id];
    ConsultsWithoutRun(setup, s.job, Reached(setup, actions), s.pc);
  }

  /** However the execution goes on, the log of a scan only gets longer. */
  lemma {:induction false} LogsAreAppendOnly(setup: Setup, actions: seq<Action>, more: seq<Action>, k: ScanKey)
    ensures Log(Reached(setup, actions).scans, k) <= Log(Reached(setup, actions + more).scans, k)
  {
    hide Apply;
    if more == [] {
      assert actions + more == actions;
    } else {
      var fewer, whole := more[..|more| - 1], actions + more;
      assert whole[..|whole| - 1] == actions + fewer;
      LogsAreAppendOnly(setup, actions, fewer, k);
      ExecutionsKeepInv(setup, actions + fewer);
      ActionLogs(setup, Execute(setup, actions + fewer), more[|more| - 1], k);
    }
  }

  lemma ActionLogs(setup: Setup, y: Sys, a: Action, k: ScanKey)
    requires Inv(setup, y)
    ensures Log(y.world.scans, k) <= Log(Apply(setup, y, a).world.scans, k)
  {
    hide Inv, Step, WorldOk;
    if a.Proceed? && a.id in y.sessions {
      InSession(setup, y, a.id);
      var s := y.sessions[a.id];
      StepLogs(setup, s.job, y.world, s.pc, a.choice, k);
    }
  }

  lemma StepLogs(setup: Setup, job: Job, w: World, pc: Pc, c: Choice, k: ScanKey)
    requires Ready(setup, job, w, pc)
    ensures Log(w.scans, k) <= Log(Step(setup, job, w, pc, c).0.scans, k)
  {
    hide WorldOk, Local, Step;
    OpenedLogs(setup, w, job.key);
    CreatesNew(setup, job, w, pc);
    if Early(pc) {
      StepLogsEarly(setup, job, w, pc, c, k);
    } else {
      StepLogsLate(setup, job, w, pc, c, k);
    }
  }

  lemma CreatesNew(setup: Setup, job: Job, w: World, pc: Pc)
    requires Ready(setup, job, w, pc)
    ensures job.key.plan in setup.plans && (pc.CreateScan? ==> job.key !in w.scans.states)
  {
    hide WorldOk;
  }

  lemma StepLogsEarly(setup: Setup, job: Job, w: World, pc: Pc, c: Choice, k: ScanKey)
    requires job.key.plan in setup.plans && Early(pc) && (job.key in w.scans.states <==> job.key in w.scans.logs)
    requires pc.CreateScan? ==> job.key !in w.scans.states
    ensures Log(w.scans, k) <= Log(Step(setup, job, w, pc, c).0.scans, k)
  {
    hide Step, Log;
    if pc.CreateScan? || pc.RecordRunning? || pc.DegradedRecord? {
      StepLogsWriting(setup, job, w, pc, c, k);
    } else {
      StepLogsReading(setup, job, w, pc, c);
    }
  }

  lemma StepLogsWriting(setup: Setup, job: Job, w: World, pc: Pc, c: Choice, k: ScanKey)
    requires pc.CreateScan? || pc.RecordRunning? || pc.DegradedRecord?
    requires job.key.plan in setup.plans && (job.key in w.scans.states <==> job.key in w.scans.logs)
    requires pc.CreateScan? ==> job.key !in w.scans.states
    ensures Log(w.scans, k) <= Log(Step(setup, job, w, pc, c).0.scans, k)
  {
    hide WellFormed, AppendAllowed, ReferencesExist, Raise;
  }

  /** No other early call writes to the scans. */
  lemma StepLogsReading(setup: Setup, job: Job, w: World, pc: Pc, c: Choice)
    requires Early(pc) && !pc.CreateScan? && !pc.RecordRunning? && !pc.DegradedRecord?
    requires job.key.plan in setup.plans
    ensures Step(setup, job, w, pc, c).0.scans == w.scans
  {
    hide Transition, Candidate, RunStored, RunningCount, DegradedMove, Raise, RunningAttempt, LostAttempt, Log;
  }

  lemma StepLogsLate(setup: Setup, job: Job, w: World, pc: Pc, c: Choice, k: ScanKey)
    requires job.key.plan in setup.plans && !Early(pc)
    ensures Log(w.scans, k) <= Log(Step(setup, job, w, pc, c).0.scans, k)
  {
    hide IntentStored, LastFinal, LastApplied, MatchingIntents, AlreadyFinal, EffectsRaise, FinalRaise, AttachRaise,
         WellFormed, AppendAllowed, ReferencesExist, Raise, FinalAttempt, LostAttempt, AfterEffects;
  }

  lemma OpenedLogs(setup: Setup, w: World, k: ScanKey)
    requires WorldOk(setup, w)
    ensures k in w.scans.states <==> k in w.scans.logs
  {
    assert ScanOk(setup, w, k);
  }

  // Written transitions

  function FenceCount(h: seq<Entry>, fence: Fence): nat {
    if h == [] then 0
    else FenceCount(h[..|h| - 1], fence) + if h[|h| - 1].record.fence == Some(fence) then 1 else 0
  }

  lemma {:induction false} FenceCountAdds(a: seq<Entry>, b: seq<Entry>, fence: Fence)
    ensures FenceCount(a + b, fence) == FenceCount(a, fence) + FenceCount(b, fence)
  {
    if b == [] {
      assert a + b == a;
    } else {
      assert (a + b)[..|a + b| - 1] == a + b[..|b| - 1];
      FenceCountAdds(a, b[..|b| - 1], fence);
    }
  }

  /** How often a transition is written: recovering a candidate writes it once more exactly if no
      APPLIED attempt exists and the record stands at the status the transition starts from, no
      matter how often it has been written before. */
  lemma {:induction false} RecoveryWritesExactly(setup: Setup, actions: seq<Action>, job: Job, choices: seq<Choice>)
    requires job.key.plan in setup.plans && Faultless(choices) && |choices| >= 12
    requires var w := Reached(setup, actions);
             job.key !in w.locks && IsOpen(w, job.key) && job.key in w.runs.byScan
    ensures var w, p := Reached(setup, actions), job.key.plan;
            var run, after := w.runs.byScan[job.key], Drive(setup, job, w, Acquire, choices).0;
            FenceCount(History(after, p), FenceOf(run))
            == FenceCount(History(w, p), FenceOf(run))
               + if !AppliedLast(Log(w.scans, job.key)) && Read(w, job.key).status == run.prev && run.prev != run.next
                 then 1 else 0
  {
    hide Drive, Completes, Execute, Consults;
    var w := Reached(setup, actions);
    var run := w.runs.byScan[job.key];
    RecoveryCompletes(setup, actions, job, choices);
    FenceCountAdds(History(w, job.key.plan), Rewrites(w, job.key), FenceOf(run));
    if job.key.plan !in w.records {
      FenceCountAdds([Entry(Read(w, job.key), job.key)], Writes(job.key, run, Read(w, job.key)), FenceOf(run));
    }
    RewriteCounts(job.key, run, Read(w, job.key));
  }

  lemma {:induction false} RewriteCounts(k: ScanKey, run: Run, current: Record)
    ensures FenceCount(Writes(k, run, current), FenceOf(run))
            == if current.status == run.prev && run.prev != run.next then 1 else 0
    ensures current.fence.None? ==> FenceCount([Entry(current, k)], FenceOf(run)) == 0
    ensures FenceCount([] + Writes(k, run, current), FenceOf(run)) == FenceCount(Writes(k, run, current), FenceOf(run))
  {
    assert [] + Writes(k, run, current) == Writes(k, run, current);
    assert [Entry(current, k)][..0] == [] && [Finalising(k, run, current)][..0] == [];
  }

  /** In a history, two revisions under one fence are never neighbours: before the second one the
      record had come back to the status its transition starts from, under another fence or none. */
  lemma RewritesFollowAReturn(setup: Setup, actions: seq<Action>, p: nat, i: int, j: int)
    requires 0 <= i < j < |History(Reached(setup, actions), p)|
    requires var h := History(Reached(setup, actions), p);
             h[i].record.fence.Some? && h[i].record.fence == h[j].record.fence
    ensures var w, h := Reached(setup, actions), History(Reached(setup, actions), p);
            && h[i].author == h[j].author && h[j].author in w.runs.byScan
            && var run := w.runs.byScan[h[j].author];
               && h[j].record.fence == Some(FenceOf(run))
               && h[i].record.status == h[j].record.status == run.next != run.prev
               && i + 1 < j
               && h[j - 1].record.status == run.prev && h[j - 1].record.fence != Some(FenceOf(run))
  {
    hide ScanOk, Follows, DegradedMove, Execute;
    var w, h := Reached(setup, actions), History(Reached(setup, actions), p);
    ReachedOk(setup, actions);
    EntryHolds(setup, w, p, i);
    EntryHolds(setup, w, p, j);
    EntryHolds(setup, w, p, j - 1);
    var a, b := h[i].author, h[j].author;
    assert Filed(w.runs, a) && Filed(w.runs, b);
    if h[j - 1].record.fence.Some? {
      assert Filed(w.runs, h[j - 1].author);
    }
  }

  /** The call of a coordinator that writes a fence into the record of a plan. */
  predicate WritesFence(w: World, s: Session, c: Choice, p: nat, fence: Fence) {
    && s.pc.EffectsWrite? && s.job.key.plan == p && FenceOf(s.pc.run) == fence && c.fault != Before
    && p in w.records && w.records[p] == s.pc.read
  }

  /** In every execution a fence is written, for the first or a further time, exactly by that call;
      and whenever it is, no APPLIED attempt exists, and the record stands where the transition
      starts, under another fence or none. */
  lemma {:induction false} FencesAreWrittenBy(setup: Setup, actions: seq<Action>, a: Action, p: nat, fence: Fence)
    ensures var y := Execute(setup, actions);
            var w, v := y.world, Apply(setup, y, a).world;
            && FenceCount(History(w, p), fence) <= FenceCount(History(v, p), fence)
                                                 <= FenceCount(History(w, p), fence) + 1
            && (FenceCount(History(v, p), fence) == FenceCount(History(w, p), fence) + 1 <==>
                  a.Proceed? && a.id in y.sessions && WritesFence(w, y.sessions[a.id], a.choice, p, fence))
    ensures var y := Execute(setup, actions);
            a.Proceed? && a.id in y.sessions && WritesFence(y.world, y.sessions[a.id], a.choice, p, fence) ==>
              var w, s := y.world, y.sessions[a.id];
              && !AppliedLast(Log(w.scans, s.job.key))
              && w.records[p].status == s.pc.run.prev != s.pc.run.next && w.records[p].fence != Some(fence)
  {
    hide Inv, Step, Execute, FenceCount, WritesFence;
    var y := Execute(setup, actions);
    ExecutionsKeepInv(setup, actions);
    if a.Proceed? && a.id in y.sessions {
      var s := y.sessions[a.id];
      InSession(setup, y, a.id);
      StepFences(setup, s, y.world, a.choice, p, fence);
      if WritesFence(y.world, s, a.choice, p, fence) {
        WritesWhereItStarts(setup, y.world, s, a.choice, p, fence);
      }
    }
  }

  lemma InSession(setup: Setup, y: Sys, id: nat)
    requires Inv(setup, y) && id in y.sessions
    ensures Ready(setup, y.sessions[id].job, y.world, y.sessions[id].pc)
  {
    hide WorldOk, Local;
    assert SessionOk(setup, y.world, y.sessions[id]);
  }

  lemma WritesWhereItStarts(setup: Setup, w: World, s: Session, c: Choice, p: nat, fence: Fence)
    requires Ready(setup, s.job, w, s.pc) && WritesFence(w, s, c, p, fence)
    ensures !AppliedLast(Log(w.scans, s.job.key))
    ensures w.records[p].status == s.pc.run.prev != s.pc.run.next && w.records[p].fence != Some(fence)
  {
    hide LogOk, CountsOk, FinalsOk, IntentOk, Finished, Follows, DegradedMove, RunOk, LastFinal;
    assert p in w.history;
    var h, run := History(w, p), s.pc.run;
    EntryHolds(setup, w, p, |h| - 1);
    assert Filed(w.runs, s.job.key);
    if w.records[p].fence.Some? {
      assert Filed(w.runs, h[|h| - 1].author);
    }
  }

  /** A call adds at most one revision, and one under a fence only where it writes that fence. */
  lemma {:induction false} StepFences(setup: Setup, s: Session, w: World, c: Choice, p: nat, fence: Fence)
    requires s.job.key.plan in setup.plans
    ensures var before := FenceCount(History(w, p), fence);
            FenceCount(History(Step(setup, s.job, w, s.pc, c).0, p), fence)
            == if WritesFence(w, s, c, p, fence) then before + 1 else before
  {
    hide Step, FenceCount;
    var v := Step(setup, s.job, w, s.pc, c).0;
    if Early(s.pc) {
      StepAddsEarly(setup, s, w, c, p);
    } else {
      StepAddsLate(setup, s, w, c, p);
    }
    if History(v, p) != History(w, p) {
      var last := History(v, p)[|History(w, p)|];
      assert History(v, p) == History(w, p) + [last];
      FenceCountAdds(History(w, p), [last], fence);
      OneFence(last, fence);
    }
  }

  lemma {:induction false} OneFence(e: Entry, fence: Fence)
    ensures FenceCount([e], fence) == if e.record.fence == Some(fence) then 1 else 0
  {
    assert [e][..0] == [];
  }

  predicate AddsAtMost(w: World, s: Session, c: Choice, v: World, p: nat) {
    var h, g := History(w, p), History(v, p);
    var writes := s.pc.EffectsWrite? && WritesFence(w, s, c, p, FenceOf(s.pc.run));
    if writes then |g| == |h| + 1 && h <= g && g[|h|].record.fence == Some(FenceOf(s.pc.run))
    else g == h || (|g| == |h| + 1 && h <= g && g[|h|].record.fence.None?)
  }

  lemma StepAddsEarly(setup: Setup, s: Session, w: World, c: Choice, p: nat)
    requires Early(s.pc) && s.job.key.plan in setup.plans
    ensures AddsAtMost(w, s, c, Step(setup, s.job, w, s.pc, c).0, p)
  {
    hide Candidate, Transition, LastFinal, LastApplied, WellFormed, AppendAllowed, ReferencesExist, RunningCount,
         AlreadyFinal, EffectsRaise, FinalRaise, AttachRaise, AuditRaise, Adjudicate, AfterEffects;
  }

  lemma StepAddsLate(setup: Setup, s: Session, w: World, c: Choice, p: nat)
    requires !Early(s.pc) && s.job.key.plan in setup.plans
    ensures AddsAtMost(w, s, c, Step(setup, s.job, w, s.pc, c).0, p)
  {
    hide Candidate, Transition, LastFinal, LastApplied, WellFormed, AppendAllowed, ReferencesExist, RunningCount,
         AlreadyFinal, EffectsRaise, FinalRaise, AttachRaise, AuditRaise, Adjudicate, AfterEffects;
  }
}
