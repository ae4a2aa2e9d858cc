/** What a failing call comes to: who answers, what is logged, and that the lock is given back. */
module Faults {
  import opened StateMachine
  import opened ScanLog
  import opened Stores
  import opened Protocol
  import opened ProtocolInvariant
  import opened ProtocolSteps
  import opened ProtocolCalls
  import opened ProtocolSystem
  import opened ProtocolTheorems
  import opened Recovery
  import opened Outcomes

  // The answer to a failing call

  /** A failing call either ends the run with its exception, or ends it with a pending finalisation, or
      fails the attempt of the run, with the snapshot if it had one. */
  datatype Answer = Leaves | ReportsPending | FailsAttempt(running: Attempt, evidence: Option<string>)

  function Finalising(mode: Mode, run: Run): Answer {
    if mode.Fresh? then FailsAttempt(mode.running, Some(run.key.snapshot)) else ReportsPending
  }

  /** Who answers the failure of a call: the attempt, from the provider's call up to the final attempt; a
      recovery, an attachment and the end of a superseded candidate report that the scan is pending; the
      exceptions of all other calls leave the coordinator. */
  function AnswerTo(pc: Pc): Answer {
    match pc
    case Fetch(running) => FailsAttempt(running, None)
    case DegradedGet(running, snapshot) => FailsAttempt(running, Some(snapshot))
    case DegradedWrite(running, snapshot, _, _) => FailsAttempt(running, Some(snapshot))
    case EvaluateGet(running, snapshot) => FailsAttempt(running, Some(snapshot))
    case Evaluate(running, snapshot, _) => FailsAttempt(running, Some(snapshot))
    case StoreRun(running, run) => FailsAttempt(running, Some(run.key.snapshot))
    case FindApplied(_) => ReportsPending
    case CheckIntent(_) => ReportsPending
    case EffectsGet(mode, run) => Finalising(mode, run)
    case EffectsWrite(mode, run, _) => Finalising(mode, run)
    case PutIntent(mode, run) => Finalising(mode, run)
    case FinalList(mode, run, d) => if d == Applied then Finalising(mode, run) else ReportsPending
    case FinalRecord(mode, run, d, _) => if d == Applied then Finalising(mode, run) else ReportsPending
    case Attach(_, _, _) => ReportsPending
    case Audit(FailAttempt(running, snapshot), _) => FailsAttempt(running, Some(snapshot))
    case Audit(ReportPending, _) => ReportsPending
    case _ => Leaves
  }

  /** What a run comes to once a call failed and left these stores: the lock is given back, and the attempt
      is closed as failed if it is still the last one; behind a success its failure is not accepted. */
  ghost predicate Answered(job: Job, v: World, answer: Answer, end: (World, Pc)) {
    var unlocked := v.(locks := v.locks - {job.key});
    match answer
    case Leaves => end == (unlocked, Done(Raised))
    case ReportsPending => end == (unlocked, Done(Returned(RunFailed, None)))
    case FailsAttempt(running, evidence) =>
      if SucceededLast(Log(v.scans, job.key)) then
        end == (unlocked.(nextId := v.nextId + 1), Done(Raised))
      else
        && end.1 == Done(Returned(RunFailed, None))
        && Closes(job, v, running, FAILED, evidence, end.0)
        && end.0.records == v.records && end.0.history == v.history
  }

  lemma {:induction false} LeavingEnds(setup: Setup, job: Job, w: World, choices: seq<Choice>)
    requires Ready(setup, job, w, BROKEN) && Faultless(choices) && |choices| >= 1
    ensures Drive(setup, job, w, BROKEN, choices) == (w.(locks := w.locks - {job.key}), Done(Raised))
  {
    hide WorldOk, Local, Ready, Drive;
    OnOwnPlan(setup, job, w, BROKEN);
    DriveOn(setup, job, w, BROKEN, choices);
    DoneRests(setup, job, w.(locks := w.locks - {job.key}), Raised, choices[1..]);
  }

  /** Behind a success the failure of an attempt is not accepted. */
  lemma LateFailureRejected(setup: Setup, w: World, k: ScanKey, a: Attempt)
    requires WorldOk(setup, w) && SucceededLast(Log(w.scans, k)) && a.finalRun.None? && a.duplicateOf.None?
    ensures Appended(w.scans, w.runs, k, a) == None
  {
    hide WorldOk, WellFormed, ReferencesExist, Latest;
    var log := Log(w.scans, k);
    assert log[|log| - 1].status == SUCCEEDED;
  }

  lemma {:induction false} LateFailureEnds(setup: Setup, job: Job, w: World, running: Attempt,
                                           evidence: Option<string>, choices: seq<Choice>)
    requires Ready(setup, job, w, FailedList(running, evidence)) && Faultless(choices) && |choices| >= 3
    requires SucceededLast(Log(w.scans, job.key))
    ensures Drive(setup, job, w, FailedList(running, evidence), choices)
            == (w.(nextId := w.nextId + 1, locks := w.locks - {job.key}), Done(Raised))
  {
    hide WorldOk, Local, Drive, Ready, Appended, SucceededLast;
    OnOwnPlan(setup, job, w, FailedList(running, evidence));
    DriveOn(setup, job, w, FailedList(running, evidence), choices);
    var a := LostAttempt(job, Log(w.scans, job.key), w.nextId, running, FAILED, evidence);
    var u := w.(nextId := w.nextId + 1);
    ReadyOpened(setup, job, u, FailedRecord(a));
    LateFailureRejected(setup, u, job.key, a);
    DriveOn(setup, job, u, FailedRecord(a), choices[1..]);
    LeavingEnds(setup, job, u, choices[1..][1..]);
  }

  lemma StepStaysReady(setup: Setup, job: Job, w: World, pc: Pc, c: Choice)
    requires Ready(setup, job, w, pc)
    ensures var (v, next) := Step(setup, job, w, pc, c); Ready(setup, job, v, next)
  {
    hide WorldOk, Local, Step;
    StepLands(setup, job, w, pc, c);
  }

  /** The exception of a failing call reaches the answer. */
  lemma RaiseIsTheAnswer(pc: Pc)
    requires Holds(pc) && !pc.Release?
    ensures match AnswerTo(pc)
            case Leaves => Raise(pc) == BROKEN
            case ReportsPending => exists handler :: Raise(pc) == Audit(handler, Returned(RunFailed, None))
            case FailsAttempt(running, evidence) => Raise(pc) == FailedList(running, evidence)
  {
  }

  /** From every position of a coordinator, wherever its next call fails, before or after its effect, and
      nothing fails later, the run ends with the answer above and without the lock. */
  lemma {:induction false} FailingCallIsAnswered(setup: Setup, job: Job, w: World, pc: Pc, c: Choice,
                                                 choices: seq<Choice>)
    requires Ready(setup, job, w, pc) && Holds(pc) && !pc.Release?
    requires c.fault != NoFault && Faultless(choices) && |choices| >= 4
    ensures job.key.plan in setup.plans
    ensures var (v, next) := Step(setup, job, w, pc, c);
            Answered(job, v, AnswerTo(pc), Drive(setup, job, v, next, choices))
  {
    hide WorldOk, Local, Drive, Ready, Call, AnswerTo, Raise, LostAttempt, Working;
    OnOwnPlan(setup, job, w, pc);
    StepStaysReady(setup, job, w, pc, c);
    RaiseIsTheAnswer(pc);
    var (v, next) := Step(setup, job, w, pc, c);
    match AnswerTo(pc)
    case Leaves => LeavingEnds(setup, job, v, choices);
    case ReportsPending => AuditEnds(setup, job, v, next.handler, Returned(RunFailed, None), choices);
    case FailsAttempt(running, evidence) =>
      if SucceededLast(Log(v.scans, job.key)) {
        LateFailureEnds(setup, job, v, running, evidence, choices);
      } else {
        StillFailing(setup, job, v, running, evidence);
        FailureEnds(setup, job, v, running, evidence, choices);
      }
  }

  lemma StillFailing(setup: Setup, job: Job, w: World, running: Attempt, evidence: Option<string>)
    requires Ready(setup, job, w, FailedList(running, evidence)) && !SucceededLast(Log(w.scans, job.key))
    ensures Working(w, job.key, running)
  {
    hide WorldOk;
  }

  // The lock is given back

  /** An action that loses no lock: no coordinator that holds one stops for good without giving it back,
      no release fails before its effect and no acquisition after it. */
  predicate KeepsLocks(y: Sys, a: Action) {
    match a
    case Start(_, _) => true
    case Proceed(id, c) =>
      id in y.sessions ==>
        && !(y.sessions[id].pc.Release? && c.fault == Before)
        && !(y.sessions[id].pc.Acquire? && c.fault == After)
    case Vanish(id, unlock) => id in y.sessions && Holds(y.sessions[id].pc) ==> unlock
  }

  ghost predicate LockKeeping(setup: Setup, actions: seq<Action>) {
    forall n :: 0 <= n < |actions| ==> KeepsLocks(Execute(setup, actions[..n]), actions[n])
  }

  predicate Keeps(y: Sys, id: nat, k: ScanKey) {
    id in y.sessions && y.sessions[id].job.key == k && Holds(y.sessions[id].pc)
  }

  /** Only the first and the last call of a run touch locks, and in between it holds its own. */
  lemma StepLocks(setup: Setup, job: Job, w: World, pc: Pc, c: Choice)
    requires job.key.plan in setup.plans
    ensures var (v, next) := Step(setup, job, w, pc, c);
            && (Holds(pc) && !pc.Release? ==> Holds(next) && v.locks == w.locks)
            && (pc.Release? && c.fault != Before ==> v.locks == w.locks - {job.key})
            && (pc.Acquire? && c.fault != After ==>
                  v.locks == w.locks || (v.locks == w.locks + {job.key} && Holds(next)))
            && (pc.Done? ==> v.locks == w.locks)
  {
    hide Call, Raise;
    CallLocks(setup, job, w, pc, c);
    RaiseHolds(pc);
  }

  lemma CallLocks(setup: Setup, job: Job, w: World, pc: Pc, c: Choice)
    requires job.key.plan in setup.plans
    ensures var (v, next) := Call(setup, job, w, pc, c);
            && (Holds(pc) && !pc.Release? ==> Holds(next) && v.locks == w.locks)
            && (pc.Release? ==> v.locks == w.locks - {job.key})
            && (pc.Acquire? ==> v.locks == w.locks || (v.locks == w.locks + {job.key} && Holds(next)))
            && (pc.Done? ==> v.locks == w.locks)
  {
    hide Transition, LastFinal, LastApplied, MatchingIntents, RunningCount, Candidate, Appended, Attached, RunStored,
         IntentStored, Ensured, Opened, AlreadyFinal, MatchesEvidence;
  }

  lemma RaiseHolds(pc: Pc)
    ensures Holds(pc) && !pc.Release? ==> Holds(Raise(pc))
    ensures pc.Acquire? || pc.Release? ==> Raise(pc) == Done(Raised)
  {
  }

  /** Whatever fails elsewhere, every lock belongs to a coordinator that is still running: a run that ends,
      by whatever exception, has given its lock back. */
  lemma {:induction false} LocksAreHeld(setup: Setup, actions: seq<Action>, k: ScanKey)
    requires LockKeeping(setup, actions) && k in Execute(setup, actions).world.locks
    ensures exists id :: Keeps(Execute(setup, actions), id, k)
    decreases |actions|
  {
    hide Step;
    if actions != [] {
      var n := |actions| - 1;
      var y, a := Execute(setup, actions[..n]), actions[n];
      assert LockKeeping(setup, actions[..n]) by {
        forall i | 0 <= i < n ensures KeepsLocks(Execute(setup, actions[..n][..i]), actions[..n][i]) {
          assert actions[..n][..i] == actions[..i];
        }
      }
      ExecutionsKeepInv(setup, actions[..n]);
      if k in y.world.locks { LocksAreHeld(setup, actions[..n], k); }
      LocksStayHeld(setup, y, a, k);
    }
  }

  lemma {:induction false} LocksStayHeld(setup: Setup, y: Sys, a: Action, k: ScanKey)
    requires Inv(setup, y) && KeepsLocks(y, a) && k in Apply(setup, y, a).world.locks
    requires k in y.world.locks ==> exists id :: Keeps(y, id, k)
    ensures exists id :: Keeps(Apply(setup, y, a), id, k)
  {
    hide Step, WorldOk, Local;
    var z := Apply(setup, y, a);
    if a.Proceed? && a.id in y.sessions {
      var s := y.sessions[a.id];
      StepLocks(setup, s.job, y.world, s.pc, a.choice);
      if k !in y.world.locks {
        assert Keeps(z, a.id, k);
      } else {
        var id :| Keeps(y, id, k);
        assert Keeps(z, id, k);
      }
    } else {
      var id :| Keeps(y, id, k);
      assert Keeps(z, id, k);
    }
  }
}
