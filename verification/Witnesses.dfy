/** Executions at which promises of the coordinator's comments fail: a transition that is written
    twice, and a candidate that gets two final attempts. */
module Witnesses {
  import opened StateMachine
  import opened ScanLog
  import opened Stores
  import opened Protocol
  import opened ProtocolInvariant
  import opened ProtocolSteps
  import opened ProtocolCalls
  import opened ProtocolSystem
  import opened ProtocolTheorems
  import opened Recovery
  import opened CoordinatorRuns
  import opened Finality

  // One coordinator after another

  function Repeat(c: Choice, n: nat): seq<Choice> {
    if n == 0 then [] else [c] + Repeat(c, n - 1)
  }

  lemma {:induction false} RepeatHolds(c: Choice, n: nat)
    ensures |Repeat(c, n)| == n && forall i :: 0 <= i < n ==> Repeat(c, n)[i] == c
  {
    if n > 0 { RepeatHolds(c, n - 1); }
  }

  /** One more step under the same choice. */
  lemma {:induction false} RepeatOn(setup: Setup, job: Job, w: World, pc: Pc, c: Choice, n: nat)
    requires Ready(setup, job, w, pc) && c.fault == NoFault && n > 0
    ensures job.key.plan in setup.plans
    ensures var (v, next) := Call(setup, job, w, pc, c);
            && Ready(setup, job, v, next)
            && Drive(setup, job, w, pc, Repeat(c, n)) == Drive(setup, job, v, next, Repeat(c, n - 1))
  {
    hide WorldOk, Local, Call, Raise, Drive, Ready;
    OnOwnPlan(setup, job, w, pc);
    RepeatHolds(c, n);
    DriveOn(setup, job, w, pc, Repeat(c, n));
    assert Repeat(c, n)[1..] == Repeat(c, n - 1);
  }

  lemma {:induction false} DriveSplits(setup: Setup, job: Job, w: World, pc: Pc, a: seq<Choice>, b: seq<Choice>)
    requires job.key.plan in setup.plans
    ensures var (v, at) := Drive(setup, job, w, pc, a);
            Drive(setup, job, w, pc, a + b) == Drive(setup, job, v, at, b)
    decreases |a|
  {
    hide Step;
    if a == [] {
      assert a + b == b;
    } else {
      var (v, next) := Step(setup, job, w, pc, a[0]);
      DriveSplits(setup, job, v, next, a[1..], b);
      assert (a + b)[1..] == a[1..] + b;
    }
  }

  /** The actions of one coordinator that is triggered and takes the given steps. */
  function Play(id: nat, job: Job, choices: seq<Choice>): seq<Action> {
    if choices == [] then [Start(id, job)]
    else Play(id, job, choices[..|choices| - 1]) + [Proceed(id, choices[|choices| - 1])]
  }

  lemma {:induction false} PlayIsDriven(setup: Setup, actions: seq<Action>, id: nat, job: Job, choices: seq<Choice>)
    requires job.key.plan in setup.plans && id !in Execute(setup, actions).sessions
    ensures var x, y := Execute(setup, actions), Execute(setup, actions + Play(id, job, choices));
            && y.sessions.Keys == x.sessions.Keys + {id} && y.sessions[id].job == job
            && (y.world, y.sessions[id].pc) == Drive(setup, job, x.world, Acquire, choices)
    decreases |choices|
  {
    hide Step, Touches;
    var whole := actions + Play(id, job, choices);
    if choices == [] {
      assert whole[..|whole| - 1] == actions && whole[|whole| - 1] == Start(id, job);
    } else {
      var fewer, c := choices[..|choices| - 1], choices[|choices| - 1];
      PlayIsDriven(setup, actions, id, job, fewer);
      assert whole[..|whole| - 1] == actions + Play(id, job, fewer) && whole[|whole| - 1] == Proceed(id, c);
      DriveExtends(setup, job, Reached(setup, actions), Acquire, fewer, c);
      assert choices == fewer + [c];
    }
  }

  // A run that stores its candidate

  /** The scan is new and the choice proposes the run: a move without a notification. */
  predicate Proposes(setup: Setup, job: Job, w: World, c: Choice, run: Run) {
    && job.key.plan in setup.plans && setup.maxFetches > 0
    && job.key !in w.locks && job.key !in w.scans.states
    && c.fault == NoFault && c.fetched.Snapshot? && c.fetched.actionable && c.evaluation.Some?
    && Candidate(setup.plans[job.key.plan], job, c.fetched.id, Read(w, job.key), c.evaluation.value, w.nextId + 1)
       == Some(run)
    && run.prev != run.next && !run.notify
  }

  function Started(w: World, job: Job): Attempt {
    RunningAttempt(job, [], w.nextId)
  }

  /** The stores when the provider has been called. */
  function Fetched(w: World, job: Job): World {
    var k := job.key;
    w.(locks := w.locks + {k}, nextId := w.nextId + 1, fetches := w.fetches[k := FetchCount(w, k) + 1],
       scans := Scans(w.scans.states[k := Open], w.scans.logs[k := [Started(w, job)]]))
  }

  /** The stores when the candidate is stored. */
  function Held(w: World, job: Job, run: Run): World {
    var u := GetOrCreate(Fetched(w, job), job.key);
    u.(nextId := u.nextId + 1, runs := WithRun(w.runs, job.key, run))
  }

  lemma NewScan(setup: Setup, w: World, k: ScanKey)
    requires WorldOk(setup, w) && k !in w.scans.states
    ensures k !in w.scans.logs && k !in w.runs.byScan && Log(w.scans, k) == []
  {
    assert ScanOk(setup, w, k);
  }

  lemma {:induction false} ReachesFetch(setup: Setup, job: Job, w: World, c: Choice, run: Run)
    requires WorldOk(setup, w) && Proposes(setup, job, w, c, run)
    ensures var u := Fetched(w, job);
            && Ready(setup, job, u, EvaluateGet(Started(w, job), c.fetched.id))
            && Drive(setup, job, w, Acquire, Repeat(c, 11))
               == Drive(setup, job, u, EvaluateGet(Started(w, job), c.fetched.id), Repeat(c, 3))
  {
    hide WorldOk, Local, Drive, Ready, Candidate, Repeat;
    var k, a := job.key, Started(w, job);
    NewScan(setup, w, k);
    MayStart(setup, job, w);
    var v0 := w.(locks := w.locks + {k});
    RepeatOn(setup, job, w, Acquire, c, 11);
    RepeatOn(setup, job, v0, Protocol.GetScan, c, 10);
    RepeatOn(setup, job, v0, CreateScan, c, 9);
    var v1 := v0.(scans := Opened(w.scans, k));
    RepeatOn(setup, job, v1, GetPending, c, 8);
    RepeatOn(setup, job, v1, CountFetches, c, 7);
    RepeatOn(setup, job, v1, ListForRunning, c, 6);
    var v2 := v1.(nextId := w.nextId + 1);
    RepeatOn(setup, job, v2, RecordRunning(a), c, 5);
    RunningIsAccepted(setup, job, v2, a);
    var v3 := v2.(scans := Appended(v2.scans, v2.runs, k, a).value);
    RepeatOn(setup, job, v3, Fetch(a), c, 4);
    assert Log(v2.scans, k) == [] && [] + [a] == [a];
    assert v3.scans.logs == w.scans.logs[k := [a]];
  }

  lemma {:induction false} ReachesCandidate(setup: Setup, job: Job, w: World, c: Choice, run: Run)
    requires WorldOk(setup, w) && Proposes(setup, job, w, c, run)
    ensures Ready(setup, job, Held(w, job, run), EffectsGet(Fresh(Started(w, job)), run))
    ensures Drive(setup, job, w, Acquire, Repeat(c, 11))
            == (Held(w, job, run), EffectsGet(Fresh(Started(w, job)), run))
  {
    hide WorldOk, Local, Drive, Ready, Candidate, Repeat, RunsAgree;
    var k, a := job.key, Started(w, job);
    ReachesFetch(setup, job, w, c, run);
    NewScan(setup, w, k);
    var u := Fetched(w, job);
    RepeatOn(setup, job, u, EvaluateGet(a, c.fetched.id), c, 3);
    var v := GetOrCreate(u, k);
    RepeatOn(setup, job, v, Evaluate(a, c.fetched.id, Read(u, k)), c, 2);
    var x := v.(nextId := v.nextId + 1);
    RunNamesScan(setup, job, x, a, run);
    ReadyOpened(setup, job, x, StoreRun(a, run));
    Indexed(setup, x);
    FreshRunStored(x, k, run);
    RepeatOn(setup, job, x, StoreRun(a, run), c, 1);
    DriveNothing(setup, job, Held(w, job, run), EffectsGet(Fresh(a), run), c);
  }

  lemma {:induction false} DriveNothing(setup: Setup, job: Job, w: World, pc: Pc, c: Choice)
    requires job.key.plan in setup.plans
    ensures Drive(setup, job, w, pc, Repeat(c, 0)) == (w, pc)
  {
  }

  // A run that fails after it stored its candidate

  const FAILING := Choice(Before, FetchRaised, None)

  lemma {:induction false} FailsAt(setup: Setup, job: Job, w: World, pc: Pc, rest: seq<Choice>)
    requires Ready(setup, job, w, pc)
    ensures job.key.plan in setup.plans && Ready(setup, job, w, Raise(pc))
    ensures Drive(setup, job, w, pc, [FAILING] + rest) == Drive(setup, job, w, Raise(pc), rest)
  {
    hide WorldOk, Local, Raise, Call;
    OnOwnPlan(setup, job, w, pc);
    RaiseLands(setup, job, w, pc);
    assert ([FAILING] + rest)[1..] == rest;
  }

  /** The stores when the failure is on record and the lock given back. */
  function Abandoned(u: World, job: Job, a: Attempt, snapshot: string): World {
    var k := job.key;
    u.(nextId := u.nextId + 1, locks := u.locks - {k},
       scans := Scans(u.scans.states,
                      u.scans.logs[k := [a, LostAttempt(job, [a], u.nextId, a, FAILED, Some(snapshot))]]))
  }

  lemma LostFits(w: World, job: Job, a: Attempt, id: nat, snapshot: string)
    requires a.number == 1 && a.status == RUNNING && a.id < id && Log(w.scans, job.key) == [a] && IsOpen(w, job.key)
    ensures var lost := LostAttempt(job, [a], id, a, FAILED, Some(snapshot));
            Appended(w.scans, w.runs, job.key, lost)
            == Some(Scans(w.scans.states, w.scans.logs[job.key := [a, lost]]))
  {
    var lost := LostAttempt(job, [a], id, a, FAILED, Some(snapshot));
    assert [a][0].id == a.id && !HasSuccess([a]) && Latest([a]) == a;
    assert [a] + [lost] == [a, lost];
  }

  lemma {:induction false} Abandons(setup: Setup, job: Job, u: World, a: Attempt, snapshot: string, c: Choice)
    requires Ready(setup, job, u, FailedList(a, Some(snapshot))) && c.fault == NoFault
    requires a.number == 1 && a.status == RUNNING && a.id < u.nextId
    requires Log(u.scans, job.key) == [a] && IsOpen(u, job.key)
    ensures job.key.plan in setup.plans
    ensures Drive(setup, job, u, FailedList(a, Some(snapshot)), Repeat(c, 4))
            == (Abandoned(u, job, a, snapshot), Done(Returned(RunFailed, None)))
  {
    hide WorldOk, Local, Drive, Ready, Repeat, Appended;
    var lost := LostAttempt(job, [a], u.nextId, a, FAILED, Some(snapshot));
    RepeatOn(setup, job, u, FailedList(a, Some(snapshot)), c, 4);
    var v := u.(nextId := u.nextId + 1);
    LostFits(v, job, a, u.nextId, snapshot);
    var x := v.(scans := Scans(u.scans.states, u.scans.logs[job.key := [a, lost]]));
    RecordsLoss(setup, job, v, lost, x, c);
    assert Abandoned(u, job, a, snapshot) == x.(locks := x.locks - {job.key});
  }

  /** The failure is recorded and reported, and the lock given back. */
  lemma {:induction false} RecordsLoss(setup: Setup, job: Job, v: World, lost: Attempt, x: World, c: Choice)
    requires Ready(setup, job, v, FailedRecord(lost)) && c.fault == NoFault
    requires Appended(v.scans, v.runs, job.key, lost) == Some(x.scans) && x == v.(scans := x.scans)
    ensures job.key.plan in setup.plans
    ensures Drive(setup, job, v, FailedRecord(lost), Repeat(c, 3))
            == (x.(locks := x.locks - {job.key}), Done(Returned(RunFailed, None)))
  {
    hide WorldOk, Local, Drive, Ready, Repeat, Appended;
    RepeatOn(setup, job, v, FailedRecord(lost), c, 3);
    RepeatOn(setup, job, x, Audit(Propagate, Returned(RunFailed, None)), c, 2);
    RepeatOn(setup, job, x, Protocol.Release(Returned(RunFailed, None)), c, 1);
    DriveNothing(setup, job, x.(locks := x.locks - {job.key}), Done(Returned(RunFailed, None)), c);
  }

  /** What such a run leaves behind: its candidate, an open scan without a final attempt, and a
      history that got longer by the given revisions. */
  ghost predicate Leaves(w: World, job: Job, run: Run, written: seq<Entry>, v: World) {
    var k := job.key;
    && v.locks == w.locks
    && v.scans.states == w.scans.states[k := Open]
    && v.runs.byScan == w.runs.byScan[k := run]
    && !AppliedLast(Log(v.scans, k)) && LastFinal(Log(v.scans, k), run.id).None?
    && v.nextId == w.nextId + 3
    && (forall j :: j != k ==> Log(v.scans, j) == Log(w.scans, j))
    && History(v, k.plan) == History(GetOrCreate(w, k), k.plan) + written
    && k.plan in v.records
    && v.records[k.plan] == if written == [] then Read(w, k) else written[|written| - 1].record
  }

  function FailingEarly(c: Choice): seq<Choice> {
    Repeat(c, 11) + ([FAILING] + Repeat(c, 4))
  }

  lemma {:induction false} LeavesCandidate(setup: Setup, job: Job, w: World, c: Choice, run: Run)
    requires WorldOk(setup, w) && Proposes(setup, job, w, c, run)
    ensures Leaves(w, job, run, [], Drive(setup, job, w, Acquire, FailingEarly(c)).0)
  {
    hide WorldOk, Local, Drive, Ready, Repeat, Candidate, LastFinal;
    var a, u := Started(w, job), Held(w, job, run);
    NewScan(setup, w, job.key);
    CandidateStarts(setup, job, w, c, run);
    ReachesCandidate(setup, job, w, c, run);
    DriveSplits(setup, job, w, Acquire, Repeat(c, 11), [FAILING] + Repeat(c, 4));
    FailsAt(setup, job, u, EffectsGet(Fresh(a), run), Repeat(c, 4));
    Abandons(setup, job, u, a, c.fetched.id, c);
    NotFinal(job, a, u.nextId, c.fetched.id, run);
    assert History(u, job.key.plan) + [] == History(u, job.key.plan);
  }

  lemma NotFinal(job: Job, a: Attempt, id: nat, snapshot: string, run: Run)
    requires a.status == RUNNING
    ensures var log := [a, LostAttempt(job, [a], id, a, FAILED, Some(snapshot))];
            !AppliedLast(log) && LastFinal(log, run.id).None?
  {
    var log := [a, LostAttempt(job, [a], id, a, FAILED, Some(snapshot))];
    assert forall i :: 0 <= i < |log| ==> log[i].status != SUCCEEDED;
  }

  function FailingLate(c: Choice): seq<Choice> {
    Repeat(c, 11) + (Repeat(c, 2) + ([FAILING] + Repeat(c, 4)))
  }

  lemma {:induction false} WritesTransition(setup: Setup, job: Job, u: World, a: Attempt, run: Run, c: Choice)
    requires Ready(setup, job, u, EffectsGet(Fresh(a), run)) && c.fault == NoFault
    requires job.key.plan in u.records && u.records[job.key.plan].status == run.prev != run.next && !run.notify
    ensures var k := job.key;
            var v := WithRecords(u, k, u.records[k.plan := Finalising(k, run, u.records[k.plan]).record]);
            && k.plan in setup.plans && Ready(setup, job, v, FinalList(Fresh(a), run, Applied))
            && Drive(setup, job, u, EffectsGet(Fresh(a), run), Repeat(c, 2)) == (v, FinalList(Fresh(a), run, Applied))
  {
    hide WorldOk, Local, Drive, Ready, Repeat;
    var k, read := job.key, u.records[job.key.plan];
    var v := WithRecords(u, k, u.records[k.plan := Finalising(k, run, read).record]);
    RepeatOn(setup, job, u, EffectsGet(Fresh(a), run), c, 2);
    RepeatOn(setup, job, u, EffectsWrite(Fresh(a), run, read), c, 1);
    DriveNothing(setup, job, v, FinalList(Fresh(a), run, Applied), c);
  }

  lemma {:induction false} LeavesTransition(setup: Setup, job: Job, w: World, c: Choice, run: Run)
    requires WorldOk(setup, w) && Proposes(setup, job, w, c, run)
    ensures Leaves(w, job, run, [Finalising(job.key, run, Read(w, job.key))],
                   Drive(setup, job, w, Acquire, FailingLate(c)).0)
  {
    hide WorldOk, Local, Drive, Ready, Repeat, Candidate, LastFinal, Leaves;
    var k, a, u := job.key, Started(w, job), Held(w, job, run);
    NewScan(setup, w, k);
    ReachesCandidate(setup, job, w, c, run);
    hide Transitioned, Adjudicate, AfterEffects;
    DriveSplits(setup, job, w, Acquire, Repeat(c, 11), Repeat(c, 2) + ([FAILING] + Repeat(c, 4)));
    DriveSplits(setup, job, u, EffectsGet(Fresh(a), run), Repeat(c, 2), [FAILING] + Repeat(c, 4));
    CandidateStarts(setup, job, w, c, run);
    WritesTransition(setup, job, u, a, run, c);
    var v := WithRecords(u, k, u.records[k.plan := Finalising(k, run, Read(w, k)).record]);
    FailsAt(setup, job, v, FinalList(Fresh(a), run, Applied), Repeat(c, 4));
    Abandons(setup, job, v, a, c.fetched.id, c);
    LeavesWritten(job, w, run, a, c.fetched.id);
  }

  lemma LeavesWritten(job: Job, w: World, run: Run, a: Attempt, snapshot: string)
    requires job.key !in w.locks && a == Started(w, job)
    ensures var k, u := job.key, Held(w, job, run);
            var v := WithRecords(u, k, u.records[k.plan := Finalising(k, run, Read(w, k)).record]);
            Leaves(w, job, run, [Finalising(k, run, Read(w, k))], Abandoned(v, job, a, snapshot))
  {
    hide LastFinal;
    NotFinal(job, a, Held(w, job, run).nextId, snapshot, run);
  }

  lemma CandidateStarts(setup: Setup, job: Job, w: World, c: Choice, run: Run)
    requires Proposes(setup, job, w, c, run)
    ensures run.prev == Read(w, job.key).status && run.key == FinalKey(job.key, c.fetched.id)
    ensures run.id == w.nextId + 1
  {
    hide Transition, Proposal;
  }

  // The scenario: one plan, whose scans pause and resume it

  const PLAN := Plan(0, 0, {}, {})
  const SETUP := Setup(map[0 := PLAN], 1)
  const GUARDS := Guards(true, FreshComplete, FreshRule, NotValidated, true, false, Partial)

  function Scan(i: int): ScanKey {
    ScanKey(0, "session", i, "1d", "UTC", "config")
  }

  function Trigger(i: int): Job {
    Job(Scan(i), 0, Api)
  }

  function Evaluating(event: Event): Choice {
    Choice(NoFault, Snapshot("snapshot", true), Some(Evaluation(event, GUARDS, None, None)))
  }

  function Move(i: int, id: nat, from: State, to: State): Run {
    Run(id, FinalKey(Scan(i), "snapshot"), 0, Status(from, false), Status(to, false), false)
  }

  /** The events of the scenario and the moves they make. */
  predicate Moved(event: Event, from: State, to: State) {
    || (event == PlanActivated && from == IDLE && to == WATCHING)
    || (event == PlanPaused && from == WATCHING && to == PAUSED)
    || (event == PlanResumed && from == PAUSED && to == WATCHING)
  }

  lemma MoveIsProposed(w: World, i: int, event: Event, from: State, to: State)
    requires Moved(event, from, to)
    requires Scan(i) !in w.locks && Scan(i) !in w.scans.states && Read(w, Scan(i)).status == Status(from, false)
    ensures Proposes(SETUP, Trigger(i), w, Evaluating(event), Move(i, w.nextId + 1, from, to))
  {
  }

  /** A scan of the scenario after any others: it fails once its transition is written. */
  lemma {:induction false} ThenFailsLate(actions: seq<Action>, id: nat, i: int, event: Event, from: State, to: State)
    requires id !in Execute(SETUP, actions).sessions && Moved(event, from, to)
    requires var w := Reached(SETUP, actions);
             Scan(i) !in w.locks && Scan(i) !in w.scans.states && Read(w, Scan(i)).status == Status(from, false)
    ensures var more := actions + Play(id, Trigger(i), FailingLate(Evaluating(event)));
            var w, run := Reached(SETUP, actions), Move(i, Reached(SETUP, actions).nextId + 1, from, to);
            && Execute(SETUP, more).sessions.Keys == Execute(SETUP, actions).sessions.Keys + {id}
            && Leaves(w, Trigger(i), run, [Finalising(Scan(i), run, Read(w, Scan(i)))], Reached(SETUP, more))
  {
    hide Execute, Drive, WorldOk, Leaves, FailingLate, Proposes, Play, Evaluating;
    var w, c := Reached(SETUP, actions), Evaluating(event);
    MoveIsProposed(w, i, event, from, to);
    ReachedOk(SETUP, actions);
    LeavesTransition(SETUP, Trigger(i), w, c, Move(i, w.nextId + 1, from, to));
    PlayIsDriven(SETUP, actions, id, Trigger(i), FailingLate(c));
  }

  /** The same, failing before its transition is written. */
  lemma {:induction false} ThenFailsEarly(actions: seq<Action>, id: nat, i: int, event: Event, from: State, to: State)
    requires id !in Execute(SETUP, actions).sessions && Moved(event, from, to)
    requires var w := Reached(SETUP, actions);
             Scan(i) !in w.locks && Scan(i) !in w.scans.states && Read(w, Scan(i)).status == Status(from, false)
    ensures var more := actions + Play(id, Trigger(i), FailingEarly(Evaluating(event)));
            var w, run := Reached(SETUP, actions), Move(i, Reached(SETUP, actions).nextId + 1, from, to);
            && Execute(SETUP, more).sessions.Keys == Execute(SETUP, actions).sessions.Keys + {id}
            && Leaves(w, Trigger(i), run, [], Reached(SETUP, more))
  {
    hide Execute, Drive, WorldOk, Leaves, FailingEarly, Proposes, Play, Evaluating;
    var w, c := Reached(SETUP, actions), Evaluating(event);
    MoveIsProposed(w, i, event, from, to);
    ReachedOk(SETUP, actions);
    LeavesCandidate(SETUP, Trigger(i), w, c, Move(i, w.nextId + 1, from, to));
    PlayIsDriven(SETUP, actions, id, Trigger(i), FailingEarly(c));
  }

  /** Where the scenario stands: nobody is inside a scan, the given numbers of triggers and scans
      are used up, and the record is at the given state. */
  ghost predicate Stands(y: Sys, triggers: nat, scans: nat, state: State) {
    && (forall id :: id in y.sessions ==> id < triggers)
    && y.world.locks == {}
    && (forall i :: Scan(i) in y.world.scans.states ==> i < scans)
    && Read(y.world, Scan(0)).status == Status(state, false)
  }

  /** The scan in question, with the run it holds. */
  ghost predicate Holding(w: World, run: Run) {
    var k := run.key.scan;
    && k.plan == 0 && k in w.runs.byScan && w.runs.byScan[k] == run && IsOpen(w, k)
    && run.id < w.nextId && 0 in w.records
  }

  /** The next scan, which fails after it wrote its transition. */
  lemma {:induction false} NextLate(actions: seq<Action>, t: nat, i: nat, event: Event, from: State, to: State)
    requires Moved(event, from, to) && Stands(Execute(SETUP, actions), t, i, from)
    ensures var more := actions + Play(t, Trigger(i), FailingLate(Evaluating(event)));
            var w, v := Reached(SETUP, actions), Reached(SETUP, more);
            var run := Move(i, w.nextId + 1, from, to);
            && Stands(Execute(SETUP, more), t + 1, i + 1, to)
            && Leaves(w, Trigger(i), run, [Finalising(Scan(i), run, Read(w, Scan(i)))], v)
            && Holding(v, run)
  {
    hide Execute, Play, FailingLate, Evaluating, Moved, Log;
    ThenFailsLate(actions, t, i, event, from, to);
  }

  lemma {:induction false} NextEarly(actions: seq<Action>, t: nat, i: nat, event: Event, from: State, to: State)
    requires Moved(event, from, to) && Stands(Execute(SETUP, actions), t, i, from)
    ensures var more := actions + Play(t, Trigger(i), FailingEarly(Evaluating(event)));
            var w, v := Reached(SETUP, actions), Reached(SETUP, more);
            var run := Move(i, w.nextId + 1, from, to);
            && Stands(Execute(SETUP, more), t + 1, i + 1, from)
            && Leaves(w, Trigger(i), run, [], v)
            && Holding(v, run)
  {
    hide Execute, Play, FailingEarly, Evaluating, Moved, Log;
    ThenFailsEarly(actions, t, i, event, from, to);
  }

  /** What an earlier scan holds, a later one leaves alone. */
  lemma StillHolding(w: World, job: Job, run: Run, written: seq<Entry>, v: World, other: Run)
    requires Leaves(w, job, run, written, v) && Holding(w, other) && job.key != other.key.scan && job.key.plan == 0
    ensures Holding(v, other) && Log(v.scans, other.key.scan) == Log(w.scans, other.key.scan)
    ensures History(v, 0) == History(w, 0) + written
  {
    hide Log, LastFinal;
  }

  /** A fence of a run yet to come is in no history. */
  lemma {:induction false} FenceUnwritten(setup: Setup, w: World, p: nat, fence: Fence)
    requires WorldOk(setup, w) && w.nextId <= fence.run
    ensures FenceCount(History(w, p), fence) == 0
  {
    hide ScanOk, Follows, DegradedMove, FenceCount;
    var h := History(w, p);
    forall i | 0 <= i < |h| ensures h[i].record.fence != Some(fence) {
      EntryHolds(setup, w, p, i);
      if h[i].record.fence == Some(fence) {
        assert ScanOk(setup, w, h[i].author);
        RunIsOld(setup, w, h[i].author);
      }
    }
    NoFence(h, fence);
  }

  lemma RunIsOld(setup: Setup, w: World, k: ScanKey)
    requires ScanOk(setup, w, k) && k in w.runs.byScan
    ensures w.runs.byScan[k].id < w.nextId
  {
  }

  lemma {:induction false} NoFence(h: seq<Entry>, fence: Fence)
    requires forall i :: 0 <= i < |h| ==> h[i].record.fence != Some(fence)
    ensures FenceCount(h, fence) == 0
  {
    if h != [] { NoFence(h[..|h| - 1], fence); }
  }

  lemma {:induction false} LateCounts(w: World, run: Run, e: Entry, v: World, fence: Fence)
    requires History(v, 0) == History(w, 0) + [e] && e.record.fence == Some(FenceOf(run))
    ensures FenceCount(History(v, 0), fence)
            == FenceCount(History(w, 0), fence) + if fence == FenceOf(run) then 1 else 0
  {
    FenceCountAdds(History(w, 0), [e], fence);
    OneFence(e, fence);
  }

  // A transition that is written twice

  const ACTIVATED := Play(0, Trigger(0), FailingLate(Evaluating(PlanActivated)))
  const PAUSED_ONCE := ACTIVATED + Play(1, Trigger(1), FailingLate(Evaluating(PlanPaused)))
  const RESUMED := PAUSED_ONCE + Play(2, Trigger(2), FailingLate(Evaluating(PlanResumed)))
  const PAUSED_TWICE := RESUMED + Play(3, Trigger(1), Repeat(Evaluating(PlanPaused), 12))

  lemma {:induction false} Activates()
    ensures Stands(Execute(SETUP, ACTIVATED), 1, 1, WATCHING) && 0 in Reached(SETUP, ACTIVATED).records
  {
    hide Play, FailingLate, Evaluating, Drive, Leaves;
    var none: seq<Action> := [];
    assert Stands(Execute(SETUP, none), 0, 0, IDLE);
    NextLate(none, 0, 0, PlanActivated, IDLE, WATCHING);
    assert none + ACTIVATED == ACTIVATED;
  }

  lemma {:induction false} PausesOnce() returns (run: Run)
    ensures Stands(Execute(SETUP, PAUSED_ONCE), 2, 2, PAUSED)
    ensures var w := Reached(SETUP, PAUSED_ONCE);
            && Holding(w, run) && run == Move(1, run.id, WATCHING, PAUSED)
            && !AppliedLast(Log(w.scans, Scan(1))) && FenceCount(History(w, 0), FenceOf(run)) == 1
  {
    hide Play, FailingLate, Evaluating, Execute, FenceCount;
    Activates();
    var w := Reached(SETUP, ACTIVATED);
    run := Move(1, w.nextId + 1, WATCHING, PAUSED);
    NextLate(ACTIVATED, 1, 1, PlanPaused, WATCHING, PAUSED);
    ReachedOk(SETUP, ACTIVATED);
    FenceUnwritten(SETUP, w, 0, FenceOf(run));
    LateCounts(w, run, Finalising(Scan(1), run, Read(w, Scan(1))), Reached(SETUP, PAUSED_ONCE), FenceOf(run));
  }

  lemma {:induction false} Resumes() returns (run: Run)
    ensures Stands(Execute(SETUP, RESUMED), 3, 3, WATCHING)
    ensures var w := Reached(SETUP, RESUMED);
            && Holding(w, run) && run == Move(1, run.id, WATCHING, PAUSED)
            && !AppliedLast(Log(w.scans, Scan(1))) && FenceCount(History(w, 0), FenceOf(run)) == 1
  {
    hide Play, FailingLate, Evaluating, Execute, FenceCount, Leaves;
    run := PausesOnce();
    var w, v := Reached(SETUP, PAUSED_ONCE), Reached(SETUP, RESUMED);
    var next := Move(2, w.nextId + 1, PAUSED, WATCHING);
    NextLate(PAUSED_ONCE, 2, 2, PlanResumed, PAUSED, WATCHING);
    StillHolding(w, Trigger(2), next, [Finalising(Scan(2), next, Read(w, Scan(2)))], v, run);
    LateCounts(w, next, Finalising(Scan(2), next, Read(w, Scan(2))), v, FenceOf(run));
  }

  /** The transition of one candidate is written twice: its run fails once it wrote it, another scan
      takes the record back, and the recovery writes it again. */
  lemma {:induction false} TransitionIsWrittenTwice()
    ensures var w := Reached(SETUP, PAUSED_TWICE);
            && Scan(1) in w.runs.byScan
            && FenceCount(History(w, 0), FenceOf(w.runs.byScan[Scan(1)])) == 2
  {
    hide Play, Execute, FenceCount, Drive, Repeat, Completes;
    var run := Resumes();
    var choices := Repeat(Evaluating(PlanPaused), 12);
    RepeatHolds(Evaluating(PlanPaused), 12);
    RecoveryWritesExactly(SETUP, RESUMED, Trigger(1), choices);
    RecoveryCompletes(SETUP, RESUMED, Trigger(1), choices);
    CompletesKeepsRuns(Reached(SETUP, RESUMED), Scan(1), run, Resolution(Reached(SETUP, RESUMED), Scan(1)),
                       Drive(SETUP, Trigger(1), Reached(SETUP, RESUMED), Acquire, choices));
    PlayIsDriven(SETUP, RESUMED, 3, Trigger(1), choices);
  }

  lemma CompletesKeepsRuns(w: World, k: ScanKey, run: Run, d: Disposition, end: (World, Pc))
    requires Completes(w, k, run, d, end)
    ensures end.0.runs == w.runs && Settled(end.0, k, run, d)
  {
  }

  // A candidate that is finalised twice

  /** The calls of a recovery that finds its candidate superseded and fails to complete the scan. */
  function Superseding(c: Choice): seq<Choice> {
    Repeat(c, 7) + ([FAILING] + Repeat(c, 2))
  }

  /** A pending candidate whose target status another run has already written. */
  ghost predicate Overtaken(setup: Setup, job: Job, w: World, run: Run) {
    var k := job.key;
    && k.plan in setup.plans && k !in w.locks && IsOpen(w, k) && Stored(w, k, run)
    && !AppliedLast(Log(w.scans, k)) && LastFinal(Log(w.scans, k), run.id).None?
    && k.plan in w.records && w.records[k.plan].status == run.next && w.records[k.plan].fence != Some(FenceOf(run))
  }

  /** The stores with the superseded final attempt, the scan still open. */
  function Passed(w: World, k: ScanKey, run: Run): World
    requires Log(w.scans, k) != []
  {
    var log := Log(w.scans, k);
    w.(nextId := w.nextId + 1,
       scans := Scans(w.scans.states, w.scans.logs[k := log + [FinalAttempt(log, w.nextId, run, Superseded)]]))
  }

  lemma {:induction false} ReachesFinal(setup: Setup, job: Job, w: World, run: Run, c: Choice)
    requires WorldOk(setup, w) && Overtaken(setup, job, w, run) && c.fault == NoFault
    ensures var u := w.(locks := w.locks + {job.key});
            && Ready(setup, job, u, FinalList(Recovering, run, Superseded))
            && Drive(setup, job, w, Acquire, Repeat(c, 7))
               == Drive(setup, job, u, FinalList(Recovering, run, Superseded), Repeat(c, 2))
  {
    hide WorldOk, Local, Drive, Ready, Repeat, LastFinal, LastApplied;
    var u := w.(locks := w.locks + {job.key});
    MayStart(setup, job, w);
    RepeatOn(setup, job, w, Acquire, c, 7);
    RepeatOn(setup, job, u, Protocol.GetScan, c, 6);
    RepeatOn(setup, job, u, GetPending, c, 5);
    NotApplied(setup, w, job.key, run);
    RepeatOn(setup, job, u, FindApplied(run), c, 4);
    RepeatOn(setup, job, u, EffectsGet(Recovering, run), c, 3);
  }

  lemma NotApplied(setup: Setup, w: World, k: ScanKey, run: Run)
    requires WorldOk(setup, w) && Stored(w, k, run) && !AppliedLast(Log(w.scans, k))
    ensures Log(w.scans, k) != [] && LastApplied(Log(w.scans, k), run.id).None?
  {
    hide LogOk, CountsOk, RunOk, IntentOk, Finished, HistoryOk;
    assert ScanOk(setup, w, k);
    AppliedIsLast(Log(w.scans, k), run);
  }

  lemma {:induction false} RecordsFinal(setup: Setup, job: Job, w: World, run: Run, c: Choice)
    requires Ready(setup, job, w, FinalList(Recovering, run, Superseded)) && c.fault == NoFault
    requires Log(w.scans, job.key) != [] && LastFinal(Log(w.scans, job.key), run.id).None?
    ensures Ready(setup, job, Passed(w, job.key, run), Attach(Recovering, run, Superseded))
    ensures job.key.plan in setup.plans
    ensures Drive(setup, job, w, FinalList(Recovering, run, Superseded), Repeat(c, 2))
            == (Passed(w, job.key, run), Attach(Recovering, run, Superseded))
  {
    hide WorldOk, Local, Drive, Ready, Repeat, LastFinal, LastApplied, WellFormed, AppendAllowed, ReferencesExist;
    var k, log := job.key, Log(w.scans, job.key);
    var a, u := FinalAttempt(log, w.nextId, run, Superseded), w.(nextId := w.nextId + 1);
    RepeatOn(setup, job, w, FinalList(Recovering, run, Superseded), c, 2);
    RepeatOn(setup, job, u, FinalRecord(Recovering, run, Superseded, a), c, 1);
    FinalIsAccepted(setup, job, u, Recovering, run, Superseded, a);
    DriveNothing(setup, job, Passed(w, k, run), Attach(Recovering, run, Superseded), c);
  }

  /** Such a recovery leaves the scan open, with its superseded final attempt on record. */
  lemma {:induction false} LeavesSuperseded(setup: Setup, job: Job, w: World, run: Run, c: Choice)
    requires WorldOk(setup, w) && Overtaken(setup, job, w, run) && c.fault == NoFault
    ensures Log(w.scans, job.key) != []
    ensures Drive(setup, job, w, Acquire, Superseding(c)) == (Passed(w, job.key, run), Done(PENDING))
  {
    hide WorldOk, Local, Drive, Ready, Repeat, LastFinal, LastApplied, FinalAttempt, Overtaken;
    var k := job.key;
    var u, final, at := w.(locks := w.locks + {k}), FinalList(Recovering, run, Superseded),
        Attach(Recovering, run, Superseded);
    Overtakes(setup, job, w, run);
    NotApplied(setup, w, k, run);
    ReachesFinal(setup, job, w, run, c);
    DriveSplits(setup, job, w, Acquire, Repeat(c, 7), [FAILING] + Repeat(c, 2));
    RecordsFinal(setup, job, u, run, c);
    var v := Passed(u, k, run);
    FailsAt(setup, job, v, at, Repeat(c, 2));
    RepeatOn(setup, job, v, Audit(ReportPending, PENDING), c, 2);
    RepeatOn(setup, job, v, Protocol.Release(PENDING), c, 1);
    DriveNothing(setup, job, v.(locks := v.locks - {k}), Done(PENDING), c);
    assert v.locks - {k} == w.locks;
  }

  lemma Overtakes(setup: Setup, job: Job, w: World, run: Run)
    requires Overtaken(setup, job, w, run)
    ensures job.key.plan in setup.plans && job.key !in w.locks && Stored(w, job.key, run)
    ensures !AppliedLast(Log(w.scans, job.key)) && LastFinal(Log(w.scans, job.key), run.id).None?
  {
  }

  const STORED := ACTIVATED + Play(1, Trigger(1), FailingEarly(Evaluating(PlanPaused)))
  const OVERTAKEN := STORED + Play(2, Trigger(2), FailingLate(Evaluating(PlanPaused)))
  const PASSED := OVERTAKEN + Play(3, Trigger(1), Superseding(Evaluating(PlanPaused)))
  const RETURNED := PASSED + Play(4, Trigger(3), FailingLate(Evaluating(PlanResumed)))
  const FINALISED := RETURNED + Play(5, Trigger(1), Repeat(Evaluating(PlanPaused), 12))

  lemma {:induction false} IsStored() returns (run: Run)
    ensures Stands(Execute(SETUP, STORED), 2, 2, WATCHING)
    ensures var w := Reached(SETUP, STORED);
            && Holding(w, run) && run == Move(1, run.id, WATCHING, PAUSED)
            && !AppliedLast(Log(w.scans, Scan(1))) && LastFinal(Log(w.scans, Scan(1)), run.id).None?
  {
    hide Play, FailingEarly, Evaluating, Execute, LastFinal;
    Activates();
    run := Move(1, Reached(SETUP, ACTIVATED).nextId + 1, WATCHING, PAUSED);
    NextEarly(ACTIVATED, 1, 1, PlanPaused, WATCHING, PAUSED);
  }

  lemma {:induction false} IsOvertaken() returns (run: Run)
    ensures Stands(Execute(SETUP, OVERTAKEN), 3, 3, PAUSED)
    ensures var w := Reached(SETUP, OVERTAKEN);
            Holding(w, run) && run == Move(1, run.id, WATCHING, PAUSED) && Overtaken(SETUP, Trigger(1), w, run)
  {
    hide Play, FailingLate, Evaluating, Execute, LastFinal;
    run := IsStored();
    var w, v := Reached(SETUP, STORED), Reached(SETUP, OVERTAKEN);
    var next := Move(2, w.nextId + 1, WATCHING, PAUSED);
    NextLate(STORED, 2, 2, PlanPaused, WATCHING, PAUSED);
    StillHolding(w, Trigger(2), next, [Finalising(Scan(2), next, Read(w, Scan(2)))], v, run);
  }

  /** The scan is open, and its log ends with a superseded final attempt. */
  ghost predicate SupersededOnce(w: World, run: Run) {
    var log := Log(w.scans, run.key.scan);
    SucceededLast(log) && log[|log| - 1].disposition == Some(Superseded)
  }

  lemma {:induction false} IsSuperseded() returns (run: Run)
    ensures Stands(Execute(SETUP, PASSED), 4, 3, PAUSED)
    ensures var w := Reached(SETUP, PASSED);
            Holding(w, run) && run == Move(1, run.id, WATCHING, PAUSED) && SupersededOnce(w, run)
  {
    hide Play, Superseding, Execute, LastFinal, Drive, WorldOk;
    run := IsOvertaken();
    var w, c := Reached(SETUP, OVERTAKEN), Evaluating(PlanPaused);
    ReachedOk(SETUP, OVERTAKEN);
    LeavesSuperseded(SETUP, Trigger(1), w, run, c);
    PlayIsDriven(SETUP, OVERTAKEN, 3, Trigger(1), Superseding(c));
  }

  lemma {:induction false} Returns() returns (run: Run)
    ensures Stands(Execute(SETUP, RETURNED), 5, 4, WATCHING)
    ensures var w := Reached(SETUP, RETURNED);
            Holding(w, run) && run == Move(1, run.id, WATCHING, PAUSED) && SupersededOnce(w, run)
  {
    hide Play, FailingLate, Evaluating, Execute, Leaves;
    run := IsSuperseded();
    var w, v := Reached(SETUP, PASSED), Reached(SETUP, RETURNED);
    var next := Move(3, w.nextId + 1, PAUSED, WATCHING);
    NextLate(PASSED, 4, 3, PlanResumed, PAUSED, WATCHING);
    StillHolding(w, Trigger(3), next, [Finalising(Scan(3), next, Read(w, Scan(3)))], v, run);
  }

  /** A candidate gets two final attempts: another run has made its move, so its recovery records it
      as superseded and then fails to complete the scan; a third run takes the record back, and the
      next recovery applies it. */
  lemma {:induction false} CandidateIsFinalisedTwice()
    ensures SuccessCount(Log(Reached(SETUP, FINALISED).scans, Scan(1))) == 2
  {
    hide Play, Execute, Drive, Repeat, Completes, SuccessCount;
    var run := Returns();
    var w, choices := Reached(SETUP, RETURNED), Repeat(Evaluating(PlanPaused), 12);
    RepeatHolds(Evaluating(PlanPaused), 12);
    RecoveryCompletes(SETUP, RETURNED, Trigger(1), choices);
    CompletesKeepsRuns(w, Scan(1), run, Applied, Drive(SETUP, Trigger(1), w, Acquire, choices));
    PlayIsDriven(SETUP, RETURNED, 5, Trigger(1), choices);
    LogsAreAppendOnly(SETUP, RETURNED, Play(5, Trigger(1), choices), Scan(1));
    AppliedAfterwards(SETUP, FINALISED, Log(w.scans, Scan(1)), Scan(1));
    FinalAttempts(SETUP, FINALISED, Scan(1));
  }

  lemma AppliedAfterwards(setup: Setup, actions: seq<Action>, before: seq<Attempt>, k: ScanKey)
    requires k in Reached(setup, actions).runs.byScan
    requires before <= Log(Reached(setup, actions).scans, k) && AppliedLast(Log(Reached(setup, actions).scans, k))
    requires SucceededLast(before) && before[|before| - 1].disposition == Some(Superseded)
    ensures FinalisedTwice(Log(Reached(setup, actions).scans, k))
  {
    hide HistoryOk, RunsAgree, IntentsAgree, LogOk, CountsOk, RunOk, IntentOk, Finished, Execute;
    var w := Reached(setup, actions);
    ReachedOk(setup, actions);
    assert ScanOk(setup, w, k);
    assert Log(w.scans, k)[|before| - 1] == before[|before| - 1];
  }
}
