/** What the step system proves, for the runs of the coordinator object. */
module CoordinatorRuns {
  import opened StateMachine
  import opened ScanLog
  import opened Stores
  import opened Protocol
  import opened ProtocolSystem
  import opened ProtocolTheorems
  import opened ProtocolInvariant
  import opened Recovery
  import opened Outcomes
  import opened Coordinator

  /** The actions by which one coordinator starts and takes n steps. */
  function Script(id: nat, job: Job, environment: nat -> Choice, first: nat, n: nat): seq<Action> {
    if n == 0 then [Start(id, job)]
    else Script(id, job, environment, first, n - 1) + [Proceed(id, environment(first + n - 1))]
  }

  /** A run of the coordinator object on the stores some execution reached continues that execution,
      so every theorem about executions holds of the stores it leaves. */
  lemma {:induction false} RunIsAnExecution(setup: Setup, actions: seq<Action>, id: nat, job: Job,
                                            environment: nat -> Choice, first: nat, n: nat)
    requires job.key.plan in setup.plans && id !in Execute(setup, actions).sessions
    ensures var y := Execute(setup, actions + Script(id, job, environment, first, n));
            && id in y.sessions && y.sessions[id].job == job
            && (y.world, y.sessions[id].pc) == Steps(setup, job, Reached(setup, actions), environment, first, n)
  {
    hide Step, Touches;
    var script := Script(id, job, environment, first, n);
    var whole := actions + script;
    if n == 0 {
      assert whole[..|whole| - 1] == actions;
    } else {
      RunIsAnExecution(setup, actions, id, job, environment, first, n - 1);
      assert whole[..|whole| - 1] == actions + Script(id, job, environment, first, n - 1);
    }
  }

  function Chosen(environment: nat -> Choice, first: nat, n: nat): seq<Choice> {
    seq(n, i requires 0 <= i < n => environment(first + i))
  }

  lemma {:induction false} DriveExtends(setup: Setup, job: Job, w: World, pc: Pc, choices: seq<Choice>, c: Choice)
    requires job.key.plan in setup.plans
    ensures var (v, at) := Drive(setup, job, w, pc, choices);
            Drive(setup, job, w, pc, choices + [c]) == Step(setup, job, v, at, c)
    decreases |choices|
  {
    hide Step;
    if choices == [] {
      assert Drive(setup, job, w, pc, [c]) == Drive(setup, job, Step(setup, job, w, pc, c).0,
             Step(setup, job, w, pc, c).1, [c][1..]);
    } else {
      var (v, next) := Step(setup, job, w, pc, choices[0]);
      DriveExtends(setup, job, v, next, choices[1..], c);
      assert (choices + [c])[1..] == choices[1..] + [c];
    }
  }

  lemma {:induction false} StepsAreDriven(setup: Setup, job: Job, w: World, environment: nat -> Choice, first: nat,
                                          n: nat)
    requires job.key.plan in setup.plans
    ensures Steps(setup, job, w, environment, first, n) == Drive(setup, job, w, Acquire, Chosen(environment, first, n))
  {
    hide Step;
    if n > 0 {
      StepsAreDriven(setup, job, w, environment, first, n - 1);
      var fewer := Chosen(environment, first, n - 1);
      assert Chosen(environment, first, n) == fewer + [environment(first + n - 1)];
      DriveExtends(setup, job, w, Acquire, fewer, environment(first + n - 1));
    }
  }

  lemma {:induction false} DoneIsFinal(setup: Setup, job: Job, w: World, environment: nat -> Choice, first: nat,
                                       n: nat, m: nat)
    requires job.key.plan in setup.plans && n <= m
    requires Steps(setup, job, w, environment, first, n).1.Done?
    ensures Steps(setup, job, w, environment, first, m) == Steps(setup, job, w, environment, first, n)
  {
    hide Step;
    if n < m {
      DoneIsFinal(setup, job, w, environment, first, n, m - 1);
      var (v, pc) := Steps(setup, job, w, environment, first, m - 1);
      DoneStays(setup, job, v, pc, environment(first + m - 1));
    }
  }

  /** If a run of the coordinator object on stores that an execution reached meets no failure, and
      the scan is open, unlocked and holds a candidate, then it ends with the scan completed and
      reports the disposition the log and the record call for. */
  lemma {:induction false} RunRecovers(setup: Setup, actions: seq<Action>, job: Job, environment: nat -> Choice,
                                       first: nat, n: nat)
    requires job.key.plan in setup.plans && forall i :: first <= i ==> environment(i).fault == NoFault
    requires var w := Reached(setup, actions);
             job.key !in w.locks && IsOpen(w, job.key) && job.key in w.runs.byScan
    requires Steps(setup, job, Reached(setup, actions), environment, first, n).1.Done?
    ensures var w := Reached(setup, actions);
            Completes(w, job.key, w.runs.byScan[job.key], Resolution(w, job.key),
                      Steps(setup, job, w, environment, first, n))
  {
    hide Step, Steps, Drive, Execute, Completes, Resolution;
    RunIsDriven(setup, job, Reached(setup, actions), environment, first, n, 12);
    RecoveryCompletes(setup, actions, job, Chosen(environment, first, n + 12));
  }

  /** A finished run of the coordinator object is one that is driven to its end, however long, so what
      holds of driven runs holds of it. */
  lemma {:induction false} RunIsDriven(setup: Setup, job: Job, w: World, environment: nat -> Choice, first: nat,
                                       n: nat, more: nat)
    requires job.key.plan in setup.plans && Steps(setup, job, w, environment, first, n).1.Done?
    ensures Drive(setup, job, w, Acquire, Chosen(environment, first, n + more))
            == Steps(setup, job, w, environment, first, n)
  {
    hide Step, Steps, Drive;
    DoneIsFinal(setup, job, w, environment, first, n, n + more);
    StepsAreDriven(setup, job, w, environment, first, n + more);
  }

  /** A run of the coordinator object that meets no failure and gets data that is not actionable degrades
      the record of its plan as the table says. */
  lemma {:induction false} RunDegrades(setup: Setup, actions: seq<Action>, job: Job, environment: nat -> Choice,
                                       first: nat, n: nat)
    requires job.key.plan in setup.plans && forall i :: first <= i ==> environment(i).fault == NoFault
    requires Attemptable(setup, Reached(setup, actions), job.key)
    requires var fetched := environment(first + FetchAt(Reached(setup, actions), job.key)).fetched;
             fetched.Snapshot? && !fetched.actionable
    requires Steps(setup, job, Reached(setup, actions), environment, first, n).1.Done?
    ensures var w := Reached(setup, actions);
            DegradesPlan(job, w, environment(first + FetchAt(w, job.key)).fetched.id,
                     Steps(setup, job, w, environment, first, n))
  {
    hide Step, Steps, Drive, Execute, DegradesPlan, Attemptable;
    RunIsDriven(setup, job, Reached(setup, actions), environment, first, n, 14);
    DegradedRun(setup, actions, job, Chosen(environment, first, n + 14));
  }
}
