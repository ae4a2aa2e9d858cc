/** Scan identities, provider attempts, and the append rule that keeps one scan's attempt log
    a numbered recovery chain. */
module ScanLog {
  import opened StateMachine

  /** The lock identity of one scan; the digest of the original is the tuple itself here. */
  datatype ScanKey = ScanKey(plan: nat, session: string, window: int, interval: string, timezone: string,
                             configHash: string)

  /** The identity of one scan's result on one market snapshot. */
  datatype FinalKey = FinalKey(scan: ScanKey, snapshot: string)

  datatype AttemptStatus = RUNNING | FAILED | DEGRADED | SUCCEEDED

  datatype Disposition = Applied | Superseded

  datatype Attempt = Attempt(
    id: nat,
    number: int,
    status: AttemptStatus,
    config: nat,
    completed: bool,
    failure: bool,
    snapshot: Option<string>,
    recoveryOf: Option<nat>,
    duplicateOf: Option<nat>,
    finalRun: Option<nat>,
    finalKey: Option<FinalKey>,
    disposition: Option<Disposition>)

  /** The evidence an attempt of each status must and must not carry. */
  predicate WellFormed(a: Attempt) {
    && a.number >= 1
    && a.recoveryOf != Some(a.id)
    && a.duplicateOf != Some(a.id)
    && match a.status
       case RUNNING =>
         && !a.completed && a.snapshot.None? && !a.failure && a.disposition.None?
         && a.duplicateOf.None? && a.finalRun.None?
       case SUCCEEDED =>
         && a.completed && !a.failure
         && if a.duplicateOf.Some? then a.snapshot.None? && a.finalRun.None? && a.disposition.None?
            else a.snapshot.Some? && (a.disposition.Some? ==> a.finalRun.Some? && a.finalKey.Some?)
       case _ =>
         && a.completed && a.failure && a.finalRun.None? && a.duplicateOf.None? && a.disposition.None?
         && (a.status == DEGRADED ==> a.snapshot.Some?)
  }

  datatype Recovery = Resume | Retry | Finalize

  function RecoveryDecision(a: Attempt): Recovery {
    match a.status
    case RUNNING => Resume
    case SUCCEEDED => Finalize
    case _ => Retry
  }

  /** The attempt with the highest number; the first of them on a tie. */
  function Latest(log: seq<Attempt>): (a: Attempt)
    requires log != []
    ensures a in log
  {
    if |log| == 1 then log[0]
    else
      var rest := Latest(log[..|log| - 1]);
      if log[|log| - 1].number > rest.number then log[|log| - 1] else rest
  }

  predicate HasSuccess(log: seq<Attempt>) {
    exists i :: 0 <= i < |log| && log[i].status == SUCCEEDED
  }

  /** Whether the candidate may be appended. */
  predicate AppendAllowed(log: seq<Attempt>, a: Attempt) {
    if log == [] then a.number == 1 && a.recoveryOf.None?
    else
      var previous := Latest(log);
      && a.number == previous.number + 1
      && if HasSuccess(log) then a.finalRun.Some? || (a.duplicateOf.Some? && a.recoveryOf.None?)
         else a.recoveryOf == Some(previous.id) && RecoveryDecision(previous) in {Resume, Retry}
  }

  /** Numbers run 1..n in storage order. */
  predicate Numbered(log: seq<Attempt>) {
    forall i :: 0 <= i < |log| ==> log[i].number == i + 1
  }

  /** Every attempt up to and including the first success recovers its predecessor. */
  predicate Chained(log: seq<Attempt>) {
    forall i :: 0 <= i < |log| && !HasSuccess(log[..i]) ==> log[i].recoveryOf == Predecessor(log, i)
  }

  function Predecessor(log: seq<Attempt>, i: nat): Option<nat>
    requires i <= |log|
  {
    if i == 0 then None else Some(log[i - 1].id)
  }

  lemma {:induction false} LatestIsLast(log: seq<Attempt>)
    requires log != [] && Numbered(log)
    ensures Latest(log) == log[|log| - 1]
  {
    if |log| > 1 {
      LatestIsLast(log[..|log| - 1]);
    }
  }

  /** Whatever the client does, the append rule alone keeps every log numbered 1..n and chained
      up to its first success. Only an attempt that names a final run may recover a success: any
      other recovers the last attempt of a log without one. */
  lemma AppendKeepsChain(log: seq<Attempt>, a: Attempt)
    requires Numbered(log) && Chained(log) && AppendAllowed(log, a)
    ensures Numbered(log + [a]) && Chained(log + [a])
    ensures a.recoveryOf.Some? && a.finalRun.None? ==>
              && log != [] && !HasSuccess(log)
              && a.recoveryOf == Some(log[|log| - 1].id) && log[|log| - 1].status != SUCCEEDED
  {
    var longer := log + [a];
    if log != [] {
      LatestIsLast(log);
    }
    forall i | 0 <= i < |longer| && !HasSuccess(longer[..i])
      ensures longer[i].recoveryOf == Predecessor(longer, i)
    {
      if i < |log| {
        assert longer[..i] == log[..i];
        assert log[i].recoveryOf == Predecessor(log, i);
      } else {
        assert longer[..i] == log;
      }
    }
  }

  /** The latest successful attempt that names the run. */
  function LastFinal(log: seq<Attempt>, run: nat): (a: Option<Attempt>)
    ensures a.Some? ==> a.value in log && a.value.status == SUCCEEDED && a.value.finalRun == Some(run)
    ensures a.None? ==> forall i :: 0 <= i < |log| ==> log[i].status != SUCCEEDED || log[i].finalRun != Some(run)
  {
    if log == [] then None
    else
      var last := log[|log| - 1];
      if last.status == SUCCEEDED && last.finalRun == Some(run) then Some(last)
      else LastFinal(log[..|log| - 1], run)
  }

  predicate AppliedFor(a: Attempt, run: nat) {
    a.status == SUCCEEDED && a.finalRun == Some(run) && a.disposition != Some(Superseded)
  }

  /** The latest successful attempt that names the run and was not superseded. */
  function LastApplied(log: seq<Attempt>, run: nat): (a: Option<Attempt>)
    ensures a.Some? ==> a.value in log && AppliedFor(a.value, run)
    ensures a.None? ==> forall i :: 0 <= i < |log| ==> !AppliedFor(log[i], run)
  {
    if log == [] then None
    else if AppliedFor(log[|log| - 1], run) then Some(log[|log| - 1])
    else LastApplied(log[..|log| - 1], run)
  }

  /** How many provider attempts a log records. */
  function RunningCount(log: seq<Attempt>): nat {
    if log == [] then 0
    else RunningCount(log[..|log| - 1]) + if log[|log| - 1].status == RUNNING then 1 else 0
  }

  /** How many provider attempts ended without a result. */
  function LostCount(log: seq<Attempt>): nat {
    if log == [] then 0
    else LostCount(log[..|log| - 1]) + if log[|log| - 1].status in {FAILED, DEGRADED} then 1 else 0
  }

  lemma {:induction false} CountsOfAppend(log: seq<Attempt>, a: Attempt)
    ensures RunningCount(log + [a]) == RunningCount(log) + (if a.status == RUNNING then 1 else 0)
    ensures LostCount(log + [a]) == LostCount(log) + (if a.status in {FAILED, DEGRADED} then 1 else 0)
  {
    assert (log + [a])[..|log|] == log;
  }
}
