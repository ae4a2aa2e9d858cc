/** What the repositories accept, and what they then hold, told without their checks. */
module StoreRules {
  import opened StateMachine
  import opened ScanLog
  import opened Stores

  /** Attempts carry what their status allows: a started one nothing yet; a lost one that it ended, and on
      degraded data the snapshot; a success either the attempt it repeats, or the snapshot, with a
      disposition only where it names a run and its key. */
  predicate Evidence(a: Attempt) {
    && (a.completed <==> a.status != RUNNING)
    && (a.failure <==> a.status in {FAILED, DEGRADED})
    && (a.status != SUCCEEDED ==> a.duplicateOf.None? && a.finalRun.None? && a.disposition.None?)
    && (a.status == RUNNING ==> a.snapshot.None?)
    && (a.status == DEGRADED ==> a.snapshot.Some?)
    && (a.status == SUCCEEDED ==> (a.snapshot.None? <==> a.duplicateOf.Some?))
    && (a.duplicateOf.Some? ==> a.finalRun.None? && a.disposition.None?)
    && (a.disposition.Some? ==> a.finalRun.Some? && a.finalKey.Some?)
    && a.duplicateOf != Some(a.id) && a.recoveryOf != Some(a.id)
  }

  predicate Holds(log: seq<Attempt>, id: nat) {
    exists i :: 0 <= i < |log| && log[i].id == id
  }

  predicate HoldsSuccess(log: seq<Attempt>, id: nat) {
    exists i :: 0 <= i < |log| && log[i].id == id && log[i].status == SUCCEEDED
  }

  /** An attempt is appended to a chained log exactly if it is the next one, carries its evidence and
      refers to what is there: before the first success it recovers the last attempt, afterwards it names
      the stored run of the scan or repeats a success; a completed scan takes only its own run. */
  lemma AttemptsAccepted(s: Scans, runs: Runs, k: ScanKey, a: Attempt)
    requires LogsChained(s)
    ensures var r, log := Appended(s, runs, k, a), Log(s, k);
            && (r.Some? <==>
                  && k in s.states && Evidence(a) && a.number == |log| + 1
                  && (!HasSuccess(log) ==>
                        && a.recoveryOf == (if log == [] then None else Some(log[|log| - 1].id))
                        && a.duplicateOf.None?)
                  && (HasSuccess(log) ==> a.finalRun.Some? || (a.duplicateOf.Some? && a.recoveryOf.None?))
                  && (a.recoveryOf.Some? ==> Holds(log, a.recoveryOf.value))
                  && (a.duplicateOf.Some? ==> HoldsSuccess(log, a.duplicateOf.value))
                  && (a.finalRun.Some? ==> k in runs.byScan && runs.byScan[k].id == a.finalRun.value)
                  && (s.states[k].Completed? ==> a.finalRun == Some(s.states[k].finalRun)))
            && (r.Some? ==> r.value == Scans(s.states, s.logs[k := log + [a]]))
  {
    hide Latest;
    var log := Log(s, k);
    if a.number >= 1 { EvidenceIsWellFormed(a); }
    if k in s.states && log != [] { LatestIsLast(log); }
  }

  lemma EvidenceIsWellFormed(a: Attempt)
    requires a.number >= 1
    ensures WellFormed(a) <==> Evidence(a)
  {
  }

  /** A scan is completed exactly if it is open, the run is its stored one, and some attempt is a success
      that names it; then it holds that run and nothing else changes. */
  lemma CompletionAccepted(s: Scans, runs: Runs, k: ScanKey, run: nat)
    ensures var r, log := Attached(s, runs, k, run), Log(s, k);
            && (r.Some? <==>
                  && k in s.states && s.states[k] == Open && k in runs.byScan && runs.byScan[k].id == run
                  && exists i :: 0 <= i < |log| && log[i].status == SUCCEEDED && log[i].finalRun == Some(run))
            && (r.Some? ==> r.value == Scans(s.states[k := Completed(run)], s.logs))
  {
  }

  /** A run is accepted exactly if it is already stored so for this scan, or its key is free and the scan
      exists and has no run; then it is found by its key, its identifier and its scan, and every other
      run is found as before. */
  lemma RunsAccepted(r: Runs, s: Scans, run: Run, k: ScanKey)
    ensures var stored := RunStored(r, s, run, k);
            var again := run.key in r.byKey && r.byKey[run.key] == (run, k);
            && (stored.Some? <==> again || (run.key !in r.byKey && k in s.states && k !in r.byScan))
            && (stored.Some? ==> stored.value.1 == run && (again ==> stored.value.0 == r))
            && (stored.Some? && !again ==>
                  var v := stored.value.0;
                  && (forall f :: f in v.byKey <==> f in r.byKey || f == run.key)
                  && (forall f :: f in v.byKey ==> v.byKey[f] == if f == run.key then (run, k) else r.byKey[f])
                  && (forall i :: i in v.byId <==> i in r.byId || i == run.id)
                  && (forall i :: i in v.byId ==> v.byId[i] == if i == run.id then run else r.byId[i])
                  && (forall l :: l in v.byScan <==> l in r.byScan || l == k)
                  && (forall l :: l in v.byScan ==> v.byScan[l] == if l == k then run else r.byScan[l]))
  {
  }

  /** An intent is accepted exactly if its run is stored, of its plan and under its key, and nothing else
      stands under that key; a new one is filed last under its run, and all others stay. */
  lemma IntentsAccepted(t: Intents, r: Runs, intent: Intent)
    ensures var stored := IntentStored(t, r, intent);
            && (stored.Some? <==>
                  && intent.run in r.byId
                  && r.byId[intent.run].key == intent.key && intent.key.scan.plan == intent.plan
                  && (intent.key in t.byKey ==> t.byKey[intent.key] == intent))
            && (stored.Some? && intent.key in t.byKey ==> stored.value == t)
            && (stored.Some? && intent.key !in t.byKey ==>
                  var v := stored.value;
                  && (forall f :: f in v.byKey <==> f in t.byKey || f == intent.key)
                  && (forall f :: f in v.byKey ==> v.byKey[f] == if f == intent.key then intent else t.byKey[f])
                  && Filed(v, intent.run) == Filed(t, intent.run) + [intent.key]
                  && forall id :: id != intent.run ==> Filed(v, id) == Filed(t, id))
  {
  }

  function Filed(t: Intents, run: nat): seq<FinalKey> {
    if run in t.byRun then t.byRun[run] else []
  }

  /** The matching intents of a run are those filed under it that hold what the run calls for. */
  lemma {:induction false} MatchingHolds(t: Intents, run: Run, f: FinalKey)
    ensures f in MatchingIntents(t, run) <==>
              f in Filed(t, run.id) && f in t.byKey && t.byKey[f] == Intent(run.key.scan.plan, run.id, run.key)
  {
    MatchingIn(t, Filed(t, run.id), run, f);
  }

  lemma {:induction false} MatchingIn(t: Intents, keys: seq<FinalKey>, run: Run, f: FinalKey)
    ensures f in Matching(t, keys, run) <==> f in keys && f in t.byKey && t.byKey[f] == IntentOf(run)
  {
    if keys != [] {
      MatchingIn(t, keys[1..], run, f);
      assert keys == [keys[0]] + keys[1..];
    }
  }
}
