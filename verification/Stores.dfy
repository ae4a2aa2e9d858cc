/** The repositories the coordinator drives: each operation as a function from the stored value
    to the new one (or a rejection), and each repository as a class that applies it in place. */
module Stores {
  import opened StateMachine
  import opened ScanLog

  /** The pair that ties a stored transition to the run it finalises. */
  datatype Fence = Fence(run: nat, key: FinalKey)

  datatype Record = Record(status: Status, revision: nat, fence: Option<Fence>)

  /** A persisted candidate and the transition it proposes. */
  datatype Run = Run(id: nat, key: FinalKey, config: nat, prev: Status, next: Status, notify: bool)

  datatype Intent = Intent(plan: nat, run: nat, key: FinalKey)

  datatype ScanState = Open | Completed(finalRun: nat)

  type Records = map<nat, Record>

  datatype Scans = Scans(states: map<ScanKey, ScanState>, logs: map<ScanKey, seq<Attempt>>)

  datatype Runs = Runs(byKey: map<FinalKey, (Run, ScanKey)>, byId: map<nat, Run>, byScan: map<ScanKey, Run>)

  datatype Intents = Intents(byKey: map<FinalKey, Intent>, byRun: map<nat, seq<FinalKey>>)

  // Recommendation records

  function Ensured(records: Records, plan: nat): (r: Records)
    ensures plan in r
  {
    if plan in records then records else records[plan := Record(Status(IDLE, false), 0, None)]
  }

  /** Compare-and-set: the write happens only if the stored record is the one that was read. */
  function Transitioned(records: Records, plan: nat, previous: Record, next: Status, fence: Option<Fence>)
    : Option<Records>
  {
    if plan in records && records[plan] == previous then
      Some(records[plan := Record(next, previous.revision + 1, fence)])
    else None
  }

  // Scans and attempts

  function Opened(s: Scans, k: ScanKey): Scans {
    if k in s.states then s else Scans(s.states[k := Open], s.logs[k := []])
  }

  function Log(s: Scans, k: ScanKey): seq<Attempt> {
    if k in s.logs then s.logs[k] else []
  }

  predicate ReferencesExist(s: Scans, runs: Runs, k: ScanKey, a: Attempt)
    requires k in s.states
  {
    var log := Log(s, k);
    && (a.recoveryOf.Some? ==> exists i :: 0 <= i < |log| && log[i].id == a.recoveryOf.value)
    && (a.duplicateOf.Some? ==>
          exists i :: 0 <= i < |log| && log[i].id == a.duplicateOf.value && log[i].status == SUCCEEDED)
    && (a.finalRun.Some? ==>
          && k in runs.byScan
          && runs.byScan[k].id == a.finalRun.value
          && (s.states[k].Completed? ==> s.states[k].finalRun == a.finalRun.value))
  }

  function Appended(s: Scans, runs: Runs, k: ScanKey, a: Attempt): Option<Scans> {
    var log := Log(s, k);
    if && k in s.states
       && WellFormed(a)
       && (forall i :: 0 <= i < |log| ==> log[i].number != a.number)
       && ReferencesExist(s, runs, k, a)
       && (s.states[k].Completed? ==> a.finalRun.Some?)
       && AppendAllowed(log, a)
    then Some(s.(logs := s.logs[k := log + [a]]))
    else None
  }

  function Attached(s: Scans, runs: Runs, k: ScanKey, run: nat): Option<Scans> {
    if && k in s.states
       && s.states[k].Open?
       && k in runs.byScan
       && runs.byScan[k].id == run
       && LastFinal(Log(s, k), run).Some?
    then Some(s.(states := s.states[k := Completed(run)]))
    else None
  }

  // Strategy runs

  function RunStored(r: Runs, s: Scans, run: Run, k: ScanKey): Option<(Runs, Run)> {
    if run.key in r.byKey then
      if r.byKey[run.key] == (run, k) then Some((r, run)) else None
    else if k !in s.states || k in r.byScan then None
    else Some((Runs(r.byKey[run.key := (run, k)], r.byId[run.id := run], r.byScan[k := run]), run))
  }

  // Child intents

  function IntentStored(t: Intents, r: Runs, intent: Intent): Option<Intents> {
    if intent.run !in r.byId || r.byId[intent.run].key.scan.plan != intent.plan
        || r.byId[intent.run].key != intent.key then
      None
    else if intent.key in t.byKey then
      if t.byKey[intent.key] == intent then Some(t) else None
    else
      var keys := if intent.run in t.byRun then t.byRun[intent.run] else [];
      Some(Intents(t.byKey[intent.key := intent], t.byRun[intent.run := keys + [intent.key]]))
  }

  /** The intents filed under a run that match the one the run calls for. */
  function MatchingIntents(t: Intents, run: Run): seq<FinalKey> {
    if run.id in t.byRun then Matching(t, t.byRun[run.id], run) else []
  }

  function IntentOf(run: Run): Intent {
    Intent(run.key.scan.plan, run.id, run.key)
  }

  function Matching(t: Intents, keys: seq<FinalKey>, run: Run): seq<FinalKey> {
    if keys == [] then []
    else
      (if keys[0] in t.byKey && t.byKey[keys[0]] == IntentOf(run) then [keys[0]] else [])
      + Matching(t, keys[1..], run)
  }

  predicate LogsChained(s: Scans) {
    && s.states.Keys == s.logs.Keys
    && forall k :: k in s.logs ==> Numbered(s.logs[k]) && Chained(s.logs[k])
  }

  // The repositories as objects

  class RecordStore {
    var records: Records

    constructor ()
      ensures records == map[]
    {
      records := map[];
    }

    method GetOrCreate(plan: nat) returns (r: Record)
      modifies this
      ensures records == Ensured(old(records), plan)
      ensures r == records[plan]
    {
      if plan !in records {
        records := records[plan := Record(Status(IDLE, false), 0, None)];
      }
      r := records[plan];
    }

    /** A rejected write leaves the store as it was. */
    method RecordTransition(plan: nat, previous: Record, next: Status, fence: Option<Fence>) returns (ok: bool)
      modifies this
      ensures ok <==> plan in old(records) && old(records)[plan] == previous
      ensures records == if ok then old(records)[plan := Record(next, previous.revision + 1, fence)] else old(records)
    {
      ok := plan in records && records[plan] == previous;
      if ok {
        records := records[plan := Record(next, previous.revision + 1, fence)];
      }
    }
  }

  class RunStore {
    var byKey: map<FinalKey, (Run, ScanKey)>
    var byId: map<nat, Run>
    var byScan: map<ScanKey, Run>

    constructor ()
      ensures View() == Runs(map[], map[], map[])
    {
      byKey, byId, byScan := map[], map[], map[];
    }

    function View(): Runs
      reads this
    {
      Runs(byKey, byId, byScan)
    }

    method RecordOrGet(run: Run, k: ScanKey, scans: ScanStore) returns (ok: bool)
      modifies this
      ensures ok <==> RunStored(old(View()), old(scans.View()), run, k).Some?
      ensures View() == if ok then RunStored(old(View()), old(scans.View()), run, k).value.0 else old(View())
    {
      if run.key in byKey {
        ok := byKey[run.key] == (run, k);
        return;
      }
      if k !in scans.states || k in byScan {
        return false;
      }
      byKey := byKey[run.key := (run, k)];
      byId := byId[run.id := run];
      byScan := byScan[k := run];
      ok := true;
    }

    method GetForLogicalScan(k: ScanKey) returns (run: Option<Run>)
      ensures run == if k in View().byScan then Some(View().byScan[k]) else None
    {
      run := if k in byScan then Some(byScan[k]) else None;
    }
  }

  class ScanStore {
    var states: map<ScanKey, ScanState>
    var logs: map<ScanKey, seq<Attempt>>

    constructor ()
      ensures View() == Scans(map[], map[]) && LogsChained(View())
    {
      states, logs := map[], map[];
    }

    function View(): Scans
      reads this
    {
      Scans(states, logs)
    }

    method GetByLockKey(k: ScanKey) returns (s: Option<ScanState>)
      ensures s == if k in View().states then Some(View().states[k]) else None
    {
      s := if k in states then Some(states[k]) else None;
    }

    method CreateOrRecover(k: ScanKey)
      requires LogsChained(View())
      modifies this
      ensures View() == Opened(old(View()), k) && LogsChained(View())
    {
      if k !in states {
        states := states[k := Open];
        logs := logs[k := []];
      }
    }

    /** The stored order is the number order, so listing needs no further sorting. */
    method ListAttempts(k: ScanKey) returns (log: seq<Attempt>)
      requires LogsChained(View())
      ensures log == Log(View(), k)
      ensures forall i, j :: 0 <= i < j < |log| ==> log[i].number < log[j].number
    {
      log := if k in logs then logs[k] else [];
    }

    method RecordAttempt(k: ScanKey, a: Attempt, runs: RunStore) returns (ok: bool)
      requires LogsChained(View())
      modifies this
      ensures ok <==> Appended(old(View()), old(runs.View()), k, a).Some?
      ensures View() == if ok then Appended(old(View()), old(runs.View()), k, a).value else old(View())
      ensures LogsChained(View())
    {
      var log := if k in logs then logs[k] else [];
      var unused := true;
      var i := 0;
      while i < |log|
        invariant 0 <= i <= |log|
        invariant unused <==> forall j :: 0 <= j < i ==> log[j].number != a.number
      {
        if log[i].number == a.number {
          unused := false;
        }
        i := i + 1;
      }
      ok := k in states && WellFormed(a) && unused && ReferencesExist(View(), runs.View(), k, a)
        && (states[k].Completed? ==> a.finalRun.Some?) && AppendAllowed(log, a);
      if ok {
        AppendKeepsChain(log, a);
        logs := logs[k := log + [a]];
      }
    }

    method AttachFinalStrategyRun(k: ScanKey, run: nat, runs: RunStore) returns (ok: bool)
      requires LogsChained(View())
      modifies this
      ensures ok <==> Attached(old(View()), old(runs.View()), k, run).Some?
      ensures View() == if ok then Attached(old(View()), old(runs.View()), k, run).value else old(View())
      ensures LogsChained(View())
    {
      ok := k in states && states[k].Open? && k in runs.byScan && runs.byScan[k].id == run
        && LastFinal(Log(View(), k), run).Some?;
      if ok {
        states := states[k := Completed(run)];
      }
    }
  }

  class IntentStore {
    var byKey: map<FinalKey, Intent>
    var byRun: map<nat, seq<FinalKey>>

    constructor ()
      ensures View() == Intents(map[], map[])
    {
      byKey, byRun := map[], map[];
    }

    function View(): Intents
      reads this
    {
      Intents(byKey, byRun)
    }

    method RecordOrGet(intent: Intent, runs: RunStore) returns (ok: bool)
      modifies this
      ensures ok <==> IntentStored(old(View()), old(runs.View()), intent).Some?
      ensures View() == if ok then IntentStored(old(View()), old(runs.View()), intent).value else old(View())
    {
      if intent.run !in runs.byId || runs.byId[intent.run].key.scan.plan != intent.plan
         || runs.byId[intent.run].key != intent.key {
        return false;
      }
      if intent.key in byKey {
        ok := byKey[intent.key] == intent;
        return;
      }
      var keys := if intent.run in byRun then byRun[intent.run] else [];
      byKey := byKey[intent.key := intent];
      byRun := byRun[intent.run := keys + [intent.key]];
      ok := true;
    }

    /** The stored intents filed under the run that equal the one it calls for, in filing order. */
    method ListMatching(run: Run) returns (found: seq<FinalKey>)
      ensures found == MatchingIntents(View(), run)
    {
      found := [];
      if run.id !in byRun {
        return;
      }
      var keys := byRun[run.id];
      var i := |keys|;
      while i > 0
        invariant 0 <= i <= |keys|
        invariant found == Matching(View(), keys[i..], run)
      {
        i := i - 1;
        if keys[i] in byKey && byKey[keys[i]] == IntentOf(run) {
          found := [keys[i]] + found;
        }
      }
    }
  }

  class LockStore {
    var held: set<ScanKey>

    constructor ()
      ensures held == {}
    {
      held := {};
    }

    method Acquire(k: ScanKey) returns (ok: bool)
      modifies this
      ensures ok <==> k !in old(held)
      ensures held == old(held) + {k}
    {
      ok := k !in held;
      if ok {
        held := held + {k};
      }
    }

    method Release(k: ScanKey)
      modifies this
      ensures held == old(held) - {k}
    {
      held := held - {k};
    }
  }
}
