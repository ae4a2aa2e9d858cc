/** Each kind of store change keeps the store invariant. */
module ProtocolSteps {
  import opened StateMachine
  import opened ScanLog
  import opened Stores
  import opened Protocol
  import opened ProtocolInvariant

  /** Two worlds agree on everything that belongs to one scan. */
  ghost predicate SameScan(w: World, v: World, k: ScanKey) {
    && (k in w.scans.states <==> k in v.scans.states)
    && (k in w.scans.states ==> w.scans.states[k] == v.scans.states[k])
    && (k in w.scans.logs <==> k in v.scans.logs)
    && (k in w.scans.logs ==> w.scans.logs[k] == v.scans.logs[k])
    && (k in w.runs.byScan <==> k in v.runs.byScan)
    && FetchCount(w, k) == FetchCount(v, k)
    && (k in w.runs.byScan ==>
          && w.runs.byScan[k] == v.runs.byScan[k]
          && SameIntents(w, v, w.runs.byScan[k]))
  }

  ghost predicate SameIntents(w: World, v: World, run: Run) {
    && (run.key in w.intents.byKey <==> run.key in v.intents.byKey)
    && (run.key in w.intents.byKey ==> w.intents.byKey[run.key] == v.intents.byKey[run.key])
    && (run.id in w.intents.byRun <==> run.id in v.intents.byRun)
    && (run.id in w.intents.byRun ==> w.intents.byRun[run.id] == v.intents.byRun[run.id])
  }

  /** Identifiers and histories only grow. */
  ghost predicate Grows(w: World, v: World) {
    w.nextId <= v.nextId && forall p :: History(w, p) <= History(v, p)
  }

  lemma FencedGrows(w: World, v: World, run: Run)
    requires Grows(w, v) && Fenced(w, run)
    ensures Fenced(v, run)
  {
    var p := run.key.scan.plan;
    assert History(w, p) <= History(v, p);
    var i :| 0 <= i < |History(w, p)| && History(w, p)[i].record.fence == Some(FenceOf(run));
    assert History(v, p)[i].record.fence == Some(FenceOf(run));
  }

  lemma ScanFrame(setup: Setup, w: World, v: World, k: ScanKey)
    requires ScanOk(setup, w, k) && SameScan(w, v, k) && Grows(w, v)
    ensures ScanOk(setup, v, k)
  {
    if k in w.runs.byScan && Fenced(w, w.runs.byScan[k]) {
      FencedGrows(w, v, w.runs.byScan[k]);
    }
  }

  lemma NoSuccessUnlessLast(log: seq<Attempt>, run: Run)
    requires FinalsOk(log, run) && !SucceededLast(log)
    ensures !HasSuccess(log)
  {
  }

  predicate Fits(w: World, k: ScanKey, a: Attempt) {
    a.id < w.nextId && a.recoveryOf == Predecessor(Log(w.scans, k), |Log(w.scans, k)|)
  }

  /** Everything outside one scan follows from the frame. */
  lemma WorldFrame(setup: Setup, w: World, v: World, k: ScanKey)
    requires WorldOk(setup, w) && Grows(w, v)
    requires forall j :: j != k ==> SameScan(w, v, j)
    requires ScanOk(setup, v, k) && RunsAgree(v.runs) && IntentsAgree(v.intents, v.runs) && HistoryOk(setup, v)
    ensures WorldOk(setup, v)
  {
    forall j ensures ScanOk(setup, v, j) {
      assert ScanOk(setup, w, j);
      if j != k {
        ScanFrame(setup, w, v, j);
      }
    }
  }

  /** A history stays valid while the records stand and no stored run changes. */
  lemma HistoryFrame(setup: Setup, w: World, v: World)
    requires HistoryOk(setup, w)
    requires v.history == w.history && v.records == w.records
    requires forall k :: k in w.runs.byScan ==> k in v.runs.byScan && v.runs.byScan[k] == w.runs.byScan[k]
    ensures HistoryOk(setup, v)
  {
    forall p, i | p in v.history && 0 <= i < |v.history[p]|
      ensures EntryOk(setup, v, v.history[p], i, p)
    {
      assert EntryOk(setup, w, w.history[p], i, p);
    }
  }

  predicate OneScanChanged(w: World, v: World, k: ScanKey) {
    && (|| v.scans == w.scans
        || v.scans == Opened(w.scans, k)
        || (k in v.scans.states && v.scans == w.scans.(states := w.scans.states[k := v.scans.states[k]]))
        || v.scans == w.scans.(logs := w.scans.logs[k := Log(v.scans, k)]))
    && (v.fetches == w.fetches || v.fetches == w.fetches[k := FetchCount(v, k)])
  }

  lemma ScansElsewhere(w: World, v: World, k: ScanKey)
    requires v.runs == w.runs && v.intents == w.intents
    requires OneScanChanged(w, v, k)
    ensures forall j :: j != k ==> SameScan(w, v, j)
  {
  }

  /** A change that leaves runs, intents and records alone. */
  lemma ScanChangeKeeps(setup: Setup, w: World, v: World, k: ScanKey)
    requires WorldOk(setup, w) && w.nextId <= v.nextId
    requires v.runs == w.runs && v.intents == w.intents && v.history == w.history && v.records == w.records
    requires OneScanChanged(w, v, k)
    requires ScanOk(setup, v, k)
    ensures WorldOk(setup, v)
  {
    ScansElsewhere(w, v, k);
    HistoryFrame(setup, w, v);
    WorldFrame(setup, w, v, k);
  }

  lemma LogGrows(w: World, k: ScanKey, a: Attempt)
    requires LogOk(w, Log(w.scans, k)) && Fits(w, k, a) && Appended(w.scans, w.runs, k, a).Some?
    ensures LogOk(w, Log(w.scans, k) + [a])
  {
    var log := Log(w.scans, k);
    if log != [] { LatestIsLast(log); }
    var longer := log + [a];
    forall i | 0 <= i < |longer|
      ensures longer[i].id < w.nextId && WellFormed(longer[i]) && longer[i].recoveryOf == Predecessor(longer, i)
    {
      if i < |log| {
        assert longer[i] == log[i];
        assert Predecessor(longer, i) == Predecessor(log, i);
      }
    }
  }

  lemma AppendWorkOwn(setup: Setup, w: World, v: World, k: ScanKey, a: Attempt)
    requires ScanOk(setup, w, k) && IsOpen(w, k) && Fits(w, k, a)
    requires Appended(w.scans, w.runs, k, a).Some? && v == w.(scans := Appended(w.scans, w.runs, k, a).value)
    requires a.status != SUCCEEDED && !SucceededLast(Log(w.scans, k))
    requires a.status == RUNNING ==> RunningCount(Log(w.scans, k)) < setup.maxFetches
    requires a.status != RUNNING ==> LostCount(Log(w.scans, k)) < RunningCount(Log(w.scans, k))
    ensures ScanOk(setup, v, k)
  {
    var log := Log(w.scans, k);
    assert Log(v.scans, k) == log + [a];
    LogGrows(w, k, a);
    CountsOfAppend(log, a);
    if k in w.runs.byScan {
      NoSuccessUnlessLast(log, w.runs.byScan[k]);
      IntentFrame(w, v, w.runs.byScan[k]);
    }
    NoNewSuccess(log, a);
  }

  lemma NoNewSuccess(log: seq<Attempt>, a: Attempt)
    requires !HasSuccess(log) && a.status != SUCCEEDED
    ensures !HasSuccess(log + [a])
  {
  }

  lemma IntentFrame(w: World, v: World, run: Run)
    requires IntentOk(w, run) && v.intents == w.intents && Grows(w, v)
    ensures IntentOk(v, run)
    ensures Finished(w, run) ==> Finished(v, run)
  {
    if Fenced(w, run) { FencedGrows(w, v, run); }
  }

  lemma AppendWorkKeeps(setup: Setup, w: World, k: ScanKey, a: Attempt)
    requires WorldOk(setup, w) && IsOpen(w, k) && Fits(w, k, a)
    requires Appended(w.scans, w.runs, k, a).Some?
    requires a.status != SUCCEEDED && !SucceededLast(Log(w.scans, k))
    requires a.status == RUNNING ==> RunningCount(Log(w.scans, k)) < setup.maxFetches
    requires a.status != RUNNING ==> LostCount(Log(w.scans, k)) < RunningCount(Log(w.scans, k))
    ensures WorldOk(setup, w.(scans := Appended(w.scans, w.runs, k, a).value))
  {
    var v := w.(scans := Appended(w.scans, w.runs, k, a).value);
    assert ScanOk(setup, w, k);
    AppendWorkOwn(setup, w, v, k, a);
    ScanChangeKeeps(setup, w, v, k);
  }

  lemma FinalsGrow(log: seq<Attempt>, run: Run, a: Attempt)
    requires FinalsOk(log, run) && Final(a, run) && !AppliedLast(log)
    requires SucceededLast(log) ==> a.disposition == Some(Applied)
    ensures FinalsOk(log + [a], run)
  {
    if !SucceededLast(log) { NoSuccessUnlessLast(log, run); }
    var longer := log + [a];
    assert longer[|log|] == a && AppliedLast(longer) == (a.disposition == Some(Applied));
    forall i | 0 <= i < |longer| && longer[i].status == SUCCEEDED
      ensures Final(longer[i], run)
      ensures i == |longer| - 1
              || (i == |longer| - 2 && longer[i].disposition == Some(Superseded) && AppliedLast(longer))
    {
      if i < |log| {
        assert longer[i] == log[i];
        assert i == |log| - 1;
        assert SucceededLast(log) && log[i].disposition != Some(Applied);
        match log[i].disposition.value case Applied => case Superseded =>
      }
    }
  }

  lemma AppendFinalOwn(setup: Setup, w: World, v: World, k: ScanKey, run: Run, a: Attempt)
    requires ScanOk(setup, w, k) && IsOpen(w, k) && Stored(w, k, run) && Fits(w, k, a)
    requires Appended(w.scans, w.runs, k, a).Some? && v == w.(scans := Appended(w.scans, w.runs, k, a).value)
    requires Final(a, run) && !AppliedLast(Log(w.scans, k))
    requires a.disposition == Some(Applied) ==> Finished(w, run)
    requires SucceededLast(Log(w.scans, k)) ==> a.disposition == Some(Applied)
    ensures ScanOk(setup, v, k)
  {
    var log := Log(w.scans, k);
    assert Log(v.scans, k) == log + [a];
    LogGrows(w, k, a);
    CountsOfAppend(log, a);
    FinalsGrow(log, run, a);
    IntentFrame(w, v, run);
  }

  lemma AppendFinalKeeps(setup: Setup, w: World, k: ScanKey, run: Run, a: Attempt)
    requires WorldOk(setup, w) && IsOpen(w, k) && Stored(w, k, run) && Fits(w, k, a)
    requires Appended(w.scans, w.runs, k, a).Some?
    requires Final(a, run) && !AppliedLast(Log(w.scans, k))
    requires a.disposition == Some(Applied) ==> Finished(w, run)
    requires SucceededLast(Log(w.scans, k)) ==> a.disposition == Some(Applied)
    ensures WorldOk(setup, w.(scans := Appended(w.scans, w.runs, k, a).value))
  {
    var v := w.(scans := Appended(w.scans, w.runs, k, a).value);
    assert ScanOk(setup, w, k);
    AppendFinalOwn(setup, w, v, k, run, a);
    ScanChangeKeeps(setup, w, v, k);
  }

  lemma OpenKeeps(setup: Setup, w: World, k: ScanKey)
    requires WorldOk(setup, w)
    ensures WorldOk(setup, w.(scans := Opened(w.scans, k)))
  {
    assert ScanOk(setup, w, k);
    ScanChangeKeeps(setup, w, w.(scans := Opened(w.scans, k)), k);
  }

  lemma CounterKeeps(setup: Setup, w: World, n: nat, locks: set<ScanKey>)
    requires WorldOk(setup, w) && w.nextId <= n
    ensures WorldOk(setup, w.(nextId := n, locks := locks))
  {
    var v := w.(nextId := n, locks := locks);
    forall j ensures ScanOk(setup, v, j) {
      assert ScanOk(setup, w, j);
      ScanFrame(setup, w, v, j);
    }
    HistoryFrame(setup, w, v);
  }

  lemma FetchKeeps(setup: Setup, w: World, k: ScanKey)
    requires WorldOk(setup, w) && FetchCount(w, k) < RunningCount(Log(w.scans, k))
    ensures WorldOk(setup, w.(fetches := w.fetches[k := FetchCount(w, k) + 1]))
  {
    var v := w.(fetches := w.fetches[k := FetchCount(w, k) + 1]);
    assert ScanOk(setup, w, k);
    if k in w.runs.byScan { IntentFrame(w, v, w.runs.byScan[k]); }
    ScanChangeKeeps(setup, w, v, k);
  }

  lemma AttachKeeps(setup: Setup, w: World, k: ScanKey, run: Run)
    requires WorldOk(setup, w) && Stored(w, k, run) && SucceededLast(Log(w.scans, k))
    requires Attached(w.scans, w.runs, k, run.id).Some?
    ensures WorldOk(setup, w.(scans := Attached(w.scans, w.runs, k, run.id).value))
  {
    var v := w.(scans := Attached(w.scans, w.runs, k, run.id).value);
    assert ScanOk(setup, w, k);
    IntentFrame(w, v, run);
    ScanChangeKeeps(setup, w, v, k);
  }

  lemma RunsGrow(r: Runs, k: ScanKey, run: Run)
    requires RunsAgree(r) && k !in r.byScan && run.key.scan == k && run.id !in r.byId
    ensures RunsAgree(WithRun(r, k, run))
  {
    var v := WithRun(r, k, run);
    forall j | j in v.byScan ensures Filed(v, j) {
      if j != k { assert Filed(r, j); }
    }
    forall id | id in v.byId ensures Named(v, id) {
      if id != run.id { assert Named(r, id); }
    }
  }

  /** A fresh candidate of a scan without one is always accepted. */
  lemma FreshRunStored(w: World, k: ScanKey, run: Run)
    requires RunsAgree(w.runs) && Unstored(w, k) && run.key.scan == k && run.id !in w.runs.byId
    ensures RunStored(w.runs, w.scans, run, k) == Some((WithRun(w.runs, k, run), run))
  {
  }

  function WithRun(r: Runs, k: ScanKey, run: Run): Runs {
    Runs(r.byKey[run.key := (run, k)], r.byId[run.id := run], r.byScan[k := run])
  }

  lemma StoreRunKeeps(setup: Setup, w: World, v: World, k: ScanKey, run: Run)
    requires WorldOk(setup, w) && Unstored(w, k) && RunOk(setup, w, k, run) && run.id !in w.runs.byId
    requires Log(w.scans, k) != [] && v == w.(runs := WithRun(w.runs, k, run))
    ensures WorldOk(setup, v)
  {
    hide Transition, Follows, LogOk, CountsOk, FinalsOk, DegradedMove;
    assert RunsAgree(v.runs) by { RunsGrow(w.runs, k, run); }
    assert IntentsAgree(v.intents, v.runs) by { Unused(w.intents, w.runs, k, run); }
    assert ScanOk(setup, v, k) by {
      Unused(w.intents, w.runs, k, run);
      assert ScanOk(setup, w, k);
      StoreRunOwn(setup, w, v, k, run);
    }
    assert HistoryOk(setup, v) by { HistoryFrame(setup, w, v); }
    RunElsewhere(w, v, k, run);
    WorldFrame(setup, w, v, k);
  }

  lemma RunElsewhere(w: World, v: World, k: ScanKey, run: Run)
    requires v == w.(runs := WithRun(w.runs, k, run))
    ensures forall j :: j != k ==> SameScan(w, v, j)
  {
  }

  lemma Unused(t: Intents, r: Runs, k: ScanKey, run: Run)
    requires RunsAgree(r) && IntentsAgree(t, r) && k !in r.byScan && run.key.scan == k && run.id !in r.byId
    ensures run.key !in t.byKey && run.id !in t.byRun
    ensures IntentsAgree(t, WithRun(r, k, run))
  {
  }

  lemma StoreRunOwn(setup: Setup, w: World, v: World, k: ScanKey, run: Run)
    requires ScanOk(setup, w, k) && IsOpen(w, k) && k !in w.runs.byScan && RunOk(setup, w, k, run)
    requires Log(w.scans, k) != [] && run.key !in w.intents.byKey && run.id !in w.intents.byRun
    requires v == w.(runs := WithRun(w.runs, k, run))
    ensures ScanOk(setup, v, k)
  {
    assert !SucceededLast(Log(w.scans, k)) && FinalsOk(Log(w.scans, k), run);
  }

  /** What a new revision of a plan's record must be. */
  ghost predicate NextRevision(setup: Setup, w: World, k: ScanKey, record: Record)
    requires k.plan in setup.plans
  {
    if k.plan !in w.records then record == Record(Status(IDLE, false), 0, None)
    else
      var last := w.records[k.plan];
      && record.revision == last.revision + 1
      && Follows(setup.plans[k.plan], last.status, record.status)
      && (record.fence.None? ==> DegradedMove(setup.plans[k.plan], last.status, record.status))
      && (record.fence.Some? ==>
            && k in w.runs.byScan
            && var run := w.runs.byScan[k];
               record.fence == Some(FenceOf(run)) && run.prev == last.status
               && run.next == record.status && run.prev != run.next)
  }

  lemma HistoryExtends(setup: Setup, w: World, k: ScanKey, record: Record)
    requires HistoryOk(setup, w) && k.plan in setup.plans && NextRevision(setup, w, k, record)
    ensures HistoryOk(setup, WithRecords(w, k, w.records[k.plan := record]))
    ensures Grows(w, WithRecords(w, k, w.records[k.plan := record]))
  {
    hide Transition, Follows, DegradedMove;
    var v := WithRecords(w, k, w.records[k.plan := record]);
    var h := History(w, k.plan);
    assert v.history[k.plan] == h + [Entry(record, k)];
    forall p, i | p in v.history && 0 <= i < |v.history[p]|
      ensures p in setup.plans && EntryOk(setup, v, v.history[p], i, p)
    {
      if p in w.history && i < |w.history[p]| {
        assert EntryOk(setup, w, w.history[p], i, p);
        EntryFrame(setup, w, v, p, i);
      } else {
        LastEntry(setup, w, v, k, record);
      }
    }
  }

  lemma EntryFrame(setup: Setup, w: World, v: World, p: nat, i: nat)
    requires p in w.history && p in v.history && p in setup.plans && i < |w.history[p]|
    requires w.history[p] <= v.history[p] && w.runs == v.runs
    requires EntryOk(setup, w, w.history[p], i, p)
    ensures EntryOk(setup, v, v.history[p], i, p)
  {
  }

  lemma LastEntry(setup: Setup, w: World, v: World, k: ScanKey, record: Record)
    requires HistoryOk(setup, w) && k.plan in setup.plans && NextRevision(setup, w, k, record)
    requires v.runs == w.runs && k.plan in v.history && v.history[k.plan] == History(w, k.plan) + [Entry(record, k)]
    ensures EntryOk(setup, v, v.history[k.plan], |History(w, k.plan)|, k.plan)
  {
    var h := History(w, k.plan);
    if h != [] {
      assert EntryOk(setup, w, h, |h| - 1, k.plan);
    }
  }

  /** A new revision: the stored record and the history move together. */
  lemma RecordKeeps(setup: Setup, w: World, k: ScanKey, record: Record)
    requires WorldOk(setup, w) && k.plan in setup.plans && NextRevision(setup, w, k, record)
    ensures WorldOk(setup, WithRecords(w, k, w.records[k.plan := record]))
    ensures Grows(w, WithRecords(w, k, w.records[k.plan := record]))
  {
    var v := WithRecords(w, k, w.records[k.plan := record]);
    HistoryExtends(setup, w, k, record);
    forall j ensures ScanOk(setup, v, j) {
      assert ScanOk(setup, w, j);
      ScanFrame(setup, w, v, j);
    }
  }

  /** The intent of a stored run is never rejected. */
  lemma IntentAccepted(w: World, k: ScanKey, run: Run)
    requires RunsAgree(w.runs) && Stored(w, k, run) && IntentOk(w, run)
    ensures IntentStored(w.intents, w.runs, IntentOf(run)).Some?
    ensures IntentStored(w.intents, w.runs, IntentOf(run)).value.byKey == w.intents.byKey[run.key := IntentOf(run)]
  {
  }

  lemma IntentKeeps(setup: Setup, w: World, v: World, k: ScanKey, run: Run)
    requires WorldOk(setup, w) && Stored(w, k, run) && Fenced(w, run) && run.notify
    requires IntentStored(w.intents, w.runs, IntentOf(run)).Some?
    requires v == w.(intents := IntentStored(w.intents, w.runs, IntentOf(run)).value)
    ensures WorldOk(setup, v)
  {
    hide Fenced, HistoryOk, LogOk, CountsOk;
    assert ScanOk(setup, w, k);
    assert ScanOk(setup, v, k) by { IntentOwn(setup, w, v, k, run); }
    assert HistoryOk(setup, v) by { HistoryFrame(setup, w, v); }
    IntentElsewhere(w, v, k, run);
    WorldFrame(setup, w, v, k);
  }

  lemma IntentOwn(setup: Setup, w: World, v: World, k: ScanKey, run: Run)
    requires ScanOk(setup, w, k) && Stored(w, k, run) && Fenced(w, run) && run.notify
    requires IntentStored(w.intents, w.runs, IntentOf(run)).Some?
    requires v == w.(intents := IntentStored(w.intents, w.runs, IntentOf(run)).value)
    ensures ScanOk(setup, v, k)
  {
    FencedGrows(w, v, run);
  }

  lemma IntentElsewhere(w: World, v: World, k: ScanKey, run: Run)
    requires RunsAgree(w.runs) && IntentsAgree(w.intents, w.runs) && Stored(w, k, run) && IntentOk(w, run)
    requires IntentStored(w.intents, w.runs, IntentOf(run)).Some?
    requires v == w.(intents := IntentStored(w.intents, w.runs, IntentOf(run)).value)
    ensures IntentsAgree(v.intents, v.runs)
    ensures forall j :: j != k ==> SameScan(w, v, j)
  {
    forall j | j != k ensures SameScan(w, v, j) {
      if j in w.runs.byScan {
        assert w.runs.byScan[j].key != run.key && w.runs.byScan[j].id != run.id;
      }
    }
  }
}
