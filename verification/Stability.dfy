// What no transaction takes back: fulfilment, a claimed run, a reprint request.
module Stability {
  import opened Domain
  import opened Tables
  import opened Schema
  import opened Transactions
  import opened History
  import opened Invariant
  import opened Preservation
  import opened AcceptPurge
  import opened Effects
  import opened Chains
  import opened Fulfilment

  // ---- fulfilment ----

  lemma FulfillingRowFrozen(db: Db, tx: Tx, r: Run)
    requires Sorted(db.runs) && r in db.runs && Fulfils(r) && RowSound(r)
    ensures NewRow(db, tx, r) == r
  {
    if tx.ClaimTx? && Commit(db, tx).Ok? {
      var q := NextQueued(db.runs, tx.printer).value;
      if r.sequence == q.sequence {
        SameSequence(db.runs, r, q);
      }
    }
  }

  lemma SettledRowNeverFulfils(db: Db, tx: Tx, r: Run)
    requires Sorted(db.runs) && r in db.runs && Settled(r) && RowSound(r) && !Fulfils(r)
    ensures !Fulfils(NewRow(db, tx, r))
  {
  }

  lemma {:induction false} SameFulfilment(h: seq<Run>, h': seq<Run>)
    requires |h| == |h'|
    requires forall i | 0 <= i < |h| :: if Fulfils(h[i]) then h'[i] == h[i] else !Fulfils(h'[i])
    ensures FulfilledAt(h') == FulfilledAt(h)
  {
    if h != [] {
      SameFulfilment(h[..|h| - 1], h'[..|h| - 1]);
    }
  }

  lemma {:induction false} FulfilledHasStamp(h: seq<Run>, i: nat)
    requires i < |h| && Fulfils(h[i]) && RowSound(h[i])
    ensures FulfilledAt(h).Some?
  {
    if i < |h| - 1 {
      FulfilledHasStamp(h[..|h| - 1], i);
    }
  }

  lemma {:induction false} FulfilledAtKept(h: seq<Run>, added: seq<Run>)
    requires FulfilledAt(h).Some?
    ensures FulfilledAt(h + added) == FulfilledAt(h)
    decreases |added|
  {
    if added == [] {
      assert h + added == h;
    } else {
      FulfilledAtKept(h, added[..|added| - 1]);
      assert (h + added)[..|h + added| - 1] == h + added[..|added| - 1];
    }
  }

  // Only the latest run can still become fulfilling, and once some run is, the first one rules.
  lemma FirstFulfilmentRules(h: seq<Run>, h': seq<Run>, i: nat)
    requires |h'| == |h| && i < |h| && Fulfils(h[i]) && RowSound(h[i])
    requires forall j | 0 <= j < |h| && Fulfils(h[j]) :: h'[j] == h[j]
    requires forall j | 0 <= j < |h| - 1 && !Fulfils(h[j]) :: !Fulfils(h'[j])
    ensures FulfilledAt(h).Some? && FulfilledAt(h') == FulfilledAt(h)
  {
    var n := |h| - 1;
    FulfilledHasStamp(h, i);
    SameFulfilment(h[..n], h'[..n]);
    if i < n {
      assert h[..n][i] == h[i];
      FulfilledHasStamp(h[..n], i);
    }
  }

  lemma RowStable(db: Db, tx: Tx, h: seq<Run>, cancelled: bool, i: nat)
    requires Sorted(db.runs) && HistoryOk(h, cancelled) && i < |h| && h[i] in db.runs
    ensures RowSound(h[i])
    ensures Fulfils(h[i]) ==> NewRow(db, tx, h[i]) == h[i]
    ensures !Fulfils(h[i]) && i < |h| - 1 ==> !Fulfils(NewRow(db, tx, h[i]))
  {
    hide NewRow;
    if Fulfils(h[i]) {
      FulfillingRowFrozen(db, tx, h[i]);
    } else if i < |h| - 1 {
      SettledRowNeverFulfils(db, tx, h[i]);
    }
  }

  lemma StableHistory(db: Db, tx: Tx, k: Key, added: seq<Run>)
    requires Valid(db) && k in db.targets && Fulfilled(RunsOf(db.runs, k))
    ensures var h := RunsOf(db.runs, k);
            var h' := MapRows(r => NewRow(db, tx, r), h) + added;
            FulfilledAt(h).Some? && FulfilledAt(h') == FulfilledAt(h) && Fulfilled(h')
  {
    HistoryAt(db, k);
    var h := RunsOf(db.runs, k);
    assert Sorted(db.runs);
    hide Valid, NewRow, RunsOf, HistoryOk, Fulfils, RowSound;
    var h' := MapRows(r => NewRow(db, tx, r), h);
    forall i | 0 <= i < |h| ensures RowSound(h[i]) && (Fulfils(h[i]) ==> h'[i] == h[i])
                                 && (!Fulfils(h[i]) && i < |h| - 1 ==> !Fulfils(h'[i]))
    {
      assert h[i] in h;
      RowStable(db, tx, h, Cancelled?(db.targets, k), i);
    }
    AnyRunIn(h, Fulfils);
    var i :| 0 <= i < |h| && Fulfils(h[i]);
    FirstFulfilmentRules(h, h', i);
    FulfilledAtKept(h', added);
    assert (h' + added)[i] in h' + added && (h' + added)[i] == h'[i];
    AnyRunIn(h' + added, Fulfils);
  }

  // No transaction unfulfils a target or moves its fulfilment, unless retention removes the job.
  lemma StepKeepsFulfilment(db: Db, tx: Tx, k: Key)
    requires Valid(db) && k in db.targets && Fulfilled(RunsOf(db.runs, k))
    requires k.job in After(db, tx).jobs
    ensures Fulfilled(RunsOf(After(db, tx).runs, k))
    ensures FulfilledAt(RunsOf(db.runs, k)).Some?
    ensures FulfilledAt(RunsOf(After(db, tx).runs, k)) == FulfilledAt(RunsOf(db.runs, k))
  {
    hide Valid, Fulfilled, FulfilledAt, NewRow;
    if tx.PurgeTx? {
      PurgedHistory(db, tx.now, k);
      StableHistory(db, tx, k, []);
    } else {
      var added := HistoryEffect(db, tx, k);
      StableHistory(db, tx, k, added);
    }
  }

  lemma FulfilledTargetKept(db: Db, tx: Tx, k: Key)
    requires Valid(db) && k in db.targets && Fulfilled(RunsOf(db.runs, k)) && k.job in After(db, tx).jobs
    ensures k in After(db, tx).targets && Fulfilled(RunsOf(After(db, tx).runs, k))
    ensures FulfilledAt(RunsOf(After(db, tx).runs, k)) == FulfilledAt(RunsOf(db.runs, k))
  {
    assert k.job in db.jobs;
    hide Valid, Fulfilled, FulfilledAt, RunsOf, After;
    StepKeepsTargets(db, tx, k);
    StepKeepsFulfilment(db, tx, k);
  }

  // Over any run that keeps the job, a fulfilled target stays fulfilled at the same instant.
  lemma {:induction false} FulfilmentStable(db: Db, txs: seq<Tx>, k: Key)
    requires Valid(db) && k in db.targets && Fulfilled(RunsOf(db.runs, k)) && KeepsJob(db, txs, k.job)
    ensures var e := Replay(db, txs);
            k in e.targets && Fulfilled(RunsOf(e.runs, k)) && FulfilledAt(RunsOf(e.runs, k)) == FulfilledAt(RunsOf(db.runs, k))
    decreases |txs|
  {
    hide Valid, After, Fulfilled, FulfilledAt, RunsOf;
    if txs != [] {
      assert KeepsJob(After(db, txs[0]), txs[1..], k.job);
      FulfilledTargetKept(db, txs[0], k);
      CommitKeepsValid(db, txs[0]);
      FulfilmentStable(After(db, txs[0]), txs[1..], k);
    }
  }

  // ---- the targets of a job ----

  lemma {:induction false} CancelEachTargets(db: Db, job: Uid, printers: seq<PrinterId>, now: Stamp)
    requires CancelEach(db, job, printers, now).Ok?
    ensures var db' := CancelEach(db, job, printers, now).value;
            && db'.jobs == db.jobs && db'.targets.Keys == db.targets.Keys
            && forall k | k in db.targets :: db'.targets[k].order == db.targets[k].order
    decreases |printers|
  {
    if printers != [] {
      var db' := CancelTarget(db, Key(job, printers[0]), now).value;
      CancelEachTargets(db', job, printers[1..], now);
      assert forall k | k in db.targets :: k in db'.targets.Keys;
    }
  }

  lemma {:induction false} ReprintEachTargets(db: Db, id: RequestKey, slots: seq<ReprintSlot>, now: Stamp)
    requires ReprintEach(db, id.job, id.request, slots, now).Ok?
    ensures var db' := ReprintEach(db, id.job, id.request, slots, now).value;
            && db'.jobs == db.jobs && db'.dedup == db.dedup && db'.targets.Keys == db.targets.Keys
            && forall k | k in db.targets :: db'.targets[k].order == db.targets[k].order
    decreases |slots|
  {
    if slots != [] {
      ReprintTargetEffect(db, id, slots[0], now);
      var db' := ReprintTarget(db, id.job, id.request, slots[0], now).value;
      hide ReprintTarget;
      ReprintEachTargets(db', id, slots[1..], now);
      assert forall k | k in db.targets :: k in db'.targets.Keys;
    }
  }

  lemma {:induction false} InsertTargetsOfJob(db: Db, uid: Uid, slots: seq<Slot>, order: nat)
    requires InsertTargets(db, AcceptedTargets(uid, slots, order)).Ok?
    ensures var db' := InsertTargets(db, AcceptedTargets(uid, slots, order)).value;
            forall k: Key | k.job != uid :: (k in db'.targets <==> k in db.targets)
                                       && (k in db.targets ==> db'.targets[k] == db.targets[k])
    decreases |slots|
  {
    if slots != [] {
      InsertTargetsOfJob(InsertTarget(db, AcceptedTargets(uid, slots, order)[0]).value, uid, slots[1..], order + 1);
    }
  }

  lemma {:induction false} InsertRunsTargets(db: Db, rs: seq<Run>)
    requires InsertRuns(db, rs).Ok?
    ensures InsertRuns(db, rs).value.targets == db.targets && InsertRuns(db, rs).value.jobs == db.jobs
    decreases |rs|
  {
    if rs != [] {
      InsertRunsTargets(InsertRun(db, rs[0]).value, rs[1..]);
    }
  }

  lemma StepKeepsTargets(db: Db, tx: Tx, k: Key)
    requires Valid(db) && k.job in db.jobs && k.job in After(db, tx).jobs
    ensures k in After(db, tx).targets <==> k in db.targets
    ensures k in db.targets ==> After(db, tx).targets[k].order == db.targets[k].order
  {
    hide Valid, Lookup, NextQueued, ClaimedRows, MarkedRows, WithdrawnRows, ResolvedRows, AbandonedRows, CancelEach,
         ReprintEach, RunsOf, LastDepth, SpentRows, RetryCandidate, Refusal;
    if Commit(db, tx).Ok? {
      match tx
      case AcceptTx(uid, job, slots, now) =>
        var withJob := InsertJobRow(db, uid, job).value;
        InsertTargetsOfJob(withJob, uid, slots, 0);
        InsertRunsTargets(InsertTargets(withJob, AcceptedTargets(uid, slots, 0)).value, AcceptedRuns(uid, slots, now));
      case CancelTargetsTx(job, printers, now) =>
        CancelEachTargets(db, job, printers, now);
        assert k in After(db, tx).targets <==> k in After(db, tx).targets.Keys;
      case ReprintTx(job, request, reason, slots, now) =>
        var id := RequestKey(job, request);
        ReprintEachTargets(db.(dedup := db.dedup[id := ReprintDigest(SlotPrinters(slots), reason)]), id, slots, now);
        assert k in After(db, tx).targets <==> k in After(db, tx).targets.Keys;
      case _ =>
    }
  }

  // Over any run that keeps the job, its printers and their order never change.
  lemma {:induction false} TargetsFixed(db: Db, txs: seq<Tx>, k: Key)
    requires Valid(db) && KeepsJob(db, txs, k.job)
    ensures k in Replay(db, txs).targets <==> k in db.targets
    ensures k in db.targets ==> Replay(db, txs).targets[k].order == db.targets[k].order
    decreases |txs|
  {
    hide Valid, After;
    if txs != [] {
      assert KeepsJob(After(db, txs[0]), txs[1..], k.job);
      StepKeepsTargets(db, txs[0], k);
      CommitKeepsValid(db, txs[0]);
      TargetsFixed(After(db, txs[0]), txs[1..], k);
    }
  }

  // ---- target orders are distinct ----

  ghost predicate OrdersOk(targets: map<Key, Target>) {
    forall k, l | k in targets && l in targets && k.job == l.job && targets[k].order == targets[l].order :: k == l
  }

  lemma {:induction false} InsertTargetsDistinct(db: Db, ts: seq<NewTarget>)
    requires OrdersOk(db.targets) && InsertTargets(db, ts).Ok?
    ensures OrdersOk(InsertTargets(db, ts).value.targets)
    decreases |ts|
  {
    if ts != [] {
      InsertTargetsDistinct(InsertTarget(db, ts[0]).value, ts[1..]);
    }
  }

  lemma OnlyAcceptanceAddsJobs(db: Db, tx: Tx)
    requires !tx.AcceptTx?
    ensures forall j | j in After(db, tx).jobs :: j in db.jobs
  {
    hide Lookup, NextQueued, ClaimedRows, MarkedRows, WithdrawnRows, ResolvedRows, AbandonedRows, CancelEach, ReprintEach,
         RunsOf, LastDepth, SpentRows, RetryCandidate, Refusal;
    if Commit(db, tx).Ok? {
      match tx
      case CancelTargetsTx(job, printers, now) => CancelEachTargets(db, job, printers, now);
      case ReprintTx(job, request, reason, slots, now) =>
        var id := RequestKey(job, request);
        ReprintEachTargets(db.(dedup := db.dedup[id := ReprintDigest(SlotPrinters(slots), reason)]), id, slots, now);
      case _ =>
    }
  }

  lemma AcceptKeepsOrders(db: Db, tx: Tx)
    requires OrdersOk(db.targets) && tx.AcceptTx? && Commit(db, tx).Ok?
    ensures OrdersOk(After(db, tx).targets)
  {
    hide OrdersOk, InsertTargets, InsertRuns;
    var withJob := InsertJobRow(db, tx.uid, tx.job).value;
    var ts := AcceptedTargets(tx.uid, tx.slots, 0);
    InsertTargetsDistinct(withJob, ts);
    InsertRunsTargets(InsertTargets(withJob, ts).value, AcceptedRuns(tx.uid, tx.slots, tx.now));
  }

  lemma StepKeepsOrders(db: Db, tx: Tx)
    requires Valid(db) && OrdersOk(db.targets)
    ensures OrdersOk(After(db, tx).targets)
  {
    CommitKeepsValid(db, tx);
    assert forall k | k in After(db, tx).targets :: k.job in After(db, tx).jobs;
    hide Valid, Commit;
    if tx.AcceptTx? {
      if Commit(db, tx).Ok? {
        AcceptKeepsOrders(db, tx);
      }
    } else {
      OnlyAcceptanceAddsJobs(db, tx);
      forall k | k in After(db, tx).targets
        ensures k in db.targets && After(db, tx).targets[k].order == db.targets[k].order
      {
        StepKeepsTargets(db, tx, k);
      }
    }
  }

  lemma {:induction false} OrdersKept(db: Db, txs: seq<Tx>)
    requires Valid(db) && OrdersOk(db.targets)
    ensures OrdersOk(Replay(db, txs).targets)
    decreases |txs|
  {
    hide Valid, OrdersOk, After;
    if txs != [] {
      CommitKeepsValid(db, txs[0]);
      StepKeepsOrders(db, txs[0]);
      OrdersKept(After(db, txs[0]), txs[1..]);
    }
  }

  // So "in target order" names one listing of a job's targets in every reachable database.
  lemma OrdersDistinct(txs: seq<Tx>)
    ensures OrdersOk(Replay(EmptyDb, txs).targets)
  {
    EmptyIsValid();
    hide Valid;
    OrdersKept(EmptyDb, txs);
  }

  // ---- "completed" is absorbing ----

  function Places(ts: seq<NewTarget>): (ps: seq<(Key, nat)>)
    ensures |ps| == |ts| && forall i | 0 <= i < |ts| :: ps[i] == (ts[i].key, ts[i].target.order)
  {
    seq(|ts|, i requires 0 <= i < |ts| => (ts[i].key, ts[i].target.order))
  }

  ghost predicate Ascending(ps: seq<(Key, nat)>) {
    forall i, j | 0 <= i < j < |ps| :: ps[i].1 < ps[j].1
  }

  lemma SomePlace(a: seq<(Key, nat)>)
    requires a != []
    ensures exists p :: p in a
  {
    assert a[0] in a;
  }

  lemma LastPlace(a: seq<(Key, nat)>, b: seq<(Key, nat)>)
    requires Ascending(a) && Ascending(b) && a != [] && b != [] && forall p :: p in a <==> p in b
    ensures a[|a| - 1] == b[|b| - 1]
  {
    var x, y := a[|a| - 1], b[|b| - 1];
    assert x in a && y in b;
    var i :| 0 <= i < |a| && a[i] == y;
    var j :| 0 <= j < |b| && b[j] == x;
  }

  lemma ButLastPlace(a: seq<(Key, nat)>)
    requires Ascending(a) && a != []
    ensures Ascending(a[..|a| - 1]) && forall p :: p in a[..|a| - 1] <==> p in a && p != a[|a| - 1]
  {
    assert a == a[..|a| - 1] + [a[|a| - 1]];
  }

  // Two ascending listings of the same places are the same.
  lemma {:induction false} SamePlaces(a: seq<(Key, nat)>, b: seq<(Key, nat)>)
    requires Ascending(a) && Ascending(b) && forall p :: p in a <==> p in b
    ensures a == b
    decreases |a|
  {
    hide Ascending;
    if a == [] {
      if b != [] {
        SomePlace(b);
      }
    } else {
      SomePlace(a);
      LastPlace(a, b);
      ButLastPlace(a);
      ButLastPlace(b);
      var last, a', b' := a[|a| - 1], a[..|a| - 1], b[..|b| - 1];
      assert forall p :: p in a' <==> p in a && p != last;
      assert forall p :: p in b' <==> p in b && p != last;
      SamePlaces(a', b');
      assert a == a' + [last] && b == b' + [last];
    }
  }

  lemma PlacesListed(db: Db, uid: Uid, ts: seq<NewTarget>, runs: seq<Run>, p: (Key, nat))
    requires Selected(db, uid, ts, runs)
    ensures p in Places(ts) <==> p.0 in db.targets && p.0.job == uid && db.targets[p.0].order == p.1
    ensures Ascending(Places(ts))
  {
    if p in Places(ts) {
      var i :| 0 <= i < |ts| && Places(ts)[i] == p;
      assert ts[i] in ts;
    }
    if p.0 in db.targets && p.0.job == uid && db.targets[p.0].order == p.1 {
      var t := NewTarget(p.0, db.targets[p.0]);
      var i :| 0 <= i < |ts| && ts[i] == t;
      assert Places(ts)[i] == p;
    }
  }

  // Before and after a run that keeps the job, GetDetail lists the same printers in the same order.
  lemma SameTargetList(db: Db, txs: seq<Tx>, uid: Uid, ts: seq<NewTarget>, runs: seq<Run>,
                       ts': seq<NewTarget>, runs': seq<Run>)
    requires Valid(db) && KeepsJob(db, txs, uid)
    requires Selected(db, uid, ts, runs) && Selected(Replay(db, txs), uid, ts', runs')
    ensures |ts'| == |ts| && forall i | 0 <= i < |ts| :: ts'[i].key == ts[i].key
  {
    hide Valid, KeepsJob, Replay, Selected, Ascending;
    forall p ensures p in Places(ts) <==> p in Places(ts') {
      PlacesListed(db, uid, ts, runs, p);
      PlacesListed(Replay(db, txs), uid, ts', runs', p);
      if p.0.job == uid {
        TargetsFixed(db, txs, p.0);
      }
    }
    PlacesListed(db, uid, ts, runs, (Key(uid, 0), 0));
    PlacesListed(Replay(db, txs), uid, ts', runs', (Key(uid, 0), 0));
    SamePlaces(Places(ts), Places(ts'));
    assert forall i | 0 <= i < |ts| :: Places(ts)[i].0 == ts[i].key && Places(ts')[i].0 == ts'[i].key;
  }

  lemma {:induction false} SameTimes(runs: seq<Run>, ts: seq<NewTarget>, runs': seq<Run>, ts': seq<NewTarget>)
    requires |ts| == |ts'|
    requires forall i | 0 <= i < |ts| :: FulfilledAt(RunsOf(runs', ts'[i].key)) == FulfilledAt(RunsOf(runs, ts[i].key))
    ensures Times(runs', ts') == Times(runs, ts)
  {
    if ts != [] {
      SameTimes(runs, ts[..|ts| - 1], runs', ts'[..|ts| - 1]);
    }
  }

  lemma ListedTarget(db: Db, uid: Uid, ts: seq<NewTarget>, runs: seq<Run>, t: NewTarget)
    requires Valid(db) && Selected(db, uid, ts, runs) && t in ts
    ensures t.key in db.targets && t.key.job == uid && RunsOf(runs, t.key) == RunsOf(db.runs, t.key)
  {
    hide Valid, RunsOf;
    SelectedHistory(db, uid, ts, runs, t.key);
  }

  lemma FulfilmentListed(db: Db, txs: seq<Tx>, uid: Uid, ts: seq<NewTarget>, runs: seq<Run>,
                         ts': seq<NewTarget>, runs': seq<Run>, t: NewTarget, t': NewTarget)
    requires Valid(db) && KeepsJob(db, txs, uid)
    requires Selected(db, uid, ts, runs) && Selected(Replay(db, txs), uid, ts', runs')
    requires t in ts && t' in ts' && t'.key == t.key && Fulfilled(RunsOf(runs, t.key))
    ensures Fulfilled(RunsOf(runs', t'.key))
    ensures FulfilledAt(RunsOf(runs', t'.key)) == FulfilledAt(RunsOf(runs, t.key))
  {
    hide Valid, KeepsJob, Replay, Selected, RunsOf, Fulfilled, FulfilledAt;
    ReplayKeepsValid(db, txs);
    ListedTarget(db, uid, ts, runs, t);
    ListedTarget(Replay(db, txs), uid, ts', runs', t');
    FulfilmentStable(db, txs, t.key);
  }

  lemma CompletedMeans(runs: seq<Run>, ts: seq<NewTarget>)
    ensures StateOf(runs, ts) == Completed
       <==> ts != [] && forall i | 0 <= i < |ts| :: Fulfilled(RunsOf(runs, ts[i].key))
  {
    hide Fulfilled, RunsOf, AnyProcessing, AnyQueued, AnyAttention, AllOpenCancelled;
    assert forall i | 0 <= i < |ts| :: ts[i] in ts;
  }

  // Whatever is reprinted or cancelled later, a completed job stays completed at the same instant
  // until it is purged.
  lemma CompletedIsAbsorbing(db: Db, txs: seq<Tx>, uid: Uid, ts: seq<NewTarget>, runs: seq<Run>,
                             ts': seq<NewTarget>, runs': seq<Run>)
    requires Valid(db) && KeepsJob(db, txs, uid)
    requires Selected(db, uid, ts, runs) && Selected(Replay(db, txs), uid, ts', runs')
    requires StateOf(runs, ts) == Completed
    ensures StateOf(runs', ts') == Completed
    ensures Newest(Times(runs', ts')) == Newest(Times(runs, ts))
  {
    hide Valid, KeepsJob, Replay, Selected, RunsOf, Fulfilled, FulfilledAt, StateOf;
    SameTargetList(db, txs, uid, ts, runs, ts', runs');
    CompletedMeans(runs, ts);
    forall i | 0 <= i < |ts|
      ensures Fulfilled(RunsOf(runs', ts'[i].key))
      ensures FulfilledAt(RunsOf(runs', ts'[i].key)) == FulfilledAt(RunsOf(runs, ts[i].key))
    {
      assert ts[i] in ts && ts'[i] in ts';
      FulfilmentListed(db, txs, uid, ts, runs, ts', runs', ts[i], ts'[i]);
    }
    CompletedMeans(runs', ts');
    SameTimes(runs, ts, runs', ts');
  }

  // ---- a claimed run is owned ----

  // Until its worker marks it or the agent restarts, no transaction touches a claimed run's row
  // or takes its job or target away.
  lemma ClaimedRunOwned(db: Db, tx: Tx, r: Run)
    requires Valid(db) && r in db.runs && r.status == Processing
    requires !(tx.MarkTx? && tx.run == r.uid) && !tx.RecoverTx?
    ensures r in After(db, tx).runs && r.key in After(db, tx).targets && r.key.job in After(db, tx).jobs
  {
    CommitKeepsValid(db, tx);
    ClaimedRowKept(db, tx, r);
    hide After;
    RowKey(After(db, tx), r);
  }

  lemma ProcessingRowFrozen(db: Db, tx: Tx, r: Run)
    requires Sorted(db.runs) && r in db.runs && r.status == Processing && RowSound(r)
    requires !(tx.MarkTx? && tx.run == r.uid) && !tx.RecoverTx?
    ensures NewRow(db, tx, r) == r
  {
    if tx.ClaimTx? && Commit(db, tx).Ok? {
      var q := NextQueued(db.runs, tx.printer).value;
      if r.sequence == q.sequence {
        SameSequence(db.runs, r, q);
      }
    }
  }

  lemma ClaimedRowKept(db: Db, tx: Tx, r: Run)
    requires Valid(db) && r in db.runs && r.status == Processing
    requires !(tx.MarkTx? && tx.run == r.uid) && !tx.RecoverTx?
    ensures r in After(db, tx).runs
  {
    if tx.PurgeTx? {
      PurgeSparesLiveWork(db, tx.now, r);
    } else {
      assert Sorted(db.runs);
      var i := RowInHistory(db, r) by { RowKey(db, r); }
      hide Valid, NewRow, After;
      ProcessingRowFrozen(db, tx, r);
      var added := Effect(db, tx);
      MappedIn(x => NewRow(db, tx, x), db.runs, r);
    }
  }

  // ---- marking is idempotent ----

  lemma {:induction false} LookupMarked(rows: seq<Run>, uid: Uid, o: Outcome, now: Stamp)
    requires Lookup(rows, uid).Some?
    ensures Lookup(MarkedRows(rows, uid, o, now), uid) == Some(Marked(Lookup(rows, uid).value, uid, o, now))
  {
    if rows[0].uid != uid {
      LookupMarked(rows[1..], uid, o, now);
      assert MarkedRows(rows, uid, o, now)[1..] == MarkedRows(rows[1..], uid, o, now);
    }
  }

  lemma MarkedTwice(rows: seq<Run>, uid: Uid, o: Outcome, now: Stamp, later: Stamp)
    ensures MarkedRows(MarkedRows(rows, uid, o, now), uid, o, later) == MarkedRows(rows, uid, o, now)
  {
  }

  // Repeating a mark whose acknowledgement was lost succeeds and leaves every run row as the
  // first attempt left it; only the job's retention deadline moves.
  lemma MarkAgain(db: Db, uid: Uid, o: Outcome, now: Stamp, later: Stamp)
    requires Mark(db, uid, o, now).Ok?
    ensures var once := Mark(db, uid, o, now).value;
            Mark(once, uid, o, later).Ok? && Mark(once, uid, o, later).value.runs == once.runs
  {
    hide MarkedRows, Lookup;
    LookupMarked(db.runs, uid, o, now);
    MarkedTwice(db.runs, uid, o, now, later);
  }

  // ---- manual reprint requests ----

  lemma {:induction false} CountIsMembership(h: seq<Run>, request: RequestId)
    ensures RequestCount(h, request) > 0 <==> exists r :: r in h && r.request == Some(request)
  {
    if h != [] {
      CountIsMembership(h[..|h| - 1], request);
      assert h == h[..|h| - 1] + [h[|h| - 1]];
    }
  }

  lemma {:induction false} CountOneIsUnique(h: seq<Run>, request: RequestId, i: nat, j: nat)
    requires RequestCount(h, request) <= 1 && i < j < |h|
    requires h[i].request == Some(request) && h[j].request == Some(request)
    ensures false
  {
    var front := h[..|h| - 1];
    if j < |h| - 1 {
      CountOneIsUnique(front, request, i, j);
    } else {
      assert front[i] in front && front[i].request == Some(request);
      CountIsMembership(front, request);
    }
  }

  // The deduplication row of a request is there exactly when each printer it names has one run
  // carrying the request and no other printer has any; a retry of such a run never carries it.
  lemma ReprintRequestExact(db: Db, job: Uid, request: RequestId, p: PrinterId)
    requires Valid(db)
    ensures (exists r :: r in db.runs && r.key == Key(job, p) && r.request == Some(request))
       <==> RequestKey(job, request) in db.dedup && p in db.dedup[RequestKey(job, request)].printers
    ensures RequestCount(RunsOf(db.runs, Key(job, p)), request) <= 1
    ensures forall r | r in db.runs && r.trigger == AutomaticRetry :: r.request.None?
  {
    var k := Key(job, p);
    forall r | r in db.runs && r.trigger == AutomaticRetry ensures r.request.None? {
      var i := RowInHistory(db, r);
    }
    assert RequestCount(RunsOf(db.runs, k), request) == Named(db.dedup, k, request);
    hide Valid;
    CountIsMembership(RunsOf(db.runs, k), request);
    InRunsOf(db.runs, k);
  }

  // A refused request changes nothing; in particular its id is still unused.
  lemma RefusedReprintLeavesNoTrace(db: Db, tx: Tx)
    requires tx.ReprintTx? && Commit(db, tx).Err?
    ensures After(db, tx) == db
    ensures Commit(db, tx).error != DuplicateRequest ==> RequestKey(tx.uid, tx.request) !in db.dedup
  {
  }

  // ---- retention ----

  // The job whose retention window a transaction starts again.
  function TouchedBy(db: Db, tx: Tx): Option<Uid> {
    match tx
    case MarkTx(uid, _, _) => JobOfRun(db, uid)
    case CancelRunTx(uid, _) => JobOfRun(db, uid)
    case ConfirmTx(uid, _) => JobOfRun(db, uid)
    case CancelTargetsTx(job, _, _) => Some(job)
    case ReprintTx(job, _, _, _, _) => Some(job)
    case _ => None
  }

  function JobOfRun(db: Db, uid: Uid): Option<Uid> {
    var r := Lookup(db.runs, uid);
    if r.Some? then Some(r.value.key.job) else None
  }

  // The transaction without its last statement.
  function BeforeTouch(db: Db, tx: Tx): Db
    requires Commit(db, tx).Ok? && TouchedBy(db, tx).Some?
    ensures After(db, tx) == Touch(BeforeTouch(db, tx), TouchedBy(db, tx).value, tx.now)
  {
    match tx
    case MarkTx(uid, o, now) => db.(runs := MarkedRows(db.runs, uid, o, now))
    case CancelRunTx(uid, now) => db.(runs := WithdrawnRows(db.runs, uid, now))
    case ConfirmTx(uid, now) => db.(runs := ResolvedRows(db.runs, uid, ConfirmedPrinted, now))
    case CancelTargetsTx(job, printers, now) => CancelEach(db, job, printers, now).value
    case ReprintTx(job, request, reason, slots, now) =>
      ReprintEach(db.(dedup := db.dedup[RequestKey(job, request) := ReprintDigest(SlotPrinters(slots), reason)]),
                  job, request, slots, now).value
    case _ => db
  }

  lemma BeforeTouchJobs(db: Db, tx: Tx)
    requires Commit(db, tx).Ok? && TouchedBy(db, tx).Some?
    ensures BeforeTouch(db, tx).jobs == db.jobs
  {
    hide Lookup, MarkedRows, WithdrawnRows, ResolvedRows, CancelEach, ReprintEach;
    match tx
    case CancelTargetsTx(job, printers, now) => CancelEachTargets(db, job, printers, now);
    case ReprintTx(job, request, reason, slots, now) =>
      var id := RequestKey(job, request);
      ReprintEachTargets(db.(dedup := db.dedup[id := ReprintDigest(SlotPrinters(slots), reason)]), id, slots, now);
    case _ =>
  }

  lemma RetryJobs(db: Db, tx: Tx)
    requires tx.RetryTx?
    ensures After(db, tx).jobs == db.jobs
  {
    if Commit(db, tx).Ok? {
      var reply := Retry(db, tx.run, MaxAutomaticRetries, tx.newRun, tx.hash, tx.now);
      hide Retry;
      if reply.value.1.None? {
        RetryGivenUp(db, tx.run, tx.newRun, tx.hash, tx.now);
      } else {
        var previous, run := RetryEffect(db, tx.run, tx.newRun, tx.hash, tx.now);
      }
    }
  }

  lemma AcceptJobs(db: Db, tx: Tx)
    requires tx.AcceptTx? && Commit(db, tx).Ok?
    ensures tx.uid !in db.jobs && After(db, tx).jobs == db.jobs[tx.uid := tx.job]
  {
    hide InsertTargets, InsertRuns;
    var withJob := InsertJobRow(db, tx.uid, tx.job).value;
    var ts := AcceptedTargets(tx.uid, tx.slots, 0);
    InsertTargetsRows(withJob, ts);
    InsertRunsTargets(InsertTargets(withJob, ts).value, AcceptedRuns(tx.uid, tx.slots, tx.now));
  }

  // The job is on file and will not expire before the deadline.
  predicate KeptUntil(db: Db, job: Uid, deadline: Stamp) {
    job in db.jobs && db.jobs[job].expiresAt >= deadline
  }

  // A transaction of the time until the deadline: retention runs no later, everything else no
  // earlier than a retention window before.
  predicate InTime(tx: Tx, deadline: Stamp) {
    deadline - RetentionWindow <= tx.now && (tx.PurgeTx? ==> tx.now <= deadline)
  }

  lemma DeadlineKept(db: Db, tx: Tx, job: Uid, deadline: Stamp)
    requires KeptUntil(db, job, deadline) && InTime(tx, deadline)
    ensures KeptUntil(After(db, tx), job, deadline)
  {
    hide Lookup, NextQueued, ClaimedRows, AbandonedRows, Retry, InsertJob, CancelEach, ReprintEach, MarkedRows, ResolvedRows,
         WithdrawnRows;
    if Commit(db, tx).Ok? {
      if TouchedBy(db, tx).Some? {
        BeforeTouchJobs(db, tx);
        hide Commit, After, TouchedBy, BeforeTouch;
      } else if tx.AcceptTx? {
        AcceptJobs(db, tx);
        hide Commit, After;
      } else if tx.RetryTx? {
        RetryJobs(db, tx);
        hide Commit, After;
      }
    }
  }

  lemma {:induction false} DeadlineKeepsJob(db: Db, txs: seq<Tx>, job: Uid, deadline: Stamp)
    requires KeptUntil(db, job, deadline) && forall tx | tx in txs :: InTime(tx, deadline)
    ensures KeepsJob(db, txs, job)
    decreases |txs|
  {
    hide After, InTime;
    if txs != [] {
      DeadlineKept(db, txs[0], job, deadline);
      DeadlineKeepsJob(After(db, txs[0]), txs[1..], job, deadline);
    }
  }

  lemma TouchSetsDeadline(db: Db, tx: Tx)
    requires Commit(db, tx).Ok? && TouchedBy(db, tx).Some? && TouchedBy(db, tx).value in After(db, tx).jobs
    ensures KeptUntil(After(db, tx), TouchedBy(db, tx).value, tx.now + RetentionWindow)
  {
    BeforeTouchJobs(db, tx);
    hide Commit, After, TouchedBy, BeforeTouch;
  }

  // Whatever happens to a job - an outcome recorded, a cancellation, a confirmation, a reprint - it
  // stays on file through every later run of transactions whose retentions come within 48 hours.
  lemma ActivityDelaysRetention(db: Db, tx: Tx, txs: seq<Tx>)
    requires Commit(db, tx).Ok? && TouchedBy(db, tx).Some? && TouchedBy(db, tx).value in After(db, tx).jobs
    requires forall t | t in txs :: tx.now <= t.now && (t.PurgeTx? ==> t.now <= tx.now + RetentionWindow)
    ensures KeepsJob(After(db, tx), txs, TouchedBy(db, tx).value)
  {
    hide Commit, After, TouchedBy;
    TouchSetsDeadline(db, tx);
    DeadlineKeepsJob(After(db, tx), txs, TouchedBy(db, tx).value, tx.now + RetentionWindow);
  }

  // A row stays, under its id, as long as its job does.
  lemma RowStays(db: Db, tx: Tx, r: Run) returns (r': Run)
    requires r in db.runs && r.key.job in After(db, tx).jobs
    ensures r' in After(db, tx).runs && r'.uid == r.uid && r'.key == r.key
  {
    if tx.PurgeTx? {
      InWithoutJobs(db.runs, PurgeableJobs(db, tx.now));
      r' := r;
    } else {
      hide After;
      var added := Effect(db, tx);
      MappedIn(x => NewRow(db, tx, x), db.runs, r);
      NewRowKeepsKey(db, tx, r);
      r' := NewRow(db, tx, r);
    }
  }

  lemma {:induction false} RowStaysThroughout(db: Db, txs: seq<Tx>, r: Run) returns (r': Run)
    requires r in db.runs && KeepsJob(db, txs, r.key.job)
    ensures r' in Replay(db, txs).runs && r'.uid == r.uid && r'.key == r.key
    decreases |txs|
  {
    hide After;
    if txs == [] {
      r' := r;
    } else {
      assert KeepsJob(After(db, txs[0]), txs[1..], r.key.job);
      r' := RowStays(db, txs[0], r);
      r' := RowStaysThroughout(After(db, txs[0]), txs[1..], r');
    }
  }
}
