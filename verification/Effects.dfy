// One closed form for every transaction: rows that stay are mapped by NewRow, new rows are
// appended behind them, and only retention removes rows.
module Effects {
  import opened Domain
  import opened Tables
  import opened Schema
  import opened Transactions
  import opened History
  import opened Invariant
  import opened Preservation
  import opened AcceptPurge

  function DroppedFor(r: Run, job: Uid, printers: seq<PrinterId>, now: Stamp): Run {
    if r.key.job == job && r.key.printer in printers then Dropped(r, r.key, now) else r
  }

  function SupersededFor(r: Run, job: Uid, printers: seq<PrinterId>, now: Stamp): Run {
    if r.key.job == job && r.key.printer in printers then Superseded(r, r.key, now) else r
  }

  // What a transaction makes of a row that is already there.
  function NewRow(db: Db, tx: Tx, r: Run): Run {
    if Commit(db, tx).Err? then r
    else match tx
      case AcceptTx(_, _, _, _) => r
      case ClaimTx(p, now) =>
        var q := NextQueued(db.runs, p);
        if q.Some? then Claimed(r, q.value.sequence, now) else r
      case MarkTx(uid, o, now) => Marked(r, uid, o, now)
      case CancelRunTx(uid, now) => Withdrawn(r, uid, now)
      case CancelTargetsTx(job, printers, now) => DroppedFor(r, job, printers, now)
      case ConfirmTx(uid, now) => Resolved(r, uid, ConfirmedPrinted, now)
      case ReprintTx(job, _, _, slots, now) => SupersededFor(r, job, SlotPrinters(slots), now)
      case RetryTx(uid, _, _, _) => Spent(r, uid)
      case RecoverTx(now) => Abandoned(r, now)
      case PurgeTx(_) => r
  }

  // What is true of every row that a transaction appends.
  ghost predicate Fresh(db: Db, tx: Tx, a: Run) {
    && a.sequence > db.lastSequence
    && (a.status == Queued || (a.status == Failed && tx.RetryTx?))
    && !a.retryable && a.resolution == Unresolved && a.startedAt.None? && a.bytesAccepted == 0
    && a.uid in NewIds(tx)
    && match tx
       case AcceptTx(uid, _, _, _) =>
         a.trigger == Initial && a.mode == Normal && a.key.job == uid && uid !in db.jobs
         && a.key.printer in WorkFor(tx)
       case ReprintTx(job, request, _, slots, _) =>
         a.trigger == ManualReprint && a.request == Some(request) && a.key.job == job
         && a.key.printer in WorkFor(tx)
       case RetryTx(uid, newUid, _, _) =>
         a.trigger == AutomaticRetry && a.uid == newUid
         && exists p :: p in db.runs && p.uid == uid && RetryPending(p) && RetryRun(a, p)
       case _ => false
  }

  // ---- the two loops in closed form ----

  lemma {:induction false} CancelEachRows(db: Db, job: Uid, printers: seq<PrinterId>, now: Stamp)
    requires CancelEach(db, job, printers, now).Ok?
    ensures CancelEach(db, job, printers, now).value.runs
         == MapRows(r => DroppedFor(r, job, printers, now), db.runs)
    decreases |printers|
  {
    if printers != [] {
      var k := Key(job, printers[0]);
      var db' := CancelTarget(db, k, now).value;
      CancelEachRows(db', job, printers[1..], now);
      forall r: Run
        ensures DroppedFor(Dropped(r, k, now), job, printers[1..], now) == DroppedFor(r, job, printers, now)
      {
        assert r.key == Key(r.key.job, r.key.printer);
      }
    }
  }

  lemma SupersedeTwice(r: Run, job: Uid, slots: seq<ReprintSlot>, now: Stamp)
    requires slots != []
    ensures SupersededFor(Superseded(r, Key(job, slots[0].printer), now), job, SlotPrinters(slots[1..]), now)
         == SupersededFor(r, job, SlotPrinters(slots), now)
  {
    assert r.key == Key(r.key.job, r.key.printer);
    assert SlotPrinters(slots) == [slots[0].printer] + SlotPrinters(slots[1..]);
  }

  ghost predicate ReprintedRow(last: nat, job: Uid, request: RequestId, s: ReprintSlot, a: Run) {
    && a.sequence > last && a.status == Queued && !a.retryable && a.resolution == Unresolved
    && a.startedAt.None? && a.bytesAccepted == 0
    && a.trigger == ManualReprint && a.request == Some(request) && a.key == Key(job, s.printer) && a.uid == s.run
  }

  ghost predicate ReprintedRows(last: nat, job: Uid, request: RequestId, slots: seq<ReprintSlot>, added: seq<Run>) {
    |added| == |slots| && forall i | 0 <= i < |slots| :: ReprintedRow(last, job, request, slots[i], added[i])
  }

  lemma ReprintedFirst(last: nat, job: Uid, request: RequestId, slots: seq<ReprintSlot>, run: Run, rest: seq<Run>)
    requires slots != [] && ReprintedRow(last, job, request, slots[0], run)
    requires ReprintedRows(last + 1, job, request, slots[1..], rest)
    ensures ReprintedRows(last, job, request, slots, [run] + rest)
  {
    forall i | 0 <= i < |slots| ensures ReprintedRow(last, job, request, slots[i], ([run] + rest)[i]) {
      if i > 0 {
        assert ReprintedRow(last + 1, job, request, slots[1..][i - 1], rest[i - 1]);
      }
    }
  }

  lemma ReprintMapped(rows: seq<Run>, run: Run, job: Uid, slots: seq<ReprintSlot>, now: Stamp)
    requires slots != [] && run.status == Queued
    ensures MapRows(r => SupersededFor(r, job, SlotPrinters(slots[1..]), now),
                    SupersededRows(rows + [run], Key(job, slots[0].printer), now))
         == MapRows(r => SupersededFor(r, job, SlotPrinters(slots), now), rows) + [run]
  {
    forall r ensures SupersededFor(Superseded(r, Key(job, slots[0].printer), now), job, SlotPrinters(slots[1..]), now)
                  == SupersededFor(r, job, SlotPrinters(slots), now)
    {
      SupersedeTwice(r, job, slots, now);
    }
  }

  // The first printer's turn, without what it does to the table.
  lemma ReprintEachFirst(db: Db, id: RequestKey, slots: seq<ReprintSlot>, now: Stamp) returns (db': Db, run: Run)
    requires slots != [] && ReprintEach(db, id.job, id.request, slots, now).Ok?
    ensures ReprintEach(db, id.job, id.request, slots, now) == ReprintEach(db', id.job, id.request, slots[1..], now)
    ensures db'.runs == SupersededRows(db.runs + [run], Key(id.job, slots[0].printer), now)
    ensures db'.lastSequence == db.lastSequence + 1
    ensures ReprintedRow(db.lastSequence, id.job, id.request, slots[0], run)
  {
    db' := ReprintTarget(db, id.job, id.request, slots[0], now).value;
    run := ReprintRun(db, id, slots[0], now);
    ReprintTargetEffect(db, id, slots[0], now);
  }

  lemma {:induction false} ReprintEachRows(db: Db, id: RequestKey, slots: seq<ReprintSlot>, now: Stamp)
    returns (added: seq<Run>)
    requires ReprintEach(db, id.job, id.request, slots, now).Ok?
    ensures ReprintEach(db, id.job, id.request, slots, now).value.runs
         == MapRows(r => SupersededFor(r, id.job, SlotPrinters(slots), now), db.runs) + added
    ensures ReprintedRows(db.lastSequence, id.job, id.request, slots, added)
    decreases |slots|
  {
    hide ReprintTarget;
    if slots == [] {
      added := [];
      assert MapRows(r => SupersededFor(r, id.job, SlotPrinters(slots), now), db.runs) == db.runs;
    } else {
      var db', run := ReprintEachFirst(db, id, slots, now);
      var rest := ReprintEachRows(db', id, slots[1..], now);
      ReprintMapped(db.runs, run, id.job, slots, now);
      ReprintedFirst(db.lastSequence, id.job, id.request, slots, run, rest);
      added := [run] + rest;
      assert MapRows(r => SupersededFor(r, id.job, SlotPrinters(slots), now), db.runs) + [run] + rest
          == MapRows(r => SupersededFor(r, id.job, SlotPrinters(slots), now), db.runs) + added;
    }
  }

  ghost predicate AcceptedRow(last: nat, uid: Uid, s: Slot, a: Run) {
    && a.sequence > last && a.status == Queued && !a.retryable && a.resolution == Unresolved
    && a.startedAt.None? && a.bytesAccepted == 0
    && a.trigger == Initial && a.mode == Normal && a.key == Key(uid, s.printer) && a.uid == s.run
  }

  ghost predicate AcceptedRows(last: nat, uid: Uid, slots: seq<Slot>, added: seq<Run>) {
    |added| == |slots| && forall i | 0 <= i < |slots| :: AcceptedRow(last, uid, slots[i], added[i])
  }

  lemma AcceptedFirst(last: nat, uid: Uid, slots: seq<Slot>, run: Run, rest: seq<Run>)
    requires slots != [] && AcceptedRow(last, uid, slots[0], run)
    requires AcceptedRows(last + 1, uid, slots[1..], rest)
    ensures AcceptedRows(last, uid, slots, [run] + rest)
  {
    forall i | 0 <= i < |slots| ensures AcceptedRow(last, uid, slots[i], ([run] + rest)[i]) {
      if i > 0 {
        assert AcceptedRow(last + 1, uid, slots[1..][i - 1], rest[i - 1]);
      }
    }
  }

  lemma {:induction false} InsertRunsRows(db: Db, uid: Uid, slots: seq<Slot>, now: Stamp) returns (added: seq<Run>)
    requires InsertRuns(db, AcceptedRuns(uid, slots, now)).Ok?
    ensures InsertRuns(db, AcceptedRuns(uid, slots, now)).value.runs == db.runs + added
    ensures AcceptedRows(db.lastSequence, uid, slots, added)
    decreases |slots|
  {
    if slots == [] {
      added := [];
    } else {
      var r := AcceptedRuns(uid, slots, now)[0];
      InsertRunEffect(db, r);
      var rest := InsertRunsRows(InsertRun(db, r).value, uid, slots[1..], now);
      var row := r.(sequence := db.lastSequence + 1);
      AcceptedFirst(db.lastSequence, uid, slots, row, rest);
      added := [row] + rest;
    }
  }

  lemma {:induction false} InsertTargetsRows(db: Db, ts: seq<NewTarget>)
    requires InsertTargets(db, ts).Ok?
    ensures var db' := InsertTargets(db, ts).value;
            db'.runs == db.runs && db'.lastSequence == db.lastSequence && db'.jobs == db.jobs && db'.dedup == db.dedup
    decreases |ts|
  {
    if ts != [] {
      InsertTargetsRows(InsertTarget(db, ts[0]).value, ts[1..]);
    }
  }

  // ---- every transaction ----

  lemma UnchangedRows(rows: seq<Run>)
    ensures MapRows(r => r, rows) == rows
  {
  }

  lemma AcceptEffect(db: Db, tx: Tx) returns (added: seq<Run>)
    requires tx.AcceptTx? && Commit(db, tx).Ok?
    ensures After(db, tx).runs == db.runs + added
    ensures forall a | a in added :: Fresh(db, tx, a)
  {
    var withJob := InsertJobRow(db, tx.uid, tx.job).value;
    InsertTargetsRows(withJob, AcceptedTargets(tx.uid, tx.slots, 0));
    var withTargets := InsertTargets(withJob, AcceptedTargets(tx.uid, tx.slots, 0)).value;
    added := InsertRunsRows(withTargets, tx.uid, tx.slots, tx.now);
  }

  lemma ReprintEffect(db: Db, tx: Tx) returns (added: seq<Run>)
    requires tx.ReprintTx? && Commit(db, tx).Ok?
    ensures After(db, tx).runs == MapRows(r => NewRow(db, tx, r), db.runs) + added
    ensures ReprintedRows(db.lastSequence, tx.uid, tx.request, tx.reprints, added)
    ensures forall a | a in added :: Fresh(db, tx, a)
  {
    var id := RequestKey(tx.uid, tx.request);
    var digest := ReprintDigest(SlotPrinters(tx.reprints), tx.reason);
    added := ReprintEachRows(db.(dedup := db.dedup[id := digest]), id, tx.reprints, tx.now);
    assert MapRows(r => NewRow(db, tx, r), db.runs)
        == MapRows(r => SupersededFor(r, tx.uid, SlotPrinters(tx.reprints), tx.now), db.runs);
    forall a | a in added ensures Fresh(db, tx, a) {
      var i :| 0 <= i < |added| && added[i] == a;
    }
  }

  lemma RetryEffectRows(db: Db, tx: Tx) returns (added: seq<Run>)
    requires tx.RetryTx? && Commit(db, tx).Ok?
    ensures After(db, tx).runs == MapRows(r => NewRow(db, tx, r), db.runs) + added
    ensures |added| <= 1 && forall a | a in added :: Fresh(db, tx, a)
  {
    hide Retry, RowSound;
    if Retry(db, tx.run, MaxAutomaticRetries, tx.newRun, tx.hash, tx.now).value.1.None? {
      RetryGivenUp(db, tx.run, tx.newRun, tx.hash, tx.now);
      added := [];
      assert MapRows(r => NewRow(db, tx, r), db.runs) == SpentRows(db.runs, tx.run);
    } else {
      var previous, run := RetryEffect(db, tx.run, tx.newRun, tx.hash, tx.now);
      added := [run];
      assert MapRows(r => NewRow(db, tx, r), db.runs) + [run] == SpentRows(db.runs + [run], tx.run);
    }
  }

  lemma UpdateEffect(db: Db, tx: Tx)
    requires Commit(db, tx).Ok?
    requires !tx.AcceptTx? && !tx.ReprintTx? && !tx.RetryTx? && !tx.PurgeTx?
    ensures After(db, tx).runs == MapRows(r => NewRow(db, tx, r), db.runs)
  {
    if tx.CancelTargetsTx? {
      CancelEachRows(db, tx.uid, tx.printers, tx.now);
    }
  }

  // The closed form, for every transaction but retention.
  lemma Effect(db: Db, tx: Tx) returns (added: seq<Run>)
    requires !tx.PurgeTx?
    ensures After(db, tx).runs == MapRows(r => NewRow(db, tx, r), db.runs) + added
    ensures forall a | a in added :: Fresh(db, tx, a)
    ensures added != [] ==> Commit(db, tx).Ok?
  {
    if Commit(db, tx).Err? {
      added := [];
      assert MapRows(r => NewRow(db, tx, r), db.runs) == db.runs;
    } else if tx.AcceptTx? {
      added := AcceptEffect(db, tx);
      assert MapRows(r => NewRow(db, tx, r), db.runs) == db.runs;
    } else if tx.ReprintTx? {
      added := ReprintEffect(db, tx);
    } else if tx.RetryTx? {
      added := RetryEffectRows(db, tx);
    } else {
      added := [];
      UpdateEffect(db, tx);
    }
  }

  lemma {:induction false} RunsOfConcat(a: seq<Run>, b: seq<Run>, k: Key)
    ensures RunsOf(a + b, k) == RunsOf(a, k) + RunsOf(b, k)
    decreases |b|
  {
    if b == [] {
      assert a + b == a;
    } else {
      RunsOfConcat(a + [b[0]], b[1..], k);
      assert a + b == a + [b[0]] + b[1..];
      RunsOfAppended(a, b[0], k);
      RunsOfFirst(b, k);
    }
  }

  lemma {:induction false} RunsOfFirst(b: seq<Run>, k: Key)
    requires b != []
    ensures RunsOf(b, k) == (if b[0].key == k then [b[0]] else []) + RunsOf(b[1..], k)
  {
    var front := b[..|b| - 1];
    if front != [] {
      RunsOfFirst(front, k);
      assert b[1..] == front[1..] + [b[|b| - 1]];
      RunsOfAppended(front[1..], b[|b| - 1], k);
    }
  }

  lemma NewRowKeepsKey(db: Db, tx: Tx, r: Run)
    ensures NewRow(db, tx, r).key == r.key && NewRow(db, tx, r).sequence == r.sequence
    ensures SameIdentity(r, NewRow(db, tx, r))
  {
  }

  // The same for one history.
  lemma HistoryEffect(db: Db, tx: Tx, k: Key) returns (added: seq<Run>)
    requires !tx.PurgeTx?
    ensures RunsOf(After(db, tx).runs, k) == MapRows(r => NewRow(db, tx, r), RunsOf(db.runs, k)) + added
    ensures forall a | a in added :: Fresh(db, tx, a) && a.key == k
    ensures added != [] ==> Commit(db, tx).Ok?
  {
    var all := Effect(db, tx);
    var f := (r: Run) => NewRow(db, tx, r);
    forall r | r in db.runs ensures f(r).key == r.key {
      NewRowKeepsKey(db, tx, r);
    }
    RunsOfMapped(f, db.runs, k);
    RunsOfConcat(MapRows(f, db.runs), all, k);
    InRunsOf(all, k);
    added := RunsOf(all, k);
  }

  lemma PurgedHistory(db: Db, now: Stamp, k: Key)
    ensures RunsOf(Purge(db, now).runs, k) == if k.job in PurgeableJobs(db, now) then [] else RunsOf(db.runs, k)
  {
    RunsOfWithoutJobs(db.runs, PurgeableJobs(db, now), k);
  }
}
