// What the transactions that people and the scheduler send (everything but a worker's claim and
// mark, and the recovery at startup) do to one row of the table.
module Requests {
  import opened Domain
  import opened Tables
  import opened Schema
  import opened Transactions
  import opened History
  import opened Invariant
  import opened Preservation
  import opened AcceptPurge
  import opened Effects
  import opened Chains

  predicate IsRequest(tx: Tx) {
    !tx.ClaimTx? && !tx.MarkTx? && !tx.RecoverTx?
  }

  // A request leaves the identity of a row alone and takes it to no other status, except that a
  // queued run can be cancelled.
  predicate Unmoved(r: Run, r': Run) {
    SameIdentity(r, r') && (r'.status == r.status || (r.status == Queued && r'.status == Cancelled))
    && (r.status == Processing ==> r' == r)
  }

  lemma NewRowUnmoved(db: Db, tx: Tx, r: Run)
    requires IsRequest(tx) && RowSound(r)
    ensures Unmoved(r, NewRow(db, tx, r))
  {
  }

  lemma RowsSound(db: Db, r: Run)
    requires Valid(db) && r in db.runs
    ensures RowSound(r) && r.key in db.targets && r.key.job in db.jobs && 1 <= r.sequence <= db.lastSequence
  {
    RowKey(db, r);
    var i := RowInHistory(db, r);
  }

  // Where a row of the new table comes from.
  lemma RowBefore(db: Db, tx: Tx, r': Run) returns (r: Run, added: bool)
    requires Valid(db) && IsRequest(tx) && r' in After(db, tx).runs
    ensures added ==> r'.sequence > db.lastSequence && (r'.status == Queued || r'.status == Failed) && r'.uid in NewIds(tx)
    ensures !added ==> r in db.runs && Unmoved(r, r')
  {
    r, added := r', false;
    if tx.PurgeTx? {
      InWithoutJobs(db.runs, PurgeableJobs(db, tx.now));
      RowsSound(db, r);
    } else {
      hide Valid, NewRow, After;
      var appended := Effect(db, tx);
      if r' in appended {
        added := true;
      } else {
        r := MappedRow(x => NewRow(db, tx, x), db.runs, r');
        RowsSound(db, r);
        NewRowUnmoved(db, tx, r);
      }
    }
  }

  // The same for every transaction, as far as identities go.
  lemma RowOrigin(db: Db, tx: Tx, r': Run) returns (r: Run, added: bool)
    requires r' in After(db, tx).runs
    ensures added ==> r'.sequence > db.lastSequence && r'.uid in NewIds(tx)
    ensures !added ==> r in db.runs && SameIdentity(r, r')
  {
    r, added := r', false;
    if tx.PurgeTx? {
      InWithoutJobs(db.runs, PurgeableJobs(db, tx.now));
    } else {
      hide NewRow, After;
      var appended := Effect(db, tx);
      if r' in appended {
        added := true;
      } else {
        r := MappedRow(x => NewRow(db, tx, x), db.runs, r');
        NewRowKeepsKey(db, tx, r);
      }
    }
  }

  // A row stays unless retention removes its job.
  lemma RowAfter(db: Db, tx: Tx, r: Run) returns (r': Run)
    requires Valid(db) && IsRequest(tx) && r in db.runs && r.key.job in After(db, tx).jobs
    ensures r' in After(db, tx).runs && Unmoved(r, r')
  {
    RowsSound(db, r);
    r' := r;
    if tx.PurgeTx? {
      InWithoutJobs(db.runs, PurgeableJobs(db, tx.now));
    } else {
      hide Valid, NewRow, After;
      var appended := Effect(db, tx);
      r' := NewRow(db, tx, r);
      MappedIn(x => NewRow(db, tx, x), db.runs, r);
      NewRowUnmoved(db, tx, r);
    }
  }

  // No UPDATE of any transaction runs into a trigger or a CHECK: identities stay, statuses move
  // only as the transition trigger allows, and the new row has an allowed shape.
  lemma UpdatesPassTheSchema(db: Db, tx: Tx, r: Run)
    requires Valid(db) && r in db.runs
    ensures var r' := NewRow(db, tx, r);
            SameIdentity(r, r') && TransitionAllowed(r.status, r'.status) && RowOk(r')
    ensures var r' := NewRow(db, tx, r);
            && r' == r.(status := r'.status, retryable := r'.retryable, resolution := r'.resolution, errorCode := r'.errorCode,
                        bytesAccepted := r'.bytesAccepted, startedAt := r'.startedAt, finishedAt := r'.finishedAt,
                        transmittedAt := r'.transmittedAt, resolvedAt := r'.resolvedAt)
            && (r'.status == r.status || (r.status == Queued && r'.status in {Processing, Cancelled})
                || (r.status == Processing && r'.status in {Transmitted, Failed, Uncertain}))
  {
    RowsSound(db, r);
    assert Sorted(db.runs);
    hide Valid, NewRow, SameIdentity, TransitionAllowed, RowOk;
    NewRowPassesSchema(db, tx, r);
    SchemaMeans(r, NewRow(db, tx, r));
  }

  lemma SchemaMeans(r: Run, r': Run)
    requires SameIdentity(r, r') && TransitionAllowed(r.status, r'.status)
    ensures r' == r.(status := r'.status, retryable := r'.retryable, resolution := r'.resolution, errorCode := r'.errorCode,
                     bytesAccepted := r'.bytesAccepted, startedAt := r'.startedAt, finishedAt := r'.finishedAt,
                     transmittedAt := r'.transmittedAt, resolvedAt := r'.resolvedAt)
    ensures r'.status == r.status || (r.status == Queued && r'.status in {Processing, Cancelled})
            || (r.status == Processing && r'.status in {Transmitted, Failed, Uncertain})
  {
  }

  lemma NewRowPassesSchema(db: Db, tx: Tx, r: Run)
    requires Sorted(db.runs) && r in db.runs && RowSound(r)
    ensures var r' := NewRow(db, tx, r);
            SameIdentity(r, r') && TransitionAllowed(r.status, r'.status) && RowOk(r')
  {
    hide MarkedRows, WithdrawnRows, ResolvedRows, CancelEach, ReprintEach, AbandonedRows, ClaimedRows, Retry, Refusal;
    if tx.ClaimTx? && Commit(db, tx).Ok? {
      var q := NextQueued(db.runs, tx.printer).value;
      if r.sequence == q.sequence {
        SameSequence(db.runs, r, q);
      }
    }
  }

  lemma LookupIs(db: Db, r: Run)
    requires Valid(db) && r in db.runs
    ensures Lookup(db.runs, r.uid) == Some(r)
  {
    LookupFinds(db.runs, r);
  }

  // ---- which jobs exist ----

  lemma {:induction false} InsertTargetsJobs(db: Db, ts: seq<NewTarget>, rs: seq<Run>)
    requires InsertTargets(db, ts).Ok? && InsertRuns(InsertTargets(db, ts).value, rs).Ok?
    ensures InsertRuns(InsertTargets(db, ts).value, rs).value.jobs == db.jobs
  {
    InsertTargetsRows(db, ts);
    InsertRunsJobs(InsertTargets(db, ts).value, rs);
  }

  lemma {:induction false} InsertRunsJobs(db: Db, rs: seq<Run>)
    requires InsertRuns(db, rs).Ok?
    ensures InsertRuns(db, rs).value.jobs == db.jobs
    decreases |rs|
  {
    if rs != [] {
      InsertRunsJobs(InsertRun(db, rs[0]).value, rs[1..]);
    }
  }

  lemma {:induction false} CancelEachJobs(db: Db, job: Uid, printers: seq<PrinterId>, now: Stamp)
    requires CancelEach(db, job, printers, now).Ok?
    ensures CancelEach(db, job, printers, now).value.jobs == db.jobs
    decreases |printers|
  {
    if printers != [] {
      CancelEachJobs(CancelTarget(db, Key(job, printers[0]), now).value, job, printers[1..], now);
    }
  }

  lemma {:induction false} ReprintEachJobs(db: Db, id: RequestKey, slots: seq<ReprintSlot>, now: Stamp)
    requires ReprintEach(db, id.job, id.request, slots, now).Ok?
    ensures ReprintEach(db, id.job, id.request, slots, now).value.jobs == db.jobs
    decreases |slots|
  {
    if slots != [] {
      ReprintTargetEffect(db, id, slots[0], now);
      var db' := ReprintTarget(db, id.job, id.request, slots[0], now).value;
      hide ReprintTarget;
      ReprintEachJobs(db', id, slots[1..], now);
    }
  }

  // Only an acceptance adds a job, under an id that was free.
  lemma JobsBefore(db: Db, tx: Tx, job: Uid)
    requires job in After(db, tx).jobs
    ensures job in db.jobs || (tx.AcceptTx? && job == tx.uid && Commit(db, tx).Ok?)
  {
    if Commit(db, tx).Ok? {
      match tx
      case AcceptTx(uid, j, slots, now) =>
        InsertTargetsJobs(InsertJobRow(db, uid, j).value, AcceptedTargets(uid, slots, 0), AcceptedRuns(uid, slots, now));
      case CancelTargetsTx(j, printers, now) => CancelEachJobs(db, j, printers, now);
      case ReprintTx(j, request, reason, slots, now) =>
        var id := RequestKey(j, request);
        ReprintEachJobs(db.(dedup := db.dedup[id := ReprintDigest(SlotPrinters(slots), reason)]), id, slots, now);
      case RetryTx(uid, newUid, hash, now) =>
        RetryJobs(db, uid, newUid, hash, now);
      case _ =>
    }
  }

  lemma RetryJobs(db: Db, uid: Uid, newUid: Uid, hash: Option<ContentHash>, now: Stamp)
    requires Retry(db, uid, MaxAutomaticRetries, newUid, hash, now).Ok?
    ensures Retry(db, uid, MaxAutomaticRetries, newUid, hash, now).value.0.jobs == db.jobs
  {
    var reply := Retry(db, uid, MaxAutomaticRetries, newUid, hash, now);
    hide Retry;
    if reply.value.1.None? {
      RetryGivenUp(db, uid, newUid, hash, now);
    } else {
      var previous, run := RetryEffect(db, uid, newUid, hash, now);
    }
  }

  // ---- reprints granted ----

  function SlotKeys(job: Uid, slots: seq<ReprintSlot>): seq<Key> {
    seq(|slots|, i requires 0 <= i < |slots| => Key(job, slots[i].printer))
  }

  // The targets that a transaction grants a reprint for.
  function Granted(db: Db, tx: Tx): seq<Key> {
    if tx.ReprintTx? && Commit(db, tx).Ok? then SlotKeys(tx.uid, tx.reprints) else []
  }

  function Count(keys: seq<Key>, k: Key): nat {
    if keys == [] then 0 else Count(keys[..|keys| - 1], k) + (if keys[|keys| - 1] == k then 1 else 0)
  }

  lemma {:induction false} CountConcat(a: seq<Key>, b: seq<Key>, k: Key)
    ensures Count(a + b, k) == Count(a, k) + Count(b, k)
  {
    if b == [] {
      assert a + b == a;
    } else {
      CountConcat(a, b[..|b| - 1], k);
      assert (a + b)[..|a + b| - 1] == a + b[..|b| - 1];
    }
  }

  lemma {:induction false} CountNone(keys: seq<Key>, k: Key)
    requires k !in keys
    ensures Count(keys, k) == 0
  {
    if keys != [] {
      CountNone(keys[..|keys| - 1], k);
    }
  }

  lemma {:induction false} ReprintsConcat(a: seq<Run>, b: seq<Run>)
    ensures Reprints(a + b) == Reprints(a) + Reprints(b)
  {
    if b == [] {
      assert a + b == a;
    } else {
      ReprintsConcat(a, b[..|b| - 1]);
      assert (a + b)[..|a + b| - 1] == a + b[..|b| - 1];
    }
  }

  lemma {:induction false} ReprintsSame(h: seq<Run>, h': seq<Run>)
    requires |h'| == |h| && forall i | 0 <= i < |h| :: h'[i].trigger == h[i].trigger
    ensures Reprints(h') == Reprints(h)
  {
    if h != [] {
      ReprintsSame(h[..|h| - 1], h'[..|h| - 1]);
    }
  }

  lemma {:induction false} NoReprints(h: seq<Run>)
    requires forall r | r in h :: r.trigger != ManualReprint
    ensures Reprints(h) == 0
  {
    if h != [] {
      assert h[|h| - 1] in h;
      NoReprints(h[..|h| - 1]);
    }
  }

  lemma {:induction false} ReprintedRowsCounted(last: nat, job: Uid, request: RequestId, slots: seq<ReprintSlot>,
                                                added: seq<Run>, k: Key)
    requires ReprintedRows(last, job, request, slots, added)
    ensures Reprints(RunsOf(added, k)) == Count(SlotKeys(job, slots), k)
  {
    if slots != [] {
      var n := |slots| - 1;
      ReprintedRowsCounted(last, job, request, slots[..n], added[..n], k);
      assert SlotKeys(job, slots)[..n] == SlotKeys(job, slots[..n]);
      assert ReprintedRow(last, job, request, slots[n], added[n]);
      var front := RunsOf(added[..n], k);
      if added[n].key == k {
        assert (front + [added[n]])[..|front|] == front;
      } else {
        assert front + [] == front;
      }
    }
  }

  lemma UpdatedRowsKeepTriggers(db: Db, tx: Tx, k: Key)
    ensures var f := (r: Run) => NewRow(db, tx, r);
            && RunsOf(MapRows(f, db.runs), k) == MapRows(f, RunsOf(db.runs, k))
            && Reprints(MapRows(f, RunsOf(db.runs, k))) == Reprints(RunsOf(db.runs, k))
  {
    var f := (r: Run) => NewRow(db, tx, r);
    forall r: Run ensures f(r).key == r.key && f(r).trigger == r.trigger {
      NewRowKeepsKey(db, tx, r);
    }
    hide NewRow;
    RunsOfMapped(f, db.runs, k);
    ReprintsSame(RunsOf(db.runs, k), MapRows(f, RunsOf(db.runs, k)));
  }

  // The manual reprints in a target's history are those that were granted.
  lemma ReprintsAreGranted(db: Db, tx: Tx, k: Key)
    requires k.job in After(db, tx).jobs
    ensures Reprints(RunsOf(After(db, tx).runs, k)) == Reprints(RunsOf(db.runs, k)) + Count(Granted(db, tx), k)
  {
    if tx.PurgeTx? {
      PurgedHistory(db, tx.now, k);
    } else if tx.ReprintTx? && Commit(db, tx).Ok? {
      hide NewRow, After;
      var added := ReprintEffect(db, tx);
      var f := (r: Run) => NewRow(db, tx, r);
      RunsOfConcat(MapRows(f, db.runs), added, k);
      UpdatedRowsKeepTriggers(db, tx, k);
      ReprintsConcat(MapRows(f, RunsOf(db.runs, k)), RunsOf(added, k));
      ReprintedRowsCounted(db.lastSequence, tx.uid, tx.request, tx.reprints, added, k);
    } else {
      hide NewRow, After;
      var added := HistoryEffect(db, tx, k);
      UpdatedRowsKeepTriggers(db, tx, k);
      NotGranted(db, tx, added);
      ReprintsConcat(MapRows(r => NewRow(db, tx, r), RunsOf(db.runs, k)), added);
    }
  }

  lemma NotGranted(db: Db, tx: Tx, added: seq<Run>)
    requires tx.ReprintTx? ==> Commit(db, tx).Err?
    requires forall a | a in added :: Fresh(db, tx, a)
    requires added != [] ==> Commit(db, tx).Ok?
    ensures Reprints(added) == 0
  {
    NoReprints(added);
  }
}
