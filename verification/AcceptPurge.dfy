// Acceptance and retention keep the database invariant, and with the other transactions so
// does every sequence of them.
module AcceptPurge {
  import opened Domain
  import opened Tables
  import opened Schema
  import opened Transactions
  import opened History
  import opened Invariant
  import opened Preservation

  // ---- acceptance ----

  function KeySet(uid: Uid, slots: seq<Slot>): set<Key> {
    set i | 0 <= i < |slots| :: Key(uid, slots[i].printer)
  }

  // Midway through InsertJob: the targets in `waiting` have no run yet.
  ghost predicate Inserting(db: Db, waiting: set<Key>) {
    && TablesOk(db)
    && HistoriesOk(db.runs, db.targets, waiting)
    && DedupOk(db.runs, db.targets, db.jobs.Keys, db.dedup, map[])
    && forall k | k in waiting :: k in db.targets && !Cancelled?(db.targets, k)
  }

  lemma InsertJobRowKeeps(db: Db, uid: Uid, job: Job)
    requires Valid(db) && InsertJobRow(db, uid, job).Ok?
    ensures Inserting(InsertJobRow(db, uid, job).value, {})
  {
    assert UniqueIdentities(db.jobs[uid := job]);
  }

  lemma NewTargetKeepsTables(db: Db, t: NewTarget)
    requires TablesOk(db) && t.key !in db.targets && t.key.job in db.jobs
    ensures TablesOk(db.(targets := db.targets[t.key := t.target]))
    ensures RunsOf(db.runs, t.key) == []
  {
    NoRunsOf(db.runs, t.key);
  }

  lemma NewTargetKeepsHistories(rows: seq<Run>, targets: map<Key, Target>, t: NewTarget, waiting: set<Key>)
    requires HistoriesOk(rows, targets, waiting) && t.key !in targets && RunsOf(rows, t.key) == []
    ensures HistoriesOk(rows, targets[t.key := t.target], waiting + {t.key})
  {
  }

  lemma NewTargetKeepsDedup(rows: seq<Run>, targets: map<Key, Target>, jobs: set<Uid>,
                            dedup: map<RequestKey, ReprintDigest>, t: NewTarget)
    requires DedupOk(rows, targets, jobs, dedup, map[])
    ensures DedupOk(rows, targets[t.key := t.target], jobs, dedup, map[])
  {
  }

  lemma InsertTargetKeeps(db: Db, t: NewTarget, waiting: set<Key>)
    requires Inserting(db, waiting) && InsertTarget(db, t).Ok? && t.target.cancelledAt.None?
    ensures Inserting(InsertTarget(db, t).value, waiting + {t.key})
  {
    NewTargetKeepsTables(db, t);
    NewTargetKeepsHistories(db.runs, db.targets, t, waiting);
    NewTargetKeepsDedup(db.runs, db.targets, db.jobs.Keys, db.dedup, t);
  }

  lemma {:induction false} InsertTargetsKeep(db: Db, uid: Uid, slots: seq<Slot>, order: nat, waiting: set<Key>)
    requires Inserting(db, waiting) && InsertTargets(db, AcceptedTargets(uid, slots, order)).Ok?
    ensures Inserting(InsertTargets(db, AcceptedTargets(uid, slots, order)).value, waiting + KeySet(uid, slots))
    decreases |slots|
  {
    if slots == [] {
      assert waiting + KeySet(uid, slots) == waiting;
    } else {
      var t := AcceptedTargets(uid, slots, order)[0];
      InsertTargetKeeps(db, t, waiting);
      InsertTargetsKeep(InsertTarget(db, t).value, uid, slots[1..], order + 1, waiting + {t.key});
      FirstKey(uid, slots);
      assert waiting + {t.key} + KeySet(uid, slots[1..]) == waiting + KeySet(uid, slots);
    }
  }

  lemma FirstKey(uid: Uid, slots: seq<Slot>)
    requires slots != []
    ensures KeySet(uid, slots) == {Key(uid, slots[0].printer)} + KeySet(uid, slots[1..])
  {
    forall k | k in KeySet(uid, slots) ensures k in {Key(uid, slots[0].printer)} + KeySet(uid, slots[1..]) {
      var i :| 0 <= i < |slots| && k == Key(uid, slots[i].printer);
      assert i > 0 ==> slots[1..][i - 1] == slots[i];
    }
    forall k | k in KeySet(uid, slots[1..]) ensures k in KeySet(uid, slots) {
      var i :| 0 <= i < |slots| - 1 && k == Key(uid, slots[1..][i].printer);
      assert slots[1..][i] == slots[i + 1];
    }
  }

  ghost predicate FirstRun(r: Run) {
    && r.number == 1 && r.trigger == Initial && r.request.None? && RowSound(r)
    && r.status == Queued && !r.retryable && r.resolution == Unresolved
  }

  lemma FirstHistory(r: Run)
    requires FirstRun(r)
    ensures HistoryOk([r], false)
  {
  }

  lemma FirstRunHistories(rows: seq<Run>, targets: map<Key, Target>, waiting: set<Key>, r: Run)
    requires HistoriesOk(rows, targets, waiting) && FirstRun(r)
    requires r.key in targets && r.key in waiting && !Cancelled?(targets, r.key)
    ensures HistoriesOk(rows + [r], targets, waiting - {r.key})
  {
    hide HistoryOk, RunsOf, FirstRun;
    FirstHistory(r);
    forall k | k in targets
      ensures if k in waiting - {r.key} then RunsOf(rows + [r], k) == []
              else HistoryOk(RunsOf(rows + [r], k), Cancelled?(targets, k))
    {
      RunsOfAppended(rows, r, k);
      assert k == r.key ==> RunsOf(rows + [r], k) == [r];
    }
  }

  lemma FirstRunDedup(rows: seq<Run>, targets: map<Key, Target>, jobs: set<Uid>,
                      dedup: map<RequestKey, ReprintDigest>, r: Run)
    requires DedupOk(rows, targets, jobs, dedup, map[]) && r.request.None?
    ensures DedupOk(rows + [r], targets, jobs, dedup, map[])
  {
    forall k, request ensures RequestCount(RunsOf(rows + [r], k), request) == RequestCount(RunsOf(rows, k), request) {
      RunsOfAppended(rows, r, k);
      RequestCountAppend(RunsOf(rows, k), r, request);
    }
  }

  lemma InitialExists(rows: seq<Run>, k: Key, cancelled: bool)
    requires HistoryOk(RunsOf(rows, k), cancelled)
    ensures exists r :: r in rows && r.key == k && r.trigger == Initial
  {
    InRunsOf(rows, k);
    assert RunsOf(rows, k)[0] in RunsOf(rows, k);
  }

  lemma InsertRunEffect(db: Db, r: Run)
    requires InsertRun(db, r).Ok?
    ensures InsertRun(db, r).value
         == db.(runs := db.runs + [r.(sequence := db.lastSequence + 1)], lastSequence := db.lastSequence + 1)
    ensures r.key in db.targets && forall x | x in db.runs :: x.uid != r.uid
    ensures r.trigger == Initial ==> forall x | x in db.runs && x.key == r.key :: x.trigger != Initial
  {
  }

  // A target that is no longer waiting already has an initial run, so a second is refused.
  lemma FirstRunIsAwaited(db: Db, waiting: set<Key>, r: Run)
    requires HistoriesOk(db.runs, db.targets, waiting)
    requires r.trigger == Initial && InsertRun(db, r).Ok?
    ensures r.key in waiting && r.key in db.targets
  {
    InsertRunEffect(db, r);
    if r.key !in waiting {
      InitialExists(db.runs, r.key, Cancelled?(db.targets, r.key));
    }
  }

  lemma FirstRunKeepsTables(db: Db, r: Run)
    requires TablesOk(db) && InsertRun(db, r).Ok?
    ensures TablesOk(InsertRun(db, r).value)
  {
    InsertRunEffect(db, r);
    AppendKeepsRows(db.runs, db.targets, db.lastSequence, r.(sequence := db.lastSequence + 1));
  }

  lemma InsertFirstRunKeeps(db: Db, waiting: set<Key>, r: Run)
    requires Inserting(db, waiting)
    requires FirstRun(r) && InsertRun(db, r).Ok?
    ensures r.key in waiting && Inserting(InsertRun(db, r).value, waiting - {r.key})
  {
    var row := r.(sequence := db.lastSequence + 1);
    FirstRunIsAwaited(db, waiting, r);
    InsertRunEffect(db, r);
    FirstRunKeepsTables(db, r);
    FirstRunHistories(db.runs, db.targets, waiting, row);
    FirstRunDedup(db.runs, db.targets, db.jobs.Keys, db.dedup, row);
  }

  lemma {:induction false} InsertRunsKeep(db: Db, uid: Uid, slots: seq<Slot>, now: Stamp, waiting: set<Key>)
    requires Inserting(db, waiting) && waiting <= KeySet(uid, slots)
    requires InsertRuns(db, AcceptedRuns(uid, slots, now)).Ok?
    ensures Inserting(InsertRuns(db, AcceptedRuns(uid, slots, now)).value, {})
    decreases |slots|
  {
    hide Inserting, InsertRun;
    if slots == [] {
      assert waiting == {};
    } else {
      var r := AcceptedRuns(uid, slots, now)[0];
      InsertFirstRunKeeps(db, waiting, r);
      FirstKey(uid, slots);
      InsertRunsKeep(InsertRun(db, r).value, uid, slots[1..], now, waiting - {r.key});
    }
  }

  lemma AcceptKeepsValid(db: Db, uid: Uid, job: Job, slots: seq<Slot>, now: Stamp)
    requires Valid(db)
    requires InsertJob(db, uid, job, AcceptedTargets(uid, slots, 0), AcceptedRuns(uid, slots, now)).Ok?
    ensures Valid(InsertJob(db, uid, job, AcceptedTargets(uid, slots, 0), AcceptedRuns(uid, slots, now)).value)
  {
    InsertJobRowKeeps(db, uid, job);
    var withJob := InsertJobRow(db, uid, job).value;
    InsertTargetsKeep(withJob, uid, slots, 0, {});
    var withTargets := InsertTargets(withJob, AcceptedTargets(uid, slots, 0)).value;
    assert {} + KeySet(uid, slots) == KeySet(uid, slots);
    InsertRunsKeep(withTargets, uid, slots, now, KeySet(uid, slots));
  }

  // ---- retention ----

  lemma PurgeKeepsRows(rows: seq<Run>, targets: map<Key, Target>, targets': map<Key, Target>, last: nat, gone: set<Uid>)
    requires RowsOk(rows, targets, last)
    requires forall k | k in targets && k.job !in gone :: k in targets'
    ensures RowsOk(WithoutJobs(rows, gone), targets', last)
  {
    InWithoutJobs(rows, gone);
    WithoutJobsSorted(rows, gone);
  }

  lemma PurgeKeepsHistories(rows: seq<Run>, targets: map<Key, Target>, targets': map<Key, Target>, gone: set<Uid>)
    requires HistoriesOk(rows, targets, {})
    requires forall k | k in targets' :: k in targets && k.job !in gone && targets'[k] == targets[k]
    ensures HistoriesOk(WithoutJobs(rows, gone), targets', {})
  {
    forall k | k in targets' ensures RunsOf(WithoutJobs(rows, gone), k) == RunsOf(rows, k) {
      RunsOfWithoutJobs(rows, gone, k);
    }
  }

  lemma PurgeKeepsDedup(rows: seq<Run>, targets: map<Key, Target>, targets': map<Key, Target>, jobs: set<Uid>,
                        dedup: map<RequestKey, ReprintDigest>, dedup': map<RequestKey, ReprintDigest>, gone: set<Uid>)
    requires DedupOk(rows, targets, jobs, dedup, map[])
    requires forall k | k in targets && k.job !in gone :: k in targets'
    requires forall q :: q in dedup' <==> q in dedup && q.job !in gone
    requires forall q | q in dedup' :: dedup'[q] == dedup[q]
    ensures DedupOk(WithoutJobs(rows, gone), targets', jobs - gone, dedup', map[])
  {
    forall k, request
      ensures RequestCount(RunsOf(WithoutJobs(rows, gone), k), request) == Named(dedup', k, request)
    {
      RunsOfWithoutJobs(rows, gone, k);
      assert RequestCount(RunsOf(rows, k), request) == Named(dedup, k, request);
    }
  }

  lemma PurgeKeepsValid(db: Db, now: Stamp)
    requires Valid(db)
    ensures Valid(Purge(db, now))
  {
    var gone := PurgeableJobs(db, now);
    var db' := Purge(db, now);
    PurgeKeepsRows(db.runs, db.targets, db'.targets, db.lastSequence, gone);
    PurgeKeepsHistories(db.runs, db.targets, db'.targets, gone);
    PurgeKeepsDedup(db.runs, db.targets, db'.targets, db.jobs.Keys, db.dedup, db'.dedup, gone);
    assert db'.jobs.Keys == db.jobs.Keys - gone;
  }

  // ---- every transaction, every history ----

  lemma CancelTargetsKeepValid(db: Db, job: Uid, printers: seq<PrinterId>, now: Stamp)
    requires Valid(db) && CancelTargets(db, job, printers, now).Ok?
    ensures Valid(CancelTargets(db, job, printers, now).value)
  {
    CancelEachKeepsValid(db, job, printers, now);
    TouchKeepsValid(CancelEach(db, job, printers, now).value, job, now);
  }

  lemma CommitKeepsValid(db: Db, tx: Tx)
    requires Valid(db)
    ensures Valid(After(db, tx))
  {
    if Commit(db, tx).Ok? {
      match tx
      case AcceptTx(uid, job, slots, now) => AcceptKeepsValid(db, uid, job, slots, now);
      case ClaimTx(p, now) => ClaimKeepsValid(db, p, now);
      case MarkTx(uid, o, now) => MarkKeepsValid(db, uid, o, now);
      case CancelRunTx(uid, now) => CancelRunKeepsValid(db, uid, now);
      case CancelTargetsTx(job, printers, now) => CancelTargetsKeepValid(db, job, printers, now);
      case ConfirmTx(uid, now) => ConfirmKeepsValid(db, uid, now);
      case ReprintTx(job, request, reason, slots, now) => ReprintKeepsValid(db, job, request, reason, slots, now);
      case RetryTx(uid, newUid, hash, now) => RetryKeepsValid(db, uid, newUid, hash, now, After(db, tx));
      case RecoverTx(now) => RecoverKeepsValid(db, now);
      case PurgeTx(now) => PurgeKeepsValid(db, now);
    }
  }

  function Replay(db: Db, txs: seq<Tx>): Db
    decreases |txs|
  {
    if txs == [] then db else Replay(After(db, txs[0]), txs[1..])
  }

  // Retention takes the job at no point of the run.
  ghost predicate KeepsJob(db: Db, txs: seq<Tx>, job: Uid)
    decreases |txs|
  {
    job in db.jobs && (txs == [] || KeepsJob(After(db, txs[0]), txs[1..], job))
  }

  // From the empty database the invariant holds after every sequence of transactions; a crash
  // and restart is the end of one worker's transactions followed by RecoverTx.
  lemma {:induction false} ReplayKeepsValid(db: Db, txs: seq<Tx>)
    requires Valid(db)
    ensures Valid(Replay(db, txs))
    decreases |txs|
  {
    if txs != [] {
      CommitKeepsValid(db, txs[0]);
      ReplayKeepsValid(After(db, txs[0]), txs[1..]);
    }
  }

  lemma EmptyIsValid()
    ensures Valid(EmptyDb)
  {
    forall k, request ensures RequestCount(RunsOf(EmptyDb.runs, k), request) == Named(EmptyDb.dedup, k, request) {
      assert RunsOf([], k) == [];
    }
  }
}
