// Every transaction keeps the database invariant, so every sequence of transactions does.
module Preservation {
  import opened Domain
  import opened Tables
  import opened Schema
  import opened Transactions
  import opened History
  import opened Invariant

  datatype Tx =
    | AcceptTx(uid: Uid, job: Job, slots: seq<Slot>, now: Stamp)
    | ClaimTx(printer: PrinterId, now: Stamp)
    | MarkTx(run: Uid, outcome: Outcome, now: Stamp)
    | CancelRunTx(run: Uid, now: Stamp)
    | CancelTargetsTx(uid: Uid, printers: seq<PrinterId>, now: Stamp)
    | ConfirmTx(run: Uid, now: Stamp)
    | ReprintTx(uid: Uid, request: RequestId, reason: string, reprints: seq<ReprintSlot>, now: Stamp)
    | RetryTx(run: Uid, newRun: Uid, hash: Option<ContentHash>, now: Stamp)
    | RecoverTx(now: Stamp)
    | PurgeTx(now: Stamp)

  function SlotPrinters(slots: seq<ReprintSlot>): seq<PrinterId> {
    seq(|slots|, i requires 0 <= i < |slots| => slots[i].printer)
  }

  // The random run ids a transaction brings along.
  function NewIds(tx: Tx): set<Uid> {
    match tx
    case AcceptTx(_, _, slots, _) => set i | 0 <= i < |slots| :: slots[i].run
    case ReprintTx(_, _, _, slots, _) => set i | 0 <= i < |slots| :: slots[i].run
    case RetryTx(_, newRun, _, _) => {newRun}
    case _ => {}
  }

  // The printers an acceptance or reprint puts work on.
  function WorkFor(tx: Tx): set<PrinterId> {
    match tx
    case AcceptTx(_, _, slots, _) => set i | 0 <= i < |slots| :: slots[i].printer
    case ReprintTx(_, _, _, slots, _) => set i | 0 <= i < |slots| :: slots[i].printer
    case _ => {}
  }

  function Commit(db: Db, tx: Tx): Reply<Db> {
    match tx
    case AcceptTx(uid, job, slots, now) =>
      InsertJob(db, uid, job, AcceptedTargets(uid, slots, 0), AcceptedRuns(uid, slots, now))
    case ClaimTx(p, now) =>
      (match Claim(db, p, now) case Ok((db', r)) => Ok(db') case Err(e) => Err(e))
    case MarkTx(uid, o, now) => Mark(db, uid, o, now)
    case CancelRunTx(uid, now) => CancelRun(db, uid, now)
    case CancelTargetsTx(job, printers, now) => CancelTargets(db, job, printers, now)
    case ConfirmTx(uid, now) => ResolveUncertain(db, uid, ConfirmedPrinted, now)
    case ReprintTx(job, request, reason, slots, now) =>
      InsertManualReprints(db, job, request, ReprintDigest(SlotPrinters(slots), reason), slots, now)
    case RetryTx(uid, newUid, hash, now) =>
      (match Retry(db, uid, MaxAutomaticRetries, newUid, hash, now) case Ok((db', r)) => Ok(db') case Err(e) => Err(e))
    case RecoverTx(now) => Ok(RecoverAbandoned(db, now))
    case PurgeTx(now) => Ok(Purge(db, now))
  }

  // The database after a transaction: unchanged when it failed.
  function After(db: Db, tx: Tx): Db {
    match Commit(db, tx) case Ok(db') => db' case Err(_) => db
  }

  // ---- single-statement updates ----

  lemma SameSequence(rows: seq<Run>, a: Run, b: Run)
    requires Sorted(rows) && a in rows && b in rows && a.sequence == b.sequence
    ensures a == b
  {
  }

  lemma ClaimSound(rows: seq<Run>, targets: map<Key, Target>, q: Run, now: Stamp)
    requires Sorted(rows) && q in rows && q.status == Queued
    ensures SoundEverywhere(r => Claimed(r, q.sequence, now), rows, targets, targets)
  {
    forall r | r in rows && r.sequence == q.sequence ensures r == q {
      SameSequence(rows, r, q);
    }
  }

  // ORDER BY queue_sequence LIMIT 1
  lemma NextIsFirst(rows: seq<Run>, p: PrinterId, r: Run)
    requires Sorted(rows) && r in rows && r.key.printer == p && r.status == Queued
    ensures NextQueued(rows, p).Some? && NextQueued(rows, p).value.sequence <= r.sequence
  {
    if rows[0] != r {
      var i :| 0 <= i < |rows| && rows[i] == r;
      assert rows[1..][i - 1] == r;
      if rows[0].key.printer != p || rows[0].status != Queued {
        NextIsFirst(rows[1..], p, r);
      }
    }
  }

  lemma ClaimKeepsValid(db: Db, p: PrinterId, now: Stamp)
    requires Valid(db) && Claim(db, p, now).Ok?
    ensures Valid(Claim(db, p, now).value.0)
  {
    var q := NextQueued(db.runs, p).value;
    ClaimSound(db.runs, db.targets, q, now);
    UpdateKeepsValid(r => Claimed(r, q.sequence, now), db, Claim(db, p, now).value.0);
  }

  lemma MarkSound(rows: seq<Run>, targets: map<Key, Target>, uid: Uid, o: Outcome, now: Stamp)
    ensures SoundEverywhere(r => Marked(r, uid, o, now), rows, targets, targets)
  {
  }

  lemma MarkKeepsValid(db: Db, uid: Uid, o: Outcome, now: Stamp)
    requires Valid(db) && Mark(db, uid, o, now).Ok?
    ensures Valid(Mark(db, uid, o, now).value)
  {
    var db' := db.(runs := MarkedRows(db.runs, uid, o, now));
    MarkSound(db.runs, db.targets, uid, o, now);
    UpdateKeepsValid(r => Marked(r, uid, o, now), db, db');
    TouchKeepsValid(db', Lookup(db.runs, uid).value.key.job, now);
  }

  lemma WithdrawSound(rows: seq<Run>, targets: map<Key, Target>, uid: Uid, now: Stamp)
    ensures SoundEverywhere(r => Withdrawn(r, uid, now), rows, targets, targets)
  {
  }

  lemma CancelRunKeepsValid(db: Db, uid: Uid, now: Stamp)
    requires Valid(db) && CancelRun(db, uid, now).Ok?
    ensures Valid(CancelRun(db, uid, now).value)
  {
    var db' := db.(runs := WithdrawnRows(db.runs, uid, now));
    WithdrawSound(db.runs, db.targets, uid, now);
    UpdateKeepsValid(r => Withdrawn(r, uid, now), db, db');
    TouchKeepsValid(db', Lookup(db.runs, uid).value.key.job, now);
  }

  lemma ConfirmSound(rows: seq<Run>, targets: map<Key, Target>, uid: Uid, now: Stamp)
    ensures SoundEverywhere(r => Resolved(r, uid, ConfirmedPrinted, now), rows, targets, targets)
  {
  }

  lemma ConfirmKeepsValid(db: Db, uid: Uid, now: Stamp)
    requires Valid(db) && ResolveUncertain(db, uid, ConfirmedPrinted, now).Ok?
    ensures Valid(ResolveUncertain(db, uid, ConfirmedPrinted, now).value)
  {
    var db' := db.(runs := ResolvedRows(db.runs, uid, ConfirmedPrinted, now));
    ConfirmSound(db.runs, db.targets, uid, now);
    UpdateKeepsValid(r => Resolved(r, uid, ConfirmedPrinted, now), db, db');
    TouchKeepsValid(db', Lookup(db.runs, uid).value.key.job, now);
  }

  lemma RecoverSound(rows: seq<Run>, targets: map<Key, Target>, now: Stamp)
    ensures SoundEverywhere(r => Abandoned(r, now), rows, targets, targets)
  {
  }

  lemma RecoverKeepsValid(db: Db, now: Stamp)
    requires Valid(db)
    ensures Valid(RecoverAbandoned(db, now))
  {
    RecoverSound(db.runs, db.targets, now);
    UpdateKeepsValid(r => Abandoned(r, now), db, RecoverAbandoned(db, now));
  }

  lemma DropSound(rows: seq<Run>, targets: map<Key, Target>, targets': map<Key, Target>, k: Key, now: Stamp)
    requires k in targets && targets' == targets[k := targets[k].(cancelledAt := Some(now))]
    requires forall r | r in rows && r.key == k :: r.status != Processing
    ensures SoundEverywhere(r => Dropped(r, k, now), rows, targets, targets')
  {
  }

  lemma CancelTargetKeepsValid(db: Db, k: Key, now: Stamp)
    requires Valid(db) && CancelTarget(db, k, now).Ok?
    ensures Valid(CancelTarget(db, k, now).value)
  {
    var db' := CancelTarget(db, k, now).value;
    DropSound(db.runs, db.targets, db'.targets, k, now);
    UpdateKeepsValid(r => Dropped(r, k, now), db, db');
  }

  lemma {:induction false} CancelEachKeepsValid(db: Db, job: Uid, printers: seq<PrinterId>, now: Stamp)
    requires Valid(db) && CancelEach(db, job, printers, now).Ok?
    ensures Valid(CancelEach(db, job, printers, now).value)
    decreases |printers|
  {
    if printers != [] {
      var k := Key(job, printers[0]);
      CancelTargetKeepsValid(db, k, now);
      CancelEachKeepsValid(CancelTarget(db, k, now).value, job, printers[1..], now);
    }
  }

  // ---- manual reprints ----

  lemma ReprintHistory(h: seq<Run>, h': seq<Run>, cancelled: bool, k: Key, run: Run, now: Stamp)
    requires HistoryOk(h, cancelled)
    requires forall i | 0 <= i < |h| :: h[i].key == k && !Active(h[i])
    requires |h'| == |h| && forall i | 0 <= i < |h| :: h'[i] == Superseded(h[i], k, now)
    requires run.number == |h| + 1 && run.trigger == ManualReprint && run.status == Queued && RowSound(run)
    requires run.reprintOf == Some(h[0].uid)
    ensures HistoryOk(h' + [run], false)
  {
    ChainKept(h, h');
    forall i | 0 <= i < |h| ensures Settled(h'[i]) {
      assert i < |h| - 1 ==> Settled(h[i]);
    }
    FailuresAppend(h', run);
    AppendKeepsHistory(h', run, false);
  }

  lemma SupersedeRuns(rows: seq<Run>, k: Key, run: Run, now: Stamp, k': Key)
    requires run.key == k && run.status == Queued
    ensures RunsOf(SupersededRows(rows + [run], k, now), k')
         == if k' == k then MapRows(r => Superseded(r, k, now), RunsOf(rows, k)) + [run] else RunsOf(rows, k')
  {
    hide RunsOf;
    var f := (r: Run) => Superseded(r, k, now);
    RunsOfMapped(f, rows + [run], k');
    RunsOfAppended(rows, run, k');
    InRunsOf(rows, k');
    var h := RunsOf(rows, k');
    if k' == k {
      assert MapRows(f, h + [run]) == MapRows(f, h) + [run];
    } else {
      OthersUnsuperseded(h, k, now);
    }
  }

  lemma OthersUnsuperseded(h: seq<Run>, k: Key, now: Stamp)
    requires forall r | r in h :: r.key != k
    ensures MapRows(r => Superseded(r, k, now), h) == h
  {
    assert forall i | 0 <= i < |h| :: h[i] in h;
  }

  lemma ReprintKeepsItsHistory(rows: seq<Run>, k: Key, cancelled: bool, run: Run, now: Stamp)
    requires HistoryOk(RunsOf(rows, k), cancelled)
    requires forall r | r in rows && r.key == k :: !Active(r)
    requires run.key == k && run.status == Queued && run.trigger == ManualReprint && RowSound(run)
    requires run.number == MaxNumber(rows, k) + 1 && run.reprintOf == InitialRun(rows, k)
    ensures HistoryOk(RunsOf(SupersededRows(rows + [run], k, now), k), false)
  {
    SupersedeRuns(rows, k, run, now, k);
    SelectedFromHistory(rows, k, cancelled);
    InRunsOf(rows, k);
    var h := RunsOf(rows, k);
    assert forall i | 0 <= i < |h| :: h[i] in h;
    ReprintHistory(h, MapRows(r => Superseded(r, k, now), h), cancelled, k, run, now);
  }

  lemma ReprintKeepsHistories(rows: seq<Run>, targets: map<Key, Target>, targets': map<Key, Target>,
                              k: Key, run: Run, now: Stamp)
    requires HistoriesOk(rows, targets, {}) && k in targets
    requires targets' == targets[k := targets[k].(cancelledAt := None)]
    requires run.key == k && run.status == Queued
    requires HistoryOk(RunsOf(SupersededRows(rows + [run], k, now), k), false)
    ensures HistoriesOk(SupersededRows(rows + [run], k, now), targets', {})
  {
    hide RunsOf, SupersededRows, HistoryOk;
    forall k' | k' in targets' && k' != k
      ensures k' in targets && RunsOf(SupersededRows(rows + [run], k, now), k') == RunsOf(rows, k')
    {
      SupersedeRuns(rows, k, run, now, k');
    }
  }

  lemma ReprintCounts(rows: seq<Run>, k: Key, run: Run, now: Stamp, k': Key, request: RequestId)
    requires run.key == k && run.status == Queued
    ensures RequestCount(RunsOf(SupersededRows(rows + [run], k, now), k'), request)
         == RequestCount(RunsOf(rows, k'), request)
            + (if k' == k && run.request == Some(request) then 1 else 0)
  {
    SupersedeRuns(rows, k, run, now, k');
    if k' == k {
      var h := RunsOf(rows, k);
      var h' := MapRows(r => Superseded(r, k, now), h);
      RequestCountSame(h, h', request);
      RequestCountAppend(h', run, request);
    }
  }

  lemma ReprintKeepsDedup(rows: seq<Run>, targets: map<Key, Target>, jobs: set<Uid>,
                          dedup: map<RequestKey, ReprintDigest>, id: RequestKey,
                          left: set<PrinterId>, k: Key, run: Run, now: Stamp)
    requires DedupOk(rows, targets, jobs, dedup, map[id := left])
    requires id in dedup && k in targets && k.job == id.job && k.printer in left && k.printer in dedup[id].printers
    requires run.key == k && run.status == Queued && run.request == Some(id.request)
    ensures DedupOk(SupersededRows(rows + [run], k, now), targets, jobs, dedup, map[id := left - {k.printer}])
  {
    var rows' := SupersededRows(rows + [run], k, now);
    forall k', request
      ensures RequestCount(RunsOf(rows', k'), request)
           == if Pending(map[id := left - {k.printer}], k', request) then 0 else Named(dedup, k', request)
    {
      ReprintCounts(rows, k, run, now, k', request);
      assert k' == Key(k'.job, k'.printer) && k == Key(k.job, k.printer);
    }
  }

  // Inside the transaction the dedup row is there before the runs are.
  ghost predicate ValidInside(db: Db, pending: map<RequestKey, set<PrinterId>>) {
    && TablesOk(db)
    && HistoriesOk(db.runs, db.targets, {})
    && DedupOk(db.runs, db.targets, db.jobs.Keys, db.dedup, pending)
  }

  lemma SupersededRowsOk(rows: seq<Run>, targets: map<Key, Target>, targets': map<Key, Target>, last: nat,
                         k: Key, run: Run, now: Stamp)
    requires RowsOk(rows, targets, last) && run.key in targets && run.sequence == last + 1
    requires forall x | x in rows :: x.uid != run.uid
    requires targets'.Keys == targets.Keys
    ensures RowsOk(SupersededRows(rows + [run], k, now), targets', last + 1)
  {
    AppendKeepsRows(rows, targets, last, run);
    UpdateKeepsRows(r => Superseded(r, k, now), rows + [run], targets, targets', last + 1);
  }

  // The run that ReprintTarget inserts.
  function ReprintRun(db: Db, id: RequestKey, s: ReprintSlot, now: Stamp): Run {
    var k := Key(id.job, s.printer);
    NewRun(s.run, k, MaxNumber(db.runs, k) + 1, ManualReprint, Reprint, None, InitialRun(db.runs, k),
           Some(id.request), if s.hash.Some? then s.hash.value else 0, now).(sequence := db.lastSequence + 1)
  }

  lemma ReprintTargetEffect(db: Db, id: RequestKey, s: ReprintSlot, now: Stamp)
    requires ReprintTarget(db, id.job, id.request, s, now).Ok?
    ensures var k := Key(id.job, s.printer);
            var run := ReprintRun(db, id, s, now);
            && k in db.targets
            && ReprintTarget(db, id.job, id.request, s, now).value
               == db.(runs := SupersededRows(db.runs + [run], k, now), lastSequence := db.lastSequence + 1,
                      targets := db.targets[k := db.targets[k].(cancelledAt := None)])
            && RowSound(run)
            && (forall r | r in db.runs && r.key == k :: !Active(r))
            && (forall x | x in db.runs :: x.uid != run.uid)
  {
  }

  lemma DedupTargets(rows: seq<Run>, targets: map<Key, Target>, targets': map<Key, Target>, jobs: set<Uid>,
                     dedup: map<RequestKey, ReprintDigest>, pending: map<RequestKey, set<PrinterId>>)
    requires DedupOk(rows, targets, jobs, dedup, pending) && targets'.Keys == targets.Keys
    ensures DedupOk(rows, targets', jobs, dedup, pending)
  {
    forall k | k in targets ensures k in targets' {
      assert k in targets.Keys;
    }
  }

  lemma ReprintTargetKeepsTables(db: Db, id: RequestKey, s: ReprintSlot, now: Stamp)
    requires TablesOk(db) && ReprintTarget(db, id.job, id.request, s, now).Ok?
    ensures TablesOk(ReprintTarget(db, id.job, id.request, s, now).value)
  {
    var k := Key(id.job, s.printer);
    var db' := ReprintTarget(db, id.job, id.request, s, now).value;
    ReprintTargetEffect(db, id, s, now);
    SupersededRowsOk(db.runs, db.targets, db'.targets, db.lastSequence, k, ReprintRun(db, id, s, now), now);
  }

  lemma ReprintTargetKeepsHistories(db: Db, id: RequestKey, s: ReprintSlot, now: Stamp)
    requires HistoriesOk(db.runs, db.targets, {}) && ReprintTarget(db, id.job, id.request, s, now).Ok?
    ensures var db' := ReprintTarget(db, id.job, id.request, s, now).value;
            HistoriesOk(db'.runs, db'.targets, {})
  {
    var k := Key(id.job, s.printer);
    var run := ReprintRun(db, id, s, now);
    ReprintTargetEffect(db, id, s, now);
    ReprintKeepsItsHistory(db.runs, k, Cancelled?(db.targets, k), run, now);
    ReprintKeepsHistories(db.runs, db.targets, db.targets[k := db.targets[k].(cancelledAt := None)], k, run, now);
  }

  lemma ReprintTargetKeepsDedup(db: Db, id: RequestKey, left: set<PrinterId>, s: ReprintSlot, now: Stamp)
    requires DedupOk(db.runs, db.targets, db.jobs.Keys, db.dedup, map[id := left])
    requires id in db.dedup && s.printer in left && s.printer in db.dedup[id].printers
    requires ReprintTarget(db, id.job, id.request, s, now).Ok?
    ensures var db' := ReprintTarget(db, id.job, id.request, s, now).value;
            DedupOk(db'.runs, db'.targets, db'.jobs.Keys, db'.dedup, map[id := left - {s.printer}])
  {
    var k := Key(id.job, s.printer);
    var db' := ReprintTarget(db, id.job, id.request, s, now).value;
    ReprintTargetEffect(db, id, s, now);
    ReprintKeepsDedup(db.runs, db.targets, db.jobs.Keys, db.dedup, id, left, k, ReprintRun(db, id, s, now), now);
    DedupTargets(db'.runs, db.targets, db'.targets, db.jobs.Keys, db.dedup, map[id := left - {s.printer}]);
  }

  lemma ReprintTargetKeeps(db: Db, id: RequestKey, left: set<PrinterId>, s: ReprintSlot, now: Stamp)
    requires ValidInside(db, map[id := left])
    requires id in db.dedup && s.printer in left && s.printer in db.dedup[id].printers
    requires ReprintTarget(db, id.job, id.request, s, now).Ok?
    ensures ValidInside(ReprintTarget(db, id.job, id.request, s, now).value, map[id := left - {s.printer}])
  {
    ReprintTargetKeepsTables(db, id, s, now);
    ReprintTargetKeepsHistories(db, id, s, now);
    ReprintTargetKeepsDedup(db, id, left, s, now);
  }

  // ---- the whole reprint transaction ----

  function SlotSet(slots: seq<ReprintSlot>): set<PrinterId> {
    set i | 0 <= i < |slots| :: slots[i].printer
  }

  // A printer named twice is refused the second time, because its first run is still queued.
  lemma ReprintedIsActive(db: Db, id: RequestKey, s: ReprintSlot, now: Stamp)
    requires ReprintTarget(db, id.job, id.request, s, now).Ok?
    ensures exists r :: r in ReprintTarget(db, id.job, id.request, s, now).value.runs
                        && r.key == Key(id.job, s.printer) && Active(r)
  {
    var k := Key(id.job, s.printer);
    var run := ReprintRun(db, id, s, now);
    ReprintTargetEffect(db, id, s, now);
    MappedIn(r => Superseded(r, k, now), db.runs + [run], run);
  }

  lemma ActiveKept(db: Db, id: RequestKey, s: ReprintSlot, now: Stamp, r: Run)
    requires ReprintTarget(db, id.job, id.request, s, now).Ok?
    requires r in db.runs && Active(r)
    ensures r in ReprintTarget(db, id.job, id.request, s, now).value.runs
  {
    var k := Key(id.job, s.printer);
    var run := ReprintRun(db, id, s, now);
    ReprintTargetEffect(db, id, s, now);
    MappedIn(x => Superseded(x, k, now), db.runs + [run], r);
  }

  // Printers with a queued run are not among the slots of a reprint that succeeds.
  lemma {:induction false} ReprintEachSkipsActive(db: Db, id: RequestKey, slots: seq<ReprintSlot>, now: Stamp, r: Run)
    requires ReprintEach(db, id.job, id.request, slots, now).Ok?
    requires r in db.runs && Active(r) && r.key.job == id.job
    ensures r.key.printer !in SlotSet(slots)
    decreases |slots|
  {
    if slots != [] {
      ActiveKept(db, id, slots[0], now, r);
      ReprintEachSkipsActive(ReprintTarget(db, id.job, id.request, slots[0], now).value, id, slots[1..], now, r);
      assert r.key == Key(r.key.job, r.key.printer);
      forall i | 0 <= i < |slots| ensures slots[i].printer != r.key.printer {
        if i > 0 {
          assert slots[1..][i - 1] == slots[i];
        }
      }
    }
  }

  lemma {:induction false} ReprintEachKeeps(db: Db, id: RequestKey, slots: seq<ReprintSlot>, now: Stamp)
    requires ValidInside(db, map[id := SlotSet(slots)])
    requires id in db.dedup && forall p | p in SlotSet(slots) :: p in db.dedup[id].printers
    requires ReprintEach(db, id.job, id.request, slots, now).Ok?
    ensures ValidInside(ReprintEach(db, id.job, id.request, slots, now).value, map[id := {}])
    decreases |slots|
  {
    if slots == [] {
      assert SlotSet(slots) == {};
    } else {
      var s := slots[0];
      var db' := ReprintTarget(db, id.job, id.request, s, now).value;
      ReprintTargetKeeps(db, id, SlotSet(slots), s, now);
      ReprintTargetEffect(db, id, s, now);
      ReprintedIsActive(db, id, s, now);
      var r :| r in db'.runs && r.key == Key(id.job, s.printer) && Active(r);
      ReprintEachSkipsActive(db', id, slots[1..], now, r);
      RestOfSlots(slots);
      ReprintEachKeeps(db', id, slots[1..], now);
    }
  }

  lemma RestOfSlots(slots: seq<ReprintSlot>)
    requires slots != [] && slots[0].printer !in SlotSet(slots[1..])
    ensures SlotSet(slots) - {slots[0].printer} == SlotSet(slots[1..])
  {
    forall p | p in SlotSet(slots) - {slots[0].printer} ensures p in SlotSet(slots[1..]) {
      var i :| 0 <= i < |slots| && slots[i].printer == p;
      assert slots[1..][i - 1].printer == p;
    }
    forall p | p in SlotSet(slots[1..]) ensures p in SlotSet(slots) {
      var i :| 0 <= i < |slots[1..]| && slots[1..][i].printer == p;
      assert slots[i + 1].printer == p;
    }
  }

  lemma DedupOpened(rows: seq<Run>, targets: map<Key, Target>, jobs: set<Uid>, dedup: map<RequestKey, ReprintDigest>,
                    id: RequestKey, digest: ReprintDigest, left: set<PrinterId>)
    requires DedupOk(rows, targets, jobs, dedup, map[]) && id !in dedup && id.job in jobs
    requires forall p | p in digest.printers :: p in left
    ensures DedupOk(rows, targets, jobs, dedup[id := digest], map[id := left])
  {
    forall k, request
      ensures RequestCount(RunsOf(rows, k), request)
           == if Pending(map[id := left], k, request) then 0 else Named(dedup[id := digest], k, request)
    {
      assert RequestCount(RunsOf(rows, k), request) == Named(dedup, k, request);
    }
  }

  lemma DedupClosed(rows: seq<Run>, targets: map<Key, Target>, jobs: set<Uid>, dedup: map<RequestKey, ReprintDigest>,
                    id: RequestKey)
    requires DedupOk(rows, targets, jobs, dedup, map[id := {}])
    ensures DedupOk(rows, targets, jobs, dedup, map[])
  {
    forall k, request ensures RequestCount(RunsOf(rows, k), request) == Named(dedup, k, request) {
      assert !Pending(map[id := {}], k, request);
    }
    forall q, p | q in dedup && p in dedup[q].printers ensures Key(q.job, p) in targets {
      assert !Pending(map[id := {}], Key(q.job, p), q.request);
    }
  }

  lemma ReprintKeepsValid(db: Db, job: Uid, request: RequestId, reason: string, slots: seq<ReprintSlot>, now: Stamp)
    requires Valid(db)
    requires var digest := ReprintDigest(SlotPrinters(slots), reason);
             InsertManualReprints(db, job, request, digest, slots, now).Ok?
    ensures var digest := ReprintDigest(SlotPrinters(slots), reason);
            Valid(InsertManualReprints(db, job, request, digest, slots, now).value)
  {
    var id := RequestKey(job, request);
    var digest := ReprintDigest(SlotPrinters(slots), reason);
    forall p | p in digest.printers ensures p in SlotSet(slots) {
      var i :| 0 <= i < |slots| && SlotPrinters(slots)[i] == p;
    }
    forall p | p in SlotSet(slots) ensures p in digest.printers {
      var i :| 0 <= i < |slots| && slots[i].printer == p;
      assert SlotPrinters(slots)[i] == p;
    }
    DedupOpened(db.runs, db.targets, db.jobs.Keys, db.dedup, id, digest, SlotSet(slots));
    var started := db.(dedup := db.dedup[id := digest]);
    ReprintEachKeeps(started, id, slots, now);
    var done := ReprintEach(started, job, request, slots, now).value;
    DedupClosed(done.runs, done.targets, done.jobs.Keys, done.dedup, id);
    TouchKeepsValid(done, job, now);
  }

  // ---- automatic retries ----

  lemma SpendSound(rows: seq<Run>, targets: map<Key, Target>, uid: Uid)
    ensures SoundEverywhere(r => Spent(r, uid), rows, targets, targets)
  {
  }

  lemma GiveUpKeepsValid(db: Db, uid: Uid)
    requires Valid(db)
    ensures Valid(db.(runs := SpentRows(db.runs, uid)))
  {
    SpendSound(db.runs, db.targets, uid);
    UpdateKeepsValid(r => Spent(r, uid), db, db.(runs := SpentRows(db.runs, uid)));
  }

  predicate RetryRun(run: Run, previous: Run) {
    && run.key == previous.key && run.trigger == AutomaticRetry && run.mode == previous.mode
    && run.previous == Some(previous.uid) && run.request.None?
    && (run.status == Queued || run.status == Failed) && !run.retryable && run.resolution == Unresolved
    && run.startedAt.None? && run.bytesAccepted == 0
  }

  lemma RetryHistory(h: seq<Run>, h': seq<Run>, run: Run)
    requires HistoryOk(h, false) && RetryPending(h[|h| - 1]) && Depth(h, |h| - 1) < MaxAutomaticRetries
    requires |h'| == |h| && forall i | 0 <= i < |h| :: h'[i] == Spent(h[i], h[|h| - 1].uid)
    requires RetryRun(run, h[|h| - 1]) && run.number == |h| + 1 && RowSound(run)
    ensures HistoryOk(h' + [run], false)
  {
    ChainKept(h, h');
    DepthSame(h, h', |h| - 1);
    forall i | 0 <= i < |h| ensures Settled(h'[i]) {
      assert i < |h| - 1 ==> Settled(h[i]);
    }
    FailuresKept(h, h');
    FailuresAppend(h', run);
    AppendKeepsHistory(h', run, false);
  }

  lemma SpendRuns(rows: seq<Run>, uid: Uid, run: Run, k: Key)
    requires !run.retryable
    ensures RunsOf(SpentRows(rows + [run], uid), k)
         == MapRows(r => Spent(r, uid), RunsOf(rows, k)) + (if run.key == k then [run] else [])
  {
    var f := (r: Run) => Spent(r, uid);
    RunsOfMapped(f, rows + [run], k);
    RunsOfAppended(rows, run, k);
    var h := RunsOf(rows, k);
    if run.key == k {
      assert MapRows(f, h + [run]) == MapRows(f, h) + [run];
    } else {
      assert MapRows(f, h) + [] == MapRows(f, h);
    }
  }

  lemma OtherHistoriesUnspent(rows: seq<Run>, previous: Run, run: Run, k: Key)
    requires UniqueUids(rows) && previous in rows && k != previous.key && run.key == previous.key && !run.retryable
    ensures RunsOf(SpentRows(rows + [run], previous.uid), k) == RunsOf(rows, k)
  {
    SpendRuns(rows, previous.uid, run, k);
    InRunsOf(rows, k);
    var h := RunsOf(rows, k);
    assert forall i | 0 <= i < |h| :: h[i] in h;
    assert MapRows(r => Spent(r, previous.uid), h) == h;
  }

  lemma RetryKeepsItsHistory(rows: seq<Run>, previous: Run, run: Run)
    requires HistoryOk(RunsOf(rows, previous.key), false) && previous in rows && RetryPending(previous)
    requires LastDepth(RunsOf(rows, previous.key)) < MaxAutomaticRetries
    requires RetryRun(run, previous) && RowSound(run) && run.number == MaxNumber(rows, previous.key) + 1
    ensures HistoryOk(RunsOf(SpentRows(rows + [run], previous.uid), previous.key), false)
  {
    var h := RunsOf(rows, previous.key);
    InRunsOf(rows, previous.key);
    SelectedFromHistory(rows, previous.key, false);
    var i := PlaceInHistory(h, previous, false);
    SpendRuns(rows, previous.uid, run, previous.key);
    RetryHistory(h, MapRows(r => Spent(r, previous.uid), h), run);
  }

  lemma RetryKeepsHistories(rows: seq<Run>, targets: map<Key, Target>, previous: Run, run: Run)
    requires HistoriesOk(rows, targets, {}) && UniqueUids(rows)
    requires previous in rows && run.key == previous.key && !run.retryable
    requires !Cancelled?(targets, previous.key)
    requires HistoryOk(RunsOf(SpentRows(rows + [run], previous.uid), previous.key), false)
    ensures HistoriesOk(SpentRows(rows + [run], previous.uid), targets, {})
  {
    forall k | k in targets && k != previous.key
      ensures RunsOf(SpentRows(rows + [run], previous.uid), k) == RunsOf(rows, k)
    {
      OtherHistoriesUnspent(rows, previous, run, k);
    }
  }

  lemma RetryKeepsDedup(rows: seq<Run>, targets: map<Key, Target>, jobs: set<Uid>,
                        dedup: map<RequestKey, ReprintDigest>, uid: Uid, run: Run)
    requires DedupOk(rows, targets, jobs, dedup, map[]) && run.request.None? && !run.retryable
    ensures DedupOk(SpentRows(rows + [run], uid), targets, jobs, dedup, map[])
  {
    var rows' := SpentRows(rows + [run], uid);
    forall k, request ensures RequestCount(RunsOf(rows', k), request) == RequestCount(RunsOf(rows, k), request) {
      SpendRuns(rows, uid, run, k);
      var h := RunsOf(rows, k);
      var h' := MapRows(r => Spent(r, uid), h);
      RequestCountSame(h, h', request);
      RequestCountAppend(h', run, request);
      assert h' + [] == h';
    }
  }

  lemma SpentRowsOk(rows: seq<Run>, targets: map<Key, Target>, last: nat, uid: Uid, run: Run)
    requires RowsOk(rows, targets, last) && run.key in targets && run.sequence == last + 1
    requires forall x | x in rows :: x.uid != run.uid
    ensures RowsOk(SpentRows(rows + [run], uid), targets, last + 1)
  {
    AppendKeepsRows(rows, targets, last, run);
    UpdateKeepsRows(r => Spent(r, uid), rows + [run], targets, targets, last + 1);
  }

  // When materializeRetry creates a run, what it did.
  lemma RetryEffect(db: Db, uid: Uid, newUid: Uid, hash: Option<ContentHash>, now: Stamp) returns (previous: Run, run: Run)
    requires Retry(db, uid, MaxAutomaticRetries, newUid, hash, now).Ok?
    requires Retry(db, uid, MaxAutomaticRetries, newUid, hash, now).value.1.Some?
    ensures Lookup(db.runs, uid) == Some(previous) && previous.uid == uid && previous in db.runs && RetryPending(previous)
    ensures Retry(db, uid, MaxAutomaticRetries, newUid, hash, now).value.0
         == db.(runs := SpentRows(db.runs + [run], uid), lastSequence := db.lastSequence + 1)
    ensures Retry(db, uid, MaxAutomaticRetries, newUid, hash, now).value.1 == Some(run.(sequence := 0))
    ensures RetryRun(run, previous) && RowSound(run) && run.sequence == db.lastSequence + 1
    ensures run.uid == newUid && forall x | x in db.runs :: x.uid != run.uid
    ensures run.number == MaxNumber(db.runs, previous.key) + 1
    ensures run.status == Queued || run.status == Failed
    ensures previous.key in db.targets && !Cancelled?(db.targets, previous.key)
    ensures LastDepth(RunsOf(db.runs, previous.key)) < MaxAutomaticRetries
  {
    previous := Lookup(db.runs, uid).value;
    run := Retry(db, uid, MaxAutomaticRetries, newUid, hash, now).value.1.value.(sequence := db.lastSequence + 1);
  }

  lemma RetryInsertKeepsHistories(rows: seq<Run>, targets: map<Key, Target>, previous: Run, run: Run)
    requires HistoriesOk(rows, targets, {}) && UniqueUids(rows)
    requires previous in rows && RetryPending(previous)
    requires previous.key in targets && !Cancelled?(targets, previous.key)
    requires LastDepth(RunsOf(rows, previous.key)) < MaxAutomaticRetries
    requires RetryRun(run, previous) && RowSound(run) && run.number == MaxNumber(rows, previous.key) + 1
    ensures HistoriesOk(SpentRows(rows + [run], previous.uid), targets, {})
  {
    assert HistoryOk(RunsOf(rows, previous.key), Cancelled?(targets, previous.key));
    RetryKeepsItsHistory(rows, previous, run);
    RetryKeepsHistories(rows, targets, previous, run);
  }

  lemma RetryGivenUp(db: Db, uid: Uid, newUid: Uid, hash: Option<ContentHash>, now: Stamp)
    requires Retry(db, uid, MaxAutomaticRetries, newUid, hash, now).Ok?
    requires Retry(db, uid, MaxAutomaticRetries, newUid, hash, now).value.1.None?
    ensures Retry(db, uid, MaxAutomaticRetries, newUid, hash, now).value.0 == db.(runs := SpentRows(db.runs, uid))
  {
  }

  lemma RetryKeepsValid(db: Db, uid: Uid, newUid: Uid, hash: Option<ContentHash>, now: Stamp, db': Db)
    requires Valid(db)
    requires Retry(db, uid, MaxAutomaticRetries, newUid, hash, now).Ok?
    requires db' == Retry(db, uid, MaxAutomaticRetries, newUid, hash, now).value.0
    ensures Valid(db')
  {
    if Retry(db, uid, MaxAutomaticRetries, newUid, hash, now).value.1.None? {
      RetryGivenUp(db, uid, newUid, hash, now);
      GiveUpKeepsValid(db, uid);
    } else {
      var previous, run := RetryEffect(db, uid, newUid, hash, now);
      RetryInsertKeepsHistories(db.runs, db.targets, previous, run);
      RetryKeepsDedup(db.runs, db.targets, db.jobs.Keys, db.dedup, uid, run);
      SpentRowsOk(db.runs, db.targets, db.lastSequence, uid, run);
    }
  }
}
