// The schema's constraints never stand in the way of a retry or a reprint: in a valid database
// the only refusal left is a clash of random run ids.
module Refusals {
  import opened Domain
  import opened Tables
  import opened Schema
  import opened Transactions
  import opened History
  import opened Invariant
  import opened Preservation
  import opened Chains

  lemma NextNumberIsFree(rows: seq<Run>, k: Key)
    ensures forall x | x in rows && x.key == k :: x.number < MaxNumber(rows, k) + 1
  {
    MaxNumberBounds(rows, k);
  }

  // A run waiting to be retried has no retry child yet.
  lemma NoRetryChild(db: Db, parent: Run, child: Run)
    requires Valid(db) && parent in db.runs && RetryPending(parent) && child in db.runs
    ensures !(child.trigger == AutomaticRetry && child.previous == Some(parent.uid))
  {
    if child.trigger == AutomaticRetry && child.previous == Some(parent.uid) {
      var p := RetryContinues(db, child);
    }
  }

  lemma OnlyUidCanClash(rows: seq<Run>, targets: map<Key, Target>, run: Run)
    requires RowOk(run) && run.key in targets
    requires RefersInside(rows, run.key, run.previous) && RefersInside(rows, run.key, run.reprintOf)
    requires run.trigger != Initial
    requires forall x | x in rows && x.key == run.key :: x.number < run.number && !Active(x)
    requires forall x | x in rows && run.trigger == AutomaticRetry :: !(x.trigger == AutomaticRetry && x.previous == run.previous)
    requires forall x | x in rows && x.key == run.key && run.request.Some? :: x.request != run.request
    ensures var v := Refusal(rows, targets, run); v.None? || v == Some(UniqueUid)
  {
  }

  lemma PendingPlace(db: Db, r: Run)
    requires Valid(db) && r in db.runs
    ensures r.key.job in db.jobs && r.key in db.targets && r.number >= 1
  {
    hide RowSound, LatestOk, Settled, RunsOf;
    RowKey(db, r);
    var i := RowInHistory(db, r);
  }

  lemma PendingTargetIsQuiet(db: Db, r: Run)
    requires Valid(db) && r in db.runs && RetryPending(r)
    ensures r.key.job in db.jobs && r.key in db.targets && !Cancelled?(db.targets, r.key) && r.number >= 1
    ensures forall x | x in db.runs && x.key == r.key :: !Active(x)
  {
    PendingPlace(db, r);
    hide Valid, Cancelled?, Active;
    forall x | x in db.runs && x.key == r.key ensures !Active(x) {
      if Active(x) {
        OneLiveRun(db, r, x);
      }
    }
    if Cancelled?(db.targets, r.key) {
      CancelledHasNoLiveRun(db, r);
    }
  }

  lemma RetryFits(db: Db, r: Run, newUid: Uid, hash: Option<ContentHash>, now: Stamp)
    requires Valid(db) && r in db.runs && RetryPending(r)
    ensures var v := Refusal(db.runs, db.targets, RetryCandidate(db, r, newUid, hash, now));
            v.None? || v == Some(UniqueUid)
  {
    forall x | x in db.runs ensures !(x.trigger == AutomaticRetry && x.previous == Some(r.uid)) {
      NoRetryChild(db, r, x);
    }
    PendingTargetIsQuiet(db, r);
    hide Valid;
    NextNumberIsFree(db.runs, r.key);
    assert RefersInside(db.runs, r.key, Some(r.uid));
    OnlyUidCanClash(db.runs, db.targets, RetryCandidate(db, r, newUid, hash, now));
  }

  // materializeRetry fails only because the run is no longer waiting or a random run id repeats.
  lemma RetryNeverRefused(db: Db, uid: Uid, newUid: Uid, hash: Option<ContentHash>, now: Stamp)
    requires Valid(db)
    requires Retry(db, uid, MaxAutomaticRetries, newUid, hash, now).Err?
    ensures Retry(db, uid, MaxAutomaticRetries, newUid, hash, now).error
         == var r := Lookup(db.runs, uid);
            if r.Some? && RetryPending(r.value) then Refused(UniqueUid) else StateChanged
  {
    hide Valid, Refusal, RunsOf, MaxNumber;
    var found := Lookup(db.runs, uid);
    if found.Some? && RetryPending(found.value) {
      PendingTargetIsQuiet(db, found.value);
      RetryFits(db, found.value, newUid, hash, now);
    }
  }

  lemma {:induction false} NoSuchRequest(h: seq<Run>, request: RequestId)
    requires RequestCount(h, request) == 0
    ensures forall r | r in h :: r.request != Some(request)
  {
    if h != [] {
      NoSuchRequest(h[..|h| - 1], request);
      assert h == h[..|h| - 1] + [h[|h| - 1]];
    }
  }

  lemma UnreachedHasNoRequest(db: Db, id: RequestKey, left: set<PrinterId>, p: PrinterId)
    requires ValidInside(db, map[id := left]) && p in left
    ensures forall x | x in db.runs && x.key == Key(id.job, p) :: x.request != Some(id.request)
  {
    var k := Key(id.job, p);
    assert RequestCount(RunsOf(db.runs, k), id.request) == 0 by {
      assert Pending(map[id := left], k, id.request);
    }
    hide ValidInside;
    InRunsOf(db.runs, k);
    NoSuchRequest(RunsOf(db.runs, k), id.request);
  }

  lemma InitialKnown(rows: seq<Run>, targets: map<Key, Target>, k: Key)
    requires HistoriesOk(rows, targets, {}) && k in targets
    ensures InitialRun(rows, k).Some? && RefersInside(rows, k, InitialRun(rows, k)) && MaxNumber(rows, k) >= 1
  {
    assert HistoryOk(RunsOf(rows, k), Cancelled?(targets, k));
    SelectedFromHistory(rows, k, Cancelled?(targets, k));
  }

  lemma ReprintFits(db: Db, id: RequestKey, left: set<PrinterId>, s: ReprintSlot, now: Stamp)
    requires ValidInside(db, map[id := left]) && s.printer in left
    requires Key(id.job, s.printer) in db.targets
    requires forall r | r in db.runs && r.key == Key(id.job, s.printer) :: !Active(r)
    ensures InitialRun(db.runs, Key(id.job, s.printer)).Some?
    ensures var v := Refusal(db.runs, db.targets, ReprintRun(db, id, s, now)); v.None? || v == Some(UniqueUid)
  {
    var k := Key(id.job, s.printer);
    UnreachedHasNoRequest(db, id, left, s.printer);
    InitialKnown(db.runs, db.targets, k);
    hide ValidInside;
    NextNumberIsFree(db.runs, k);
    OnlyUidCanClash(db.runs, db.targets, ReprintRun(db, id, s, now));
  }

  lemma SequenceIrrelevant(rows: seq<Run>, targets: map<Key, Target>, run: Run, n: nat)
    ensures Refusal(rows, targets, run.(sequence := n)) == Refusal(rows, targets, run)
  {
  }

  // The failures that a reprint transaction has by design.
  ghost predicate ReprintFailure(e: DbError) {
    e == NotFound || e == StateChanged || e == ContentChanged || e == Refused(UniqueUid)
  }

  // One printer's turn: missing target, active run, unrenderable content or a repeated run id.
  lemma ReprintTargetNeverRefused(db: Db, id: RequestKey, left: set<PrinterId>, s: ReprintSlot, now: Stamp)
    requires ValidInside(db, map[id := left])
    requires s.printer in left || exists r :: r in db.runs && r.key == Key(id.job, s.printer) && Active(r)
    requires ReprintTarget(db, id.job, id.request, s, now).Err?
    ensures ReprintFailure(ReprintTarget(db, id.job, id.request, s, now).error)
  {
    hide ValidInside, Refusal, InitialRun, MaxNumber;
    var k := Key(id.job, s.printer);
    if k in db.targets && !exists r | r in db.runs :: r.key == k && Active(r) {
      assert s.printer in left;
      ReprintFits(db, id, left, s, now);
      SequenceIrrelevant(db.runs, db.targets, ReprintRun(db, id, s, now), 0);
      if s.hash.Some? {
        assert ReprintRun(db, id, s, now).(sequence := 0)
            == NewRun(s.run, k, MaxNumber(db.runs, k) + 1, ManualReprint, Reprint, None,
                      Some(InitialRun(db.runs, k).value), Some(id.request), s.hash.value, now);
      }
    }
  }

  ghost predicate HasActive(rows: seq<Run>, k: Key) {
    exists r :: r in rows && r.key == k && Active(r)
  }

  lemma {:induction false} ReprintEachNeverRefused(db: Db, id: RequestKey, left: set<PrinterId>,
                                                   slots: seq<ReprintSlot>, now: Stamp)
    requires ValidInside(db, map[id := left]) && id in db.dedup && left <= set p | p in db.dedup[id].printers
    requires forall i | 0 <= i < |slots| :: slots[i].printer in left || HasActive(db.runs, Key(id.job, slots[i].printer))
    requires ReprintEach(db, id.job, id.request, slots, now).Err?
    ensures ReprintFailure(ReprintEach(db, id.job, id.request, slots, now).error)
    decreases |slots|
  {
    hide ValidInside, ReprintTarget;
    var s := slots[0];
    if ReprintTarget(db, id.job, id.request, s, now).Err? {
      ReprintTargetNeverRefused(db, id, left, s, now);
    } else {
      ReprintTargetEffect(db, id, s, now);
      var db' := ReprintTarget(db, id.job, id.request, s, now).value;
      assert s.printer in left;
      ReprintTargetKeeps(db, id, left, s, now);
      ReprintedIsActive(db, id, s, now);
      forall i | 0 <= i < |slots[1..]|
        ensures slots[1..][i].printer in left - {s.printer} || HasActive(db'.runs, Key(id.job, slots[1..][i].printer))
      {
        assert slots[1..][i] == slots[i + 1];
        var k := Key(id.job, slots[i + 1].printer);
        if HasActive(db.runs, k) {
          var r :| r in db.runs && r.key == k && Active(r);
          ActiveKept(db, id, s, now, r);
        }
      }
      ReprintEachNeverRefused(db', id, left - {s.printer}, slots[1..], now);
    }
  }

  // The whole reprint transaction: beside those, only a repeated request id or a job that has
  // been purged since the caller looked it up.
  lemma ReprintNeverRefused(db: Db, job: Uid, request: RequestId, reason: string, slots: seq<ReprintSlot>, now: Stamp)
    requires Valid(db)
    requires var digest := ReprintDigest(SlotPrinters(slots), reason);
             InsertManualReprints(db, job, request, digest, slots, now).Err?
    ensures var e := InsertManualReprints(db, job, request, ReprintDigest(SlotPrinters(slots), reason), slots, now).error;
            if RequestKey(job, request) in db.dedup then e == DuplicateRequest
            else if job !in db.jobs then e == Refused(ForeignKeyFailed)
            else ReprintFailure(e)
  {
    var id := RequestKey(job, request);
    if id !in db.dedup && job in db.jobs {
      var digest := ReprintDigest(SlotPrinters(slots), reason);
      var left := set p | p in digest.printers;
      DedupOpened(db.runs, db.targets, db.jobs.Keys, db.dedup, id, digest, left);
      var started := db.(dedup := db.dedup[id := digest]);
      assert ValidInside(started, map[id := left]);
      hide Valid, ValidInside;
      forall i | 0 <= i < |slots| ensures slots[i].printer in left {
        assert SlotPrinters(slots)[i] == slots[i].printer;
      }
      ReprintEachNeverRefused(started, id, left, slots, now);
    }
  }
}
