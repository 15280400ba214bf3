// A manual reprint request takes effect at most once, however often and whenever it is repeated.
module ReprintRequests {
  import opened Domain
  import opened Tables
  import opened Schema
  import opened Transactions
  import opened History
  import opened Invariant
  import opened Preservation
  import opened AcceptPurge
  import opened Effects
  import opened Chains
  import Repo = Repository
  import Stability

  datatype ReprintResponse =
    | Created
    | Repeated(runs: set<Run>)
    | Conflict
    | NoSuchJob
    | NotCreated(error: DbError)

  // RunsForReprintRequest
  function RunsFor(db: Db, id: RequestKey): set<Run> {
    set r | r in db.runs && r.key.job == id.job && r.request == Some(id.request)
  }

  // reprintDuplicate
  function DuplicateAnswer(db: Db, id: RequestKey, digest: ReprintDigest): ReprintResponse
    requires id in db.dedup
  {
    if db.dedup[id] != digest then Conflict else Repeated(RunsFor(db, id))
  }

  // The same request gives back the runs that carry it, another one under the same id conflicts.
  lemma RepeatedAnswer(db: Db, id: RequestKey, digest: ReprintDigest)
    requires id in db.dedup
    ensures var runs := set r | r in db.runs && r.key.job == id.job && r.request == Some(id.request);
            DuplicateAnswer(db, id, digest) == if db.dedup[id] == digest then Repeated(runs) else Conflict
  {
  }

  // Reprint, for printers that are sorted and exist. Other callers may commit anything between the
  // lookup of the deduplication row and the insertion, which then finds the row and looks again.
  method Reprint(repo: Repo.Repository, job: Uid, request: RequestId, reason: string, owner: string,
                 slots: seq<ReprintSlot>, now: Stamp, io: Repo.Io, between: seq<Tx>)
    returns (answer: ReprintResponse)
    requires Valid(repo.db)
    modifies repo
    ensures Valid(repo.db)
    ensures var id := RequestKey(job, request);
            var digest := ReprintDigest(SlotPrinters(slots), reason);
            var before := old(repo.db);
            if job !in before.jobs || !(owner == "" || owner == "local" || before.jobs[job].owner == owner)
            then answer == NoSuchJob && repo.db == before
            else if id in before.dedup then answer == DuplicateAnswer(before, id, digest) && repo.db == before
            else
              var later := Replay(before, between);
              var r := Transactions.InsertManualReprints(later, job, request, digest, slots, now);
              && repo.db == Repo.Stored(later, r, io)
              && answer == (if io == Repo.Fails || (io == Repo.LosesAck && r.Ok?) then NotCreated(Unavailable)
                            else if r.Ok? then Created
                            else if id in later.dedup then DuplicateAnswer(later, id, digest)
                            else if r.error == StateChanged || (r.error.Refused? && !r.error.violation.CheckFailed?
                                                                && !r.error.violation.ForeignKeyFailed?) then Conflict
                            else NotCreated(r.error))
  {
    hide Valid, Replay;
    if job !in repo.db.jobs {
      return NoSuchJob;
    }
    if owner != "" && owner != "local" && repo.db.jobs[job].owner != owner {
      return NoSuchJob;
    }
    var id := RequestKey(job, request);
    var digest := ReprintDigest(SlotPrinters(slots), reason);
    if id in repo.db.dedup {
      return DuplicateAnswer(repo.db, id, digest);
    }
    repo.Others(between);
    var inserted := repo.InsertManualReprints(job, request, reason, slots, now, io);
    if inserted.Err? {
      if inserted.error == DuplicateRequest && id in repo.db.dedup {
        return DuplicateAnswer(repo.db, id, digest);
      }
      if inserted.error == StateChanged || IsUniqueViolation(inserted.error) {
        return Conflict;
      }
      return NotCreated(inserted.error);
    }
    return Created;
  }

  // ---- the request is remembered as long as its job ----

  lemma {:induction false} CancelEachDedup(db: Db, job: Uid, printers: seq<PrinterId>, now: Stamp)
    requires CancelEach(db, job, printers, now).Ok?
    ensures CancelEach(db, job, printers, now).value.dedup == db.dedup
    decreases |printers|
  {
    if printers != [] {
      CancelEachDedup(CancelTarget(db, Key(job, printers[0]), now).value, job, printers[1..], now);
    }
  }

  lemma {:induction false} InsertRunsDedup(db: Db, rs: seq<Run>)
    requires InsertRuns(db, rs).Ok?
    ensures InsertRuns(db, rs).value.dedup == db.dedup
    decreases |rs|
  {
    if rs != [] {
      InsertRunsDedup(InsertRun(db, rs[0]).value, rs[1..]);
    }
  }

  lemma RetryDedup(db: Db, tx: Tx)
    requires tx.RetryTx?
    ensures After(db, tx).dedup == db.dedup
  {
    if Commit(db, tx).Ok? {
      var reply := Retry(db, tx.run, MaxAutomaticRetries, tx.newRun, tx.hash, tx.now);
      hide Retry;
      if reply.value.1.None? {
        RetryGivenUp(db, tx.run, tx.newRun, tx.hash, tx.now);
      } else {
        var previous, run := RetryEffect(db, tx.run, tx.newRun, tx.hash, tx.now);
      }
    }
  }

  // A deduplication row is never changed, and removed only with its job.
  lemma DedupKept(db: Db, tx: Tx, id: RequestKey)
    requires id in db.dedup && id.job in After(db, tx).jobs
    ensures id in After(db, tx).dedup && After(db, tx).dedup[id] == db.dedup[id]
  {
    hide Lookup, NextQueued, ClaimedRows, MarkedRows, WithdrawnRows, ResolvedRows, AbandonedRows, Retry, CancelEach, ReprintEach;
    if tx.RetryTx? {
      RetryDedup(db, tx);
    } else if Commit(db, tx).Ok? {
      match tx
      case AcceptTx(uid, j, slots, now) =>
        var withJob := InsertJobRow(db, uid, j).value;
        InsertTargetsRows(withJob, AcceptedTargets(uid, slots, 0));
        InsertRunsDedup(InsertTargets(withJob, AcceptedTargets(uid, slots, 0)).value, AcceptedRuns(uid, slots, now));
      case CancelTargetsTx(j, printers, now) => CancelEachDedup(db, j, printers, now);
      case ReprintTx(j, request, reason, slots, now) =>
        var own := RequestKey(j, request);
        Stability.ReprintEachTargets(db.(dedup := db.dedup[own := ReprintDigest(SlotPrinters(slots), reason)]), own, slots, now);
      case _ =>
    }
  }

  lemma ReprintRemembers(db: Db, tx: Tx)
    requires tx.ReprintTx? && Commit(db, tx).Ok?
    ensures var id := RequestKey(tx.uid, tx.request);
            id in After(db, tx).dedup && After(db, tx).dedup[id] == ReprintDigest(SlotPrinters(tx.reprints), tx.reason)
  {
    hide ReprintEach;
    var id := RequestKey(tx.uid, tx.request);
    var digest := ReprintDigest(SlotPrinters(tx.reprints), tx.reason);
    Stability.ReprintEachTargets(db.(dedup := db.dedup[id := digest]), id, tx.reprints, tx.now);
  }

  lemma {:induction false} DedupKeptThroughout(db: Db, txs: seq<Tx>, id: RequestKey)
    requires id in db.dedup && KeepsJob(db, txs, id.job)
    ensures id in Replay(db, txs).dedup && Replay(db, txs).dedup[id] == db.dedup[id]
    decreases |txs|
  {
    hide After;
    if txs != [] {
      assert KeepsJob(After(db, txs[0]), txs[1..], id.job);
      DedupKept(db, txs[0], id);
      DedupKeptThroughout(After(db, txs[0]), txs[1..], id);
    }
  }

  // However much happens after a reprint was granted, as long as its job is on file the same
  // request is answered with the runs it created, one for each printer it named and no other; a
  // different request under the same id conflicts; and neither creates anything.
  lemma GrantedOnce(db: Db, tx: Tx, txs: seq<Tx>, digest: ReprintDigest, slots: seq<ReprintSlot>, now: Stamp)
    requires Valid(db) && tx.ReprintTx? && Commit(db, tx).Ok? && KeepsJob(After(db, tx), txs, tx.uid)
    ensures var e := Replay(After(db, tx), txs);
            var id := RequestKey(tx.uid, tx.request);
            && id in e.dedup
            && DuplicateAnswer(e, id, digest)
               == (if digest == ReprintDigest(SlotPrinters(tx.reprints), tx.reason) then Repeated(RunsFor(e, id)) else Conflict)
            && (forall p :: p in SlotPrinters(tx.reprints) <==> exists r :: r in RunsFor(e, id) && r.key.printer == p)
            && (forall a, b | a in RunsFor(e, id) && b in RunsFor(e, id) && a.key == b.key :: a == b)
            && InsertManualReprints(e, tx.uid, tx.request, digest, slots, now) == Err(DuplicateRequest)
  {
    var e := Replay(After(db, tx), txs);
    var id := RequestKey(tx.uid, tx.request);
    hide Valid, After, Commit;
    ReprintRemembers(db, tx);
    DedupKeptThroughout(After(db, tx), txs, id);
    CommitKeepsValid(db, tx);
    ReplayKeepsValid(After(db, tx), txs);
    hide Replay, KeepsJob;
    forall p ensures p in SlotPrinters(tx.reprints) <==> exists r :: r in RunsFor(e, id) && r.key.printer == p {
      RequestedRuns(e, id, p);
    }
    forall a, b | a in RunsFor(e, id) && b in RunsFor(e, id) && a.key == b.key ensures a == b {
      OneRequestedRun(e, id, a, b);
    }
  }

  lemma RequestedRuns(db: Db, id: RequestKey, p: PrinterId)
    requires Valid(db) && id in db.dedup
    ensures p in db.dedup[id].printers <==> exists r :: r in RunsFor(db, id) && r.key.printer == p
  {
    hide Valid;
    Stability.ReprintRequestExact(db, id.job, id.request, p);
    assert id == RequestKey(id.job, id.request);
    forall r | r in RunsFor(db, id) && r.key.printer == p ensures r.key == Key(id.job, p) {
    }
    if p in db.dedup[id].printers {
      var r :| r in db.runs && r.key == Key(id.job, p) && r.request == Some(id.request);
      assert r in RunsFor(db, id);
    }
  }

  lemma OneRequestedRun(db: Db, id: RequestKey, a: Run, b: Run)
    requires Valid(db) && a in RunsFor(db, id) && b in RunsFor(db, id) && a.key == b.key
    ensures a == b
  {
    hide Valid, RunsOf, RequestCount;
    Stability.ReprintRequestExact(db, id.job, id.request, a.key.printer);
    assert a.key == Key(id.job, a.key.printer);
    var h := RunsOf(db.runs, a.key);
    InRunsOf(db.runs, a.key);
    var i :| 0 <= i < |h| && h[i] == a;
    var j :| 0 <= j < |h| && h[j] == b;
    if i < j {
      Stability.CountOneIsUnique(h, id.request, i, j);
    } else if j < i {
      Stability.CountOneIsUnique(h, id.request, j, i);
    }
  }

  // ---- a refused request can be made again ----

  predicate Grants(db: Db, tx: Tx, id: RequestKey) {
    tx.ReprintTx? && RequestKey(tx.uid, tx.request) == id && Commit(db, tx).Ok?
  }

  // Only a granted reprint adds its deduplication row.
  lemma DedupAppears(db: Db, tx: Tx, id: RequestKey)
    requires id !in db.dedup && !Grants(db, tx, id)
    ensures id !in After(db, tx).dedup
  {
    hide Lookup, NextQueued, ClaimedRows, MarkedRows, WithdrawnRows, ResolvedRows, AbandonedRows, Retry, CancelEach, ReprintEach;
    if tx.RetryTx? {
      RetryDedup(db, tx);
    } else if Commit(db, tx).Ok? {
      match tx
      case AcceptTx(uid, j, slots, now) =>
        var withJob := InsertJobRow(db, uid, j).value;
        InsertTargetsRows(withJob, AcceptedTargets(uid, slots, 0));
        InsertRunsDedup(InsertTargets(withJob, AcceptedTargets(uid, slots, 0)).value, AcceptedRuns(uid, slots, now));
      case CancelTargetsTx(j, printers, now) => CancelEachDedup(db, j, printers, now);
      case ReprintTx(j, request, reason, slots, now) =>
        var own := RequestKey(j, request);
        Stability.ReprintEachTargets(db.(dedup := db.dedup[own := ReprintDigest(SlotPrinters(slots), reason)]), own, slots, now);
      case _ =>
    }
  }

  ghost predicate SomeGrant(db: Db, txs: seq<Tx>, id: RequestKey)
    decreases |txs|
  {
    txs != [] && (Grants(db, txs[0], id) || SomeGrant(After(db, txs[0]), txs[1..], id))
  }

  // While the job is on file, its request is remembered exactly if it was granted at some point.
  lemma {:induction false} RememberedExactly(db: Db, txs: seq<Tx>, id: RequestKey)
    requires KeepsJob(db, txs, id.job)
    ensures id in Replay(db, txs).dedup <==> id in db.dedup || SomeGrant(db, txs, id)
    decreases |txs|
  {
    hide After, Commit;
    if txs != [] {
      assert KeepsJob(After(db, txs[0]), txs[1..], id.job);
      if id in db.dedup {
        DedupKept(db, txs[0], id);
      } else if Grants(db, txs[0], id) {
        ReprintRemembers(db, txs[0]);
      } else {
        DedupAppears(db, txs[0], id);
      }
      RememberedExactly(After(db, txs[0]), txs[1..], id);
    }
  }

  lemma {:induction false} ReprintEachNoDuplicate(db: Db, job: Uid, request: RequestId, slots: seq<ReprintSlot>, now: Stamp)
    ensures ReprintEach(db, job, request, slots, now) != Err(DuplicateRequest)
    decreases |slots|
  {
    if slots != [] {
      TargetNoDuplicate(db, job, request, slots[0], now);
      var first := ReprintTarget(db, job, request, slots[0], now);
      hide ReprintTarget;
      if first.Ok? {
        ReprintEachNoDuplicate(first.value, job, request, slots[1..], now);
      }
    }
  }

  lemma TargetNoDuplicate(db: Db, job: Uid, request: RequestId, s: ReprintSlot, now: Stamp)
    ensures ReprintTarget(db, job, request, s, now) != Err(DuplicateRequest)
  {
    hide Refusal, SupersededRows, InitialRun, MaxNumber;
  }

  lemma DuplicateExactly(db: Db, job: Uid, request: RequestId, digest: ReprintDigest, slots: seq<ReprintSlot>, now: Stamp)
    ensures InsertManualReprints(db, job, request, digest, slots, now) == Err(DuplicateRequest)
       <==> RequestKey(job, request) in db.dedup
  {
    hide ReprintEach;
    ReprintEachNoDuplicate(db.(dedup := db.dedup[RequestKey(job, request) := digest]), job, request, slots, now);
  }

  // A request that was refused, for whatever reason but being a repetition, leaves nothing behind:
  // however much happens later, the same id is turned away as a duplicate exactly if a request with
  // it has been granted meanwhile, and until then no run of the job carries it.
  lemma RefusedRequestCanBeRepeated(db: Db, tx: Tx, txs: seq<Tx>, digest: ReprintDigest, slots: seq<ReprintSlot>, now: Stamp)
    requires Valid(db) && tx.ReprintTx? && Commit(db, tx).Err? && Commit(db, tx).error != DuplicateRequest
    requires KeepsJob(After(db, tx), txs, tx.uid)
    ensures var e := Replay(After(db, tx), txs);
            var id := RequestKey(tx.uid, tx.request);
            && (InsertManualReprints(e, tx.uid, tx.request, digest, slots, now) == Err(DuplicateRequest)
                <==> SomeGrant(After(db, tx), txs, id))
            && (!SomeGrant(After(db, tx), txs, id) ==> RunsFor(e, id) == {})
  {
    var e := Replay(After(db, tx), txs);
    var id := RequestKey(tx.uid, tx.request);
    Stability.RefusedReprintLeavesNoTrace(db, tx);
    hide Valid, After, Commit, Replay, KeepsJob, SomeGrant, InsertManualReprints;
    RememberedExactly(After(db, tx), txs, id);
    ReplayKeepsValid(After(db, tx), txs);
    DuplicateExactly(e, tx.uid, tx.request, digest, slots, now);
    if id !in e.dedup {
      NotRememberedHasNoRuns(e, id);
    }
  }

  lemma NotRememberedHasNoRuns(db: Db, id: RequestKey)
    requires Valid(db) && id !in db.dedup
    ensures RunsFor(db, id) == {}
  {
    hide Valid, RunsOf, RequestCount;
    forall r | r in db.runs && r.key.job == id.job ensures r.request != Some(id.request) {
      Stability.ReprintRequestExact(db, id.job, id.request, r.key.printer);
      assert r.key == Key(id.job, r.key.printer) && id == RequestKey(id.job, id.request);
    }
  }
}
