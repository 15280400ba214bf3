// Claims are first in, first out for each printer over the whole life of the database.
module Order {
  import opened Domain
  import opened Tables
  import opened Schema
  import opened Transactions
  import opened History
  import opened Invariant
  import opened Preservation
  import opened AcceptPurge
  import opened Effects

  // ---- queue_sequence only grows ----

  lemma {:induction false} InsertRunsCount(db: Db, rs: seq<Run>)
    requires InsertRuns(db, rs).Ok?
    ensures InsertRuns(db, rs).value.lastSequence == db.lastSequence + |rs|
    decreases |rs|
  {
    if rs != [] {
      InsertRunsCount(InsertRun(db, rs[0]).value, rs[1..]);
    }
  }

  lemma {:induction false} ReprintEachCount(db: Db, id: RequestKey, slots: seq<ReprintSlot>, now: Stamp)
    requires ReprintEach(db, id.job, id.request, slots, now).Ok?
    ensures ReprintEach(db, id.job, id.request, slots, now).value.lastSequence == db.lastSequence + |slots|
    decreases |slots|
  {
    if slots != [] {
      ReprintTargetEffect(db, id, slots[0], now);
      var db' := ReprintTarget(db, id.job, id.request, slots[0], now).value;
      hide ReprintTarget;
      ReprintEachCount(db', id, slots[1..], now);
    }
  }

  lemma {:induction false} CancelEachCount(db: Db, job: Uid, printers: seq<PrinterId>, now: Stamp)
    requires CancelEach(db, job, printers, now).Ok?
    ensures CancelEach(db, job, printers, now).value.lastSequence == db.lastSequence
    decreases |printers|
  {
    if printers != [] {
      CancelEachCount(CancelTarget(db, Key(job, printers[0]), now).value, job, printers[1..], now);
    }
  }

  lemma SequenceNeverFalls(db: Db, tx: Tx)
    ensures After(db, tx).lastSequence >= db.lastSequence
  {
    if Commit(db, tx).Ok? {
      match tx
      case AcceptTx(uid, job, slots, now) =>
        var withJob := InsertJobRow(db, uid, job).value;
        InsertTargetsRows(withJob, AcceptedTargets(uid, slots, 0));
        InsertRunsCount(InsertTargets(withJob, AcceptedTargets(uid, slots, 0)).value, AcceptedRuns(uid, slots, now));
      case CancelTargetsTx(job, printers, now) => CancelEachCount(db, job, printers, now);
      case ReprintTx(job, request, reason, slots, now) =>
        var id := RequestKey(job, request);
        ReprintEachCount(db.(dedup := db.dedup[id := ReprintDigest(SlotPrinters(slots), reason)]), id, slots, now);
      case RetryTx(uid, newUid, hash, now) =>
        hide Retry;
        RetryCount(db, uid, newUid, hash, now);
      case _ =>
    }
  }

  lemma RetryCount(db: Db, uid: Uid, newUid: Uid, hash: Option<ContentHash>, now: Stamp)
    requires Retry(db, uid, MaxAutomaticRetries, newUid, hash, now).Ok?
    ensures Retry(db, uid, MaxAutomaticRetries, newUid, hash, now).value.0.lastSequence >= db.lastSequence
  {
    var reply := Retry(db, uid, MaxAutomaticRetries, newUid, hash, now);
    hide Retry;
    if reply.value.1.None? {
      RetryGivenUp(db, uid, newUid, hash, now);
    } else {
      var previous, run := RetryEffect(db, uid, newUid, hash, now);
    }
  }

  // ---- the head of a queue ----

  // Everything queued for the printer comes after position s.
  ghost predicate Past(db: Db, p: PrinterId, s: nat) {
    s <= db.lastSequence && forall r | r in db.runs && r.key.printer == p && r.status == Queued :: r.sequence > s
  }

  // A queued row after a transaction was queued before it or is new.
  lemma QueuedBefore(db: Db, tx: Tx, r: Run) returns (before: Run, added: bool)
    requires Valid(db) && r in After(db, tx).runs && r.status == Queued
    ensures added ==> r.sequence > db.lastSequence
    ensures !added ==> before in db.runs && before.status == Queued && before.sequence == r.sequence && before.key == r.key
    ensures !added && tx.ClaimTx? && r.key.printer == tx.printer && Commit(db, tx).Ok?
        ==> r.sequence != NextQueued(db.runs, tx.printer).value.sequence
  {
    before, added := r, false;
    if tx.PurgeTx? {
      InWithoutJobs(db.runs, PurgeableJobs(db, tx.now));
    } else {
      hide Valid, NewRow, After;
      var appended := Effect(db, tx);
      if r in appended {
        added := true;
      } else {
        before := MappedRow(x => NewRow(db, tx, x), db.runs, r);
        StayedQueued(db, tx, before);
      }
    }
  }

  lemma StayedQueued(db: Db, tx: Tx, r: Run)
    requires NewRow(db, tx, r).status == Queued
    ensures r.status == Queued && NewRow(db, tx, r).sequence == r.sequence && NewRow(db, tx, r).key == r.key
    ensures tx.ClaimTx? && Commit(db, tx).Ok? ==> r.sequence != NextQueued(db.runs, tx.printer).value.sequence
  {
  }

  lemma PastKept(db: Db, tx: Tx, p: PrinterId, s: nat)
    requires Valid(db) && Past(db, p, s)
    ensures Past(After(db, tx), p, s)
  {
    SequenceNeverFalls(db, tx);
    hide Valid, After;
    forall r | r in After(db, tx).runs && r.key.printer == p && r.status == Queued ensures r.sequence > s {
      var before, added := QueuedBefore(db, tx, r);
    }
  }

  lemma ClaimTakesFirst(db: Db, p: PrinterId, now: Stamp)
    requires Valid(db) && Claim(db, p, now).Ok?
    ensures NextQueued(db.runs, p).Some? && Commit(db, ClaimTx(p, now)).Ok? && Sorted(db.runs)
    ensures Claim(db, p, now).value.1.sequence == NextQueued(db.runs, p).value.sequence <= db.lastSequence
  {
    hide HistoriesOk, DedupOk, UniqueIdentities, ClaimedRows, UniqueUids;
  }

  lemma ClaimPasses(db: Db, p: PrinterId, now: Stamp)
    requires Valid(db) && Claim(db, p, now).Ok?
    ensures Past(After(db, ClaimTx(p, now)), p, Claim(db, p, now).value.1.sequence)
  {
    hide Valid, After, Commit, Claim, NextQueued;
    var tx := ClaimTx(p, now);
    ClaimTakesFirst(db, p, now);
    SequenceNeverFalls(db, tx);
    var s := NextQueued(db.runs, p).value.sequence;
    forall r | r in After(db, tx).runs && r.key.printer == p && r.status == Queued ensures r.sequence > s {
      var before, added := QueuedBefore(db, tx, r);
      if !added {
        NextIsFirst(db.runs, p, before);
      }
    }
  }

  predicate Claims(db: Db, tx: Tx, p: PrinterId) {
    tx.ClaimTx? && tx.printer == p && Claim(db, p, tx.now).Ok?
  }

  // The positions claimed for a printer in a run of transactions, in order.
  function ClaimsOf(db: Db, txs: seq<Tx>, p: PrinterId): seq<nat>
    decreases |txs|
  {
    if txs == [] then []
    else
      var rest := ClaimsOf(After(db, txs[0]), txs[1..], p);
      if Claims(db, txs[0], p) then [Claim(db, p, txs[0].now).value.1.sequence] + rest else rest
  }

  lemma {:induction false} ClaimsComeAfter(db: Db, txs: seq<Tx>, p: PrinterId, s: nat)
    requires Valid(db) && Past(db, p, s)
    ensures forall c | c in ClaimsOf(db, txs, p) :: c > s
    decreases |txs|
  {
    hide Valid, After, Claim, Past;
    if txs != [] {
      CommitKeepsValid(db, txs[0]);
      PastKept(db, txs[0], p, s);
      ClaimsComeAfter(After(db, txs[0]), txs[1..], p, s);
      if Claims(db, txs[0], p) {
        ClaimIsPast(db, p, txs[0].now, s);
      }
    }
  }

  lemma ClaimIsPast(db: Db, p: PrinterId, now: Stamp, s: nat)
    requires Past(db, p, s) && Claim(db, p, now).Ok?
    ensures Claim(db, p, now).value.1.sequence > s
  {
  }

  ghost predicate Increasing(s: seq<nat>) {
    forall i, j | 0 <= i < j < |s| :: s[i] < s[j]
  }

  lemma NothingIncreases()
    ensures Increasing([])
  {
  }

  lemma IncreasingCons(n: nat, rest: seq<nat>)
    requires Increasing(rest) && forall c | c in rest :: c > n
    ensures Increasing([n] + rest)
  {
    var s := [n] + rest;
    forall i, j | 0 <= i < j < |s| ensures s[i] < s[j] {
      assert s[j] == rest[j - 1] && rest[j - 1] in rest;
    }
  }

  // Successive claims of one printer have strictly increasing positions, whatever retries,
  // reprints, cancellations, purges and restarts come between them.
  lemma {:induction false} ClaimsAreFifo(db: Db, txs: seq<Tx>, p: PrinterId)
    requires Valid(db)
    ensures Increasing(ClaimsOf(db, txs, p))
    decreases |txs|
  {
    hide Valid, After, Claim, Past, Increasing;
    if txs == [] {
      NothingIncreases();
    } else {
      CommitKeepsValid(db, txs[0]);
      ClaimsAreFifo(After(db, txs[0]), txs[1..], p);
      if Claims(db, txs[0], p) {
        ClaimPasses(db, p, txs[0].now);
        var s := Claim(db, p, txs[0].now).value.1.sequence;
        ClaimsComeAfter(After(db, txs[0]), txs[1..], p, s);
        IncreasingCons(s, ClaimsOf(After(db, txs[0]), txs[1..], p));
      }
    }
  }

  // ---- earlier work starts earlier ----

  // No run has started while an earlier one for the same printer still waits.
  ghost predicate StartedInOrder(db: Db) {
    forall a, b | a in db.runs && b in db.runs && a.key.printer == b.key.printer && a.sequence < b.sequence
      && b.startedAt.Some? :: a.status != Queued
  }

  // A started row after a transaction had started before it, or is the row just claimed.
  lemma StartedBefore(db: Db, tx: Tx, r: Run) returns (before: Run)
    requires Valid(db) && r in After(db, tx).runs && r.startedAt.Some?
    ensures before in db.runs && before.sequence == r.sequence && before.key == r.key
    ensures before.startedAt.Some?
         || (tx.ClaimTx? && before.key.printer == tx.printer && NextQueued(db.runs, tx.printer) == Some(before))
  {
    before := r;
    if tx.PurgeTx? {
      InWithoutJobs(db.runs, PurgeableJobs(db, tx.now));
    } else {
      assert Sorted(db.runs);
      hide Valid, NewRow, After;
      var appended := Effect(db, tx);
      before := MappedRow(x => NewRow(db, tx, x), db.runs, r);
      StartsByClaim(db, tx, before);
    }
  }

  lemma StartsByClaim(db: Db, tx: Tx, r: Run)
    requires Sorted(db.runs) && r in db.runs && NewRow(db, tx, r).startedAt.Some?
    ensures NewRow(db, tx, r).sequence == r.sequence && NewRow(db, tx, r).key == r.key
    ensures r.startedAt.Some?
         || (tx.ClaimTx? && r.key.printer == tx.printer && NextQueued(db.runs, tx.printer) == Some(r))
  {
    if r.startedAt.None? && tx.ClaimTx? && Commit(db, tx).Ok? {
      SameSequence(db.runs, r, NextQueued(db.runs, tx.printer).value);
    }
  }

  lemma OrderKept(db: Db, tx: Tx)
    requires Valid(db) && StartedInOrder(db)
    ensures StartedInOrder(After(db, tx))
  {
    assert Sorted(db.runs) && forall r | r in db.runs :: r.sequence <= db.lastSequence;
    hide Valid, After;
    forall a, b | a in After(db, tx).runs && b in After(db, tx).runs && a.key.printer == b.key.printer
                  && a.sequence < b.sequence && b.startedAt.Some?
      ensures a.status != Queued
    {
      var b0 := StartedBefore(db, tx, b);
      if a.status == Queued {
        var a0, added := QueuedBefore(db, tx, a);
        if !added && b0.startedAt.None? {
          NextIsFirst(db.runs, tx.printer, a0);
        }
      }
    }
  }

  // In every reachable database, work accepted earlier for a printer has started or been
  // cancelled before anything later starts.
  lemma {:induction false} EarlierStartsFirst(db: Db, txs: seq<Tx>)
    requires Valid(db) && StartedInOrder(db)
    ensures StartedInOrder(Replay(db, txs))
    decreases |txs|
  {
    if txs != [] {
      CommitKeepsValid(db, txs[0]);
      OrderKept(db, txs[0]);
      hide Valid, StartedInOrder, After;
      EarlierStartsFirst(After(db, txs[0]), txs[1..]);
    }
  }

  lemma StartedWhenPrinting(db: Db, a: Run, b: Run)
    requires Valid(db) && StartedInOrder(db) && a in db.runs && b in db.runs
    requires a.key.printer == b.key.printer && a.sequence < b.sequence && MayHavePrinted(b)
    ensures a.status != Queued
  {
    assert b.key in db.targets;
    var i := RowInHistory(db, b);
  }

  // From the empty database on, nothing is printed for a printer while a run that was queued for
  // it earlier still waits.
  lemma NothingOvertakes(txs: seq<Tx>, a: Run, b: Run)
    requires var db := Replay(EmptyDb, txs); a in db.runs && b in db.runs
    requires a.key.printer == b.key.printer && a.sequence < b.sequence && MayHavePrinted(b)
    ensures a.status != Queued
  {
    EmptyIsValid();
    ReplayKeepsValid(EmptyDb, txs);
    assert StartedInOrder(EmptyDb);
    hide Valid, StartedInOrder, Replay, After, MayHavePrinted;
    EarlierStartsFirst(EmptyDb, txs);
    StartedWhenPrinting(Replay(EmptyDb, txs), a, b);
  }
}
