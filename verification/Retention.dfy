// Which jobs retention removes, and which runs AttentionCount counts that nobody has to look at.
module Retention {
  import opened Domain
  import opened Tables
  import opened Schema
  import opened Transactions
  import opened History
  import opened Invariant
  import opened Preservation
  import opened AcceptPurge
  import opened Chains
  import opened Fulfilment
  import Repo = Repository

  // ---- retention ----

  // Failed or uncertain work without a resolution, and queued or processing work.
  predicate Open(r: Run) {
    Live(r) || Unanswered(r)
  }

  lemma HoldsIsOpen(db: Db, r: Run)
    requires Valid(db) && r in db.runs
    ensures Holds(db, r) <==> Open(r) && !Cancelled?(db.targets, r.key)
    ensures r.key in db.targets && r.key.job in db.jobs
  {
    RowKey(db, r);
    if Cancelled?(db.targets, r.key) {
      CancelledHasNoLiveRun(db, r);
    }
  }

  // The documentation promises to keep unresolved failed or uncertain work for ever. It goes exactly
  // when its job has expired and every open run of the job belongs to a cancelled target.
  lemma UnresolvedWorkPurgedExactly(db: Db, now: Stamp, r: Run)
    requires Valid(db) && r in db.runs && (r.status == Failed || r.status == Uncertain) && r.resolution == Unresolved
    ensures r.key.job in db.jobs
    ensures r.key.job in PurgeableJobs(db, now) <==>
              && db.jobs[r.key.job].expiresAt < now
              && forall x | x in db.runs && x.key.job == r.key.job && Open(x) :: Cancelled?(db.targets, x.key)
  {
    hide Valid, Holds, Open, Cancelled?;
    HoldsIsOpen(db, r);
    forall x | x in db.runs ensures Holds(db, x) <==> Open(x) && !Cancelled?(db.targets, x.key) {
      HoldsIsOpen(db, x);
    }
  }

  // A latest run that leaves nothing behind. An automatic retry leaves the failure it answered.
  predicate Closed(last: Run) {
    last.trigger != AutomaticRetry && !Open(last)
  }

  lemma LatestDecides(h: seq<Run>)
    requires HistoryOk(h, false)
    ensures h != [] && ((exists r :: r in h && Open(r)) <==> !Closed(h[|h| - 1]))
  {
    var n := |h| - 1;
    assert h[n] in h;
    if h[n].trigger == AutomaticRetry {
      assert Follows(h, n) && OnlyRetriesAfter(h, n - 1);
      assert h[n - 1] in h && Open(h[n - 1]);
    } else {
      forall r | r in h && r != h[n] ensures !Open(r) {
        var i :| 0 <= i < |h| && h[i] == r;
        assert Settled(r) && !OnlyRetriesAfter(h, i) by {
          assert h[n].trigger != AutomaticRetry;
        }
      }
    }
  }

  ghost predicate Finished(db: Db, k: Key) {
    Cancelled?(db.targets, k) || var h := RunsOf(db.runs, k); h != [] && Closed(h[|h| - 1])
  }

  lemma TargetHolds(db: Db, k: Key)
    requires Valid(db) && k in db.targets
    ensures Finished(db, k) <==> forall r | r in db.runs && r.key == k :: !Holds(db, r)
  {
    hide Valid, Holds, Open, RunsOf, HistoryOk, Cancelled?, Closed;
    HistoryAt(db, k);
    forall r | r in db.runs ensures Holds(db, r) <==> Open(r) && !Cancelled?(db.targets, r.key) {
      HoldsIsOpen(db, r);
    }
    assert !Cancelled?(db.targets, k) ==> HistoryOk(RunsOf(db.runs, k), false);
    if !Cancelled?(db.targets, k) {
      LatestDecides(RunsOf(db.runs, k));
    }
  }

  // Which jobs go, in terms of the latest run of each target: the job has expired, and each target
  // is cancelled or its latest run is neither open nor an automatic retry.
  lemma PurgedExactly(db: Db, now: Stamp, job: Uid)
    requires Valid(db) && job in db.jobs
    ensures job in PurgeableJobs(db, now) <==>
              && db.jobs[job].expiresAt < now
              && forall k | k in db.targets && k.job == job :: Finished(db, k)
  {
    forall k | k in db.targets
      ensures Finished(db, k) <==> forall r | r in db.runs && r.key == k :: !Holds(db, r)
    {
      TargetHolds(db, k);
    }
    forall r | r in db.runs ensures r.key in db.targets {
      RowKey(db, r);
    }
    hide Valid, Holds, Finished;
  }

  // For a completed job whose last results are all good, the automatic retries alone decide: where
  // one of them made the failure good, the job stays for ever.
  lemma CompletedJobPurgedExactly(db: Db, now: Stamp, job: Uid)
    requires Valid(db) && job in db.jobs
    requires forall k | k in db.targets && k.job == job :: var h := RunsOf(db.runs, k); h != [] && Fulfils(h[|h| - 1])
    ensures job in PurgeableJobs(db, now) <==>
              && db.jobs[job].expiresAt < now
              && forall k | k in db.targets && k.job == job && !Cancelled?(db.targets, k) ::
                   !MadeGood(RunsOf(db.runs, k))
  {
    hide Valid, PurgeableJobs, RunsOf;
    PurgedExactly(db, now, job);
  }

  // ---- the attention count ----

  // The latest run is an automatic retry that produced the ticket.
  predicate MadeGood(h: seq<Run>) {
    h != [] && h[|h| - 1].trigger == AutomaticRetry && Fulfils(h[|h| - 1])
  }

  // Whatever follows a fulfilling run is marked.
  lemma MarkedAfterFulfilment(h: seq<Run>, cancelled: bool, j: nat, i: nat)
    requires HistoryOk(h, cancelled) && j < i < |h| && Fulfils(h[j])
    ensures h[i].mode == Reprint
  {
    assert Follows(h, j + 1) && RowSound(h[j + 1]);
    ModesOnlyAdvance(h, cancelled, j + 1, i);
  }

  lemma FulfilledDespite(h: seq<Run>, cancelled: bool, i: nat, j: nat)
    requires HistoryOk(h, cancelled) && i < |h| && j < |h|
    requires Unanswered(h[i]) && h[i].mode == Normal && Fulfils(h[j])
    ensures MadeGood(h)
  {
    if j < i {
      MarkedAfterFulfilment(h, cancelled, j, i);
    } else {
      assert Settled(h[i]) && OnlyRetriesAfter(h, i);
      assert j < |h| - 1 ==> Follows(h, j + 1);
    }
  }

  lemma CountedHistory(h: seq<Run>, cancelled: bool, r: Run)
    requires HistoryOk(h, cancelled) && r in h && Unanswered(r) && r.mode == Normal
    ensures Fulfilled(h) <==> MadeGood(h)
  {
    AnyRunIn(h, Fulfils);
    if Fulfilled(h) {
      var i :| 0 <= i < |h| && h[i] == r;
      var f :| f in h && Fulfils(f);
      var j :| 0 <= j < |h| && h[j] == f;
      FulfilledDespite(h, cancelled, i, j);
    }
    if MadeGood(h) {
      assert h[|h| - 1] in h;
    }
  }

  // A run that AttentionCount counts although no job needs attention for it.
  ghost predicate Superfluous(db: Db, r: Run) {
    && Unanswered(r) && r.mode == Normal
    && (Cancelled?(db.targets, r.key) || MadeGood(RunsOf(db.runs, r.key)))
  }

  lemma FilterReads(db: Db, r: Run)
    ensures SqlCounts(db, r) <==>
              && Unanswered(r)
              && (r.mode == Reprint || (!Fulfilled(RunsOf(db.runs, r.key)) && !Cancelled?(db.targets, r.key)))
  {
    hide RunsOf, Fulfilled, Fulfils;
    FulfilledInTable(db, r.key);
  }

  // A counted run is one that the attention filter of the job list finds, unless its target is
  // cancelled or a later automatic retry made it good.
  lemma CountedExactly(db: Db, r: Run)
    requires Valid(db) && r in db.runs
    ensures SqlCounts(db, r) <==> Unanswered(r) && !Superfluous(db, r)
  {
    hide Valid, RunsOf, Fulfilled, MadeGood, HistoryOk, Fulfils, SqlCounts, Unanswered;
    RowKey(db, r);
    HistoryAt(db, r.key);
    FilterReads(db, r);
    if Unanswered(r) && r.mode == Normal {
      CountedHistory(RunsOf(db.runs, r.key), Cancelled?(db.targets, r.key), r);
    }
  }

  lemma {:induction false} CountSplits(rows: seq<Run>, p: PrinterId, all: Run -> bool, some: Run -> bool, rest: Run -> bool)
    requires forall r | r in rows :: (all(r) <==> some(r) || rest(r)) && !(some(r) && rest(r))
    ensures Repo.CountWhere(rows, p, all) == Repo.CountWhere(rows, p, some) + Repo.CountWhere(rows, p, rest)
  {
    if rows != [] {
      CountSplits(rows[1..], p, all, some, rest);
    }
  }

  // So the count of a printer is the number of its runs that need attention plus the number of
  // those whose target is cancelled or was made good by a retry.
  lemma AttentionCountExact(db: Db, p: PrinterId)
    requires Valid(db)
    ensures Repo.CountWhere(db.runs, p, Unanswered)
         == Repo.CountWhere(db.runs, p, r => SqlCounts(db, r)) + Repo.CountWhere(db.runs, p, r => Superfluous(db, r))
  {
    forall r | r in db.runs
      ensures (Unanswered(r) <==> SqlCounts(db, r) || Superfluous(db, r)) && !(SqlCounts(db, r) && Superfluous(db, r))
    {
      CountedExactly(db, r);
    }
    hide Valid, SqlCounts, Superfluous;
    CountSplits(db.runs, p, Unanswered, r => SqlCounts(db, r), r => Superfluous(db, r));
  }

  function Counted(rows: seq<Run>, p: PrinterId): set<Run> {
    set r | r in rows && r.key.printer == p && r.resolution == Unresolved
            && (r.status == Uncertain || (r.status == Failed && !r.retryable))
  }

  lemma CountedStep(rows: seq<Run>, p: PrinterId)
    requires rows != [] && rows[0] !in rows[1..]
    ensures Counted(rows, p) == Counted(rows[1..], p) + if rows[0].key.printer == p && Unanswered(rows[0]) then {rows[0]} else {}
    ensures rows[0] !in Counted(rows[1..], p)
  {
    var first, rest := rows[0], rows[1..];
    assert forall r :: r in rows <==> r == first || r in rest;
  }

  // The count of a printer is the number of its runs that wait for an answer.
  lemma {:induction false} AttentionCountMeans(rows: seq<Run>, p: PrinterId)
    requires Sorted(rows)
    ensures Repo.CountWhere(rows, p, Unanswered) == |Counted(rows, p)|
  {
    if rows != [] {
      AttentionCountMeans(rows[1..], p);
      CountedStep(rows, p);
      hide Counted;
    }
  }
}
