// Concrete runs, transaction by transaction: a ticket that is accepted, claimed, not sent, retried
// and then printed, and one whose fate is unknown. They show that the hypotheses of the theorems
// are met and that retention departs from its documentation in both directions.
module Scenario {
  import opened Domain
  import opened Tables
  import opened Schema
  import opened Transactions
  import opened Invariant
  import opened Preservation
  import opened AcceptPurge
  import opened Chains
  import opened Fulfilment
  import opened Retention
  import opened Answers
  import Repo = Repository

  const Ticket := Job("order-7", "bar-ticket", JobDigest("order-7", "bar-ticket", "{}", [1]), "local", 0, RetentionWindow)
  const Place := Key(1, 1)

  const Submitted := AcceptTx(1, Ticket, [Slot(1, 5, 10)], 0)
  const First := NewRun(10, Place, 1, Initial, Normal, None, None, None, 5, 0).(sequence := 1)

  const AfterSubmit := Db(map[1 := Ticket], map[Place := Target(0, 5, None)], [First], 1, map[])

  lemma Submits()
    ensures Commit(EmptyDb, Submitted) == Ok(AfterSubmit)
  {
    var withJob := InsertJobRow(EmptyDb, 1, Ticket).value;
    assert AcceptedTargets(1, [Slot(1, 5, 10)], 0) == [NewTarget(Place, Target(0, 5, None))];
    assert AcceptedRuns(1, [Slot(1, 5, 10)], 0) == [First.(sequence := 0)];
    var withTargets := InsertTarget(withJob, NewTarget(Place, Target(0, 5, None))).value;
    assert InsertTargets(withJob, [NewTarget(Place, Target(0, 5, None))]) == InsertTargets(withTargets, []);
    assert InsertRun(withTargets, First.(sequence := 0)).Ok?;
    var done := InsertRun(withTargets, First.(sequence := 0)).value;
    assert InsertRuns(withTargets, [First.(sequence := 0)]) == InsertRuns(done, []);
    assert done.runs == [First];
  }

  const FirstClaimed := First.(status := Processing, startedAt := Some(1))
  const AfterClaim := AfterSubmit.(runs := [FirstClaimed])

  lemma Claims()
    ensures Commit(AfterSubmit, ClaimTx(1, 1)) == Ok(AfterClaim)
  {
    assert NextQueued([First], 1) == Some(First);
    assert ClaimedRows([First], 1, 1) == [FirstClaimed];
  }

  const FailedTx := MarkTx(10, NotPrinted(0, "not_sent", true), 2)
  const FirstFailed := WithOutcome(FirstClaimed, NotPrinted(0, "not_sent", true), 2)
  const Kept := map[1 := Ticket.(expiresAt := 2 + RetentionWindow)]
  const AfterFailure := AfterClaim.(runs := [FirstFailed], jobs := Kept)

  lemma Fails()
    ensures Commit(AfterClaim, FailedTx) == Ok(AfterFailure)
    ensures RetryPending(FirstFailed)
  {
    assert Lookup([FirstClaimed], 10) == Some(FirstClaimed);
    assert AfterClaim.jobs[1 := Ticket.(expiresAt := 2 + RetentionWindow)] == Kept;
    assert MarkedRows([FirstClaimed], 10, NotPrinted(0, "not_sent", true), 2) == [FirstFailed];
  }

  const RetriedTx := RetryTx(10, 11, Some(5), 3)
  const Second := NewRun(11, Place, 2, AutomaticRetry, Normal, Some(10), None, None, 5, 3).(sequence := 2)
  const AfterRetry := AfterFailure.(runs := [FirstFailed.(retryable := false), Second], lastSequence := 2)

  lemma Retries()
    ensures Commit(AfterFailure, RetriedTx) == Ok(AfterRetry)
  {
    var db := AfterFailure;
    assert Lookup(db.runs, 10) == Some(FirstFailed);
    assert [FirstFailed][..0] == [];
    assert RunsOf(db.runs, Place) == [FirstFailed];
    assert LastDepth(RunsOf(db.runs, Place)) == 0;
    assert MaxNumber(db.runs, Place) == 1;
    assert RetryCandidate(db, FirstFailed, 11, Some(5), 3) == Second.(sequence := 0);
    assert FirstFailed in db.runs;
    assert InsertRun(db, Second.(sequence := 0)).Ok?;
    assert SpentRows([FirstFailed] + [Second], 10) == [FirstFailed.(retryable := false), Second];
  }

  // The whole of it is a sequence of transactions from the empty database; its last state has a
  // target with two runs, the first failed for good and the second, its retry, live.
  lemma TicketIsRetried()
    ensures Replay(EmptyDb, [Submitted, ClaimTx(1, 1), FailedTx, RetriedTx]) == AfterRetry
    ensures Valid(AfterRetry) && Live(Second) && Second in AfterRetry.runs
  {
    hide Commit, After, Replay, Valid;
    Submits();
    Claims();
    Fails();
    Retries();
    Four(Submitted, ClaimTx(1, 1), FailedTx, RetriedTx, AfterSubmit, AfterClaim, AfterFailure, AfterRetry);
  }

  lemma ReplayStep(db: Db, tx: Tx, rest: seq<Tx>, db': Db)
    requires Commit(db, tx) == Ok(db')
    ensures Replay(db, [tx] + rest) == Replay(db', rest)
  {
    hide Commit;
    assert ([tx] + rest)[1..] == rest;
  }

  lemma Two(db: Db, a: Tx, b: Tx, afterA: Db, afterB: Db)
    requires Valid(db) && Commit(db, a) == Ok(afterA) && Commit(afterA, b) == Ok(afterB)
    ensures Replay(db, [a, b]) == afterB && Valid(afterB)
  {
    hide Commit, Valid, After;
    ReplayStep(afterA, b, [], afterB);
    ReplayStep(db, a, [b], afterA);
    assert [b] + [] == [b] && [a] + [b] == [a, b];
    ReplayKeepsValid(db, [a, b]);
  }

  lemma Four(a: Tx, b: Tx, c: Tx, d: Tx, afterA: Db, afterB: Db, afterC: Db, afterD: Db)
    requires Commit(EmptyDb, a) == Ok(afterA) && Commit(afterA, b) == Ok(afterB)
    requires Commit(afterB, c) == Ok(afterC) && Commit(afterC, d) == Ok(afterD)
    ensures Replay(EmptyDb, [a, b, c, d]) == afterD && Valid(afterD)
  {
    hide Commit, Valid, After;
    EmptyIsValid();
    Two(EmptyDb, a, b, afterA, afterB);
    Two(afterB, c, d, afterC, afterD);
    ReplayStep(afterA, b, [c, d], afterB);
    ReplayStep(EmptyDb, a, [b, c, d], afterA);
    assert [b] + [c, d] == [b, c, d] && [a] + [b, c, d] == [a, b, c, d];
  }

  // ---- the retry prints ----

  const SecondClaimed := Second.(status := Processing, startedAt := Some(4))
  const AfterSecondClaim := AfterRetry.(runs := [FirstFailed.(retryable := false), SecondClaimed])

  lemma ClaimsAgain()
    ensures Commit(AfterRetry, ClaimTx(1, 4)) == Ok(AfterSecondClaim)
  {
    var rows := AfterRetry.runs;
    assert rows[1..] == [Second];
    assert NextQueued([Second], 1) == Some(Second);
    assert NextQueued(rows, 1) == Some(Second);
    assert ClaimedRows(rows, 2, 4) == AfterSecondClaim.runs;
  }

  const SecondSent := WithOutcome(SecondClaimed, Sent(99), 5)
  const AfterSecondSent :=
    AfterSecondClaim.(runs := [FirstFailed.(retryable := false), SecondSent],
                      jobs := map[1 := Ticket.(expiresAt := 5 + RetentionWindow)])

  lemma Prints()
    ensures Commit(AfterSecondClaim, MarkTx(11, Sent(99), 5)) == Ok(AfterSecondSent)
  {
    var rows := AfterSecondClaim.runs;
    assert rows[1..] == [SecondClaimed];
    assert Lookup([SecondClaimed], 11) == Some(SecondClaimed);
    assert Lookup(rows, 11) == Some(SecondClaimed);
    assert MarkedRows(rows, 11, Sent(99), 5) == AfterSecondSent.runs;
    assert AfterSecondClaim.jobs[1 := Ticket.(expiresAt := 5 + RetentionWindow)] == AfterSecondSent.jobs;
  }

  lemma PrintedHistory()
    ensures RunsOf(AfterSecondSent.runs, Place) == [FirstFailed.(retryable := false), SecondSent]
  {
    var a, b := FirstFailed.(retryable := false), SecondSent;
    assert [a][..0] == [] && [a, b][..1] == [a];
    assert RunsOf([a], Place) == [a];
  }

  // A ticket that failed unsent and was printed by its retry is complete, needs no attention, and
  // yet its first run stays unresolved: the printer's count of attention stays at one, and no
  // retention, however late, ever removes the job.
  lemma PrintedTicketStays(now: Stamp)
    ensures Replay(AfterRetry, [ClaimTx(1, 4), MarkTx(11, Sent(99), 5)]) == AfterSecondSent && Valid(AfterSecondSent)
    ensures StateOf(AfterSecondSent.runs, [NewTarget(Place, Target(0, 5, None))]) == Completed
    ensures !SqlAttention(AfterSecondSent, 1) && Repo.CountWhere(AfterSecondSent.runs, 1, Unanswered) == 1
    ensures 1 in AfterSecondSent.jobs && 1 in Purge(AfterSecondSent, now).jobs
  {
    TicketIsRetried();
    hide Valid, Replay, Commit, After, PurgeableJobs;
    ClaimsAgain();
    Prints();
    Two(AfterRetry, ClaimTx(1, 4), MarkTx(11, Sent(99), 5), AfterSecondClaim, AfterSecondSent);
    PrintedTicketIsKept(now);
    PrintedTicketIsCounted();
  }

  lemma PrintedTicketIsKept(now: Stamp)
    requires Valid(AfterSecondSent)
    ensures 1 in Purge(AfterSecondSent, now).jobs
  {
    hide Valid, PurgeableJobs, RunsOf;
    PrintedHistory();
    PurgedExactly(AfterSecondSent, now, 1);
    assert Place in AfterSecondSent.targets && !Finished(AfterSecondSent, Place);
  }

  lemma PrintedTicketIsCounted()
    ensures StateOf(AfterSecondSent.runs, [NewTarget(Place, Target(0, 5, None))]) == Completed
    ensures !SqlAttention(AfterSecondSent, 1) && Repo.CountWhere(AfterSecondSent.runs, 1, Unanswered) == 1
  {
    var rows := AfterSecondSent.runs;
    hide RunsOf;
    PrintedHistory();
    assert SecondSent in rows && Fulfils(SecondSent);
    FulfilledInTable(AfterSecondSent, Place);
    assert rows[1..] == [SecondSent] && [SecondSent][1..] == [];
    assert Repo.CountWhere([SecondSent], 1, Unanswered) == 0;
  }

  // ---- a ticket whose fate is unknown ----

  const UnknownTx := MarkTx(10, Unknown(7, "io_error"), 2)
  const FirstUnknown := WithOutcome(FirstClaimed, Unknown(7, "io_error"), 2)
  const AfterUnknown := AfterClaim.(runs := [FirstUnknown], jobs := Kept)

  lemma FateUnknown()
    ensures Commit(AfterClaim, UnknownTx) == Ok(AfterUnknown)
  {
    assert Lookup([FirstClaimed], 10) == Some(FirstClaimed);
    assert AfterClaim.jobs[1 := Ticket.(expiresAt := 2 + RetentionWindow)] == Kept;
    assert MarkedRows([FirstClaimed], 10, Unknown(7, "io_error"), 2) == [FirstUnknown];
  }

  const GivenUpTx := CancelTargetsTx(1, [1], 3)
  const AfterGivingUp :=
    AfterUnknown.(targets := map[Place := Target(0, 5, Some(3))], jobs := map[1 := Ticket.(expiresAt := 3 + RetentionWindow)])

  lemma GivesUp()
    ensures Commit(AfterUnknown, GivenUpTx) == Ok(AfterGivingUp)
  {
    var db := AfterUnknown;
    assert db.targets[Place := db.targets[Place].(cancelledAt := Some(3))] == AfterGivingUp.targets;
    assert DroppedRows(db.runs, Place, 3) == db.runs;
    var db' := db.(targets := AfterGivingUp.targets);
    assert CancelTarget(db, Place, 3) == Ok(db');
    assert CancelEach(db', 1, [], 3) == Ok(db');
    assert [1][1..] == [];
    assert CancelEach(db, 1, [1], 3) == Ok(db');
    assert db'.jobs[1 := Ticket.(expiresAt := 3 + RetentionWindow)] == AfterGivingUp.jobs;
  }

  // Paper may or may not have come out and nobody has said which, but the target was cancelled:
  // 48 hours later the job goes with its unresolved run.
  lemma UnresolvedTicketGoes(now: Stamp)
    requires now > 3 + RetentionWindow
    ensures Replay(EmptyDb, [Submitted, ClaimTx(1, 1), UnknownTx, GivenUpTx]) == AfterGivingUp && Valid(AfterGivingUp)
    ensures FirstUnknown in AfterGivingUp.runs && FirstUnknown.status == Uncertain && FirstUnknown.resolution == Unresolved
    ensures 1 !in Purge(AfterGivingUp, now).jobs && FirstUnknown !in Purge(AfterGivingUp, now).runs
  {
    hide Valid, Replay, Commit, After, PurgeableJobs;
    Submits();
    Claims();
    FateUnknown();
    GivesUp();
    Four(Submitted, ClaimTx(1, 1), UnknownTx, GivenUpTx, AfterSubmit, AfterClaim, AfterUnknown, AfterGivingUp);
    UnresolvedWorkPurgedExactly(AfterGivingUp, now, FirstUnknown);
    InWithoutJobs(AfterGivingUp.runs, PurgeableJobs(AfterGivingUp, now));
  }

  // ---- a ticket that is never sent ----

  // One target with n runs, the first of which was accepted and the others are retries; the last is
  // queued.
  ghost predicate Trying(db: Db, n: nat) {
    && Valid(db) && |db.runs| == n >= 1
    && (forall i | 0 <= i < n :: db.runs[i].key == Place && db.runs[i].uid == 10 + i)
    && (forall i | 0 < i < n :: db.runs[i].trigger == AutomaticRetry) && db.runs[0].trigger == Initial
    && db.runs[n - 1].status == Queued && db.runs[n - 1].resolution == Unresolved
  }

  lemma {:induction false} WholeTable(rows: seq<Run>, k: Key)
    requires forall i | 0 <= i < |rows| :: rows[i].key == k
    ensures RunsOf(rows, k) == rows
  {
    if rows != [] {
      WholeTable(rows[..|rows| - 1], k);
      assert rows == rows[..|rows| - 1] + [rows[|rows| - 1]];
    }
  }

  const Unsent := NotPrinted(0, "not_sent", true)

  // The rows with the last one replaced.
  function WithLast(rows: seq<Run>, last: Run): seq<Run>
    requires rows != []
  {
    rows[|rows| - 1 := last]
  }

  lemma LastReplaced(rows: seq<Run>, f: Run -> Run)
    requires rows != [] && forall i | 0 <= i < |rows| - 1 :: f(rows[i]) == rows[i]
    ensures MapRows(f, rows) == WithLast(rows, f(rows[|rows| - 1]))
  {
  }

  // The last run is claimed and fails without a byte sent.
  lemma FailsToSend(db: Db, n: nat, now: Stamp) returns (failed: Db)
    requires Trying(db, n)
    ensures failed == Replay(db, [ClaimTx(1, now), MarkTx(9 + n, Unsent, now)]) && Valid(failed)
    ensures var last := db.runs[n - 1];
            failed.runs == WithLast(db.runs, Settling(last.(status := Processing, startedAt := Some(now)), Unsent, now))
  {
    hide Valid, Replay, Commit, After, Settling;
    var last := db.runs[n - 1];
    assert last in db.runs;
    SortedRows(db);
    var q := ClaimExactly(db, 1, now);
    LastIsQueued(db, n, q);
    var claimed := After(db, ClaimTx(1, now));
    var working := last.(status := Processing, startedAt := Some(now));
    LastReplaced(db.runs, (r: Run) => if r == last then working else r) by {
      LastIsAlone(db, n);
    }
    CommitKeepsValid(db, ClaimTx(1, now));
    CommitIsAfter(db, ClaimTx(1, now));
    assert claimed.runs[n - 1] == working && working in claimed.runs;
    MarkExactly(claimed, working, Unsent, now);
    var done := Settling(working, Unsent, now);
    LastReplaced(claimed.runs, (r: Run) => if r == working && working.status == Processing then done else r) by {
      LastIsAlone(db, n);
    }
    failed := After(claimed, MarkTx(9 + n, Unsent, now));
    CommitIsAfter(claimed, MarkTx(9 + n, Unsent, now));
    Two(db, ClaimTx(1, now), MarkTx(9 + n, Unsent, now), claimed, failed);
  }

  lemma SortedRows(db: Db)
    requires Valid(db)
    ensures Sorted(db.runs)
  {
  }

  lemma CommitIsAfter(db: Db, tx: Tx)
    requires Commit(db, tx).Ok?
    ensures Commit(db, tx) == Ok(After(db, tx))
  {
    hide Commit;
  }

  lemma LastIsAlone(db: Db, n: nat)
    requires Trying(db, n)
    ensures forall i | 0 <= i < n - 1 :: db.runs[i].uid != db.runs[n - 1].uid
  {
    hide Valid;
  }

  lemma LastIsQueued(db: Db, n: nat, q: Run)
    requires Trying(db, n) && q in db.runs && q.status == Queued
    ensures q == db.runs[n - 1]
  {
    hide Valid;
    var last := db.runs[n - 1];
    assert last in db.runs && q.key == Place;
    if q != last {
      OneLiveRun(db, last, q);
    }
  }

  // What a failed attempt leaves of the rows.
  ghost predicate Failing(n: nat, failed: Db) {
    && Valid(failed) && |failed.runs| == n >= 1
    && (forall i | 0 <= i < n :: failed.runs[i].key == Place && failed.runs[i].uid == 10 + i
                                 && failed.runs[i].trigger == if i == 0 then Initial else AutomaticRetry)
    && RetryPending(failed.runs[n - 1])
  }

  lemma FailedLast(db: Db, n: nat, now: Stamp) returns (failed: Db)
    requires Trying(db, n)
    ensures failed == Replay(db, [ClaimTx(1, now), MarkTx(9 + n, Unsent, now)]) && Failing(n, failed)
  {
    hide Valid, Replay;
    failed := FailsToSend(db, n, now);
  }

  lemma RetryOfLast(n: nat, failed: Db)
    requires Failing(n, failed)
    ensures var r := failed.runs[n - 1];
            && r in failed.runs && RunsOf(failed.runs, r.key) == failed.runs && r.uid == 9 + n
            && Spending(failed.runs, r) == WithLast(failed.runs, r.(retryable := false))
            && forall x | x in failed.runs :: x.uid != 10 + n
  {
    hide Valid;
    var r := failed.runs[n - 1];
    WholeTable(failed.runs, Place);
    LastReplaced(failed.runs, (x: Run) => if x == r then r.(retryable := false) else x);
  }

  // The failed run is answered by one more.
  lemma TriesAgain(db: Db, n: nat, now: Stamp) returns (next: Db)
    requires Trying(db, n) && n < 4
    ensures next == Replay(db, [ClaimTx(1, now), MarkTx(9 + n, Unsent, now), RetryTx(9 + n, 10 + n, Some(5), now)])
    ensures Trying(next, n + 1)
  {
    hide Valid, Replay, Commit, After, Spending, RunsOf;
    var failed := FailedLast(db, n, now);
    var r, tx := failed.runs[n - 1], RetryTx(9 + n, 10 + n, Some(5), now);
    RetryOfLast(n, failed);
    RetryExactly(failed, r, 10 + n, Some(5), now);
    next := After(failed, tx);
    CommitKeepsValid(failed, tx);
    CommitIsAfter(failed, tx);
    ReplayThen(db, [ClaimTx(1, now), MarkTx(9 + n, Unsent, now)], tx);
    assert [ClaimTx(1, now), MarkTx(9 + n, Unsent, now)] + [tx] == [ClaimTx(1, now), MarkTx(9 + n, Unsent, now), tx];
  }

  // The fourth failure is the last.
  lemma GivesUpTrying(db: Db, now: Stamp) returns (last: Db)
    requires Trying(db, 4)
    ensures last == Replay(db, [ClaimTx(1, now), MarkTx(13, Unsent, now), RetryTx(13, 14, Some(5), now)]) && Valid(last)
    ensures |last.runs| == 4 && last.runs[3].status == Failed && !last.runs[3].retryable && RunsOf(last.runs, Place) == last.runs
  {
    hide Valid, Replay, Commit, After, Spending, RunsOf;
    var failed := FailedLast(db, 4, now);
    var r, tx := failed.runs[3], RetryTx(13, 14, Some(5), now);
    RetryOfLast(4, failed);
    RetryExactly(failed, r, 14, Some(5), now);
    last := After(failed, tx);
    CommitKeepsValid(failed, tx);
    CommitIsAfter(failed, tx);
    WholeTable(last.runs, Place);
    ReplayThen(db, [ClaimTx(1, now), MarkTx(13, Unsent, now)], tx);
    assert [ClaimTx(1, now), MarkTx(13, Unsent, now)] + [tx] == [ClaimTx(1, now), MarkTx(13, Unsent, now), tx];
  }

  lemma {:induction false} ReplayThen(db: Db, txs: seq<Tx>, tx: Tx)
    ensures Replay(db, txs + [tx]) == After(Replay(db, txs), tx)
    decreases |txs|
  {
    hide After;
    if txs == [] {
      assert [] + [tx] == [tx] && [tx][1..] == [];
    } else {
      assert (txs + [tx])[0] == txs[0] && (txs + [tx])[1..] == txs[1..] + [tx];
      ReplayThen(After(db, txs[0]), txs[1..], tx);
    }
  }

  lemma {:induction false} ReplayOn(db: Db, txs: seq<Tx>, more: seq<Tx>)
    ensures Replay(db, txs + more) == Replay(Replay(db, txs), more)
    decreases |txs|
  {
    hide After;
    if txs == [] {
      assert [] + more == more;
    } else {
      assert (txs + more)[0] == txs[0] && (txs + more)[1..] == txs[1..] + more;
      ReplayOn(After(db, txs[0]), txs[1..], more);
    }
  }

  // Three retries follow the first failure and no fourth: a ticket that is never sent ends with four
  // runs, the most a target has without a reprint.
  lemma FourRunsAtMostAndLeast() returns (txs: seq<Tx>, end: Db)
    ensures end == Replay(EmptyDb, txs) && Valid(end)
    ensures forall tx | tx in txs :: !tx.ReprintTx?
    ensures |RunsOf(end.runs, Place)| == |end.runs| == 4 && end.runs[3].status == Failed && !end.runs[3].retryable
  {
    hide Valid, Replay, Commit, After;
    StartsTrying();
    var second := TriesAgain(AfterSubmit, 1, 1);
    var third := TriesAgain(second, 2, 1);
    var fourth := TriesAgain(third, 3, 1);
    end := GivesUpTrying(fourth, 1);
    var a := [ClaimTx(1, 1), MarkTx(10, Unsent, 1), RetryTx(10, 11, Some(5), 1)];
    var b := [ClaimTx(1, 1), MarkTx(11, Unsent, 1), RetryTx(11, 12, Some(5), 1)];
    var c := [ClaimTx(1, 1), MarkTx(12, Unsent, 1), RetryTx(12, 13, Some(5), 1)];
    var d := [ClaimTx(1, 1), MarkTx(13, Unsent, 1), RetryTx(13, 14, Some(5), 1)];
    ReplayOn(AfterSubmit, a, b);
    ReplayOn(AfterSubmit, a + b, c);
    ReplayOn(AfterSubmit, a + b + c, d);
    Submits();
    txs := [Submitted] + (a + b + c + d);
    ReplayStep(EmptyDb, Submitted, a + b + c + d, AfterSubmit);
  }

  lemma StartsTrying()
    ensures Trying(AfterSubmit, 1)
  {
    hide Valid, Commit;
    Submits();
    EmptyIsValid();
    CommitKeepsValid(EmptyDb, Submitted);
  }
}
