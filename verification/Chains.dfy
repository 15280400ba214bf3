// What the database invariant says about the history of a target, in terms of the table's rows.
module Chains {
  import opened Domain
  import opened Tables
  import opened Schema
  import opened Transactions
  import opened History
  import opened Invariant
  import opened Preservation
  import opened AcceptPurge

  lemma HistoryAt(db: Db, k: Key)
    requires Valid(db) && k in db.targets
    ensures HistoryOk(RunsOf(db.runs, k), Cancelled?(db.targets, k))
    ensures forall r :: r in RunsOf(db.runs, k) <==> r in db.runs && r.key == k
  {
    InRunsOf(db.runs, k);
  }

  lemma RowKey(db: Db, r: Run)
    requires Valid(db) && r in db.runs
    ensures r.key in db.targets
  {
  }

  // ---- run numbers ----

  ghost predicate HasNumber(rows: seq<Run>, k: Key, n: nat) {
    exists r :: r in rows && r.key == k && r.number == n
  }

  lemma NumberAt(h: seq<Run>, cancelled: bool, n: nat)
    requires HistoryOk(h, cancelled)
    ensures 1 <= n <= |h| ==> h[n - 1] in h && h[n - 1].number == n
    ensures forall r | r in h && r.number == n :: 1 <= n <= |h| && r == h[n - 1]
    ensures |h| >= 1
  {
  }

  // The run numbers of a target are 1..n, each used once.
  lemma RunNumbersExact(db: Db, k: Key, n: nat)
    requires Valid(db) && k in db.targets
    ensures HasNumber(db.runs, k, n) <==> 1 <= n <= MaxNumber(db.runs, k)
    ensures forall a, b | a in db.runs && b in db.runs && a.key == k && b.key == k && a.number == b.number == n :: a == b
    ensures MaxNumber(db.runs, k) >= 1
  {
    var h, c := RunsOf(db.runs, k), Cancelled?(db.targets, k);
    HistoryAt(db, k);
    hide Valid;
    SelectedFromHistory(db.runs, k, c);
    NumberAt(h, c, n);
    hide HistoryOk, RunsOf, MaxNumber;
  }

  // ---- the live run ----

  // A target has at most one live run; it is the highest-numbered one, its target is not
  // cancelled, and every other uncertain run has been answered.
  lemma OneLiveRun(db: Db, live: Run, other: Run)
    requires Valid(db) && live in db.runs && other in db.runs && other.key == live.key
    requires Live(live) && other != live
    ensures !Live(other) && other.number < live.number
    ensures other.status == Uncertain ==> other.resolution != Unresolved
    ensures live.number == MaxNumber(db.runs, live.key)
    ensures !Cancelled?(db.targets, live.key)
  {
    var k := live.key;
    RowKey(db, live);
    HistoryAt(db, k);
    hide Valid;
    SelectedFromHistory(db.runs, k, Cancelled?(db.targets, k));
    var i := PlaceInHistory(RunsOf(db.runs, k), live, Cancelled?(db.targets, k));
    var j := PlaceInHistory(RunsOf(db.runs, k), other, Cancelled?(db.targets, k));
  }

  lemma CancelledHasNoLiveRun(db: Db, r: Run)
    requires Valid(db) && r in db.runs && Cancelled?(db.targets, r.key)
    ensures !Live(r)
  {
    HistoryAt(db, r.key);
    hide Valid;
    var i := PlaceInHistory(RunsOf(db.runs, r.key), r, true);
  }

  // Retention never removes a job that has a live run, although its query ignores the
  // unresolved results of cancelled targets.
  lemma PurgeSparesLiveWork(db: Db, now: Stamp, r: Run)
    requires Valid(db) && r in db.runs && Live(r)
    ensures r.key.job !in PurgeableJobs(db, now)
    ensures r in Purge(db, now).runs && r.key.job in Purge(db, now).jobs && r.key in Purge(db, now).targets
  {
    RowKey(db, r);
    assert r.key.job in db.jobs;
    if Cancelled?(db.targets, r.key) {
      CancelledHasNoLiveRun(db, r);
    }
    hide Valid;
    assert Holds(db, r);
    InWithoutJobs(db.runs, PurgeableJobs(db, now));
  }

  // ---- retry chains ----

  lemma ChildOf(h: seq<Run>, cancelled: bool, i: nat)
    requires HistoryOk(h, cancelled) && i < |h| && h[i].trigger == AutomaticRetry
    ensures i > 0 && h[i].previous == Some(h[i - 1].uid) && h[i].mode == h[i - 1].mode
    ensures h[i - 1].status == Failed && !h[i - 1].retryable
  {
    assert i > 0 ==> Follows(h, i);
    assert i > 0 ==> Settled(h[i - 1]);
  }

  // An automatic retry points to the run numbered one less in its own target; that run is
  // failed and will not be retried again.
  lemma RetryContinues(db: Db, child: Run) returns (parent: Run)
    requires Valid(db) && child in db.runs && child.trigger == AutomaticRetry
    ensures parent in db.runs && parent.key == child.key && child.previous == Some(parent.uid)
    ensures parent.number == child.number - 1 && parent.mode == child.mode
    ensures parent.status == Failed && !parent.retryable
    ensures forall p | p in db.runs && Some(p.uid) == child.previous :: p == parent
  {
    var k := child.key;
    RowKey(db, child);
    HistoryAt(db, k);
    assert UniqueUids(db.runs);
    hide Valid, TablesOk, HistoriesOk, DedupOk;
    var h := RunsOf(db.runs, k);
    var i := PlaceInHistory(h, child, Cancelled?(db.targets, k));
    ChildOf(h, Cancelled?(db.targets, k), i);
    parent := h[i - 1];
    assert parent in h && parent.number == i;
  }

  lemma {:induction false} ModesOnlyAdvance(h: seq<Run>, cancelled: bool, i: nat, j: nat)
    requires HistoryOk(h, cancelled) && i <= j < |h| && h[i].mode == Reprint
    ensures h[j].mode == Reprint
  {
    if i < j {
      ModesOnlyAdvance(h, cancelled, i, j - 1);
      assert Follows(h, j);
    }
  }

  // Once a target's content carries the reprint marker it never prints unmarked again.
  lemma ReprintNeverRevertsToNormal(db: Db, a: Run, b: Run)
    requires Valid(db) && a in db.runs && b in db.runs && a.key == b.key && a.number <= b.number
    requires a.mode == Reprint
    ensures b.mode == Reprint
  {
    RowKey(db, a);
    HistoryAt(db, a.key);
    hide Valid;
    var h, c := RunsOf(db.runs, a.key), Cancelled?(db.targets, a.key);
    var i := PlaceInHistory(h, a, c);
    var j := PlaceInHistory(h, b, c);
    ModesOnlyAdvance(h, c, i, j);
  }

  // ---- how much can be printed ----

  // Runs started by a decision: the acceptance or a manual reprint.
  function Blocks(h: seq<Run>): nat {
    if h == [] then 0
    else Blocks(h[..|h| - 1]) + (if h[|h| - 1].trigger == AutomaticRetry then 0 else 1)
  }

  function Reprints(h: seq<Run>): nat {
    if h == [] then 0
    else Reprints(h[..|h| - 1]) + (if h[|h| - 1].trigger == ManualReprint then 1 else 0)
  }

  function PossiblyPrinted(h: seq<Run>): nat {
    if h == [] then 0
    else PossiblyPrinted(h[..|h| - 1]) + (if MayHavePrinted(h[|h| - 1]) then 1 else 0)
  }

  function PossiblyPrintedUnmarked(h: seq<Run>): nat {
    if h == [] then 0
    else PossiblyPrintedUnmarked(h[..|h| - 1])
         + (if MayHavePrinted(h[|h| - 1]) && h[|h| - 1].mode == Normal then 1 else 0)
  }

  // A prefix is chained, and an automatic retry in it follows a failure.
  lemma PrefixChained(h: seq<Run>, n: nat)
    requires Chained(h) && 0 < n <= |h|
    ensures Chained(h[..n])
  {
    forall i | 0 < i < n ensures Follows(h[..n], i) {
      assert Follows(h, i);
    }
    forall i | 0 <= i < n ensures Depth(h[..n], i) <= MaxAutomaticRetries {
      DepthSame(h, h[..n], i);
    }
  }

  lemma {:induction false} BlocksAreRequests(h: seq<Run>)
    requires Chained(h)
    ensures Blocks(h) == 1 + Reprints(h)
  {
    var front := h[..|h| - 1];
    if |h| > 1 {
      assert Follows(h, |h| - 1);
      PrefixChained(h, |h| - 1);
      BlocksAreRequests(front);
    } else {
      assert front == [];
    }
  }

  // Four runs at most for each decision: itself and three retries.
  lemma {:induction false} RunsPerBlock(h: seq<Run>)
    requires Chained(h)
    ensures |h| + (MaxAutomaticRetries - Depth(h, |h| - 1)) <= (1 + MaxAutomaticRetries) * Blocks(h)
  {
    var front := h[..|h| - 1];
    if |h| > 1 {
      assert Follows(h, |h| - 1);
      PrefixChained(h, |h| - 1);
      RunsPerBlock(front);
      DepthSame(h, front, |h| - 2);
    } else {
      assert front == [];
    }
  }

  // Only the last run of a block can have printed, since a retry follows a failure.
  lemma {:induction false} OnePerBlock(h: seq<Run>)
    requires Chained(h)
    ensures PossiblyPrinted(h) + (if MayHavePrinted(h[|h| - 1]) then 0 else 1) <= Blocks(h)
  {
    var front := h[..|h| - 1];
    if |h| > 1 {
      assert Follows(h, |h| - 1);
      PrefixChained(h, |h| - 1);
      OnePerBlock(front);
    } else {
      assert front == [];
    }
  }

  // While the history is unmarked it is one block; after that nothing unmarked is added.
  lemma {:induction false} OneUnmarked(h: seq<Run>)
    requires Chained(h)
    ensures PossiblyPrintedUnmarked(h) <= 1
    ensures h[|h| - 1].mode == Normal && !MayHavePrinted(h[|h| - 1]) ==> PossiblyPrintedUnmarked(h) == 0
  {
    var front := h[..|h| - 1];
    if |h| > 1 {
      assert Follows(h, |h| - 1);
      PrefixChained(h, |h| - 1);
      OneUnmarked(front);
    } else {
      assert front == [];
    }
  }

  // A target accumulates at most four runs per decision, possibly prints at most once per
  // decision, and possibly prints without a reprint marker at most once.
  lemma TargetBounds(db: Db, k: Key)
    requires Valid(db) && k in db.targets
    ensures var h := RunsOf(db.runs, k);
            && |h| <= 4 * (1 + Reprints(h))
            && PossiblyPrinted(h) <= 1 + Reprints(h)
            && PossiblyPrintedUnmarked(h) <= 1
  {
    var h := RunsOf(db.runs, k);
    HistoryAt(db, k);
    hide Valid;
    BlocksAreRequests(h);
    RunsPerBlock(h);
    OnePerBlock(h);
    OneUnmarked(h);
  }
}
