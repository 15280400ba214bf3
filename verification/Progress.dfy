// Without new requests the queue comes to rest: every queue step on a target uses up some of a
// bounded potential.
module Progress {
  import opened Domain
  import opened Tables
  import opened Transactions
  import opened History
  import opened Invariant
  import opened Preservation
  import opened AcceptPurge
  import opened Effects
  import opened Chains

  const FullPotential: nat := 3 * (MaxAutomaticRetries + 1)

  // Three steps for each attempt still to come: claim, outcome, next retry.
  function Weight(r: Run, depth: nat): nat
    requires depth <= MaxAutomaticRetries
  {
    if r.status == Queued then FullPotential - 3 * depth
    else if r.status == Processing then FullPotential - 3 * depth - 1
    else if RetryPending(r) then FullPotential - 3 * depth - 2
    else 0
  }

  ghost function Potential(h: seq<Run>): nat {
    if h == [] || Depth(h, |h| - 1) > MaxAutomaticRetries then 0 else Weight(h[|h| - 1], Depth(h, |h| - 1))
  }

  // A request that gives the target new work.
  predicate Requests(tx: Tx, k: Key) {
    (tx.AcceptTx? || tx.ReprintTx?) && tx.uid == k.job && k.printer in WorkFor(tx)
  }

  // A step of the queue itself that changes the target.
  ghost predicate Moves(db: Db, tx: Tx, k: Key) {
    (tx.ClaimTx? || tx.MarkTx? || tx.RetryTx?) && RunsOf(After(db, tx).runs, k) != RunsOf(db.runs, k)
  }

  // What NewRow does to the weight of a row, and that it leaves settled rows alone when the
  // transaction is a queue step.
  lemma NewRowWeight(db: Db, tx: Tx, r: Run, cancelled: bool, depth: nat)
    requires Sorted(db.runs) && r in db.runs && Fit(r, cancelled) && depth <= MaxAutomaticRetries
    ensures Weight(NewRow(db, tx, r), depth) <= Weight(r, depth)
    ensures (tx.ClaimTx? || tx.MarkTx? || tx.RetryTx?) && NewRow(db, tx, r) != r
            ==> !Settled(r) && Weight(NewRow(db, tx, r), depth) < Weight(r, depth)
  {
    if tx.ClaimTx? && Commit(db, tx).Ok? {
      var q := NextQueued(db.runs, tx.printer).value;
      if r.sequence == q.sequence {
        SameSequence(db.runs, r, q);
      }
    }
  }

  lemma MappedPotential(h: seq<Run>, h': seq<Run>, cancelled: bool)
    requires HistoryOk(h, cancelled) && |h'| == |h|
    requires forall i | 0 <= i < |h| :: h'[i].trigger == h[i].trigger
    requires Weight(h'[|h| - 1], Depth(h, |h| - 1)) <= Weight(h[|h| - 1], Depth(h, |h| - 1))
    ensures Potential(h') <= Potential(h)
    ensures Weight(h'[|h| - 1], Depth(h, |h| - 1)) < Weight(h[|h| - 1], Depth(h, |h| - 1))
            ==> Potential(h') < Potential(h)
  {
    DepthSame(h, h', |h| - 1);
  }

  lemma PotentialAfterUpdate(db: Db, tx: Tx, h: seq<Run>, cancelled: bool)
    requires Sorted(db.runs) && HistoryOk(h, cancelled) && forall r | r in h :: r in db.runs
    ensures var h' := MapRows(r => NewRow(db, tx, r), h);
            && Potential(h') <= Potential(h)
            && ((tx.ClaimTx? || tx.MarkTx? || tx.RetryTx?) && h' != h ==> Potential(h') < Potential(h))
  {
    hide NewRow, Weight;
    var n := |h| - 1;
    var h' := MapRows(r => NewRow(db, tx, r), h);
    RowsFit(h, cancelled);
    forall i | 0 <= i < |h| ensures h'[i].trigger == h[i].trigger && h[i] in h {
      NewRowKeepsKey(db, tx, h[i]);
    }
    NewRowWeight(db, tx, h[n], cancelled, Depth(h, n));
    MappedPotential(h, h', cancelled);
    if (tx.ClaimTx? || tx.MarkTx? || tx.RetryTx?) && h' != h {
      var i :| 0 <= i < |h| && h'[i] != h[i];
      NewRowWeight(db, tx, h[i], cancelled, 0);
    }
  }

  // The retry that is appended is weighed one block deeper than the failure it follows.
  lemma PotentialAfterRetry(h: seq<Run>, h': seq<Run>, a: Run)
    requires HistoryOk(h, false) && RetryPending(h[|h| - 1])
    requires |h'| == |h| && forall i | 0 <= i < |h| :: h'[i].trigger == h[i].trigger
    requires a.trigger == AutomaticRetry && (a.status == Queued || (a.status == Failed && !a.retryable))
    ensures Potential(h' + [a]) < Potential(h)
  {
    DepthSame(h, h' + [a], |h| - 1);
  }

  lemma RetryOf(db: Db, tx: Tx, k: Key, added: seq<Run>) returns (a: Run, parent: Run)
    requires tx.RetryTx? && added != [] && |added| <= 1
    requires Fresh(db, tx, added[0]) && added[0].key == k
    ensures added == [a] && parent in db.runs && RetryPending(parent) && parent.key == k
    ensures a.trigger == AutomaticRetry && (a.status == Queued || (a.status == Failed && !a.retryable))
  {
    a := added[0];
    parent :| parent in db.runs && parent.uid == tx.run && RetryPending(parent) && RetryRun(a, parent);
  }

  lemma OneRetryAdded(db: Db, tx: Tx, k: Key) returns (added: seq<Run>)
    requires !tx.PurgeTx?
    ensures RunsOf(After(db, tx).runs, k) == MapRows(r => NewRow(db, tx, r), RunsOf(db.runs, k)) + added
    ensures forall a | a in added :: Fresh(db, tx, a) && a.key == k
    ensures added != [] ==> Fresh(db, tx, added[0]) && added[0].key == k
    ensures tx.RetryTx? ==> |added| <= 1
  {
    added := HistoryEffect(db, tx, k);
    assert added != [] ==> added[0] in added;
    if tx.RetryTx? && Commit(db, tx).Ok? {
      var all := RetryEffectRows(db, tx);
      var f := (r: Run) => NewRow(db, tx, r);
      forall r | r in db.runs ensures f(r).key == r.key {
        NewRowKeepsKey(db, tx, r);
      }
      hide NewRow, Commit;
      RunsOfMapped(f, db.runs, k);
      RunsOfConcat(MapRows(f, db.runs), all, k);
      assert |RunsOf(all, k)| <= |all| by { RunsOfShorter(all, k); }
      assert |added| == |RunsOf(all, k)|;
    }
  }

  lemma {:induction false} RunsOfShorter(rows: seq<Run>, k: Key)
    ensures |RunsOf(rows, k)| <= |rows|
  {
    if rows != [] {
      RunsOfShorter(rows[..|rows| - 1], k);
    }
  }

  // Only requests and retries add runs.
  lemma NothingAdded(db: Db, tx: Tx, k: Key, added: seq<Run>)
    requires !Requests(tx, k) && !tx.RetryTx?
    requires added != [] ==> Fresh(db, tx, added[0]) && added[0].key == k
    ensures added == []
  {
  }

  lemma HistoryOrNothing(db: Db, k: Key)
    requires Valid(db)
    ensures RunsOf(db.runs, k) == [] || (k in db.targets && HistoryOk(RunsOf(db.runs, k), Cancelled?(db.targets, k)))
    ensures forall r | r in RunsOf(db.runs, k) :: r in db.runs && r.key == k
    ensures Sorted(db.runs)
  {
    InRunsOf(db.runs, k);
    if RunsOf(db.runs, k) != [] {
      assert RunsOf(db.runs, k)[0] in RunsOf(db.runs, k);
    }
  }

  lemma RetryUsesPotential(db: Db, tx: Tx, k: Key, added: seq<Run>)
    requires Valid(db) && tx.RetryTx? && added != [] && |added| <= 1
    requires Fresh(db, tx, added[0]) && added[0].key == k
    ensures Potential(MapRows(r => NewRow(db, tx, r), RunsOf(db.runs, k)) + added) < Potential(RunsOf(db.runs, k))
  {
    hide Valid, Fresh, NewRow, RunsOf, Potential, HistoryOk;
    var a, parent := RetryOf(db, tx, k, added);
    UnsettledParent(db, parent);
    var h := RunsOf(db.runs, k);
    var h' := MapRows(r => NewRow(db, tx, r), h);
    forall i | 0 <= i < |h| ensures h'[i].trigger == h[i].trigger {
      NewRowKeepsKey(db, tx, h[i]);
    }
    PotentialAfterRetry(h, h', a);
  }

  lemma UnsettledParent(db: Db, parent: Run)
    requires Valid(db) && parent in db.runs && RetryPending(parent)
    ensures var h := RunsOf(db.runs, parent.key);
            h != [] && h[|h| - 1] == parent && HistoryOk(h, false)
  {
    UnsettledIsLatest(db, parent);
  }

  lemma StepLowersPotential(db: Db, tx: Tx, k: Key)
    requires Valid(db) && !Requests(tx, k)
    ensures Potential(RunsOf(After(db, tx).runs, k)) + (if Moves(db, tx, k) then 1 else 0)
         <= Potential(RunsOf(db.runs, k))
  {
    hide Valid, Fresh, NewRow, Potential;
    if tx.PurgeTx? {
      PurgedHistory(db, tx.now, k);
      EmptyPotential();
    } else {
      var added := OneRetryAdded(db, tx, k);
      var h := RunsOf(db.runs, k);
      if tx.RetryTx? && added != [] {
        RetryUsesPotential(db, tx, k, added);
      } else {
        if !tx.RetryTx? {
          NothingAdded(db, tx, k, added);
        }
        assert MapRows(r => NewRow(db, tx, r), h) + added == MapRows(r => NewRow(db, tx, r), h);
        HistoryOrNothing(db, k);
        if h != [] {
          PotentialAfterUpdate(db, tx, h, Cancelled?(db.targets, k));
        }
      }
    }
  }

  lemma EmptyPotential()
    ensures Potential([]) == 0
  {
  }

  lemma PotentialBounded(h: seq<Run>)
    ensures Potential(h) <= FullPotential
  {
  }

  ghost function MovesIn(db: Db, txs: seq<Tx>, k: Key): nat
    decreases |txs|
  {
    if txs == [] then 0
    else (if Moves(db, txs[0], k) then 1 else 0) + MovesIn(After(db, txs[0]), txs[1..], k)
  }

  // However transactions are interleaved, between two requests for a target the queue touches
  // it at most twelve times.
  lemma {:induction false} QueueComesToRest(db: Db, txs: seq<Tx>, k: Key)
    requires Valid(db) && forall tx | tx in txs :: !Requests(tx, k)
    ensures MovesIn(db, txs, k) + Potential(RunsOf(Replay(db, txs).runs, k)) <= Potential(RunsOf(db.runs, k))
    ensures MovesIn(db, txs, k) <= FullPotential
    decreases |txs|
  {
    hide Valid, Moves, Potential, After;
    PotentialBounded(RunsOf(db.runs, k));
    if txs != [] {
      assert txs[0] in txs && forall tx | tx in txs[1..] :: tx in txs;
      StepLowersPotential(db, txs[0], k);
      CommitKeepsValid(db, txs[0]);
      QueueComesToRest(After(db, txs[0]), txs[1..], k);
    }
  }
}
