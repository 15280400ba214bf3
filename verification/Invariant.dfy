// The invariant of the queue database and the update patterns that keep it.
module Invariant {
  import opened Domain
  import opened Tables
  import opened Schema
  import opened Transactions
  import opened History

  ghost predicate RowsOk(rows: seq<Run>, targets: map<Key, Target>, lastSequence: nat) {
    && Sorted(rows)
    && UniqueUids(rows)
    && (forall r | r in rows :: 1 <= r.sequence <= lastSequence && r.key in targets)
  }

  ghost predicate UniqueIdentities(jobs: map<Uid, Job>) {
    forall u, v | u in jobs && v in jobs && jobs[u].jobId == jobs[v].jobId && jobs[u].template == jobs[v].template
      :: u == v
  }

  ghost predicate TablesOk(db: Db) {
    && RowsOk(db.runs, db.targets, db.lastSequence)
    && (forall k | k in db.targets :: k.job in db.jobs)
    && UniqueIdentities(db.jobs)
  }

  ghost predicate Cancelled?(targets: map<Key, Target>, k: Key) {
    k in targets && targets[k].cancelledAt.Some?
  }

  // Every target but those still waiting for their first run has a well-formed history.
  ghost predicate HistoriesOk(rows: seq<Run>, targets: map<Key, Target>, waiting: set<Key>) {
    forall k | k in targets ::
      if k in waiting then RunsOf(rows, k) == [] else HistoryOk(RunsOf(rows, k), Cancelled?(targets, k))
  }

  ghost predicate Valid(db: Db) {
    TablesOk(db) && HistoriesOk(db.runs, db.targets, {}) && DedupOk(db.runs, db.targets, db.jobs.Keys, db.dedup, map[])
  }

  // ---- manual reprint requests ----

  function RequestCount(h: seq<Run>, request: RequestId): nat {
    if h == [] then 0
    else RequestCount(h[..|h| - 1], request) + (if h[|h| - 1].request == Some(request) then 1 else 0)
  }

  function Named(dedup: map<RequestKey, ReprintDigest>, k: Key, request: RequestId): nat {
    var id := RequestKey(k.job, request);
    if id in dedup && k.printer in dedup[id].printers then 1 else 0
  }

  // One run per named printer and request, and no other run carries a request; `pending`
  // holds, inside a reprint transaction, the printers it has yet to reach.
  ghost predicate DedupOk(rows: seq<Run>, targets: map<Key, Target>, jobs: set<Uid>,
                          dedup: map<RequestKey, ReprintDigest>, pending: map<RequestKey, set<PrinterId>>)
  {
    && (forall q | q in dedup :: q.job in jobs)
    && (forall q, p | q in dedup && p in dedup[q].printers && !Pending(pending, Key(q.job, p), q.request)
          :: Key(q.job, p) in targets)
    && (forall k, request ::
          RequestCount(RunsOf(rows, k), request)
          == if Pending(pending, k, request) then 0 else Named(dedup, k, request))
  }

  ghost predicate Pending(pending: map<RequestKey, set<PrinterId>>, k: Key, request: RequestId) {
    var id := RequestKey(k.job, request);
    id in pending && k.printer in pending[id]
  }

  lemma {:induction false} RequestCountSame(h: seq<Run>, h': seq<Run>, request: RequestId)
    requires |h| == |h'| && forall i | 0 <= i < |h| :: h[i].request == h'[i].request
    ensures RequestCount(h', request) == RequestCount(h, request)
  {
    if h != [] {
      RequestCountSame(h[..|h| - 1], h'[..|h| - 1], request);
    }
  }

  lemma RequestCountAppend(h: seq<Run>, r: Run, request: RequestId)
    ensures RequestCount(h + [r], request)
         == RequestCount(h, request) + (if r.request == Some(request) then 1 else 0)
  {
    assert (h + [r])[..|h|] == h;
  }

  // ---- updates in place ----

  // What Valid says about a single row.
  ghost predicate Fit(r: Run, cancelled: bool) {
    RowSound(r) && (!Settled(r) ==> LatestOk(r, cancelled))
  }

  // f is a sound update of every fit row when the cancellation marks become targets'.
  ghost predicate SoundEverywhere(f: Run -> Run, rows: seq<Run>, targets: map<Key, Target>, targets': map<Key, Target>) {
    && targets'.Keys == targets.Keys
    && (forall r | r in rows :: SameIdentity(r, f(r)))
    && (forall r | r in rows && Fit(r, Cancelled?(targets, r.key)) ::
          UpdateSound(r, f(r), Cancelled?(targets, r.key), Cancelled?(targets', r.key)))
  }

  lemma MapKeepsTables(f: Run -> Run, rows: seq<Run>)
    requires forall r | r in rows :: SameIdentity(r, f(r))
    ensures Sorted(rows) ==> Sorted(MapRows(f, rows))
    ensures UniqueUids(rows) ==> UniqueUids(MapRows(f, rows))
    ensures forall r' | r' in MapRows(f, rows) :: exists r :: r in rows && r' == f(r)
  {
    var rows' := MapRows(f, rows);
    assert forall i | 0 <= i < |rows| :: rows[i] in rows && rows'[i] == f(rows[i]);
    forall r' | r' in rows' ensures exists r :: r in rows && r' == f(r) {
      var r := MappedRow(f, rows, r');
    }
  }

  lemma MapKeepsRequests(f: Run -> Run, rows: seq<Run>, k: Key, request: RequestId)
    requires forall r | r in rows :: SameIdentity(r, f(r))
    ensures RequestCount(RunsOf(MapRows(f, rows), k), request) == RequestCount(RunsOf(rows, k), request)
  {
    RunsOfMapped(f, rows, k);
    InRunsOf(rows, k);
    var h := RunsOf(rows, k);
    forall i | 0 <= i < |h| ensures h[i].request == MapRows(f, h)[i].request {
      assert h[i] in h;
    }
    RequestCountSame(h, MapRows(f, h), request);
  }

  lemma UpdateKeepsDedup(f: Run -> Run, db: Db, db': Db, pending: map<RequestKey, set<PrinterId>>)
    requires DedupOk(db.runs, db.targets, db.jobs.Keys, db.dedup, pending)
    requires forall r | r in db.runs :: SameIdentity(r, f(r))
    requires db'.runs == MapRows(f, db.runs) && db'.dedup == db.dedup
    requires db'.targets.Keys == db.targets.Keys && db'.jobs.Keys == db.jobs.Keys
    ensures DedupOk(db'.runs, db'.targets, db'.jobs.Keys, db'.dedup, pending)
  {
    forall k, request ensures RequestCount(RunsOf(db'.runs, k), request) == RequestCount(RunsOf(db.runs, k), request) {
      MapKeepsRequests(f, db.runs, k, request);
    }
    forall q, p | q in db'.dedup && p in db'.dedup[q].printers && !Pending(pending, Key(q.job, p), q.request)
      ensures Key(q.job, p) in db'.targets
    {
      assert Key(q.job, p) in db.targets.Keys;
    }
  }

  lemma RowsFit(h: seq<Run>, cancelled: bool)
    requires HistoryOk(h, cancelled)
    ensures forall r | r in h :: Fit(r, cancelled)
  {
    forall r | r in h ensures Fit(r, cancelled) {
      var i := PlaceInHistory(h, r, cancelled);
    }
  }

  lemma UpdateKeepsOneHistory(f: Run -> Run, rows: seq<Run>, k: Key, cancelled: bool, cancelled': bool)
    requires HistoryOk(RunsOf(rows, k), cancelled)
    requires forall r | r in rows && r.key == k && Fit(r, cancelled) :: UpdateSound(r, f(r), cancelled, cancelled')
    requires forall r | r in rows :: f(r).key == r.key
    ensures HistoryOk(RunsOf(MapRows(f, rows), k), cancelled')
  {
    RunsOfMapped(f, rows, k);
    InRunsOf(rows, k);
    var h := RunsOf(rows, k);
    RowsFit(h, cancelled);
    forall i | 0 <= i < |h| ensures UpdateSound(h[i], MapRows(f, h)[i], cancelled, cancelled') {
      assert h[i] in h;
    }
    UpdateKeepsHistory(h, MapRows(f, h), cancelled, cancelled');
  }

  lemma UpdateKeepsHistories(f: Run -> Run, db: Db, db': Db, waiting: set<Key>)
    requires HistoriesOk(db.runs, db.targets, waiting) && SoundEverywhere(f, db.runs, db.targets, db'.targets)
    requires db'.runs == MapRows(f, db.runs)
    ensures HistoriesOk(db'.runs, db'.targets, waiting)
  {
    forall k | k in db'.targets
      ensures if k in waiting then RunsOf(db'.runs, k) == []
              else HistoryOk(RunsOf(db'.runs, k), Cancelled?(db'.targets, k))
    {
      assert k in db'.targets.Keys && k in db.targets;
      if k in waiting {
        RunsOfMapped(f, db.runs, k);
      } else {
        UpdateKeepsOneHistory(f, db.runs, k, Cancelled?(db.targets, k), Cancelled?(db'.targets, k));
      }
    }
  }

  lemma UpdateKeepsRows(f: Run -> Run, rows: seq<Run>, targets: map<Key, Target>, targets': map<Key, Target>, last: nat)
    requires RowsOk(rows, targets, last) && targets'.Keys == targets.Keys
    requires forall r | r in rows :: SameIdentity(r, f(r))
    ensures RowsOk(MapRows(f, rows), targets', last)
  {
    MapKeepsTables(f, rows);
    forall r' | r' in MapRows(f, rows) ensures 1 <= r'.sequence <= last && r'.key in targets' {
      var r := MappedRow(f, rows, r');
      assert r.key in targets'.Keys;
    }
  }

  // The one lemma behind every UPDATE print_runs statement.
  lemma UpdateKeepsValid(f: Run -> Run, db: Db, db': Db)
    requires Valid(db) && SoundEverywhere(f, db.runs, db.targets, db'.targets)
    requires db'.runs == MapRows(f, db.runs)
    requires db'.jobs == db.jobs && db'.dedup == db.dedup && db'.lastSequence == db.lastSequence
    ensures Valid(db')
  {
    UpdateKeepsRows(f, db.runs, db.targets, db'.targets, db.lastSequence);
    UpdateKeepsHistories(f, db, db', {});
    UpdateKeepsDedup(f, db, db', map[]);
    forall k | k in db'.targets ensures k.job in db'.jobs {
      assert k in db.targets.Keys;
    }
  }

  lemma TouchKeepsIdentities(db: Db, job: Uid, now: Stamp)
    requires UniqueIdentities(db.jobs)
    ensures UniqueIdentities(Touch(db, job, now).jobs) && Touch(db, job, now).jobs.Keys == db.jobs.Keys
  {
    var jobs := Touch(db, job, now).jobs;
    assert forall u | u in db.jobs :: jobs[u].jobId == db.jobs[u].jobId && jobs[u].template == db.jobs[u].template;
  }

  // Only expires_at changes.
  lemma TouchKeepsValid(db: Db, job: Uid, now: Stamp)
    requires Valid(db)
    ensures Valid(Touch(db, job, now))
  {
    TouchKeepsIdentities(db, job, now);
  }

  // Facts about a row that follow from its place in a history.
  lemma RowInHistory(db: Db, r: Run) returns (i: nat)
    requires HistoriesOk(db.runs, db.targets, {}) && r in db.runs && r.key in db.targets
    ensures i < |RunsOf(db.runs, r.key)| && RunsOf(db.runs, r.key)[i] == r && r.number == i + 1
    ensures RowSound(r)
    ensures i < |RunsOf(db.runs, r.key)| - 1 ==> Settled(r)
    ensures i == |RunsOf(db.runs, r.key)| - 1 ==> LatestOk(r, Cancelled?(db.targets, r.key))
  {
    InRunsOf(db.runs, r.key);
    i := PlaceInHistory(RunsOf(db.runs, r.key), r, Cancelled?(db.targets, r.key));
  }

  // An unsettled row is the latest of its target.
  lemma UnsettledIsLatest(db: Db, r: Run)
    requires HistoriesOk(db.runs, db.targets, {}) && r in db.runs && r.key in db.targets && !Settled(r)
    ensures var h := RunsOf(db.runs, r.key); |h| > 0 && h[|h| - 1] == r
    ensures RowSound(r) && LatestOk(r, Cancelled?(db.targets, r.key))
  {
    var i := RowInHistory(db, r);
  }

  // ---- appending a run ----

  lemma AppendKeepsRows(rows: seq<Run>, targets: map<Key, Target>, last: nat, r: Run)
    requires RowsOk(rows, targets, last)
    requires r.key in targets && r.sequence == last + 1
    requires forall x | x in rows :: x.uid != r.uid
    ensures RowsOk(rows + [r], targets, last + 1)
  {
    assert forall i | 0 <= i < |rows| :: rows[i] in rows;
  }

  // The numbers and the initial run that a transaction selects are those of the history.
  lemma SelectedFromHistory(rows: seq<Run>, k: Key, cancelled: bool)
    requires HistoryOk(RunsOf(rows, k), cancelled)
    ensures var h := RunsOf(rows, k);
            MaxNumber(rows, k) == |h| && InitialRun(rows, k) == Some(h[0].uid)
  {
    var h := RunsOf(rows, k);
    InRunsOf(rows, k);
    MaxNumberBounds(rows, k);
    assert h[|h| - 1] in h && h[|h| - 1].number == |h|;
    assert h[0] in h;
    forall r | r in h ensures r.number <= |h| && (r.trigger == Initial ==> r == h[0]) {
      var i :| 0 <= i < |h| && h[i] == r;
      if i > 0 {
        assert Follows(h, i);
      }
    }
  }
}
