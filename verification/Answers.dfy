// What each transaction answers and what it leaves behind, said of the rows and fields themselves:
// when it succeeds, which error comes first when it does not, which rows change and how.
module Answers {
  import opened Domain
  import opened Tables
  import opened Schema
  import opened Transactions
  import opened History
  import opened Invariant
  import opened Preservation
  import opened AcceptPurge
  import opened Effects
  import opened Chains
  import opened Requests
  import opened Refusals
  import Stability
  import Repo = Repository

  // The job stays for the next 48 hours.
  function KeptOn(jobs: map<Uid, Job>, job: Uid, now: Stamp): map<Uid, Job> {
    if job in jobs then jobs[job := jobs[job].(expiresAt := now + 172800)] else jobs
  }

  lemma TouchKeepsOn(db: Db, job: Uid, now: Stamp)
    ensures Touch(db, job, now) == db.(jobs := KeptOn(db.jobs, job, now))
  {
  }

  lemma MapSame(f: Run -> Run, g: Run -> Run, rows: seq<Run>)
    requires forall x | x in rows :: f(x) == g(x)
    ensures MapRows(f, rows) == MapRows(g, rows)
  {
    assert forall i | 0 <= i < |rows| :: rows[i] in rows;
  }

  lemma OnlyRow(db: Db, r: Run)
    requires Valid(db) && r in db.runs
    ensures Lookup(db.runs, r.uid) == Some(r)
    ensures forall x | x in db.runs && x.uid == r.uid :: x == r
  {
    assert UniqueUids(db.runs);
    hide Valid;
    LookupFinds(db.runs, r);
  }

  // ---- claiming ----

  // The queued run of the printer that was queued first starts; with none queued nothing is found.
  lemma ClaimExactly(db: Db, p: PrinterId, now: Stamp) returns (q: Run)
    requires Sorted(db.runs)
    ensures Commit(db, ClaimTx(p, now)).Err? <==> forall r | r in db.runs && r.key.printer == p :: r.status != Queued
    ensures Commit(db, ClaimTx(p, now)).Err? ==> Commit(db, ClaimTx(p, now)) == Err(NotFound)
    ensures Commit(db, ClaimTx(p, now)).Ok? ==>
              && q in db.runs && q.key.printer == p && q.status == Queued
              && (forall r | r in db.runs && r.key.printer == p && r.status == Queued :: q.sequence <= r.sequence)
              && After(db, ClaimTx(p, now))
                 == db.(runs := MapRows((r: Run) => if r == q then r.(status := Processing, startedAt := Some(now)) else r, db.runs))
  {
    if NextQueued(db.runs, p).None? {
      q := NewRun(0, Key(0, 0), 0, Initial, Normal, None, None, None, 0, 0);
    } else {
      q := NextQueued(db.runs, p).value;
      forall r | r in db.runs && r.key.printer == p && r.status == Queued ensures q.sequence <= r.sequence {
        NextIsFirst(db.runs, p, r);
      }
      hide NextQueued;
      ClaimedAlone(db.runs, q, now);
    }
  }

  lemma ClaimedAlone(rows: seq<Run>, q: Run, now: Stamp)
    requires Sorted(rows) && q in rows
    ensures ClaimedRows(rows, q.sequence, now)
         == MapRows((r: Run) => if r == q then r.(status := Processing, startedAt := Some(now)) else r, rows)
  {
    forall i | 0 <= i < |rows| && rows[i].sequence == q.sequence ensures rows[i] == q {
      SameSequence(rows, rows[i], q);
    }
  }

  // ---- recording an outcome ----

  function WantedStatus(o: Outcome): Status {
    if o.Sent? then Transmitted else if o.NotPrinted? then Failed else Uncertain
  }

  // The processing row as the outcome leaves it.
  function Settling(r: Run, o: Outcome, now: Stamp): Run {
    if o.Sent? then
      r.(status := Transmitted, retryable := false, bytesAccepted := o.bytes, errorCode := None,
         finishedAt := Some(now), transmittedAt := Some(now))
    else
      r.(status := if o.NotPrinted? then Failed else Uncertain, retryable := o.NotPrinted? && o.retryable,
         bytesAccepted := o.bytes, errorCode := Some(o.code), finishedAt := Some(now))
  }

  // A mark is accepted exactly for a processing run or one that already has the wanted status; it
  // changes the processing row and nothing else, and keeps the job for 48 hours.
  lemma MarkExactly(db: Db, r: Run, o: Outcome, now: Stamp)
    requires Valid(db) && r in db.runs
    ensures var tx := MarkTx(r.uid, o, now);
            && (Commit(db, tx).Ok? <==> r.status == Processing || r.status == WantedStatus(o))
            && (Commit(db, tx).Err? ==> Commit(db, tx) == Err(StateChanged))
            && (Commit(db, tx).Ok? ==>
                  After(db, tx)
                  == db.(runs := MapRows((x: Run) => if x == r && r.status == Processing then Settling(r, o, now) else x, db.runs),
                                       jobs := KeptOn(db.jobs, r.key.job, now)))
  {
    hide Valid, Lookup, MarkedRows, MapRows, Settling;
    OnlyRow(db, r);
    MarkedAlone(db.runs, r, o, now);
    TouchKeepsOn(db.(runs := MarkedRows(db.runs, r.uid, o, now)), r.key.job, now);
  }

  lemma MarkedAlone(rows: seq<Run>, r: Run, o: Outcome, now: Stamp)
    requires forall x | x in rows && x.uid == r.uid :: x == r
    ensures MarkedRows(rows, r.uid, o, now)
         == MapRows((x: Run) => if x == r && r.status == Processing then Settling(r, o, now) else x, rows)
  {
    var f := (x: Run) => Marked(x, r.uid, o, now);
    var g := (x: Run) => if x == r && r.status == Processing then Settling(r, o, now) else x;
    MarkedOne(r, o, now);
    forall x | x in rows ensures f(x) == g(x) {
      if x.uid == r.uid {
        assert x == r;
      }
    }
    hide Marked, Settling;
    MapSame(f, g, rows);
  }

  lemma MarkedOne(r: Run, o: Outcome, now: Stamp)
    ensures Marked(r, r.uid, o, now) == if r.status == Processing then Settling(r, o, now) else r
  {
  }

  lemma NoSuchRun(db: Db, uid: Uid, o: Outcome, now: Stamp)
    requires forall r | r in db.runs :: r.uid != uid
    ensures Commit(db, MarkTx(uid, o, now)) == Err(StateChanged)
    ensures Commit(db, CancelRunTx(uid, now)) == Err(StateChanged)
    ensures Commit(db, ConfirmTx(uid, now)) == Err(StateChanged)
  {
  }

  // ---- cancelling and confirming one run ----

  // Only a queued run is cancelled; a cancelled one is accepted again and stays as it is.
  lemma CancelRunExactly(db: Db, r: Run, now: Stamp)
    requires Valid(db) && r in db.runs
    ensures var tx := CancelRunTx(r.uid, now);
            && (Commit(db, tx).Ok? <==> r.status == Queued || r.status == Cancelled)
            && (Commit(db, tx).Err? ==> Commit(db, tx) == Err(StateChanged))
            && (Commit(db, tx).Ok? ==>
                  After(db, tx)
                  == db.(runs := MapRows((x: Run) => if x == r && r.status == Queued
                                              then r.(status := Cancelled, retryable := false, finishedAt := Some(now)) else x, db.runs),
                         jobs := KeptOn(db.jobs, r.key.job, now)))
  {
    hide Valid, Lookup, WithdrawnRows, MapRows;
    OnlyRow(db, r);
    WithdrawnAlone(db.runs, r, now);
    TouchKeepsOn(db.(runs := WithdrawnRows(db.runs, r.uid, now)), r.key.job, now);
  }

  lemma WithdrawnAlone(rows: seq<Run>, r: Run, now: Stamp)
    requires forall x | x in rows && x.uid == r.uid :: x == r
    ensures WithdrawnRows(rows, r.uid, now)
         == MapRows((x: Run) => if x == r && r.status == Queued
                                then r.(status := Cancelled, retryable := false, finishedAt := Some(now)) else x, rows)
  {
    MapSame((x: Run) => Withdrawn(x, r.uid, now),
            (x: Run) => if x == r && r.status == Queued
                        then r.(status := Cancelled, retryable := false, finishedAt := Some(now)) else x, rows);
  }

  lemma ConfirmedAlone(rows: seq<Run>, r: Run, now: Stamp)
    requires forall x | x in rows && x.uid == r.uid :: x == r
    ensures r.status == Uncertain && r.resolution == Unresolved ==>
              ResolvedRows(rows, r.uid, ConfirmedPrinted, now)
              == MapRows((x: Run) => if x == r then r.(resolution := ConfirmedPrinted, resolvedAt := Some(now)) else x, rows)
  {
    if r.status == Uncertain && r.resolution == Unresolved {
      MapSame((x: Run) => Resolved(x, r.uid, ConfirmedPrinted, now),
              (x: Run) => if x == r then r.(resolution := ConfirmedPrinted, resolvedAt := Some(now)) else x, rows);
    }
  }

  // Only an unresolved uncertain run is confirmed.
  lemma ConfirmExactly(db: Db, r: Run, now: Stamp)
    requires Valid(db) && r in db.runs
    ensures var tx := ConfirmTx(r.uid, now);
            && (Commit(db, tx).Ok? <==> r.status == Uncertain && r.resolution == Unresolved)
            && (Commit(db, tx).Err? ==> Commit(db, tx) == Err(StateChanged))
            && (Commit(db, tx).Ok? ==>
                  After(db, tx)
                  == db.(runs := MapRows((x: Run) => if x == r then r.(resolution := ConfirmedPrinted, resolvedAt := Some(now)) else x, db.runs),
                         jobs := KeptOn(db.jobs, r.key.job, now)))
  {
    hide Valid, Lookup, ResolvedRows, MapRows;
    OnlyRow(db, r);
    ConfirmedAlone(db.runs, r, now);
    TouchKeepsOn(db.(runs := ResolvedRows(db.runs, r.uid, ConfirmedPrinted, now)), r.key.job, now);
  }

  // ---- cancelling targets ----

  // Why one target cannot be cancelled, in the order in which the reasons are looked for.
  ghost function Objection(db: Db, k: Key): Option<DbError> {
    if exists r :: r in db.runs && r.key == k
                   && (r.status == Transmitted || (r.status == Uncertain && r.resolution == ConfirmedPrinted))
    then Some(TargetFulfilled)
    else if exists r :: r in db.runs && r.key == k && r.status == Processing then Some(StateChanged)
    else if k !in db.targets then Some(NotFound)
    else None
  }

  // The first objection along a list of printers.
  ghost predicate FirstObjection(db: Db, job: Uid, printers: seq<PrinterId>, i: nat, e: DbError) {
    i < |printers| && Objection(db, Key(job, printers[i])) == Some(e)
    && forall j | 0 <= j < i :: Objection(db, Key(job, printers[j])).None?
  }

  predicate Listed(k: Key, job: Uid, printers: seq<PrinterId>) {
    k.job == job && k.printer in printers
  }

  // A run of a cancelled target: what was queued is cancelled, what waited for a retry is given up.
  function GivenUp(r: Run, now: Stamp): Run {
    if r.status == Queued then r.(status := Cancelled, retryable := false, finishedAt := Some(now))
    else if r.status == Failed && r.retryable && r.resolution == Unresolved then r.(retryable := false)
    else r
  }

  lemma TargetAnswer(db: Db, k: Key, now: Stamp)
    ensures CancelTarget(db, k, now).Err? <==> Objection(db, k).Some?
    ensures CancelTarget(db, k, now).Err? ==> CancelTarget(db, k, now).error == Objection(db, k).value
    ensures CancelTarget(db, k, now).Ok? ==>
              k in db.targets
              && CancelTarget(db, k, now).value
                 == db.(targets := db.targets[k := db.targets[k].(cancelledAt := Some(now))],
                        runs := MapRows((r: Run) => if r.key == k then GivenUp(r, now) else r, db.runs))
  {
    if CancelTarget(db, k, now).Ok? {
      assert DroppedRows(db.runs, k, now) == MapRows((r: Run) => if r.key == k then GivenUp(r, now) else r, db.runs);
    }
  }

  // Cancelling one target gives no other a reason against it, and takes none away.
  lemma ObjectionKept(db: Db, k: Key, now: Stamp, k': Key)
    requires CancelTarget(db, k, now).Ok?
    ensures Objection(CancelTarget(db, k, now).value, k') == Objection(db, k')
  {
    hide CancelTarget, Objection, GivenUp, MapRows;
    TargetAnswer(db, k, now);
    var f := (r: Run) => if r.key == k then GivenUp(r, now) else r;
    var db' := CancelTarget(db, k, now).value;
    assert db'.runs == MapRows(f, db.runs) && db'.targets.Keys == db.targets.Keys;
    forall r | r in db.runs ensures f(r) in db'.runs {
      MappedIn(f, db.runs, r);
    }
    forall r' | r' in db'.runs ensures exists r :: r in db.runs && r' == f(r) {
      var r := MappedRow(f, db.runs, r');
    }
    forall r ensures Settles(r, f(r)) {
      GivenUpSettles(r, now);
    }
    hide Settles;
    SameObjection(db, db', f, k');
  }

  // What matters of a run stays: its target, and whether it fulfils or is processing.
  predicate Settles(r: Run, r': Run) {
    && r'.key == r.key && r'.resolution == r.resolution
    && (r'.status == r.status || (r.status == Queued && r'.status == Cancelled))
  }

  lemma GivenUpSettles(r: Run, now: Stamp)
    ensures Settles(r, r) && Settles(r, GivenUp(r, now))
  {
  }

  lemma SameObjection(db: Db, db': Db, f: Run -> Run, k: Key)
    requires db'.targets.Keys == db.targets.Keys
    requires forall r | r in db.runs :: f(r) in db'.runs
    requires forall r' | r' in db'.runs :: exists r :: r in db.runs && r' == f(r)
    requires forall r :: Settles(r, f(r))
    ensures Objection(db', k) == Objection(db, k)
  {
    FulfilledSame(db, db', f, k);
    ProcessingSame(db, db', f, k);
    assert k in db'.targets <==> k in db.targets.Keys;
    hide Settles;
  }

  lemma FulfilledSame(db: Db, db': Db, f: Run -> Run, k: Key)
    requires forall r | r in db.runs :: f(r) in db'.runs
    requires forall r' | r' in db'.runs :: exists r :: r in db.runs && r' == f(r)
    requires forall r :: Settles(r, f(r))
    ensures (exists r :: r in db'.runs && r.key == k
                    && (r.status == Transmitted || (r.status == Uncertain && r.resolution == ConfirmedPrinted)))
       <==> (exists r :: r in db.runs && r.key == k
                    && (r.status == Transmitted || (r.status == Uncertain && r.resolution == ConfirmedPrinted)))
  {
  }

  lemma ProcessingSame(db: Db, db': Db, f: Run -> Run, k: Key)
    requires forall r | r in db.runs :: f(r) in db'.runs
    requires forall r' | r' in db'.runs :: exists r :: r in db.runs && r' == f(r)
    requires forall r :: Settles(r, f(r))
    ensures (exists r :: r in db'.runs && r.key == k && r.status == Processing)
       <==> (exists r :: r in db.runs && r.key == k && r.status == Processing)
  {
  }

  // The loop stops at the first objection of the database it began with.
  lemma {:induction false} CancelEachAnswer(db: Db, job: Uid, printers: seq<PrinterId>, now: Stamp)
    ensures CancelEach(db, job, printers, now).Ok? <==>
              forall i | 0 <= i < |printers| :: Objection(db, Key(job, printers[i])).None?
    ensures forall i: nat, e | FirstObjection(db, job, printers, i, e) :: CancelEach(db, job, printers, now) == Err(e)
    decreases |printers|
  {
    hide CancelTarget, Objection;
    if printers != [] {
      var k := Key(job, printers[0]);
      TargetAnswer(db, k, now);
      if CancelTarget(db, k, now).Ok? {
        var db' := CancelTarget(db, k, now).value;
        CancelEachAnswer(db', job, printers[1..], now);
        forall i | 0 <= i < |printers| ensures Objection(db', Key(job, printers[i])) == Objection(db, Key(job, printers[i])) {
          ObjectionKept(db, k, now, Key(job, printers[i]));
        }
        forall i: nat, e | FirstObjection(db, job, printers, i, e) ensures CancelEach(db, job, printers, now) == Err(e) {
          assert i > 0 && printers[1..][i - 1] == printers[i];
          assert forall j | 0 <= j < i - 1 :: printers[1..][j] == printers[j + 1];
          assert FirstObjection(db', job, printers[1..], i - 1, e);
        }
        assert forall i | 0 <= i < |printers| - 1 :: printers[1..][i] == printers[i + 1];
        assert forall i | 0 < i < |printers| :: printers[i] == printers[1..][i - 1];
      }
    }
  }

  lemma {:induction false} CancelEachEffect(db: Db, job: Uid, printers: seq<PrinterId>, now: Stamp)
    requires CancelEach(db, job, printers, now).Ok?
    ensures var db' := CancelEach(db, job, printers, now).value;
            && db'.jobs == db.jobs && db'.dedup == db.dedup && db'.lastSequence == db.lastSequence
            && db'.targets.Keys == db.targets.Keys
            && (forall k | k in db.targets ::
                  db'.targets[k] == if Listed(k, job, printers) then db.targets[k].(cancelledAt := Some(now)) else db.targets[k])
            && db'.runs == MapRows((r: Run) => if Listed(r.key, job, printers) then GivenUp(r, now) else r, db.runs)
    decreases |printers|
  {
    if printers == [] {
      assert MapRows((r: Run) => if Listed(r.key, job, printers) then GivenUp(r, now) else r, db.runs) == db.runs;
    } else {
      var k := Key(job, printers[0]);
      TargetAnswer(db, k, now);
      var db' := CancelTarget(db, k, now).value;
      hide CancelTarget;
      CancelEachEffect(db', job, printers[1..], now);
      var last := CancelEach(db, job, printers, now).value;
      ListedFirst(job, printers);
      assert last.targets.Keys == db.targets.Keys;
      forall x | x in db.targets
        ensures last.targets[x] == if Listed(x, job, printers) then db.targets[x].(cancelledAt := Some(now)) else db.targets[x]
      {
        assert x in db'.targets.Keys;
      }
      GivenUpEach(db.runs, k, job, printers, now);
    }
  }

  lemma ListedFirst(job: Uid, printers: seq<PrinterId>)
    requires printers != []
    ensures forall k :: Listed(k, job, printers) <==> k == Key(job, printers[0]) || Listed(k, job, printers[1..])
  {
    assert printers == [printers[0]] + printers[1..];
    forall k: Key ensures Listed(k, job, printers) <==> k == Key(job, printers[0]) || Listed(k, job, printers[1..]) {
      assert k == Key(k.job, k.printer);
    }
  }

  lemma GivenUpEach(rows: seq<Run>, k: Key, job: Uid, printers: seq<PrinterId>, now: Stamp)
    requires printers != [] && k == Key(job, printers[0])
    ensures MapRows((r: Run) => if Listed(r.key, job, printers[1..]) then GivenUp(r, now) else r,
                    MapRows((r: Run) => if r.key == k then GivenUp(r, now) else r, rows))
         == MapRows((r: Run) => if Listed(r.key, job, printers) then GivenUp(r, now) else r, rows)
  {
    ListedFirst(job, printers);
    hide Listed;
  }

  // All the named targets are cancelled or none, exactly as they all can be; the answer otherwise is
  // the objection to the first that cannot.
  lemma CancelTargetsExactly(db: Db, job: Uid, printers: seq<PrinterId>, now: Stamp)
    ensures var tx := CancelTargetsTx(job, printers, now);
            var db' := After(db, tx);
            && (Commit(db, tx).Ok? <==> forall i | 0 <= i < |printers| :: Objection(db, Key(job, printers[i])).None?)
            && (forall i: nat, e | FirstObjection(db, job, printers, i, e) :: Commit(db, tx) == Err(e))
            && (Commit(db, tx).Err? ==> db' == db)
            && (Commit(db, tx).Ok? ==>
                  && db'.targets.Keys == db.targets.Keys
                  && (forall k | k in db.targets ::
                        db'.targets[k] == if Listed(k, job, printers) then db.targets[k].(cancelledAt := Some(now)) else db.targets[k])
                  && db'.runs == MapRows((r: Run) => if Listed(r.key, job, printers) then GivenUp(r, now) else r, db.runs)
                  && db'.jobs == KeptOn(db.jobs, job, now) && db'.dedup == db.dedup && db'.lastSequence == db.lastSequence)
  {
    hide Objection, CancelEach, MapRows, GivenUp, Listed;
    CancelEachAnswer(db, job, printers, now);
    if CancelEach(db, job, printers, now).Ok? {
      CancelEachEffect(db, job, printers, now);
      TouchKeepsOn(CancelEach(db, job, printers, now).value, job, now);
    }
  }

  // ---- automatic retries ----

  // The last three runs of the history are automatic retries.
  predicate ThreeRetries(h: seq<Run>) {
    var n := |h|;
    n > 3 && h[n - 1].trigger == AutomaticRetry && h[n - 2].trigger == AutomaticRetry && h[n - 3].trigger == AutomaticRetry
  }

  lemma DepthOfThree(h: seq<Run>)
    ensures LastDepth(h) >= 3 <==> ThreeRetries(h)
  {
    var n := |h|;
    if n > 1 {
      assert Depth(h, n - 1) == if h[n - 1].trigger == AutomaticRetry then 1 + Depth(h, n - 2) else 0;
    }
    if n > 2 {
      assert Depth(h, n - 2) == if h[n - 2].trigger == AutomaticRetry then 1 + Depth(h, n - 3) else 0;
    }
    if n > 3 {
      assert Depth(h, n - 3) == if h[n - 3].trigger == AutomaticRetry then 1 + Depth(h, n - 4) else 0;
    }
  }

  // The run that answers r: queued with the content's hash, or already failed when the content can
  // no longer be rendered.
  function Answering(r: Run, sequence: nat, newUid: Uid, hash: Option<ContentHash>, now: Stamp): Run {
    if hash.Some?
    then Run(sequence, newUid, r.key, r.number + 1, AutomaticRetry, r.mode, Some(r.uid), None, None, hash.value,
             Queued, false, Unresolved, None, 0, now, None, None, None, None)
    else Run(sequence, newUid, r.key, r.number + 1, AutomaticRetry, r.mode, Some(r.uid), None, None, 0,
             Failed, false, Unresolved, Some("content_changed"), 0, now, None, Some(now), None, None)
  }

  function Spending(rows: seq<Run>, r: Run): seq<Run> {
    MapRows((x: Run) => if x == r then r.(retryable := false) else x, rows)
  }

  lemma SpentAlone(rows: seq<Run>, r: Run)
    requires forall x | x in rows && x.uid == r.uid :: x == r
    requires r.retryable
    ensures SpentRows(rows, r.uid) == Spending(rows, r)
  {
    MapSame((x: Run) => Spent(x, r.uid), (x: Run) => if x == r then r.(retryable := false) else x, rows);
  }

  lemma SpentBehind(rows: seq<Run>, r: Run, run: Run)
    requires forall x | x in rows && x.uid == r.uid :: x == r
    requires r.retryable && !run.retryable
    ensures SpentRows(rows + [run], r.uid) == Spending(rows, r) + [run]
  {
    SpentAlone(rows, r);
    assert SpentRows(rows + [run], r.uid) == SpentRows(rows, r.uid) + [run];
  }

  // What is inserted for the retry of a pending run.
  lemma RetryInserted(db: Db, r: Run, newUid: Uid, hash: Option<ContentHash>, now: Stamp)
    requires Valid(db) && r in db.runs && RetryPending(r) && forall x | x in db.runs :: x.uid != newUid
    ensures var run := Answering(r, db.lastSequence + 1, newUid, hash, now);
            RetryInsert(db, r, newUid, hash, now).Ok?
            && RetryInsert(db, r, newUid, hash, now).value.0
               == db.(runs := SpentRows(db.runs + [run], r.uid), lastSequence := db.lastSequence + 1)
  {
    hide Valid, RetryPending, Active, MaxNumber, SpentRows, Cancelled?, Refusal, RetryInsert, RetryCandidate, Answering;
    PendingTargetIsQuiet(db, r);
    RetryFits(db, r, newUid, hash, now);
    NextNumber(db, r);
    FreshUid(db, r, newUid, hash, now);
    InsertedForm(db, r, newUid, hash, now);
    CandidateIs(db, r, newUid, hash, now);
  }

  lemma InsertedForm(db: Db, r: Run, newUid: Uid, hash: Option<ContentHash>, now: Stamp)
    requires r.key.job in db.jobs && r.key in db.targets && !Cancelled?(db.targets, r.key)
    requires forall x | x in db.runs && x.key == r.key :: !Active(x)
    requires Refusal(db.runs, db.targets, RetryCandidate(db, r, newUid, hash, now)).None?
    ensures var run := RetryCandidate(db, r, newUid, hash, now).(sequence := db.lastSequence + 1);
            RetryInsert(db, r, newUid, hash, now).Ok?
            && RetryInsert(db, r, newUid, hash, now).value.0
               == db.(runs := SpentRows(db.runs + [run], r.uid), lastSequence := db.lastSequence + 1)
  {
    hide Active, Refusal, RetryCandidate, SpentRows;
  }

  lemma CandidateIs(db: Db, r: Run, newUid: Uid, hash: Option<ContentHash>, now: Stamp)
    requires MaxNumber(db.runs, r.key) == r.number
    ensures RetryCandidate(db, r, newUid, hash, now).(sequence := db.lastSequence + 1)
         == Answering(r, db.lastSequence + 1, newUid, hash, now)
  {
    hide MaxNumber;
  }

  lemma NextNumber(db: Db, r: Run)
    requires Valid(db) && r in db.runs && RetryPending(r)
    ensures MaxNumber(db.runs, r.key) == r.number
  {
    RowKey(db, r);
    HistoryAt(db, r.key);
    assert HistoriesOk(db.runs, db.targets, {});
    hide Valid;
    UnsettledIsLatest(db, r);
    SelectedFromHistory(db.runs, r.key, Cancelled?(db.targets, r.key));
  }

  // A random id that is new meets no clash on itself.
  lemma FreshUid(db: Db, r: Run, newUid: Uid, hash: Option<ContentHash>, now: Stamp)
    requires forall x | x in db.runs :: x.uid != newUid
    ensures Refusal(db.runs, db.targets, RetryCandidate(db, r, newUid, hash, now)) != Some(UniqueUid)
  {
    hide MaxNumber, RefersInside, RowOk, Active;
  }

  // A pending failure is answered by a run numbered one more while its block has fewer than three
  // automatic retries, and given up when it has three; a run that is not pending is left alone.
  lemma RetryExactly(db: Db, r: Run, newUid: Uid, hash: Option<ContentHash>, now: Stamp)
    requires Valid(db) && r in db.runs && forall x | x in db.runs :: x.uid != newUid
    ensures var tx := RetryTx(r.uid, newUid, hash, now);
            if !(r.status == Failed && r.retryable && r.resolution == Unresolved) then Commit(db, tx) == Err(StateChanged)
            else if ThreeRetries(RunsOf(db.runs, r.key)) then Commit(db, tx) == Ok(db.(runs := Spending(db.runs, r)))
            else Commit(db, tx) == Ok(db.(runs := Spending(db.runs, r) + [Answering(r, db.lastSequence + 1, newUid, hash, now)],
                                          lastSequence := db.lastSequence + 1))
  {
    hide Valid, Lookup, RetryInsert, SpentRows, Spending, LastDepth, RunsOf, ThreeRetries, Retry, Answering;
    OnlyRow(db, r);
    Repo.RetryCases(db, r.uid, MaxAutomaticRetries, newUid, hash, now);
    DepthOfThree(RunsOf(db.runs, r.key));
    if RetryPending(r) {
      RetryInserted(db, r, newUid, hash, now);
      SpentAlone(db.runs, r);
      AnsweringKeepsItself(r, db.lastSequence + 1, newUid, hash, now);
      SpentBehind(db.runs, r, Answering(r, db.lastSequence + 1, newUid, hash, now));
    }
  }

  lemma AnsweringKeepsItself(r: Run, sequence: nat, newUid: Uid, hash: Option<ContentHash>, now: Stamp)
    ensures !Answering(r, sequence, newUid, hash, now).retryable
  {
  }

  // ---- a round of retries ----

  function UidsOf(rs: seq<Run>): seq<Uid> {
    seq(|rs|, i requires 0 <= i < |rs| => rs[i].uid)
  }

  // Pending failures, each once.
  ghost predicate Waiting(db: Db, rs: seq<Run>) {
    && (forall r | r in rs :: r in db.runs && RetryPending(r))
    && (forall i, j | 0 <= i < j < |rs| :: rs[i].uid != rs[j].uid)
  }

  // The database takes every attempt, and random ids do not repeat.
  ghost predicate GoesWell(db: Db, attempts: seq<Repo.Attempt>) {
    && (forall a | a in attempts :: a.io == Repo.Commits && forall r | r in db.runs :: r.uid != a.run)
    && (forall i, j | 0 <= i < j < |attempts| :: attempts[i].run != attempts[j].run)
  }

  // The table behind is the table before with the runs created, reported as they are, at its end.
  ghost predicate Extends(before: seq<Run>, after: seq<Run>, created: seq<Run>) {
    && |after| == |before| + |created|
    && (forall i | 0 <= i < |before| :: after[i].uid == before[i].uid)
    && (forall i | 0 <= i < |created| :: after[|before| + i].uid == created[i].uid)
  }

  lemma ExtendsTwice(a: seq<Run>, b: seq<Run>, c: seq<Run>, first: seq<Run>, rest: seq<Run>)
    requires Extends(a, b, first) && Extends(b, c, rest)
    ensures Extends(a, c, first + rest)
  {
    forall i | 0 <= i < |first + rest| ensures c[|a| + i].uid == (first + rest)[i].uid {
      if i >= |first| {
        assert c[|b| + (i - |first|)].uid == rest[i - |first|].uid;
      }
    }
  }

  lemma OneOfRound(db: Db, r: Run, a: Repo.Attempt) returns (db': Db)
    requires Valid(db) && r in db.runs && RetryPending(r) && forall x | x in db.runs :: x.uid != a.run
    ensures var reply := Retry(db, r.uid, 3, a.run, a.hash, a.now);
            && reply.Ok? && reply.value.0 == db'
            && Extends(db.runs, db'.runs, if reply.value.1.Some? then [reply.value.1.value] else [])
    ensures Valid(db')
    ensures forall x | x in db.runs && x.uid != r.uid :: x in db'.runs
    ensures forall x | x in db'.runs :: x.uid == a.run || exists y :: y in db.runs && y.uid == x.uid
  {
    var tx := RetryTx(r.uid, a.run, a.hash, a.now);
    hide Valid, Retry, ThreeRetries, RunsOf, Spending, Answering, Extends;
    RetryExactly(db, r, a.run, a.hash, a.now);
    CommitKeepsValid(db, tx);
    db' := After(db, tx);
    SpendingRows(db.runs, r);
    AnsweringUid(r, db.lastSequence + 1, a.run, a.hash, a.now);
    RetryExtends(db, r.uid, a);
  }

  lemma RetryExtends(db: Db, uid: Uid, a: Repo.Attempt)
    requires Retry(db, uid, 3, a.run, a.hash, a.now).Ok?
    ensures var reply := Retry(db, uid, 3, a.run, a.hash, a.now);
            Extends(db.runs, reply.value.0.runs, if reply.value.1.Some? then [reply.value.1.value] else [])
  {
    hide Retry, RowSound;
    if Retry(db, uid, 3, a.run, a.hash, a.now).value.1.None? {
      RetryGivenUp(db, uid, a.run, a.hash, a.now);
    } else {
      var previous, run := RetryEffect(db, uid, a.run, a.hash, a.now);
    }
  }

  lemma RestWaits(db: Db, db': Db, rs: seq<Run>)
    requires rs != [] && Waiting(db, rs) && forall x | x in db.runs && x.uid != rs[0].uid :: x in db'.runs
    ensures Waiting(db', rs[1..])
  {
    hide RetryPending;
    var rest := rs[1..];
    assert forall i | 0 <= i < |rest| :: rest[i] == rs[i + 1] && rs[i + 1] in rs && rest[i].uid != rs[0].uid;
  }

  lemma RestGoesWell(db: Db, db': Db, attempts: seq<Repo.Attempt>)
    requires attempts != [] && GoesWell(db, attempts)
    requires forall x | x in db'.runs :: x.uid == attempts[0].run || exists y :: y in db.runs && y.uid == x.uid
    ensures GoesWell(db', attempts[1..])
  {
    var rest := attempts[1..];
    assert forall i | 0 <= i < |rest| :: rest[i] == attempts[i + 1] && attempts[i + 1] in attempts && rest[i].run != attempts[0].run;
  }

  lemma RoundStep(db: Db, candidates: seq<Uid>, attempts: seq<Repo.Attempt>)
    requires candidates != [] && |attempts| == |candidates| && attempts[0].io == Repo.Commits
    requires Retry(db, candidates[0], 3, attempts[0].run, attempts[0].hash, attempts[0].now).Ok?
    ensures var reply := Retry(db, candidates[0], 3, attempts[0].run, attempts[0].hash, attempts[0].now);
            var all, rest := Repo.RetryAll(db, candidates, 3, attempts), Repo.RetryAll(reply.value.0, candidates[1..], 3, attempts[1..]);
            all == (rest.0, (if reply.value.1.Some? then [reply.value.1.value] else []) + rest.1, rest.2)
  {
    hide Retry;
  }

  lemma SpendingRows(rows: seq<Run>, r: Run)
    ensures forall x | x in rows && x != r :: x in Spending(rows, r)
    ensures forall x | x in Spending(rows, r) :: exists y :: y in rows && y.uid == x.uid
  {
    var f := (x: Run) => if x == r then r.(retryable := false) else x;
    forall x | x in rows && x != r ensures x in Spending(rows, r) {
      MappedIn(f, rows, x);
    }
    forall x | x in Spending(rows, r) ensures exists y :: y in rows && y.uid == x.uid {
      var y := MappedRow(f, rows, x);
    }
  }

  lemma AnsweringUid(r: Run, sequence: nat, newUid: Uid, hash: Option<ContentHash>, now: Stamp)
    ensures Answering(r, sequence, newUid, hash, now).uid == newUid
  {
  }

  // While the database works, a round of retries over any pending runs never ends early: each is
  // answered, by a run or by giving up, and the runs reported are those that were added, in order.
  lemma {:induction false} RoundNeverFails(db: Db, rs: seq<Run>, attempts: seq<Repo.Attempt>)
    requires Valid(db) && |attempts| == |rs| && Waiting(db, rs) && GoesWell(db, attempts)
    ensures var out := Repo.RetryAll(db, UidsOf(rs), 3, attempts);
            out.2.None? && Extends(db.runs, out.0.runs, out.1)
    decreases |rs|
  {
    hide Valid, Retry, RetryPending, Repo.RetryAll, Waiting, GoesWell, Extends;
    if rs == [] {
      RoundEnds(db, UidsOf(rs), attempts);
    } else {
      RoundStarts(db, rs, attempts);
      var db' := OneOfRound(db, rs[0], attempts[0]);
      RestWaits(db, db', rs);
      RestGoesWell(db, db', attempts);
      RoundNeverFails(db', rs[1..], attempts[1..]);
      assert UidsOf(rs)[1..] == UidsOf(rs[1..]);
      RoundStep(db, UidsOf(rs), attempts);
      var reply := Retry(db, rs[0].uid, 3, attempts[0].run, attempts[0].hash, attempts[0].now);
      var rest := Repo.RetryAll(db', UidsOf(rs[1..]), 3, attempts[1..]);
      ExtendsTwice(db.runs, db'.runs, rest.0.runs, if reply.value.1.Some? then [reply.value.1.value] else [], rest.1);
    }
  }

  lemma RoundStarts(db: Db, rs: seq<Run>, attempts: seq<Repo.Attempt>)
    requires rs != [] && |attempts| == |rs| && Waiting(db, rs) && GoesWell(db, attempts)
    ensures rs[0] in db.runs && RetryPending(rs[0]) && attempts[0].io == Repo.Commits
    ensures forall x | x in db.runs :: x.uid != attempts[0].run
  {
    assert rs[0] in rs && attempts[0] in attempts;
  }

  lemma RoundEnds(db: Db, candidates: seq<Uid>, attempts: seq<Repo.Attempt>)
    requires candidates == [] && attempts == []
    ensures Repo.RetryAll(db, candidates, 3, attempts) == (db, [], None) && Extends(db.runs, db.runs, [])
  {
  }

  lemma FirstCandidate(r: Run, after: seq<Run>, p: PrinterId)
    ensures Repo.Candidates([r] + after, p)
         == (if r.key.printer == p && r.status == Failed && r.retryable && r.resolution == Unresolved then [r.uid] else [])
            + Repo.Candidates(after, p)
  {
    assert ([r] + after)[1..] == after;
  }

  // The round tries exactly the pending runs of the printer, those queued earlier first: wherever the
  // table is cut, those of the first part come before those of the second.
  lemma {:induction false} RoundInOrder(before: seq<Run>, after: seq<Run>, p: PrinterId)
    ensures Repo.Candidates(before + after, p) == Repo.Candidates(before, p) + Repo.Candidates(after, p)
    ensures forall r: Run :: Repo.Candidates([r], p) ==
              if r.key.printer == p && r.status == Failed && r.retryable && r.resolution == Unresolved then [r.uid] else []
    decreases |before|
  {
    hide Repo.Candidates;
    forall r: Run ensures Repo.Candidates([r], p) ==
              if r.key.printer == p && r.status == Failed && r.retryable && r.resolution == Unresolved then [r.uid] else []
    {
      FirstCandidate(r, [], p);
      NoCandidates(p);
      assert [r] + [] == [r];
    }
    if before == [] {
      assert before + after == after;
      NoCandidates(p);
    } else {
      var r, rest := before[0], before[1..];
      RoundInOrder(rest, after, p);
      FirstCandidate(r, rest, p);
      FirstCandidate(r, rest + after, p);
      assert [r] + rest == before && [r] + (rest + after) == before + after;
    }
  }

  lemma NoCandidates(p: PrinterId)
    ensures Repo.Candidates([], p) == []
  {
  }

  // ---- recovery and retention ----

  // Exactly the processing runs become uncertain.
  lemma RecoverExactly(db: Db, now: Stamp)
    ensures After(db, RecoverTx(now))
         == db.(runs := MapRows((r: Run) =>
                  if r.status == Processing
                  then r.(status := Uncertain, retryable := false, finishedAt := Some(now),
                          errorCode := Some("agent_restart_during_processing"))
                  else r, db.runs))
  {
    MapSame((r: Run) => Abandoned(r, now),
            (r: Run) => if r.status == Processing
                        then r.(status := Uncertain, retryable := false, finishedAt := Some(now),
                                errorCode := Some("agent_restart_during_processing"))
                        else r, db.runs);
  }

  // What retention leaves is what belongs to the jobs it leaves, unchanged.
  lemma PurgeExactly(db: Db, now: Stamp, job: Uid, k: Key, r: Run, q: RequestKey)
    ensures var db' := After(db, PurgeTx(now));
            var gone := PurgeableJobs(db, now);
            && (job in db'.jobs <==> job in db.jobs && job !in gone) && (job in db'.jobs ==> db'.jobs[job] == db.jobs[job])
            && (k in db'.targets <==> k in db.targets && k.job !in gone) && (k in db'.targets ==> db'.targets[k] == db.targets[k])
            && (r in db'.runs <==> r in db.runs && r.key.job !in gone)
            && (q in db'.dedup <==> q in db.dedup && q.job !in gone) && (q in db'.dedup ==> db'.dedup[q] == db.dedup[q])
            && db'.lastSequence == db.lastSequence
  {
    hide PurgeableJobs, WithoutJobs;
    InWithoutJobs(db.runs, PurgeableJobs(db, now));
  }
}
