// The repository: one object around the database, one method per transaction. Each method works
// on a private copy and stores it only when its commit is reached, as a SQLite transaction does.
module Repository {
  import opened Domain
  import opened Tables
  import opened Schema
  import opened Transactions
  import opened History
  import opened Invariant
  import opened Preservation
  import opened AcceptPurge
  import opened Effects
  import opened Chains
  import opened Refusals

  // What SQLite does to one attempt: commits it, fails it before the commit, or commits it and
  // loses the acknowledgement.
  datatype Io = Commits | Fails | LosesAck

  // The answer the caller sees for a transaction whose statements would produce r.
  function Answer<T>(r: Reply<T>, io: Io): Reply<T> {
    match io
    case Commits => r
    case Fails => Err(Unavailable)
    case LosesAck => if r.Ok? then Err(Unavailable) else r
  }

  // The database left behind.
  function Stored(db: Db, r: Reply<Db>, io: Io): Db {
    if io == Fails || r.Err? then db else r.value
  }

  // UPDATE's RowsAffected for WHERE uid = ? AND status = ?
  function Affected(rows: seq<Run>, uid: Uid, status: Status): nat {
    if rows == [] then 0
    else (if rows[0].uid == uid && rows[0].status == status then 1 else 0) + Affected(rows[1..], uid, status)
  }

  lemma {:induction false} AffectedIsLookup(rows: seq<Run>, uid: Uid, status: Status)
    requires UniqueUids(rows) && Sorted(rows)
    ensures Affected(rows, uid, status)
         == var r := Lookup(rows, uid); if r.Some? && r.value.status == status then 1 else 0
  {
    if rows != [] {
      assert forall r | r in rows[1..] :: r in rows;
      AffectedIsLookup(rows[1..], uid, status);
      var rest := Lookup(rows[1..], uid);
      if rows[0].uid == uid && rest.Some? {
        OnlyOneWithUid(rows, rest.value);
      }
    }
  }

  lemma OnlyOneWithUid(rows: seq<Run>, r: Run)
    requires UniqueUids(rows) && Sorted(rows) && rows != [] && r in rows[1..]
    ensures rows[0].uid != r.uid
  {
    var i :| 0 <= i < |rows| - 1 && rows[1..][i] == r;
    assert rows[i + 1] == r && rows[0] in rows;
  }

  class Repository {
    var db: Db

    constructor ()
      ensures db == EmptyDb && Valid(db)
    {
      EmptyIsValid();
      db := EmptyDb;
    }

    // ---- acceptance ----

    method InsertJob(uid: Uid, job: Job, targets: seq<NewTarget>, runs: seq<Run>, io: Io) returns (reply: Reply<()>)
      modifies this
      ensures var r := Transactions.InsertJob(old(db), uid, job, targets, runs);
              && db == Stored(old(db), r, io)
              && reply == Answer(if r.Ok? then Ok(()) else Err(r.error), io)
    {
      if io == Fails {
        return Err(Unavailable);
      }
      var withJob := InsertJobRow(db, uid, job);
      if withJob.Err? {
        return Err(withJob.error);
      }
      var tx := withJob.value;
      for i := 0 to |targets|
        invariant InsertTargets(withJob.value, targets) == InsertTargets(tx, targets[i..])
        invariant db == old(db)
      {
        var inserted := InsertTarget(tx, targets[i]);
        if inserted.Err? {
          return Err(inserted.error);
        }
        assert targets[i..][1..] == targets[i + 1..];
        tx := inserted.value;
      }
      assert targets[|targets|..] == [];
      ghost var withTargets := tx;
      for i := 0 to |runs|
        invariant InsertRuns(withTargets, runs) == InsertRuns(tx, runs[i..])
        invariant db == old(db)
      {
        var inserted := InsertRun(tx, runs[i]);
        if inserted.Err? {
          return Err(inserted.error);
        }
        assert runs[i..][1..] == runs[i + 1..];
        tx := inserted.value;
      }
      assert runs[|runs|..] == [];
      db := tx;
      return if io == LosesAck then Err(Unavailable) else Ok(());
    }

    // ---- claiming and marking ----

    // One UPDATE ... RETURNING; a claim that reports an error changed nothing.
    method ClaimNextQueued(p: PrinterId, now: Stamp, io: Io) returns (reply: Reply<Run>)
      requires Valid(db) && io != LosesAck
      modifies this
      ensures Valid(db)
      ensures var r := Claim(old(db), p, now);
              && reply == Answer(if r.Ok? then Ok(r.value.1) else Err(r.error), io)
              && db == if io == Commits && r.Ok? then r.value.0 else old(db)
      ensures reply.Ok? ==> forall r | r in old(db.runs) && r.key.printer == p && r.status == Queued ::
                              reply.value.sequence <= r.sequence
    {
      if io == Fails {
        return Err(Unavailable);
      }
      var claimed := Claim(db, p, now);
      if claimed.Err? {
        return Err(claimed.error);
      }
      ClaimKeepsValid(db, p, now);
      forall r | r in db.runs && r.key.printer == p && r.status == Queued
        ensures claimed.value.1.sequence <= r.sequence
      {
        NextIsFirst(db.runs, p, r);
      }
      db := claimed.value.0;
      return Ok(claimed.value.1);
    }

    // The shared tail of every status transition: `rows` is the table after the UPDATE and `n`
    // the number of rows it touched. Zero rows are accepted when the run already has the target
    // status, which makes a repeated attempt succeed.
    method Transition(uid: Uid, target: Status, rows: seq<Run>, n: nat, now: Stamp, io: Io) returns (reply: Reply<()>)
      modifies this
      ensures io == Fails ==> reply == Err(Unavailable) && db == old(db)
      ensures io != Fails ==>
                var current := Lookup(rows, uid);
                if n == 1 || (current.Some? && current.value.status == target)
                then db == (if current.Some? then Touch(old(db).(runs := rows), current.value.key.job, now)
                            else old(db).(runs := rows))
                     && reply == (if io == LosesAck then Err(Unavailable) else Ok(()))
                else db == old(db) && reply == Err(StateChanged)
    {
      if io == Fails {
        return Err(Unavailable);
      }
      var current := Lookup(rows, uid);
      if n != 1 {
        if current.None? || current.value.status != target {
          return Err(StateChanged);
        }
      }
      var tx := db.(runs := rows);
      if current.Some? {
        tx := Touch(tx, current.value.key.job, now);
      }
      db := tx;
      return if io == LosesAck then Err(Unavailable) else Ok(());
    }

    // MarkTransmitted, MarkFailed and MarkUncertain differ only in the outcome they store.
    method MarkRun(uid: Uid, o: Outcome, now: Stamp, io: Io) returns (reply: Reply<()>)
      requires Valid(db)
      modifies this
      ensures Valid(db)
      ensures var r := Mark(old(db), uid, o, now);
              && db == Stored(old(db), r, io)
              && reply == Answer(if r.Ok? then Ok(()) else Err(r.error), io)
    {
      hide Valid, Lookup, MarkedRows, Affected;
      var before := db;
      MarkedLookup(before, uid, o, now);
      if io != Fails && Mark(before, uid, o, now).Ok? {
        MarkKeepsValid(before, uid, o, now);
      }
      reply := Transition(uid, StatusOf(o), MarkedRows(db.runs, uid, o, now), Affected(db.runs, uid, Processing), now, io);
    }

    method MarkTransmitted(uid: Uid, bytes: nat, now: Stamp, io: Io) returns (reply: Reply<()>)
      requires Valid(db)
      modifies this
      ensures Valid(db) && db == Stored(old(db), Mark(old(db), uid, Sent(bytes), now), io)
      ensures reply.Ok? <==> io == Commits && Mark(old(db), uid, Sent(bytes), now).Ok?
    {
      reply := MarkRun(uid, Sent(bytes), now, io);
    }

    method MarkFailed(uid: Uid, bytes: nat, code: string, retryable: bool, now: Stamp, io: Io) returns (reply: Reply<()>)
      requires Valid(db)
      modifies this
      ensures Valid(db) && db == Stored(old(db), Mark(old(db), uid, NotPrinted(bytes, code, retryable), now), io)
      ensures reply.Ok? <==> io == Commits && Mark(old(db), uid, NotPrinted(bytes, code, retryable), now).Ok?
    {
      reply := MarkRun(uid, NotPrinted(bytes, code, retryable), now, io);
    }

    method MarkUncertain(uid: Uid, bytes: nat, code: string, now: Stamp, io: Io) returns (reply: Reply<()>)
      requires Valid(db)
      modifies this
      ensures Valid(db) && db == Stored(old(db), Mark(old(db), uid, Unknown(bytes, code), now), io)
      ensures reply.Ok? <==> io == Commits && Mark(old(db), uid, Unknown(bytes, code), now).Ok?
    {
      reply := MarkRun(uid, Unknown(bytes, code), now, io);
    }

    method CancelRun(uid: Uid, now: Stamp, io: Io) returns (reply: Reply<()>)
      requires Valid(db)
      modifies this
      ensures Valid(db)
      ensures var r := Transactions.CancelRun(old(db), uid, now);
              && db == Stored(old(db), r, io)
              && reply == Answer(if r.Ok? then Ok(()) else Err(r.error), io)
    {
      hide Valid, Lookup, WithdrawnRows, Affected;
      var before := db;
      WithdrawnLookup(before, uid, now);
      if io != Fails && Transactions.CancelRun(before, uid, now).Ok? {
        CancelRunKeepsValid(before, uid, now);
      }
      reply := Transition(uid, Cancelled, WithdrawnRows(db.runs, uid, now), Affected(db.runs, uid, Queued), now, io);
    }

    method ResolveUncertain(uid: Uid, resolution: Resolution, now: Stamp, io: Io) returns (reply: Reply<()>)
      requires Valid(db)
      modifies this
      ensures var r := Transactions.ResolveUncertain(old(db), uid, resolution, now);
              && (Valid(db) <==> !(resolution == ReprintRequested && r.Ok? && io != Fails))
              && reply == (if resolution == Unresolved then Err(InvalidResolution)
                           else Answer(if r.Ok? then Ok(()) else Err(r.error), io))
              && db == Stored(old(db), r, io)
    {
      hide Valid, Lookup, ResolvedRows;
      if resolution != ConfirmedPrinted && resolution != ReprintRequested {
        return Err(InvalidResolution);
      }
      if io == Fails {
        return Err(Unavailable);
      }
      var found := Lookup(db.runs, uid);
      if found.None? || found.value.status != Uncertain || found.value.resolution != Unresolved {
        return Err(StateChanged);
      }
      if resolution == ConfirmedPrinted {
        ConfirmKeepsValid(db, uid, now);
      } else {
        ReprintResolutionBreaks(db, uid, now);
      }
      db := Touch(db.(runs := ResolvedRows(db.runs, uid, resolution, now)), found.value.key.job, now);
      return if io == LosesAck then Err(Unavailable) else Ok(());
    }

    method CancelTargets(job: Uid, printers: seq<PrinterId>, now: Stamp, io: Io) returns (reply: Reply<()>)
      requires Valid(db)
      modifies this
      ensures Valid(db)
      ensures var r := Transactions.CancelTargets(old(db), job, printers, now);
              && db == Stored(old(db), r, io)
              && reply == Answer(if r.Ok? then Ok(()) else Err(r.error), io)
    {
      if io == Fails {
        return Err(Unavailable);
      }
      if Transactions.CancelTargets(db, job, printers, now).Ok? {
        CancelTargetsKeepValid(db, job, printers, now);
      }
      hide Valid, CancelTarget;
      var tx := db;
      for i := 0 to |printers|
        invariant CancelEach(db, job, printers, now) == CancelEach(tx, job, printers[i..], now)
        invariant db == old(db)
      {
        var cancelled := CancelTarget(tx, Key(job, printers[i]), now);
        if cancelled.Err? {
          return Err(cancelled.error);
        }
        assert printers[i..][1..] == printers[i + 1..];
        tx := cancelled.value;
      }
      assert printers[|printers|..] == [];
      db := Touch(tx, job, now);
      return if io == LosesAck then Err(Unavailable) else Ok(());
    }

    // ---- manual reprints ----

    // The deduplication row goes in first, so that a second request with the same id is refused
    // before it can create a run.
    method InsertManualReprints(job: Uid, request: RequestId, reason: string, slots: seq<ReprintSlot>,
                                now: Stamp, io: Io)
      returns (reply: Reply<()>)
      requires Valid(db)
      modifies this
      ensures Valid(db)
      ensures var r := Transactions.InsertManualReprints(old(db), job, request,
                                                         ReprintDigest(SlotPrinters(slots), reason), slots, now);
              && db == Stored(old(db), r, io)
              && reply == Answer(if r.Ok? then Ok(()) else Err(r.error), io)
    {
      if io == Fails {
        return Err(Unavailable);
      }
      var digest := ReprintDigest(SlotPrinters(slots), reason);
      if Transactions.InsertManualReprints(db, job, request, digest, slots, now).Ok? {
        ReprintKeepsValid(db, job, request, reason, slots, now);
      }
      hide Valid, ReprintTarget;
      var id := RequestKey(job, request);
      if id in db.dedup {
        return Err(DuplicateRequest);
      }
      if job !in db.jobs {
        return Err(Refused(ForeignKeyFailed));
      }
      var tx := db.(dedup := db.dedup[id := digest]);
      ghost var started := tx;
      for i := 0 to |slots|
        invariant ReprintEach(started, job, request, slots, now) == ReprintEach(tx, job, request, slots[i..], now)
        invariant db == old(db)
      {
        var reprinted := ReprintTarget(tx, job, request, slots[i], now);
        if reprinted.Err? {
          return Err(reprinted.error);
        }
        assert slots[i..][1..] == slots[i + 1..];
        tx := reprinted.value;
      }
      assert slots[|slots|..] == [];
      db := Touch(tx, job, now);
      return if io == LosesAck then Err(Unavailable) else Ok(());
    }

    // ---- automatic retries ----

    // How many automatic retries end at `previous`, found by following previous_run_uid. The walk
    // stops at the run that a person or the acceptance started.
    method ChainDepth(previous: Run) returns (depth: nat)
      requires Valid(db) && previous in db.runs
      ensures 1 <= previous.number <= |RunsOf(db.runs, previous.key)|
      ensures depth == Depth(RunsOf(db.runs, previous.key), previous.number - 1)
    {
      hide Valid, RunsOf, Depth, Lookup;
      RowPlace(db, previous);
      var n, cursor := 0, previous;
      while cursor.trigger == AutomaticRetry
        invariant cursor in db.runs && cursor.key == previous.key
        invariant 1 <= cursor.number <= |RunsOf(db.runs, previous.key)|
        invariant n + Depth(RunsOf(db.runs, previous.key), cursor.number - 1)
               == Depth(RunsOf(db.runs, previous.key), previous.number - 1)
        decreases cursor.number
      {
        ghost var parent := WalkStep(db, cursor);
        n := n + 1;
        if cursor.previous.None? {
          break;
        }
        cursor := Lookup(db.runs, cursor.previous.value).value;
      }
      WalkEnd(db, cursor);
      return n;
    }

    method PendingDepth(previous: Run) returns (depth: nat)
      requires Valid(db) && previous in db.runs && RetryPending(previous)
      ensures depth == LastDepth(RunsOf(db.runs, previous.key))
    {
      hide Valid, RunsOf, Depth, LastDepth, RetryPending;
      depth := ChainDepth(previous);
      PendingIsLast(db, previous);
    }

    method InsertRetry(previous: Run, newUid: Uid, hash: Option<ContentHash>, now: Stamp, io: Io)
      returns (reply: Reply<Option<Run>>)
      requires io != Fails
      modifies this
      ensures var r := RetryInsert(old(db), previous, newUid, hash, now);
              && reply == Answer(if r.Ok? then Ok(r.value.1) else Err(r.error), io)
              && db == if r.Ok? then r.value.0 else old(db)
    {
      hide SpentRows, Refusal, MaxNumber;
      if exists x | x in db.runs :: x.key == previous.key && Active(x) {
        return Err(StateChanged);
      }
      if previous.key.job !in db.jobs || previous.key !in db.targets {
        return Err(NoRows);
      }
      if db.targets[previous.key].cancelledAt.Some? {
        return Err(StateChanged);
      }
      var number := MaxNumber(db.runs, previous.key) + 1;
      var run := NewRun(newUid, previous.key, number, AutomaticRetry, previous.mode, Some(previous.uid), None, None,
                        if hash.Some? then hash.value else 0, now);
      if hash.None? {
        run := run.(status := Failed, errorCode := Some("content_changed"), finishedAt := Some(now));
      }
      var inserted := InsertRun(db, run);
      if inserted.Err? {
        return Err(inserted.error);
      }
      db := inserted.value.(runs := SpentRows(inserted.value.runs, previous.uid));
      return if io == LosesAck then Err(Unavailable) else Ok(Some(run));
    }

    method MaterializeRetry(uid: Uid, maxRetries: nat, newUid: Uid, hash: Option<ContentHash>, now: Stamp, io: Io)
      returns (reply: Reply<Option<Run>>)
      requires Valid(db)
      modifies this
      ensures maxRetries <= 3 ==> Valid(db)
      ensures var r := Retry(old(db), uid, maxRetries, newUid, hash, now);
              && reply == Answer(if r.Ok? then Ok(r.value.1) else Err(r.error), io)
              && db == if io != Fails && r.Ok? then r.value.0 else old(db)
    {
      hide Valid, Lookup, LastDepth, Depth, RunsOf, RetryPending, Retry, RetryInsert, SpentRows, Active;
      if io == Fails {
        return Err(Unavailable);
      }
      if maxRetries <= MaxAutomaticRetries {
        RetryKeeps(db, uid, maxRetries, newUid, hash, now);
      }
      RetryCases(db, uid, maxRetries, newUid, hash, now);
      var found := Lookup(db.runs, uid);
      if found.None? || !RetryPending(found.value) {
        return Err(StateChanged);
      }
      var previous := found.value;
      var depth := PendingDepth(previous);
      if depth >= maxRetries {
        db := db.(runs := SpentRows(db.runs, uid));
        return if io == LosesAck then Err(Unavailable) else Ok(None);
      }
      reply := InsertRetry(previous, newUid, hash, now, io);
    }

    // Candidates are selected once and each is tried in a transaction of its own; one that has
    // moved on is skipped, any other failure ends the loop. When nothing failed, no run of the
    // printer is still waiting for its retry.
    method MaterializeRetries(p: PrinterId, maxRetries: nat, attempts: seq<Attempt>)
      returns (created: seq<Run>, failure: Option<DbError>)
      requires Valid(db) && maxRetries <= 3 && |attempts| == |Candidates(db.runs, p)|
      modifies this
      ensures Valid(db)
      ensures (db, created, failure) == RetryAll(old(db), Candidates(old(db.runs), p), maxRetries, attempts)
      ensures failure.None? ==> forall r | r in db.runs && r.key.printer == p :: !RetryPending(r)
    {
      hide Valid, Retry, RetryPending, Candidates;
      var candidates := Candidates(db.runs, p);
      CandidatesExact(db.runs, p);
      created, failure := [], None;
      assert candidates[0..] == candidates && attempts[0..] == attempts;
      for i := 0 to |candidates|
        invariant Valid(db)
        invariant AllTried(old(db), candidates, maxRetries, attempts, created, db, candidates[i..], attempts[i..])
        invariant forall r | r in db.runs && r.key.printer == p && RetryPending(r) :: r.uid in candidates[i..]
      {
        var a := attempts[i];
        ghost var before := db;
        var reply := MaterializeRetry(candidates[i], maxRetries, a.run, a.hash, a.now, a.io);
        assert candidates[i..][1..] == candidates[i + 1..] && attempts[i..][1..] == attempts[i + 1..];
        TriedOne(old(db), candidates, maxRetries, attempts, created, before, candidates[i..], attempts[i..]);
        if reply.Err? && reply.error != StateChanged && reply.error != NotFound {
          failure := Some(reply.error);
          return;
        }
        CandidateHandled(before, candidates[i..], maxRetries, p, a);
        if reply.Ok? && reply.value.Some? {
          created := created + [reply.value.value];
        }
      }
      assert created + [] == created;
    }

    // ---- recovery and retention ----

    method RecoverAbandoned(now: Stamp, io: Io) returns (reply: Reply<seq<Run>>)
      requires Valid(db)
      modifies this
      ensures Valid(db)
      ensures db == if io == Fails then old(db) else Transactions.RecoverAbandoned(old(db), now)
      ensures io == Commits ==> reply == Ok(Recovered(old(db.runs), now))
      ensures io != Commits ==> reply == Err(Unavailable)
      ensures io != Fails ==> forall r | r in db.runs :: r.status != Processing
    {
      if io == Fails {
        return Err(Unavailable);
      }
      RecoverKeepsValid(db, now);
      NothingProcessing(db.runs, now);
      hide Valid, AbandonedRows;
      var returned := Recovered(db.runs, now);
      db := Transactions.RecoverAbandoned(db, now);
      return if io == LosesAck then Err(Unavailable) else Ok(returned);
    }

    method PurgeExpired(now: Stamp, io: Io) returns (reply: Reply<()>)
      requires Valid(db)
      modifies this
      ensures Valid(db)
      ensures db == Stored(old(db), Ok(Purge(old(db), now)), io) && reply == Answer(Ok(()), io)
    {
      if io == Fails {
        return Err(Unavailable);
      }
      PurgeKeepsValid(db, now);
      db := Purge(db, now);
      return if io == LosesAck then Err(Unavailable) else Ok(());
    }

    // What other callers commit between two statements of one caller.
    method Others(txs: seq<Tx>)
      requires Valid(db)
      modifies this
      ensures Valid(db) && db == Replay(old(db), txs)
    {
      ReplayKeepsValid(db, txs);
      db := Replay(db, txs);
    }

    // SELECT COUNT(*) over the live runs of a printer.
    method HasActiveRuns(p: PrinterId) returns (has: bool)
      ensures has <==> exists r :: r in db.runs && r.key.printer == p
                         && (r.status == Queued || r.status == Processing
                             || (r.status == Failed && r.retryable && r.resolution == Unresolved))
    {
      var n := CountWhere(db.runs, p, Live);
      CountExact(db.runs, p, Live);
      return n > 0;
    }

    // SELECT printer_id, COUNT(*) ... GROUP BY printer_id: a printer without such rows is left out.
    method AttentionCount() returns (counts: map<PrinterId, nat>)
      ensures forall p :: (if p in counts then counts[p] else 0) == CountWhere(db.runs, p, Unanswered)
      ensures forall p | p in counts :: counts[p] > 0
    {
      counts := map[];
      for i := 0 to |db.runs|
        invariant forall p :: (if p in counts then counts[p] else 0) + CountWhere(db.runs[i..], p, Unanswered)
                           == CountWhere(db.runs, p, Unanswered)
        invariant forall p | p in counts :: counts[p] > 0
      {
        var r := db.runs[i];
        assert db.runs[i..][1..] == db.runs[i + 1..];
        if Unanswered(r) {
          var p := r.key.printer;
          counts := counts[p := (if p in counts then counts[p] else 0) + 1];
        }
      }
    }
  }

  function CountWhere(rows: seq<Run>, p: PrinterId, what: Run -> bool): nat {
    if rows == [] then 0
    else (if rows[0].key.printer == p && what(rows[0]) then 1 else 0) + CountWhere(rows[1..], p, what)
  }

  lemma {:induction false} CountExact(rows: seq<Run>, p: PrinterId, what: Run -> bool)
    ensures CountWhere(rows, p, what) > 0 <==> exists r :: r in rows && r.key.printer == p && what(r)
  {
    if rows != [] {
      CountExact(rows[1..], p, what);
      assert rows == [rows[0]] + rows[1..];
    }
  }

  // UPDATE ... RETURNING: the rows it touched, as they are afterwards.
  function Recovered(rows: seq<Run>, now: Stamp): seq<Run> {
    if rows == [] then []
    else (if rows[0].status == Processing then [Abandoned(rows[0], now)] else []) + Recovered(rows[1..], now)
  }

  // ---- retry candidates ----

  // What one candidate's transaction meets: a random run id, the rendered content's hash or None
  // when it can no longer be rendered, the clock and what the database does.
  datatype Attempt = Attempt(run: Uid, hash: Option<ContentHash>, now: Stamp, io: Io)

  // SELECT ... status = 'failed' AND retryable = 1 AND resolution IS NULL ORDER BY queue_sequence
  function Candidates(rows: seq<Run>, p: PrinterId): seq<Uid> {
    if rows == [] then []
    else (if rows[0].key.printer == p && RetryPending(rows[0]) then [rows[0].uid] else []) + Candidates(rows[1..], p)
  }

  lemma {:induction false} CandidatesExact(rows: seq<Run>, p: PrinterId)
    ensures forall r | r in rows && r.key.printer == p && RetryPending(r) :: r.uid in Candidates(rows, p)
    ensures forall u | u in Candidates(rows, p) :: exists r :: r in rows && r.uid == u && r.key.printer == p && RetryPending(r)
  {
    if rows != [] {
      CandidatesExact(rows[1..], p);
      assert rows == [rows[0]] + rows[1..];
    }
  }

  function Prepend(created: seq<Run>, rest: (Db, seq<Run>, Option<DbError>)): (Db, seq<Run>, Option<DbError>) {
    (rest.0, created + rest.1, rest.2)
  }

  function RetryAll(db: Db, candidates: seq<Uid>, maxRetries: nat, attempts: seq<Attempt>): (Db, seq<Run>, Option<DbError>)
    requires |candidates| == |attempts|
    decreases |candidates|
  {
    if candidates == [] then (db, [], None)
    else
      var a := attempts[0];
      var r := Retry(db, candidates[0], maxRetries, a.run, a.hash, a.now);
      var db' := if a.io != Fails && r.Ok? then r.value.0 else db;
      var reply := Answer(if r.Ok? then Ok(r.value.1) else Err(r.error), a.io);
      if reply.Err? && reply.error != StateChanged && reply.error != NotFound then (db', [], Some(reply.error))
      else
        Prepend(if reply.Ok? && reply.value.Some? then [reply.value.value] else [],
                RetryAll(db', candidates[1..], maxRetries, attempts[1..]))
  }

  // `created` and what is still to be tried make up the whole loop.
  ghost predicate AllTried(db: Db, candidates: seq<Uid>, maxRetries: nat, attempts: seq<Attempt>, created: seq<Run>,
                           now: Db, left: seq<Uid>, leftAttempts: seq<Attempt>)
    requires |candidates| == |attempts| && |left| == |leftAttempts|
  {
    var all, rest := RetryAll(db, candidates, maxRetries, attempts), RetryAll(now, left, maxRetries, leftAttempts);
    all.0 == rest.0 && all.1 == created + rest.1 && all.2 == rest.2
  }

  lemma TriedOne(db: Db, candidates: seq<Uid>, maxRetries: nat, attempts: seq<Attempt>, created: seq<Run>,
                 before: Db, left: seq<Uid>, leftAttempts: seq<Attempt>)
    requires |candidates| == |attempts| && |left| == |leftAttempts| && left != []
    requires AllTried(db, candidates, maxRetries, attempts, created, before, left, leftAttempts)
    ensures var a := leftAttempts[0];
            var r := Retry(before, left[0], maxRetries, a.run, a.hash, a.now);
            var now := if a.io != Fails && r.Ok? then r.value.0 else before;
            var reply := Answer(if r.Ok? then Ok(r.value.1) else Err(r.error), a.io);
            if reply.Err? && reply.error != StateChanged && reply.error != NotFound
            then RetryAll(db, candidates, maxRetries, attempts) == (now, created, Some(reply.error))
            else AllTried(db, candidates, maxRetries, attempts,
                          created + (if reply.Ok? && reply.value.Some? then [reply.value.value] else []),
                          now, left[1..], leftAttempts[1..])
  {
    hide Retry;
    assert created + [] == created;
  }

  lemma RowPlace(db: Db, r: Run)
    requires Valid(db) && r in db.runs
    ensures 1 <= r.number <= |RunsOf(db.runs, r.key)| && RunsOf(db.runs, r.key)[r.number - 1] == r
    ensures r.trigger == AutomaticRetry ==> r.number > 1
  {
    hide Valid, TablesOk, HistoriesOk, DedupOk, RunsOf;
    RowKey(db, r);
    ValidHistories(db);
    var i := RowInHistory(db, r);
  }

  lemma ValidHistories(db: Db)
    requires Valid(db)
    ensures HistoriesOk(db.runs, db.targets, {})
  {
    hide TablesOk, HistoriesOk, DedupOk;
  }

  lemma PendingIsLast(db: Db, r: Run)
    requires Valid(db) && r in db.runs && RetryPending(r)
    ensures var h := RunsOf(db.runs, r.key); r.number == |h| && |h| >= 1 && LastDepth(h) == Depth(h, r.number - 1)
  {
    RowKey(db, r);
    RowPlace(db, r);
    UnsettledIsLatest(db, r);
    HistoryAt(db, r.key);
  }

  // A lower limit gives the retry up earlier; otherwise the limit makes no difference.
  lemma LowerLimit(db: Db, uid: Uid, maxRetries: nat, newUid: Uid, hash: Option<ContentHash>, now: Stamp)
    requires maxRetries <= MaxAutomaticRetries
    ensures var r := Retry(db, uid, maxRetries, newUid, hash, now);
            r == Retry(db, uid, MaxAutomaticRetries, newUid, hash, now) || r == Ok((db.(runs := SpentRows(db.runs, uid)), None))
  {
    hide RetryInsert, SpentRows, Lookup, LastDepth, RunsOf, RetryPending;
  }

  lemma SpentIsNotPending(rows: seq<Run>, uid: Uid, r: Run) returns (before: Run)
    requires r in SpentRows(rows, uid) && RetryPending(r)
    ensures before in rows && before.uid == r.uid && before.key == r.key && RetryPending(before) && r.uid != uid
  {
    before := MappedRow(x => Spent(x, uid), rows, r);
  }

  // A handled candidate is no longer pending and nothing else has become pending.
  lemma CandidateHandled(db: Db, candidates: seq<Uid>, maxRetries: nat, p: PrinterId, a: Attempt)
    requires Valid(db) && candidates != [] && maxRetries <= MaxAutomaticRetries
    requires forall r | r in db.runs && r.key.printer == p && RetryPending(r) :: r.uid in candidates
    requires var reply := Retry(db, candidates[0], maxRetries, a.run, a.hash, a.now);
             a.io != Fails && (reply.Err? ==> reply.error == StateChanged || reply.error == NotFound)
    ensures var reply := Retry(db, candidates[0], maxRetries, a.run, a.hash, a.now);
            var db' := if reply.Ok? then reply.value.0 else db;
            forall r | r in db'.runs && r.key.printer == p && RetryPending(r) :: r.uid in candidates[1..]
  {
    hide Valid, Retry, RetryPending, SpentRows;
    LowerLimit(db, candidates[0], maxRetries, a.run, a.hash, a.now);
    if Retry(db, candidates[0], maxRetries, a.run, a.hash, a.now)
       == Retry(db, candidates[0], MaxAutomaticRetries, a.run, a.hash, a.now)
    {
      RetriedIsHandled(db, candidates, p, a);
    } else {
      forall r | r in SpentRows(db.runs, candidates[0]) && r.key.printer == p && RetryPending(r) ensures r.uid in candidates[1..] {
        var before := SpentIsNotPending(db.runs, candidates[0], r);
        assert before.uid in candidates;
      }
    }
  }

  lemma RetriedIsHandled(db: Db, candidates: seq<Uid>, p: PrinterId, a: Attempt)
    requires Valid(db) && candidates != []
    requires forall r | r in db.runs && r.key.printer == p && RetryPending(r) :: r.uid in candidates
    requires var reply := Retry(db, candidates[0], MaxAutomaticRetries, a.run, a.hash, a.now);
             a.io != Fails && (reply.Err? ==> reply.error == StateChanged || reply.error == NotFound)
    ensures var reply := Retry(db, candidates[0], MaxAutomaticRetries, a.run, a.hash, a.now);
            var db' := if reply.Ok? then reply.value.0 else db;
            forall r | r in db'.runs && r.key.printer == p && RetryPending(r) :: r.uid in candidates[1..]
  {
    var tx := RetryTx(candidates[0], a.run, a.hash, a.now);
    var reply := Retry(db, candidates[0], MaxAutomaticRetries, a.run, a.hash, a.now);
    RetryAfter(db, tx);
    hide Valid, Retry, RetryPending, After, Commit;
    forall r | r in After(db, tx).runs && r.key.printer == p && RetryPending(r) ensures r.uid in candidates[1..] {
      var before := StillPending(db, tx, r);
      assert before.uid in candidates;
      if before.uid == candidates[0] {
        PendingIsRetried(db, before, a);
      }
    }
  }

  // A run that is pending after a retry transaction was pending before, and if the transaction
  // committed it was another run.
  lemma StillPending(db: Db, tx: Tx, r: Run) returns (before: Run)
    requires Valid(db) && tx.RetryTx? && r in After(db, tx).runs && RetryPending(r)
    ensures before in db.runs && before.uid == r.uid && before.key == r.key && RetryPending(before)
    ensures Commit(db, tx).Ok? ==> r.uid != tx.run
  {
    var f := (x: Run) => NewRow(db, tx, x);
    hide Valid, NewRow, After;
    var added := Effect(db, tx);
    assert r !in added;
    before := MappedRow(f, db.runs, r);
    PendingBefore(db, tx, before);
  }

  lemma PendingBefore(db: Db, tx: Tx, r: Run)
    requires tx.RetryTx? && RetryPending(NewRow(db, tx, r))
    ensures r.uid == NewRow(db, tx, r).uid && r.key == NewRow(db, tx, r).key && RetryPending(r)
    ensures Commit(db, tx).Ok? ==> r.uid != tx.run
  {
  }

  lemma RetryAfter(db: Db, tx: Tx)
    requires tx.RetryTx?
    ensures var reply := Retry(db, tx.run, MaxAutomaticRetries, tx.newRun, tx.hash, tx.now);
            (Commit(db, tx).Ok? <==> reply.Ok?) && After(db, tx) == if reply.Ok? then reply.value.0 else db
  {
    hide Retry;
  }

  // A pending run is never skipped: its target is neither busy nor cancelled.
  lemma PendingIsRetried(db: Db, r: Run, a: Attempt)
    requires Valid(db) && r in db.runs && RetryPending(r)
    ensures var reply := Retry(db, r.uid, MaxAutomaticRetries, a.run, a.hash, a.now);
            reply.Ok? || (reply.error != StateChanged && reply.error != NotFound)
  {
    hide Valid, RetryPending, Active, Retry, RetryInsert, Lookup, Cancelled?;
    PendingLookup(db, r);
    PendingTargetIsQuiet(db, r);
    RetryCases(db, r.uid, MaxAutomaticRetries, a.run, a.hash, a.now);
    QuietInsertAnswers(db, r, a);
  }

  lemma PendingLookup(db: Db, r: Run)
    requires Valid(db) && r in db.runs
    ensures Lookup(db.runs, r.uid) == Some(r)
  {
    assert UniqueUids(db.runs);
    hide Valid;
    LookupFinds(db.runs, r);
  }

  lemma QuietInsertAnswers(db: Db, r: Run, a: Attempt)
    requires r.key.job in db.jobs && r.key in db.targets && !Cancelled?(db.targets, r.key)
    requires forall x | x in db.runs && x.key == r.key :: !Active(x)
    ensures var reply := RetryInsert(db, r, a.run, a.hash, a.now);
            reply.Ok? || (reply.error != StateChanged && reply.error != NotFound)
  {
    hide Refusal, SpentRows, RetryCandidate;
  }

  lemma NothingProcessing(rows: seq<Run>, now: Stamp)
    ensures forall r | r in AbandonedRows(rows, now) :: r.status != Processing
  {
  }

  lemma ResolvedForm(db: Db, uid: Uid, now: Stamp) returns (r: Run)
    requires Transactions.ResolveUncertain(db, uid, ReprintRequested, now).Ok?
    ensures r in db.runs && r.uid == uid && r.status == Uncertain && r.resolution == Unresolved
    ensures var db' := Transactions.ResolveUncertain(db, uid, ReprintRequested, now).value;
            db'.runs == ResolvedRows(db.runs, uid, ReprintRequested, now) && db'.targets == db.targets
  {
    hide ResolvedRows, Lookup;
    r := Lookup(db.runs, uid).value;
  }

  lemma ResolvedLatest(rows: seq<Run>, r: Run, now: Stamp)
    requires var h := RunsOf(rows, r.key); |h| > 0 && h[|h| - 1] == r
    requires r.status == Uncertain && r.resolution == Unresolved
    ensures var h' := RunsOf(ResolvedRows(rows, r.uid, ReprintRequested, now), r.key);
            |h'| > 0 && h'[|h'| - 1].status == Uncertain && h'[|h'| - 1].resolution == ReprintRequested
  {
    hide RunsOf;
    RunsOfMapped(x => Resolved(x, r.uid, ReprintRequested, now), rows, r.key);
  }

  lemma UncertainIsLatest(db: Db, r: Run)
    requires Valid(db) && r in db.runs && r.status == Uncertain && r.resolution == Unresolved
    ensures r.key in db.targets && var h := RunsOf(db.runs, r.key); |h| > 0 && h[|h| - 1] == r
  {
    hide Valid, RunsOf, HistoriesOk, LatestOk, RowSound;
    RowKey(db, r);
    ValidHistories(db);
    UnsettledIsLatest(db, r);
  }

  // An uncertain run resolved as reprint_requested without the reprint itself would be the latest of
  // its target, answered by nothing.
  lemma ReprintResolutionBreaks(db: Db, uid: Uid, now: Stamp)
    requires Valid(db) && Transactions.ResolveUncertain(db, uid, ReprintRequested, now).Ok?
    ensures !Valid(Transactions.ResolveUncertain(db, uid, ReprintRequested, now).value)
  {
    hide Valid, RunsOf, ResolvedRows, Transactions.ResolveUncertain;
    var db' := Transactions.ResolveUncertain(db, uid, ReprintRequested, now).value;
    var r := ResolvedForm(db, uid, now);
    UncertainIsLatest(db, r);
    ResolvedLatest(db.runs, r, now);
    if Valid(db') {
      LatestIsOk(db', r.key);
    }
  }

  lemma LatestIsOk(db: Db, k: Key)
    requires Valid(db) && k in db.targets
    ensures var h := RunsOf(db.runs, k); |h| > 0 && LatestOk(h[|h| - 1], Cancelled?(db.targets, k))
  {
    hide Valid, RunsOf;
    HistoryAt(db, k);
  }

  lemma RetryKeeps(db: Db, uid: Uid, maxRetries: nat, newUid: Uid, hash: Option<ContentHash>, now: Stamp)
    requires Valid(db) && maxRetries <= MaxAutomaticRetries
    ensures var r := Retry(db, uid, maxRetries, newUid, hash, now); r.Ok? ==> Valid(r.value.0)
  {
    hide Valid, Retry, SpentRows;
    var r := Retry(db, uid, maxRetries, newUid, hash, now);
    LowerLimit(db, uid, maxRetries, newUid, hash, now);
    if r == Ok((db.(runs := SpentRows(db.runs, uid)), None)) {
      GiveUpKeepsValid(db, uid);
    } else if r.Ok? {
      RetryKeepsValid(db, uid, newUid, hash, now, r.value.0);
    }
  }

  lemma RetryCases(db: Db, uid: Uid, maxRetries: nat, newUid: Uid, hash: Option<ContentHash>, now: Stamp)
    ensures var found := Lookup(db.runs, uid);
            var r := Retry(db, uid, maxRetries, newUid, hash, now);
            if found.None? || !RetryPending(found.value) then r == Err(StateChanged)
            else if LastDepth(RunsOf(db.runs, found.value.key)) >= maxRetries
            then r == Ok((db.(runs := SpentRows(db.runs, uid)), None))
            else r == RetryInsert(db, found.value, newUid, hash, now)
  {
    hide RetryInsert, SpentRows, Lookup, LastDepth, RunsOf;
  }

  // One step of the walk along previous_run_uid: the row is there, and it is the one before.
  lemma WalkStep(db: Db, cursor: Run) returns (parent: Run)
    requires Valid(db) && cursor in db.runs && cursor.trigger == AutomaticRetry
    ensures parent in db.runs && parent.key == cursor.key && parent.number == cursor.number - 1 >= 1
    ensures cursor.previous.Some? && Lookup(db.runs, cursor.previous.value) == Some(parent)
    ensures cursor.number <= |RunsOf(db.runs, cursor.key)|
    ensures Depth(RunsOf(db.runs, cursor.key), cursor.number - 1)
         == 1 + Depth(RunsOf(db.runs, cursor.key), cursor.number - 2)
  {
    parent := RetryContinues(db, cursor);
    assert UniqueUids(db.runs);
    hide Valid;
    RowPlace(db, cursor);
    LookupFinds(db.runs, parent);
  }

  lemma WalkEnd(db: Db, cursor: Run)
    requires Valid(db) && cursor in db.runs && cursor.trigger != AutomaticRetry
    ensures 1 <= cursor.number <= |RunsOf(db.runs, cursor.key)|
    ensures Depth(RunsOf(db.runs, cursor.key), cursor.number - 1) == 0
  {
    hide Valid;
    RowPlace(db, cursor);
  }

  // ---- what a transition finds after its UPDATE ----

  lemma {:induction false} LookupKeptMarked(rows: seq<Run>, uid: Uid, o: Outcome, now: Stamp)
    ensures Lookup(MarkedRows(rows, uid, o, now), uid)
         == var r := Lookup(rows, uid); if r.Some? then Some(Marked(r.value, uid, o, now)) else None
  {
    if rows != [] {
      LookupKeptMarked(rows[1..], uid, o, now);
      assert MarkedRows(rows, uid, o, now)[1..] == MarkedRows(rows[1..], uid, o, now);
    }
  }

  lemma {:induction false} LookupKeptWithdrawn(rows: seq<Run>, uid: Uid, now: Stamp)
    ensures Lookup(WithdrawnRows(rows, uid, now), uid)
         == var r := Lookup(rows, uid); if r.Some? then Some(Withdrawn(r.value, uid, now)) else None
  {
    if rows != [] {
      LookupKeptWithdrawn(rows[1..], uid, now);
      assert WithdrawnRows(rows, uid, now)[1..] == WithdrawnRows(rows[1..], uid, now);
    }
  }

  // What Transition finds after the UPDATE of a mark, in terms of the row before it.
  lemma MarkedLookup(db: Db, uid: Uid, o: Outcome, now: Stamp)
    requires Valid(db)
    ensures var r := Lookup(db.runs, uid);
            && Affected(db.runs, uid, Processing) == (if r.Some? && r.value.status == Processing then 1 else 0)
            && Lookup(MarkedRows(db.runs, uid, o, now), uid)
               == (if r.Some? then Some(Marked(r.value, uid, o, now)) else None)
  {
    AffectedIsLookup(db.runs, uid, Processing);
    LookupKeptMarked(db.runs, uid, o, now);
  }

  lemma WithdrawnLookup(db: Db, uid: Uid, now: Stamp)
    requires Valid(db)
    ensures var r := Lookup(db.runs, uid);
            && Affected(db.runs, uid, Queued) == (if r.Some? && r.value.status == Queued then 1 else 0)
            && Lookup(WithdrawnRows(db.runs, uid, now), uid)
               == (if r.Some? then Some(Withdrawn(r.value, uid, now)) else None)
  {
    AffectedIsLookup(db.runs, uid, Queued);
    LookupKeptWithdrawn(db.runs, uid, now);
  }
}
