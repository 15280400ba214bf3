// One printer's worker, alone with the database: the two loops that keep trying while the database
// is unavailable, and the decision what to print and what to record. The source loops for ever;
// here each loop runs over the attempts it is given.
module Worker {
  import opened Domain
  import opened Tables
  import opened Transactions
  import opened Invariant
  import opened Preservation
  import opened Repository
  import opened Transport
  import opened Gates
  import opened Stability

  // One attempt: the clock, what the database does, and whether a later ping is answered.
  datatype Try = Try(now: Stamp, io: Io, ping: bool)

  // What process finds before it writes: whether the job and target rows could be read, the
  // rendered document's hash, and the hash the accepted content should have.
  datatype Facts = Facts(job: bool, target: bool, rendered: Option<ContentHash>, expected: Option<ContentHash>)

  // The document has the hash that was accepted, and so has the content it should be.
  predicate Unchanged(run: Run, f: Facts) {
    f.rendered == Some(run.contentHash) && f.expected == Some(run.contentHash)
  }

  // When the outcome got into the database, if one of the first n attempts got it there.
  function StoredAt(tries: seq<Try>, n: nat): Option<Stamp>
    requires n <= |tries|
  {
    if n == 0 then None
    else if StoredAt(tries, n - 1).Some? then StoredAt(tries, n - 1)
    else if tries[n - 1].io != Fails then Some(tries[n - 1].now) else None
  }

  // Some of the first n attempts was acknowledged, and if it was not the very first the database
  // then answered a ping.
  predicate Finishes(tries: seq<Try>, n: nat)
    requires n <= |tries|
  {
    n > 0 && (Finishes(tries, n - 1) || (tries[n - 1].io == Commits && (n == 1 || tries[n - 1].ping)))
  }

  lemma {:induction false} Onwards(tries: seq<Try>, i: nat, n: nat)
    requires i <= n <= |tries|
    ensures StoredAt(tries, i).Some? ==> StoredAt(tries, n) == StoredAt(tries, i)
    ensures Finishes(tries, i) ==> Finishes(tries, n)
  {
    if i < n {
      Onwards(tries, i, n - 1);
    }
  }

  // The first attempt that the database did not refuse is the one whose instant counts.
  lemma {:induction false} StoredAtMeans(tries: seq<Try>, n: nat, i: nat)
    requires i < n <= |tries| && tries[i].io != Fails && forall j | 0 <= j < i :: tries[j].io == Fails
    ensures StoredAt(tries, n) == Some(tries[i].now)
  {
    if n > i + 1 {
      StoredAtMeans(tries, n - 1, i);
    } else {
      NothingStored(tries, i);
    }
  }

  lemma {:induction false} NothingStored(tries: seq<Try>, n: nat)
    requires n <= |tries|
    ensures StoredAt(tries, n).None? <==> forall j | 0 <= j < n :: tries[j].io == Fails
  {
    if n > 0 {
      NothingStored(tries, n - 1);
    }
  }

  // Finished is the first attempt if it was acknowledged, or a later one that was and after which the
  // database answered.
  lemma {:induction false} FinishesMeans(tries: seq<Try>, n: nat)
    requires n <= |tries|
    ensures Finishes(tries, n) <==> exists i :: 0 <= i < n && tries[i].io == Commits && (i == 0 || tries[i].ping)
  {
    if n > 0 {
      FinishesMeans(tries, n - 1);
    }
  }

  class Worker {
    const printer: PrinterId
    const repo: Repository
    const gate: PersistenceGate
    const transport: StreamTransport

    constructor (printer: PrinterId, repo: Repository, gate: PersistenceGate, transport: StreamTransport)
      ensures this.printer == printer && this.repo == repo && this.gate == gate && this.transport == transport
    {
      this.printer, this.repo, this.gate, this.transport := printer, repo, gate, transport;
    }

    // persist: however many attempts lose their acknowledgement, the run rows end as the first
    // attempt that reached the database left them. The queue is paused from the first failure
    // until an attempt succeeds and the database answers.
    method Persist(uid: Uid, o: Outcome, tries: seq<Try>) returns (done: bool, stored: Option<Stamp>, panicked: bool)
      requires Valid(repo.db) && GateOk(gate.State()) && gate.failures == 0
      requires tries != [] && Mark(repo.db, uid, o, tries[0].now).Ok?
      modifies repo, gate
      ensures Valid(repo.db) && GateOk(gate.State()) && !panicked
      ensures repo.db.runs == (if stored.Some? then MarkedRows(old(repo.db.runs), uid, o, stored.value) else old(repo.db.runs))
      ensures stored == StoredAt(tries, |tries|)
      ensures done <==> Finishes(tries, |tries|)
      ensures gate.failures == if done then 0 else 1
    {
      hide Valid, Mark, Recorded, MarkedRows;
      ghost var start := repo.db;
      Unrecorded(start, uid, o, tries[0].now);
      var reply := Attempt(uid, o, tries[0], start, None);
      stored := if tries[0].io != Fails then Some(tries[0].now) else None;
      RecordedRows(start, repo.db, uid, o, stored);
      if reply.Ok? {
        Onwards(tries, 1, |tries|);
        return true, stored, false;
      }
      gate.Begin("database unavailable", tries[0].now);
      done, stored, panicked := Retrying(uid, o, tries, start, stored);
    }

    // The loop after the first failure.
    method Retrying(uid: Uid, o: Outcome, tries: seq<Try>, ghost start: Db, first: Option<Stamp>)
      returns (done: bool, stored: Option<Stamp>, panicked: bool)
      requires Valid(repo.db) && GateOk(gate.State()) && gate.failures == 1 && |tries| > 0
      requires Recorded(start, repo.db, uid, o, first) && !Finishes(tries, 1) && first == StoredAt(tries, 1)
      modifies repo, gate
      ensures Valid(repo.db) && GateOk(gate.State()) && !panicked
      ensures repo.db.runs == (if stored.Some? then MarkedRows(start.runs, uid, o, stored.value) else start.runs)
      ensures stored == StoredAt(tries, |tries|)
      ensures done <==> Finishes(tries, |tries|)
      ensures gate.failures == if done then 0 else 1
    {
      hide Valid, Mark, Recorded, MarkedRows;
      stored := first;
      for i := 1 to |tries|
        invariant Valid(repo.db) && GateOk(gate.State()) && gate.failures == 1
        invariant Recorded(start, repo.db, uid, o, stored)
        invariant stored == StoredAt(tries, i)
        invariant !Finishes(tries, i)
      {
        var again := Attempt(uid, o, tries[i], start, stored);
        if stored.None? && tries[i].io != Fails {
          stored := Some(tries[i].now);
        }
        if again.Ok? && tries[i].ping {
          panicked := gate.End();
          RecordedRows(start, repo.db, uid, o, stored);
          Onwards(tries, i + 1, |tries|);
          return true, stored, panicked;
        }
        gate.Update("database unavailable");
      }
      RecordedRows(start, repo.db, uid, o, stored);
      return false, stored, false;
    }

    // One attempt of the loop: stores the outcome the first time it reaches the database.
    method Attempt(uid: Uid, o: Outcome, t: Try, ghost start: Db, stored: Option<Stamp>) returns (reply: Reply<()>)
      requires Valid(repo.db) && Recorded(start, repo.db, uid, o, stored)
      modifies repo
      ensures Valid(repo.db)
      ensures Recorded(start, repo.db, uid, o, if stored.None? && t.io != Fails then Some(t.now) else stored)
      ensures reply.Ok? <==> t.io == Commits
    {
      RecordAgain(start, repo.db, uid, o, stored, t);
      hide Valid, Recorded, Mark;
      match o
      case Sent(bytes) => reply := repo.MarkTransmitted(uid, bytes, t.now, t.io);
      case NotPrinted(bytes, code, retryable) => reply := repo.MarkFailed(uid, bytes, code, retryable, t.now, t.io);
      case Unknown(bytes, code) => reply := repo.MarkUncertain(uid, bytes, code, t.now, t.io);
    }

    // claimNext: the run claimed by the first attempt that is not refused by the database, if one
    // was queued.
    method ClaimNext(tries: seq<Try>) returns (claimed: Option<Reply<Run>>, panicked: bool)
      requires Valid(repo.db) && GateOk(gate.State()) && gate.failures == 0
      requires forall t | t in tries :: t.io != LosesAck
      modifies repo, gate
      ensures Valid(repo.db) && GateOk(gate.State()) && !panicked
      ensures claimed.Some? ==> exists i | 0 <= i < |tries| ::
                && tries[i].io == Commits && (forall j | 0 <= j < i :: tries[j].io == Fails)
                && ClaimAnswer(old(repo.db), printer, tries[i].now, claimed.value, repo.db)
      ensures claimed.None? ==> repo.db == old(repo.db) && forall t | t in tries :: t.io == Fails
      ensures gate.failures == if claimed.None? && tries != [] then 1 else 0
    {
      claimed, panicked := None, false;
      hide Valid, Claim;
      for i := 0 to |tries|
        invariant Valid(repo.db) && repo.db == old(repo.db) && GateOk(gate.State()) && !panicked && claimed.None?
        invariant forall j | 0 <= j < i :: tries[j].io == Fails
        invariant gate.failures == if i == 0 then 0 else 1
      {
        assert tries[i] in tries;
        var reply := repo.ClaimNextQueued(printer, tries[i].now, tries[i].io);
        if tries[i].io == Commits {
          ClaimErrors(old(repo.db), printer, tries[i].now);
          if i > 0 {
            panicked := gate.End();
          }
          claimed := Some(reply);
          return;
        }
        if i == 0 {
          gate.Begin("database unavailable", tries[i].now);
        } else {
          gate.Update("database unavailable");
        }
      }
    }

    // process: what the worker does with a claimed run, up to the outcome it will record.
    method Process(run: Run, f: Facts, doc: seq<Byte>, script: nat -> ChunkResult, linkUp: bool)
      returns (o: Outcome)
      modifies transport, transport.line
      ensures !f.job ==> o == NotPrinted(0, "job_unavailable", false)
      ensures f.job && !f.target ==> o == NotPrinted(0, "target_unavailable", false)
      ensures f.job && f.target && f.rendered.None? ==> o == NotPrinted(0, "render_failed", false)
      ensures o == NotPrinted(0, "content_hash_mismatch", false) <==>
                f.job && f.target && f.rendered.Some? && !(f.expected == f.rendered == Some(run.contentHash))
      ensures !f.job || !f.target || !Unchanged(run, f) ==> transport.line.received == old(transport.line.received)
      ensures GotPrefix(old(transport.line.received), transport.line.received, doc)
      ensures f.job && f.target && Unchanged(run, f) && !old(transport.connected) ==>
                o == NotPrinted(0, "not_sent", true) && transport.line.received == old(transport.line.received)
      ensures f.job && f.target && Unchanged(run, f) && old(transport.connected) ==>
                && (o == Sent(|doc|) <==> linkUp && AllWhole(|doc|, script))
                && (AllWhole(|doc|, script) && !linkUp ==> o == Unknown(|doc|, "link_unknown_after_write"))
                && (forall k | FirstBroken(|doc|, script, k) ::
                      o == if Doubtful(|doc|, script, k) then Unknown(CountedBy(|doc|, script, k), "ambiguous_write")
                           else NotPrinted(0, "not_sent", true))
      ensures o.Sent? ==> transport.line.received == old(transport.line.received) + doc
      ensures o.NotPrinted? && !DeadlineOnFirst(|doc|, script) ==> transport.line.received == old(transport.line.received)
      ensures transport.connected <==>
                old(transport.connected) && (!f.job || !f.target || !Unchanged(run, f) || o.Sent?)
    {
      hide DeadlineOnFirst, Doubtful, CountedBy, AllWhole, FirstBroken, Send, Contract;
      assert GotPrefix(transport.line.received, transport.line.received, doc);
      if !f.job {
        return NotPrinted(0, "job_unavailable", false);
      }
      if !f.target {
        return NotPrinted(0, "target_unavailable", false);
      }
      if f.rendered.None? {
        return NotPrinted(0, "render_failed", false);
      }
      if f.expected.None? || f.expected.value != run.contentHash || f.rendered.value != run.contentHash {
        return NotPrinted(0, "content_hash_mismatch", false);
      }
      var report := transport.Write(doc, script);
      SendContract(|doc|, script, 0, 0);
      SendExactly(|doc|, script);
      SomeChunkBroken(|doc|, script);
      if report.None? {
        assert doc[..|doc|] == doc;
        if !linkUp {
          transport.Close();
          return Unknown(|doc|, "link_unknown_after_write");
        }
        return Sent(|doc|);
      }
      var e := report.value;
      if Ambiguous(e) {
        return Unknown(e.bytesWritten, "ambiguous_write");
      }
      return NotPrinted(e.bytesWritten, "not_sent", true);
    }
  }

  ghost predicate ClaimAnswer(before: Db, p: PrinterId, now: Stamp, reply: Reply<Run>, after: Db) {
    match Claim(before, p, now)
    case Ok((db', r)) => reply == Ok(r) && after == db'
    case Err(_) => reply == Err(NotFound) && after == before
  }

  lemma ClaimErrors(db: Db, p: PrinterId, now: Stamp)
    ensures Claim(db, p, now).Err? ==> Claim(db, p, now).error == NotFound
  {
  }

  // The database holds the outcome, stored at that instant or not yet.
  ghost predicate Recorded(start: Db, db: Db, uid: Uid, o: Outcome, stored: Option<Stamp>) {
    && db.runs == (if stored.Some? then MarkedRows(start.runs, uid, o, stored.value) else start.runs)
    && forall now :: Mark(db, uid, o, now).Ok?
  }

  lemma Unrecorded(db: Db, uid: Uid, o: Outcome, now: Stamp)
    requires Mark(db, uid, o, now).Ok?
    ensures Recorded(db, db, uid, o, None)
  {
    forall later ensures Mark(db, uid, o, later).Ok? {
      MarkableAlways(db, uid, o, now, later);
    }
  }

  lemma RecordedRows(start: Db, db: Db, uid: Uid, o: Outcome, stored: Option<Stamp>)
    requires Recorded(start, db, uid, o, stored)
    ensures db.runs == (if stored.Some? then MarkedRows(start.runs, uid, o, stored.value) else start.runs)
  {
  }

  lemma MarkableAlways(db: Db, uid: Uid, o: Outcome, now: Stamp, later: Stamp)
    requires Mark(db, uid, o, now).Ok?
    ensures Mark(db, uid, o, later).Ok?
  {
  }

  lemma RecordAgain(start: Db, db: Db, uid: Uid, o: Outcome, stored: Option<Stamp>, t: Try)
    requires Recorded(start, db, uid, o, stored)
    ensures Mark(db, uid, o, t.now).Ok?
    ensures Recorded(start, Stored(db, Mark(db, uid, o, t.now), t.io), uid, o,
                     if stored.None? && t.io != Fails then Some(t.now) else stored)
  {
    assert Mark(db, uid, o, t.now).Ok?;
    if t.io != Fails {
      var after := Mark(db, uid, o, t.now).value;
      MarkAgain(db, uid, o, t.now, t.now);
      forall now ensures Mark(after, uid, o, now).Ok? {
        MarkableAlways(after, uid, o, t.now, now);
      }
      if stored.Some? {
        MarkedTwice(start.runs, uid, o, stored.value, t.now);
      }
      assert after.runs == MarkedRows(db.runs, uid, o, t.now);
    }
  }
}
