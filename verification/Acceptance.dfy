// Accepting jobs from any number of callers at once. Each call looks the identity up, validates,
// inserts, and after a collision looks again; other transactions run between any two of these.
module Acceptance {
  import opened Domain
  import opened Tables
  import opened Schema
  import opened Transactions
  import opened History
  import opened Invariant
  import opened Preservation
  import opened AcceptPurge
  import opened Effects
  import opened Repository
  import opened Requests
  import opened Printers
  import Chains
  import Stability
  import Insertions

  // A request that passed the syntactic checks; `data` is the canonical JSON and `printers` the
  // ids in the caller's order.
  datatype Submission = Submission(jobId: string, template: string, data: string, printers: seq<PrinterId>, owner: string)

  // What jobRequestHash is computed from: the canonical data and the sorted printer list.
  function DigestOf(q: Submission): JobDigest {
    JobDigest(q.jobId, q.template, q.data, SortIds(q.printers))
  }

  function JobOf(q: Submission, now: Stamp): Job {
    Job(q.jobId, q.template, DigestOf(q), q.owner, now, now + RetentionWindow)
  }

  datatype Response = Accepted(uid: Uid) | Duplicate(uid: Uid) | Conflict | Invalid | Failure

  datatype Call = Looking | Checking | Inserting | Colliding | Answered(answer: Response)

  // GetJobByIdentity
  predicate HasIdentity(j: Job, q: Submission) {
    j.jobId == q.jobId && j.template == q.template
  }

  predicate MaySee(owner: string, j: Job) {
    owner == "local" || j.owner == owner
  }

  // duplicateResult
  function DuplicateResult(uid: Uid, existing: Job, q: Submission): Response {
    if !MaySee(q.owner, existing) then Conflict
    else if existing.digest != DigestOf(q) then Conflict
    else Duplicate(uid)
  }

  datatype Session = Session(request: Submission, call: Call)
  datatype Desk = Desk(db: Db, sessions: map<nat, Session>)

  datatype Move =
    | Arrive(i: nat, q: Submission)
    | LookUp(i: nat, found: Option<Uid>)
    | Check(i: nat, ok: bool)
    | InsertOnce(i: nat, uid: Uid, slots: seq<Slot>, now: Stamp, io: Io)
    | LookAgain(i: nat, found: Option<Uid>)
    | CannotLook(i: nat)
    | Elsewhere(tx: Tx)

  // A lookup returns the job that has the identity, and nothing only if there is none.
  predicate Finds(db: Db, q: Submission, found: Option<Uid>) {
    match found
    case Some(u) => u in db.jobs && HasIdentity(db.jobs[u], q)
    case None => forall u | u in db.jobs :: !HasIdentity(db.jobs[u], q)
  }

  predicate In(d: Desk, i: nat, c: Call) {
    i in d.sessions && d.sessions[i].call == c
  }

  predicate Possible(d: Desk, m: Move) {
    match m
    case Arrive(i, _) => i !in d.sessions
    case LookUp(i, found) => In(d, i, Looking) && Finds(d.db, d.sessions[i].request, found)
    case Check(i, _) => In(d, i, Checking)
    case InsertOnce(i, uid, slots, now, _) =>
      In(d, i, Inserting) && PrintersOf(slots) == d.sessions[i].request.printers
    case LookAgain(i, found) => In(d, i, Colliding) && Finds(d.db, d.sessions[i].request, found)
    case CannotLook(i) => In(d, i, Looking) || In(d, i, Colliding)
    case Elsewhere(tx) => !tx.AcceptTx? && !tx.PurgeTx?
  }

  function PrintersOf(slots: seq<Slot>): seq<PrinterId> {
    seq(|slots|, i requires 0 <= i < |slots| => slots[i].printer)
  }

  function To(d: Desk, i: nat, c: Call): Desk
    requires i in d.sessions
  {
    d.(sessions := d.sessions[i := d.sessions[i].(call := c)])
  }

  function AfterInsert(d: Desk, i: nat, uid: Uid, slots: seq<Slot>, now: Stamp, io: Io): Desk
    requires i in d.sessions
  {
    var reply := Commit(d.db, AcceptTx(uid, JobOf(d.sessions[i].request, now), slots, now));
    var d' := d.(db := Stored(d.db, reply, io));
    match Answer(if reply.Ok? then Ok(()) else Err(reply.error), io)
    case Ok(_) => To(d', i, Answered(Accepted(uid)))
    case Err(e) => To(d', i, if IsUniqueViolation(e) then Colliding else Answered(Failure))
  }

  function AfterMove(d: Desk, m: Move): Desk
    requires Possible(d, m)
  {
    match m
    case Arrive(i, q) => d.(sessions := d.sessions[i := Session(q, Looking)])
    case LookUp(i, found) =>
      To(d, i, match found case Some(u) => Answered(DuplicateResult(u, d.db.jobs[u], d.sessions[i].request))
                           case None => Checking)
    case Check(i, ok) => To(d, i, if ok then Inserting else Answered(Invalid))
    case InsertOnce(i, uid, slots, now, io) => AfterInsert(d, i, uid, slots, now, io)
    case LookAgain(i, found) =>
      To(d, i, Answered(match found case Some(u) => DuplicateResult(u, d.db.jobs[u], d.sessions[i].request)
                                    case None => Failure))
    case CannotLook(i) => To(d, i, Answered(Failure))
    case Elsewhere(tx) => d.(db := After(d.db, tx))
  }

  // ---- what an answer commits to ----

  // The one job with the request's identity justifies the answer.
  ghost predicate Justified(db: Db, q: Submission, a: Response) {
    match a
    case Accepted(u) => u in db.jobs && HasIdentity(db.jobs[u], q) && db.jobs[u].digest == DigestOf(q) && db.jobs[u].owner == q.owner
    case Duplicate(u) => u in db.jobs && HasIdentity(db.jobs[u], q) && db.jobs[u].digest == DigestOf(q) && MaySee(q.owner, db.jobs[u])
    case Conflict => exists u :: u in db.jobs && HasIdentity(db.jobs[u], q)
                                 && !(MaySee(q.owner, db.jobs[u]) && db.jobs[u].digest == DigestOf(q))
    case _ => true
  }

  ghost predicate AllJustified(d: Desk) {
    forall i | i in d.sessions && d.sessions[i].call.Answered? ::
      Justified(d.db, d.sessions[i].request, d.sessions[i].call.answer)
  }

  // Accepted is said once for a job.
  ghost predicate AcceptedOnce(d: Desk) {
    forall i, j | i in d.sessions && j in d.sessions && i != j
      && d.sessions[i].call.Answered? && d.sessions[i].call.answer.Accepted?
      && d.sessions[j].call.Answered? && d.sessions[j].call.answer.Accepted?
      :: d.sessions[i].call.answer.uid != d.sessions[j].call.answer.uid
  }

  ghost predicate DeskOk(d: Desk) {
    Valid(d.db) && AllJustified(d) && AcceptedOnce(d)
  }

  // ---- jobs are never altered ----

  ghost predicate SameJob(a: Job, b: Job) {
    a.jobId == b.jobId && a.template == b.template && a.digest == b.digest && a.owner == b.owner
  }

  lemma JobKept(db: Db, tx: Tx, u: Uid)
    requires u in db.jobs && !tx.PurgeTx?
    ensures u in After(db, tx).jobs && SameJob(db.jobs[u], After(db, tx).jobs[u])
  {
    hide Lookup, NextQueued, ClaimedRows, MarkedRows, WithdrawnRows, ResolvedRows, AbandonedRows, Retry, CancelEach, ReprintEach;
    if Commit(db, tx).Ok? {
      match tx
      case AcceptTx(uid, j, slots, now) =>
        InsertTargetsJobs(InsertJobRow(db, uid, j).value, AcceptedTargets(uid, slots, 0), AcceptedRuns(uid, slots, now));
      case CancelTargetsTx(j, printers, now) => CancelEachJobs(db, j, printers, now);
      case ReprintTx(j, request, reason, slots, now) =>
        var id := RequestKey(j, request);
        ReprintEachJobs(db.(dedup := db.dedup[id := ReprintDigest(SlotPrinters(slots), reason)]), id, slots, now);
      case RetryTx(uid, newUid, hash, now) => RetryJobs(db, uid, newUid, hash, now);
      case _ =>
    }
  }

  lemma JobAccepted(db: Db, uid: Uid, job: Job, slots: seq<Slot>, now: Stamp)
    requires Commit(db, AcceptTx(uid, job, slots, now)).Ok?
    ensures uid !in db.jobs && Commit(db, AcceptTx(uid, job, slots, now)).value.jobs == db.jobs[uid := job]
  {
    InsertTargetsJobs(InsertJobRow(db, uid, job).value, AcceptedTargets(uid, slots, 0), AcceptedRuns(uid, slots, now));
  }

  lemma JustifiedKept(db: Db, tx: Tx, q: Submission, a: Response)
    requires Justified(db, q, a) && !tx.PurgeTx?
    ensures Justified(After(db, tx), q, a)
  {
    hide After, DigestOf;
    match a
    case Accepted(u) => JobKept(db, tx, u);
    case Duplicate(u) => JobKept(db, tx, u);
    case Conflict =>
      var u :| u in db.jobs && HasIdentity(db.jobs[u], q)
               && !(MaySee(q.owner, db.jobs[u]) && db.jobs[u].digest == DigestOf(q));
      JobKept(db, tx, u);
    case _ =>
  }

  lemma AllStayJustified(d: Desk, tx: Tx)
    requires AllJustified(d) && !tx.PurgeTx?
    ensures AllJustified(d.(db := After(d.db, tx)))
  {
    hide Justified, After;
    forall i | i in d.sessions && d.sessions[i].call.Answered?
      ensures Justified(After(d.db, tx), d.sessions[i].request, d.sessions[i].call.answer)
    {
      JustifiedKept(d.db, tx, d.sessions[i].request, d.sessions[i].call.answer);
    }
  }

  lemma DuplicateJustified(db: Db, q: Submission, u: Uid)
    requires u in db.jobs && HasIdentity(db.jobs[u], q)
    ensures Justified(db, q, DuplicateResult(u, db.jobs[u], q))
    ensures !DuplicateResult(u, db.jobs[u], q).Accepted?
  {
  }

  lemma SessionMoved(d: Desk, i: nat, c: Call)
    requires DeskOk(d) && i in d.sessions
    requires c.Answered? ==> Justified(d.db, d.sessions[i].request, c.answer) && !c.answer.Accepted?
    ensures DeskOk(To(d, i, c))
  {
    hide Valid, Justified;
  }

  // ---- every move keeps the desk in order ----

  lemma InsertKeepsDesk(d: Desk, m: Move)
    requires DeskOk(d) && m.InsertOnce? && Possible(d, m)
    ensures DeskOk(AfterMove(d, m))
  {
    hide Valid, Commit, SortIds, After;
    var q := d.sessions[m.i].request;
    var tx := AcceptTx(m.uid, JobOf(q, m.now), m.slots, m.now);
    var reply := Commit(d.db, tx);
    CommitKeepsValid(d.db, tx);
    AllStayJustified(d, tx);
    if reply.Ok? {
      JobAccepted(d.db, m.uid, JobOf(q, m.now), m.slots, m.now);
    }
    CommitIsAfter(d.db, tx);
    var d' := d.(db := Stored(d.db, reply, m.io));
    assert DeskOk(d');
    if reply.Ok? && m.io == Commits {
      NewlyAccepted(d, d', m.i, m.uid);
    } else {
      SessionMoved(d', m.i, if m.io == Commits && IsUniqueViolation(reply.error) then Colliding else
                            if m.io == LosesAck && reply.Err? && IsUniqueViolation(reply.error) then Colliding
                            else Answered(Failure));
    }
  }

  lemma CommitIsAfter(db: Db, tx: Tx)
    ensures After(db, tx) == if Commit(db, tx).Ok? then Commit(db, tx).value else db
  {
    hide Commit;
  }

  lemma NewlyAccepted(d: Desk, d': Desk, i: nat, uid: Uid)
    requires AllJustified(d) && DeskOk(d') && i in d.sessions && d'.sessions == d.sessions
    requires uid !in d.db.jobs && Justified(d'.db, d.sessions[i].request, Accepted(uid))
    ensures DeskOk(To(d', i, Answered(Accepted(uid))))
  {
    hide Valid;
    forall j | j in d.sessions && d.sessions[j].call.Answered? && d.sessions[j].call.answer.Accepted?
      ensures d.sessions[j].call.answer.uid != uid
    {
      assert Justified(d.db, d.sessions[j].request, d.sessions[j].call.answer);
    }
    hide Justified;
  }

  lemma MoveKeepsDesk(d: Desk, m: Move)
    requires DeskOk(d) && Possible(d, m)
    ensures DeskOk(AfterMove(d, m))
  {
    match m
    case Arrive(i, q) => hide Valid, Justified;
    case LookUp(i, found) =>
      hide Valid, Justified, DuplicateResult, HasIdentity;
      if found.Some? {
        DuplicateJustified(d.db, d.sessions[i].request, found.value);
        SessionMoved(d, i, Answered(DuplicateResult(found.value, d.db.jobs[found.value], d.sessions[i].request)));
      } else {
        SessionMoved(d, i, Checking);
      }
    case Check(i, ok) =>
      hide Valid;
      SessionMoved(d, i, if ok then Inserting else Answered(Invalid));
    case InsertOnce(_, _, _, _, _) => InsertKeepsDesk(d, m);
    case LookAgain(i, found) =>
      hide Valid, DuplicateResult, HasIdentity;
      if found.Some? {
        DuplicateJustified(d.db, d.sessions[i].request, found.value);
        SessionMoved(d, i, Answered(DuplicateResult(found.value, d.db.jobs[found.value], d.sessions[i].request)));
      } else {
        SessionMoved(d, i, Answered(Failure));
      }
    case CannotLook(i) => SessionMoved(d, i, Answered(Failure));
    case Elsewhere(tx) =>
      CommitKeepsValid(d.db, tx);
      AllStayJustified(d, tx);
      hide Valid, After, AllJustified;
  }

  ghost predicate Playable(d: Desk, moves: seq<Move>)
    decreases |moves|
  {
    moves == [] || (Possible(d, moves[0]) && Playable(AfterMove(d, moves[0]), moves[1..]))
  }

  function Play(d: Desk, moves: seq<Move>): Desk
    requires Playable(d, moves)
    decreases |moves|
  {
    if moves == [] then d else Play(AfterMove(d, moves[0]), moves[1..])
  }

  lemma {:induction false} PlayKeepsDesk(d: Desk, moves: seq<Move>)
    requires DeskOk(d) && Playable(d, moves)
    ensures DeskOk(Play(d, moves))
    decreases |moves|
  {
    if moves != [] {
      MoveKeepsDesk(d, moves[0]);
      hide DeskOk, Possible, AfterMove;
      PlayKeepsDesk(AfterMove(d, moves[0]), moves[1..]);
    }
  }

  // ---- what a call is answered ----

  // A lookup that finds the job, the first or the one after a collision, is answered with it exactly
  // when the caller may see it and sent the same request, and with a conflict otherwise.
  lemma LookupAnswer(d: Desk, m: Move, i: nat, u: Uid)
    requires m == LookUp(i, Some(u)) || m == LookAgain(i, Some(u))
    requires Possible(d, m)
    ensures var q, j := d.sessions[i].request, d.db.jobs[u];
            AfterMove(d, m).sessions[i]
            == Session(q, Answered(if (q.owner == "local" || q.owner == j.owner) && j.digest == DigestOf(q) then Duplicate(u)
                                   else Conflict))
    ensures AfterMove(d, m).db == d.db
  {
    hide DigestOf;
  }

  // An insertion that goes through stores the job as it was sent, to be kept for 48 hours, and is
  // acknowledged; a collision sends the call back to look; anything else is a failure.
  lemma InsertAnswer(d: Desk, m: Move)
    requires m.InsertOnce? && Possible(d, m)
    ensures var q := d.sessions[m.i].request;
            var job := Job(q.jobId, q.template, DigestOf(q), q.owner, m.now, m.now + 172800);
            var reply := Commit(d.db, AcceptTx(m.uid, job, m.slots, m.now));
            var d' := AfterMove(d, m);
            && d'.db == (if m.io != Fails && reply.Ok? then reply.value else d.db)
            && d'.sessions[m.i]
               == Session(q, if m.io == Commits && reply.Ok? then Answered(Accepted(m.uid))
                             else if m.io != Fails && reply.Err? && reply.error in {Refused(UniqueJobUid), Refused(UniqueIdentity),
                                      Refused(UniqueTarget), Refused(UniqueOrder), Refused(UniqueUid), Refused(UniqueNumber),
                                      Refused(UniqueInitial), Refused(UniqueRetryChild), Refused(UniqueActive), Refused(UniqueRequest)}
                             then Colliding else Answered(Failure))
  {
    hide Commit, DigestOf;
  }

  // The moves that leave call i without an answer about its job: its data was refused; a lookup or its
  // insertion met trouble with the database; its insertion met an error that is no collision; or its
  // second lookup found nothing.
  ghost predicate Causes(d: Desk, m: Move, i: nat, a: Response)
    requires Possible(d, m)
  {
    || (a == Invalid && m.Check? && m.i == i && !m.ok)
    || (a == Failure && m.LookAgain? && m.i == i && m.found.None?)
    || (a == Failure && m.CannotLook? && m.i == i)
    || (a == Failure && m.InsertOnce? && m.i == i
        && var reply := Commit(d.db, AcceptTx(m.uid, JobOf(d.sessions[i].request, m.now), m.slots, m.now));
           if reply.Ok? then m.io != Commits else m.io == Fails || !IsUniqueViolation(reply.error))
  }

  ghost predicate SomeCauses(d: Desk, moves: seq<Move>, i: nat, a: Response)
    requires Playable(d, moves)
    decreases |moves|
  {
    moves != [] && (Causes(d, moves[0], i, a) || SomeCauses(AfterMove(d, moves[0]), moves[1..], i, a))
  }

  lemma MoveAnswers(d: Desk, m: Move, i: nat, a: Response)
    requires Possible(d, m) && (a == Failure || a == Invalid)
    ensures In(AfterMove(d, m), i, Answered(a)) <==> In(d, i, Answered(a)) || Causes(d, m, i, a)
  {
    hide Commit, DigestOf, After, Finds;
  }

  // A call fails, or is rejected, exactly when one of its moves was such a one.
  lemma {:induction false} UnservedExactly(d: Desk, moves: seq<Move>, i: nat, a: Response)
    requires Playable(d, moves) && (a == Failure || a == Invalid)
    ensures In(Play(d, moves), i, Answered(a)) <==> In(d, i, Answered(a)) || SomeCauses(d, moves, i, a)
    decreases |moves|
  {
    hide Possible, AfterMove, Causes, In;
    if moves != [] {
      UnservedExactly(AfterMove(d, moves[0]), moves[1..], i, a);
      MoveAnswers(d, moves[0], i, a);
    }
  }

  // Nothing of that kind happens to call i.
  ghost predicate Undisturbed(d: Desk, moves: seq<Move>, i: nat)
    requires Playable(d, moves)
  {
    !SomeCauses(d, moves, i, Failure) && !SomeCauses(d, moves, i, Invalid)
  }

  predicate Unserved(d: Desk, i: nat) {
    In(d, i, Answered(Failure)) || In(d, i, Answered(Invalid))
  }

  // ---- the theorem ----

  predicate Names(a: Response) {
    a.Accepted? || a.Duplicate?
  }

  predicate SameIdentityOf(p: Submission, q: Submission) {
    p.jobId == q.jobId && p.template == q.template
  }

  // What the answers of two calls for one identity say, when the first was given a job: the job is
  // on file with the first call's digest; the second is given the same one, and no other, exactly
  // when its request equals the accepted one, up to the order of printers, and its owner may see the
  // job; and the job is accepted for one call only.
  predicate Agree(e: Desk, i: nat, j: nat)
    requires i in e.sessions && j in e.sessions && e.sessions[i].call.Answered? && e.sessions[j].call.Answered?
    requires Names(e.sessions[i].call.answer)
  {
    var u, a, q := e.sessions[i].call.answer.uid, e.sessions[j].call.answer, e.sessions[j].request;
    && u in e.db.jobs && e.db.jobs[u].digest == DigestOf(e.sessions[i].request)
    && (Names(a) ==> a.uid == u && DigestOf(q) == DigestOf(e.sessions[i].request))
    && (Names(a) || a.Conflict? ==>
          (Names(a) <==> MaySee(q.owner, e.db.jobs[u]) && e.db.jobs[u].digest == DigestOf(q)))
    && (a.Accepted? && e.sessions[i].call.answer.Accepted? ==> i == j)
  }

  // The second call is given the job exactly when it may have it, and told of the conflict otherwise.
  predicate Told(e: Desk, i: nat, j: nat)
    requires i in e.sessions && j in e.sessions && e.sessions[i].call.Answered? && e.sessions[j].call.Answered?
    requires Names(e.sessions[i].call.answer)
  {
    var u, a, q := e.sessions[i].call.answer.uid, e.sessions[j].call.answer, e.sessions[j].request;
    && u in e.db.jobs
    && (Names(a) <==> (q.owner == "local" || q.owner == e.db.jobs[u].owner) && e.db.jobs[u].digest == DigestOf(q))
    && (Names(a) ==> a.uid == u) && (!Names(a) ==> a == Conflict)
  }

  // For every interleaving of calls with each other and with all other work but retention, calls
  // for one identity are given one job and every other call is told of the conflict; no call that
  // came after the start goes without such an answer unless something disturbed it.
  lemma OneJobPerIdentity(d: Desk, moves: seq<Move>, i: nat, j: nat)
    requires DeskOk(d) && Playable(d, moves)
    requires var e := Play(d, moves);
             && i in e.sessions && j in e.sessions && SameIdentityOf(e.sessions[i].request, e.sessions[j].request)
             && e.sessions[i].call.Answered? && e.sessions[j].call.Answered? && Names(e.sessions[i].call.answer)
    ensures Agree(Play(d, moves), i, j)
    ensures j !in d.sessions && Undisturbed(d, moves, j) ==> Told(Play(d, moves), i, j)
  {
    hide DeskOk, Playable, Play, Agree, Told, SomeCauses;
    PlayKeepsDesk(d, moves);
    AnswersAgree(Play(d, moves), i, j);
    UnservedExactly(d, moves, j, Failure);
    UnservedExactly(d, moves, j, Invalid);
  }

  lemma AnswersAgree(e: Desk, i: nat, j: nat)
    requires DeskOk(e) && i in e.sessions && j in e.sessions && SameIdentityOf(e.sessions[i].request, e.sessions[j].request)
    requires e.sessions[i].call.Answered? && e.sessions[j].call.Answered? && Names(e.sessions[i].call.answer)
    ensures Agree(e, i, j) && (!Unserved(e, j) ==> Told(e, i, j))
  {
    assert UniqueIdentities(e.db.jobs);
    hide Valid, DigestOf;
    assert Justified(e.db, e.sessions[i].request, e.sessions[i].call.answer);
    assert Justified(e.db, e.sessions[j].request, e.sessions[j].call.answer);
  }

  // A call with good data for an identity nobody has used can go through without a detour: its job is
  // stored as it was sent. The same call made again is told the same job.
  lemma FreshCallIsAccepted(d: Desk, i: nat, q: Submission, uid: Uid, slots: seq<Slot>, now: Stamp, j: nat)
    requires Valid(d.db) && i !in d.sessions && j !in d.sessions && i != j
    requires uid !in d.db.jobs && forall u | u in d.db.jobs :: d.db.jobs[u].jobId != q.jobId || d.db.jobs[u].template != q.template
    requires PrintersOf(slots) == q.printers && Insertions.SlotsDiffer(slots) && Insertions.SlotsNew(d.db.runs, slots)
    ensures var moves := [Arrive(i, q), LookUp(i, None), Check(i, true), InsertOnce(i, uid, slots, now, Commits)];
            && Playable(d, moves)
            && var e := Play(d, moves);
               && e.sessions == d.sessions[i := Session(q, Answered(Accepted(uid)))]
               && e.db.jobs == d.db.jobs[uid := Job(q.jobId, q.template, DigestOf(q), q.owner, now, now + 172800)]
               && Playable(e, [Arrive(j, q), LookUp(j, Some(uid))])
               && Play(e, [Arrive(j, q), LookUp(j, Some(uid))]).sessions
                  == e.sessions[j := Session(q, Answered(Duplicate(uid)))]
  {
    hide Valid, DigestOf, Playable, Play, PrintersOf, Insertions.SlotsDiffer, Insertions.SlotsNew, Possible, AfterMove;
    var insert := InsertOnce(i, uid, slots, now, Commits);
    var inserting := d.(sessions := d.sessions[i := Session(q, Inserting)]);
    var e := Inserted(inserting, i, uid, slots, now);
    assert e.sessions == d.sessions[i := Session(q, Answered(Accepted(uid)))];
    GetsToInsert(d, i, q, insert);
    assert HasIdentity(e.db.jobs[uid], q);
    AskedAgain(e, q, uid, j);
  }

  lemma GetsToInsert(d: Desk, i: nat, q: Submission, insert: Move)
    requires i !in d.sessions && forall u | u in d.db.jobs :: d.db.jobs[u].jobId != q.jobId || d.db.jobs[u].template != q.template
    requires Possible(d.(sessions := d.sessions[i := Session(q, Inserting)]), insert)
    ensures var inserting := d.(sessions := d.sessions[i := Session(q, Inserting)]);
            var moves := [Arrive(i, q), LookUp(i, None), Check(i, true), insert];
            Playable(d, moves) && Play(d, moves) == AfterMove(inserting, insert)
  {
    hide Playable, Play, AfterMove, Possible;
    var inserting := d.(sessions := d.sessions[i := Session(q, Inserting)]);
    assert [insert] + [] == [insert] && [Check(i, true)] + [insert] == [Check(i, true), insert];
    assert [LookUp(i, None)] + [Check(i, true), insert] == [LookUp(i, None), Check(i, true), insert];
    assert [Arrive(i, q)] + [LookUp(i, None), Check(i, true), insert] == [Arrive(i, q), LookUp(i, None), Check(i, true), insert];
    NoMoves(AfterMove(inserting, insert));
    MoveFirst(inserting, insert, []);
    ThreeMoves(d, i, q);
    MoveFirst(d.(sessions := d.sessions[i := Session(q, Checking)]), Check(i, true), [insert]);
    MoveFirst(d.(sessions := d.sessions[i := Session(q, Looking)]), LookUp(i, None), [Check(i, true), insert]);
    MoveFirst(d, Arrive(i, q), [LookUp(i, None), Check(i, true), insert]);
  }

  lemma ThreeMoves(d: Desk, i: nat, q: Submission)
    requires i !in d.sessions && forall u | u in d.db.jobs :: d.db.jobs[u].jobId != q.jobId || d.db.jobs[u].template != q.template
    ensures var looking := d.(sessions := d.sessions[i := Session(q, Looking)]);
            var checking := d.(sessions := d.sessions[i := Session(q, Checking)]);
            && Possible(d, Arrive(i, q)) && AfterMove(d, Arrive(i, q)) == looking
            && Possible(looking, LookUp(i, None)) && AfterMove(looking, LookUp(i, None)) == checking
            && Possible(checking, Check(i, true))
            && AfterMove(checking, Check(i, true)) == d.(sessions := d.sessions[i := Session(q, Inserting)])
  {
  }

  lemma Inserted(d: Desk, i: nat, uid: Uid, slots: seq<Slot>, now: Stamp) returns (e: Desk)
    requires Valid(d.db) && In(d, i, Inserting) && uid !in d.db.jobs
    requires var q := d.sessions[i].request;
             && PrintersOf(slots) == q.printers
             && forall u | u in d.db.jobs :: d.db.jobs[u].jobId != q.jobId || d.db.jobs[u].template != q.template
    requires Insertions.SlotsDiffer(slots) && Insertions.SlotsNew(d.db.runs, slots)
    ensures var q := d.sessions[i].request;
            var insert := InsertOnce(i, uid, slots, now, Commits);
            && Possible(d, insert) && e == AfterMove(d, insert)
            && e.sessions == d.sessions[i := Session(q, Answered(Accepted(uid)))]
            && e.db.jobs == d.db.jobs[uid := Job(q.jobId, q.template, DigestOf(q), q.owner, now, now + 172800)]
  {
    var q := d.sessions[i].request;
    Insertions.AcceptExactly(d.db, uid, JobOf(q, now), slots, now);
    CommitIsAfter(d.db, AcceptTx(uid, JobOf(q, now), slots, now));
    hide Valid, Commit, After, DigestOf;
    e := AfterMove(d, InsertOnce(i, uid, slots, now, Commits));
  }

  lemma AskedAgain(e: Desk, q: Submission, uid: Uid, j: nat)
    requires j !in e.sessions && uid in e.db.jobs && HasIdentity(e.db.jobs[uid], q)
    requires e.db.jobs[uid].digest == DigestOf(q) && e.db.jobs[uid].owner == q.owner
    ensures Playable(e, [Arrive(j, q), LookUp(j, Some(uid))])
    ensures Play(e, [Arrive(j, q), LookUp(j, Some(uid))]).sessions == e.sessions[j := Session(q, Answered(Duplicate(uid)))]
  {
    hide Playable, Play, DigestOf;
    var looking := e.(sessions := e.sessions[j := Session(q, Looking)]);
    var told := AfterMove(looking, LookUp(j, Some(uid)));
    assert told.sessions == e.sessions[j := Session(q, Answered(Duplicate(uid)))];
    assert [LookUp(j, Some(uid))] + [] == [LookUp(j, Some(uid))];
    assert [Arrive(j, q)] + [LookUp(j, Some(uid))] == [Arrive(j, q), LookUp(j, Some(uid))];
    NoMoves(told);
    MoveFirst(looking, LookUp(j, Some(uid)), []);
    MoveFirst(e, Arrive(j, q), [LookUp(j, Some(uid))]);
  }

  lemma NoMoves(d: Desk)
    ensures Playable(d, []) && Play(d, []) == d
  {
  }

  lemma MoveFirst(d: Desk, m: Move, more: seq<Move>)
    requires Possible(d, m) && Playable(AfterMove(d, m), more)
    ensures Playable(d, [m] + more) && Play(d, [m] + more) == Play(AfterMove(d, m), more)
  {
    hide Possible, AfterMove;
    assert ([m] + more)[1..] == more;
  }

  // Nothing stored and nobody asking.
  const EmptyDesk := Desk(EmptyDb, map[])

  lemma EmptyDeskOk()
    ensures DeskOk(EmptyDesk)
  {
    EmptyIsValid();
  }

  // In particular from the start.
  lemma OneJobFromTheStart(moves: seq<Move>, i: nat, j: nat)
    requires Playable(EmptyDesk, moves)
    requires var e := Play(EmptyDesk, moves);
             && i in e.sessions && j in e.sessions && SameIdentityOf(e.sessions[i].request, e.sessions[j].request)
             && e.sessions[i].call.Answered? && e.sessions[j].call.Answered? && Names(e.sessions[i].call.answer)
    ensures Agree(Play(EmptyDesk, moves), i, j)
    ensures Undisturbed(EmptyDesk, moves, j) ==> Told(Play(EmptyDesk, moves), i, j)
  {
    hide DeskOk, Playable, Play, Agree, Told, Undisturbed;
    EmptyDeskOk();
    OneJobPerIdentity(EmptyDesk, moves, i, j);
  }

  // Equal digests mean the same data and the same printers, in whatever order.
  lemma DigestMeansRequest(p: Submission, q: Submission)
    requires StrictlyAscending(SortIds(p.printers)) && StrictlyAscending(SortIds(q.printers))
    ensures DigestOf(p) == DigestOf(q)
       <==> SameIdentityOf(p, q) && p.data == q.data && forall x :: x in p.printers <==> x in q.printers
  {
    OrderIsIrrelevant(p.printers, q.printers);
  }

  // ---- one initial run per printer ----

  lemma {:induction false} AcceptedTargetsExact(db: Db, uid: Uid, slots: seq<Slot>, order: nat, p: PrinterId)
    requires InsertTargets(db, AcceptedTargets(uid, slots, order)).Ok?
    ensures Key(uid, p) in InsertTargets(db, AcceptedTargets(uid, slots, order)).value.targets
       <==> Key(uid, p) in db.targets || p in PrintersOf(slots)
    decreases |slots|
  {
    if slots != [] {
      var db' := InsertTarget(db, AcceptedTargets(uid, slots, order)[0]).value;
      AcceptedTargetsExact(db', uid, slots[1..], order + 1, p);
      assert PrintersOf(slots) == [slots[0].printer] + PrintersOf(slots[1..]);
    }
  }

  // Right after its acceptance a job has a target for each named printer and no other, and each
  // target has exactly one run: queued, initial and unmarked.
  lemma OneInitialRunEach(db: Db, uid: Uid, job: Job, slots: seq<Slot>, now: Stamp, p: PrinterId)
    requires Valid(db) && Commit(db, AcceptTx(uid, job, slots, now)).Ok?
    ensures var db' := Commit(db, AcceptTx(uid, job, slots, now)).value;
            var k := Key(uid, p);
            && (k in db'.targets <==> p in PrintersOf(slots))
            && (k in db'.targets ==> |RunsOf(db'.runs, k)| == 1 && var r := RunsOf(db'.runs, k)[0];
                  r.trigger == Initial && r.mode == Normal && r.status == Queued && r.number == 1)
  {
    var tx := AcceptTx(uid, job, slots, now);
    var db' := Commit(db, tx).value;
    var k := Key(uid, p);
    var withJob := InsertJobRow(db, uid, job).value;
    assert k !in db.targets;
    CommitKeepsValid(db, tx);
    AcceptedTargetsExact(withJob, uid, slots, 0, p);
    Stability.InsertRunsTargets(InsertTargets(withJob, AcceptedTargets(uid, slots, 0)).value, AcceptedRuns(uid, slots, now));
    if k in db'.targets {
      OnlyInitial(db, tx, k);
    }
  }

  lemma OnlyInitial(db: Db, tx: Tx, k: Key)
    requires Valid(db) && tx.AcceptTx? && Commit(db, tx).Ok? && k.job == tx.uid
    requires Valid(After(db, tx)) && k in After(db, tx).targets
    ensures var h := RunsOf(After(db, tx).runs, k);
            |h| == 1 && h[0].trigger == Initial && h[0].mode == Normal && h[0].status == Queued && h[0].number == 1
  {
    hide Valid, After, Commit;
    var h := RunsOf(After(db, tx).runs, k);
    Chains.HistoryAt(After(db, tx), k);
    NoEarlierRuns(db, tx, k);
    if |h| > 1 {
      SecondIsNotInitial(h, Cancelled?(After(db, tx).targets, k));
    }
    var added := HistoryEffect(db, tx, k);
    assert h == added;
    hide RunsOf;
    forall i | 0 <= i < |h| ensures h[i].trigger == Initial && h[i].mode == Normal && h[i].status == Queued {
      assert h[i] in added;
    }
  }

  lemma SecondIsNotInitial(h: seq<Run>, cancelled: bool)
    requires HistoryOk(h, cancelled) && |h| > 1
    ensures h[1].trigger != Initial
  {
    assert Follows(h, 1);
  }

  lemma NoEarlierRuns(db: Db, tx: Tx, k: Key)
    requires Valid(db) && tx.AcceptTx? && Commit(db, tx).Ok? && k.job == tx.uid
    ensures RunsOf(db.runs, k) == []
  {
    JobAccepted(db, tx.uid, tx.job, tx.slots, tx.now);
    hide Commit;
    forall r | r in db.runs ensures r.key != k {
      RowsSound(db, r);
    }
    hide Valid;
    NoRunsOf(db.runs, k);
  }
}
