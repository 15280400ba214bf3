// What each transaction of the repository does to the database, as functions on its value.
// A transaction that fails rolls back, so its function yields an error and no new value.
module Transactions {
  import opened Domain
  import opened Tables
  import opened Schema

  const RetentionWindow: Stamp := 48 * 60 * 60
  const MaxAutomaticRetries: nat := 3

  datatype RequestKey = RequestKey(job: Uid, request: RequestId)

  datatype Db = Db(
    jobs: map<Uid, Job>,
    targets: map<Key, Target>,
    runs: seq<Run>,
    lastSequence: nat,
    dedup: map<RequestKey, ReprintDigest>)

  const EmptyDb := Db(map[], map[], [], 0, map[])

  datatype DbError =
    | NotFound | StateChanged | DuplicateRequest | TargetFulfilled | InvalidResolution
    | NoRows | ContentChanged | Refused(violation: Violation) | Unavailable

  datatype Reply<+T> = Ok(value: T) | Err(error: DbError)

  predicate IsUniqueViolation(e: DbError) {
    e.Refused? && !e.violation.CheckFailed? && !e.violation.ForeignKeyFailed?
  }

  // ---- inserting ----

  // insertRunTx: AUTOINCREMENT numbers rows upwards for the life of the database.
  function InsertRun(db: Db, r: Run): Reply<Db> {
    match Refusal(db.runs, db.targets, r)
    case Some(v) => Err(Refused(v))
    case None =>
      var next := db.lastSequence + 1;
      Ok(db.(runs := db.runs + [r.(sequence := next)], lastSequence := next))
  }

  datatype NewTarget = NewTarget(key: Key, target: Target)

  function InsertTarget(db: Db, t: NewTarget): Reply<Db> {
    if t.key in db.targets then Err(Refused(UniqueTarget))
    else if exists k | k in db.targets :: k.job == t.key.job && db.targets[k].order == t.target.order
    then Err(Refused(UniqueOrder))
    else if t.key.job !in db.jobs then Err(Refused(ForeignKeyFailed))
    else Ok(db.(targets := db.targets[t.key := t.target]))
  }

  function InsertTargets(db: Db, ts: seq<NewTarget>): Reply<Db>
    decreases |ts|
  {
    if ts == [] then Ok(db)
    else match InsertTarget(db, ts[0])
      case Err(e) => Err(e)
      case Ok(db') => InsertTargets(db', ts[1..])
  }

  function InsertRuns(db: Db, rs: seq<Run>): Reply<Db>
    decreases |rs|
  {
    if rs == [] then Ok(db)
    else match InsertRun(db, rs[0])
      case Err(e) => Err(e)
      case Ok(db') => InsertRuns(db', rs[1..])
  }

  function InsertJobRow(db: Db, uid: Uid, job: Job): Reply<Db> {
    if uid in db.jobs then Err(Refused(UniqueJobUid))
    else if exists u | u in db.jobs :: db.jobs[u].jobId == job.jobId && db.jobs[u].template == job.template
    then Err(Refused(UniqueIdentity))
    else Ok(db.(jobs := db.jobs[uid := job]))
  }

  function InsertJob(db: Db, uid: Uid, job: Job, ts: seq<NewTarget>, rs: seq<Run>): Reply<Db> {
    match InsertJobRow(db, uid, job)
    case Err(e) => Err(e)
    case Ok(withJob) =>
      match InsertTargets(withJob, ts)
      case Err(e) => Err(e)
      case Ok(withTargets) => InsertRuns(withTargets, rs)
  }

  function NewRun(uid: Uid, k: Key, number: nat, trigger: Trigger, mode: ContentMode,
                  previous: Option<Uid>, reprintOf: Option<Uid>, request: Option<RequestId>,
                  hash: ContentHash, now: Stamp): Run
  {
    Run(0, uid, k, number, trigger, mode, previous, reprintOf, request, hash,
        Queued, false, Unresolved, None, 0, now, None, None, None, None)
  }

  // What Accept hands to InsertJob for one named printer: the rendered content's hash and a
  // random run id.
  datatype Slot = Slot(printer: PrinterId, hash: ContentHash, run: Uid)

  function AcceptedTargets(uid: Uid, slots: seq<Slot>, order: nat): seq<NewTarget> {
    if slots == [] then []
    else [NewTarget(Key(uid, slots[0].printer), Target(order, slots[0].hash, None))]
         + AcceptedTargets(uid, slots[1..], order + 1)
  }

  function AcceptedRuns(uid: Uid, slots: seq<Slot>, now: Stamp): seq<Run> {
    if slots == [] then []
    else [NewRun(slots[0].run, Key(uid, slots[0].printer), 1, Initial, Normal, None, None, None, slots[0].hash, now)]
         + AcceptedRuns(uid, slots[1..], now)
  }

  // ---- claiming and marking ----

  // SELECT ... WHERE printer_id = ? AND status = 'queued' ORDER BY queue_sequence LIMIT 1
  function NextQueued(rows: seq<Run>, p: PrinterId): (r: Option<Run>)
    ensures r.Some? ==> r.value in rows && r.value.key.printer == p && r.value.status == Queued
    ensures r.None? ==> forall x | x in rows && x.key.printer == p :: x.status != Queued
  {
    if rows == [] then None
    else if rows[0].key.printer == p && rows[0].status == Queued then Some(rows[0])
    else NextQueued(rows[1..], p)
  }

  function Claimed(r: Run, sequence: nat, now: Stamp): Run {
    if r.sequence == sequence then r.(status := Processing, startedAt := Some(now)) else r
  }

  function ClaimedRows(rows: seq<Run>, sequence: nat, now: Stamp): seq<Run> {
    MapRows(r => Claimed(r, sequence, now), rows)
  }

  function Claim(db: Db, p: PrinterId, now: Stamp): Reply<(Db, Run)> {
    match NextQueued(db.runs, p)
    case None => Err(NotFound)
    case Some(q) =>
      Ok((db.(runs := ClaimedRows(db.runs, q.sequence, now)), Claimed(q, q.sequence, now)))
  }

  // The outcome a worker records: MarkTransmitted, MarkFailed or MarkUncertain.
  datatype Outcome =
    | Sent(bytes: nat)
    | NotPrinted(bytes: nat, code: string, retryable: bool)
    | Unknown(bytes: nat, code: string)

  function StatusOf(o: Outcome): Status {
    match o case Sent(_) => Transmitted case NotPrinted(_, _, _) => Failed case Unknown(_, _) => Uncertain
  }

  function WithOutcome(r: Run, o: Outcome, now: Stamp): Run {
    match o
    case Sent(bytes) =>
      r.(status := Transmitted, retryable := false, bytesAccepted := bytes, errorCode := None,
         transmittedAt := Some(now), finishedAt := Some(now))
    case NotPrinted(bytes, code, retryable) =>
      r.(status := Failed, retryable := retryable, bytesAccepted := bytes, errorCode := Some(code),
         finishedAt := Some(now))
    case Unknown(bytes, code) =>
      r.(status := Uncertain, retryable := false, bytesAccepted := bytes, errorCode := Some(code),
         finishedAt := Some(now))
  }

  function Marked(r: Run, uid: Uid, o: Outcome, now: Stamp): Run {
    if r.uid == uid && r.status == Processing then WithOutcome(r, o, now) else r
  }

  function MarkedRows(rows: seq<Run>, uid: Uid, o: Outcome, now: Stamp): seq<Run> {
    MapRows(r => Marked(r, uid, o, now), rows)
  }

  // UPDATE jobs SET expires_at = now + 48h; no row matches when the job is gone.
  function Touch(db: Db, job: Uid, now: Stamp): Db {
    if job in db.jobs
    then db.(jobs := db.jobs[job := db.jobs[job].(expiresAt := now + RetentionWindow)])
    else db
  }

  function Mark(db: Db, uid: Uid, o: Outcome, now: Stamp): Reply<Db> {
    match Lookup(db.runs, uid)
    case None => Err(StateChanged)
    case Some(r) =>
      if r.status == Processing || r.status == StatusOf(o)
      then Ok(Touch(db.(runs := MarkedRows(db.runs, uid, o, now)), r.key.job, now))
      else Err(StateChanged)
  }

  // ---- operator actions ----

  function Withdrawn(r: Run, uid: Uid, now: Stamp): Run {
    if r.uid == uid && r.status == Queued
    then r.(status := Cancelled, retryable := false, finishedAt := Some(now)) else r
  }

  function WithdrawnRows(rows: seq<Run>, uid: Uid, now: Stamp): seq<Run> {
    MapRows(r => Withdrawn(r, uid, now), rows)
  }

  function CancelRun(db: Db, uid: Uid, now: Stamp): Reply<Db> {
    match Lookup(db.runs, uid)
    case None => Err(StateChanged)
    case Some(r) =>
      if r.status == Queued || r.status == Cancelled
      then Ok(Touch(db.(runs := WithdrawnRows(db.runs, uid, now)), r.key.job, now))
      else Err(StateChanged)
  }

  function Resolved(r: Run, uid: Uid, res: Resolution, now: Stamp): Run {
    if r.uid == uid && r.status == Uncertain && r.resolution == Unresolved
    then r.(resolution := res, resolvedAt := Some(now)) else r
  }

  function ResolvedRows(rows: seq<Run>, uid: Uid, res: Resolution, now: Stamp): seq<Run> {
    MapRows(r => Resolved(r, uid, res, now), rows)
  }

  function ResolveUncertain(db: Db, uid: Uid, res: Resolution, now: Stamp): Reply<Db> {
    if res == Unresolved then Err(InvalidResolution)
    else match Lookup(db.runs, uid)
      case None => Err(StateChanged)
      case Some(r) =>
        if r.status == Uncertain && r.resolution == Unresolved
        then Ok(Touch(db.(runs := ResolvedRows(db.runs, uid, res, now)), r.key.job, now))
        else Err(StateChanged)
  }

  // The two updates of CancelTargets on one target: queued runs are cancelled and pending
  // retries are given up.
  function Dropped(r: Run, k: Key, now: Stamp): Run {
    if r.key == k && r.status == Queued then r.(status := Cancelled, retryable := false, finishedAt := Some(now))
    else if r.key == k && RetryPending(r) then r.(retryable := false)
    else r
  }

  function DroppedRows(rows: seq<Run>, k: Key, now: Stamp): seq<Run> {
    MapRows(r => Dropped(r, k, now), rows)
  }

  function CancelTarget(db: Db, k: Key, now: Stamp): Reply<Db> {
    if exists r | r in db.runs :: r.key == k && Fulfils(r) then Err(TargetFulfilled)
    else if exists r | r in db.runs :: r.key == k && r.status == Processing then Err(StateChanged)
    else if k !in db.targets then Err(NotFound)
    else Ok(db.(targets := db.targets[k := db.targets[k].(cancelledAt := Some(now))],
                runs := DroppedRows(db.runs, k, now)))
  }

  function CancelEach(db: Db, job: Uid, printers: seq<PrinterId>, now: Stamp): Reply<Db>
    decreases |printers|
  {
    if printers == [] then Ok(db)
    else match CancelTarget(db, Key(job, printers[0]), now)
      case Err(e) => Err(e)
      case Ok(db') => CancelEach(db', job, printers[1..], now)
  }

  function CancelTargets(db: Db, job: Uid, printers: seq<PrinterId>, now: Stamp): Reply<Db> {
    match CancelEach(db, job, printers, now)
    case Err(e) => Err(e)
    case Ok(db') => Ok(Touch(db', job, now))
  }

  // ---- manual reprints ----

  // SELECT uid ... WHERE trigger = 'initial'
  function InitialRun(rows: seq<Run>, k: Key): (u: Option<Uid>)
    ensures u.Some? ==> exists r :: r in rows && r.key == k && r.trigger == Initial && r.uid == u.value
    ensures u.None? ==> forall r | r in rows && r.key == k :: r.trigger != Initial
  {
    if rows == [] then None
    else if rows[0].key == k && rows[0].trigger == Initial then Some(rows[0].uid)
    else InitialRun(rows[1..], k)
  }

  // Failed and uncertain results of the target are answered by the reprint.
  function Superseded(r: Run, k: Key, now: Stamp): Run {
    if r.key == k && (r.status == Failed || r.status == Uncertain) && r.resolution == Unresolved
    then r.(retryable := false, resolution := ReprintRequested, resolvedAt := Some(now))
    else r
  }

  function SupersededRows(rows: seq<Run>, k: Key, now: Stamp): seq<Run> {
    MapRows(r => Superseded(r, k, now), rows)
  }

  // What InsertManualReprints needs for one printer: the rendered hash, or None when the
  // accepted content can no longer be rendered, and a random run id.
  datatype ReprintSlot = ReprintSlot(printer: PrinterId, hash: Option<ContentHash>, run: Uid)

  function ReprintTarget(db: Db, job: Uid, request: RequestId, s: ReprintSlot, now: Stamp): Reply<Db> {
    var k := Key(job, s.printer);
    if k !in db.targets then Err(NotFound)
    else if exists r | r in db.runs :: r.key == k && Active(r) then Err(StateChanged)
    else match InitialRun(db.runs, k)
      case None => Err(NoRows)
      case Some(first) =>
        if s.hash.None? then Err(ContentChanged)
        else
          var run := NewRun(s.run, k, MaxNumber(db.runs, k) + 1, ManualReprint, Reprint,
                            None, Some(first), Some(request), s.hash.value, now);
          match InsertRun(db, run)
          case Err(e) => Err(e)
          case Ok(db') =>
            Ok(db'.(targets := db'.targets[k := db'.targets[k].(cancelledAt := None)],
                    runs := SupersededRows(db'.runs, k, now)))
  }

  function ReprintEach(db: Db, job: Uid, request: RequestId, slots: seq<ReprintSlot>, now: Stamp): Reply<Db>
    decreases |slots|
  {
    if slots == [] then Ok(db)
    else match ReprintTarget(db, job, request, slots[0], now)
      case Err(e) => Err(e)
      case Ok(db') => ReprintEach(db', job, request, slots[1..], now)
  }

  // The dedup row references jobs(uid), so a vanished job is refused before it is looked up.
  function InsertManualReprints(db: Db, job: Uid, request: RequestId, digest: ReprintDigest,
                                slots: seq<ReprintSlot>, now: Stamp): Reply<Db>
  {
    var id := RequestKey(job, request);
    if id in db.dedup then Err(DuplicateRequest)
    else if job !in db.jobs then Err(Refused(ForeignKeyFailed))
    else match ReprintEach(db.(dedup := db.dedup[id := digest]), job, request, slots, now)
      case Err(e) => Err(e)
      case Ok(db') => Ok(Touch(db', job, now))
  }

  // ---- automatic retries ----

  function Spent(r: Run, uid: Uid): Run {
    if r.uid == uid && r.retryable then r.(retryable := false) else r
  }

  function SpentRows(rows: seq<Run>, uid: Uid): seq<Run> {
    MapRows(r => Spent(r, uid), rows)
  }

  // How many automatic retries end at position i of a history.
  function Depth(h: seq<Run>, i: nat): (d: nat)
    requires i < |h|
    ensures d <= i
  {
    if i > 0 && h[i].trigger == AutomaticRetry then 1 + Depth(h, i - 1) else 0
  }

  function LastDepth(h: seq<Run>): nat {
    if h == [] then 0 else Depth(h, |h| - 1)
  }

  // The run that answers r, already failed when its content can no longer be rendered.
  function RetryCandidate(db: Db, r: Run, newUid: Uid, hash: Option<ContentHash>, now: Stamp): Run {
    var queued := NewRun(newUid, r.key, MaxNumber(db.runs, r.key) + 1, AutomaticRetry, r.mode,
                         Some(r.uid), None, None, if hash.Some? then hash.value else 0, now);
    if hash.Some? then queued
    else queued.(status := Failed, errorCode := Some("content_changed"), finishedAt := Some(now))
  }

  function RetryInsert(db: Db, r: Run, newUid: Uid, hash: Option<ContentHash>, now: Stamp): Reply<(Db, Option<Run>)> {
    if exists x | x in db.runs :: x.key == r.key && Active(x) then Err(StateChanged)
    else if r.key.job !in db.jobs || r.key !in db.targets then Err(NoRows)
    else if db.targets[r.key].cancelledAt.Some? then Err(StateChanged)
    else
      var run := RetryCandidate(db, r, newUid, hash, now);
      match InsertRun(db, run)
      case Err(e) => Err(e)
      case Ok(db') => Ok((db'.(runs := SpentRows(db'.runs, r.uid)), Some(run)))
  }

  // materializeRetry: gives the retry up when the chain is long enough, otherwise inserts the
  // next run.
  function Retry(db: Db, uid: Uid, maxRetries: nat, newUid: Uid, hash: Option<ContentHash>, now: Stamp)
    : Reply<(Db, Option<Run>)>
  {
    match Lookup(db.runs, uid)
    case None => Err(StateChanged)
    case Some(r) =>
      if !RetryPending(r) then Err(StateChanged)
      else if LastDepth(RunsOf(db.runs, r.key)) >= maxRetries then Ok((db.(runs := SpentRows(db.runs, uid)), None))
      else RetryInsert(db, r, newUid, hash, now)
  }

  // ---- recovery and retention ----

  function Abandoned(r: Run, now: Stamp): Run {
    if r.status == Processing
    then r.(status := Uncertain, retryable := false, finishedAt := Some(now),
            errorCode := Some("agent_restart_during_processing"))
    else r
  }

  function AbandonedRows(rows: seq<Run>, now: Stamp): seq<Run> {
    MapRows(r => Abandoned(r, now), rows)
  }

  function RecoverAbandoned(db: Db, now: Stamp): Db {
    db.(runs := AbandonedRows(db.runs, now))
  }

  predicate Holds(db: Db, r: Run) {
    || Active(r)
    || ((r.status == Failed || r.status == Uncertain) && r.resolution == Unresolved
        && !(r.key in db.targets && db.targets[r.key].cancelledAt.Some?))
  }

  predicate Purgeable(db: Db, job: Uid, now: Stamp)
    requires job in db.jobs
  {
    db.jobs[job].expiresAt < now && !exists r | r in db.runs :: r.key.job == job && Holds(db, r)
  }

  function PurgeableJobs(db: Db, now: Stamp): set<Uid> {
    set j | j in db.jobs && Purgeable(db, j, now)
  }

  // DELETE FROM jobs, with the cascades to job_printers, print_runs and request_deduplication.
  function Purge(db: Db, now: Stamp): Db {
    var gone := PurgeableJobs(db, now);
    Db(db.jobs - gone,
       map k | k in db.targets && k.job !in gone :: db.targets[k],
       WithoutJobs(db.runs, gone),
       db.lastSequence,
       map q | q in db.dedup && q.job !in gone :: db.dedup[q])
  }
}
