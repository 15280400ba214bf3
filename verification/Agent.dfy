// The running agent: one worker per enabled printer, all sharing the database, the permit and the
// pause gate, interleaved with requests, crashes and restarts. A step is one atomic action of one
// of them; the tape records, for the proofs only, every run that put a byte on the wire.
module Agent {
  import opened Domain
  import opened Tables
  import opened Transactions
  import opened Invariant
  import opened Preservation
  import opened AcceptPurge
  import opened Repository
  import Chains
  import opened Requests
  import opened Transport
  import opened Gates

  // Where a worker is inside drainQueue, claimNext, process and persist.
  datatype Pc =
    | Idle
    | Blocked(channel: nat)
    | Admitted
    | Holding
    | PauseClaim
    | ClaimPaused
    | Printing(run: Uid)
    | Sending(run: Uid)
    | Persisting(run: Uid, outcome: Outcome)
    | PausePersist(run: Uid, outcome: Outcome, stored: bool)
    | PersistPaused(run: Uid, outcome: Outcome, stored: bool)
    | Resuming(claimed: Option<Uid>)
    | Releasing

  // Between acquire and release.
  predicate HasPermit(pc: Pc) {
    !pc.Idle? && !pc.Blocked? && !pc.Admitted?
  }

  // Between begin and end.
  predicate Paused(pc: Pc) {
    pc.ClaimPaused? || pc.PersistPaused? || pc.Resuming?
  }

  datatype Emission = Emission(sequence: nat, key: Key, mode: ContentMode)

  datatype System = System(
    db: Db,
    up: bool,
    workers: map<PrinterId, Pc>,
    permits: nat,
    holder: Option<PrinterId>,
    gate: Gate,
    tape: seq<Emission>,
    granted: seq<Key>,
    usedJobs: set<Uid>,
    usedRuns: set<Uid>)

  datatype Step =
    | StartWorker(p: PrinterId)
    | StopWorker(p: PrinterId)
    | CheckGate(p: PrinterId)
    | Wake(p: PrinterId)
    | GiveUp(p: PrinterId)
    | Acquire(p: PrinterId)
    | Claiming(p: PrinterId, now: Stamp, ok: bool)
    | BeginPause(p: PrinterId, error: string, now: Stamp)
    | EndPause(p: PrinterId)
    | Reject(p: PrinterId, code: string)
    | Emit(p: PrinterId)
    | Report(p: PrinterId, size: nat, delivered: nat, report: Option<WriteError>, linkUp: bool)
    | Attempting(p: PrinterId, now: Stamp, io: Io, ping: bool)
    | Release(p: PrinterId)
    | Request(tx: Tx)
    | Crash
    | Restart(now: Stamp)

  predicate At(s: System, p: PrinterId) {
    p in s.workers
  }

  // Random ids never repeat.
  predicate FreshIds(s: System, tx: Tx) {
    (tx.AcceptTx? ==> tx.uid !in s.usedJobs) && NewIds(tx) !! s.usedRuns
  }

  predicate Enabled(s: System, step: Step) {
    match step
    case StartWorker(p) => s.up && p !in s.workers
    case StopWorker(p) => At(s, p) && s.workers[p].Idle?
    case CheckGate(p) => At(s, p) && s.workers[p].Idle?
    case Wake(p) => At(s, p) && s.workers[p].Blocked? && s.workers[p].channel in s.gate.closed
    case GiveUp(p) => At(s, p) && (s.workers[p].Blocked? || s.workers[p].Admitted?)
    case Acquire(p) => At(s, p) && s.workers[p].Admitted? && s.permits == 1
    case Claiming(p, _, _) => At(s, p) && (s.workers[p].Holding? || s.workers[p].ClaimPaused?)
    case BeginPause(p, _, _) => At(s, p) && (s.workers[p].PauseClaim? || s.workers[p].PausePersist?)
    case EndPause(p) => At(s, p) && s.workers[p].Resuming?
    case Reject(p, _) => At(s, p) && s.workers[p].Printing?
    case Emit(p) => At(s, p) && s.workers[p].Printing? && Lookup(s.db.runs, s.workers[p].run).Some?
    case Report(p, size, delivered, report, _) =>
      && At(s, p) && Contract(size, delivered, report)
      && if delivered > 0 then s.workers[p].Sending? else s.workers[p].Printing?
    case Attempting(p, _, _, _) => At(s, p) && (s.workers[p].Persisting? || s.workers[p].PersistPaused?)
    case Release(p) => At(s, p) && s.workers[p].Releasing?
    case Request(tx) => s.up && IsRequest(tx) && FreshIds(s, tx)
    case Crash => s.up
    case Restart(_) => !s.up
  }

  function Goes(s: System, p: PrinterId, pc: Pc): System {
    s.(workers := s.workers[p := pc])
  }

  // ClaimNextQueued: a claim that reports an error changed nothing.
  function AfterClaim(s: System, p: PrinterId, now: Stamp, ok: bool): System
    requires At(s, p)
  {
    var paused := s.workers[p].ClaimPaused?;
    if !ok then Goes(s, p, if paused then ClaimPaused else PauseClaim)
    else match Claim(s.db, p, now)
      case Ok((db', r)) => Goes(s.(db := db'), p, if paused then Resuming(Some(r.uid)) else Printing(r.uid))
      case Err(_) => Goes(s, p, if paused then Resuming(None) else Releasing)
  }

  // One attempt to store the outcome. A repeated attempt also wants the database to answer a ping.
  function AfterAttempt(s: System, p: PrinterId, now: Stamp, io: Io, ping: bool): System
    requires At(s, p) && (s.workers[p].Persisting? || s.workers[p].PersistPaused?)
  {
    var pc := s.workers[p];
    var reply := Mark(s.db, pc.run, pc.outcome, now);
    var stored := (pc.PersistPaused? && pc.stored) || (io != Fails && reply.Ok?);
    var next :=
      if pc.Persisting? then (if io == Commits && reply.Ok? then Releasing else PausePersist(pc.run, pc.outcome, stored))
      else (if io == Commits && reply.Ok? && ping then Resuming(None) else PersistPaused(pc.run, pc.outcome, stored));
    Goes(s.(db := Stored(s.db, reply, io)), p, next)
  }

  function Next(s: System, step: Step): System
    requires Enabled(s, step)
  {
    match step
    case StartWorker(p) => Goes(s, p, Idle)
    case StopWorker(p) => s.(workers := s.workers - {p})
    case CheckGate(p) => Goes(s, p, if s.gate.failures == 0 then Admitted else Blocked(s.gate.resume))
    case Wake(p) => Goes(s, p, Idle)
    case GiveUp(p) => Goes(s, p, Idle)
    case Acquire(p) => Goes(s, p, Holding).(permits := 0, holder := Some(p))
    case Claiming(p, now, ok) => AfterClaim(s, p, now, ok)
    case BeginPause(p, error, now) =>
      var pc := s.workers[p];
      Goes(s, p, if pc.PauseClaim? then ClaimPaused else PersistPaused(pc.run, pc.outcome, pc.stored))
      .(gate := Begun(s.gate, error, now))
    case EndPause(p) =>
      var claimed := s.workers[p].claimed;
      Goes(s, p, if claimed.Some? then Printing(claimed.value) else Releasing).(gate := Ended(s.gate))
    case Reject(p, code) => Goes(s, p, Persisting(s.workers[p].run, NotPrinted(0, code, false)))
    case Emit(p) =>
      var r := Lookup(s.db.runs, s.workers[p].run).value;
      Goes(s, p, Sending(r.uid)).(tape := s.tape + [Emission(r.sequence, r.key, r.mode)])
    case Report(p, size, _, report, linkUp) =>
      Goes(s, p, Persisting(s.workers[p].run, Verdict(report, linkUp, size)))
    case Attempting(p, now, io, ping) => AfterAttempt(s, p, now, io, ping)
    case Release(p) => Goes(s, p, Idle).(permits := s.permits + 1, holder := None)
    case Request(tx) =>
      s.(db := After(s.db, tx), granted := s.granted + Granted(s.db, tx),
         usedJobs := if tx.AcceptTx? then s.usedJobs + {tx.uid} else s.usedJobs,
         usedRuns := s.usedRuns + NewIds(tx))
    case Crash => s.(up := false, workers := map[], permits := 1, holder := None, gate := NewGate)
    case Restart(now) => s.(up := true, db := After(s.db, RecoverTx(now)))
  }

  // Before the first start.
  const Initially := System(EmptyDb, false, map[], 1, None, NewGate, [], [], {}, {})

  // ---- what a worker still owes ----

  datatype Duty =
    | Free
    | Working(run: Uid, onWire: bool)
    | Deciding(run: Uid, outcome: Outcome, stored: bool)

  function DutyAt(pc: Pc): Duty {
    match pc
    case Printing(run) => Working(run, false)
    case Sending(run) => Working(run, true)
    case Persisting(run, o) => Deciding(run, o, false)
    case PausePersist(run, o, stored) => Deciding(run, o, stored)
    case PersistPaused(run, o, stored) => Deciding(run, o, stored)
    case Resuming(claimed) => if claimed.Some? then Working(claimed.value, false) else Free
    case _ => Free
  }

  function DutyOf(workers: map<PrinterId, Pc>, p: PrinterId): Duty {
    if p in workers then DutyAt(workers[p]) else Free
  }

  // ---- the invariant ----

  ghost predicate PermitOk(workers: map<PrinterId, Pc>, permits: nat, holder: Option<PrinterId>) {
    && permits == (if holder.None? then 1 else 0)
    && (forall p | p in workers :: HasPermit(workers[p]) <==> holder == Some(p))
    && (holder.Some? ==> holder.value in workers)
  }

  ghost predicate PauseOk(workers: map<PrinterId, Pc>, holder: Option<PrinterId>, gate: Gate) {
    && GateOk(gate)
    && gate.failures == (if holder.Some? && holder.value in workers && Paused(workers[holder.value]) then 1 else 0)
    && (forall p | p in workers && workers[p].Blocked? :: Awaited(gate, workers[p].channel))
  }

  // The run is claimed for printer p and nobody has recorded its outcome.
  ghost predicate ClaimedFor(db: Db, p: PrinterId, run: Uid) {
    var r := Lookup(db.runs, run);
    r.Some? && r.value.status == Processing && r.value.key.printer == p
  }

  ghost predicate DutyOk(db: Db, usedRuns: set<Uid>, p: PrinterId, d: Duty) {
    match d
    case Free => true
    case Working(run, _) => ClaimedFor(db, p, run)
    case Deciding(run, o, stored) =>
      if !stored then ClaimedFor(db, p, run)
      else run in usedRuns && var r := Lookup(db.runs, run); r.None? || r.value.status == StatusOf(o)
  }

  ghost predicate OwnersOk(db: Db, up: bool, workers: map<PrinterId, Pc>, usedRuns: set<Uid>) {
    && (up ==> forall r | r in db.runs && r.status == Processing ::
                 var d := DutyOf(workers, r.key.printer); !d.Free? && d.run == r.uid)
    && (forall p :: DutyOk(db, usedRuns, p, DutyOf(workers, p)))
    && (!up ==> workers == map[])
  }

  // The worker knows that bytes may have left.
  predicate Admits(d: Duty) {
    (d.Working? && d.onWire) || (d.Deciding? && !d.outcome.NotPrinted?)
  }

  // What a row must look like once a byte of it was on the wire.
  ghost predicate SentRow(e: Emission, r: Run) {
    e.key == r.key && e.mode == r.mode && MayHavePrinted(r)
  }

  ghost predicate Distinct(tape: seq<Emission>) {
    forall i, j | 0 <= i < j < |tape| :: tape[i].sequence != tape[j].sequence
  }

  ghost predicate TapeOk(db: Db, up: bool, workers: map<PrinterId, Pc>, tape: seq<Emission>) {
    && Distinct(tape)
    && (forall e | e in tape :: e.sequence <= db.lastSequence)
    && (forall e, r | e in tape && r in db.runs && e.sequence == r.sequence :: SentRow(e, r))
    && (up ==> forall e, r | e in tape && r in db.runs && e.sequence == r.sequence && r.status == Processing ::
                 Admits(DutyOf(workers, r.key.printer)))
    && (forall e | e in tape && e.key.job in db.jobs :: exists r :: r in db.runs && r.sequence == e.sequence)
  }

  // How often a target's content was on the wire, of all runs or of the unmarked ones.
  function Emitted(tape: seq<Emission>, k: Key, unmarked: bool): nat {
    if tape == [] then 0
    else
      var e := tape[|tape| - 1];
      Emitted(tape[..|tape| - 1], k, unmarked) + (if e.key == k && (unmarked ==> e.mode == Normal) then 1 else 0)
  }

  ghost predicate CountsOk(tape: seq<Emission>, granted: seq<Key>) {
    forall k :: Emitted(tape, k, false) <= 1 + Count(granted, k) && Emitted(tape, k, true) <= 1
  }

  ghost predicate GrantsOk(db: Db, granted: seq<Key>) {
    forall k | k in db.targets :: Chains.Reprints(RunsOf(db.runs, k)) == Count(granted, k)
  }

  ghost predicate UsedOk(db: Db, tape: seq<Emission>, granted: seq<Key>, usedJobs: set<Uid>, usedRuns: set<Uid>) {
    && (forall j | j in db.jobs :: j in usedJobs)
    && (forall e | e in tape :: e.key.job in usedJobs)
    && (forall k | k in granted :: k.job in usedJobs)
    && (forall r | r in db.runs :: r.uid in usedRuns)
  }

  ghost predicate Inv(s: System) {
    && Valid(s.db)
    && PermitOk(s.workers, s.permits, s.holder)
    && PauseOk(s.workers, s.holder, s.gate)
    && OwnersOk(s.db, s.up, s.workers, s.usedRuns)
    && TapeOk(s.db, s.up, s.workers, s.tape)
    && CountsOk(s.tape, s.granted)
    && GrantsOk(s.db, s.granted)
    && UsedOk(s.db, s.tape, s.granted, s.usedJobs, s.usedRuns)
  }

  // ---- whole runs ----

  ghost predicate Executable(s: System, steps: seq<Step>)
    decreases |steps|
  {
    steps == [] || (Enabled(s, steps[0]) && Executable(Next(s, steps[0]), steps[1..]))
  }

  function Execute(s: System, steps: seq<Step>): System
    requires Executable(s, steps)
    decreases |steps|
  {
    if steps == [] then s else Execute(Next(s, steps[0]), steps[1..])
  }
}
