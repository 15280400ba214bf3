// Who owns a claimed run, and what the tape says about the table, over every step of the agent.
module AgentRuns {
  import opened Domain
  import opened Tables
  import opened Schema
  import opened Transactions
  import opened History
  import opened Invariant
  import opened Preservation
  import opened AcceptPurge
  import opened Effects
  import opened Stability
  import opened Repository
  import opened Requests
  import opened Transport
  import opened Gates
  import opened Agent
  import Chains
  import Order

  // ---- steps that leave the database and every duty alone ----

  predicate Quiet(step: Step) {
    step.StartWorker? || step.StopWorker? || step.CheckGate? || step.Wake? || step.GiveUp? || step.Acquire?
    || step.BeginPause? || step.EndPause? || step.Release? || (step.Claiming? && !step.ok)
  }

  lemma QuietKeepsDuties(s: System, step: Step, p: PrinterId)
    requires Enabled(s, step) && Quiet(step)
    ensures var s' := Next(s, step);
            && DutyOf(s'.workers, p) == DutyOf(s.workers, p)
            && s'.db == s.db && s'.up == s.up && s'.tape == s.tape && s'.granted == s.granted
            && s'.usedJobs == s.usedJobs && s'.usedRuns == s.usedRuns
  {
    hide Claim, Begun, Ended, Contract, Lookup, FreshIds, Verdict, AfterAttempt, After, Granted;
  }

  lemma OwnersSame(db: Db, up: bool, workers: map<PrinterId, Pc>, workers': map<PrinterId, Pc>, used: set<Uid>)
    requires OwnersOk(db, up, workers, used) && (!up ==> workers' == map[])
    requires forall p :: DutyOf(workers', p) == DutyOf(workers, p)
    ensures OwnersOk(db, up, workers', used)
  {
    hide DutyOf, DutyOk;
  }

  lemma TapeSame(db: Db, up: bool, workers: map<PrinterId, Pc>, workers': map<PrinterId, Pc>, tape: seq<Emission>)
    requires TapeOk(db, up, workers, tape)
    requires forall p :: DutyOf(workers', p) == DutyOf(workers, p)
    ensures TapeOk(db, up, workers', tape)
  {
    hide DutyOf, Distinct, SentRow, Admits;
  }

  ghost predicate RunsOk(s: System) {
    OwnersOk(s.db, s.up, s.workers, s.usedRuns) && TapeOk(s.db, s.up, s.workers, s.tape)
  }

  lemma QuietKeepsRuns(s: System, step: Step)
    requires RunsOk(s) && Enabled(s, step) && Quiet(step)
    ensures RunsOk(Next(s, step))
  {
    var s' := Next(s, step);
    QuietKeepsRunsUp(s, step);
    forall p ensures DutyOf(s'.workers, p) == DutyOf(s.workers, p) {
      QuietKeepsDuties(s, step, p);
    }
    QuietKeepsDuties(s, step, 0);
    hide Enabled, Next, OwnersOk, TapeOk, DutyOf;
    OwnersSame(s.db, s.up, s.workers, s'.workers, s.usedRuns);
    TapeSame(s.db, s.up, s.workers, s'.workers, s.tape);
  }

  // Nothing but a restart happens while the agent is down.
  lemma QuietKeepsRunsUp(s: System, step: Step)
    requires RunsOk(s) && Enabled(s, step) && !step.Restart?
    ensures s.up
  {
    hide Contract, Lookup, FreshIds, TapeOk, DutyOk, DutyOf;
  }

  // ---- the general step ----

  ghost predicate OnTape(tape: seq<Emission>, r: Run) {
    exists e :: e in tape && e.sequence == r.sequence
  }

  ghost predicate Evolves(tape: seq<Emission>, r: Run, r': Run) {
    SameIdentity(r, r') && (OnTape(tape, r) ==> MayHavePrinted(r'))
  }

  ghost predicate Evolved(tape: seq<Emission>, rows: seq<Run>, last: nat, r': Run) {
    r'.sequence > last || exists r :: r in rows && Evolves(tape, r, r')
  }

  ghost predicate KeptSequence(rows: seq<Run>, sequence: nat) {
    exists r :: r in rows && r.sequence == sequence
  }

  lemma TapeStep(db: Db, db': Db, up: bool, up': bool, workers: map<PrinterId, Pc>, workers': map<PrinterId, Pc>,
                 tape: seq<Emission>)
    requires TapeOk(db, up, workers, tape) && db'.lastSequence >= db.lastSequence
    requires forall r' | r' in db'.runs :: Evolved(tape, db.runs, db.lastSequence, r')
    requires up' ==> forall r' | r' in db'.runs && r'.status == Processing && OnTape(tape, r') ::
                       Admits(DutyOf(workers', r'.key.printer))
    requires forall r | r in db.runs && r.key.job in db'.jobs :: KeptSequence(db'.runs, r.sequence)
    requires forall e | e in tape && e.key.job in db'.jobs :: e.key.job in db.jobs
    ensures TapeOk(db', up', workers', tape)
  {
    hide DutyOf, Admits, Distinct;
    forall e, r' | e in tape && r' in db'.runs && e.sequence == r'.sequence ensures SentRow(e, r') {
      assert Evolved(tape, db.runs, db.lastSequence, r');
      var r :| r in db.runs && Evolves(tape, r, r');
      assert SentRow(e, r) && OnTape(tape, r);
    }
    forall e | e in tape && e.key.job in db'.jobs ensures KeptSequence(db'.runs, e.sequence) {
      var r :| r in db.runs && r.sequence == e.sequence;
      assert SentRow(e, r);
    }
    forall e, r' | e in tape && r' in db'.runs && e.sequence == r'.sequence ensures OnTape(tape, r') {
    }
  }

  // A run on the tape is one that may have printed.
  lemma TapeRow(db: Db, up: bool, workers: map<PrinterId, Pc>, tape: seq<Emission>, r: Run)
    requires TapeOk(db, up, workers, tape) && r in db.runs && OnTape(tape, r)
    ensures MayHavePrinted(r)
    ensures up && r.status == Processing ==> Admits(DutyOf(workers, r.key.printer))
  {
    var e :| e in tape && e.sequence == r.sequence;
    assert SentRow(e, r);
  }

  lemma OthersAreFree(workers: map<PrinterId, Pc>, permits: nat, holder: Option<PrinterId>, p: PrinterId, q: PrinterId)
    requires PermitOk(workers, permits, holder) && p in workers && HasPermit(workers[p]) && q != p
    ensures DutyOf(workers, q).Free?
  {
  }

  lemma OwnersAt(db: Db, workers: map<PrinterId, Pc>, used: set<Uid>, p: PrinterId)
    requires forall q | q != p :: DutyOf(workers, q).Free?
    requires forall r | r in db.runs && r.status == Processing ::
               r.key.printer == p && !DutyOf(workers, p).Free? && DutyOf(workers, p).run == r.uid
    requires DutyOk(db, used, p, DutyOf(workers, p))
    ensures OwnersOk(db, true, workers, used)
  {
    hide DutyOf;
  }

  // While p is in its critical section every claimed run is the one p works on.
  lemma ClaimedIsMine(s: System, p: PrinterId, r: Run)
    requires PermitOk(s.workers, s.permits, s.holder) && OwnersOk(s.db, s.up, s.workers, s.usedRuns)
    requires s.up && At(s, p) && HasPermit(s.workers[p]) && r in s.db.runs && r.status == Processing
    ensures r.key.printer == p && !DutyOf(s.workers, p).Free? && DutyOf(s.workers, p).run == r.uid
  {
    if r.key.printer != p {
      OthersAreFree(s.workers, s.permits, s.holder, p, r.key.printer);
    }
  }

  ghost predicate Ready(s: System, p: PrinterId) {
    && Valid(s.db) && RunsOk(s) && UsedOk(s.db, s.tape, s.granted, s.usedJobs, s.usedRuns)
    && PermitOk(s.workers, s.permits, s.holder) && s.up && At(s, p) && HasPermit(s.workers[p])
  }

  // What being ready says about the duty, the claimed rows and the tape.
  lemma MyDuty(s: System, p: PrinterId)
    requires Ready(s, p)
    ensures DutyOk(s.db, s.usedRuns, p, DutyOf(s.workers, p)) && s.up && At(s, p)
  {
    hide Valid, TapeOk, UsedOk, DutyOk, PermitOk;
  }

  lemma MyRow(s: System, p: PrinterId, r: Run)
    requires Ready(s, p) && r in s.db.runs && r.status == Processing
    ensures r.key.printer == p && !DutyOf(s.workers, p).Free? && DutyOf(s.workers, p).run == r.uid
  {
    hide Valid, TapeOk, UsedOk, DutyOf;
    ClaimedIsMine(s, p, r);
  }

  lemma MyTape(s: System, p: PrinterId, r: Run)
    requires Ready(s, p) && r in s.db.runs && OnTape(s.tape, r)
    ensures MayHavePrinted(r) && (r.status == Processing ==> Admits(DutyOf(s.workers, p)))
  {
    if r.status == Processing {
      MyRow(s, p, r);
    }
    hide Valid, OwnersOk, UsedOk, DutyOf, PermitOk;
    TapeRow(s.db, s.up, s.workers, s.tape, r);
  }

  lemma MyTable(s: System, p: PrinterId)
    requires Ready(s, p)
    ensures Valid(s.db) && Sorted(s.db.runs) && s.up && At(s, p)
    ensures TapeOk(s.db, s.up, s.workers, s.tape)
  {
    hide OwnersOk, TapeOk, UsedOk, PermitOk, HistoriesOk, DedupOk;
  }

  // ---- steps that update rows in place ----

  // What an update of row r must respect for the tape.
  ghost predicate TapeFit(tape: seq<Emission>, up: bool, workers: map<PrinterId, Pc>, r: Run, r': Run) {
    && SameIdentity(r, r')
    && (OnTape(tape, r) ==> MayHavePrinted(r') && (up && r'.status == Processing ==> Admits(DutyOf(workers, r'.key.printer))))
  }

  lemma MapKeepsTape(f: Run -> Run, db: Db, db': Db, up: bool, up': bool,
                     workers: map<PrinterId, Pc>, workers': map<PrinterId, Pc>, tape: seq<Emission>)
    requires TapeOk(db, up, workers, tape)
    requires db'.runs == MapRows(f, db.runs) && db'.lastSequence == db.lastSequence && db'.jobs.Keys == db.jobs.Keys
    requires forall r | r in db.runs :: TapeFit(tape, up', workers', r, f(r))
    ensures TapeOk(db', up', workers', tape)
  {
    hide DutyOf, Admits;
    forall r' | r' in db'.runs
      ensures Evolved(tape, db.runs, db.lastSequence, r')
      ensures up' && r'.status == Processing && OnTape(tape, r') ==> Admits(DutyOf(workers', r'.key.printer))
    {
      var r := MappedRow(f, db.runs, r');
      assert TapeFit(tape, up', workers', r, f(r));
      assert Evolves(tape, r, r');
      assert OnTape(tape, r') <==> OnTape(tape, r);
    }
    forall r | r in db.runs ensures KeptSequence(db'.runs, r.sequence) {
      MappedIn(f, db.runs, r);
      assert TapeFit(tape, up', workers', r, f(r));
    }
    forall e | e in tape && e.key.job in db'.jobs ensures e.key.job in db.jobs {
      assert e.key.job in db'.jobs.Keys;
    }
    hide TapeOk, Evolved, OnTape, TapeFit, KeptSequence;
    TapeStep(db, db', up, up', workers, workers', tape);
  }

  lemma MapKeepsOwners(f: Run -> Run, db: Db, db': Db, workers': map<PrinterId, Pc>, used: set<Uid>, p: PrinterId)
    requires db'.runs == MapRows(f, db.runs)
    requires forall q | q != p :: DutyOf(workers', q).Free?
    requires forall r | r in db.runs && f(r).status == Processing ::
               SameIdentity(r, f(r)) && r.key.printer == p && !DutyOf(workers', p).Free? && DutyOf(workers', p).run == r.uid
    requires DutyOk(db', used, p, DutyOf(workers', p))
    ensures OwnersOk(db', true, workers', used)
  {
    forall r' | r' in db'.runs && r'.status == Processing
      ensures r'.key.printer == p && !DutyOf(workers', p).Free? && DutyOf(workers', p).run == r'.uid
    {
      var r := MappedRow(f, db.runs, r');
    }
    hide DutyOf, DutyOk;
    OwnersAt(db', workers', used, p);
  }

  lemma OthersStayFree(s: System, p: PrinterId, pc: Pc, q: PrinterId)
    requires Ready(s, p) && q != p
    ensures DutyOf(s.workers[p := pc], q).Free?
  {
    hide Valid, RunsOk, UsedOk;
    OthersAreFree(s.workers, s.permits, s.holder, p, q);
  }

  // ---- claiming ----

  lemma ClaimForm(db: Db, p: PrinterId, now: Stamp) returns (q: Run)
    requires Valid(db) && Claim(db, p, now).Ok?
    ensures q in db.runs && q.status == Queued && q.key.printer == p && Sorted(db.runs)
    ensures Claim(db, p, now).value == (db.(runs := ClaimedRows(db.runs, q.sequence, now)), Claimed(q, q.sequence, now))
    ensures Valid(Claim(db, p, now).value.0)
  {
    q := NextQueued(db.runs, p).value;
    ClaimKeepsValid(db, p, now);
  }

  lemma ClaimedIs(db: Db, p: PrinterId, q: Run, now: Stamp)
    requires Valid(db.(runs := ClaimedRows(db.runs, q.sequence, now))) && q in db.runs && q.key.printer == p
    ensures ClaimedFor(db.(runs := ClaimedRows(db.runs, q.sequence, now)), p, q.uid)
  {
    MappedIn(x => Claimed(x, q.sequence, now), db.runs, q);
    hide Valid;
    LookupIs(db.(runs := ClaimedRows(db.runs, q.sequence, now)), Claimed(q, q.sequence, now));
  }

  lemma ClaimKeepsOwners(s: System, p: PrinterId, now: Stamp, pc: Pc)
    requires Ready(s, p) && DutyOf(s.workers, p).Free? && Claim(s.db, p, now).Ok?
    requires DutyAt(pc) == Working(Claim(s.db, p, now).value.1.uid, false)
    ensures OwnersOk(Claim(s.db, p, now).value.0, true, s.workers[p := pc], s.usedRuns)
  {
    var workers' := s.workers[p := pc];
    hide Valid, RunsOk, UsedOk, Claim;
    var q := ClaimForm(s.db, p, now);
    forall x | x != p ensures DutyOf(workers', x).Free? {
      OthersStayFree(s, p, pc, x);
    }
    forall r | r in s.db.runs && Claimed(r, q.sequence, now).status == Processing
      ensures r == q
    {
      ClaimedWasQueued(s, p, q, now, r);
    }
    ClaimedIs(s.db, p, q, now);
    hide Ready, ClaimedRows, ClaimedFor;
    MapKeepsOwners(x => Claimed(x, q.sequence, now), s.db, Claim(s.db, p, now).value.0, workers', s.usedRuns, p);
  }

  // Nothing else is being printed when a worker claims.
  lemma ClaimedWasQueued(s: System, p: PrinterId, q: Run, now: Stamp, r: Run)
    requires Ready(s, p) && DutyOf(s.workers, p).Free? && Sorted(s.db.runs) && q in s.db.runs && r in s.db.runs
    requires Claimed(r, q.sequence, now).status == Processing
    ensures r == q
  {
    hide Valid, UsedOk, DutyOf;
    if r.sequence == q.sequence {
      SameSequence(s.db.runs, r, q);
    } else {
      ClaimedIsMine(s, p, r);
    }
  }

  lemma ClaimKeepsTape(s: System, p: PrinterId, now: Stamp, pc: Pc)
    requires Ready(s, p) && Claim(s.db, p, now).Ok? && DutyOf(s.workers, p).Free?
    ensures TapeOk(Claim(s.db, p, now).value.0, true, s.workers[p := pc], s.tape)
  {
    hide Valid, OwnersOk, TapeOk, UsedOk, Claim, TapeFit;
    var q := ClaimForm(s.db, p, now);
    forall r | r in s.db.runs
      ensures TapeFit(s.tape, true, s.workers[p := pc], r, Claimed(r, q.sequence, now))
    {
      ClaimedFits(s, p, q, now, r, s.workers[p := pc]);
    }
    hide Ready;
    MapKeepsTape(x => Claimed(x, q.sequence, now), s.db, Claim(s.db, p, now).value.0, s.up, true,
                 s.workers, s.workers[p := pc], s.tape);
  }

  lemma ClaimedFits(s: System, p: PrinterId, q: Run, now: Stamp, r: Run, workers': map<PrinterId, Pc>)
    requires Ready(s, p) && DutyOf(s.workers, p).Free?
    requires Sorted(s.db.runs) && q in s.db.runs && q.status == Queued && r in s.db.runs
    ensures TapeFit(s.tape, true, workers', r, Claimed(r, q.sequence, now))
  {
    if OnTape(s.tape, r) {
      TapeRow(s.db, s.up, s.workers, s.tape, r);
      if Claimed(r, q.sequence, now).status == Processing {
        ClaimedWasQueued(s, p, q, now, r);
      }
    }
    hide Ready, Sorted, DutyOf;
  }

  lemma NothingToClaim(s: System, p: PrinterId, pc: Pc)
    requires Ready(s, p) && DutyOf(s.workers, p).Free? && DutyAt(pc).Free?
    ensures RunsOk(Goes(s, p, pc))
  {
    var workers' := s.workers[p := pc];
    forall q ensures DutyOf(workers', q) == DutyOf(s.workers, q) {
    }
    assert s.up && RunsOk(s);
    hide Ready, OwnersOk, TapeOk;
    OwnersSame(s.db, s.up, s.workers, workers', s.usedRuns);
    TapeSame(s.db, s.up, s.workers, workers', s.tape);
  }

  lemma ClaimOutcome(s: System, p: PrinterId, now: Stamp) returns (pc: Pc)
    requires At(s, p) && (s.workers[p].Holding? || s.workers[p].ClaimPaused?)
    ensures DutyOf(s.workers, p).Free?
    ensures match Claim(s.db, p, now)
            case Ok((db', r)) => AfterClaim(s, p, now, true) == Goes(s.(db := db'), p, pc) && DutyAt(pc) == Working(r.uid, false)
            case Err(_) => AfterClaim(s, p, now, true) == Goes(s, p, pc) && DutyAt(pc).Free?
  {
    hide Claim;
    pc := AfterClaim(s, p, now, true).workers[p];
  }

  // A claim keeps everything, whether or not something was queued.
  lemma ClaimKeepsRuns(s: System, p: PrinterId, now: Stamp)
    requires Ready(s, p) && (s.workers[p].Holding? || s.workers[p].ClaimPaused?)
    ensures RunsOk(AfterClaim(s, p, now, true))
  {
    MyDuty(s, p);
    hide Valid, Ready, OwnersOk, TapeOk, UsedOk, Claim, AfterClaim;
    var pc := ClaimOutcome(s, p, now);
    if Claim(s.db, p, now).Ok? {
      ClaimKeepsOwners(s, p, now, pc);
      ClaimKeepsTape(s, p, now, pc);
    } else {
      NothingToClaim(s, p, pc);
    }
  }

  // ---- deciding the outcome ----

  lemma DecideKeepsTape(s: System, p: PrinterId, o: Outcome)
    requires Ready(s, p) && (s.workers[p].Printing? || s.workers[p].Sending?)
    requires s.workers[p].Sending? ==> !o.NotPrinted?
    ensures TapeOk(s.db, true, s.workers[p := Persisting(s.workers[p].run, o)], s.tape)
  {
    var workers' := s.workers[p := Persisting(s.workers[p].run, o)];
    hide Ready, Valid, TapeOk, TapeFit, Sorted;
    forall r | r in s.db.runs ensures TapeFit(s.tape, true, workers', r, r) {
      DecidedRow(s, p, o, r);
    }
    MyTable(s, p);
    MapKeepsTapeAlone(s, workers');
  }

  lemma DecideKeepsOwners(s: System, p: PrinterId, run: Uid, o: Outcome)
    requires Ready(s, p) && DutyOf(s.workers, p).Working? && DutyOf(s.workers, p).run == run
    ensures OwnersOk(s.db, true, s.workers[p := Persisting(run, o)], s.usedRuns)
  {
    var pc := Persisting(run, o);
    var workers' := s.workers[p := pc];
    hide Valid, Ready, OwnersOk, Lookup, ClaimedFor;
    MyDuty(s, p);
    forall q | q != p ensures DutyOf(workers', q).Free? {
      OthersStayFree(s, p, pc, q);
    }
    forall x | x in s.db.runs && x.status == Processing ensures x.key.printer == p && x.uid == run {
      MyRow(s, p, x);
    }
    assert DutyOf(workers', p) == Deciding(run, o, false);
    hide DutyOf;
    OwnersAt(s.db, workers', s.usedRuns, p);
  }

  // A worker that has put bytes on the wire never decides that the run may be retried or failed.
  lemma DecideKeepsRuns(s: System, p: PrinterId, o: Outcome)
    requires Ready(s, p) && (s.workers[p].Printing? || s.workers[p].Sending?)
    requires s.workers[p].Sending? ==> !o.NotPrinted?
    ensures RunsOk(Goes(s, p, Persisting(s.workers[p].run, o)))
  {
    DecideKeepsTape(s, p, o);
    DecideKeepsOwners(s, p, s.workers[p].run, o);
    MyDuty(s, p);
    hide Ready, OwnersOk, TapeOk, DutyOk;
  }

  lemma DecidedRow(s: System, p: PrinterId, o: Outcome, r: Run)
    requires Ready(s, p) && (s.workers[p].Printing? || s.workers[p].Sending?) && r in s.db.runs
    requires s.workers[p].Sending? ==> !o.NotPrinted?
    ensures r.status == Processing ==> r.key.printer == p && r.uid == s.workers[p].run
    ensures TapeFit(s.tape, true, s.workers[p := Persisting(s.workers[p].run, o)], r, r)
  {
    hide Ready, OnTape;
    if r.status == Processing {
      MyRow(s, p, r);
    }
    if OnTape(s.tape, r) {
      MyTape(s, p, r);
    }
  }

  lemma MapKeepsTapeAlone(s: System, workers': map<PrinterId, Pc>)
    requires TapeOk(s.db, s.up, s.workers, s.tape)
    requires forall r | r in s.db.runs :: TapeFit(s.tape, true, workers', r, r)
    ensures TapeOk(s.db, true, workers', s.tape)
  {
    UnchangedRows(s.db.runs);
    MapKeepsTape(r => r, s.db, s.db, s.up, true, s.workers, workers', s.tape);
  }

  // ---- bytes leaving ----

  lemma NotYetOnTape(s: System, p: PrinterId, r: Run)
    requires Ready(s, p) && s.workers[p].Printing? && Lookup(s.db.runs, s.workers[p].run) == Some(r)
    ensures r in s.db.runs && r.status == Processing && r.key.printer == p && r.uid == s.workers[p].run
    ensures !OnTape(s.tape, r)
  {
    hide Ready, OnTape;
    MyDuty(s, p);
    if OnTape(s.tape, r) {
      MyTape(s, p, r);
    }
  }

  lemma TapeAppend(db: Db, up: bool, workers: map<PrinterId, Pc>, workers': map<PrinterId, Pc>,
                   tape: seq<Emission>, r: Run)
    requires TapeOk(db, up, workers, tape) && Sorted(db.runs)
    requires r in db.runs && r.sequence <= db.lastSequence && !OnTape(tape, r)
    requires MayHavePrinted(r) && Admits(DutyOf(workers', r.key.printer))
    requires forall x | x in db.runs && OnTape(tape, x) :: x.status != Processing
    ensures TapeOk(db, true, workers', tape + [Emission(r.sequence, r.key, r.mode)])
  {
    var e := Emission(r.sequence, r.key, r.mode);
    hide DutyOf, Admits, MayHavePrinted;
    forall e', x | e' in tape + [e] && x in db.runs && e'.sequence == x.sequence
      ensures SentRow(e', x) && (x.status == Processing ==> x == r)
    {
      if e' == e {
        SameSequence(db.runs, x, r);
      } else {
        assert OnTape(tape, x);
      }
    }
    forall i | 0 <= i < |tape| ensures tape[i].sequence != e.sequence {
      assert tape[i] in tape;
    }
  }

  lemma EmitKeepsTape(s: System, p: PrinterId, r: Run)
    requires Ready(s, p) && s.workers[p].Printing? && Lookup(s.db.runs, s.workers[p].run) == Some(r)
    ensures TapeOk(s.db, true, s.workers[p := Sending(r.uid)], s.tape + [Emission(r.sequence, r.key, r.mode)])
  {
    hide Valid, Ready, Lookup, OnTape, TapeOk, Sorted;
    NotYetOnTape(s, p, r);
    MyTable(s, p);
    RowsSound(s.db, r);
    forall x | x in s.db.runs && OnTape(s.tape, x) ensures x.status != Processing {
      MyTape(s, p, x);
    }
    TapeAppend(s.db, s.up, s.workers, s.workers[p := Sending(r.uid)], s.tape, r);
  }

  lemma EmitKeepsOwners(s: System, p: PrinterId, r: Run)
    requires Ready(s, p) && s.workers[p].Printing? && Lookup(s.db.runs, s.workers[p].run) == Some(r)
    ensures OwnersOk(s.db, true, s.workers[p := Sending(r.uid)], s.usedRuns)
  {
    var workers' := s.workers[p := Sending(r.uid)];
    hide Valid, Ready, OwnersOk;
    MyDuty(s, p);
    forall q | q != p ensures DutyOf(workers', q).Free? {
      OthersStayFree(s, p, Sending(r.uid), q);
    }
    forall x | x in s.db.runs && x.status == Processing ensures x.key.printer == p && x.uid == r.uid {
      MyRow(s, p, x);
    }
    OwnersAt(s.db, workers', s.usedRuns, p);
  }
}
