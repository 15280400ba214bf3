// Recording outcomes, requests, crashes and restarts keep what AgentRuns says.
module AgentStorage {
  import opened Domain
  import opened Tables
  import opened Schema
  import opened Transactions
  import opened History
  import opened Invariant
  import opened Preservation
  import opened AcceptPurge
  import opened Effects
  import opened Repository
  import opened Requests
  import opened Transport
  import opened Gates
  import opened Agent
  import opened AgentRuns
  import Stability
  import Order

  // ---- recording an outcome ----

  // What a successful mark leaves behind.
  lemma MarkForm(db: Db, run: Uid, o: Outcome, now: Stamp) returns (r: Run)
    requires Valid(db) && Mark(db, run, o, now).Ok?
    ensures Lookup(db.runs, run) == Some(r) && r in db.runs && r.uid == run
    ensures r.status == Processing || r.status == StatusOf(o)
    ensures var db' := Mark(db, run, o, now).value;
            && Valid(db') && db'.runs == MarkedRows(db.runs, run, o, now)
            && db'.lastSequence == db.lastSequence && db'.jobs.Keys == db.jobs.Keys && db'.targets == db.targets
            && Lookup(db'.runs, run).Some? && Lookup(db'.runs, run).value.status == StatusOf(o)
  {
    MarkKeepsValid(db, run, o, now);
    hide Valid;
    r := MarkedFields(db, run, o, now);
    hide Mark, Lookup, MarkedRows, Marked;
  }

  lemma MarkedFields(db: Db, run: Uid, o: Outcome, now: Stamp) returns (r: Run)
    requires Mark(db, run, o, now).Ok?
    ensures Lookup(db.runs, run) == Some(r) && r in db.runs && r.uid == run
    ensures r.status == Processing || r.status == StatusOf(o)
    ensures var db' := Mark(db, run, o, now).value;
            && db'.runs == MarkedRows(db.runs, run, o, now)
            && db'.lastSequence == db.lastSequence && db'.jobs.Keys == db.jobs.Keys && db'.targets == db.targets
            && Lookup(db'.runs, run).Some? && Lookup(db'.runs, run).value.status == StatusOf(o)
  {
    r := Lookup(db.runs, run).value;
    hide Lookup, MarkedRows;
    LookupKeptMarked(db.runs, run, o, now);
  }

  predicate Records(d: Duty, o: Outcome) {
    d.Free? || (d.Deciding? && d.stored && d.outcome == o)
  }

  // The worker whose outcome was stored, and the row it was stored in.
  lemma MarkedRow(s: System, p: PrinterId, run: Uid, o: Outcome, now: Stamp, r: Run)
    requires Ready(s, p) && r in s.db.runs
    requires DutyOf(s.workers, p).Deciding? && DutyOf(s.workers, p).run == run && DutyOf(s.workers, p).outcome == o
    ensures Marked(r, run, o, now).status != Processing
    ensures OnTape(s.tape, r) ==> MayHavePrinted(Marked(r, run, o, now))
    ensures SameIdentity(r, Marked(r, run, o, now))
  {
    hide Ready, OnTape;
    if r.status == Processing {
      MyRow(s, p, r);
    }
    if OnTape(s.tape, r) {
      MyTape(s, p, r);
    }
  }

  lemma MarkKeepsOwners(s: System, p: PrinterId, run: Uid, o: Outcome, now: Stamp, pc: Pc)
    requires Ready(s, p) && Mark(s.db, run, o, now).Ok? && Records(DutyAt(pc), o)
    requires DutyOf(s.workers, p).Deciding? && DutyOf(s.workers, p).run == run && DutyOf(s.workers, p).outcome == o
    requires DutyAt(pc).Deciding? ==> DutyAt(pc).run == run
    ensures OwnersOk(Mark(s.db, run, o, now).value, true, s.workers[p := pc], s.usedRuns)
  {
    var db' := Mark(s.db, run, o, now).value;
    var workers' := s.workers[p := pc];
    MyTable(s, p);
    UsedRun(s, p, run);
    hide Ready, Valid, Mark, OwnersOk, Lookup, TapeOk, Sorted;
    var r0 := MarkForm(s.db, run, o, now);
    forall q | q != p ensures DutyOf(workers', q).Free? {
      OthersStayFree(s, p, pc, q);
    }
    forall r | r in s.db.runs ensures Marked(r, run, o, now).status != Processing {
      MarkedRow(s, p, run, o, now, r);
    }
    assert DutyOf(workers', p) == DutyAt(pc);
    assert DutyOk(db', s.usedRuns, p, DutyAt(pc));
    hide DutyOf, DutyOk, Marked;
    MapKeepsOwners(r => Marked(r, run, o, now), s.db, db', workers', s.usedRuns, p);
  }

  lemma UsedRun(s: System, p: PrinterId, run: Uid)
    requires Ready(s, p)
    ensures Lookup(s.db.runs, run).Some? ==> run in s.usedRuns
  {
    hide Valid, OwnersOk, TapeOk, PermitOk;
  }

  lemma MarkKeepsTape(s: System, p: PrinterId, run: Uid, o: Outcome, now: Stamp, pc: Pc)
    requires Ready(s, p) && Mark(s.db, run, o, now).Ok?
    requires DutyOf(s.workers, p).Deciding? && DutyOf(s.workers, p).run == run && DutyOf(s.workers, p).outcome == o
    ensures TapeOk(Mark(s.db, run, o, now).value, true, s.workers[p := pc], s.tape)
  {
    var db' := Mark(s.db, run, o, now).value;
    var workers' := s.workers[p := pc];
    MyTable(s, p);
    hide Ready, Valid, Mark, TapeOk, Sorted, DutyOf, OnTape;
    var r0 := MarkForm(s.db, run, o, now);
    forall r | r in s.db.runs ensures TapeFit(s.tape, true, workers', r, Marked(r, run, o, now)) {
      MarkedRow(s, p, run, o, now, r);
    }
    hide TapeFit, Marked;
    MapKeepsTape(r => Marked(r, run, o, now), s.db, db', s.up, true, s.workers, workers', s.tape);
  }

  // An attempt that stores nothing leaves the worker with the same duty.
  lemma AttemptOutcome(s: System, p: PrinterId, now: Stamp, io: Io, ping: bool) returns (pc: Pc)
    requires At(s, p) && (s.workers[p].Persisting? || s.workers[p].PersistPaused?)
    ensures DutyOf(s.workers, p).Deciding? && DutyOf(s.workers, p).run == s.workers[p].run
    ensures DutyOf(s.workers, p).outcome == s.workers[p].outcome
    ensures var reply := Mark(s.db, s.workers[p].run, s.workers[p].outcome, now);
            if io != Fails && reply.Ok?
            then AfterAttempt(s, p, now, io, ping) == Goes(s.(db := reply.value), p, pc)
                 && Records(DutyAt(pc), s.workers[p].outcome)
                 && (DutyAt(pc).Deciding? ==> DutyAt(pc).run == s.workers[p].run)
            else AfterAttempt(s, p, now, io, ping) == Goes(s, p, pc) && DutyAt(pc) == DutyOf(s.workers, p)
  {
    hide Mark;
    pc := AfterAttempt(s, p, now, io, ping).workers[p];
  }

  lemma SameDutyKeepsRuns(s: System, p: PrinterId, pc: Pc)
    requires RunsOk(s) && s.up && At(s, p) && DutyAt(pc) == DutyOf(s.workers, p)
    ensures RunsOk(Goes(s, p, pc))
  {
    var workers' := s.workers[p := pc];
    forall q ensures DutyOf(workers', q) == DutyOf(s.workers, q) {
    }
    hide OwnersOk, TapeOk, DutyOf;
    OwnersSame(s.db, s.up, s.workers, workers', s.usedRuns);
    TapeSame(s.db, s.up, s.workers, workers', s.tape);
  }

  lemma AttemptKeepsRuns(s: System, p: PrinterId, now: Stamp, io: Io, ping: bool)
    requires Ready(s, p) && (s.workers[p].Persisting? || s.workers[p].PersistPaused?)
    ensures RunsOk(AfterAttempt(s, p, now, io, ping))
  {
    var run, o := s.workers[p].run, s.workers[p].outcome;
    MyDuty(s, p);
    assert RunsOk(s) by { ReadyRuns(s, p); }
    hide Ready, Mark, AfterAttempt, OwnersOk, TapeOk, DutyOf, DutyOk;
    var pc := AttemptOutcome(s, p, now, io, ping);
    if io != Fails && Mark(s.db, run, o, now).Ok? {
      MarkKeepsOwners(s, p, run, o, now, pc);
      MarkKeepsTape(s, p, run, o, now, pc);
    } else {
      SameDutyKeepsRuns(s, p, pc);
    }
  }

  lemma ReadyRuns(s: System, p: PrinterId)
    requires Ready(s, p)
    ensures RunsOk(s)
  {
    hide Valid, RunsOk, UsedOk, PermitOk;
  }

  // ---- requests ----

  lemma RequestKeepsDuty(db: Db, tx: Tx, used: set<Uid>, p: PrinterId, d: Duty)
    requires Valid(db) && IsRequest(tx) && DutyOk(db, used, p, d) && NewIds(tx) !! used
    ensures DutyOk(After(db, tx), used + NewIds(tx), p, d)
  {
    hide Valid, After;
    if !d.Free? {
      CommitKeepsValid(db, tx);
      var before := Lookup(db.runs, d.run);
      if before.Some? && before.value.status == Processing {
        assert before.value in db.runs;
        Stability.ClaimedRunOwned(db, tx, before.value);
        LookupIs(After(db, tx), before.value);
      } else {
        RecordedStays(db, tx, used, d);
      }
    }
  }

  // A recorded run keeps the outcome, or goes with its job; its id is not used again.
  lemma RecordedStays(db: Db, tx: Tx, used: set<Uid>, d: Duty)
    requires Valid(db) && IsRequest(tx) && NewIds(tx) !! used && d.Deciding? && d.stored && d.run in used
    requires var r := Lookup(db.runs, d.run); r.None? || r.value.status == StatusOf(d.outcome)
    ensures var r := Lookup(After(db, tx).runs, d.run); r.None? || r.value.status == StatusOf(d.outcome)
  {
    hide After, Valid;
    var after := Lookup(After(db, tx).runs, d.run);
    if after.Some? {
      var r, added := RowBefore(db, tx, after.value);
      if !added {
        LookupIs(db, r);
      }
    }
  }

  lemma RequestKeepsOwners(s: System, tx: Tx)
    requires Valid(s.db) && s.up && OwnersOk(s.db, s.up, s.workers, s.usedRuns)
    requires IsRequest(tx) && NewIds(tx) !! s.usedRuns
    ensures OwnersOk(After(s.db, tx), true, s.workers, s.usedRuns + NewIds(tx))
  {
    hide Valid, After, DutyOf, DutyOk;
    forall r' | r' in After(s.db, tx).runs && r'.status == Processing
      ensures !DutyOf(s.workers, r'.key.printer).Free? && DutyOf(s.workers, r'.key.printer).run == r'.uid
    {
      var r, added := RowBefore(s.db, tx, r');
    }
    forall p ensures DutyOk(After(s.db, tx), s.usedRuns + NewIds(tx), p, DutyOf(s.workers, p)) {
      RequestKeepsDuty(s.db, tx, s.usedRuns, p, DutyOf(s.workers, p));
    }
  }

  // Requests never touch what is on the tape except to take it away with its job.
  lemma RequestRow(s: System, tx: Tx, r': Run)
    requires Valid(s.db) && TapeOk(s.db, s.up, s.workers, s.tape) && s.up && IsRequest(tx)
    requires r' in After(s.db, tx).runs
    ensures Evolved(s.tape, s.db.runs, s.db.lastSequence, r')
    ensures r'.status == Processing && OnTape(s.tape, r') ==> Admits(DutyOf(s.workers, r'.key.printer))
  {
    hide Valid, After, DutyOf, OnTape, TapeOk;
    var r, added := RowBefore(s.db, tx, r');
    if !added {
      if OnTape(s.tape, r) {
        TapeRow(s.db, s.up, s.workers, s.tape, r);
      }
      assert Evolves(s.tape, r, r');
      SameOnTape(s.tape, r, r');
    }
  }

  lemma SameOnTape(tape: seq<Emission>, r: Run, r': Run)
    requires SameIdentity(r, r')
    ensures OnTape(tape, r) <==> OnTape(tape, r')
  {
  }

  lemma RequestKeepsTape(s: System, tx: Tx)
    requires Valid(s.db) && TapeOk(s.db, s.up, s.workers, s.tape) && s.up && IsRequest(tx) && FreshIds(s, tx)
    requires UsedOk(s.db, s.tape, s.granted, s.usedJobs, s.usedRuns)
    ensures TapeOk(After(s.db, tx), true, s.workers, s.tape)
  {
    var db' := After(s.db, tx);
    hide Valid, After, DutyOf, OnTape, TapeOk, Evolved;
    Order.SequenceNeverFalls(s.db, tx);
    forall r' | r' in db'.runs
      ensures Evolved(s.tape, s.db.runs, s.db.lastSequence, r')
      ensures r'.status == Processing && OnTape(s.tape, r') ==> Admits(DutyOf(s.workers, r'.key.printer))
    {
      RequestRow(s, tx, r');
    }
    forall r | r in s.db.runs && r.key.job in db'.jobs ensures KeptSequence(db'.runs, r.sequence) {
      var r' := RowAfter(s.db, tx, r);
    }
    forall e | e in s.tape && e.key.job in db'.jobs ensures e.key.job in s.db.jobs {
      JobsBefore(s.db, tx, e.key.job);
    }
    hide UsedOk, KeptSequence, Admits;
    TapeStep(s.db, db', s.up, true, s.workers, s.workers, s.tape);
  }

  // ---- crashes and restarts ----

  lemma CrashKeepsRuns(s: System)
    requires RunsOk(s) && s.up
    ensures RunsOk(Next(s, Crash))
  {
    hide Distinct, SentRow, Admits;
  }

  lemma RestartKeepsRuns(s: System, now: Stamp)
    requires RunsOk(s) && !s.up
    ensures OwnersOk(RecoverAbandoned(s.db, now), true, s.workers, s.usedRuns)
    ensures TapeOk(RecoverAbandoned(s.db, now), true, s.workers, s.tape)
  {
    var db' := RecoverAbandoned(s.db, now);
    forall r' | r' in db'.runs ensures r'.status != Processing {
      var r := MappedRow(x => Abandoned(x, now), s.db.runs, r');
    }
    forall r | r in s.db.runs ensures TapeFit(s.tape, true, s.workers, r, Abandoned(r, now)) {
      if OnTape(s.tape, r) {
        TapeRow(s.db, s.up, s.workers, s.tape, r);
      }
    }
    hide TapeFit, TapeOk, Abandoned;
    MapKeepsTape(x => Abandoned(x, now), s.db, db', s.up, true, s.workers, s.workers, s.tape);
  }
}
