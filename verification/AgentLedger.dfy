// The tape misses nothing: every run that is on file with a byte counted for it is on the tape, so
// that what AtMostOnce says of the tape holds of everything the agent admits to having sent.
module AgentLedger {
  import opened Domain
  import opened Tables
  import opened Transactions
  import opened Invariant
  import opened Preservation
  import opened AcceptPurge
  import opened Effects
  import opened Repository
  import opened Requests
  import opened Transport
  import opened Gates
  import opened Agent
  import opened AtMostOnce

  ghost predicate Taped(tape: seq<Emission>, r: Run) {
    Emission(r.sequence, r.key, r.mode) in tape
  }

  // The worker has written, or is about to record that bytes left.
  predicate HasWritten(pc: Pc) {
    pc.Sending? || ((pc.Persisting? || pc.PausePersist? || pc.PersistPaused?) && pc.outcome.bytes > 0)
  }

  ghost predicate RowsTaped(db: Db, tape: seq<Emission>) {
    forall r | r in db.runs && r.bytesAccepted > 0 :: Taped(tape, r)
  }

  ghost predicate WorkerTaped(db: Db, tape: seq<Emission>, pc: Pc) {
    HasWritten(pc) ==> var r := Lookup(db.runs, pc.run); r.Some? ==> Taped(tape, r.value)
  }

  ghost predicate LedgerOk(s: System) {
    RowsTaped(s.db, s.tape) && forall p | p in s.workers :: WorkerTaped(s.db, s.tape, s.workers[p])
  }

  // Only a mark changes the bytes counted for a row.
  lemma NewRowBytes(db: Db, tx: Tx, r: Run)
    ensures NewRow(db, tx, r).bytesAccepted == r.bytesAccepted
         || (tx.MarkTx? && tx.run == r.uid && NewRow(db, tx, r).bytesAccepted == tx.outcome.bytes)
  {
    hide Commit, NextQueued, SlotPrinters;
  }

  lemma RowBytes(db: Db, tx: Tx, r': Run) returns (r: Run, added: bool)
    requires r' in After(db, tx).runs
    ensures added ==> r'.bytesAccepted == 0 && r'.uid in NewIds(tx)
    ensures !added ==>
              && r in db.runs && SameIdentity(r, r')
              && (r'.bytesAccepted == r.bytesAccepted
                  || (tx.MarkTx? && tx.run == r.uid && r'.bytesAccepted == tx.outcome.bytes))
  {
    r, added := r', false;
    if tx.PurgeTx? {
      InWithoutJobs(db.runs, PurgeableJobs(db, tx.now));
    } else {
      hide NewRow, After;
      var appended := Effect(db, tx);
      if r' in appended {
        added := true;
      } else {
        r := MappedRow(x => NewRow(db, tx, x), db.runs, r');
        NewRowKeepsKey(db, tx, r);
        NewRowBytes(db, tx, r);
      }
    }
  }

  // A worker admits only what it has written, and its run stays the same.
  lemma WrittenBefore(s: System, step: Step, p: PrinterId)
    requires Enabled(s, step) && p in Next(s, step).workers && HasWritten(Next(s, step).workers[p])
    ensures p in s.workers && (HasWritten(s.workers[p]) || step == Emit(p))
    ensures DutyAt(s.workers[p]) != Free && DutyAt(s.workers[p]).run == Next(s, step).workers[p].run
    ensures HasWritten(s.workers[p]) ==> s.workers[p].run == Next(s, step).workers[p].run
  {
    hide Lookup, Mark, Claim, Begun, Ended, After, Granted, Contract, Verdict;
    if step.Report? && step.p == p {
      ReportWritten(s, step);
    }
  }

  lemma ReportWritten(s: System, step: Step)
    requires step.Report? && Enabled(s, step)
    ensures Verdict(step.report, step.linkUp, step.size).bytes > 0 ==> s.workers[step.p].Sending?
  {
  }

  // The transaction of a step that marks is the one of a worker that admits the bytes.
  lemma MarksAdmit(s: System, step: Step)
    requires Enabled(s, step) && TxOf(s, step).Some?
    ensures var tx := TxOf(s, step).value;
            && (tx.MarkTx? && tx.outcome.bytes > 0 ==>
                  step.Attempting? && At(s, step.p) && HasWritten(s.workers[step.p]) && s.workers[step.p].run == tx.run)
            && NewIds(tx) !! s.usedRuns
  {
    hide Contract, Lookup, Verdict;
  }

  lemma RunIsUsed(s: System, p: PrinterId)
    requires Inv(s) && p in s.workers && DutyAt(s.workers[p]) != Free
    ensures DutyAt(s.workers[p]).run in s.usedRuns
  {
    hide Valid, TapeOk, PermitOk, PauseOk, CountsOk, GrantsOk;
    assert DutyOk(s.db, s.usedRuns, p, DutyOf(s.workers, p));
  }

  lemma TapeGrows(s: System, step: Step)
    requires Enabled(s, step)
    ensures s.tape <= Next(s, step).tape
  {
    hide Contract, Lookup, Verdict, Mark, Claim, Begun, Ended, After, Granted;
  }

  lemma LedgerAt(s: System, p: PrinterId)
    requires LedgerOk(s) && p in s.workers
    ensures WorkerTaped(s.db, s.tape, s.workers[p])
  {
  }

  lemma RowTaped(s: System, r: Run)
    requires LedgerOk(s) && r in s.db.runs && r.bytesAccepted > 0
    ensures Taped(s.tape, r)
  {
  }

  lemma WrittenRow(s: System, p: PrinterId, r: Run)
    requires Valid(s.db) && LedgerOk(s) && p in s.workers && HasWritten(s.workers[p])
    requires r in s.db.runs && s.workers[p].run == r.uid
    ensures Taped(s.tape, r)
  {
    LookupIs(s.db, r);
    LedgerAt(s, p);
    hide Valid, LedgerOk, Taped, HasWritten, Lookup;
  }

  lemma SameTaped(tape: seq<Emission>, r: Run, r': Run)
    requires Taped(tape, r) && SameIdentity(r, r')
    ensures Taped(tape, r')
  {
  }

  lemma InvValid(s: System)
    requires Inv(s)
    ensures Valid(s.db)
  {
    hide Valid;
  }

  lemma RowKept(s: System, step: Step, r': Run)
    requires Inv(s) && LedgerOk(s) && Enabled(s, step) && r' in Next(s, step).db.runs && r'.bytesAccepted > 0
    ensures Taped(s.tape, r')
  {
    hide Valid, Inv, Enabled, Next, TxOf, After, NewIds, LedgerOk, Taped, HasWritten, SameIdentity, Granted;
    StepIsTransaction(s, step);
    InvValid(s);
    if TxOf(s, step).Some? {
      var tx := TxOf(s, step).value;
      MarksAdmit(s, step);
      var r, added := RowBytes(s.db, tx, r');
      if r.bytesAccepted == r'.bytesAccepted {
        RowTaped(s, r);
      } else {
        WrittenRow(s, step.p, r);
      }
      SameTaped(s.tape, r, r');
    } else {
      RowTaped(s, r');
    }
  }

  // A step that writes nothing leaves what a worker has written on the tape.
  lemma WorkerKept(s: System, step: Step, p: PrinterId)
    requires Inv(s) && LedgerOk(s) && Enabled(s, step) && p in Next(s, step).workers
    ensures WorkerTaped(Next(s, step).db, Next(s, step).tape, Next(s, step).workers[p])
  {
    hide Valid, Inv, Enabled, Next, TxOf, After, NewIds, LedgerOk, Taped, SameIdentity, Granted, DutyAt, Lookup;
    var s' := Next(s, step);
    if HasWritten(s'.workers[p]) && Lookup(s'.db.runs, s'.workers[p].run).Some? {
      var r' := Lookup(s'.db.runs, s'.workers[p].run).value;
      WrittenBefore(s, step, p);
      TapeGrows(s, step);
      if step == Emit(p) {
        EmitTapes(s, p);
      } else {
        StillTaped(s, step, p, r');
        TapedOn(s.tape, s'.tape, r');
      }
    }
  }

  lemma TapedOn(tape: seq<Emission>, tape': seq<Emission>, r: Run)
    requires Taped(tape, r) && tape <= tape'
    ensures Taped(tape', r)
  {
  }

  lemma EmitTapes(s: System, p: PrinterId)
    requires Enabled(s, Emit(p))
    ensures var s' := Next(s, Emit(p));
            && p in s'.workers && s'.workers[p].Sending?
            && var r := Lookup(s'.db.runs, s'.workers[p].run); r.Some? && Taped(s'.tape, r.value)
  {
    hide Lookup;
  }

  lemma StillTaped(s: System, step: Step, p: PrinterId, r': Run)
    requires Inv(s) && LedgerOk(s) && Enabled(s, step) && p in s.workers && HasWritten(s.workers[p])
    requires DutyAt(s.workers[p]) != Free && DutyAt(s.workers[p]).run == s.workers[p].run == r'.uid
    requires r' in Next(s, step).db.runs
    ensures Taped(s.tape, r')
  {
    hide Valid, Inv, Enabled, Next, TxOf, After, NewIds, LedgerOk, Taped, HasWritten, SameIdentity, Granted, DutyAt;
    StepIsTransaction(s, step);
    InvValid(s);
    RunIsUsed(s, p);
    if TxOf(s, step).Some? {
      var tx := TxOf(s, step).value;
      MarksAdmit(s, step);
      var r, added := RowBytes(s.db, tx, r');
      SameUid(r, r');
      WrittenRow(s, p, r);
      SameTaped(s.tape, r, r');
    } else {
      WrittenRow(s, p, r');
    }
  }

  lemma SameUid(r: Run, r': Run)
    ensures SameIdentity(r, r') ==> r.uid == r'.uid
  {
  }

  lemma LedgerKept(s: System, step: Step)
    requires Inv(s) && LedgerOk(s) && Enabled(s, step)
    ensures LedgerOk(Next(s, step))
  {
    TapeGrows(s, step);
    hide Inv, Enabled, Next, WorkerTaped, LedgerOk;
    forall r | r in Next(s, step).db.runs && r.bytesAccepted > 0 ensures Taped(Next(s, step).tape, r) {
      RowKept(s, step, r);
    }
    forall p | p in Next(s, step).workers
      ensures WorkerTaped(Next(s, step).db, Next(s, step).tape, Next(s, step).workers[p])
    {
      WorkerKept(s, step, p);
    }
    LedgerFrom(Next(s, step));
  }

  lemma LedgerFrom(s: System)
    requires RowsTaped(s.db, s.tape) && forall p | p in s.workers :: WorkerTaped(s.db, s.tape, s.workers[p])
    ensures LedgerOk(s)
  {
  }

  lemma {:induction false} RunsKeepLedger(s: System, steps: seq<Step>)
    requires Inv(s) && LedgerOk(s) && Executable(s, steps)
    ensures LedgerOk(Execute(s, steps))
    decreases |steps|
  {
    if steps != [] {
      InvKept(s, steps[0]);
      LedgerKept(s, steps[0]);
      hide Inv, LedgerOk, Enabled, Next;
      RunsKeepLedger(Next(s, steps[0]), steps[1..]);
    }
  }

  // Over every execution from the first start, whatever crashes and requests it contains: a run on
  // file for which the agent has counted a byte, so every transmitted document that is not empty, is
  // on the tape.
  lemma CountedBytesAreOnTape(steps: seq<Step>, r: Run)
    requires Executable(Initially, steps) && r in Execute(Initially, steps).db.runs && r.bytesAccepted > 0
    ensures Emission(r.sequence, r.key, r.mode) in Execute(Initially, steps).tape
  {
    InitiallyInv();
    assert LedgerOk(Initially);
    hide Inv, Executable, Execute;
    RunsKeepLedger(Initially, steps);
  }
}
