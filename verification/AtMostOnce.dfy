// The promise of the agent: it never silently duplicates a ticket. Over every run of the system,
// whatever crashes, restarts, database failures, retries and operator actions it contains, the
// unmarked content of a target is on the wire at most once, and all of its content at most once
// more for each reprint that was granted for it.
module AtMostOnce {
  import opened Domain
  import opened Tables
  import opened Schema
  import opened Transactions
  import opened History
  import opened Invariant
  import opened Preservation
  import opened AcceptPurge
  import opened Effects
  import opened Repository
  import opened Requests
  import opened Transport
  import opened Gates
  import opened Agent
  import opened AgentGates
  import opened AgentRuns
  import opened AgentStorage
  import opened Chains
  import Stability

  // ---- every step is at most one transaction ----

  function TxOf(s: System, step: Step): Option<Tx>
    requires Enabled(s, step)
  {
    match step
    case Claiming(p, now, ok) => if ok then Some(ClaimTx(p, now)) else None
    case Attempting(p, now, io, _) =>
      if io == Fails then None else Some(MarkTx(s.workers[p].run, s.workers[p].outcome, now))
    case Request(tx) => Some(tx)
    case Restart(now) => Some(RecoverTx(now))
    case _ => None
  }

  lemma StepIsTransaction(s: System, step: Step)
    requires Enabled(s, step)
    ensures var tx := TxOf(s, step);
            && Next(s, step).db == (if tx.None? then s.db else After(s.db, tx.value))
            && Next(s, step).granted == s.granted + (if tx.None? then [] else Granted(s.db, tx.value))
            && (step.Emit? || Next(s, step).tape == s.tape)
            && (tx.Some? && tx.value.AcceptTx? ==> tx.value.uid !in s.usedJobs && tx.value.uid in Next(s, step).usedJobs)
            && s.usedJobs <= Next(s, step).usedJobs
            && Next(s, step).usedRuns == s.usedRuns + (if tx.None? then {} else NewIds(tx.value))
  {
    hide Contract, Lookup, Verdict, Mark, Claim, Begun, Ended;
  }

  function TransactionsOf(s: System, steps: seq<Step>): seq<Tx>
    requires Executable(s, steps)
    decreases |steps|
  {
    if steps == [] then []
    else
      var tx := TxOf(s, steps[0]);
      (if tx.None? then [] else [tx.value]) + TransactionsOf(Next(s, steps[0]), steps[1..])
  }

  // The interleaved system does to the database what some sequence of transactions does, so
  // every theorem about Replay holds of its runs.
  lemma {:induction false} RunIsReplay(s: System, steps: seq<Step>)
    requires Executable(s, steps)
    ensures Execute(s, steps).db == Replay(s.db, TransactionsOf(s, steps))
    decreases |steps|
  {
    if steps != [] {
      StepIsTransaction(s, steps[0]);
      var s' := Next(s, steps[0]);
      hide Enabled, Next, TxOf, After;
      RunIsReplay(s', steps[1..]);
      assert Executable(s', steps[1..]);
      ReplaySplit(s.db, TxOf(s, steps[0]), TransactionsOf(s', steps[1..]));
    }
  }

  lemma ReplaySplit(db: Db, tx: Option<Tx>, rest: seq<Tx>)
    ensures Replay(db, (if tx.None? then [] else [tx.value]) + rest)
         == Replay(if tx.None? then db else After(db, tx.value), rest)
  {
    hide After;
    if tx.None? {
      assert [] + rest == rest;
    } else {
      assert ([tx.value] + rest)[1..] == rest;
    }
  }

  // ---- grants and ids ----

  lemma UnusedJobHasNothing(db: Db, granted: seq<Key>, k: Key)
    requires Valid(db) && k.job !in db.jobs && forall x | x in granted :: x.job != k.job
    ensures RunsOf(db.runs, k) == [] && Count(granted, k) == 0
  {
    CountNone(granted, k);
    forall r | r in db.runs ensures r.key.job in db.jobs {
      RowKey(db, r);
    }
    hide Valid;
    NoRunsOf(db.runs, k);
  }

  lemma TargetHasJob(db: Db, k: Key)
    requires Valid(db) && k in db.targets
    ensures k.job in db.jobs
  {
  }

  // A target of the new database is an old one or one of a job just accepted.
  lemma TargetBefore(db: Db, tx: Tx, k: Key)
    requires Valid(db) && k in After(db, tx).targets
    ensures k.job in After(db, tx).jobs
    ensures k in db.targets || (k.job !in db.jobs && tx.AcceptTx? && k.job == tx.uid)
  {
    CommitKeepsValid(db, tx);
    hide After;
    TargetHasJob(After(db, tx), k);
    hide Valid;
    JobsBefore(db, tx, k.job);
    if k.job in db.jobs {
      Stability.StepKeepsTargets(db, tx, k);
    }
  }

  lemma GrantsKept(s: System, tx: Tx, k: Key)
    requires Valid(s.db) && GrantsOk(s.db, s.granted) && UsedOk(s.db, s.tape, s.granted, s.usedJobs, s.usedRuns)
    requires tx.AcceptTx? ==> tx.uid !in s.usedJobs
    requires k in After(s.db, tx).targets
    ensures Reprints(RunsOf(After(s.db, tx).runs, k)) == Count(s.granted + Granted(s.db, tx), k)
  {
    hide Valid, After, Granted, Reprints;
    TargetBefore(s.db, tx, k);
    ReprintsAreGranted(s.db, tx, k);
    CountConcat(s.granted, Granted(s.db, tx), k);
    if k !in s.db.targets {
      UnusedJobHasNothing(s.db, s.granted, k);
      NothingReprinted();
    }
    hide UsedOk, RunsOf, Count;
  }

  lemma NothingReprinted()
    ensures Reprints([]) == 0
  {
  }

  lemma GrantsAndIdsKept(s: System, step: Step)
    requires Inv(s) && Enabled(s, step)
    ensures var s' := Next(s, step);
            Valid(s'.db) && GrantsOk(s'.db, s'.granted)
            && (forall j | j in s'.db.jobs :: j in s'.usedJobs)
            && (forall k | k in s'.granted :: k.job in s'.usedJobs)
            && (forall r | r in s'.db.runs :: r.uid in s'.usedRuns)
  {
    var s' := Next(s, step);
    StepIsTransaction(s, step);
    var t := TxOf(s, step);
    assert Valid(s.db) && GrantsOk(s.db, s.granted) && UsedOk(s.db, s.tape, s.granted, s.usedJobs, s.usedRuns);
    hide Valid, Next, Enabled, TxOf, Inv, After, Granted;
    if t.None? {
      assert s.granted + [] == s.granted;
    } else {
      var tx := t.value;
      CommitKeepsValid(s.db, tx);
      forall k | k in s'.db.targets ensures Reprints(RunsOf(s'.db.runs, k)) == Count(s'.granted, k) {
        GrantsKept(s, tx, k);
      }
      forall j | j in s'.db.jobs ensures j in s'.usedJobs {
        JobsBefore(s.db, tx, j);
      }
      forall r' | r' in s'.db.runs ensures r'.uid in s'.usedRuns {
        var r, added := RowOrigin(s.db, tx, r');
      }
      forall k | k in s'.granted ensures k.job in s'.usedJobs {
        GrantedJobs(s.db, tx, k);
      }
    }
  }

  lemma GrantedJobs(db: Db, tx: Tx, k: Key)
    ensures k in Granted(db, tx) ==> k.job in db.jobs
  {
  }

  // ---- counting ----

  function Positions(tape: seq<Emission>, k: Key, unmarked: bool): set<nat> {
    set e | e in tape && e.key == k && (unmarked ==> e.mode == Normal) :: e.sequence
  }

  function PrintedPositions(h: seq<Run>, unmarked: bool): set<nat> {
    set r | r in h && MayHavePrinted(r) && (unmarked ==> r.mode == Normal) :: r.sequence
  }

  lemma PositionsAppend(front: seq<Emission>, e: Emission, k: Key, unmarked: bool)
    ensures Positions(front + [e], k, unmarked)
         == Positions(front, k, unmarked) + if e.key == k && (unmarked ==> e.mode == Normal) then {e.sequence} else {}
  {
    assert forall x :: x in front + [e] <==> x in front || x == e;
  }

  lemma NewPosition(tape: seq<Emission>, k: Key, unmarked: bool)
    requires tape != [] && Distinct(tape)
    ensures tape[|tape| - 1].sequence !in Positions(tape[..|tape| - 1], k, unmarked)
    ensures Distinct(tape[..|tape| - 1])
  {
    var front, e := tape[..|tape| - 1], tape[|tape| - 1];
    forall x | x in front ensures x.sequence != e.sequence {
      var i :| 0 <= i < |front| && front[i] == x;
      assert tape[i] == x;
    }
  }

  lemma {:induction false} EmittedPositions(tape: seq<Emission>, k: Key, unmarked: bool)
    requires Distinct(tape)
    ensures Emitted(tape, k, unmarked) == |Positions(tape, k, unmarked)|
  {
    if tape != [] {
      var front, e := tape[..|tape| - 1], tape[|tape| - 1];
      NewPosition(tape, k, unmarked);
      hide Distinct, Positions;
      EmittedPositions(front, k, unmarked);
      PositionsAppend(front, e, k, unmarked);
      assert tape == front + [e];
    }
  }

  lemma PrintedAppend(front: seq<Run>, r: Run, unmarked: bool)
    ensures PrintedPositions(front + [r], unmarked)
         == PrintedPositions(front, unmarked)
            + if MayHavePrinted(r) && (unmarked ==> r.mode == Normal) then {r.sequence} else {}
  {
    assert forall x :: x in front + [r] <==> x in front || x == r;
  }

  lemma {:induction false} PrintedCounted(h: seq<Run>, unmarked: bool)
    ensures |PrintedPositions(h, unmarked)| <= if unmarked then PossiblyPrintedUnmarked(h) else PossiblyPrinted(h)
  {
    if h != [] {
      var front, r := h[..|h| - 1], h[|h| - 1];
      hide PrintedPositions;
      PrintedCounted(front, unmarked);
      PrintedAppend(front, r, unmarked);
      assert h == front + [r];
    }
  }

  lemma SubsetSize(a: set<nat>, b: set<nat>)
    requires a <= b
    ensures |a| <= |b|
  {
    assert b == a + (b - a);
  }

  // Every emission of a target still on file is one of its possibly printed runs, a different
  // one each time.
  lemma EmittedAreRuns(db: Db, up: bool, workers: map<PrinterId, Pc>, tape: seq<Emission>, k: Key, unmarked: bool)
    requires Valid(db) && TapeOk(db, up, workers, tape) && k in db.targets
    ensures var h := RunsOf(db.runs, k);
            Emitted(tape, k, unmarked) <= if unmarked then PossiblyPrintedUnmarked(h) else PossiblyPrinted(h)
  {
    var h := RunsOf(db.runs, k);
    TargetHasJob(db, k);
    hide Valid;
    EmittedPositions(tape, k, unmarked);
    PrintedCounted(h, unmarked);
    InRunsOf(db.runs, k);
    forall n | n in Positions(tape, k, unmarked) ensures n in PrintedPositions(h, unmarked) {
      var e :| e in tape && e.key == k && (unmarked ==> e.mode == Normal) && e.sequence == n;
      var r :| r in db.runs && r.sequence == e.sequence;
      assert SentRow(e, r) && r in h;
    }
    SubsetSize(Positions(tape, k, unmarked), PrintedPositions(h, unmarked));
  }

  lemma CountsOnFile(db: Db, up: bool, workers: map<PrinterId, Pc>, tape: seq<Emission>, granted: seq<Key>, k: Key)
    requires Valid(db) && TapeOk(db, up, workers, tape) && GrantsOk(db, granted) && k in db.targets
    ensures Emitted(tape, k, false) <= 1 + Count(granted, k) && Emitted(tape, k, true) <= 1
  {
    EmittedAreRuns(db, up, workers, tape, k, false);
    EmittedAreRuns(db, up, workers, tape, k, true);
    TargetBounds(db, k);
  }

  lemma OneMoreCounted(db: Db, workers: map<PrinterId, Pc>, tape: seq<Emission>, e: Emission, granted: seq<Key>)
    requires Valid(db) && TapeOk(db, true, workers, tape + [e]) && GrantsOk(db, granted) && CountsOk(tape, granted)
    requires e.key in db.targets
    ensures CountsOk(tape + [e], granted)
  {
    hide Valid, TapeOk, GrantsOk;
    forall k ensures Emitted(tape + [e], k, false) <= 1 + Count(granted, k) && Emitted(tape + [e], k, true) <= 1 {
      if k == e.key {
        CountsOnFile(db, true, workers, tape + [e], granted, k);
      } else {
        assert (tape + [e])[..|tape|] == tape;
      }
    }
  }

  lemma MoreGrantsKeepCounts(tape: seq<Emission>, granted: seq<Key>, more: seq<Key>)
    requires CountsOk(tape, granted)
    ensures CountsOk(tape, granted + more)
  {
    forall k ensures Count(granted, k) <= Count(granted + more, k) {
      CountConcat(granted, more, k);
    }
  }

  // ---- the invariant over runs ----

  lemma InvReady(s: System, p: PrinterId)
    requires Inv(s) && s.up && At(s, p) && HasPermit(s.workers[p])
    ensures Ready(s, p)
  {
    hide Valid, OwnersOk, TapeOk, UsedOk, PermitOk, PauseOk, CountsOk, GrantsOk;
  }

  lemma InvRuns(s: System)
    requires Inv(s)
    ensures RunsOk(s) && Valid(s.db) && UsedOk(s.db, s.tape, s.granted, s.usedJobs, s.usedRuns)
  {
    hide Valid, OwnersOk, TapeOk, UsedOk, PermitOk, PauseOk, CountsOk, GrantsOk;
  }

  lemma EmitKeepsRuns(s: System, p: PrinterId, r: Run)
    requires Ready(s, p) && s.workers[p].Printing? && Lookup(s.db.runs, s.workers[p].run) == Some(r)
    ensures RunsOk(Goes(s, p, Sending(r.uid)).(tape := s.tape + [Emission(r.sequence, r.key, r.mode)]))
  {
    MyDuty(s, p);
    hide Ready, TapeOk, OwnersOk, Lookup, DutyOk;
    EmitKeepsTape(s, p, r);
    EmitKeepsOwners(s, p, r);
  }

  lemma RequestKeepsRuns(s: System, tx: Tx)
    requires Inv(s) && Enabled(s, Request(tx))
    ensures RunsOk(Next(s, Request(tx)))
  {
    InvRuns(s);
    hide Inv, Valid, TapeOk, OwnersOk, UsedOk, After, Contract, Lookup;
    RequestKeepsOwners(s, tx);
    RequestKeepsTape(s, tx);
  }

  lemma RestartKeeps(s: System, now: Stamp)
    requires RunsOk(s) && !s.up
    ensures RunsOk(Next(s, Restart(now)))
  {
    RestartKeepsRuns(s, now);
    assert After(s.db, RecoverTx(now)) == RecoverAbandoned(s.db, now);
    hide TapeOk, OwnersOk, RecoverAbandoned, After, Contract, Lookup;
  }

  // The steps of the worker inside its critical section.
  lemma WorkKeepsRuns(s: System, step: Step)
    requires Inv(s) && s.up && Enabled(s, step)
    requires (step.Claiming? && step.ok) || step.Reject? || step.Emit? || step.Report? || step.Attempting?
    ensures RunsOk(Next(s, step))
  {
    hide Inv, Ready, RunsOk, Mark, Claim, Lookup, Verdict, Contract, FreshIds, AfterClaim, AfterAttempt;
    assert At(s, step.p) && HasPermit(s.workers[step.p]);
    InvReady(s, step.p);
    match step
    case Claiming(p, now, ok) => ClaimKeepsRuns(s, p, now);
    case Reject(p, code) => DecideKeepsRuns(s, p, NotPrinted(0, code, false));
    case Emit(p) => EmitKeepsRuns(s, p, Lookup(s.db.runs, s.workers[p].run).value);
    case Report(p, size, delivered, report, linkUp) =>
      VerdictIsSafe(size, delivered, report, linkUp);
      DecideKeepsRuns(s, p, Verdict(report, linkUp, size));
    case Attempting(p, now, io, ping) => AttemptKeepsRuns(s, p, now, io, ping);
  }

  lemma RunsKept(s: System, step: Step)
    requires Inv(s) && Enabled(s, step)
    ensures RunsOk(Next(s, step))
  {
    InvRuns(s);
    if !step.Restart? {
      QuietKeepsRunsUp(s, step);
    }
    if Quiet(step) {
      QuietKeepsRuns(s, step);
    } else if step.Request? {
      RequestKeepsRuns(s, step.tx);
    } else if step.Crash? {
      CrashKeepsRuns(s);
    } else if step.Restart? {
      assert !s.up by { hide Inv, RunsOk, Contract, Lookup; }
      RestartKeeps(s, step.now);
    } else {
      WorkKeepsRuns(s, step);
    }
  }

  lemma EmitForm(s: System, step: Step) returns (r: Run)
    requires step.Emit? && Enabled(s, step)
    ensures r in s.db.runs && Lookup(s.db.runs, s.workers[step.p].run) == Some(r)
    ensures var s' := Next(s, step);
            && s'.tape == s.tape + [Emission(r.sequence, r.key, r.mode)]
            && s'.granted == s.granted && s'.db == s.db && s'.up == s.up && s'.usedJobs == s.usedJobs
  {
    hide Contract, FreshIds;
    r := Lookup(s.db.runs, s.workers[step.p].run).value;
  }

  lemma InvCounts(s: System)
    requires Inv(s)
    ensures CountsOk(s.tape, s.granted) && GrantsOk(s.db, s.granted)
    ensures UsedOk(s.db, s.tape, s.granted, s.usedJobs, s.usedRuns)
  {
    hide Valid, OwnersOk, TapeOk, UsedOk, PermitOk, PauseOk, CountsOk, GrantsOk;
  }

  lemma EmitCounts(s: System, step: Step)
    requires Inv(s) && step.Emit? && Enabled(s, step)
    ensures CountsOk(Next(s, step).tape, Next(s, step).granted)
    ensures forall e | e in Next(s, step).tape :: e.key.job in s.usedJobs
  {
    hide Inv, Valid, Lookup, TapeOk, CountsOk, GrantsOk, OwnersOk, Next, Enabled;
    InvRuns(s);
    InvCounts(s);
    RunsKept(s, step);
    QuietKeepsRunsUp(s, step);
    var r := EmitForm(s, step);
    RowsSound(s.db, r);
    OneMoreCounted(s.db, Next(s, step).workers, s.tape, Emission(r.sequence, r.key, r.mode), s.granted);
  }

  lemma CountsKept(s: System, step: Step)
    requires Inv(s) && Enabled(s, step)
    ensures CountsOk(Next(s, step).tape, Next(s, step).granted)
    ensures forall e | e in Next(s, step).tape :: e.key.job in Next(s, step).usedJobs
  {
    StepIsTransaction(s, step);
    InvRuns(s);
    if step.Emit? {
      EmitCounts(s, step);
    } else {
      assert CountsOk(s.tape, s.granted);
      var t := TxOf(s, step);
      hide Inv, RunsOk, Next, Enabled, TxOf, CountsOk, Granted;
      MoreGrantsKeepCounts(s.tape, s.granted, if t.None? then [] else Granted(s.db, t.value));
    }
  }

  lemma InvKept(s: System, step: Step)
    requires Inv(s) && Enabled(s, step)
    ensures Inv(Next(s, step))
  {
    hide Next, Enabled, Valid, PermitOk, PauseOk, OwnersOk, TapeOk, CountsOk, GrantsOk;
    RunsKept(s, step);
    CountsKept(s, step);
    GrantsAndIdsKept(s, step);
    PermitKept(s, step);
    PauseKept(s, step);
  }

  lemma {:induction false} RunsKeepInv(s: System, steps: seq<Step>)
    requires Inv(s) && Executable(s, steps)
    ensures Inv(Execute(s, steps))
    decreases |steps|
  {
    if steps != [] {
      InvKept(s, steps[0]);
      hide Inv, Enabled, Next;
      RunsKeepInv(Next(s, steps[0]), steps[1..]);
    }
  }

  lemma InitiallyInv()
    ensures Inv(Initially)
  {
    EmptyIsValid();
    hide Valid;
    assert forall k :: Emitted([], k, false) == 0 && Emitted([], k, true) == 0;
  }

  // What is counted: the places on the tape, and among the reprints granted, that are the target's.
  function Places(tape: seq<Emission>, k: Key, unmarked: bool): set<int> {
    set i | 0 <= i < |tape| && tape[i].key == k && (tape[i].mode == Normal || !unmarked)
  }

  lemma PlacesAppend(front: seq<Emission>, e: Emission, k: Key, unmarked: bool)
    ensures Places(front + [e], k, unmarked)
         == Places(front, k, unmarked) + if e.key == k && (e.mode == Normal || !unmarked) then {|front|} else {}
    ensures |front| !in Places(front, k, unmarked)
  {
    assert (front + [e])[..|front|] == front && (front + [e])[|front|] == e;
  }

  lemma {:induction false} EmittedIsSize(tape: seq<Emission>, k: Key, unmarked: bool)
    ensures Emitted(tape, k, unmarked) == |Places(tape, k, unmarked)|
  {
    if tape != [] {
      hide Places;
      var n := |tape| - 1;
      EmittedIsSize(tape[..n], k, unmarked);
      PlacesAppend(tape[..n], tape[n], k, unmarked);
      assert tape == tape[..n] + [tape[n]];
    }
  }

  lemma {:induction false} CountIsSize(keys: seq<Key>, k: Key)
    ensures Count(keys, k) == |set i | 0 <= i < |keys| && keys[i] == k|
  {
    var places := set i | 0 <= i < |keys| && keys[i] == k;
    if keys != [] {
      var n := |keys| - 1;
      CountIsSize(keys[..n], k);
      var before := set i | 0 <= i < n && keys[..n][i] == k;
      assert places == before + if keys[n] == k then {n} else {};
    }
  }

  // ---- the theorems ----

  // Never silently duplicate a ticket.
  lemma AtMostOnce(steps: seq<Step>, k: Key)
    requires Executable(Initially, steps)
    ensures var s := Execute(Initially, steps);
            && |set i | 0 <= i < |s.tape| && s.tape[i].key == k && s.tape[i].mode == Normal| <= 1
            && |set i | 0 <= i < |s.tape| && s.tape[i].key == k| <= 1 + |set i | 0 <= i < |s.granted| && s.granted[i] == k|
  {
    Reachable(steps);
    var s := Execute(Initially, steps);
    EmittedIsSize(s.tape, k, true);
    EmittedIsSize(s.tape, k, false);
    CountIsSize(s.granted, k);
    assert Places(s.tape, k, true) == set i | 0 <= i < |s.tape| && s.tape[i].key == k && s.tape[i].mode == Normal;
    assert Places(s.tape, k, false) == set i | 0 <= i < |s.tape| && s.tape[i].key == k;
    hide Executable, Execute, Valid, PermitOk, PauseOk, OwnersOk, TapeOk, GrantsOk, UsedOk;
  }

  lemma Reachable(steps: seq<Step>)
    requires Executable(Initially, steps)
    ensures Inv(Execute(Initially, steps))
  {
    InitiallyInv();
    RunsKeepInv(Initially, steps);
  }

  lemma OneProcessingIn(s: System, a: Run, b: Run)
    requires Inv(s) && s.up
    requires a in s.db.runs && b in s.db.runs && a.status == Processing && b.status == Processing
    ensures a == b && s.holder == Some(a.key.printer) && s.permits == 0
    ensures var d := DutyOf(s.workers, a.key.printer); !d.Free? && d.run == a.uid
  {
    assert UniqueUids(s.db.runs);
    hide Valid, TapeOk, CountsOk, GrantsOk, UsedOk, PauseOk;
  }

  // While the agent is up at most one run in the whole database is being printed, its printer's
  // worker works on it, and that worker has the permit.
  lemma OneProcessingRun(steps: seq<Step>, a: Run, b: Run)
    requires Executable(Initially, steps)
    requires var s := Execute(Initially, steps);
             s.up && a in s.db.runs && b in s.db.runs && a.status == Processing && b.status == Processing
    ensures var s := Execute(Initially, steps);
            var d := DutyOf(s.workers, a.key.printer);
            a == b && s.holder == Some(a.key.printer) && s.permits == 0 && !d.Free? && d.run == a.uid
  {
    hide Inv, Executable, Execute;
    Reachable(steps);
    OneProcessingIn(Execute(Initially, steps), a, b);
  }

  lemma PauseStopsIn(s: System, step: Step)
    requires Inv(s) && s.gate.failures > 0 && Enabled(s, step)
    ensures s.gate.failures == 1 && s.holder.Some? && s.permits == 0
    ensures !step.Acquire? && !step.Emit? && !step.Report? && !step.Release?
    ensures step.Claiming? || step.Attempting? || step.EndPause? ==> s.holder == Some(step.p)
    ensures step.CheckGate? ==> Next(s, step).workers[step.p] == Blocked(s.gate.resume)
  {
    hide Valid, OwnersOk, TapeOk, CountsOk, GrantsOk, UsedOk, Contract, Lookup, FreshIds, AfterClaim, AfterAttempt;
  }

  // While the queue is paused, the paused worker has the permit and no worker, not even one that
  // passed the gate before the pause, claims for another printer or puts bytes on the wire.
  lemma PauseStopsQueue(steps: seq<Step>, step: Step)
    requires Executable(Initially, steps)
    requires var s := Execute(Initially, steps); s.gate.failures > 0 && Enabled(s, step)
    ensures var s := Execute(Initially, steps);
            && s.gate.failures == 1 && s.holder.Some? && s.permits == 0
            && !step.Acquire? && !step.Emit? && !step.Report? && !step.Release?
            && (step.Claiming? || step.Attempting? || step.EndPause? ==> s.holder == Some(step.p))
            && (step.CheckGate? ==> Next(s, step).workers[step.p] == Blocked(s.gate.resume))
  {
    hide Inv, Executable, Execute, Enabled, Next;
    Reachable(steps);
    PauseStopsIn(Execute(Initially, steps), step);
  }

  lemma NoWaiterStrandedIn(s: System, p: PrinterId)
    requires Inv(s) && p in s.workers && s.workers[p].Blocked?
    ensures Enabled(s, Wake(p))
         || (s.gate.failures == 1 && s.workers[p].channel == s.gate.resume && s.holder.Some?
             && s.holder.value in s.workers && Paused(s.workers[s.holder.value]))
    ensures forall q | Enabled(s, EndPause(q)) :: !EndPanics(s.gate) && Enabled(Next(s, EndPause(q)), Wake(p))
  {
    hide Valid, OwnersOk, TapeOk, CountsOk, GrantsOk, UsedOk, Contract, Lookup, FreshIds;
  }

  // No waiter misses the end of a pause: it can wake now, or the channel it waits for is the one
  // the paused worker will close, exactly once.
  lemma NoWaiterStranded(steps: seq<Step>, p: PrinterId)
    requires Executable(Initially, steps)
    requires var s := Execute(Initially, steps); p in s.workers && s.workers[p].Blocked?
    ensures var s := Execute(Initially, steps);
            && (Enabled(s, Wake(p))
                || (s.gate.failures == 1 && s.workers[p].channel == s.gate.resume && s.holder.Some?
                    && s.holder.value in s.workers && Paused(s.workers[s.holder.value])))
            && (forall q | Enabled(s, EndPause(q)) :: !EndPanics(s.gate) && Enabled(Next(s, EndPause(q)), Wake(p)))
  {
    hide Inv, Executable, Execute, Enabled, Next;
    Reachable(steps);
    NoWaiterStrandedIn(Execute(Initially, steps), p);
  }

  lemma NeverStuckIn(s: System, p: PrinterId, now: Stamp)
    requires Inv(s) && p in s.workers && DutyOf(s.workers, p).Deciding?
    ensures var d := DutyOf(s.workers, p);
            Mark(s.db, d.run, d.outcome, now).Err? <==> d.stored && Lookup(s.db.runs, d.run).None?
  {
    hide Valid, TapeOk, CountsOk, GrantsOk, UsedOk, PermitOk, PauseOk;
    assert DutyOk(s.db, s.usedRuns, p, DutyOf(s.workers, p));
  }

  // Recording an outcome can always succeed: the run is still there for its worker to mark. It is
  // refused exactly when an earlier attempt stored the outcome, its acknowledgement lost, and
  // retention has removed the job since.
  lemma PersistNeverStuck(steps: seq<Step>, p: PrinterId, now: Stamp)
    requires Executable(Initially, steps)
    requires var s := Execute(Initially, steps); p in s.workers && DutyOf(s.workers, p).Deciding?
    ensures var s := Execute(Initially, steps);
            var d := DutyOf(s.workers, p);
            Mark(s.db, d.run, d.outcome, now).Err? <==> d.stored && Lookup(s.db.runs, d.run).None?
  {
    hide Inv, Executable, Execute, Mark, Lookup, DutyOf;
    Reachable(steps);
    NeverStuckIn(Execute(Initially, steps), p, now);
  }

  lemma MarkTouches(db: Db, run: Uid, o: Outcome, now: Stamp) returns (r: Run)
    requires Valid(db) && Mark(db, run, o, now).Ok?
    ensures r in db.runs && r.uid == run && r.key.job in After(db, MarkTx(run, o, now)).jobs
    ensures Commit(db, MarkTx(run, o, now)).Ok? && Stability.TouchedBy(db, MarkTx(run, o, now)) == Some(r.key.job)
  {
    hide Valid, Lookup, Mark, Commit, After, RowSound;
    MarkKeepsJobs(db, run, o, now);
    r := Lookup(db.runs, run).value;
    RowsSound(db, r);
  }

  lemma MarkKeepsJobs(db: Db, run: Uid, o: Outcome, now: Stamp)
    requires Mark(db, run, o, now).Ok?
    ensures Lookup(db.runs, run).Some?
    ensures var tx, r := MarkTx(run, o, now), Lookup(db.runs, run).value;
            && Commit(db, tx).Ok? && Stability.TouchedBy(db, tx) == Some(r.key.job)
            && After(db, tx).jobs.Keys == db.jobs.Keys
  {
    hide Lookup, MarkedRows;
  }

  // The attempt that stores the outcome leaves its run on file, and so does everything that follows
  // with retentions within 48 hours.
  lemma StoredRunStays(db: Db, run: Uid, o: Outcome, now: Stamp, txs: seq<Tx>)
    requires Valid(db) && Mark(db, run, o, now).Ok?
    requires forall t | t in txs :: now <= t.now && (t.PurgeTx? ==> t.now <= now + RetentionWindow)
    ensures Lookup(Replay(After(db, MarkTx(run, o, now)), txs).runs, run).Some?
  {
    hide Valid, After, Commit, Stability.TouchedBy, Mark, Replay;
    var tx := MarkTx(run, o, now);
    var r := MarkTouches(db, run, o, now);
    Stability.ActivityDelaysRetention(db, tx, txs);
    var first := Stability.RowStays(db, tx, r);
    var last := Stability.RowStaysThroughout(After(db, tx), txs, first);
  }

  lemma AttemptIsMark(s: System, p: PrinterId, now: Stamp, io: Io, ping: bool)
    requires Enabled(s, Attempting(p, now, io, ping)) && io != Fails
    ensures p in s.workers && (s.workers[p].Persisting? || s.workers[p].PersistPaused?)
    ensures Next(s, Attempting(p, now, io, ping)).db == After(s.db, MarkTx(s.workers[p].run, s.workers[p].outcome, now))
  {
    StepIsTransaction(s, Attempting(p, now, io, ping));
    hide Next, After;
  }

  lemma RepeatedMarkSucceeds(s: System, p: PrinterId, now: Stamp, io: Io, ping: bool, more: seq<Step>, later: Stamp)
    requires Inv(s) && Enabled(s, Attempting(p, now, io, ping)) && io != Fails
    requires var s' := Next(s, Attempting(p, now, io, ping));
             && Mark(s.db, s.workers[p].run, s.workers[p].outcome, now).Ok?
             && Executable(s', more)
             && (forall t | t in TransactionsOf(s', more) :: now <= t.now && (t.PurgeTx? ==> t.now <= now + RetentionWindow))
             && var d := DutyOf(Execute(s', more).workers, p); d.Deciding? && d.run == s.workers[p].run
    ensures var e := Execute(Next(s, Attempting(p, now, io, ping)), more);
            var d := DutyOf(e.workers, p);
            Mark(e.db, d.run, d.outcome, later).Ok?
  {
    hide Inv, Enabled, Next, Executable, Execute, Mark, Lookup, DutyOf, After, TransactionsOf;
    AttemptIsMark(s, p, now, io, ping);
    var step := Attempting(p, now, io, ping);
    var s' := Next(s, step);
    InvKept(s, step);
    RunsKeepInv(s', more);
    RunIsReplay(s', more);
    InvValid(s);
    StoredRunStays(s.db, s.workers[p].run, s.workers[p].outcome, now, TransactionsOf(s', more));
    InDuty(Execute(s', more), p);
    NeverStuckIn(Execute(s', more), p, later);
  }

  lemma InvValid(s: System)
    requires Inv(s)
    ensures Valid(s.db)
  {
    hide Valid, PermitOk, PauseOk, OwnersOk, TapeOk, CountsOk, GrantsOk, UsedOk;
  }

  lemma InDuty(s: System, p: PrinterId)
    requires DutyOf(s.workers, p).Deciding?
    ensures p in s.workers
  {
  }

  // So when an attempt stores an outcome and is not acknowledged, its repetition succeeds in every
  // execution that follows, as long as the retentions in it come within 48 hours of that attempt.
  lemma StoredOutcomeStaysMarkable(steps: seq<Step>, p: PrinterId, now: Stamp, io: Io, ping: bool, more: seq<Step>, later: Stamp)
    requires Executable(Initially, steps) && Enabled(Execute(Initially, steps), Attempting(p, now, io, ping)) && io != Fails
    requires var s := Execute(Initially, steps);
             var s' := Next(s, Attempting(p, now, io, ping));
             && Mark(s.db, s.workers[p].run, s.workers[p].outcome, now).Ok?
             && Executable(s', more)
             && (forall t | t in TransactionsOf(s', more) :: now <= t.now && (t.PurgeTx? ==> t.now <= now + RetentionWindow))
             && var d := DutyOf(Execute(s', more).workers, p); d.Deciding? && d.run == s.workers[p].run
    ensures var s := Execute(Initially, steps);
            var e := Execute(Next(s, Attempting(p, now, io, ping)), more);
            var d := DutyOf(e.workers, p);
            Mark(e.db, d.run, d.outcome, later).Ok?
  {
    hide Inv, Enabled, Next, Executable, Execute, Mark, DutyOf, TransactionsOf;
    Reachable(steps);
    RepeatedMarkSucceeds(Execute(Initially, steps), p, now, io, ping, more, later);
  }
}
