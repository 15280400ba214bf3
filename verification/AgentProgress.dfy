// A worker that holds the permit can always finish: once the database answers again, a few steps of
// its own record what it owes, end its pause and give the permit back.
module AgentProgress {
  import opened Domain
  import opened Tables
  import opened Transactions
  import opened Invariant
  import opened Preservation
  import opened AcceptPurge
  import opened Repository
  import opened Transport
  import opened Gates
  import opened Agent
  import opened AtMostOnce

  // What the worker does next when nothing stands in its way.
  function OwnStep(pc: Pc, p: PrinterId, now: Stamp): Step
    requires HasPermit(pc)
  {
    match pc
    case Holding => Claiming(p, now, true)
    case ClaimPaused => Claiming(p, now, true)
    case PauseClaim => BeginPause(p, "", now)
    case PausePersist(_, _, _) => BeginPause(p, "", now)
    case Printing(_) => Emit(p)
    case Sending(_) => Report(p, 1, 1, None, true)
    case Persisting(_, _) => Attempting(p, now, Commits, true)
    case PersistPaused(_, _, _) => Attempting(p, now, Commits, true)
    case Resuming(_) => EndPause(p)
    case Releasing => Release(p)
  }

  // How many such steps are left at most.
  function StepsLeft(pc: Pc): nat {
    match pc
    case PauseClaim => 8
    case ClaimPaused => 7
    case Holding => 6
    case Resuming(claimed) => if claimed.Some? then 6 else 2
    case Printing(_) => 5
    case Sending(_) => 4
    case Persisting(_, _) => 3
    case PausePersist(_, _, _) => 4
    case PersistPaused(_, _, _) => 3
    case Releasing => 1
    case _ => 0
  }

  ghost predicate HasStatus(db: Db, run: Uid, status: Status) {
    Lookup(db.runs, run).Some? && Lookup(db.runs, run).value.status == status
  }

  // The outcome was stored, its acknowledgement lost, and retention has taken the job.
  ghost predicate Bereft(s: System, p: PrinterId) {
    var d := DutyOf(s.workers, p);
    d.Deciding? && d.stored && Lookup(s.db.runs, d.run).None?
  }

  // The worker's duty when the worker gets to its end: a run it works on is printed, an outcome it
  // has to record is recorded.
  ghost predicate Served(d: Duty, db: Db) {
    match d
    case Free => true
    case Working(run, _) => HasStatus(db, run, Transmitted)
    case Deciding(run, o, _) => HasStatus(db, run, StatusOf(o))
  }

  lemma AttemptRecords(s: System, p: PrinterId, now: Stamp)
    requires p in s.workers && (s.workers[p].Persisting? || s.workers[p].PersistPaused?)
    requires Inv(s) && !Bereft(s, p)
    ensures var pc, s' := s.workers[p], AfterAttempt(s, p, now, Commits, true);
            && p in s'.workers && s'.workers[p] == (if pc.Persisting? then Releasing else Resuming(None))
            && HasStatus(s'.db, pc.run, StatusOf(pc.outcome))
  {
    hide Inv, Mark;
    NeverStuckIn(s, p, now);
    MarkGivesStatus(s.db, s.workers[p].run, s.workers[p].outcome, now);
  }

  lemma MarkGivesStatus(db: Db, run: Uid, o: Outcome, now: Stamp)
    requires Mark(db, run, o, now).Ok?
    ensures HasStatus(Mark(db, run, o, now).value, run, StatusOf(o))
  {
    LookupKeptMarked(db.runs, run, o, now);
    hide MarkedRows, Lookup;
  }

  lemma WorksOnRow(s: System, p: PrinterId)
    requires Inv(s) && p in s.workers && s.workers[p].Printing?
    ensures Lookup(s.db.runs, s.workers[p].run).Some?
  {
    assert DutyOk(s.db, s.usedRuns, p, DutyOf(s.workers, p));
    hide Valid, PermitOk, PauseOk, TapeOk, CountsOk, GrantsOk, UsedOk, Lookup;
  }

  // What one of the worker's own steps does for it.
  ghost predicate Advanced(s: System, s': System, p: PrinterId)
    requires p in s.workers
  {
    var pc, d, d' := s.workers[p], DutyOf(s.workers, p), DutyOf(s'.workers, p);
    && p in s'.workers && StepsLeft(s'.workers[p]) < StepsLeft(pc)
    && (s'.workers[p] == Idle <==> pc == Releasing)
    && (!pc.Releasing? ==> HasPermit(s'.workers[p]) && !Bereft(s', p))
    && (pc.Releasing? || pc.Resuming? || d.Working? ==> s'.db == s.db)
    && (d.Working? ==> (d'.Working? && d'.run == d.run) || (d'.Deciding? && d'.run == d.run && d'.outcome.Sent?))
    && (d.Deciding? ==>
          if pc.PausePersist? then d' == d && s'.db == s.db
          else HasStatus(s'.db, d.run, StatusOf(d.outcome)) && (s'.workers[p] == Releasing || s'.workers[p] == Resuming(None)))
  }

  lemma ClaimAdvances(s: System, p: PrinterId, now: Stamp)
    requires p in s.workers && (s.workers[p].Holding? || s.workers[p].ClaimPaused?)
    ensures Advanced(s, AfterClaim(s, p, now, true), p)
  {
    hide Claim, Lookup, HasStatus;
  }

  lemma AttemptAdvances(s: System, p: PrinterId, now: Stamp)
    requires p in s.workers && (s.workers[p].Persisting? || s.workers[p].PersistPaused?)
    requires Inv(s) && !Bereft(s, p)
    ensures Advanced(s, AfterAttempt(s, p, now, Commits, true), p)
  {
    hide Inv, AfterAttempt, HasStatus;
    AttemptRecords(s, p, now);
  }

  // The worker's own step is possible and brings it nearer to the end.
  lemma OwnStepAdvances(s: System, p: PrinterId, now: Stamp)
    requires p in s.workers && HasPermit(s.workers[p]) && Inv(s) && !Bereft(s, p)
    ensures Enabled(s, OwnStep(s.workers[p], p, now)) && Advanced(s, Next(s, OwnStep(s.workers[p], p, now)), p)
  {
    hide Inv, Lookup, Begun, Ended, AfterClaim, AfterAttempt, FreshIds, HasStatus, After, Contract, Verdict, Bereft;
    var pc := s.workers[p];
    if pc.Persisting? || pc.PersistPaused? {
      AttemptAdvances(s, p, now);
      hide Advanced;
    } else if pc.Holding? || pc.ClaimPaused? {
      ClaimAdvances(s, p, now);
      hide Advanced;
    } else if pc.Printing? || pc.Sending? {
      PrintAdvances(s, p, now);
      hide Advanced;
    } else {
      GateAdvances(s, p, now);
      hide Advanced;
    }
  }

  lemma PrintAdvances(s: System, p: PrinterId, now: Stamp)
    requires p in s.workers && (s.workers[p].Printing? || s.workers[p].Sending?) && Inv(s)
    ensures Enabled(s, OwnStep(s.workers[p], p, now)) && Advanced(s, Next(s, OwnStep(s.workers[p], p, now)), p)
  {
    hide Inv, Lookup, Begun, Ended, AfterClaim, AfterAttempt, FreshIds, HasStatus, After;
    if s.workers[p].Printing? {
      WorksOnRow(s, p);
    }
  }

  lemma GateAdvances(s: System, p: PrinterId, now: Stamp)
    requires p in s.workers && !Bereft(s, p)
    requires s.workers[p].PauseClaim? || s.workers[p].PausePersist? || s.workers[p].Resuming? || s.workers[p].Releasing?
    ensures Enabled(s, OwnStep(s.workers[p], p, now)) && Advanced(s, Next(s, OwnStep(s.workers[p], p, now)), p)
  {
    hide Lookup, Begun, Ended, AfterClaim, AfterAttempt, FreshIds, HasStatus, After, Contract, Verdict;
  }

  lemma AtRest(s: System, p: PrinterId)
    requires Inv(s) && p in s.workers && s.workers[p].Releasing?
    ensures var s' := Next(s, Release(p)); s'.permits == 1 && s'.holder.None? && s'.gate.failures == 0
  {
    hide Valid, OwnersOk, TapeOk, CountsOk, GrantsOk, UsedOk;
  }

  // From any reachable state a worker with the permit finishes within eight steps of its own: the
  // permit is free again and the queue is not paused, the run it had claimed is recorded as
  // transmitted, or the outcome it had to store is stored. The one exception is a worker whose
  // outcome was stored before and whose run retention has taken.
  lemma {:induction false} WorkerFinishes(s: System, p: PrinterId, now: Stamp) returns (steps: seq<Step>)
    requires Inv(s) && p in s.workers && HasPermit(s.workers[p]) && !Bereft(s, p)
    ensures |steps| <= 8 && Executable(s, steps)
    ensures var e := Execute(s, steps);
            && Inv(e) && p in e.workers && e.workers[p] == Idle && e.permits == 1 && e.gate.failures == 0
            && Served(DutyOf(s.workers, p), e.db)
            && (s.workers[p].Releasing? || s.workers[p] == Resuming(None) ==> e.db == s.db)
    ensures |steps| <= StepsLeft(s.workers[p])
    decreases StepsLeft(s.workers[p])
  {
    hide Inv, Enabled, Next, OwnStep, Bereft, HasStatus, HasPermit;
    var step := OwnStep(s.workers[p], p, now);
    OwnStepAdvances(s, p, now);
    InvKept(s, step);
    var s' := Next(s, step);
    if s.workers[p].Releasing? {
      ReleasingReleases(s.workers[p], p, now);
      AtRest(s, p);
      steps := [step];
      assert steps[1..] == [];
    } else {
      var rest := WorkerFinishes(s', p, now);
      steps := [step] + rest;
      assert steps[1..] == rest;
    }
  }

  lemma ReleasingReleases(pc: Pc, p: PrinterId, now: Stamp)
    requires pc.Releasing?
    ensures HasPermit(pc) && OwnStep(pc, p, now) == Release(p)
  {
  }

  // So whatever has happened since the first start, a worker that holds the permit can give it back.
  lemma PermitComesBack(steps: seq<Step>, p: PrinterId, now: Stamp) returns (more: seq<Step>)
    requires Executable(Initially, steps)
    requires var s := Execute(Initially, steps); p in s.workers && HasPermit(s.workers[p]) && !Bereft(s, p)
    ensures |more| <= 8 && Executable(Execute(Initially, steps), more)
    ensures var s := Execute(Initially, steps);
            var e := Execute(s, more);
            p in e.workers && e.workers[p] == Idle && e.permits == 1 && e.gate.failures == 0 && Served(DutyOf(s.workers, p), e.db)
  {
    hide Inv, Executable, Execute, Bereft, Served, HasPermit;
    Reachable(steps);
    more := WorkerFinishes(Execute(Initially, steps), p, now);
  }

  // What a worker decides to record. A run refused before the write is never retried; otherwise the
  // writer's report and the link decide, and nothing else in the system moves.
  lemma DecisionExactly(s: System, step: Step)
    requires Enabled(s, step) && (step.Reject? || step.Report?)
    ensures var e := Next(s, step);
            && step.p in e.workers && e.workers[step.p].Persisting?
            && var o := e.workers[step.p].outcome;
               && e == s.(workers := s.workers[step.p := Persisting(s.workers[step.p].run, o)])
               && (step.Reject? ==> o == NotPrinted(0, step.code, false))
               && (step.Report? ==>
                     && (o == Sent(step.size) <==> step.report.None? && step.linkUp)
                     && (o == NotPrinted(0, "not_sent", true) <==>
                           step.report.Some? && step.report.value.bytesWritten == 0 && step.report.value.outcome == NotSent
                           && step.report.value.cause != WriteTimeout)
                     && (!o.Sent? && !o.NotPrinted? ==>
                           o == Unknown(if step.report.Some? then step.report.value.bytesWritten else step.size,
                                        if step.report.Some? then "ambiguous_write" else "link_unknown_after_write"))
                     && (o.NotPrinted? ==> o.retryable))
  {
    if step.Report? {
      VerdictExactly(step.report, step.linkUp, step.size);
      hide Verdict;
    }
  }

  // An acknowledged attempt of the worker after which the database answered; or a crash.
  predicate Ends(step: Step, p: PrinterId) {
    step.Crash? || (step.Attempting? && step.p == p && step.io == Commits && step.ping)
  }

  lemma StaysPaused(s: System, step: Step, p: PrinterId)
    requires Enabled(s, step) && p in s.workers && s.workers[p].PersistPaused?
    ensures !Ends(step, p) ==>
              var pc := Next(s, step).workers;
              p in pc && pc[p].PersistPaused? && pc[p].run == s.workers[p].run && pc[p].outcome == s.workers[p].outcome
    ensures step.Attempting? && step.p == p && Next(s, step).workers[p] == Resuming(None) ==>
              Ends(step, p) && HasStatus(Next(s, step).db, s.workers[p].run, StatusOf(s.workers[p].outcome))
  {
    hide Claim, Lookup, Begun, Ended, After, Contract, Verdict, Mark, HasStatus;
    if step.Attempting? && step.p == p && Mark(s.db, s.workers[p].run, s.workers[p].outcome, step.now).Ok? {
      MarkGivesStatus(s.db, s.workers[p].run, s.workers[p].outcome, step.now);
    }
  }

  lemma {:induction false} PauseGoesOn(s: System, more: seq<Step>, p: PrinterId)
    requires Executable(s, more) && p in s.workers && s.workers[p].PersistPaused? && forall x | x in more :: !Ends(x, p)
    ensures var w := Execute(s, more).workers;
            p in w && w[p].PersistPaused? && w[p].run == s.workers[p].run && w[p].outcome == s.workers[p].outcome
    decreases |more|
  {
    hide Enabled, Next, Ends;
    if more != [] {
      assert more[0] in more;
      StaysPaused(s, more[0], p);
      PauseGoesOn(Next(s, more[0]), more[1..], p);
    }
  }

  lemma PausedGate(s: System, p: PrinterId)
    requires Inv(s) && p in s.workers && s.workers[p].PersistPaused?
    ensures s.gate.failures == 1 && s.holder == Some(p) && s.permits == 0
  {
    hide Valid, OwnersOk, TapeOk, CountsOk, GrantsOk, UsedOk;
    assert HasPermit(s.workers[p]) && Paused(s.workers[p]);
  }

  // Once a worker has paused the queue for an outcome it could not store, the queue stays paused
  // through whatever the rest of the system does, until an attempt of this worker is acknowledged and
  // the database answers after it, or the agent crashes.
  lemma PauseLasts(steps: seq<Step>, more: seq<Step>, p: PrinterId)
    requires Executable(Initially, steps) && Executable(Execute(Initially, steps), more)
    requires var s := Execute(Initially, steps); p in s.workers && s.workers[p].PersistPaused?
    requires forall x | x in more :: !Ends(x, p)
    ensures var s := Execute(Initially, steps);
            var e := Execute(s, more);
            && e.gate.failures == 1 && e.holder == Some(p) && e.permits == 0
            && p in e.workers && e.workers[p].PersistPaused?
            && e.workers[p].run == s.workers[p].run && e.workers[p].outcome == s.workers[p].outcome
  {
    hide Inv, Executable, Execute, Ends;
    Reachable(steps);
    var s := Execute(Initially, steps);
    RunsKeepInv(s, more);
    PauseGoesOn(s, more, p);
    PausedGate(Execute(s, more), p);
  }
}
