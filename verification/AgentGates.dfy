// The permit and the pause over every step of the agent.
module AgentGates {
  import opened Domain
  import opened Tables
  import opened Transactions
  import opened Invariant
  import opened Preservation
  import opened Repository
  import opened Requests
  import opened Transport
  import opened Gates
  import opened Agent

  lemma AttemptHolds(s: System, step: Step)
    requires step.Attempting? && Enabled(s, step)
    ensures var s' := Next(s, step);
            && s'.workers == s.workers[step.p := s'.workers[step.p]] && step.p in s'.workers
            && (s'.workers[step.p].Releasing? || s'.workers[step.p].PausePersist?
                || s'.workers[step.p].Resuming? || s'.workers[step.p].PersistPaused?)
            && (s.workers[step.p].Persisting? ==> s'.workers[step.p].Releasing? || s'.workers[step.p].PausePersist?)
            && (s.workers[step.p].PersistPaused? ==> s'.workers[step.p].Resuming? || s'.workers[step.p].PersistPaused?)
            && s'.permits == s.permits && s'.holder == s.holder && s'.gate == s.gate && s'.up == s.up
  {
    hide Mark, Stored;
  }

  lemma ClaimHolds(s: System, step: Step)
    requires step.Claiming? && Enabled(s, step)
    ensures var s' := Next(s, step);
            && s'.workers == s.workers[step.p := s'.workers[step.p]] && step.p in s'.workers
            && HasPermit(s'.workers[step.p]) && Paused(s'.workers[step.p]) == Paused(s.workers[step.p])
            && s'.permits == s.permits && s'.holder == s.holder && s'.gate == s.gate && s'.up == s.up
  {
    hide Claim;
  }

  lemma PermitKept(s: System, step: Step)
    requires PermitOk(s.workers, s.permits, s.holder) && Enabled(s, step)
    ensures var s' := Next(s, step); PermitOk(s'.workers, s'.permits, s'.holder)
  {
    if step.Claiming? {
      ClaimHolds(s, step);
      hide Next, Enabled;
    } else if step.Attempting? {
      AttemptHolds(s, step);
      hide Next, Enabled;
    } else if step.Acquire? || step.Release? || step.Crash? {
      PermitMoves(s, step);
    } else {
      PermitStays(s, step);
    }
  }

  lemma PermitMoves(s: System, step: Step)
    requires PermitOk(s.workers, s.permits, s.holder) && Enabled(s, step)
    requires step.Acquire? || step.Release? || step.Crash?
    ensures var s' := Next(s, step); PermitOk(s'.workers, s'.permits, s'.holder)
  {
    hide Contract, Lookup, Verdict, FreshIds, After, Begun, Ended, AfterClaim, AfterAttempt, Granted;
  }

  lemma PermitStays(s: System, step: Step)
    requires PermitOk(s.workers, s.permits, s.holder) && Enabled(s, step)
    requires !step.Claiming? && !step.Attempting? && !step.Acquire? && !step.Release? && !step.Crash?
    ensures var s' := Next(s, step); PermitOk(s'.workers, s'.permits, s'.holder)
  {
    hide Contract, Lookup, Verdict, FreshIds, After, Begun, Ended, AfterClaim, AfterAttempt, Granted;
  }

  lemma PauseKept(s: System, step: Step)
    requires PermitOk(s.workers, s.permits, s.holder) && PauseOk(s.workers, s.holder, s.gate) && Enabled(s, step)
    ensures var s' := Next(s, step); PauseOk(s'.workers, s'.holder, s'.gate)
  {
    if step.Claiming? {
      ClaimHolds(s, step);
      hide Next, Enabled;
    } else if step.Attempting? {
      AttemptHolds(s, step);
      hide Next, Enabled;
    } else if step.BeginPause? || step.EndPause? || step.Crash? {
      PauseChanges(s, step);
    } else {
      PauseStays(s, step);
    }
  }

  lemma PauseChanges(s: System, step: Step)
    requires PermitOk(s.workers, s.permits, s.holder) && PauseOk(s.workers, s.holder, s.gate) && Enabled(s, step)
    requires step.BeginPause? || step.EndPause? || step.Crash?
    ensures var s' := Next(s, step); PauseOk(s'.workers, s'.holder, s'.gate)
  {
    hide Contract, Lookup, Verdict, FreshIds, After, AfterClaim, AfterAttempt, Granted;
  }

  lemma PauseStays(s: System, step: Step)
    requires PermitOk(s.workers, s.permits, s.holder) && PauseOk(s.workers, s.holder, s.gate) && Enabled(s, step)
    requires !step.Claiming? && !step.Attempting? && !step.BeginPause? && !step.EndPause? && !step.Crash?
    ensures var s' := Next(s, step); PauseOk(s'.workers, s'.holder, s'.gate)
  {
    hide Contract, Lookup, Verdict, FreshIds, After, AfterClaim, AfterAttempt, Granted, GateOk;
  }
}
