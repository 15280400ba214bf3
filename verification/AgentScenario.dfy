// A concrete execution of the agent in which a worker ends up with an outcome it can no longer
// store: the first attempt was stored but not acknowledged, and retention took the job during the
// pause that followed.
module AgentScenario {
  import opened Domain
  import opened Tables
  import opened Transactions
  import opened Invariant
  import opened Preservation
  import opened AcceptPurge
  import opened Repository
  import opened Requests
  import opened Gates
  import opened Agent
  import opened Scenario

  ghost predicate Reaches(steps: seq<Agent.Step>, s: System) {
    Executable(Initially, steps) && Execute(Initially, steps) == s
  }

  lemma {:induction false} OneMore(s: System, steps: seq<Agent.Step>, step: Agent.Step)
    requires Executable(s, steps) && Enabled(Execute(s, steps), step)
    ensures Executable(s, steps + [step]) && Execute(s, steps + [step]) == Next(Execute(s, steps), step)
    decreases |steps|
  {
    hide Enabled, Next;
    if steps == [] {
      assert [] + [step] == [step] && [step][1..] == [];
    } else {
      assert (steps + [step])[0] == steps[0] && (steps + [step])[1..] == steps[1..] + [step];
      OneMore(Next(s, steps[0]), steps[1..], step);
    }
  }

  lemma Then(steps: seq<Agent.Step>, s: System, step: Agent.Step, s': System)
    requires Reaches(steps, s) && Enabled(s, step) && Next(s, step) == s'
    ensures Reaches(steps + [step], s')
  {
    hide Enabled, Next, Executable, Execute;
    OneMore(Initially, steps, step);
  }

  // ---- the ticket is accepted and claimed ----

  const Started := Initially.(up := true)
  const Accepted := Started.(db := AfterSubmit, usedJobs := {1}, usedRuns := {10})

  lemma Starts()
    ensures Enabled(Initially, Restart(0)) && Next(Initially, Restart(0)) == Started
  {
    assert AbandonedRows([], 0) == [];
  }

  lemma Accepts()
    ensures Enabled(Started, Request(Submitted)) && Next(Started, Request(Submitted)) == Accepted
  {
    Submits();
    var slots := [Slot(1, 5, 10)];
    assert NewIds(Submitted) == {10} by {
      assert slots[0].run == 10;
    }
    assert {} + {1} == {1} && {} + {10} == {10};
  }

  const Ready := Accepted.(workers := map[1 := Idle])
  const Passed := Accepted.(workers := map[1 := Admitted])
  const Permitted := Accepted.(workers := map[1 := Holding], permits := 0, holder := Some(1))
  const Underway := Permitted.(db := Scenario.AfterClaim, workers := map[1 := Printing(10)])

  lemma Admits()
    ensures Enabled(Accepted, StartWorker(1)) && Next(Accepted, StartWorker(1)) == Ready
    ensures Enabled(Ready, CheckGate(1)) && Next(Ready, CheckGate(1)) == Passed
    ensures Enabled(Passed, Acquire(1)) && Next(Passed, Acquire(1)) == Permitted
  {
    assert map[1 := Idle][1 := Admitted] == map[1 := Admitted];
    assert map[1 := Admitted][1 := Holding] == map[1 := Holding];
  }

  lemma ClaimsIt()
    ensures Enabled(Permitted, Claiming(1, 1, true)) && Next(Permitted, Claiming(1, 1, true)) == Underway
  {
    assert NextQueued([First], 1) == Some(First);
    assert ClaimedRows([First], 1, 1) == [FirstClaimed];
    assert map[1 := Holding][1 := Printing(10)] == map[1 := Printing(10)];
  }

  // ---- it prints, and the outcome is stored but not acknowledged ----

  const OnWire := Underway.(workers := map[1 := Sending(10)], tape := [Emission(1, Place, Normal)])
  const Reported := OnWire.(workers := map[1 := Persisting(10, Sent(3))])

  lemma PrintsIt()
    ensures Enabled(Underway, Emit(1)) && Next(Underway, Emit(1)) == OnWire
    ensures Enabled(OnWire, Report(1, 3, 3, None, true)) && Next(OnWire, Report(1, 3, 3, None, true)) == Reported
  {
    assert Lookup([FirstClaimed], 10) == Some(FirstClaimed);
    assert [] + [Emission(1, Place, Normal)] == [Emission(1, Place, Normal)];
    assert map[1 := Printing(10)][1 := Sending(10)] == map[1 := Sending(10)];
    assert map[1 := Sending(10)][1 := Persisting(10, Sent(3))] == map[1 := Persisting(10, Sent(3))];
  }

  const FirstSent := WithOutcome(FirstClaimed, Sent(3), 2)
  const AfterSent := Scenario.AfterClaim.(runs := [FirstSent], jobs := Kept)
  const Unacknowledged := Reported.(db := AfterSent, workers := map[1 := PausePersist(10, Sent(3), true)])

  lemma Stores()
    ensures Mark(Scenario.AfterClaim, 10, Sent(3), 2) == Ok(AfterSent)
  {
    assert Lookup([FirstClaimed], 10) == Some(FirstClaimed);
    assert MarkedRows([FirstClaimed], 10, Sent(3), 2) == [FirstSent];
    assert Scenario.AfterClaim.jobs[1 := Ticket.(expiresAt := 2 + RetentionWindow)] == Kept;
  }

  lemma LosesAcknowledgement()
    ensures Enabled(Reported, Attempting(1, 2, LosesAck, false)) && Next(Reported, Attempting(1, 2, LosesAck, false)) == Unacknowledged
  {
    hide Mark;
    Stores();
    assert map[1 := Persisting(10, Sent(3))][1 := PausePersist(10, Sent(3), true)] == map[1 := PausePersist(10, Sent(3), true)];
  }

  const Pausing := Unacknowledged.(workers := map[1 := PersistPaused(10, Sent(3), true)], gate := Begun(NewGate, "locked", 2))

  lemma Pauses()
    ensures Enabled(Unacknowledged, BeginPause(1, "locked", 2)) && Next(Unacknowledged, BeginPause(1, "locked", 2)) == Pausing
  {
    assert map[1 := PausePersist(10, Sent(3), true)][1 := PersistPaused(10, Sent(3), true)] == map[1 := PersistPaused(10, Sent(3), true)];
  }

  // ---- retention ----

  const TooLate: Stamp := 3 + RetentionWindow
  const Emptied := Db(map[], map[], [], 1, map[])
  const Bereft := Pausing.(db := Emptied)

  lemma Vanishes()
    ensures Purge(AfterSent, TooLate) == Emptied
  {
    assert !Holds(AfterSent, FirstSent);
    assert PurgeableJobs(AfterSent, TooLate) == {1};
    assert Kept - {1} == map[];
    assert [FirstSent][..0] == [];
    assert WithoutJobs([FirstSent], {1}) == [];
  }

  lemma Retires()
    ensures Enabled(Pausing, Request(PurgeTx(TooLate))) && Next(Pausing, Request(PurgeTx(TooLate))) == Bereft
  {
    hide Purge;
    Vanishes();
    assert {10} + {} == {10};
  }

  // ---- the whole execution ----

  const Startup := [Restart(0)] + [Request(Submitted)] + [StartWorker(1)] + [CheckGate(1)]
  const Printed := Startup + [Acquire(1)] + [Claiming(1, 1, true)] + [Emit(1)] + [Report(1, 3, 3, None, true)]

  lemma StartsUp()
    ensures Reaches(Startup, Passed)
  {
    hide Enabled, Next, Reaches;
    Starts();
    Accepts();
    Admits();
    FromTheStart();
    assert [] + [Restart(0)] == [Restart(0)];
    Then([], Initially, Restart(0), Started);
    Then([Restart(0)], Started, Request(Submitted), Accepted);
    Then([Restart(0)] + [Request(Submitted)], Accepted, StartWorker(1), Ready);
    Then([Restart(0)] + [Request(Submitted)] + [StartWorker(1)], Ready, CheckGate(1), Passed);
  }

  lemma FromTheStart()
    ensures Reaches([], Initially)
  {
  }

  lemma TicketPrints()
    ensures Reaches(Printed, Reported)
  {
    hide Enabled, Next, Reaches;
    StartsUp();
    Admits();
    ClaimsIt();
    PrintsIt();
    Then(Startup, Passed, Acquire(1), Permitted);
    Then(Startup + [Acquire(1)], Permitted, Claiming(1, 1, true), Underway);
    Then(Startup + [Acquire(1)] + [Claiming(1, 1, true)], Underway, Emit(1), OnWire);
    Then(Startup + [Acquire(1)] + [Claiming(1, 1, true)] + [Emit(1)], OnWire, Report(1, 3, 3, None, true), Reported);
  }

  // The exceptional case of AtMostOnce.PersistNeverStuck is reached: the worker still has to record
  // that the ticket was sent, the attempt that stored this was not acknowledged, and the run is gone,
  // so that no later attempt succeeds.
  lemma StoredOutcomeCanVanish(later: Stamp)
    ensures Reaches(Printed + [Attempting(1, 2, LosesAck, false)] + [BeginPause(1, "locked", 2)] + [Request(PurgeTx(TooLate))], Bereft)
    ensures var d := DutyOf(Bereft.workers, 1);
            && d == Deciding(10, Sent(3), true) && Lookup(Bereft.db.runs, 10).None?
            && Mark(Bereft.db, 10, Sent(3), later).Err?
  {
    hide Enabled, Next, Reaches;
    TicketPrints();
    LosesAcknowledgement();
    Pauses();
    Retires();
    var stored := Printed + [Attempting(1, 2, LosesAck, false)];
    Then(Printed, Reported, Attempting(1, 2, LosesAck, false), Unacknowledged);
    Then(stored, Unacknowledged, BeginPause(1, "locked", 2), Pausing);
    Then(stored + [BeginPause(1, "locked", 2)], Pausing, Request(PurgeTx(TooLate)), Bereft);
  }
}
