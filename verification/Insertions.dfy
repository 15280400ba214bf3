// What an acceptance and a manual reprint answer and leave behind, said of the rows and fields
// themselves. Random run ids do not repeat, and the printers of a request are named once each.
module Insertions {
  import opened Domain
  import opened Tables
  import opened Schema
  import opened Transactions
  import opened History
  import opened Invariant
  import opened Preservation
  import opened AcceptPurge
  import opened Effects
  import opened Chains
  import opened Refusals
  import opened Answers
  import Stability

  // ---- acceptance ----

  ghost predicate SlotsDiffer(slots: seq<Slot>) {
    forall i, j | 0 <= i < j < |slots| :: slots[i].printer != slots[j].printer && slots[i].run != slots[j].run
  }

  ghost predicate SlotsNew(rows: seq<Run>, slots: seq<Slot>) {
    forall i, r | 0 <= i < |slots| && r in rows :: r.uid != slots[i].run
  }

  // The first run of a target.
  function InitialOf(sequence: nat, uid: Uid, s: Slot, now: Stamp): Run {
    Run(sequence, s.run, Key(uid, s.printer), 1, Initial, Normal, None, None, None, s.hash,
        Queued, false, Unresolved, None, 0, now, None, None, None, None)
  }

  function InitialsOf(last: nat, uid: Uid, slots: seq<Slot>, now: Stamp): seq<Run> {
    seq(|slots|, i requires 0 <= i < |slots| => InitialOf(last + 1 + i, uid, slots[i], now))
  }

  // The targets of the job are the slots in their order, counted from `order`, beside those there were.
  ghost predicate TargetsAdded(before: map<Key, Target>, after: map<Key, Target>, uid: Uid, slots: seq<Slot>, order: nat) {
    && (forall i | 0 <= i < |slots| ::
          Key(uid, slots[i].printer) in after && after[Key(uid, slots[i].printer)] == Target(order + i, slots[i].hash, None))
    && (forall k | k in before :: k in after && after[k] == before[k])
    && (forall k | k in after :: k in before || exists i :: 0 <= i < |slots| && k == Key(uid, slots[i].printer))
  }

  // A second target for the same printer is refused as such, before a second one in the same place.
  lemma TargetRefused(db: Db, t: NewTarget)
    ensures InsertTarget(db, t) == Err(Refused(UniqueTarget)) <==> t.key in db.targets
    ensures InsertTarget(db, t) == Err(Refused(UniqueOrder)) <==>
              t.key !in db.targets && exists k :: k in db.targets && k.job == t.key.job && db.targets[k].order == t.target.order
    ensures InsertTarget(db, t).Ok? ==> t.key.job in db.jobs && InsertTarget(db, t).value == db.(targets := db.targets[t.key := t.target])
  {
  }

  lemma TargetAccepted(db: Db, uid: Uid, s: Slot, order: nat)
    requires uid in db.jobs && Key(uid, s.printer) !in db.targets
    requires forall k | k in db.targets && k.job == uid :: db.targets[k].order < order
    ensures InsertTarget(db, NewTarget(Key(uid, s.printer), Target(order, s.hash, None)))
         == Ok(db.(targets := db.targets[Key(uid, s.printer) := Target(order, s.hash, None)]))
  {
  }

  lemma {:induction false} TargetsAccepted(db: Db, uid: Uid, slots: seq<Slot>, order: nat)
    requires uid in db.jobs && SlotsDiffer(slots)
    requires forall i | 0 <= i < |slots| :: Key(uid, slots[i].printer) !in db.targets
    requires forall k | k in db.targets && k.job == uid :: db.targets[k].order < order
    ensures InsertTargets(db, AcceptedTargets(uid, slots, order)).Ok?
    ensures var db' := InsertTargets(db, AcceptedTargets(uid, slots, order)).value;
            TargetsAdded(db.targets, db'.targets, uid, slots, order) && db' == db.(targets := db'.targets)
    decreases |slots|
  {
    if slots != [] {
      var k := Key(uid, slots[0].printer);
      TargetAccepted(db, uid, slots[0], order);
      var db' := db.(targets := db.targets[k := Target(order, slots[0].hash, None)]);
      assert forall i | 0 <= i < |slots| - 1 :: slots[1..][i] == slots[i + 1];
      assert AcceptedTargets(uid, slots, order)[1..] == AcceptedTargets(uid, slots[1..], order + 1);
      hide InsertTarget;
      TargetsAccepted(db', uid, slots[1..], order + 1);
      var end := InsertTargets(db', AcceptedTargets(uid, slots[1..], order + 1)).value;
      hide InsertTargets;
      AddedFirst(db.targets, end.targets, uid, slots, order);
    }
  }

  lemma AddedFirst(before: map<Key, Target>, after: map<Key, Target>, uid: Uid, slots: seq<Slot>, order: nat)
    requires slots != [] && SlotsDiffer(slots)
    requires Key(uid, slots[0].printer) !in before
    requires TargetsAdded(before[Key(uid, slots[0].printer) := Target(order, slots[0].hash, None)], after, uid, slots[1..], order + 1)
    ensures TargetsAdded(before, after, uid, slots, order)
  {
    var first := Key(uid, slots[0].printer);
    forall i | 0 <= i < |slots|
      ensures Key(uid, slots[i].printer) in after && after[Key(uid, slots[i].printer)] == Target(order + i, slots[i].hash, None)
    {
      if i == 0 {
        assert first in before[first := Target(order, slots[0].hash, None)];
      } else {
        assert slots[1..][i - 1] == slots[i];
      }
    }
    forall k | k in after ensures k in before || exists i :: 0 <= i < |slots| && k == Key(uid, slots[i].printer) {
      if k !in before && k != first {
        var i :| 0 <= i < |slots| - 1 && k == Key(uid, slots[1..][i].printer);
        assert slots[i + 1] == slots[1..][i];
      }
    }
  }

  lemma RunAccepted(db: Db, uid: Uid, s: Slot, now: Stamp)
    requires Key(uid, s.printer) in db.targets
    requires forall r | r in db.runs :: r.uid != s.run && r.key != Key(uid, s.printer)
    ensures InsertRun(db, NewRun(s.run, Key(uid, s.printer), 1, Initial, Normal, None, None, None, s.hash, now))
         == Ok(db.(runs := db.runs + [InitialOf(db.lastSequence + 1, uid, s, now)], lastSequence := db.lastSequence + 1))
  {
  }

  lemma InitialIs(sequence: nat, uid: Uid, s: Slot, now: Stamp)
    ensures InitialOf(sequence, uid, s, now).uid == s.run && InitialOf(sequence, uid, s, now).key == Key(uid, s.printer)
  {
  }

  lemma {:induction false} RunsAccepted(db: Db, uid: Uid, slots: seq<Slot>, now: Stamp)
    requires SlotsDiffer(slots) && SlotsNew(db.runs, slots)
    requires forall i | 0 <= i < |slots| :: Key(uid, slots[i].printer) in db.targets
    requires forall i, r | 0 <= i < |slots| && r in db.runs :: r.key != Key(uid, slots[i].printer)
    ensures InsertRuns(db, AcceptedRuns(uid, slots, now))
         == Ok(db.(runs := db.runs + InitialsOf(db.lastSequence, uid, slots, now), lastSequence := db.lastSequence + |slots|))
    decreases |slots|
  {
    hide InitialOf, InsertRun, AcceptedRuns, NewRun;
    FirstAccepted(uid, slots, now);
    if slots == [] {
      assert db.runs + InitialsOf(db.lastSequence, uid, slots, now) == db.runs;
    } else {
      InitialIs(db.lastSequence + 1, uid, slots[0], now);
      RunAccepted(db, uid, slots[0], now);
      var first := InitialOf(db.lastSequence + 1, uid, slots[0], now);
      var db' := db.(runs := db.runs + [first], lastSequence := db.lastSequence + 1);
      assert forall i | 0 <= i < |slots| - 1 :: slots[1..][i] == slots[i + 1];
      RunsAccepted(db', uid, slots[1..], now);
      InitialsFirst(db.lastSequence, uid, slots, now);
      Regrouped(db.runs, [first], InitialsOf(db.lastSequence + 1, uid, slots[1..], now));
    }
  }

  lemma FirstAccepted(uid: Uid, slots: seq<Slot>, now: Stamp)
    ensures slots == [] ==> AcceptedRuns(uid, slots, now) == []
    ensures slots != [] ==>
              AcceptedRuns(uid, slots, now) != [] && AcceptedRuns(uid, slots, now)[1..] == AcceptedRuns(uid, slots[1..], now)
              && AcceptedRuns(uid, slots, now)[0]
                 == NewRun(slots[0].run, Key(uid, slots[0].printer), 1, Initial, Normal, None, None, None, slots[0].hash, now)
  {
  }

  lemma InitialsFirst(last: nat, uid: Uid, slots: seq<Slot>, now: Stamp)
    requires slots != []
    ensures InitialsOf(last, uid, slots, now) == [InitialOf(last + 1, uid, slots[0], now)] + InitialsOf(last + 1, uid, slots[1..], now)
  {
    hide InitialOf;
  }

  // A job is stored whole: itself, a target for each slot in order, and a queued run for each. It is
  // refused exactly when its id or its identity is taken.
  lemma AcceptExactly(db: Db, uid: Uid, job: Job, slots: seq<Slot>, now: Stamp)
    requires Valid(db) && SlotsDiffer(slots) && SlotsNew(db.runs, slots)
    ensures var tx := AcceptTx(uid, job, slots, now);
            if uid in db.jobs then Commit(db, tx) == Err(Refused(UniqueJobUid))
            else if exists u :: u in db.jobs && db.jobs[u].jobId == job.jobId && db.jobs[u].template == job.template
            then Commit(db, tx) == Err(Refused(UniqueIdentity))
            else
              && Commit(db, tx).Ok?
              && var db' := After(db, tx);
                 && db'.jobs == db.jobs[uid := job] && db'.dedup == db.dedup
                 && TargetsAdded(db.targets, db'.targets, uid, slots, 0)
                 && db'.runs == db.runs + InitialsOf(db.lastSequence, uid, slots, now)
                 && db'.lastSequence == db.lastSequence + |slots|
  {
    if InsertJobRow(db, uid, job).Ok? {
      var withJob := InsertJobRow(db, uid, job).value;
      NoTargetYet(db, uid);
      hide Valid;
      TargetsAccepted(withJob, uid, slots, 0);
      var withTargets := InsertTargets(withJob, AcceptedTargets(uid, slots, 0)).value;
      hide InsertTargets, InsertRuns;
      RunsAccepted(withTargets, uid, slots, now);
    }
  }

  lemma NoTargetYet(db: Db, uid: Uid)
    requires Valid(db) && uid !in db.jobs
    ensures forall k | k in db.targets :: k.job != uid
    ensures forall r | r in db.runs :: r.key.job != uid
  {
  }

  // ---- manual reprints ----

  ghost predicate ReprintsDiffer(slots: seq<ReprintSlot>) {
    forall i, j | 0 <= i < j < |slots| :: slots[i].printer != slots[j].printer && slots[i].run != slots[j].run
  }

  ghost predicate ReprintsNew(rows: seq<Run>, slots: seq<ReprintSlot>) {
    forall i, r | 0 <= i < |slots| && r in rows :: r.uid != slots[i].run
  }

  // Why one printer cannot be reprinted, in the order in which the reasons are looked for.
  ghost function ReprintObjection(db: Db, job: Uid, s: ReprintSlot): Option<DbError> {
    if Key(job, s.printer) !in db.targets then Some(NotFound)
    else if exists r :: r in db.runs && r.key == Key(job, s.printer) && (r.status == Queued || r.status == Processing)
    then Some(StateChanged)
    else if s.hash.None? then Some(ContentChanged)
    else None
  }

  ghost predicate FirstReprintObjection(db: Db, job: Uid, slots: seq<ReprintSlot>, i: nat, e: DbError) {
    i < |slots| && ReprintObjection(db, job, slots[i]) == Some(e)
    && forall j | 0 <= j < i :: ReprintObjection(db, job, slots[j]).None?
  }

  // The marked run for one printer: the next number, referring to the target's first run.
  function MarkedRun(rows: seq<Run>, sequence: nat, id: RequestKey, s: ReprintSlot, now: Stamp): Run {
    var k := Key(id.job, s.printer);
    var h := RunsOf(rows, k);
    Run(sequence, s.run, k, |h| + 1, ManualReprint, Reprint, None, if h == [] then None else Some(h[0].uid), Some(id.request),
        if s.hash.Some? then s.hash.value else 0, Queued, false, Unresolved, None, 0, now, None, None, None, None)
  }

  function MarkedRuns(rows: seq<Run>, last: nat, id: RequestKey, slots: seq<ReprintSlot>, now: Stamp): seq<Run> {
    seq(|slots|, i requires 0 <= i < |slots| => MarkedRun(rows, last + 1 + i, id, slots[i], now))
  }

  // An unresolved failed or uncertain run is answered by the reprint.
  function AnsweredRun(r: Run, now: Stamp): Run {
    if (r.status == Failed || r.status == Uncertain) && r.resolution == Unresolved
    then r.(retryable := false, resolution := ReprintRequested, resolvedAt := Some(now)) else r
  }

  function AnsweredRows(rows: seq<Run>, job: Uid, printers: seq<PrinterId>, now: Stamp): seq<Run> {
    MapRows((r: Run) => if Listed(r.key, job, printers) then AnsweredRun(r, now) else r, rows)
  }

  lemma ReprintRunIs(db: Db, id: RequestKey, s: ReprintSlot, now: Stamp)
    requires HistoriesOk(db.runs, db.targets, {}) && Key(id.job, s.printer) in db.targets
    ensures ReprintRun(db, id, s, now) == MarkedRun(db.runs, db.lastSequence + 1, id, s, now)
  {
    var k := Key(id.job, s.printer);
    hide RunsOf, MaxNumber, InitialRun;
    SelectedFromHistory(db.runs, k, Cancelled?(db.targets, k));
  }

  lemma OneReprintAnswer(db: Db, id: RequestKey, left: set<PrinterId>, s: ReprintSlot, now: Stamp)
    requires ValidInside(db, map[id := left]) && s.printer in left && forall r | r in db.runs :: r.uid != s.run
    ensures var answer := ReprintTarget(db, id.job, id.request, s, now);
            if ReprintObjection(db, id.job, s).Some? then answer == Err(ReprintObjection(db, id.job, s).value) else answer.Ok?
  {
    hide ValidInside, Refusal, InitialRun, MaxNumber, SupersededRows, ReprintTarget, ReprintRun;
    var k := Key(id.job, s.printer);
    Objected(db, id, s, now);
    if k in db.targets && !HasActive(db.runs, k) {
      ReprintFits(db, id, left, s, now);
      NewUidFits(db, id, s, now);
      Inserted(db, id, s, now);
    }
  }

  lemma Objected(db: Db, id: RequestKey, s: ReprintSlot, now: Stamp)
    ensures var k := Key(id.job, s.printer);
            && (k !in db.targets ==> ReprintTarget(db, id.job, id.request, s, now) == Err(NotFound)
                                     && ReprintObjection(db, id.job, s) == Some(NotFound))
            && (k in db.targets && HasActive(db.runs, k) ==>
                  ReprintTarget(db, id.job, id.request, s, now) == Err(StateChanged)
                  && ReprintObjection(db, id.job, s) == Some(StateChanged))
            && (k in db.targets && !HasActive(db.runs, k) ==>
                  ReprintObjection(db, id.job, s) == if s.hash.None? then Some(ContentChanged) else None)
  {
    hide InitialRun, InsertRun, SupersededRows, MaxNumber;
  }

  lemma Inserted(db: Db, id: RequestKey, s: ReprintSlot, now: Stamp)
    requires Key(id.job, s.printer) in db.targets && !HasActive(db.runs, Key(id.job, s.printer))
    requires InitialRun(db.runs, Key(id.job, s.printer)).Some?
    requires Refusal(db.runs, db.targets, ReprintRun(db, id, s, now)).None?
    ensures var answer := ReprintTarget(db, id.job, id.request, s, now);
            if s.hash.None? then answer == Err(ContentChanged) else answer.Ok?
  {
    SequenceIrrelevant(db.runs, db.targets, ReprintRun(db, id, s, now), 0);
    hide Refusal, InitialRun, MaxNumber, SupersededRows;
  }

  lemma NewUidFits(db: Db, id: RequestKey, s: ReprintSlot, now: Stamp)
    requires forall r | r in db.runs :: r.uid != s.run
    ensures Refusal(db.runs, db.targets, ReprintRun(db, id, s, now)) != Some(UniqueUid)
  {
    hide RowOk, RefersInside, Active, MaxNumber, InitialRun;
  }

  // ---- the loop over the printers ----

  // One printer's turn, in terms of the histories it finds.
  lemma OneReprintEffect(db: Db, id: RequestKey, left: set<PrinterId>, s: ReprintSlot, now: Stamp) returns (db': Db)
    requires ValidInside(db, map[id := left]) && id in db.dedup && s.printer in left && s.printer in db.dedup[id].printers
    requires ReprintTarget(db, id.job, id.request, s, now).Ok?
    ensures var k := Key(id.job, s.printer);
            && ReprintTarget(db, id.job, id.request, s, now) == Ok(db') && k in db.targets
            && db' == db.(runs := AnsweredRows(db.runs, id.job, [s.printer], now) + [MarkedRun(db.runs, db.lastSequence + 1, id, s, now)],
                          lastSequence := db.lastSequence + 1,
                          targets := db.targets[k := db.targets[k].(cancelledAt := None)])
            && ValidInside(db', map[id := left - {s.printer}])
  {
    hide ValidInside, ReprintTarget, SupersededRows, AnsweredRows, ReprintRun, MarkedRun;
    db' := ReprintTarget(db, id.job, id.request, s, now).value;
    ReprintTargetEffect(db, id, s, now);
    ReprintTargetKeeps(db, id, left, s, now);
    InsideHistories(db, map[id := left]);
    ReprintRunIs(db, id, s, now);
    MarkedIsQueued(db.runs, db.lastSequence + 1, id, s, now);
    SupersededBehind(db.runs, id.job, s.printer, MarkedRun(db.runs, db.lastSequence + 1, id, s, now), now);
  }

  lemma InsideHistories(db: Db, pending: map<RequestKey, set<PrinterId>>)
    requires ValidInside(db, pending)
    ensures HistoriesOk(db.runs, db.targets, {}) && forall r | r in db.runs :: r.key in db.targets
  {
    hide HistoriesOk, DedupOk;
  }

  lemma MarkedIsQueued(rows: seq<Run>, sequence: nat, id: RequestKey, s: ReprintSlot, now: Stamp)
    ensures var run := MarkedRun(rows, sequence, id, s, now);
            run.status == Queued && run.key == Key(id.job, s.printer) && run.uid == s.run
  {
    hide RunsOf;
  }

  lemma SupersededBehind(rows: seq<Run>, job: Uid, p: PrinterId, run: Run, now: Stamp)
    requires run.status == Queued
    ensures SupersededRows(rows + [run], Key(job, p), now) == AnsweredRows(rows, job, [p], now) + [run]
  {
    var f := (r: Run) => Superseded(r, Key(job, p), now);
    var g := (r: Run) => if Listed(r.key, job, [p]) then AnsweredRun(r, now) else r;
    forall r ensures f(r) == g(r) {
      assert r.key == Key(r.key.job, r.key.printer);
    }
    assert MapRows(f, rows + [run]) == MapRows(f, rows) + [run];
    MapSame(f, g, rows);
  }

  // The turn of one printer leaves the other printers' histories and reasons as they were.
  lemma OthersUntouched(db: Db, db': Db, id: RequestKey, s: ReprintSlot, now: Stamp, t: ReprintSlot, n: nat)
    requires t.printer != s.printer && Key(id.job, s.printer) in db.targets
    requires db' == db.(runs := AnsweredRows(db.runs, id.job, [s.printer], now) + [MarkedRun(db.runs, db.lastSequence + 1, id, s, now)],
                        lastSequence := db.lastSequence + 1,
                        targets := db.targets[Key(id.job, s.printer) := db.targets[Key(id.job, s.printer)].(cancelledAt := None)])
    ensures ReprintObjection(db', id.job, t) == ReprintObjection(db, id.job, t)
    ensures MarkedRun(db'.runs, n, id, t, now) == MarkedRun(db.runs, n, id, t, now)
  {
    var k, run := Key(id.job, t.printer), MarkedRun(db.runs, db.lastSequence + 1, id, s, now);
    MarkedIsQueued(db.runs, db.lastSequence + 1, id, s, now);
    hide MarkedRun, AnsweredRows;
    SupersededBehind(db.runs, id.job, s.printer, run, now);
    SupersedeRuns(db.runs, Key(id.job, s.printer), run, now, k);
    InRunsOf(db.runs, k);
    InRunsOf(db'.runs, k);
    SameMarked(db.runs, db'.runs, n, id, t, now);
  }

  lemma SameMarked(rows: seq<Run>, rows': seq<Run>, n: nat, id: RequestKey, t: ReprintSlot, now: Stamp)
    requires RunsOf(rows', Key(id.job, t.printer)) == RunsOf(rows, Key(id.job, t.printer))
    ensures MarkedRun(rows', n, id, t, now) == MarkedRun(rows, n, id, t, now)
  {
    hide RunsOf;
  }

  // What the loop needs of the database and the slots it has left.
  ghost predicate ReadyFor(db: Db, id: RequestKey, left: set<PrinterId>, slots: seq<ReprintSlot>) {
    && ValidInside(db, map[id := left]) && id in db.dedup
    && ReprintsDiffer(slots) && ReprintsNew(db.runs, slots)
    && forall i | 0 <= i < |slots| :: slots[i].printer in left && slots[i].printer in db.dedup[id].printers
  }

  lemma ReadyForRest(db: Db, id: RequestKey, left: set<PrinterId>, slots: seq<ReprintSlot>, now: Stamp) returns (db': Db)
    requires ReadyFor(db, id, left, slots) && slots != []
    requires ReprintTarget(db, id.job, id.request, slots[0], now).Ok?
    ensures ReprintTarget(db, id.job, id.request, slots[0], now) == Ok(db')
    ensures ReadyFor(db', id, left - {slots[0].printer}, slots[1..])
    ensures var s, k := slots[0], Key(id.job, slots[0].printer);
            k in db.targets
            && db' == db.(runs := AnsweredRows(db.runs, id.job, [s.printer], now) + [MarkedRun(db.runs, db.lastSequence + 1, id, s, now)],
                          lastSequence := db.lastSequence + 1,
                          targets := db.targets[k := db.targets[k].(cancelledAt := None)])
  {
    hide ValidInside, ReprintTarget, MarkedRun;
    var s := slots[0];
    db' := OneReprintEffect(db, id, left, s, now);
    MarkedIsQueued(db.runs, db.lastSequence + 1, id, s, now);
    var run := MarkedRun(db.runs, db.lastSequence + 1, id, s, now);
    var f := (r: Run) => if Listed(r.key, id.job, [s.printer]) then AnsweredRun(r, now) else r;
    forall i | 0 <= i < |slots| - 1 ensures slots[1..][i] == slots[i + 1] && slots[i + 1].run != run.uid {
    }
    forall i, r | 0 <= i < |slots[1..]| && r in db'.runs ensures r.uid != slots[1..][i].run {
      if r != run {
        assert r in AnsweredRows(db.runs, id.job, [s.printer], now);
        var r0 := MappedRow(f, db.runs, r);
      }
    }
  }

  lemma {:induction false} ReprintEachAnswer(db: Db, id: RequestKey, left: set<PrinterId>, slots: seq<ReprintSlot>, now: Stamp)
    requires ReadyFor(db, id, left, slots)
    ensures ReprintEach(db, id.job, id.request, slots, now).Ok?
       <==> forall i | 0 <= i < |slots| :: ReprintObjection(db, id.job, slots[i]).None?
    ensures forall i: nat, e | FirstReprintObjection(db, id.job, slots, i, e) ::
              ReprintEach(db, id.job, id.request, slots, now) == Err(e)
    decreases |slots|
  {
    hide ReprintTarget, ReprintObjection, ValidInside, AnsweredRows, MarkedRun;
    if slots != [] {
      OneReprintAnswer(db, id, left, slots[0], now);
      if ReprintTarget(db, id.job, id.request, slots[0], now).Ok? {
        var db' := ReadyForRest(db, id, left, slots, now);
        ReprintEachAnswer(db', id, left - {slots[0].printer}, slots[1..], now);
        forall i | 0 < i < |slots|
          ensures slots[1..][i - 1] == slots[i] && ReprintObjection(db', id.job, slots[i]) == ReprintObjection(db, id.job, slots[i])
        {
          OthersUntouched(db, db', id, slots[0], now, slots[i], 0);
        }
        AnswersFromRest(db, db', id, slots, now);
      }
    }
  }

  lemma AnswersFromRest(db: Db, db': Db, id: RequestKey, slots: seq<ReprintSlot>, now: Stamp)
    requires slots != [] && ReprintObjection(db, id.job, slots[0]).None?
    requires ReprintEach(db, id.job, id.request, slots, now) == ReprintEach(db', id.job, id.request, slots[1..], now)
    requires forall i | 0 < i < |slots| :: slots[1..][i - 1] == slots[i] && ReprintObjection(db', id.job, slots[i]) == ReprintObjection(db, id.job, slots[i])
    requires ReprintEach(db', id.job, id.request, slots[1..], now).Ok?
       <==> forall i | 0 <= i < |slots[1..]| :: ReprintObjection(db', id.job, slots[1..][i]).None?
    requires forall i: nat, e | FirstReprintObjection(db', id.job, slots[1..], i, e) ::
              ReprintEach(db', id.job, id.request, slots[1..], now) == Err(e)
    ensures ReprintEach(db, id.job, id.request, slots, now).Ok?
       <==> forall i | 0 <= i < |slots| :: ReprintObjection(db, id.job, slots[i]).None?
    ensures forall i: nat, e | FirstReprintObjection(db, id.job, slots, i, e) ::
              ReprintEach(db, id.job, id.request, slots, now) == Err(e)
  {
    hide ReprintObjection, ReprintEach;
    assert forall i | 0 <= i < |slots| - 1 :: slots[1..][i] == slots[i + 1];
    forall i: nat, e | FirstReprintObjection(db, id.job, slots, i, e) ensures ReprintEach(db, id.job, id.request, slots, now) == Err(e) {
      assert i > 0;
      forall j | 0 <= j < i - 1 ensures ReprintObjection(db', id.job, slots[1..][j]).None? {
        assert slots[1..][j] == slots[j + 1];
      }
      assert slots[1..][i - 1] == slots[i];
      assert FirstReprintObjection(db', id.job, slots[1..], i - 1, e);
    }
  }

  // The targets after the reprint: the named ones are open again.
  ghost predicate Reopened(before: map<Key, Target>, after: map<Key, Target>, job: Uid, printers: seq<PrinterId>) {
    && after.Keys == before.Keys
    && forall k | k in before :: after[k] == if Listed(k, job, printers) then before[k].(cancelledAt := None) else before[k]
  }

  lemma {:induction false} ReprintEachEffect(db: Db, id: RequestKey, left: set<PrinterId>, slots: seq<ReprintSlot>, now: Stamp)
    requires ReadyFor(db, id, left, slots) && ReprintEach(db, id.job, id.request, slots, now).Ok?
    ensures var db' := ReprintEach(db, id.job, id.request, slots, now).value;
            && db'.jobs == db.jobs && db'.dedup == db.dedup && db'.lastSequence == db.lastSequence + |slots|
            && Reopened(db.targets, db'.targets, id.job, SlotPrinters(slots))
            && db'.runs == AnsweredRows(db.runs, id.job, SlotPrinters(slots), now) + MarkedRuns(db.runs, db.lastSequence, id, slots, now)
    decreases |slots|
  {
    hide ReprintTarget, ValidInside, MarkedRun, Listed, AnsweredRun;
    if slots == [] {
      NobodyListed(db.runs, db.targets, id.job, now);
      assert SlotPrinters(slots) == [];
      assert db.runs + [] == db.runs;
    } else {
      var s := slots[0];
      var db' := ReadyForRest(db, id, left, slots, now);
      ReprintEachEffect(db', id, left - {s.printer}, slots[1..], now);
      var end := ReprintEach(db, id.job, id.request, slots, now).value;
      assert SlotPrinters(slots)[1..] == SlotPrinters(slots[1..]);
      hide ReprintEach;
      ReopenedFirst(db.targets, db'.targets, end.targets, id.job, SlotPrinters(slots));
      RowsFromRest(db, db', id, slots, now);
    }
  }

  lemma RowsFromRest(db: Db, db': Db, id: RequestKey, slots: seq<ReprintSlot>, now: Stamp)
    requires slots != [] && ReprintsDiffer(slots) && Key(id.job, slots[0].printer) in db.targets
    requires var s, k := slots[0], Key(id.job, slots[0].printer);
             db' == db.(runs := AnsweredRows(db.runs, id.job, [s.printer], now) + [MarkedRun(db.runs, db.lastSequence + 1, id, s, now)],
                        lastSequence := db.lastSequence + 1,
                        targets := db.targets[k := db.targets[k].(cancelledAt := None)])
    ensures AnsweredRows(db'.runs, id.job, SlotPrinters(slots[1..]), now) + MarkedRuns(db'.runs, db.lastSequence + 1, id, slots[1..], now)
         == AnsweredRows(db.runs, id.job, SlotPrinters(slots), now) + MarkedRuns(db.runs, db.lastSequence, id, slots, now)
  {
    hide MarkedRun, AnsweredRows;
    var s := slots[0];
    var run := MarkedRun(db.runs, db.lastSequence + 1, id, s, now);
    MarkedIsQueued(db.runs, db.lastSequence + 1, id, s, now);
    AnsweredFirst(db.runs, run, id.job, slots, now);
    forall i | 0 < i < |slots|
      ensures slots[1..][i - 1] == slots[i]
           && MarkedRun(db'.runs, db.lastSequence + 1 + i, id, slots[i], now) == MarkedRun(db.runs, db.lastSequence + 1 + i, id, slots[i], now)
    {
      OthersUntouched(db, db', id, s, now, slots[i], db.lastSequence + 1 + i);
    }
    assert [run] + MarkedRuns(db'.runs, db.lastSequence + 1, id, slots[1..], now) == MarkedRuns(db.runs, db.lastSequence, id, slots, now);
    Regrouped(AnsweredRows(db.runs, id.job, SlotPrinters(slots), now), [run],
              MarkedRuns(db'.runs, db.lastSequence + 1, id, slots[1..], now));
  }

  lemma Regrouped(a: seq<Run>, b: seq<Run>, c: seq<Run>)
    ensures a + b + c == a + (b + c)
  {
  }

  lemma NobodyListed(rows: seq<Run>, targets: map<Key, Target>, job: Uid, now: Stamp)
    ensures AnsweredRows(rows, job, [], now) == rows && Reopened(targets, targets, job, [])
  {
  }

  lemma ReopenedFirst(before: map<Key, Target>, middle: map<Key, Target>, after: map<Key, Target>, job: Uid, printers: seq<PrinterId>)
    requires printers != [] && Key(job, printers[0]) in before
    requires middle == before[Key(job, printers[0]) := before[Key(job, printers[0])].(cancelledAt := None)]
    requires Reopened(middle, after, job, printers[1..])
    ensures Reopened(before, after, job, printers)
  {
    ListedFirst(job, printers);
    hide Listed;
    assert middle.Keys == before.Keys;
    forall k | k in before ensures after[k] == if Listed(k, job, printers) then before[k].(cancelledAt := None) else before[k] {
      assert k in middle.Keys;
    }
  }

  lemma AnsweredFirst(rows: seq<Run>, run: Run, job: Uid, slots: seq<ReprintSlot>, now: Stamp)
    requires slots != [] && run.status == Queued
    ensures AnsweredRows(AnsweredRows(rows, job, [slots[0].printer], now) + [run], job, SlotPrinters(slots[1..]), now)
         == AnsweredRows(rows, job, SlotPrinters(slots), now) + [run]
  {
    var ps := SlotPrinters(slots);
    assert ps[1..] == SlotPrinters(slots[1..]) && ps[0] == slots[0].printer;
    ListedFirst(job, ps);
    ListedFirst(job, [slots[0].printer]);
    assert [slots[0].printer][1..] == [];
    NothingListed(job);
    hide Listed;
  }

  lemma NothingListed(job: Uid)
    ensures forall k :: !Listed(k, job, [])
  {
  }

  // A request names its printers once each. It is a duplicate if its id is known, fails without its
  // job, and otherwise reprints every printer or none: exactly when each has a target with nothing
  // queued or processing and content that still renders, and else for the first reason that comes up.
  lemma ReprintExactly(db: Db, job: Uid, request: RequestId, reason: string, slots: seq<ReprintSlot>, now: Stamp)
    requires Valid(db) && ReprintsDiffer(slots) && ReprintsNew(db.runs, slots)
    ensures var tx := ReprintTx(job, request, reason, slots, now);
            var id := RequestKey(job, request);
            if id in db.dedup then Commit(db, tx) == Err(DuplicateRequest)
            else if job !in db.jobs then Commit(db, tx) == Err(Refused(ForeignKeyFailed))
            else
              && (Commit(db, tx).Ok? <==> forall i | 0 <= i < |slots| :: ReprintObjection(db, job, slots[i]).None?)
              && (forall i: nat, e | FirstReprintObjection(db, job, slots, i, e) :: Commit(db, tx) == Err(e))
              && (Commit(db, tx).Ok? ==>
                    var db' := After(db, tx);
                    && db'.runs == AnsweredRows(db.runs, job, SlotPrinters(slots), now) + MarkedRuns(db.runs, db.lastSequence, id, slots, now)
                    && db'.lastSequence == db.lastSequence + |slots|
                    && Reopened(db.targets, db'.targets, job, SlotPrinters(slots))
                    && db'.dedup == db.dedup[id := ReprintDigest(SlotPrinters(slots), reason)]
                    && db'.jobs == KeptOn(db.jobs, job, now))
  {
    var id := RequestKey(job, request);
    if id !in db.dedup && job in db.jobs {
      var digest := ReprintDigest(SlotPrinters(slots), reason);
      var started := db.(dedup := db.dedup[id := digest]);
      Starts(db, id, digest, slots);
      hide Valid, ReadyFor, ReprintObjection, AnsweredRows, MarkedRuns, ReprintEach, Reopened;
      ReprintEachAnswer(started, id, SlotSet(slots), slots, now);
      StartedObjections(db, started, job, slots);
      if ReprintEach(started, job, request, slots, now).Ok? {
        ReprintEachEffect(started, id, SlotSet(slots), slots, now);
        TouchKeepsOn(ReprintEach(started, job, request, slots, now).value, job, now);
      }
    }
  }

  lemma StartedObjections(db: Db, started: Db, job: Uid, slots: seq<ReprintSlot>)
    requires started.runs == db.runs && started.targets == db.targets
    ensures forall i | 0 <= i < |slots| :: ReprintObjection(started, job, slots[i]) == ReprintObjection(db, job, slots[i])
    ensures forall i: nat, e :: FirstReprintObjection(db, job, slots, i, e) <==> FirstReprintObjection(started, job, slots, i, e)
  {
  }

  lemma Starts(db: Db, id: RequestKey, digest: ReprintDigest, slots: seq<ReprintSlot>)
    requires Valid(db) && ReprintsDiffer(slots) && ReprintsNew(db.runs, slots)
    requires id !in db.dedup && id.job in db.jobs && digest.printers == SlotPrinters(slots)
    ensures ReadyFor(db.(dedup := db.dedup[id := digest]), id, SlotSet(slots), slots)
  {
    forall p | p in digest.printers ensures p in SlotSet(slots) {
      var i :| 0 <= i < |slots| && SlotPrinters(slots)[i] == p;
    }
    forall i | 0 <= i < |slots| ensures slots[i].printer in SlotSet(slots) && slots[i].printer in digest.printers {
      assert SlotPrinters(slots)[i] == slots[i].printer;
    }
    DedupOpened(db.runs, db.targets, db.jobs.Keys, db.dedup, id, digest, SlotSet(slots));
    hide HistoriesOk, DedupOk;
  }
}
