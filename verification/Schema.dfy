// The constraints that migration 0001 puts on print_runs.
module Schema {
  import opened Domain

  datatype Violation =
    | UniqueJobUid | UniqueIdentity | UniqueTarget | UniqueOrder
    | CheckFailed | ForeignKeyFailed
    | UniqueUid | UniqueNumber | UniqueInitial | UniqueRetryChild | UniqueActive | UniqueRequest

  // The CHECK that ties trigger, run number, content mode and the three references together.
  predicate ShapeOk(r: Run) {
    match r.trigger
    case Initial =>
      r.number == 1 && r.mode == Normal && r.previous.None? && r.reprintOf.None? && r.request.None?
    case AutomaticRetry =>
      r.number > 1 && r.previous.Some? && r.reprintOf.None? && r.request.None?
    case ManualReprint =>
      r.number > 1 && r.mode == Reprint && r.previous.None? && r.reprintOf.Some? && r.request.Some?
  }

  predicate RowOk(r: Run) {
    && r.number >= 1
    && ShapeOk(r)
    && (r.retryable ==> r.status == Failed)
    && (r.resolution != Unresolved ==> r.status == Failed || r.status == Uncertain)
  }

  predicate RefersInside(rows: seq<Run>, k: Key, reference: Option<Uid>) {
    reference.None? || exists x | x in rows :: x.uid == reference.value && x.key == k
  }

  // Why SQLite would refuse to insert r, if it would.
  function Refusal(rows: seq<Run>, targets: map<Key, Target>, r: Run): (v: Option<Violation>) {
    if !RowOk(r) then Some(CheckFailed)
    else if r.key !in targets || !RefersInside(rows, r.key, r.previous) || !RefersInside(rows, r.key, r.reprintOf)
    then Some(ForeignKeyFailed)
    else if exists x | x in rows :: x.uid == r.uid then Some(UniqueUid)
    else if exists x | x in rows :: x.key == r.key && x.number == r.number then Some(UniqueNumber)
    else if r.trigger == Initial && exists x | x in rows :: x.key == r.key && x.trigger == Initial
    then Some(UniqueInitial)
    else if r.trigger == AutomaticRetry
            && exists x | x in rows :: x.trigger == AutomaticRetry && x.previous == r.previous
    then Some(UniqueRetryChild)
    else if Active(r) && exists x | x in rows :: x.key == r.key && Active(x) then Some(UniqueActive)
    else if r.request.Some? && exists x | x in rows :: x.key == r.key && x.request == r.request
    then Some(UniqueRequest)
    else None
  }

  // ---- what the constraints keep true of the table ----

  // Every row has the shape of its trigger.
  predicate WellShaped(r: Run) {
    && r.number >= 1 && (r.trigger == Initial <==> r.number == 1)
    && (r.trigger == Initial ==> r.mode == Normal)
    && (r.trigger == ManualReprint ==> r.mode == Reprint)
    && (r.previous.Some? <==> r.trigger == AutomaticRetry)
    && (r.reprintOf.Some? <==> r.trigger == ManualReprint)
    && (r.request.Some? <==> r.trigger == ManualReprint)
    && (r.retryable ==> r.status == Failed)
    && (r.resolution != Unresolved ==> r.status == Failed || r.status == Uncertain)
  }

  lemma ShapeExactly(r: Run)
    ensures RowOk(r) <==> WellShaped(r)
  {
  }

  // Two rows that no index allows together.
  predicate Clash(a: Run, b: Run) {
    || a.uid == b.uid
    || (a.key == b.key && a.number == b.number)
    || (a.key == b.key && a.trigger == Initial && b.trigger == Initial)
    || (a.trigger == AutomaticRetry && b.trigger == AutomaticRetry && a.previous == b.previous)
    || (a.key == b.key && (a.status == Queued || a.status == Processing) && (b.status == Queued || b.status == Processing))
    || (a.key == b.key && a.request.Some? && a.request == b.request)
  }

  ghost predicate Refers(rows: seq<Run>, r: Run, reference: Option<Uid>) {
    reference.Some? ==> exists x :: x in rows && x.uid == reference.value && x.key == r.key
  }

  ghost predicate TableSound(rows: seq<Run>, targets: map<Key, Target>) {
    && (forall r | r in rows :: WellShaped(r) && r.key in targets && Refers(rows, r, r.previous) && Refers(rows, r, r.reprintOf))
    && (forall i, j | 0 <= i < j < |rows| :: !Clash(rows[i], rows[j]))
  }

  lemma RefusalMeans(rows: seq<Run>, targets: map<Key, Target>, r: Run)
    ensures Refusal(rows, targets, r).None? <==>
              && WellShaped(r) && r.key in targets && Refers(rows, r, r.previous) && Refers(rows, r, r.reprintOf)
              && forall x | x in rows :: !Clash(x, r)
  {
    ShapeExactly(r);
    hide RowOk, WellShaped;
  }

  lemma NoClashBehind(rows: seq<Run>, r: Run)
    requires forall i, j | 0 <= i < j < |rows| :: !Clash(rows[i], rows[j])
    ensures (forall x | x in rows :: !Clash(x, r))
       <==> forall i, j | 0 <= i < j < |rows + [r]| :: !Clash((rows + [r])[i], (rows + [r])[j])
  {
    hide Clash;
    var rows' := rows + [r];
    if forall i, j | 0 <= i < j < |rows'| :: !Clash(rows'[i], rows'[j]) {
      forall x | x in rows ensures !Clash(x, r) {
        var i :| 0 <= i < |rows| && rows[i] == x;
        assert rows'[i] == x && rows'[|rows|] == r;
      }
    } else {
      var i, j :| 0 <= i < j < |rows'| && Clash(rows'[i], rows'[j]);
      assert j == |rows| && rows[i] in rows;
    }
  }

  lemma RefersBehind(rows: seq<Run>, r: Run, x: Run, reference: Option<Uid>)
    requires reference != Some(r.uid)
    ensures Refers(rows + [r], x, reference) <==> Refers(rows, x, reference)
  {
    assert forall y :: y in rows + [r] <==> y in rows || y == r;
  }

  // A row that does not refer to itself is refused exactly when the table with it would be unsound.
  lemma RefusedExactly(rows: seq<Run>, targets: map<Key, Target>, r: Run)
    requires TableSound(rows, targets) && r.previous != Some(r.uid) && r.reprintOf != Some(r.uid)
    ensures Refusal(rows, targets, r).None? <==> TableSound(rows + [r], targets)
  {
    hide Refusal, WellShaped, Clash;
    RefusalMeans(rows, targets, r);
    NoClashBehind(rows, r);
    RefersBehind(rows, r, r, r.previous);
    RefersBehind(rows, r, r, r.reprintOf);
    assert forall x :: x in rows + [r] <==> x in rows || x == r;
    forall x | x in rows ensures Refers(rows + [r], x, x.previous) && Refers(rows + [r], x, x.reprintOf) {
      assert Refers(rows, x, x.previous) && Refers(rows, x, x.reprintOf);
    }
  }
}
