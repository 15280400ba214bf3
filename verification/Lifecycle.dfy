// Retiring printers while jobs are accepted, reprinted, retried and printed. Acceptances and reprints
// run as readers of the lifecycle lock, removal as its writer; everything else takes no lock.
module Lifecycle {
  import opened Domain
  import opened Tables
  import opened Schema
  import opened Transactions
  import opened History
  import opened Invariant
  import opened Preservation
  import opened AcceptPurge
  import opened Effects
  import opened Repository
  import opened Requests

  // RemovePrinter between its steps.
  datatype Removal = Removal(printer: PrinterId, checked: bool)

  // `readers` holds, for each caller inside BeginAcceptance, the printers it has found to exist.
  datatype House = House(
    db: Db,
    existing: set<PrinterId>,
    retired: set<PrinterId>,
    readers: map<nat, set<PrinterId>>,
    removal: Option<Removal>)

  datatype Act =
    | BeginAcceptance(i: nat)
    | CheckPrinter(i: nat, p: PrinterId)
    | CommitWork(i: nat, tx: Tx)
    | EndAcceptance(i: nat)
    | Background(tx: Tx)
    | BeginRemoval(p: PrinterId)
    | CheckActive
    | Retire(stored: bool)
    | CreatePrinter(p: PrinterId)

  predicate Unlocked(tx: Tx) {
    !tx.AcceptTx? && !tx.ReprintTx?
  }

  predicate Allowed(h: House, a: Act) {
    match a
    case BeginAcceptance(i) => i !in h.readers && h.removal.None?
    case CheckPrinter(i, p) => i in h.readers && p in h.existing
    case CommitWork(i, tx) => i in h.readers && !Unlocked(tx) && WorkFor(tx) <= h.readers[i]
    case EndAcceptance(i) => i in h.readers
    case Background(tx) => Unlocked(tx)
    case BeginRemoval(p) => h.readers == map[] && h.removal.None?
    case CheckActive => h.removal.Some? && !h.removal.value.checked
    case Retire(_) => h.removal.Some? && h.removal.value.checked
    case CreatePrinter(p) => h.readers == map[] && h.removal.None? && p !in h.retired
  }

  // HasActiveRuns
  ghost predicate HasLiveRun(db: Db, p: PrinterId) {
    exists r :: r in db.runs && r.key.printer == p && Live(r)
  }

  ghost function AfterAct(h: House, a: Act): House
    requires Allowed(h, a)
  {
    match a
    case BeginAcceptance(i) => h.(readers := h.readers[i := {}])
    case CheckPrinter(i, p) => h.(readers := h.readers[i := h.readers[i] + {p}])
    case CommitWork(i, tx) => h.(db := After(h.db, tx))
    case EndAcceptance(i) => h.(readers := h.readers - {i})
    case Background(tx) => h.(db := After(h.db, tx))
    case BeginRemoval(p) => h.(removal := Some(Removal(p, false)))
    case CheckActive =>
      // A printer with live work, or one that does not exist, is not retired.
      var p := h.removal.value.printer;
      h.(removal := if HasLiveRun(h.db, p) || p !in h.existing then None else Some(Removal(p, true)))
    case Retire(stored) =>
      var p := h.removal.value.printer;
      if stored then h.(removal := None, existing := h.existing - {p}, retired := h.retired + {p})
      else h.(removal := None)
    case CreatePrinter(p) => h.(existing := h.existing + {p})
  }

  ghost predicate Quiet(db: Db, p: PrinterId) {
    forall r | r in db.runs && r.key.printer == p :: !Live(r)
  }

  ghost predicate HouseOk(h: House) {
    && Valid(h.db)
    && h.existing !! h.retired
    && (h.removal.Some? ==> h.readers == map[])
    && (forall i | i in h.readers :: h.readers[i] <= h.existing)
    && (forall p | p in h.retired :: Quiet(h.db, p))
    && (h.removal.Some? && h.removal.value.checked ==> Quiet(h.db, h.removal.value.printer))
  }

  // ---- where live work comes from ----

  lemma LiveBefore(db: Db, tx: Tx, r: Run)
    requires Sorted(db.runs) && r in db.runs && RowSound(r) && Live(NewRow(db, tx, r))
    requires !(tx.MarkTx? && tx.run == r.uid)
    ensures Live(r)
  {
    if tx.ClaimTx? && Commit(db, tx).Ok? {
      var q := NextQueued(db.runs, tx.printer).value;
      if r.sequence == q.sequence {
        SameSequence(db.runs, r, q);
      }
    }
  }

  lemma MarkedWasLive(db: Db, tx: Tx, r: Run)
    requires tx.MarkTx? && r in db.runs && Live(NewRow(db, tx, r))
    ensures Live(r)
  {
  }

  lemma FreshWork(db: Db, tx: Tx, r: Run)
    requires Valid(db) && Fresh(db, tx, r)
    ensures r.key.printer in WorkFor(tx) || exists p :: p in db.runs && p.key.printer == r.key.printer && Live(p)
    ensures Unlocked(tx) ==> exists p :: p in db.runs && p.key.printer == r.key.printer && Live(p)
  {
    hide Valid;
  }

  // A transaction makes live work only for printers it names, or where there was some already.
  lemma QuietKept(db: Db, tx: Tx, p: PrinterId)
    requires Valid(db) && Quiet(db, p) && p !in WorkFor(tx)
    ensures Quiet(After(db, tx), p)
  {
    if tx.PurgeTx? {
      InWithoutJobs(db.runs, PurgeableJobs(db, tx.now));
    } else {
      forall r' | r' in After(db, tx).runs && r'.key.printer == p ensures !Live(r') {
        if Live(r') {
          LiveOrigin(db, tx, r');
        }
      }
    }
  }

  lemma LiveOrigin(db: Db, tx: Tx, r': Run)
    requires Valid(db) && !tx.PurgeTx? && r' in After(db, tx).runs && Live(r')
    ensures r'.key.printer in WorkFor(tx) || exists r :: r in db.runs && r.key.printer == r'.key.printer && Live(r)
  {
    assert Sorted(db.runs);
    hide Valid, NewRow, After, Live;
    var added := Effect(db, tx);
    if r' in added {
      FreshWork(db, tx, r');
    } else {
      var r := MappedRow(x => NewRow(db, tx, x), db.runs, r');
      NewRowKeepsKey(db, tx, r);
      RowsSound(db, r);
      if tx.MarkTx? {
        MarkedWasLive(db, tx, r);
      } else {
        LiveBefore(db, tx, r);
      }
    }
  }

  // ---- the lock ----

  lemma ActKeepsHouse(h: House, a: Act)
    requires HouseOk(h) && Allowed(h, a)
    ensures HouseOk(AfterAct(h, a))
  {
    hide Valid, Quiet, After, HasLiveRun;
    match a
    case CommitWork(i, tx) =>
      CommitKeepsValid(h.db, tx);
      forall p | p in h.retired ensures Quiet(After(h.db, tx), p) {
        QuietKept(h.db, tx, p);
      }
    case Background(tx) =>
      CommitKeepsValid(h.db, tx);
      forall p | Quiet(h.db, p) ensures Quiet(After(h.db, tx), p) {
        QuietKept(h.db, tx, p);
      }
    case CheckActive =>
      NothingLive(h.db, h.removal.value.printer);
    case _ =>
  }

  lemma NothingLive(db: Db, p: PrinterId)
    ensures HasLiveRun(db, p) <==> !Quiet(db, p)
  {
  }

  ghost predicate Unfolds(h: House, acts: seq<Act>)
    decreases |acts|
  {
    acts == [] || (Allowed(h, acts[0]) && Unfolds(AfterAct(h, acts[0]), acts[1..]))
  }

  ghost function Future(h: House, acts: seq<Act>): House
    requires Unfolds(h, acts)
    decreases |acts|
  {
    if acts == [] then h else Future(AfterAct(h, acts[0]), acts[1..])
  }

  const EmptyHouse := House(EmptyDb, {}, {}, map[], None)

  // In every interleaving of acceptances, reprints, retry creation, printing and removal, a
  // retired printer has no queued, processing or retry-pending run.
  lemma {:induction false} RetiredPrintersAreIdle(h: House, acts: seq<Act>, r: Run)
    requires HouseOk(h) && Unfolds(h, acts) && r in Future(h, acts).db.runs && r.key.printer in Future(h, acts).retired
    ensures !Live(r)
    decreases |acts|
  {
    if acts != [] {
      ActKeepsHouse(h, acts[0]);
      hide HouseOk, Allowed, AfterAct;
      RetiredPrintersAreIdle(AfterAct(h, acts[0]), acts[1..], r);
    }
  }

  lemma EmptyHouseOk()
    ensures HouseOk(EmptyHouse)
  {
    EmptyIsValid();
  }

  // In particular from the start, where nothing is stored and nobody holds the lock.
  lemma RetiredFromTheStart(acts: seq<Act>, r: Run)
    requires Unfolds(EmptyHouse, acts) && r in Future(EmptyHouse, acts).db.runs
    requires r.key.printer in Future(EmptyHouse, acts).retired
    ensures !Live(r)
  {
    EmptyHouseOk();
    hide HouseOk, Unfolds, Future;
    RetiredPrintersAreIdle(EmptyHouse, acts, r);
  }

  // A removal that runs to its end retires its printer exactly when the printer exists and has no
  // queued, processing or retry-pending run at the check, and the retirement is stored; whatever else
  // happens between the check and the end changes nothing about that.
  lemma RemovalExactly(h: House, between: seq<Act>, stored: bool)
    requires HouseOk(h) && Allowed(h, CheckActive)
    requires Unfolds(AfterAct(h, CheckActive), between) && forall a | a in between :: a.Background?
    requires Future(AfterAct(h, CheckActive), between).removal.Some?
             && Allowed(Future(AfterAct(h, CheckActive), between), Retire(stored))
    ensures var p := h.removal.value.printer;
            var end := AfterAct(Future(AfterAct(h, CheckActive), between), Retire(stored));
            && p in h.existing
            && (forall r | r in h.db.runs && r.key.printer == p ::
                  r.status != Queued && r.status != Processing && !(r.status == Failed && r.retryable && r.resolution == Unresolved))
            && end.retired == (if stored then h.retired + {p} else h.retired)
            && end.existing == (if stored then h.existing - {p} else h.existing)
            && end.removal.None?
  {
    BackgroundKeepsHouse(AfterAct(h, CheckActive), between);
  }

  // Otherwise the check ends the removal.
  lemma RemovalRefused(h: House)
    requires Allowed(h, CheckActive)
    ensures var p := h.removal.value.printer;
            AfterAct(h, CheckActive).removal.Some? <==>
              p in h.existing
              && forall r | r in h.db.runs && r.key.printer == p ::
                   r.status != Queued && r.status != Processing && !(r.status == Failed && r.retryable && r.resolution == Unresolved)
  {
  }

  lemma {:induction false} BackgroundKeepsHouse(h: House, acts: seq<Act>)
    requires Unfolds(h, acts) && forall a | a in acts :: a.Background?
    ensures var e := Future(h, acts); e.existing == h.existing && e.retired == h.retired && e.removal == h.removal && e.readers == h.readers
    decreases |acts|
  {
    hide After;
    if acts != [] {
      assert acts[0] in acts;
      BackgroundKeepsHouse(AfterAct(h, acts[0]), acts[1..]);
    }
  }

  // Work for an existing printer gets in whenever no removal is under way, and is committed as it is;
  // a removal begins whenever nobody is inside.
  lemma WorkGetsIn(h: House, i: nat, p: PrinterId, tx: Tx)
    requires h.removal.None? && i !in h.readers && p in h.existing && !Unlocked(tx) && WorkFor(tx) <= {p}
    ensures var acts := [BeginAcceptance(i), CheckPrinter(i, p), CommitWork(i, tx), EndAcceptance(i)];
            Unfolds(h, acts) && Future(h, acts) == h.(db := After(h.db, tx))
    ensures forall q :: Allowed(h, BeginRemoval(q)) <==> h.readers == map[]
    ensures h.readers == map[] ==> Allowed(AfterAct(h, BeginRemoval(p)), CheckActive)
  {
    hide After, WorkFor, Unfolds, Future;
    var entered := h.(readers := h.readers[i := {}]);
    var inside := entered.(readers := entered.readers[i := {} + {p}]);
    var done := inside.(db := After(h.db, tx));
    var left := done.(readers := done.readers - {i});
    assert left.readers == h.readers;
    var end, commit, check := [EndAcceptance(i)], CommitWork(i, tx), CheckPrinter(i, p);
    assert end == [EndAcceptance(i)] + [] && [commit] + end == [commit, EndAcceptance(i)];
    assert [check] + [commit, EndAcceptance(i)] == [check, commit, EndAcceptance(i)];
    assert [BeginAcceptance(i)] + [check, commit, EndAcceptance(i)] == [BeginAcceptance(i), check, commit, EndAcceptance(i)];
    NoActs(left);
    ActFirst(done, EndAcceptance(i), []);
    ActFirst(inside, CommitWork(i, tx), [EndAcceptance(i)]);
    ActFirst(entered, CheckPrinter(i, p), [CommitWork(i, tx), EndAcceptance(i)]);
    ActFirst(h, BeginAcceptance(i), [CheckPrinter(i, p), CommitWork(i, tx), EndAcceptance(i)]);
  }

  lemma NoActs(h: House)
    ensures Unfolds(h, []) && Future(h, []) == h
  {
  }

  lemma ActFirst(h: House, a: Act, more: seq<Act>)
    requires Allowed(h, a) && Unfolds(AfterAct(h, a), more)
    ensures Unfolds(h, [a] + more) && Future(h, [a] + more) == Future(AfterAct(h, a), more)
  {
    hide Allowed, AfterAct;
    assert ([a] + more)[1..] == more;
  }
}
