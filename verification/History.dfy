// The shape of one target's history of runs, and what keeps it.
module History {
  import opened Domain
  import opened Schema
  import opened Transactions

  ghost predicate RowSound(r: Run) {
    && RowOk(r)
    && (r.resolution == ConfirmedPrinted ==> r.status == Uncertain)
    && (r.resolution != Unresolved ==> r.resolvedAt.Some?)
    && (r.status == Transmitted ==> r.transmittedAt.Some?)
    && (MayHavePrinted(r) ==> r.startedAt.Some?)
    && (Active(r) <==> r.finishedAt.None?)
  }

  // A run that the queue will never touch again except to answer a failure.
  ghost predicate Settled(r: Run) {
    !Active(r) && !r.retryable && (r.status == Uncertain ==> r.resolution != Unresolved)
  }

  // How run i continues the history before it.
  ghost predicate Follows(h: seq<Run>, i: nat)
    requires 0 < i < |h|
  {
    match h[i].trigger
    case Initial => false
    case AutomaticRetry =>
      h[i].previous == Some(h[i - 1].uid) && h[i].mode == h[i - 1].mode && h[i - 1].status == Failed
    case ManualReprint =>
      h[i].reprintOf == Some(h[0].uid)
  }

  ghost predicate Chained(h: seq<Run>) {
    && |h| > 0
    && h[0].trigger == Initial
    && (forall i | 0 <= i < |h| :: h[i].number == i + 1 && RowSound(h[i]))
    && (forall i | 0 < i < |h| :: Follows(h, i))
    && (forall i | 0 <= i < |h| :: Depth(h, i) <= MaxAutomaticRetries)
  }

  ghost predicate LatestOk(r: Run, cancelled: bool) {
    && (r.status == Failed ==> r.resolution == Unresolved)
    && (r.status == Uncertain ==> r.resolution != ReprintRequested)
    && (cancelled ==> !Live(r))
  }

  ghost predicate OnlyRetriesAfter(h: seq<Run>, i: nat) {
    forall j | i < j < |h| :: h[j].trigger == AutomaticRetry
  }

  // A retry leaves the failure it answers unresolved; only a manual reprint resolves failures.
  ghost predicate FailuresOk(h: seq<Run>) {
    forall i | 0 <= i < |h| && h[i].status == Failed :: h[i].resolution == Unresolved <==> OnlyRetriesAfter(h, i)
  }

  ghost predicate HistoryOk(h: seq<Run>, cancelled: bool) {
    && Chained(h)
    && (forall i | 0 <= i < |h| - 1 :: Settled(h[i]))
    && LatestOk(h[|h| - 1], cancelled)
    && FailuresOk(h)
  }

  lemma PlaceInHistory(h: seq<Run>, r: Run, cancelled: bool) returns (i: nat)
    requires HistoryOk(h, cancelled) && r in h
    ensures i < |h| && h[i] == r && r.number == i + 1 && RowSound(r)
    ensures i < |h| - 1 ==> Settled(r)
    ensures i == |h| - 1 ==> LatestOk(r, cancelled)
  {
    i :| 0 <= i < |h| && h[i] == r;
  }

  // Depth looks at triggers only.
  lemma {:induction false} DepthSame(h: seq<Run>, h': seq<Run>, i: nat)
    requires i < |h| && i < |h'|
    requires forall j | 0 <= j <= i :: h[j].trigger == h'[j].trigger
    ensures Depth(h', i) == Depth(h, i)
  {
    if i > 0 && h[i].trigger == AutomaticRetry {
      DepthSame(h, h', i - 1);
    }
  }

  // A row update that a transaction may make: identity kept, schema kept, settled rows stay
  // settled with the same status, and a good latest row stays good.
  ghost predicate UpdateSound(r: Run, r': Run, cancelled: bool, cancelled': bool) {
    && SameIdentity(r, r')
    && RowSound(r')
    && TransitionAllowed(r.status, r'.status)
    && (Settled(r) ==> Settled(r') && r'.status == r.status)
    && (LatestOk(r, cancelled) ==> LatestOk(r', cancelled'))
    && (r.status == Failed ==> r'.resolution == r.resolution)
  }

  lemma ChainKept(h: seq<Run>, h': seq<Run>)
    requires Chained(h) && |h'| == |h|
    requires forall i | 0 <= i < |h| :: SameIdentity(h[i], h'[i]) && RowSound(h'[i])
    requires forall i | 0 <= i < |h| - 1 :: h'[i].status == h[i].status
    ensures Chained(h')
  {
    forall i | 0 < i < |h| ensures Follows(h', i) {
      assert Follows(h, i);
    }
    forall i | 0 <= i < |h| ensures Depth(h', i) <= MaxAutomaticRetries {
      DepthSame(h, h', i);
    }
  }

  lemma UpdateKeepsHistory(h: seq<Run>, h': seq<Run>, cancelled: bool, cancelled': bool)
    requires HistoryOk(h, cancelled) && |h'| == |h|
    requires forall i | 0 <= i < |h| :: UpdateSound(h[i], h'[i], cancelled, cancelled')
    ensures HistoryOk(h', cancelled')
  {
    forall i | 0 <= i < |h| - 1 ensures h'[i].status == h[i].status {
      assert Settled(h[i]);
    }
    ChainKept(h, h');
    FailuresKept(h, h');
  }

  lemma FailuresKept(h: seq<Run>, h': seq<Run>)
    requires FailuresOk(h) && |h'| == |h|
    requires forall i | 0 <= i < |h| :: h'[i].trigger == h[i].trigger
    requires forall i | 0 <= i < |h| && h[i].status == Failed :: h'[i].resolution == h[i].resolution
    requires forall i | 0 <= i < |h| - 1 :: h'[i].status == h[i].status
    requires |h| > 0 && h'[|h| - 1].status == Failed ==> h'[|h| - 1].resolution == Unresolved
    ensures FailuresOk(h')
  {
    forall i | 0 <= i < |h'| && h'[i].status == Failed
      ensures h'[i].resolution == Unresolved <==> OnlyRetriesAfter(h', i)
    {
      assert OnlyRetriesAfter(h', i) <==> OnlyRetriesAfter(h, i);
    }
  }

  lemma FailuresAppend(h: seq<Run>, r: Run)
    requires r.trigger == AutomaticRetry ==> FailuresOk(h)
    requires r.trigger != AutomaticRetry ==> forall i | 0 <= i < |h| && h[i].status == Failed :: h[i].resolution != Unresolved
    requires r.status == Failed ==> r.resolution == Unresolved
    ensures FailuresOk(h + [r])
  {
    var h' := h + [r];
    forall i | 0 <= i < |h'| && h'[i].status == Failed
      ensures h'[i].resolution == Unresolved <==> OnlyRetriesAfter(h', i)
    {
      if i < |h| {
        assert h'[|h|] == r;
        assert forall j | i < j < |h| :: h'[j] == h[j];
        assert OnlyRetriesAfter(h', i) <==> OnlyRetriesAfter(h, i) && r.trigger == AutomaticRetry;
      }
    }
  }

  lemma AppendKeepsHistory(h: seq<Run>, r: Run, cancelled: bool)
    requires Chained(h) && forall i | 0 <= i < |h| :: Settled(h[i])
    requires FailuresOk(h + [r])
    requires r.number == |h| + 1 && RowSound(r) && LatestOk(r, cancelled)
    requires Follows(h + [r], |h|)
    requires r.trigger == AutomaticRetry ==> Depth(h, |h| - 1) < MaxAutomaticRetries
    ensures HistoryOk(h + [r], cancelled)
  {
    var h' := h + [r];
    forall i | 0 < i < |h'| ensures Follows(h', i) {
      if i < |h| {
        assert Follows(h, i);
      }
    }
    forall i | 0 <= i < |h'| ensures Depth(h', i) <= MaxAutomaticRetries {
      if i < |h| {
        DepthSame(h, h', i);
      } else {
        DepthSame(h, h', |h| - 1);
      }
    }
  }
}
