// DeriveJob, the SQL filter that recomputes its attention flag, and what stays true of a
// fulfilled target.
module Fulfilment {
  import opened Domain
  import opened Tables
  import opened Schema
  import opened Transactions
  import opened History
  import opened Invariant
  import opened Preservation
  import opened AcceptPurge
  import opened Effects
  import opened Chains

  datatype State = Completed | Printing | Waiting | AttentionRequired | PartiallyCompleted | AllCancelled

  datatype PrinterFulfillment = PrinterFulfillment(
    printer: PrinterId,
    fulfilled: bool,
    fulfilledAt: Option<Stamp>,
    cancelled: bool,
    retryPending: bool,
    latest: Option<Run>,
    runs: seq<Run>)

  datatype JobDetail = JobDetail(
    uid: Uid,
    updatedAt: Stamp,
    completedAt: Option<Stamp>,
    state: State,
    fulfilledCount: nat,
    originalCount: nat,
    partiallyFulfilled: bool,
    requiresAttention: bool,
    hasUncertain: bool,
    hasReprints: bool,
    reprintAttention: bool,
    printers: seq<PrinterFulfillment>)

  // ---- what the flags mean ----

  predicate AnyRun(h: seq<Run>, what: Run -> bool) {
    exists r | r in h :: what(r)
  }

  lemma AnyRunAppend(h: seq<Run>, r: Run, what: Run -> bool)
    ensures AnyRun(h + [r], what) == (AnyRun(h, what) || what(r))
  {
  }

  lemma NoRun()
    ensures forall what :: !AnyRun([], what)
    ensures forall k :: RunsOf([], k) == []
  {
  }

  predicate IsProcessing(r: Run) { r.status == Processing }

  predicate IsQueued(r: Run) { r.status == Queued || RetryPending(r) }

  predicate IsUncertain(r: Run) { r.status == Uncertain }

  predicate IsReprint(r: Run) { r.trigger == ManualReprint }

  predicate Fulfilled(h: seq<Run>) {
    AnyRun(h, Fulfils)
  }

  function FulfilmentStamp(r: Run): Option<Stamp> {
    var stamp := if r.status == Uncertain then r.resolvedAt else r.transmittedAt;
    if stamp.Some? then stamp else r.finishedAt
  }

  // The stamp of the first fulfilling run that has one.
  function FulfilledAt(h: seq<Run>): Option<Stamp> {
    if h == [] then None
    else
      var before := FulfilledAt(h[..|h| - 1]);
      if before.Some? then before
      else if Fulfils(h[|h| - 1]) then FulfilmentStamp(h[|h| - 1])
      else None
  }

  // A marked run whose result nobody has answered.
  predicate UnansweredReprint(r: Run) {
    r.mode == Reprint && (r.status == Failed || r.status == Uncertain) && r.resolution == Unresolved && !r.retryable
  }

  predicate Cancelled(t: NewTarget) {
    t.target.cancelledAt.Some?
  }

  function Fulfillment(t: NewTarget, h: seq<Run>): PrinterFulfillment {
    PrinterFulfillment(
      t.key.printer, Fulfilled(h), FulfilledAt(h), Cancelled(t),
      AnyRun(h, RetryPending),
      if h == [] then None else Some(h[|h| - 1]), h)
  }

  // ---- the flags of one target ----

  predicate OpenProcessing(h: seq<Run>) {
    !Fulfilled(h) && AnyRun(h, IsProcessing)
  }

  predicate OpenQueued(h: seq<Run>) {
    !Fulfilled(h) && AnyRun(h, IsQueued)
  }

  predicate OpenAttention(t: NewTarget, h: seq<Run>) {
    !Fulfilled(h) && !Cancelled(t) && AnyRun(h, Unanswered)
  }

  predicate ReprintAttention(h: seq<Run>) {
    AnyRun(h, UnansweredReprint)
  }

  // ---- the flags of the job ----

  function CountFulfilled(runs: seq<Run>, ts: seq<NewTarget>): (n: nat)
    ensures n <= |ts|
  {
    if ts == [] then 0
    else CountFulfilled(runs, ts[..|ts| - 1])
         + (if Fulfilled(RunsOf(runs, ts[|ts| - 1].key)) then 1 else 0)
  }

  // The fulfilment instants of the targets that have one.
  function Times(runs: seq<Run>, ts: seq<NewTarget>): seq<Stamp> {
    if ts == [] then []
    else
      var at := FulfilledAt(RunsOf(runs, ts[|ts| - 1].key));
      Times(runs, ts[..|ts| - 1]) + (if at.Some? then [at.value] else [])
  }

  function Newest(times: seq<Stamp>): Option<Stamp> {
    if times == [] then None
    else
      var before, last := Newest(times[..|times| - 1]), times[|times| - 1];
      if before.None? || last > before.value then Some(last) else before
  }

  ghost predicate AnyProcessing(runs: seq<Run>, ts: seq<NewTarget>) {
    exists t :: t in ts && OpenProcessing(RunsOf(runs, t.key))
  }

  ghost predicate AnyQueued(runs: seq<Run>, ts: seq<NewTarget>) {
    exists t :: t in ts && OpenQueued(RunsOf(runs, t.key))
  }

  ghost predicate AnyAttention(runs: seq<Run>, ts: seq<NewTarget>) {
    exists t :: t in ts && OpenAttention(t, RunsOf(runs, t.key))
  }

  ghost predicate AnyReprintAttention(runs: seq<Run>, ts: seq<NewTarget>) {
    exists t :: t in ts && ReprintAttention(RunsOf(runs, t.key))
  }

  ghost predicate AnyUncertain(runs: seq<Run>, ts: seq<NewTarget>) {
    exists t :: t in ts && AnyRun(RunsOf(runs, t.key), IsUncertain)
  }

  ghost predicate AnyReprint(runs: seq<Run>, ts: seq<NewTarget>) {
    exists t :: t in ts && AnyRun(RunsOf(runs, t.key), IsReprint)
  }

  ghost predicate AllOpenCancelled(runs: seq<Run>, ts: seq<NewTarget>) {
    forall t | t in ts && !Fulfilled(RunsOf(runs, t.key)) :: Cancelled(t)
  }

  ghost predicate AllDone(runs: seq<Run>, ts: seq<NewTarget>) {
    ts != [] && forall t | t in ts :: Fulfilled(RunsOf(runs, t.key))
  }

  // DeriveJob falls through to its last branch.
  ghost predicate Stuck(runs: seq<Run>, ts: seq<NewTarget>) {
    && !AllDone(runs, ts) && !AnyProcessing(runs, ts) && !AnyQueued(runs, ts)
    && !AnyAttention(runs, ts) && !AllOpenCancelled(runs, ts)
  }

  ghost function StateOf(runs: seq<Run>, ts: seq<NewTarget>): State {
    if AllDone(runs, ts) then Completed
    else if AnyProcessing(runs, ts) then Printing
    else if AnyQueued(runs, ts) then Waiting
    else if AnyAttention(runs, ts) then AttentionRequired
    else if !AllOpenCancelled(runs, ts) then AttentionRequired
    else if exists t :: t in ts && Fulfilled(RunsOf(runs, t.key)) then PartiallyCompleted
    else AllCancelled
  }

  // ---- every instant of the history ----

  function MomentOf(s: Option<Stamp>): set<Stamp> {
    if s.Some? then {s.value} else {}
  }

  function Moments(r: Run): set<Stamp> {
    {r.createdAt} + MomentOf(r.startedAt) + MomentOf(r.finishedAt) + MomentOf(r.resolvedAt)
  }

  function HistoryMoments(h: seq<Run>): set<Stamp> {
    if h == [] then {} else HistoryMoments(h[..|h| - 1]) + Moments(h[|h| - 1])
  }

  function JobMoments(job: Job, runs: seq<Run>, ts: seq<NewTarget>): set<Stamp> {
    if ts == [] then {job.createdAt}
    else
      var t := ts[|ts| - 1];
      JobMoments(job, runs, ts[..|ts| - 1]) + MomentOf(t.target.cancelledAt) + HistoryMoments(RunsOf(runs, t.key))
  }

  ghost predicate Latest(u: Stamp, s: set<Stamp>) {
    u in s && forall x | x in s :: x <= u
  }

  // ---- the derivation ----

  method Later(updated: Stamp, s: Option<Stamp>, ghost seen: set<Stamp>) returns (u: Stamp)
    requires Latest(updated, seen)
    ensures Latest(u, seen + MomentOf(s))
  {
    u := if s.Some? && s.value > updated then s.value else updated;
  }

  method LaterRun(updated: Stamp, run: Run, ghost seen: set<Stamp>) returns (u: Stamp)
    requires Latest(updated, seen)
    ensures Latest(u, seen + Moments(run))
  {
    u := Later(updated, Some(run.createdAt), seen);
    u := Later(u, run.startedAt, seen + {run.createdAt});
    u := Later(u, run.finishedAt, seen + {run.createdAt} + MomentOf(run.startedAt));
    u := Later(u, run.resolvedAt, seen + {run.createdAt} + MomentOf(run.startedAt) + MomentOf(run.finishedAt));
    assert seen + Moments(run)
        == seen + {run.createdAt} + MomentOf(run.startedAt) + MomentOf(run.finishedAt) + MomentOf(run.resolvedAt);
  }

  lemma OneMoreRun(h: seq<Run>, r: Run, seen: set<Stamp>)
    ensures seen + HistoryMoments(h + [r]) == seen + HistoryMoments(h) + Moments(r)
    ensures FulfilledAt(h + [r])
         == if FulfilledAt(h).Some? || !Fulfils(r) then FulfilledAt(h) else FulfilmentStamp(r)
  {
    assert (h + [r])[..|h|] == h;
  }

  lemma NoMoments(seen: set<Stamp>)
    ensures seen + HistoryMoments([]) == seen && FulfilledAt([]).None?
  {
  }

  // The first pass over one target's runs.
  method Survey(h: seq<Run>, updated: Stamp, ghost seen: set<Stamp>)
    returns (fulfilled: bool, at: Option<Stamp>, retryPending: bool, uncertain: bool, reprints: bool,
             reprintAttention: bool, u: Stamp)
    requires Latest(updated, seen)
    ensures fulfilled == Fulfilled(h) && at == FulfilledAt(h)
    ensures retryPending == AnyRun(h, RetryPending)
    ensures uncertain == AnyRun(h, IsUncertain)
    ensures reprints == AnyRun(h, IsReprint)
    ensures reprintAttention == ReprintAttention(h)
    ensures Latest(u, seen + HistoryMoments(h))
  {
    hide AnyRun, Latest, Moments, HistoryMoments, FulfilledAt;
    NoMoments(seen);
    fulfilled, at, retryPending, uncertain, reprints, reprintAttention := false, None, false, false, false, false;
    u := updated;
    NoRun();
    assert h[..0] == [];
    for i := 0 to |h|
      invariant fulfilled == Fulfilled(h[..i]) && at == FulfilledAt(h[..i])
      invariant retryPending == AnyRun(h[..i], RetryPending)
      invariant uncertain == AnyRun(h[..i], IsUncertain)
      invariant reprints == AnyRun(h[..i], IsReprint)
      invariant reprintAttention == ReprintAttention(h[..i])
      invariant Latest(u, seen + HistoryMoments(h[..i]))
    {
      var run := h[i];
      assert h[..i + 1] == h[..i] + [run];
      OneMoreRun(h[..i], run, seen);
      u := LaterRun(u, run, seen + HistoryMoments(h[..i]));
      AnyRunAppend(h[..i], run, Fulfils);
      AnyRunAppend(h[..i], run, RetryPending);
      AnyRunAppend(h[..i], run, IsUncertain);
      AnyRunAppend(h[..i], run, IsReprint);
      AnyRunAppend(h[..i], run, UnansweredReprint);
      if Fulfils(run) {
        fulfilled := true;
        if at.None? {
          var stamp := run.transmittedAt;
          if run.status == Uncertain {
            stamp := run.resolvedAt;
          }
          if stamp.None? {
            stamp := run.finishedAt;
          }
          at := stamp;
        }
      }
      if run.status == Uncertain {
        uncertain := true;
      }
      if run.trigger == ManualReprint {
        reprints := true;
      }
      if run.status == Failed && run.retryable && run.resolution == Unresolved {
        retryPending := true;
      }
      if run.mode == Reprint && (run.status == Failed || run.status == Uncertain)
         && run.resolution == Unresolved && !run.retryable
      {
        reprintAttention := true;
      }
    }
    assert h[..|h|] == h;
  }

  // The second pass, over the runs of an unfulfilled target.
  method Pending(t: NewTarget, h: seq<Run>) returns (processing: bool, queued: bool, attention: bool)
    requires !Fulfilled(h)
    ensures processing == OpenProcessing(h) && queued == OpenQueued(h) && attention == OpenAttention(t, h)
  {
    hide AnyRun;
    processing, queued, attention := false, false, false;
    NoRun();
    assert h[..0] == [];
    for i := 0 to |h|
      invariant processing == AnyRun(h[..i], IsProcessing)
      invariant queued == AnyRun(h[..i], IsQueued)
      invariant attention == (!Cancelled(t) && AnyRun(h[..i], Unanswered))
    {
      var run := h[i];
      assert h[..i + 1] == h[..i] + [run];
      AnyRunAppend(h[..i], run, IsProcessing);
      AnyRunAppend(h[..i], run, IsQueued);
      AnyRunAppend(h[..i], run, Unanswered);
      match run.status {
        case Processing => processing := true;
        case Queued => queued := true;
        case Failed =>
          if run.retryable && run.resolution == Unresolved {
            queued := true;
          } else if run.resolution == Unresolved && !Cancelled(t) {
            attention := true;
          }
        case Uncertain =>
          if run.resolution == Unresolved && !Cancelled(t) {
            attention := true;
          }
        case _ =>
      }
    }
    assert h[..|h|] == h;
  }

  // byPrinter: the runs of each printer in the order they were given.
  method GroupByPrinter(uid: Uid, runs: seq<Run>) returns (groups: map<PrinterId, seq<Run>>)
    requires forall r | r in runs :: r.key.job == uid
    ensures forall p :: (if p in groups then groups[p] else []) == RunsOf(runs, Key(uid, p))
  {
    hide RunsOf;
    groups := map[];
    NoRun();
    assert runs[..0] == [];
    for i := 0 to |runs|
      invariant forall p :: (if p in groups then groups[p] else []) == RunsOf(runs[..i], Key(uid, p))
    {
      var run := runs[i];
      var p := run.key.printer;
      assert run in runs && run.key == Key(uid, p);
      assert runs[..i + 1] == runs[..i] + [run];
      forall q ensures RunsOf(runs[..i + 1], Key(uid, q))
                    == RunsOf(runs[..i], Key(uid, q)) + (if q == p then [run] else [])
      {
        RunsOfAppended(runs[..i], run, Key(uid, q));
      }
      groups := groups[p := (if p in groups then groups[p] else []) + [run]];
    }
    assert runs[..|runs|] == runs;
  }

  // The flags that the outer loop accumulates.
  datatype Flags = Flags(processing: bool, queued: bool, attention: bool, allCancelled: bool,
                         uncertain: bool, reprints: bool, marked: bool)

  ghost function FlagsOf(runs: seq<Run>, ts: seq<NewTarget>): Flags {
    Flags(AnyProcessing(runs, ts), AnyQueued(runs, ts), AnyAttention(runs, ts), AllOpenCancelled(runs, ts),
          AnyUncertain(runs, ts), AnyReprint(runs, ts), AnyReprintAttention(runs, ts))
  }

  ghost function Seen(f: Flags, t: NewTarget, h: seq<Run>): Flags {
    Flags(f.processing || OpenProcessing(h), f.queued || OpenQueued(h), f.attention || OpenAttention(t, h),
          f.allCancelled && (Fulfilled(h) || Cancelled(t)), f.uncertain || AnyRun(h, IsUncertain),
          f.reprints || AnyRun(h, IsReprint), f.marked || ReprintAttention(h))
  }

  lemma NoFlags(runs: seq<Run>)
    ensures FlagsOf(runs, []) == Flags(false, false, false, true, false, false, false)
  {
  }

  lemma FlagsAppend(runs: seq<Run>, ts: seq<NewTarget>, t: NewTarget)
    ensures var h, f := RunsOf(runs, t.key), FlagsOf(runs, ts);
            FlagsOf(runs, ts + [t]) == Seen(f, t, h)
  {
    hide RunsOf, AnyRun, Fulfilled, OpenProcessing, OpenQueued, OpenAttention, ReprintAttention;
    assert t in ts + [t] && forall x :: x in ts + [t] <==> x in ts || x == t;
  }

  lemma NoTargets(job: Job, runs: seq<Run>)
    ensures CountFulfilled(runs, []) == 0 && Times(runs, []) == [] && JobMoments(job, runs, []) == {job.createdAt}
  {
  }

  // The accumulators of the outer loop after the targets in ts.
  ghost predicate Folded(job: Job, runs: seq<Run>, ts: seq<NewTarget>, count: nat, times: seq<Stamp>, flags: Flags,
                         updated: Stamp)
  {
    && count == CountFulfilled(runs, ts) && times == Times(runs, ts) && flags == FlagsOf(runs, ts)
    && Latest(updated, JobMoments(job, runs, ts))
  }

  lemma FoldedEmpty(job: Job, runs: seq<Run>)
    ensures Folded(job, runs, [], 0, [], Flags(false, false, false, true, false, false, false), job.createdAt)
  {
    NoTargets(job, runs);
    NoFlags(runs);
  }

  lemma FoldedLatest(job: Job, runs: seq<Run>, ts: seq<NewTarget>, count: nat, times: seq<Stamp>, flags: Flags,
                     updated: Stamp)
    requires Folded(job, runs, ts, count, times, flags, updated)
    ensures Latest(updated, JobMoments(job, runs, ts))
  {
  }

  lemma FoldedNext(job: Job, runs: seq<Run>, ts: seq<NewTarget>, t: NewTarget, count: nat, times: seq<Stamp>,
                   flags: Flags, updated: Stamp, updated': Stamp)
    requires Folded(job, runs, ts, count, times, flags, updated)
    requires Latest(updated', JobMoments(job, runs, ts) + MomentOf(t.target.cancelledAt)
                              + HistoryMoments(RunsOf(runs, t.key)))
    ensures var h := RunsOf(runs, t.key);
            var at := FulfilledAt(h);
            Folded(job, runs, ts + [t], count + (if Fulfilled(h) then 1 else 0),
                   if at.Some? then times + [at.value] else times, Seen(flags, t, h), updated')
  {
    FlagsAppend(runs, ts, t);
    hide FlagsOf, Seen, Latest, HistoryMoments, MomentOf, FulfilledAt, Fulfilled, RunsOf;
    assert (ts + [t])[..|ts|] == ts;
  }

  method Newer(times: seq<Stamp>) returns (completed: Option<Stamp>)
    ensures completed == Newest(times)
  {
    completed := None;
    for i := 0 to |times|
      invariant completed == Newest(times[..i])
    {
      assert times[..i + 1][..i] == times[..i];
      if completed.None? || times[i] > completed.value {
        completed := Some(times[i]);
      }
    }
    assert times[..|times|] == times;
  }

  // What the second pass adds for an unfulfilled target, after the first pass's flags.
  lemma SeenOpen(flags: Flags, t: NewTarget, h: seq<Run>, f: Flags)
    requires !Fulfilled(h)
    requires f == flags.(allCancelled := flags.allCancelled && Cancelled(t), processing := flags.processing || OpenProcessing(h),
                         queued := flags.queued || OpenQueued(h), attention := flags.attention || OpenAttention(t, h),
                         uncertain := flags.uncertain || AnyRun(h, IsUncertain), reprints := flags.reprints || AnyRun(h, IsReprint),
                         marked := flags.marked || ReprintAttention(h))
    ensures f == Seen(flags, t, h)
  {
    hide AnyRun, Fulfilled, OpenProcessing, OpenQueued, OpenAttention, ReprintAttention, Cancelled;
  }

  lemma SeenFulfilled(flags: Flags, t: NewTarget, h: seq<Run>, f: Flags)
    requires Fulfilled(h)
    requires f == flags.(uncertain := flags.uncertain || AnyRun(h, IsUncertain), reprints := flags.reprints || AnyRun(h, IsReprint),
                         marked := flags.marked || ReprintAttention(h))
    ensures f == Seen(flags, t, h)
  {
    hide AnyRun, Fulfilled, ReprintAttention, Cancelled;
    NotOpen(t, h);
    hide OpenProcessing, OpenQueued, OpenAttention;
  }

  // One target's share of the outer loop.
  method Visit(t: NewTarget, h: seq<Run>, flags: Flags, updated: Stamp, ghost seen: set<Stamp>)
    returns (p: PrinterFulfillment, f: Flags, u: Stamp)
    requires Latest(updated, seen)
    ensures p == Fulfillment(t, h)
    ensures f == Seen(flags, t, h)
    ensures Latest(u, seen + MomentOf(t.target.cancelledAt) + HistoryMoments(h))
  {
    hide AnyRun, Latest, HistoryMoments, MomentOf, FulfilledAt, Fulfilled, Seen, OpenProcessing, OpenQueued, OpenAttention;
    hide ReprintAttention, Cancelled;
    u := Later(updated, t.target.cancelledAt, seen);
    var fulfilled, at, retryPending, uncertain, reprints, marked;
    fulfilled, at, retryPending, uncertain, reprints, marked, u := Survey(h, u, seen + MomentOf(t.target.cancelledAt));
    f := flags.(uncertain := flags.uncertain || uncertain, reprints := flags.reprints || reprints,
                marked := flags.marked || marked);
    if fulfilled {
      SeenFulfilled(flags, t, h, f);
    } else {
      var processing, queued, attention := Pending(t, h);
      f := f.(allCancelled := f.allCancelled && Cancelled(t), processing := f.processing || processing,
              queued := f.queued || queued, attention := f.attention || attention);
      SeenOpen(flags, t, h, f);
    }
    p := PrinterFulfillment(t.key.printer, fulfilled, at, Cancelled(t), retryPending,
                            if h == [] then None else Some(h[|h| - 1]), h);
  }

  // The outer loop.
  method FoldTargets(uid: Uid, job: Job, ts: seq<NewTarget>, ghost runs: seq<Run>, groups: map<PrinterId, seq<Run>>)
    returns (printers: seq<PrinterFulfillment>, count: nat, times: seq<Stamp>, flags: Flags, updated: Stamp)
    requires forall p :: (if p in groups then groups[p] else []) == RunsOf(runs, Key(uid, p))
    requires forall t | t in ts :: t.key.job == uid
    ensures |printers| == |ts|
    ensures forall i | 0 <= i < |ts| :: printers[i] == Fulfillment(ts[i], RunsOf(runs, ts[i].key))
    ensures Folded(job, runs, ts, count, times, flags, updated)
  {
    hide RunsOf, Latest, HistoryMoments, MomentOf, JobMoments, Folded, Seen, Fulfilled, FulfilledAt;
    FoldedEmpty(job, runs);
    printers, times := [], [];
    count, updated := 0, job.createdAt;
    flags := Flags(false, false, false, true, false, false, false);
    ghost var done: seq<NewTarget> := [];
    for i := 0 to |ts|
      invariant |printers| == |done| == i && done == ts[..i]
      invariant forall j | 0 <= j < i :: printers[j] == Fulfillment(ts[j], RunsOf(runs, ts[j].key))
      invariant Folded(job, runs, done, count, times, flags, updated)
    {
      var t := ts[i];
      assert t in ts && t.key == Key(uid, t.key.printer);
      var h := if t.key.printer in groups then groups[t.key.printer] else [];
      FoldedLatest(job, runs, done, count, times, flags, updated);
      var p, f, u := Visit(t, h, flags, updated, JobMoments(job, runs, done));
      FoldedNext(job, runs, done, t, count, times, flags, updated, u);
      if p.fulfilled {
        count := count + 1;
      }
      if p.fulfilledAt.Some? {
        times := times + [p.fulfilledAt.value];
      }
      flags, updated, printers, done := f, u, printers + [p], done + [t];
    }
    assert done == ts;
  }

  // DeriveJob: folds the targets of one job and their runs into what the API shows.
  method DeriveJob(uid: Uid, job: Job, ts: seq<NewTarget>, runs: seq<Run>) returns (d: JobDetail)
    requires forall r | r in runs :: r.key.job == uid
    requires forall t | t in ts :: t.key.job == uid
    ensures d.uid == uid && d.originalCount == |ts| && |d.printers| == |ts|
    ensures forall i | 0 <= i < |ts| :: d.printers[i] == Fulfillment(ts[i], RunsOf(runs, ts[i].key))
    ensures d.fulfilledCount == CountFulfilled(runs, ts)
    ensures d.partiallyFulfilled == (0 < d.fulfilledCount < d.originalCount)
    ensures d.state == StateOf(runs, ts)
    ensures d.requiresAttention == (AnyAttention(runs, ts) || AnyReprintAttention(runs, ts) || Stuck(runs, ts))
    ensures d.hasUncertain == AnyUncertain(runs, ts) && d.hasReprints == AnyReprint(runs, ts)
    ensures d.reprintAttention == AnyReprintAttention(runs, ts)
    ensures d.completedAt == if d.state == Completed then Newest(Times(runs, ts)) else None
    ensures Latest(d.updatedAt, JobMoments(job, runs, ts))
  {
    hide Latest, JobMoments, FlagsOf, StateOf, Stuck, AnyProcessing, AnyQueued, AnyAttention, AnyUncertain, AnyReprint;
    hide AnyReprintAttention, Times, Newest, CountFulfilled, Fulfilled, RunsOf, Fulfillment;
    var groups := GroupByPrinter(uid, runs);
    var printers, count, times, flags, updated := FoldTargets(uid, job, ts, runs, groups);
    CountIsAll(runs, ts);
    d := Conclude(uid, updated, count, printers, times, flags, runs, ts);
  }

  // The switch that names the job's state.
  method Conclude(uid: Uid, updated: Stamp, count: nat, printers: seq<PrinterFulfillment>, times: seq<Stamp>,
                  flags: Flags, ghost runs: seq<Run>, ghost ts: seq<NewTarget>) returns (d: JobDetail)
    requires |printers| == |ts| && flags == FlagsOf(runs, ts) && count <= |ts|
    requires count == |ts| <==> forall t | t in ts :: Fulfilled(RunsOf(runs, t.key))
    requires count > 0 <==> exists t :: t in ts && Fulfilled(RunsOf(runs, t.key))
    ensures d.uid == uid && d.updatedAt == updated && d.fulfilledCount == count && d.originalCount == |printers|
    ensures d.printers == printers && d.partiallyFulfilled == (0 < count < |printers|)
    ensures d.state == StateOf(runs, ts)
    ensures d.requiresAttention == (AnyAttention(runs, ts) || AnyReprintAttention(runs, ts) || Stuck(runs, ts))
    ensures d.hasUncertain == AnyUncertain(runs, ts) && d.hasReprints == AnyReprint(runs, ts)
    ensures d.reprintAttention == AnyReprintAttention(runs, ts)
    ensures d.completedAt == if d.state == Completed then Newest(times) else None
  {
    hide AnyProcessing, AnyQueued, AnyAttention, AllOpenCancelled, AnyUncertain, AnyReprint, AnyReprintAttention, RunsOf, Fulfilled;
    d := JobDetail(uid, updated, None, AllCancelled, count, |printers|, 0 < count < |printers|,
                   flags.attention || flags.marked, flags.uncertain, flags.reprints, flags.marked, printers);
    if |printers| > 0 && count == |printers| {
      var completed := Newer(times);
      d := d.(state := Completed, completedAt := completed);
    } else if flags.processing {
      d := d.(state := Printing);
    } else if flags.queued {
      d := d.(state := Waiting);
    } else if flags.attention {
      d := d.(state := AttentionRequired);
    } else if count > 0 && flags.allCancelled {
      d := d.(state := PartiallyCompleted);
    } else if count == 0 && flags.allCancelled {
      d := d.(state := AllCancelled);
    } else {
      d := d.(state := AttentionRequired, requiresAttention := true);
    }
  }

  lemma NotOpen(t: NewTarget, h: seq<Run>)
    requires Fulfilled(h)
    ensures !OpenProcessing(h) && !OpenQueued(h) && !OpenAttention(t, h)
  {
  }

  ghost predicate EachFulfilled(runs: seq<Run>, ts: seq<NewTarget>) {
    forall t | t in ts :: Fulfilled(RunsOf(runs, t.key))
  }

  ghost predicate SomeFulfilled(runs: seq<Run>, ts: seq<NewTarget>) {
    exists t :: t in ts && Fulfilled(RunsOf(runs, t.key))
  }

  lemma OneMoreTarget(runs: seq<Run>, front: seq<NewTarget>, t: NewTarget)
    ensures EachFulfilled(runs, front + [t]) <==> EachFulfilled(runs, front) && Fulfilled(RunsOf(runs, t.key))
    ensures SomeFulfilled(runs, front + [t]) <==> SomeFulfilled(runs, front) || Fulfilled(RunsOf(runs, t.key))
  {
    hide Fulfilled, RunsOf;
    assert forall x :: x in front + [t] <==> x in front || x == t;
  }

  lemma NoTargetFulfilled(runs: seq<Run>)
    ensures EachFulfilled(runs, []) && !SomeFulfilled(runs, [])
  {
  }

  lemma {:induction false} CountSays(runs: seq<Run>, ts: seq<NewTarget>)
    ensures CountFulfilled(runs, ts) == |ts| <==> EachFulfilled(runs, ts)
    ensures CountFulfilled(runs, ts) > 0 <==> SomeFulfilled(runs, ts)
  {
    hide Fulfilled, RunsOf, EachFulfilled, SomeFulfilled;
    if ts == [] {
      NoTargetFulfilled(runs);
    } else {
      var front, last := ts[..|ts| - 1], ts[|ts| - 1];
      CountSays(runs, front);
      OneMoreTarget(runs, front, last);
      assert ts == front + [last];
    }
  }

  lemma CountIsAll(runs: seq<Run>, ts: seq<NewTarget>)
    ensures CountFulfilled(runs, ts) == |ts| <==> forall t | t in ts :: Fulfilled(RunsOf(runs, t.key))
    ensures CountFulfilled(runs, ts) > 0 <==> exists t :: t in ts && Fulfilled(RunsOf(runs, t.key))
  {
    hide Fulfilled, RunsOf, CountFulfilled;
    CountSays(runs, ts);
  }

  // ---- the SQL filter ----

  // ListJobDetails' attention predicate.
  ghost predicate SqlAttention(db: Db, uid: Uid) {
    exists r :: r in db.runs && r.key.job == uid && SqlCounts(db, r)
  }

  ghost predicate SqlCounts(db: Db, r: Run) {
    && r.resolution == Unresolved
    && (r.status == Uncertain || (r.status == Failed && !r.retryable))
    && (r.mode == Reprint
        || (!(exists ok :: ok in db.runs && ok.key == r.key && Fulfils(ok))
            && !(r.key in db.targets && db.targets[r.key].cancelledAt.Some?)))
  }

  // What GetDetail reads: the job's targets in target order, of which no two are equal, and its
  // runs such that each printer's come in run-number order.
  ghost predicate Selected(db: Db, uid: Uid, ts: seq<NewTarget>, runs: seq<Run>) {
    && InOrder(ts)
    && (forall t | t in ts :: t.key.job == uid && t.key in db.targets && db.targets[t.key] == t.target)
    && (forall k | k in db.targets && k.job == uid :: NewTarget(k, db.targets[k]) in ts)
    && (forall r :: r in runs <==> r in db.runs && r.key.job == uid)
    && (forall i, j | 0 <= i < j < |runs| && runs[i].key == runs[j].key :: runs[i].number < runs[j].number)
  }

  ghost predicate InOrder(ts: seq<NewTarget>) {
    forall i, j | 0 <= i < j < |ts| :: ts[i].target.order < ts[j].target.order
  }

  ghost predicate Increasing(h: seq<Run>) {
    forall i, j | 0 <= i < j < |h| :: h[i].number < h[j].number
  }

  lemma {:induction false} RunsOfIncreasing(runs: seq<Run>, k: Key)
    requires forall i, j | 0 <= i < j < |runs| && runs[i].key == runs[j].key :: runs[i].number < runs[j].number
    ensures Increasing(RunsOf(runs, k))
  {
    if runs != [] {
      var front, last := runs[..|runs| - 1], runs[|runs| - 1];
      RunsOfIncreasing(front, k);
      InRunsOf(front, k);
      forall r | r in RunsOf(front, k) && last.key == k ensures r.number < last.number {
        var i :| 0 <= i < |front| && front[i] == r;
        assert runs[i] == r;
      }
    }
  }

  lemma SomeMember(b: seq<Run>)
    requires b != []
    ensures exists r :: r in b
  {
    assert b[0] in b;
  }

  // The last row of an increasing listing is the one with the highest number.
  lemma LastIsHighest(a: seq<Run>, r: Run)
    requires Increasing(a) && r in a && forall x | x in a :: x.number <= r.number
    ensures a[|a| - 1] == r
  {
    var i :| 0 <= i < |a| && a[i] == r;
    assert a[|a| - 1] in a;
  }

  lemma LastIsMax(a: seq<Run>)
    requires Increasing(a) && a != []
    ensures a[|a| - 1] in a && forall x | x in a :: x.number <= a[|a| - 1].number
  {
  }

  lemma ButLast(a: seq<Run>)
    requires Increasing(a) && a != []
    ensures Increasing(a[..|a| - 1])
    ensures forall r :: r in a[..|a| - 1] <==> r in a && r != a[|a| - 1]
  {
    assert a == a[..|a| - 1] + [a[|a| - 1]];
  }

  // Two increasing listings of the same rows are the same listing.
  lemma {:induction false} SameRowsSameList(a: seq<Run>, b: seq<Run>)
    requires Increasing(a) && Increasing(b) && forall r :: r in a <==> r in b
    ensures a == b
    decreases |a|
  {
    hide Increasing;
    if a == [] {
      if b != [] {
        SomeMember(b);
      }
    } else {
      SomeMember(a);
      LastIsMax(a);
      var x := a[|a| - 1];
      LastIsHighest(b, x);
      ButLast(a);
      ButLast(b);
      var a', b' := a[..|a| - 1], b[..|b| - 1];
      assert forall r :: r in a' <==> r in a && r != x;
      assert forall r :: r in b' <==> r in b && r != x;
      SameRowsSameList(a', b');
      assert a == a' + [x] && b == b' + [x];
    }
  }

  lemma HistoryIncreasing(h: seq<Run>, cancelled: bool)
    requires HistoryOk(h, cancelled)
    ensures Increasing(h)
  {
  }

  lemma SelectedHistory(db: Db, uid: Uid, ts: seq<NewTarget>, runs: seq<Run>, k: Key)
    requires Valid(db) && Selected(db, uid, ts, runs) && k in db.targets && k.job == uid
    ensures RunsOf(runs, k) == RunsOf(db.runs, k)
  {
    HistoryAt(db, k);
    RunsOfIncreasing(runs, k);
    HistoryIncreasing(RunsOf(db.runs, k), Cancelled?(db.targets, k));
    InRunsOf(runs, k);
    hide Valid, HistoryOk, RunsOf, Increasing;
    SameRowsSameList(RunsOf(runs, k), RunsOf(db.runs, k));
  }

  lemma AnyRunIn(h: seq<Run>, what: Run -> bool)
    ensures AnyRun(h, what) <==> exists r :: r in h && what(r)
  {
  }

  lemma RowIsSelected(db: Db, uid: Uid, ts: seq<NewTarget>, runs: seq<Run>, r: Run) returns (t: NewTarget)
    requires Valid(db) && Selected(db, uid, ts, runs) && r in db.runs && r.key.job == uid
    ensures t in ts && t.key == r.key && t.target == db.targets[r.key] && r.key in db.targets
    ensures RunsOf(runs, t.key) == RunsOf(db.runs, r.key) && r in RunsOf(db.runs, r.key)
    ensures RowSound(r)
  {
    RowKey(db, r);
    t := NewTarget(r.key, db.targets[r.key]);
    SelectedHistory(db, uid, ts, runs, r.key);
    InRunsOf(db.runs, r.key);
    var i := RowInHistory(db, r);
  }

  lemma FulfilledInTable(db: Db, k: Key)
    ensures Fulfilled(RunsOf(db.runs, k)) <==> exists ok :: ok in db.runs && ok.key == k && Fulfils(ok)
  {
    InRunsOf(db.runs, k);
    AnyRunIn(RunsOf(db.runs, k), Fulfils);
  }

  lemma SqlImpliesDerived(db: Db, uid: Uid, ts: seq<NewTarget>, runs: seq<Run>, r: Run)
    requires Valid(db) && Selected(db, uid, ts, runs)
    requires r in db.runs && r.key.job == uid && SqlCounts(db, r)
    ensures AnyAttention(runs, ts) || AnyReprintAttention(runs, ts)
  {
    var t := RowIsSelected(db, uid, ts, runs, r);
    hide Valid, Selected, RunsOf, AnyRun, Fulfilled;
    FulfilledInTable(db, r.key);
    AnyRunIn(RunsOf(db.runs, r.key), UnansweredReprint);
    AnyRunIn(RunsOf(db.runs, r.key), Unanswered);
  }

  lemma DerivedImpliesSql(db: Db, uid: Uid, ts: seq<NewTarget>, runs: seq<Run>, t: NewTarget, r: Run)
    requires Valid(db) && Selected(db, uid, ts, runs) && t in ts && r in RunsOf(runs, t.key)
    requires (OpenAttention(t, RunsOf(runs, t.key)) && Unanswered(r)) || UnansweredReprint(r)
    ensures SqlAttention(db, uid)
  {
    assert t.key in db.targets && t.key.job == uid && db.targets[t.key] == t.target;
    SelectedHistory(db, uid, ts, runs, t.key);
    hide Valid, Selected, RunsOf;
    InRunsOf(db.runs, t.key);
    FulfilledInTable(db, t.key);
    assert SqlCounts(db, r);
  }

  // The filter of the job list and the flag of the job agree, apart from DeriveJob's last branch.
  lemma AttentionAgrees(db: Db, uid: Uid, ts: seq<NewTarget>, runs: seq<Run>)
    requires Valid(db) && Selected(db, uid, ts, runs)
    ensures SqlAttention(db, uid) <==> AnyAttention(runs, ts) || AnyReprintAttention(runs, ts)
  {
    hide Valid, Selected, RunsOf, SqlCounts, AnyRun;
    if SqlAttention(db, uid) {
      var r :| r in db.runs && r.key.job == uid && SqlCounts(db, r);
      SqlImpliesDerived(db, uid, ts, runs, r);
    }
    if AnyAttention(runs, ts) {
      var t :| t in ts && OpenAttention(t, RunsOf(runs, t.key));
      AnyRunIn(RunsOf(runs, t.key), Unanswered);
      var r :| r in RunsOf(runs, t.key) && Unanswered(r);
      DerivedImpliesSql(db, uid, ts, runs, t, r);
    }
    if AnyReprintAttention(runs, ts) {
      var t :| t in ts && ReprintAttention(RunsOf(runs, t.key));
      AnyRunIn(RunsOf(runs, t.key), UnansweredReprint);
      var r :| r in RunsOf(runs, t.key) && UnansweredReprint(r);
      DerivedImpliesSql(db, uid, ts, runs, t, r);
    }
  }

  // GetDetail derives from what it reads. The flag it shows is the list's filter, apart from the
  // jobs that are stuck.
  method GetDetail(ghost db: Db, uid: Uid, job: Job, ts: seq<NewTarget>, runs: seq<Run>) returns (d: JobDetail)
    requires Valid(db) && Selected(db, uid, ts, runs)
    ensures d.uid == uid && d.state == StateOf(runs, ts)
    ensures d.requiresAttention <==> SqlAttention(db, uid) || Stuck(runs, ts)
  {
    AttentionAgrees(db, uid, ts, runs);
    assert forall r | r in runs :: r.key.job == uid;
    assert forall t | t in ts :: t.key.job == uid;
    hide Valid, Selected, SqlAttention, StateOf, Stuck, AnyAttention, AnyReprintAttention, JobMoments, Fulfillment, RunsOf;
    d := DeriveJob(uid, job, ts, runs);
  }

  lemma TargetHistory(db: Db, uid: Uid, ts: seq<NewTarget>, runs: seq<Run>, t: NewTarget)
    requires Valid(db) && Selected(db, uid, ts, runs) && t in ts
    ensures RunsOf(runs, t.key) == RunsOf(db.runs, t.key) && HistoryOk(RunsOf(db.runs, t.key), Cancelled(t))
  {
    SelectedHistory(db, uid, ts, runs, t.key);
    HistoryAt(db, t.key);
  }

  lemma HistoryIsSomething(h: seq<Run>, cancelled: bool)
    requires HistoryOk(h, cancelled)
    ensures h != []
  {
  }

  // An open target without work and without anything to answer had its latest run cancelled.
  lemma QuietHistoryIsCancelled(h: seq<Run>)
    requires HistoryOk(h, false)
    requires !Fulfilled(h) && !AnyRun(h, IsProcessing) && !AnyRun(h, IsQueued) && !AnyRun(h, Unanswered)
    ensures h[|h| - 1].status == Status.Cancelled
  {
    var r := h[|h| - 1];
    assert r in h;
    AnyRunIn(h, Fulfils);
    AnyRunIn(h, IsProcessing);
    AnyRunIn(h, IsQueued);
    AnyRunIn(h, Unanswered);
  }

  // DeriveJob's last branch is taken only because single runs were cancelled: some target is
  // neither fulfilled nor cancelled, and the latest run of each such target was.
  lemma StuckMeansRunsCancelled(db: Db, uid: Uid, ts: seq<NewTarget>, runs: seq<Run>)
    requires Valid(db) && Selected(db, uid, ts, runs) && Stuck(runs, ts)
    ensures exists t :: t in ts && !Fulfilled(RunsOf(db.runs, t.key)) && !Cancelled(t)
    ensures forall t | t in ts && !Fulfilled(RunsOf(db.runs, t.key)) && !Cancelled(t) ::
              var h := RunsOf(db.runs, t.key); h != [] && h[|h| - 1].status == Status.Cancelled
  {
    hide Valid, Selected, RunsOf, AnyRun, Fulfilled, HistoryOk;
    forall t | t in ts ensures RunsOf(runs, t.key) == RunsOf(db.runs, t.key)
                            && HistoryOk(RunsOf(db.runs, t.key), Cancelled(t))
    {
      TargetHistory(db, uid, ts, runs, t);
    }
    forall t | t in ts && !Fulfilled(RunsOf(db.runs, t.key)) && !Cancelled(t)
      ensures var h := RunsOf(db.runs, t.key); h != [] && h[|h| - 1].status == Status.Cancelled
    {
      assert !OpenProcessing(RunsOf(runs, t.key)) && !OpenQueued(RunsOf(runs, t.key));
      assert !OpenAttention(t, RunsOf(runs, t.key));
      HistoryIsSomething(RunsOf(db.runs, t.key), false);
      QuietHistoryIsCancelled(RunsOf(db.runs, t.key));
    }
    var t :| t in ts && !Fulfilled(RunsOf(runs, t.key)) && !Cancelled(t);
  }

  // ---- what the derived values mean ----

  // The target has produced its ticket: some run was transmitted, or confirmed by a person.
  ghost predicate Done(runs: seq<Run>, k: Key) {
    exists r :: r in RunsOf(runs, k) && (r.status == Transmitted || (r.status == Uncertain && r.resolution == ConfirmedPrinted))
  }

  ghost predicate AtWork(runs: seq<Run>, k: Key) {
    !Done(runs, k) && exists r :: r in RunsOf(runs, k) && r.status == Processing
  }

  ghost predicate InQueue(runs: seq<Run>, k: Key) {
    !Done(runs, k)
    && exists r :: r in RunsOf(runs, k) && (r.status == Queued || (r.status == Failed && r.retryable && r.resolution == Unresolved))
  }

  // Nobody has cancelled the target and no ticket has come out.
  ghost predicate Owing(runs: seq<Run>, t: NewTarget) {
    !Done(runs, t.key) && t.target.cancelledAt.None?
  }

  lemma DoneIs(runs: seq<Run>, k: Key)
    ensures Fulfilled(RunsOf(runs, k)) <==> Done(runs, k)
    ensures OpenProcessing(RunsOf(runs, k)) <==> AtWork(runs, k)
    ensures OpenQueued(RunsOf(runs, k)) <==> InQueue(runs, k)
  {
    hide RunsOf;
    AnyRunIn(RunsOf(runs, k), Fulfils);
    AnyRunIn(RunsOf(runs, k), IsProcessing);
    AnyRunIn(RunsOf(runs, k), IsQueued);
  }

  // The state of a job, each name with the one condition under which it is given.
  lemma StateMeans(runs: seq<Run>, ts: seq<NewTarget>)
    ensures var s := StateOf(runs, ts);
            var all := ts != [] && forall t | t in ts :: Done(runs, t.key);
            var printing := exists t :: t in ts && AtWork(runs, t.key);
            var queued := exists t :: t in ts && InQueue(runs, t.key);
            var owing := exists t :: t in ts && Owing(runs, t);
            && (s == Completed <==> all)
            && (s == Printing <==> !all && printing)
            && (s == Waiting <==> !all && !printing && queued)
            && (s == AttentionRequired <==> !all && !printing && !queued && owing)
            && (s == PartiallyCompleted <==> !all && !printing && !queued && !owing && exists t :: t in ts && Done(runs, t.key))
            && (s == AllCancelled <==> !printing && !queued && !owing && forall t | t in ts :: !Done(runs, t.key))
  {
    forall t | t in ts
      ensures (Fulfilled(RunsOf(runs, t.key)) <==> Done(runs, t.key)) && (OpenProcessing(RunsOf(runs, t.key)) <==> AtWork(runs, t.key))
           && (OpenQueued(RunsOf(runs, t.key)) <==> InQueue(runs, t.key))
           && (OpenAttention(t, RunsOf(runs, t.key)) ==> Owing(runs, t))
    {
      DoneIs(runs, t.key);
      hide AnyRun;
    }
    assert ts != [] ==> ts[0] in ts;
    hide RunsOf, Done, AtWork, InQueue, OpenProcessing, OpenQueued, OpenAttention, Fulfilled;
  }

  // A target's instant is that of its first good run: when it was sent, or when it was confirmed.
  lemma {:induction false} FulfilledAtMeans(h: seq<Run>, i: nat)
    requires i < |h| && RowSound(h[i])
    requires h[i].status == Transmitted || (h[i].status == Uncertain && h[i].resolution == ConfirmedPrinted)
    requires forall j | 0 <= j < i ::
               !(h[j].status == Transmitted || (h[j].status == Uncertain && h[j].resolution == ConfirmedPrinted))
    ensures FulfilledAt(h).Some?
    ensures FulfilledAt(h) == if h[i].status == Transmitted then h[i].transmittedAt else h[i].resolvedAt
  {
    var n := |h| - 1;
    if i < n {
      FulfilledAtMeans(h[..n], i);
    } else {
      NeverFulfilled(h[..n]);
    }
  }

  lemma {:induction false} NeverFulfilled(h: seq<Run>)
    requires forall j | 0 <= j < |h| ::
               !(h[j].status == Transmitted || (h[j].status == Uncertain && h[j].resolution == ConfirmedPrinted))
    ensures FulfilledAt(h).None?
  {
    if h != [] {
      NeverFulfilled(h[..|h| - 1]);
    }
  }

  lemma {:induction false} NewestIsLatest(times: seq<Stamp>)
    ensures times == [] <==> Newest(times).None?
    ensures times != [] ==> Newest(times).value in times && forall x | x in times :: x <= Newest(times).value
  {
    if times != [] {
      NewestIsLatest(times[..|times| - 1]);
      assert times == times[..|times| - 1] + [times[|times| - 1]];
    }
  }

  lemma {:induction false} TimesAre(runs: seq<Run>, ts: seq<NewTarget>, x: Stamp)
    ensures x in Times(runs, ts) <==> exists t :: t in ts && FulfilledAt(RunsOf(runs, t.key)) == Some(x)
  {
    hide FulfilledAt, RunsOf;
    if ts != [] {
      var front, last := ts[..|ts| - 1], ts[|ts| - 1];
      TimesAre(runs, front, x);
      assert ts == front + [last];
      assert forall t :: t in ts <==> t in front || t == last;
    }
  }

  // A completed job's instant is the latest of its targets' instants.
  lemma CompletedAtMeans(runs: seq<Run>, ts: seq<NewTarget>)
    ensures var c := Newest(Times(runs, ts));
            && (c.Some? <==> exists t :: t in ts && FulfilledAt(RunsOf(runs, t.key)).Some?)
            && (c.Some? ==>
                  && (exists t :: t in ts && FulfilledAt(RunsOf(runs, t.key)) == c)
                  && forall t | t in ts && FulfilledAt(RunsOf(runs, t.key)).Some? :: FulfilledAt(RunsOf(runs, t.key)).value <= c.value)
  {
    hide FulfilledAt, RunsOf, Newest, Times;
    var times := Times(runs, ts);
    NewestIsLatest(times);
    if times != [] {
      TimesAre(runs, ts, times[0]);
      TimesAre(runs, ts, Newest(times).value);
    }
    forall t | t in ts && FulfilledAt(RunsOf(runs, t.key)).Some?
      ensures times != [] && FulfilledAt(RunsOf(runs, t.key)).value <= Newest(times).value
    {
      TimesAre(runs, ts, FulfilledAt(RunsOf(runs, t.key)).value);
    }
  }

  lemma {:induction false} HistoryMomentsAre(h: seq<Run>, x: Stamp)
    ensures x in HistoryMoments(h) <==>
              exists r :: r in h && (x == r.createdAt || Some(x) == r.startedAt || Some(x) == r.finishedAt || Some(x) == r.resolvedAt)
  {
    if h != [] {
      var front, last := h[..|h| - 1], h[|h| - 1];
      HistoryMomentsAre(front, x);
      assert h == front + [last];
      assert forall r :: r in h <==> r in front || r == last;
    }
  }

  // The instants among which a job's last update is the latest: its creation, its targets'
  // cancellations, and what its runs recorded.
  lemma {:induction false} MomentsAre(job: Job, runs: seq<Run>, ts: seq<NewTarget>, x: Stamp)
    ensures x in JobMoments(job, runs, ts) <==>
              || x == job.createdAt
              || exists t :: t in ts && (t.target.cancelledAt == Some(x)
                   || exists r :: r in RunsOf(runs, t.key)
                        && (x == r.createdAt || Some(x) == r.startedAt || Some(x) == r.finishedAt || Some(x) == r.resolvedAt))
  {
    hide RunsOf, HistoryMoments;
    if ts != [] {
      var front, last := ts[..|ts| - 1], ts[|ts| - 1];
      MomentsAre(job, runs, front, x);
      HistoryMomentsAre(RunsOf(runs, last.key), x);
      assert ts == front + [last];
      assert forall t :: t in ts <==> t in front || t == last;
    }
  }

  // The remaining flags of a job.
  lemma FlagsMean(runs: seq<Run>, ts: seq<NewTarget>)
    ensures AnyUncertain(runs, ts) <==> exists t, r :: t in ts && r in RunsOf(runs, t.key) && r.status == Uncertain
    ensures AnyReprint(runs, ts) <==> exists t, r :: t in ts && r in RunsOf(runs, t.key) && r.trigger == ManualReprint
    ensures AnyReprintAttention(runs, ts) <==>
              exists t, r :: t in ts && r in RunsOf(runs, t.key) && r.mode == Reprint && r.resolution == Unresolved
                             && (r.status == Uncertain || (r.status == Failed && !r.retryable)) && !r.retryable
    ensures AnyAttention(runs, ts) <==>
              exists t, r :: t in ts && r in RunsOf(runs, t.key) && Owing(runs, t) && r.resolution == Unresolved
                             && (r.status == Uncertain || (r.status == Failed && !r.retryable))
  {
    forall t | t in ts
      ensures (Fulfilled(RunsOf(runs, t.key)) <==> Done(runs, t.key))
    {
      DoneIs(runs, t.key);
    }
    hide RunsOf, Done, Fulfilled;
  }

  // What the API shows of one target.
  lemma FulfillmentMeans(runs: seq<Run>, t: NewTarget)
    ensures var p, h := Fulfillment(t, RunsOf(runs, t.key)), RunsOf(runs, t.key);
            && p.printer == t.key.printer && (p.fulfilled <==> Done(runs, t.key)) && p.fulfilledAt == FulfilledAt(h)
            && (p.cancelled <==> t.target.cancelledAt.Some?) && p.runs == h
            && (p.retryPending <==> exists r :: r in h && r.status == Failed && r.retryable && r.resolution == Unresolved)
            && p.latest == if h == [] then None else Some(h[|h| - 1])
  {
    DoneIs(runs, t.key);
    hide RunsOf, Done, FulfilledAt;
    AnyRunIn(RunsOf(runs, t.key), RetryPending);
  }

  ghost function DoneAt(runs: seq<Run>, ts: seq<NewTarget>): set<nat> {
    set i | 0 <= i < |ts| && Done(runs, ts[i].key)
  }

  // The count is of the targets that have produced their ticket.
  lemma {:induction false} CountMeans(runs: seq<Run>, ts: seq<NewTarget>)
    ensures CountFulfilled(runs, ts) == |DoneAt(runs, ts)|
  {
    hide Done;
    if ts == [] {
      assert DoneAt(runs, ts) == {};
    } else {
      var n := |ts| - 1;
      CountMeans(runs, ts[..n]);
      DoneIs(runs, ts[n].key);
      assert DoneAt(runs, ts) == DoneAt(runs, ts[..n]) + (if Done(runs, ts[n].key) then {n} else {});
    }
  }
}
