// The two gates every worker passes: the pause while the database is unavailable, and the one
// permit to claim and print.
module Gates {
  import opened Domain

  // The fields of a persistenceGate. A Go channel is known by the number it was made with;
  // `closed` holds the channels that have been closed, `made` the next unused number.
  datatype Gate = Gate(failures: nat, reason: string, since: Option<Stamp>,
                       resume: nat, closed: set<nat>, made: nat)

  const NewGate := Gate(0, "", None, 0, {}, 1)

  function Begun(g: Gate, reason: string, now: Stamp): Gate {
    if g.failures == 0
    then Gate(1, reason, Some(now), g.made, g.closed, g.made + 1)
    else g.(failures := g.failures + 1, reason := reason)
  }

  function Ended(g: Gate): Gate {
    if g.failures > 1 then g.(failures := g.failures - 1)
    else g.(failures := 0, reason := "", since := None, closed := g.closed + {g.resume})
  }

  // Closing a channel twice panics.
  predicate EndPanics(g: Gate) {
    g.failures <= 1 && g.resume in g.closed
  }

  ghost predicate GateOk(g: Gate) {
    && g.resume < g.made
    && (forall c | c in g.closed :: c < g.made)
    && (g.failures > 0 ==> g.resume !in g.closed && g.since.Some?)
    && (g.failures == 0 ==> g.reason == "" && g.since.None?)
  }

  // A channel that a waiter took while the gate was shut.
  ghost predicate Awaited(g: Gate, c: nat) {
    c in g.closed || (g.failures > 0 && c == g.resume)
  }

  // The calls of one gate, each begin matched by a later end.
  datatype GateCall = Begin(reason: string, now: Stamp) | Update(reason: string) | End

  function Called(g: Gate, call: GateCall): Gate {
    match call
    case Begin(reason, now) => Begun(g, reason, now)
    case Update(reason) => g.(reason := reason)
    case End => Ended(g)
  }

  // While calls are paired no close panics, a waiter's channel stays one that is closed or will
  // be closed by the end of this very pause, and what is closed stays closed.
  lemma PairedCallKeepsGate(g: Gate, call: GateCall, c: nat)
    requires GateOk(g) && Awaited(g, c)
    requires !call.Begin? ==> g.failures > 0
    ensures GateOk(Called(g, call)) && Awaited(Called(g, call), c)
    ensures call == End ==> !EndPanics(g)
    ensures g.closed <= Called(g, call).closed <= g.closed + {g.resume}
  {
  }

  // Every end and update answers an earlier begin.
  ghost predicate Paired(g: Gate, calls: seq<GateCall>)
    decreases |calls|
  {
    calls == [] || ((calls[0].Begin? || g.failures > 0) && Paired(Called(g, calls[0]), calls[1..]))
  }

  function AfterCalls(g: Gate, calls: seq<GateCall>): Gate
    decreases |calls|
  {
    if calls == [] then g else AfterCalls(Called(g, calls[0]), calls[1..])
  }

  // A channel taken while the gate was shut is closed by the time nothing is failing any more,
  // whatever calls of however many workers came in between; and no channel is closed twice.
  lemma {:induction false} WaitersAreWoken(g: Gate, calls: seq<GateCall>, c: nat)
    requires GateOk(g) && Awaited(g, c) && Paired(g, calls)
    ensures GateOk(AfterCalls(g, calls)) && Awaited(AfterCalls(g, calls), c)
    ensures AfterCalls(g, calls).failures == 0 ==> c in AfterCalls(g, calls).closed
    decreases |calls|
  {
    if calls != [] {
      PairedCallKeepsGate(g, calls[0], c);
      WaitersAreWoken(Called(g, calls[0]), calls[1..], c);
    }
  }

  // ---- what the gate reports during a pause ----

  function Change(call: GateCall): int {
    if call.Begin? then 1 else if call.End? then -1 else 0
  }

  // How many more begins than ends.
  function Balance(calls: seq<GateCall>): int {
    if calls == [] then 0 else Change(calls[0]) + Balance(calls[1..])
  }

  // With n failures to start with, no call ends the last one.
  predicate StaysShut(n: int, calls: seq<GateCall>)
    decreases |calls|
  {
    n > 0 && (calls == [] || StaysShut(n + Change(calls[0]), calls[1..]))
  }

  // The error of the last begin or update.
  function LastReason(reason: string, calls: seq<GateCall>): string
    decreases |calls|
  {
    if calls == [] then reason else LastReason(if calls[0].End? then reason else calls[0].reason, calls[1..])
  }

  lemma {:induction false} ShutReports(g: Gate, calls: seq<GateCall>)
    requires StaysShut(g.failures, calls)
    ensures var e := AfterCalls(g, calls);
            && e.failures == g.failures + Balance(calls) > 0
            && e == g.(failures := e.failures, reason := LastReason(g.reason, calls))
    decreases |calls|
  {
    if calls != [] {
      ShutReports(Called(g, calls[0]), calls[1..]);
    }
  }

  // From the call that shuts the gate to the one that opens it, whatever calls of other workers come
  // in between, the gate counts the failures under way, gives the instant of the first and the error
  // reported last, and holds one channel of its own; opening it closes that channel and no other.
  lemma PauseReports(g: Gate, reason: string, now: Stamp, calls: seq<GateCall>)
    requires GateOk(g) && g.failures == 0 && StaysShut(1, calls)
    ensures var e := AfterCalls(Called(g, Begin(reason, now)), calls);
            var end := Called(e, End);
            && e.failures == 1 + Balance(calls) && e.since == Some(now) && e.reason == LastReason(reason, calls)
            && e.resume !in g.closed && e.closed == g.closed
            && (Balance(calls) == 0 ==>
                  end.failures == 0 && end.since == None && end.reason == "" && end.closed == g.closed + {e.resume})
            && (Balance(calls) > 0 ==> end == e.(failures := e.failures - 1))
  {
    ShutReports(Called(g, Begin(reason, now)), calls);
  }

  class PersistenceGate {
    var failures: nat
    var reason: string
    var since: Option<Stamp>
    var resume: nat
    var closed: set<nat>
    var made: nat

    function State(): Gate
      reads this
    {
      Gate(failures, reason, since, resume, closed, made)
    }

    constructor ()
      ensures State() == NewGate && GateOk(State())
    {
      failures, reason, since, resume, closed, made := 0, "", None, 0, {}, 1;
    }

    // One turn of wait: pass, or the channel to block on before the next turn.
    method Poll() returns (blockedOn: Option<nat>)
      ensures blockedOn.None? <==> failures == 0
      ensures blockedOn.Some? ==> Awaited(State(), blockedOn.value)
    {
      if failures == 0 {
        return None;
      }
      return Some(resume);
    }

    method Begin(error: string, now: Stamp)
      modifies this
      ensures State() == Begun(old(State()), error, now)
    {
      failures := failures + 1;
      if failures == 1 {
        since := Some(now);
        resume := made;
        made := made + 1;
      }
      reason := error;
    }

    method Update(error: string)
      modifies this
      ensures State() == old(State()).(reason := error)
    {
      reason := error;
    }

    method End() returns (panicked: bool)
      modifies this
      ensures panicked <==> EndPanics(old(State()))
      ensures State() == Ended(old(State()))
    {
      panicked := false;
      if failures > 0 {
        failures := failures - 1;
      }
      if failures == 0 {
        reason := "";
        since := None;
        panicked := resume in closed;
        closed := closed + {resume};
      }
    }

    method Status() returns (paused: bool, why: string, from: Option<Stamp>)
      requires GateOk(State())
      ensures paused <==> failures > 0
      ensures paused <==> from.Some?
      ensures !paused ==> why == ""
    {
      return failures > 0, reason, since;
    }
  }

  // A channel of capacity one that holds the permit.
  class TransmissionGate {
    var permits: nat

    constructor ()
      ensures permits == 1
    {
      permits := 1;
    }

    // False while another worker has the permit; the caller blocks or gives up.
    method TryAcquire() returns (got: bool)
      requires permits <= 1
      modifies this
      ensures got <==> old(permits) == 1
      ensures permits == 0
    {
      got := permits == 1;
      permits := 0;
    }

    // Sending to a full channel would block for ever, so only the holder may release.
    method Release()
      requires permits == 0
      modifies this
      ensures permits == 1
    {
      permits := 1;
    }
  }
}
