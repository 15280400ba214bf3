// Concrete interleavings of the broker: a send that comes after its caller has drained the channel,
// and a late close that contradicts a newer connection.
module BrokerScenario {
  import opened Domain
  import opened Broker
  import opened BrokerRuns

  ghost predicate Leads(events: seq<Event>, g: Net) {
    Happened(NewNet, events) && History(NewNet, events) == g
  }

  lemma {:induction false} OneMore(g: Net, events: seq<Event>, e: Event)
    requires Happened(g, events) && Can(History(g, events), e)
    ensures Happened(g, events + [e]) && History(g, events + [e]) == Happens(History(g, events), e)
    decreases |events|
  {
    hide Can, Happens;
    if events == [] {
      assert [] + [e] == [e] && [e][1..] == [];
    } else {
      assert (events + [e])[0] == events[0] && (events + [e])[1..] == events[1..] + [e];
      OneMore(Happens(g, events[0]), events[1..], e);
    }
  }

  lemma Then(events: seq<Event>, g: Net, e: Event, g': Net)
    requires Leads(events, g) && Can(g, e) && Happens(g, e) == g'
    ensures Leads(events + [e], g')
  {
    hide Can, Happens, Happened, History;
    OneMore(NewNet, events, e);
  }

  // ---- caller 0 asks for path 1 at address 2, BlueZ hands over socket 5 ----

  const Asked := Net(NewShared.(waiters := map[1 := 3], calls := map[1 := 3]),
                     map[3 := Pending(1, 2, None)], map[], map[], map[0 := Waiting(3)], map[], {})

  lemma Asks()
    ensures Can(NewNet, Connect(0, 1, 2, 3)) && Happens(NewNet, Connect(0, 1, 2, 3)) == Asked
  {
  }

  const Handed := Asked.(shared := Asked.shared.(waiters := map[], active := map[1 := 5], states := map[2 := true]),
                         sockets := map[5 := Socket(1, 2, 3, false)], deliveries := map[4 := Delivery(3, 5)])

  lemma Hands()
    ensures Can(Asked, NewConnection(4, 1, 5)) && Happens(Asked, NewConnection(4, 1, 5)) == Handed
  {
    assert Asked.shared.waiters - {1} == map[];
  }

  const Met := [Connect(0, 1, 2, 3)] + [NewConnection(4, 1, 5)]

  lemma Meets()
    ensures Leads(Met, Handed)
  {
    hide Can, Happens;
    Asks();
    Hands();
    assert [] + [Connect(0, 1, 2, 3)] == [Connect(0, 1, 2, 3)];
    Then([], NewNet, Connect(0, 1, 2, 3), Asked);
    Then([Connect(0, 1, 2, 3)], Asked, NewConnection(4, 1, 5), Handed);
  }

  // ---- the caller gives up between the lock and the send ----

  const Tired := Handed.(callers := map[0 := Cancelling(3)])
  const Gone := Handed.(callers := map[0 := Draining(3)])
  const Drained := Handed.(callers := map[0 := Resetting(3)])
  const Left := Handed.(callers := map[0 := GivenUp(3)], shared := Handed.shared.(states := map[2 := false]))
  const Stranded := Left.(pendings := map[3 := Pending(1, 2, Some(5))], deliveries := map[])

  lemma GivesUp()
    ensures Can(Handed, Expire(0)) && Happens(Handed, Expire(0)) == Tired
    ensures Can(Tired, RemoveOwn(0)) && Happens(Tired, RemoveOwn(0)) == Gone
  {
    assert map[0 := Waiting(3)][0 := Cancelling(3)] == map[0 := Cancelling(3)];
    assert map[0 := Cancelling(3)][0 := Draining(3)] == map[0 := Draining(3)];
  }

  lemma FindsNothing()
    ensures Can(Gone, Drain(0)) && Happens(Gone, Drain(0)) == Drained
  {
    assert map[0 := Draining(3)][0 := Resetting(3)] == map[0 := Resetting(3)];
    assert map[3 := Pending(1, 2, None)][3 := Pending(1, 2, None)] == map[3 := Pending(1, 2, None)];
  }

  lemma Resets()
    ensures Can(Drained, Reset(0)) && Happens(Drained, Reset(0)) == Left
  {
    assert map[0 := Resetting(3)][0 := GivenUp(3)] == map[0 := GivenUp(3)];
    assert map[2 := true][2 := false] == map[2 := false];
  }

  lemma SendsLate()
    ensures Can(Left, Send(4)) && Happens(Left, Send(4)) == Stranded
  {
    assert map[3 := Pending(1, 2, None)][3 := Pending(1, 2, Some(5))] == map[3 := Pending(1, 2, Some(5))];
    assert map[4 := Delivery(3, 5)] - {4} == map[];
  }

  const Abandoned := Met + [Expire(0)] + [RemoveOwn(0)]

  lemma Abandons()
    ensures Leads(Abandoned, Gone)
  {
    hide Can, Happens, Leads;
    Meets();
    GivesUp();
    Then(Met, Handed, Expire(0), Tired);
    Then(Met + [Expire(0)], Tired, RemoveOwn(0), Gone);
  }

  // The caller drains between the callback's lock and its send, so the drain finds nothing; the send
  // then succeeds, and socket 5 stays open in a channel that nobody reads.
  lemma SendComesLate()
    ensures Leads(Abandoned, Gone) && Gone.callers[0] == Draining(3) && Gone.deliveries[4] == Delivery(3, 5)
    ensures Leads(Abandoned + [Drain(0)], Drained) && !Drained.sockets[5].closing
    ensures Leads(Abandoned + [Drain(0)] + [Reset(0)], Left) && Left.callers[0] == GivenUp(3) && Left.deliveries[4] == Delivery(3, 5)
    ensures Leads(Abandoned + [Drain(0)] + [Reset(0)] + [Send(4)], Stranded)
    ensures Stranded.pendings[3].channel == Some(5) && !Stranded.sockets[5].closing
  {
    hide Can, Happens, Leads;
    Abandons();
    FindsNothing();
    Resets();
    SendsLate();
    Then(Abandoned, Gone, Drain(0), Drained);
    Then(Abandoned + [Drain(0)], Drained, Reset(0), Left);
    Then(Abandoned + [Drain(0)] + [Reset(0)], Left, Send(4), Stranded);
  }

  // ---- a replaced bus, a new connection, and the late close of the old socket ----

  const Sent := Handed.(pendings := map[3 := Pending(1, 2, Some(5))], deliveries := map[])
  const Got := Sent.(pendings := map[3 := Pending(1, 2, None)], callers := map[0 := Connected(3, 5)])
  const Registered := Got.(shared := Got.shared.(registration := Some(10)))
  const Renewed := Got.(shared := NewShared.(states := map[2 := true], registration := Some(11)), dropped := {5})

  lemma Receives()
    ensures Can(Handed, Send(4)) && Happens(Handed, Send(4)) == Sent
    ensures Can(Sent, Receive(0)) && Happens(Sent, Receive(0)) == Got
  {
    assert map[3 := Pending(1, 2, None)][3 := Pending(1, 2, Some(5))] == map[3 := Pending(1, 2, Some(5))];
    assert map[3 := Pending(1, 2, Some(5))][3 := Pending(1, 2, None)] == map[3 := Pending(1, 2, None)];
    assert map[4 := Delivery(3, 5)] - {4} == map[];
    assert map[0 := Waiting(3)][0 := Connected(3, 5)] == map[0 := Connected(3, 5)];
  }

  lemma Registers()
    ensures Can(Got, Register(10)) && Happens(Got, Register(10)) == Registered
  {
  }

  lemma Renews()
    ensures Can(Registered, Register(11)) && Happens(Registered, Register(11)) == Renewed
  {
    var active := map[1 := 5];
    assert active[1] == 5 && active.Values == {5};
  }

  const Again := Renewed.(shared := Renewed.shared.(waiters := map[1 := 6], calls := map[1 := 6]),
                          pendings := map[3 := Pending(1, 2, None), 6 := Pending(1, 2, None)],
                          callers := map[0 := Connected(3, 5), 1 := Waiting(6)])
  const Back := Again.(shared := Again.shared.(waiters := map[], active := map[1 := 8]),
                       sockets := map[5 := Socket(1, 2, 3, false), 8 := Socket(1, 2, 6, false)],
                       deliveries := map[7 := Delivery(6, 8)])
  const Wrong := Back.(shared := Back.shared.(states := map[2 := false]), dropped := {},
                       sockets := map[5 := Socket(1, 2, 3, true), 8 := Socket(1, 2, 6, false)])

  lemma Reconnects()
    ensures Can(Renewed, Connect(1, 1, 2, 6)) && Happens(Renewed, Connect(1, 1, 2, 6)) == Again
  {
    assert map[3 := Pending(1, 2, None)][6 := Pending(1, 2, None)] == map[3 := Pending(1, 2, None), 6 := Pending(1, 2, None)];
    assert map[0 := Connected(3, 5)][1 := Waiting(6)] == map[0 := Connected(3, 5), 1 := Waiting(6)];
  }

  lemma HandsAgain()
    ensures Can(Again, NewConnection(7, 1, 8)) && Happens(Again, NewConnection(7, 1, 8)) == Back
  {
    assert map[1 := 6] - {1} == map[];
    assert map[2 := true][2 := true] == map[2 := true];
  }

  lemma StateOverwritten()
    ensures SocketClosed(Back.shared, 1, 5, 2) == Wrong.shared
  {
    assert map[2 := true][2 := false] == map[2 := false];
  }

  lemma ClosesLate()
    ensures Can(Back, CloseSocket(5)) && Happens(Back, CloseSocket(5)) == Wrong
  {
    StateOverwritten();
    var old8 := Socket(1, 2, 6, false);
    assert map[5 := Socket(1, 2, 3, false), 8 := old8][5 := Socket(1, 2, 3, true)] == map[5 := Socket(1, 2, 3, true), 8 := old8];
    hide SocketClosed;
    assert Back.dropped - {5} == {};
    assert Back.sockets[5] == Socket(1, 2, 3, false);
    assert Closed(Back, 5) == Wrong;
  }

  const Rebound := Met + [Send(4)] + [Receive(0)] + [Register(10)] + [Register(11)]

  lemma Rebinds()
    ensures Leads(Rebound, Renewed)
  {
    hide Can, Happens, Leads;
    Meets();
    Receives();
    Registers();
    Renews();
    Then(Met, Handed, Send(4), Sent);
    Then(Met + [Send(4)], Sent, Receive(0), Got);
    Then(Met + [Send(4)] + [Receive(0)], Got, Register(10), Registered);
    Then(Met + [Send(4)] + [Receive(0)] + [Register(10)], Registered, Register(11), Renewed);
  }

  // Right after the bus was replaced, and before socket 5 is closed, its device still counts as
  // connected although no socket is active at all.
  lemma ReplacedBusMisreports()
    ensures Leads(Rebound, Renewed)
    ensures Renewed.shared.active == map[] && ReportsConnected(Renewed, 2)
  {
    hide Can, Happens, Leads;
    Rebinds();
  }

  // Socket 5 of the replaced bus is closed only after socket 8 has come in for the same address: the
  // device counts as disconnected although it has an open, active socket.
  lemma LateCloseMisreports()
    ensures Leads(Rebound + [Connect(1, 1, 2, 6)] + [NewConnection(7, 1, 8)] + [CloseSocket(5)], Wrong)
    ensures Wrong.shared.active[1] == 8 && !Wrong.sockets[8].closing && Wrong.sockets[8].address == 2
    ensures !ReportsConnected(Wrong, 2)
  {
    hide Can, Happens, Leads;
    Rebinds();
    Reconnects();
    HandsAgain();
    ClosesLate();
    Then(Rebound, Renewed, Connect(1, 1, 2, 6), Again);
    Then(Rebound + [Connect(1, 1, 2, 6)], Again, NewConnection(7, 1, 8), Back);
    Then(Rebound + [Connect(1, 1, 2, 6)] + [NewConnection(7, 1, 8)], Back, CloseSocket(5), Wrong);
  }
}
