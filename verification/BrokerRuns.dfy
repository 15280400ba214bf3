// Every interleaving of Connect calls, BlueZ callbacks, cancellations, re-registrations and closes.
module BrokerRuns {
  import opened Domain
  import opened Broker

  // The address a Connect call asked for, and the buffered channel of capacity one on which it
  // waits for a socket.
  datatype Pending = Pending(path: Path, address: Address, channel: Option<nat>)

  // A descriptor BlueZ handed over; `closing` once its close has begun.
  datatype Socket = Socket(path: Path, address: Address, pending: nat, closing: bool)

  datatype Caller =
    | Waiting(pending: nat)
    | WaitingOn(pending: nat)
    | Cancelling(pending: nat)
    | Draining(pending: nat)
    | Resetting(pending: nat)
    | Connected(pending: nat, socket: nat)
    | GivenUp(pending: nat)

  // `deliveries` holds, for each NewConnection callback that has left the lock, the pending
  // connection and the socket it is about to send to it.
  datatype Delivery = Delivery(pending: nat, socket: nat)

  datatype Net = Net(
    shared: Shared,
    pendings: map<nat, Pending>,
    sockets: map<nat, Socket>,
    deliveries: map<nat, Delivery>,
    callers: map<nat, Caller>,
    returned: map<nat, bool>,
    dropped: set<nat>)

  // The locked sections of the broker. ReportDown is the last one of Disconnect; the close before it
  // is a CloseSocket like that of any other owner.
  datatype Event =
    | Connect(c: nat, path: Path, address: Address, n: nat)
    | CallReturns(n: nat, ok: bool)
    | NewConnection(k: nat, path: Path, m: nat)
    | Send(k: nat)
    | Receive(c: nat)
    | CallFailed(c: nat)
    | CallSucceeded(c: nat)
    | Expire(c: nat)
    | RemoveOwn(c: nat)
    | Drain(c: nat)
    | Reset(c: nat)
    | CloseSocket(m: nat)
    | ReportDown(address: Address)
    | Register(registration: nat)
    | Release

  function PendingOf(g: Net, c: nat): nat
    requires c in g.callers
  {
    g.callers[c].pending
  }

  predicate Known(g: Net, c: nat) {
    c in g.callers && g.callers[c].pending in g.pendings
  }

  predicate Buffered(g: Net, n: nat) {
    n in g.pendings && g.pendings[n].channel.Some?
  }

  function AddressOf(g: Net): map<nat, Address> {
    map m | m in g.sockets :: g.sockets[m].address
  }

  predicate Can(g: Net, e: Event) {
    match e
    case Connect(c, path, _, n) => c !in g.callers && n !in g.pendings && Obstacle(g.shared, path).None?
    case CallReturns(n, _) => n in g.pendings && n !in g.returned
    case NewConnection(k, path, m) =>
      k !in g.deliveries && m !in g.sockets && Takes(g.shared, path) && g.shared.waiters[path] in g.pendings
    case Send(k) => k in g.deliveries && g.deliveries[k].pending in g.pendings
    case Receive(c) => Known(g, c) && (g.callers[c].Waiting? || g.callers[c].WaitingOn?) && Buffered(g, PendingOf(g, c))
    case CallFailed(c) =>
      Known(g, c) && g.callers[c].Waiting? && !Buffered(g, PendingOf(g, c))
      && PendingOf(g, c) in g.returned && !g.returned[PendingOf(g, c)]
    case CallSucceeded(c) =>
      Known(g, c) && g.callers[c].Waiting? && !Buffered(g, PendingOf(g, c))
      && PendingOf(g, c) in g.returned && g.returned[PendingOf(g, c)]
    case Expire(c) => Known(g, c) && (g.callers[c].Waiting? || g.callers[c].WaitingOn?)
    case RemoveOwn(c) => Known(g, c) && g.callers[c].Cancelling?
    case Drain(c) => Known(g, c) && g.callers[c].Draining?
    case Reset(c) => Known(g, c) && g.callers[c].Resetting?
    case CloseSocket(m) => m in g.sockets && !g.sockets[m].closing
    case ReportDown(_) => true
    case Register(_) => true
    case Release => true
  }

  function Moved(g: Net, c: nat, to: Caller): Net {
    g.(callers := g.callers[c := to])
  }

  function Emptied(g: Net, n: nat): Net
    requires n in g.pendings
  {
    g.(pendings := g.pendings[n := g.pendings[n].(channel := None)])
  }

  // closeSocket, entered at most once for a socket.
  function Closed(g: Net, m: nat): Net
    requires m in g.sockets
  {
    var s := g.sockets[m];
    if s.closing then g
    else g.(sockets := g.sockets[m := s.(closing := true)], shared := SocketClosed(g.shared, s.path, m, s.address),
            dropped := g.dropped - {m})
  }

  function Happens(g: Net, e: Event): Net
    requires Can(g, e)
  {
    match e
    case Connect(c, path, address, n) =>
      Moved(g, c, Waiting(n)).(shared := Installed(g.shared, path, n), pendings := g.pendings[n := Pending(path, address, None)])
    case CallReturns(n, ok) =>
      g.(shared := CallReturned(g.shared, g.pendings[n].path, n), returned := g.returned[n := ok])
    case NewConnection(k, path, m) =>
      var n := g.shared.waiters[path];
      var address := g.pendings[n].address;
      g.(shared := Taken(g.shared, path, m, address), sockets := g.sockets[m := Socket(path, address, n, false)],
         deliveries := g.deliveries[k := Delivery(n, m)])
    case Send(k) =>
      var d := g.deliveries[k];
      g.(pendings := g.pendings[d.pending := g.pendings[d.pending].(channel := Some(d.socket))],
         deliveries := g.deliveries - {k})
    case Receive(c) =>
      var n := PendingOf(g, c);
      Moved(Emptied(g, n), c, Connected(n, g.pendings[n].channel.value))
    case CallFailed(c) => Moved(g, c, Cancelling(PendingOf(g, c)))
    case CallSucceeded(c) => Moved(g, c, WaitingOn(PendingOf(g, c)))
    case Expire(c) => Moved(g, c, Cancelling(PendingOf(g, c)))
    case RemoveOwn(c) =>
      var n := PendingOf(g, c);
      Moved(g, c, Draining(n)).(shared := WaiterRemoved(g.shared, g.pendings[n].path, n))
    case Drain(c) =>
      var n := PendingOf(g, c);
      var drained := Moved(Emptied(g, n), c, Resetting(n));
      if g.pendings[n].channel.Some? && g.pendings[n].channel.value in g.sockets
      then Closed(drained, g.pendings[n].channel.value) else drained
    case Reset(c) =>
      var n := PendingOf(g, c);
      Moved(g, c, GivenUp(n)).(shared := StateSet(g.shared, g.pendings[n].address, false))
    case CloseSocket(m) => Closed(g, m)
    case ReportDown(address) => g.(shared := StateSet(g.shared, address, false))
    case Register(registration) =>
      g.(shared := Reregistered(g.shared, registration),
         dropped := if Replaced(g.shared, registration) then g.dropped + g.shared.active.Values else g.dropped)
    case Release =>
      g.(shared := Released(g.shared, AddressOf(g)), dropped := g.dropped + g.shared.active.Values)
  }

  const NewNet := Net(NewShared, map[], map[], map[], map[], map[], {})

  // ---- the invariant ----

  ghost predicate WaitersOk(g: Net) {
    forall p | p in g.shared.waiters ::
      && p !in g.shared.active
      && g.shared.waiters[p] in g.pendings
      && g.pendings[g.shared.waiters[p]].path == p
      && (forall m | m in g.sockets :: g.sockets[m].pending != g.shared.waiters[p])
  }

  // Every socket was made for one pending connection, of its path and address, and no two for
  // the same.
  ghost predicate SocketsOk(g: Net) {
    && (forall m | m in g.sockets :: g.sockets[m].pending in g.pendings
          && g.pendings[g.sockets[m].pending].path == g.sockets[m].path
          && g.pendings[g.sockets[m].pending].address == g.sockets[m].address)
    && (forall a, b | a in g.sockets && b in g.sockets && g.sockets[a].pending == g.sockets[b].pending :: a == b)
  }

  // A socket is on its way, buffered, or received: in one place at most.
  ghost predicate PlacesOk(g: Net) {
    && (forall k | k in g.deliveries ::
          var d := g.deliveries[k];
          && d.socket in g.sockets && g.sockets[d.socket].pending == d.pending && d.pending in g.pendings
          && g.pendings[d.pending].channel.None?
          && (forall c | c in g.callers && g.callers[c].Connected? :: g.callers[c].socket != d.socket))
    && (forall j, k | j in g.deliveries && k in g.deliveries && g.deliveries[j].pending == g.deliveries[k].pending :: j == k)
    && (forall n | n in g.pendings && g.pendings[n].channel.Some? ::
          var m := g.pendings[n].channel.value;
          && m in g.sockets && g.sockets[m].pending == n
          && (forall c | c in g.callers && g.callers[c].Connected? :: g.callers[c].socket != m))
  }

  ghost predicate CallersOk(g: Net) {
    && (forall c | c in g.callers :: g.callers[c].pending in g.pendings)
    && (forall c, d | c in g.callers && d in g.callers && g.callers[c].pending == g.callers[d].pending :: c == d)
    && (forall c | c in g.callers && g.callers[c].Connected? ::
          g.callers[c].socket in g.sockets && g.sockets[g.callers[c].socket].pending == g.callers[c].pending)
  }

  // A socket nobody has begun to close is the active one of its path, or in a list about to be
  // closed.
  ghost predicate ActiveOk(g: Net) {
    && (forall p | p in g.shared.active ::
          g.shared.active[p] in g.sockets && g.sockets[g.shared.active[p]].path == p && !g.sockets[g.shared.active[p]].closing)
    && (forall m | m in g.sockets && !g.sockets[m].closing ::
          m in g.dropped || (g.sockets[m].path in g.shared.active && g.shared.active[g.sockets[m].path] == m))
  }

  ghost predicate NetOk(g: Net) {
    WaitersOk(g) && SocketsOk(g) && PlacesOk(g) && CallersOk(g) && ActiveOk(g)
  }

  predicate StillAsking(c: Caller) {
    c.Waiting? || c.WaitingOn? || c.Cancelling? || c.Draining?
  }

  // The socket is about to be sent, or in the channel.
  ghost predicate OnItsWay(g: Net, m: nat) {
    m in g.sockets
    && (Channel(g, g.sockets[m].pending) == Some(m) || exists k :: k in g.deliveries && g.deliveries[k].socket == m)
  }

  function Channel(g: Net, n: nat): Option<nat> {
    if n in g.pendings then g.pendings[n].channel else None
  }

  // The socket of a caller that still asks is on its way to it.
  ghost predicate AskingOk(g: Net) {
    forall m, c | m in g.sockets && c in g.callers && g.callers[c].pending == g.sockets[m].pending
      && StillAsking(g.callers[c]) :: OnItsWay(g, m)
  }

  // A call token belongs to a connect call for its path that has not returned.
  ghost predicate TokensOk(g: Net) {
    && (forall p | p in g.shared.calls ::
          var n := g.shared.calls[p];
          n in g.pendings && g.pendings[n].path == p && n !in g.returned)
    && (forall n | n in g.returned :: n in g.pendings)
  }

  // ---- every event keeps it ----

  // A caller that goes on without a socket.
  lemma CallerTo(g: Net, c: nat, to: Caller)
    requires NetOk(g) && c in g.callers && to.pending == g.callers[c].pending && !to.Connected?
    ensures NetOk(Moved(g, c, to))
  {
    hide WaitersOk, SocketsOk, ActiveOk;
    CallerToRest(g, c, to);
  }

  lemma CallerToRest(g: Net, c: nat, to: Caller)
    ensures WaitersOk(Moved(g, c, to)) == WaitersOk(g) && SocketsOk(Moved(g, c, to)) == SocketsOk(g)
    ensures ActiveOk(Moved(g, c, to)) == ActiveOk(g)
  {
  }

  lemma SharedChanged(g: Net, b: Shared)
    requires NetOk(g) && b.active == g.shared.active
    requires forall p | p in b.waiters :: p in g.shared.waiters && b.waiters[p] == g.shared.waiters[p]
    ensures NetOk(g.(shared := b))
  {
  }

  lemma ClosedKeepsRest(g: Net, m: nat)
    requires m in g.sockets && WaitersOk(g) && SocketsOk(g)
    ensures WaitersOk(Closed(g, m)) && SocketsOk(Closed(g, m))
  {
  }

  lemma ClosedKeepsPlaces(g: Net, m: nat)
    requires m in g.sockets && PlacesOk(g) && CallersOk(g)
    ensures PlacesOk(Closed(g, m)) && CallersOk(Closed(g, m))
  {
  }

  lemma ClosedKeepsActive(g: Net, m: nat)
    requires m in g.sockets && ActiveOk(g)
    ensures ActiveOk(Closed(g, m))
  {
  }

  lemma ClosedKeeps(g: Net, m: nat)
    requires NetOk(g) && m in g.sockets
    ensures NetOk(Closed(g, m))
  {
    hide WaitersOk, SocketsOk, PlacesOk, CallersOk, ActiveOk;
    ClosedKeepsRest(g, m);
    ClosedKeepsPlaces(g, m);
    ClosedKeepsActive(g, m);
  }

  lemma EmptiedKeeps(g: Net, n: nat)
    requires NetOk(g) && n in g.pendings
    ensures NetOk(Emptied(g, n))
  {
  }

  lemma CallReturnsKeeps(g: Net, e: Event)
    requires NetOk(g) && e.CallReturns? && Can(g, e)
    ensures NetOk(Happens(g, e))
  {
  }

  lemma SendPlaced(g: Net, e: Event)
    requires NetOk(g) && e.Send? && Can(g, e)
    ensures PlacesOk(Happens(g, e))
  {
    hide WaitersOk, ActiveOk;
  }

  lemma SendKeeps(g: Net, e: Event)
    requires NetOk(g) && e.Send? && Can(g, e)
    ensures NetOk(Happens(g, e))
  {
    SendPlaced(g, e);
    hide PlacesOk;
  }

  lemma ReceivePlaced(g: Net, e: Event)
    requires NetOk(g) && e.Receive? && Can(g, e)
    ensures PlacesOk(Happens(g, e)) && CallersOk(Happens(g, e))
  {
    hide WaitersOk, ActiveOk;
  }

  lemma ReceiveKeeps(g: Net, e: Event)
    requires NetOk(g) && e.Receive? && Can(g, e)
    ensures NetOk(Happens(g, e))
  {
    hide PlacesOk, CallersOk;
    ReceivePlaced(g, e);
  }

  lemma RegisterKeepsActive(g: Net, e: Event)
    requires ActiveOk(g) && e.Register?
    ensures ActiveOk(Happens(g, e))
  {
  }

  lemma RegisterKeeps(g: Net, e: Event)
    requires NetOk(g) && e.Register? && Can(g, e)
    ensures NetOk(Happens(g, e))
  {
    hide ActiveOk;
    RegisterKeepsActive(g, e);
  }

  lemma ReleaseKeeps(g: Net, e: Event)
    requires NetOk(g) && e.Release? && Can(g, e)
    ensures NetOk(Happens(g, e))
  {
  }

  lemma ConnectMade(g: Net, e: Event)
    requires NetOk(g) && e.Connect? && Can(g, e)
    ensures var h := Happens(g, e); WaitersOk(h) && SocketsOk(h)
  {
    hide PlacesOk, CallersOk, ActiveOk;
  }

  lemma ConnectPlaced(g: Net, e: Event)
    requires NetOk(g) && e.Connect? && Can(g, e)
    ensures var h := Happens(g, e); PlacesOk(h)
  {
    hide ActiveOk;
  }

  lemma ConnectCalled(g: Net, e: Event)
    requires NetOk(g) && e.Connect? && Can(g, e)
    ensures var h := Happens(g, e); CallersOk(h) && ActiveOk(h)
  {
    hide PlacesOk;
  }

  lemma ConnectKeeps(g: Net, e: Event)
    requires NetOk(g) && e.Connect? && Can(g, e)
    ensures NetOk(Happens(g, e))
  {
    ConnectMade(g, e);
    ConnectPlaced(g, e);
    ConnectCalled(g, e);
    hide Can, Happens, WaitersOk, SocketsOk, PlacesOk, CallersOk, ActiveOk;
  }

  lemma NewConnectionMade(g: Net, e: Event)
    requires NetOk(g) && e.NewConnection? && Can(g, e)
    ensures var h := Happens(g, e); WaitersOk(h) && SocketsOk(h)
  {
    hide PlacesOk, CallersOk;
  }

  lemma NewConnectionPlaced(g: Net, e: Event)
    requires NetOk(g) && e.NewConnection? && Can(g, e)
    ensures var h := Happens(g, e); PlacesOk(h)
  {
    hide ActiveOk, Known, Buffered, AddressOf, Addresses, Obstacle;
  }

  lemma NewConnectionCalled(g: Net, e: Event)
    requires NetOk(g) && e.NewConnection? && Can(g, e)
    ensures CallersOk(Happens(g, e))
  {
    hide PlacesOk, SocketsOk, WaitersOk, ActiveOk;
  }

  lemma NewConnectionActive(g: Net, e: Event)
    requires NetOk(g) && e.NewConnection? && Can(g, e)
    ensures ActiveOk(Happens(g, e))
  {
    hide PlacesOk, SocketsOk, CallersOk, WaitersOk;
  }

  lemma NewConnectionKeeps(g: Net, e: Event)
    requires NetOk(g) && e.NewConnection? && Can(g, e)
    ensures NetOk(Happens(g, e))
  {
    NewConnectionMade(g, e);
    NewConnectionPlaced(g, e);
    NewConnectionCalled(g, e);
    NewConnectionActive(g, e);
    hide Can, Happens, WaitersOk, SocketsOk, PlacesOk, CallersOk, ActiveOk;
  }

  lemma DrainKeeps(g: Net, e: Event)
    requires NetOk(g) && e.Drain? && Can(g, e)
    ensures NetOk(Happens(g, e))
  {
    hide NetOk;
    var n := PendingOf(g, e.c);
    EmptiedKeeps(g, n);
    CallerTo(Emptied(g, n), e.c, Resetting(n));
    if g.pendings[n].channel.Some? && g.pendings[n].channel.value in g.sockets {
      ClosedKeeps(Moved(Emptied(g, n), e.c, Resetting(n)), g.pendings[n].channel.value);
    }
  }

  lemma EventKeepsNet(g: Net, e: Event)
    requires NetOk(g) && Can(g, e)
    ensures NetOk(Happens(g, e))
  {
    hide NetOk;
    match e
    case Connect(_, _, _, _) => ConnectKeeps(g, e);
    case CallReturns(_, _) => CallReturnsKeeps(g, e);
    case NewConnection(_, _, _) => NewConnectionKeeps(g, e);
    case Send(_) => SendKeeps(g, e);
    case Receive(_) => ReceiveKeeps(g, e);
    case CallFailed(c) => CallerTo(g, c, Cancelling(PendingOf(g, c)));
    case CallSucceeded(c) => CallerTo(g, c, WaitingOn(PendingOf(g, c)));
    case Expire(c) => CallerTo(g, c, Cancelling(PendingOf(g, c)));
    case RemoveOwn(c) =>
      var n := PendingOf(g, c);
      CallerTo(g, c, Draining(n));
      SharedChanged(Moved(g, c, Draining(n)), WaiterRemoved(g.shared, g.pendings[n].path, n));
    case Drain(_) => DrainKeeps(g, e);
    case Reset(c) =>
      var n := PendingOf(g, c);
      CallerTo(g, c, GivenUp(n));
      SharedChanged(Moved(g, c, GivenUp(n)), StateSet(g.shared, g.pendings[n].address, false));
    case CloseSocket(m) => ClosedKeeps(g, m);
    case ReportDown(address) => SharedChanged(g, StateSet(g.shared, address, false));
    case Register(_) => RegisterKeeps(g, e);
    case Release => ReleaseKeeps(g, e);
  }

  // Nothing on its way is lost by adding deliveries.
  lemma StillOnItsWay(g: Net, h: Net, m: nat)
    requires OnItsWay(g, m) && m in h.sockets && h.sockets[m].pending == g.sockets[m].pending
    requires Channel(h, g.sockets[m].pending) == Channel(g, g.sockets[m].pending)
    requires forall k | k in g.deliveries :: k in h.deliveries && h.deliveries[k] == g.deliveries[k]
    ensures OnItsWay(h, m)
  {
    if Channel(g, g.sockets[m].pending) != Some(m) {
      var k :| k in g.deliveries && g.deliveries[k].socket == m;
      assert h.deliveries[k].socket == m;
    }
  }

  // Events that neither add sockets nor touch channels nor revive a caller.
  predicate Silent(e: Event) {
    e.CallReturns? || e.CallFailed? || e.CallSucceeded? || e.Expire? || e.RemoveOwn? || e.Reset?
    || e.CloseSocket? || e.ReportDown? || e.Register? || e.Release?
  }

  lemma SilentForm(g: Net, e: Event, m: nat, c: nat)
    requires Silent(e) && Can(g, e)
    ensures var h := Happens(g, e);
            && h.pendings == g.pendings && h.deliveries == g.deliveries
            && (m in h.sockets <==> m in g.sockets) && (m in g.sockets ==> h.sockets[m].pending == g.sockets[m].pending)
            && (c in h.callers <==> c in g.callers)
            && (c in g.callers ==> h.callers[c].pending == g.callers[c].pending
                                   && (StillAsking(h.callers[c]) ==> StillAsking(g.callers[c])))
  {
  }

  lemma SilentKeepsAsking(g: Net, e: Event)
    requires AskingOk(g) && Silent(e) && Can(g, e)
    ensures AskingOk(Happens(g, e))
  {
    hide Can, Happens, StillAsking, OnItsWay;
    var h := Happens(g, e);
    forall m, c | m in h.sockets && c in h.callers && h.callers[c].pending == h.sockets[m].pending && StillAsking(h.callers[c])
      ensures OnItsWay(h, m)
    {
      SilentForm(g, e, m, c);
      StillOnItsWay(g, h, m);
    }
  }

  lemma ConnectKeepsAsking(g: Net, e: Event)
    requires NetOk(g) && AskingOk(g) && Can(g, e) && e.Connect?
    ensures AskingOk(Happens(g, e))
  {
    hide WaitersOk, PlacesOk, ActiveOk, OnItsWay, CallersOk;
    var h := Happens(g, e);
    forall m, c | m in h.sockets && c in h.callers && h.callers[c].pending == h.sockets[m].pending && StillAsking(h.callers[c])
      ensures OnItsWay(h, m)
    {
      StillOnItsWay(g, h, m);
    }
  }

  lemma CallbackKeepsAsking(g: Net, e: Event)
    requires NetOk(g) && AskingOk(g) && Can(g, e) && e.NewConnection?
    ensures AskingOk(Happens(g, e))
  {
    hide WaitersOk, SocketsOk, PlacesOk, ActiveOk, CallersOk;
    var h := Happens(g, e);
    forall m, c | m in h.sockets && c in h.callers && h.callers[c].pending == h.sockets[m].pending && StillAsking(h.callers[c])
      ensures OnItsWay(h, m)
    {
      if m == e.m {
        assert h.deliveries[e.k].socket == m;
      } else {
        assert OnItsWay(g, m);
        StillOnItsWay(g, h, m);
      }
    }
  }

  lemma SendKeepsAsking(g: Net, e: Event)
    requires NetOk(g) && AskingOk(g) && Can(g, e) && e.Send?
    ensures AskingOk(Happens(g, e))
  {
    hide WaitersOk, SocketsOk, ActiveOk, CallersOk;
    var h := Happens(g, e);
    forall m, c | m in h.sockets && c in h.callers && h.callers[c].pending == h.sockets[m].pending && StillAsking(h.callers[c])
      ensures OnItsWay(h, m)
    {
      assert OnItsWay(g, m);
      if Channel(g, g.sockets[m].pending) != Some(m) {
        var k :| k in g.deliveries && g.deliveries[k].socket == m;
        if k != e.k {
          assert h.deliveries[k].socket == m;
        }
      }
    }
  }

  // The caller that takes its socket, or drains, asks no longer; the others' sockets stay put.
  lemma TakeKeepsAsking(g: Net, e: Event)
    requires NetOk(g) && AskingOk(g) && Can(g, e) && (e.Receive? || e.Drain?)
    ensures AskingOk(Happens(g, e))
  {
    var h := Happens(g, e);
    forall m, c | m in h.sockets && c in h.callers && h.callers[c].pending == h.sockets[m].pending && StillAsking(h.callers[c])
      ensures OnItsWay(h, m)
    {
      TakeForm(g, e, m, c);
      hide NetOk, Can, Happens, OnItsWay;
      StillOnItsWay(g, h, m);
    }
  }

  lemma TakeForm(g: Net, e: Event, m: nat, c: nat)
    requires CallersOk(g) && Can(g, e) && (e.Receive? || e.Drain?)
    requires m in Happens(g, e).sockets && c in Happens(g, e).callers && StillAsking(Happens(g, e).callers[c])
    requires Happens(g, e).callers[c].pending == Happens(g, e).sockets[m].pending
    ensures var h := Happens(g, e);
            && m in g.sockets && h.sockets[m].pending == g.sockets[m].pending && h.deliveries == g.deliveries
            && c in g.callers && g.callers[c] == h.callers[c]
            && Channel(h, g.sockets[m].pending) == Channel(g, g.sockets[m].pending)
  {
  }

  lemma AskingKept(g: Net, e: Event)
    requires NetOk(g) && AskingOk(g) && Can(g, e)
    ensures AskingOk(Happens(g, e))
  {
    hide NetOk, AskingOk, Can, Happens;
    if Silent(e) {
      SilentKeepsAsking(g, e);
    } else if e.Connect? {
      ConnectKeepsAsking(g, e);
    } else if e.NewConnection? {
      CallbackKeepsAsking(g, e);
    } else if e.Send? {
      SendKeepsAsking(g, e);
    } else {
      TakeKeepsAsking(g, e);
    }
  }

  // What no event touches: the path of a pending connection.
  lemma PendingsKept(g: Net, e: Event, n: nat)
    requires Can(g, e) && n in g.pendings
    ensures n in Happens(g, e).pendings && Happens(g, e).pendings[n].path == g.pendings[n].path
    ensures e.Connect? ==> e.n != n
  {
  }

  lemma CallsSame(g: Net, e: Event)
    requires Can(g, e) && !e.Connect? && !e.CallReturns? && !e.Register?
    ensures Happens(g, e).shared.calls == g.shared.calls && Happens(g, e).returned == g.returned
  {
    hide AddressOf, Addresses, Buffered, Known;
  }

  lemma TokensChange(g: Net, e: Event, p: Path)
    requires Can(g, e)
    ensures var h := Happens(g, e);
            && (p in h.shared.calls ==>
                  if e.Connect? && e.path == p then h.shared.calls[p] == e.n
                  else p in g.shared.calls && h.shared.calls[p] == g.shared.calls[p])
            && (e.CallReturns? && p in h.shared.calls && g.pendings[e.n].path == p ==> h.shared.calls[p] != e.n)
            && (forall n :: n in h.returned <==> n in g.returned || (e.CallReturns? && n == e.n))
            && (e.Connect? ==> e.n in h.pendings && h.pendings[e.n].path == e.path && e.n !in g.pendings)
  {
    if !e.Connect? && !e.CallReturns? && !e.Register? {
      hide Can, Happens;
      CallsSame(g, e);
    }
  }

  lemma TokensKept(g: Net, e: Event)
    requires TokensOk(g) && Can(g, e)
    ensures TokensOk(Happens(g, e))
  {
    var h := Happens(g, e);
    forall p | p in h.shared.calls
      ensures h.shared.calls[p] in h.pendings && h.pendings[h.shared.calls[p]].path == p && h.shared.calls[p] !in h.returned
    {
      TokensChange(g, e, p);
      if p in g.shared.calls {
        PendingsKept(g, e, g.shared.calls[p]);
      }
      assert e.CallReturns? ==> e.n in g.pendings;
      hide Can, Happens;
    }
    forall n | n in h.returned ensures n in h.pendings {
      TokensChange(g, e, 0);
      if n in g.returned {
        PendingsKept(g, e, n);
      }
    }
  }

  ghost predicate Happened(g: Net, events: seq<Event>)
    decreases |events|
  {
    events == [] || (Can(g, events[0]) && Happened(Happens(g, events[0]), events[1..]))
  }

  function History(g: Net, events: seq<Event>): Net
    requires Happened(g, events)
    decreases |events|
  {
    if events == [] then g else History(Happens(g, events[0]), events[1..])
  }

  lemma {:induction false} EventsKeepNet(g: Net, events: seq<Event>)
    requires NetOk(g) && AskingOk(g) && TokensOk(g) && Happened(g, events)
    ensures NetOk(History(g, events)) && AskingOk(History(g, events)) && TokensOk(History(g, events))
    decreases |events|
  {
    hide NetOk, AskingOk, TokensOk, Can, Happens;
    if events != [] {
      EventKeepsNet(g, events[0]);
      AskingKept(g, events[0]);
      TokensKept(g, events[0]);
      EventsKeepNet(Happens(g, events[0]), events[1..]);
    }
  }

  // ---- the theorems ----

  lemma Reachable(events: seq<Event>)
    requires Happened(NewNet, events)
    ensures var g := History(NewNet, events); NetOk(g) && AskingOk(g) && TokensOk(g)
  {
    EventsKeepNet(NewNet, events);
  }

  // A device path never has both a waiter and an active socket.
  lemma NeverBoth(events: seq<Event>, p: Path)
    requires Happened(NewNet, events)
    ensures var g := History(NewNet, events); !(p in g.shared.waiters && p in g.shared.active)
  {
    Reachable(events);
    hide Happened, History, SocketsOk, PlacesOk, CallersOk, ActiveOk, AskingOk;
  }

  // The send of NewConnection never finds the channel full, so the callback never blocks; each
  // pending connection is given one socket at most.
  lemma SendNeverBlocks(events: seq<Event>, k: nat)
    requires Happened(NewNet, events) && k in History(NewNet, events).deliveries
    ensures var g := History(NewNet, events);
            && Can(g, Send(k)) && g.pendings[g.deliveries[k].pending].channel.None?
            && forall a, b | a in g.sockets && b in g.sockets && g.sockets[a].pending == g.sockets[b].pending :: a == b
  {
    hide Happened, History, WaitersOk, CallersOk, ActiveOk, AskingOk;
    Reachable(events);
  }

  // A descriptor goes to one Connect call at most, and only for the address and the device it
  // asked for.
  lemma DescriptorForItsCaller(events: seq<Event>, c: nat, d: nat)
    requires Happened(NewNet, events)
    requires var g := History(NewNet, events); c in g.callers && g.callers[c].Connected?
    ensures var g := History(NewNet, events);
            var m, n := g.callers[c].socket, g.callers[c].pending;
            && m in g.sockets && n in g.pendings
            && g.sockets[m].address == g.pendings[n].address && g.sockets[m].path == g.pendings[n].path
            && (d in g.callers && g.callers[d].Connected? && g.callers[d].socket == m ==> d == c)
            && (forall k | k in g.deliveries :: g.deliveries[k].socket != m)
  {
    hide Happened, History, WaitersOk, ActiveOk, AskingOk;
    Reachable(events);
  }

  // The call n returns in this run, or a replaced bus makes the broker forget every call.
  ghost predicate Forgotten(g: Net, events: seq<Event>, n: nat)
    requires Happened(g, events)
    decreases |events|
  {
    events != []
    && (|| (events[0].CallReturns? && events[0].n == n)
        || (events[0].Register? && Replaced(g.shared, events[0].registration))
        || Forgotten(Happens(g, events[0]), events[1..], n))
  }

  lemma TokenStays(g: Net, e: Event, p: Path)
    requires Can(g, e) && TokensOk(g) && p in g.shared.calls
    requires !(e.CallReturns? && e.n == g.shared.calls[p]) && !(e.Register? && Replaced(g.shared, e.registration))
    ensures var h := Happens(g, e); p in h.shared.calls && h.shared.calls[p] == g.shared.calls[p]
  {
    hide TokensOk;
    if !e.Connect? && !e.CallReturns? && !e.Register? {
      hide Can, Happens;
      CallsSame(g, e);
    }
  }

  lemma {:induction false} TokenStaysThroughout(g: Net, events: seq<Event>, p: Path)
    requires TokensOk(g) && Happened(g, events) && p in g.shared.calls && !Forgotten(g, events, g.shared.calls[p])
    ensures var h := History(g, events); p in h.shared.calls && h.shared.calls[p] == g.shared.calls[p]
    decreases |events|
  {
    hide TokensOk, Can, Happens, Replaced;
    if events != [] {
      TokenStays(g, events[0], p);
      TokensKept(g, events[0]);
      TokenStaysThroughout(Happens(g, events[0]), events[1..], p);
    }
  }

  // At any point of any history a token stands for a connect call of its own device that has not
  // returned, and it stays until that very call returns or the bus is replaced: calls that return
  // late, whose tokens a re-registration had removed, never clear the token of a newer call.
  lemma StaleCallSparesToken(events: seq<Event>, more: seq<Event>, p: Path)
    requires Happened(NewNet, events) && p in History(NewNet, events).shared.calls
    requires Happened(History(NewNet, events), more)
    ensures var g := History(NewNet, events);
            var n := g.shared.calls[p];
            && n in g.pendings && g.pendings[n].path == p && n !in g.returned
            && (!Forgotten(g, more, n) ==>
                  var h := History(g, more); p in h.shared.calls && h.shared.calls[p] == n && n !in h.returned)
  {
    hide NetOk, AskingOk;
    Reachable(events);
    var g := History(NewNet, events);
    EventsKeepNet(g, more);
    if !Forgotten(g, more, g.shared.calls[p]) {
      TokenStaysThroughout(g, more, p);
    }
    hide Happened, History, Forgotten;
  }

  // Whatever races, a socket nobody has begun to close is the active one of its path, where the
  // next disconnection finds it, or in the list of a re-registration or release that closes it.
  lemma OpenSocketIsReachable(events: seq<Event>, m: nat)
    requires Happened(NewNet, events)
    requires var g := History(NewNet, events); m in g.sockets && !g.sockets[m].closing && m !in g.dropped
    ensures var g := History(NewNet, events);
            var s := g.sockets[m];
            s.path in g.shared.active && g.shared.active[s.path] == m
  {
    hide Happened, History, WaitersOk, SocketsOk, PlacesOk, CallersOk, AskingOk;
    Reachable(events);
  }

  lemma DrainIn(g: Net, c: nat, m: nat)
    requires NetOk(g) && AskingOk(g) && c in g.callers && g.callers[c].Draining?
    requires m in g.sockets && !g.sockets[m].closing && g.sockets[m].pending == g.callers[c].pending
    ensures Can(g, Drain(c))
    ensures Happens(g, Drain(c)).sockets[m].closing <==> !exists k :: k in g.deliveries && g.deliveries[k].socket == m
  {
    hide WaitersOk, ActiveOk;
    assert OnItsWay(g, m);
  }

  // The broker closes the descriptor of a caller that gave up exactly when the callback has sent it
  // by the time the caller drains its channel. If it has left the lock but not sent yet, the drain
  // finds nothing, and the send that follows leaves the socket open in a channel nobody reads.
  lemma DrainClosesUnlessLate(events: seq<Event>, c: nat, m: nat)
    requires Happened(NewNet, events)
    requires var g := History(NewNet, events);
             && c in g.callers && g.callers[c].Draining? && m in g.sockets && !g.sockets[m].closing
             && g.sockets[m].pending == g.callers[c].pending
    ensures var g := History(NewNet, events);
            && Can(g, Drain(c))
            && (Happens(g, Drain(c)).sockets[m].closing
                <==> !exists k :: k in g.deliveries && g.deliveries[k].socket == m)
  {
    hide Happened, History, NetOk, AskingOk, Can, Happens;
    Reachable(events);
    DrainIn(History(NewNet, events), c, m);
  }

  lemma LateSendIn(g: Net, c: nat, k: nat)
    requires NetOk(g) && c in g.callers && g.callers[c].GivenUp? && k in g.deliveries
    requires g.deliveries[k].pending == g.callers[c].pending
    ensures Can(g, Send(k))
    ensures var h := Happens(g, Send(k));
            && Buffered(h, g.callers[c].pending) && h.sockets == g.sockets && h.callers == g.callers
            && forall d | Can(h, Receive(d)) || Can(h, Drain(d)) :: PendingOf(h, d) != g.callers[c].pending
  {
    hide WaitersOk, SocketsOk, ActiveOk;
  }

  lemma LateSendIsUnread(events: seq<Event>, c: nat, k: nat)
    requires Happened(NewNet, events)
    requires var g := History(NewNet, events);
             && c in g.callers && g.callers[c].GivenUp? && k in g.deliveries
             && g.deliveries[k].pending == g.callers[c].pending
    ensures var g := History(NewNet, events);
            && Can(g, Send(k))
            && var h := Happens(g, Send(k));
               && Buffered(h, g.callers[c].pending) && h.sockets == g.sockets && h.callers == g.callers
               && forall d | Can(h, Receive(d)) || Can(h, Drain(d)) :: PendingOf(h, d) != g.callers[c].pending
  {
    hide Happened, History, NetOk, AskingOk, Can, Happens, Buffered;
    Reachable(events);
    LateSendIn(History(NewNet, events), c, k);
  }

  // ---- connection states ----

  // The event reports the device at address a as disconnected: a socket of a closes, a call for a is
  // abandoned, a Disconnect of a ends, or the profile is released while a socket of a is active.
  predicate Disconnects(g: Net, e: Event, a: Address)
    requires Can(g, e)
  {
    match e
    case CloseSocket(m) => g.sockets[m].address == a
    case Drain(c) =>
      var channel := g.pendings[PendingOf(g, c)].channel;
      channel.Some? && channel.value in g.sockets && !g.sockets[channel.value].closing && g.sockets[channel.value].address == a
    case Reset(c) => g.pendings[PendingOf(g, c)].address == a
    case ReportDown(address) => address == a
    case Release => a in Addresses(g.shared, AddressOf(g))
    case _ => false
  }

  predicate Arrives(g: Net, e: Event, a: Address)
    requires Can(g, e)
  {
    e.NewConnection? && g.pendings[g.shared.waiters[e.path]].address == a
  }

  predicate ReportsConnected(g: Net, a: Address) {
    a in g.shared.states && g.shared.states[a]
  }

  // Events that report nothing about any device.
  predicate Untold(e: Event) {
    e.Connect? || e.CallReturns? || e.Send? || e.Receive? || e.CallFailed? || e.CallSucceeded? || e.Expire?
    || e.RemoveOwn? || e.Register?
  }

  lemma StatesSame(g: Net, e: Event)
    requires Can(g, e) && Untold(e)
    ensures Happens(g, e).shared.states == g.shared.states
  {
    hide AddressOf, Addresses, Buffered, Known, Replaced;
  }

  lemma DrainChangesState(g: Net, e: Event, a: Address)
    requires Can(g, e) && e.Drain?
    ensures ReportsConnected(Happens(g, e), a) <==> ReportsConnected(g, a) && !Disconnects(g, e, a)
  {
    hide AddressOf, Addresses, Buffered;
    var n := PendingOf(g, e.c);
    assert Moved(Emptied(g, n), e.c, Resetting(n)).shared == g.shared;
  }

  lemma StateChange(g: Net, e: Event, a: Address)
    requires Can(g, e)
    ensures ReportsConnected(Happens(g, e), a) <==> Arrives(g, e, a) || (ReportsConnected(g, a) && !Disconnects(g, e, a))
  {
    if Untold(e) {
      StatesSame(g, e);
      hide Can, Happens;
    } else if e.Drain? {
      DrainChangesState(g, e, a);
      hide Can, Happens, Disconnects;
    } else {
      hide Known, Buffered;
    }
  }

  ghost predicate NoneArrives(g: Net, events: seq<Event>, a: Address)
    requires Happened(g, events)
    decreases |events|
  {
    events == [] || (!Arrives(g, events[0], a) && NoneArrives(Happens(g, events[0]), events[1..], a))
  }

  ghost predicate SomeDisconnects(g: Net, events: seq<Event>, a: Address)
    requires Happened(g, events)
    decreases |events|
  {
    events != [] && (Disconnects(g, events[0], a) || SomeDisconnects(Happens(g, events[0]), events[1..], a))
  }

  lemma {:induction false} StateThroughout(g: Net, events: seq<Event>, a: Address)
    requires Happened(g, events) && NoneArrives(g, events, a)
    ensures ReportsConnected(History(g, events), a) <==> ReportsConnected(g, a) && !SomeDisconnects(g, events, a)
    decreases |events|
  {
    hide Can, Happens, Arrives, Disconnects, ReportsConnected;
    if events != [] {
      StateChange(g, events[0], a);
      StateThroughout(Happens(g, events[0]), events[1..], a);
    }
  }

  // From a connection on, and until another for the same address, a device counts as connected as
  // long as nothing of its address is closed, abandoned, disconnected or released.
  lemma StateFollowsConnection(g: Net, arrival: Event, more: seq<Event>)
    requires Can(g, arrival) && arrival.NewConnection? && Happened(Happens(g, arrival), more)
    requires NoneArrives(Happens(g, arrival), more, g.pendings[g.shared.waiters[arrival.path]].address)
    ensures var a, h := g.pendings[g.shared.waiters[arrival.path]].address, Happens(g, arrival);
            ReportsConnected(History(h, more), a) <==> !SomeDisconnects(h, more, a)
  {
    hide Happened, History, NoneArrives, SomeDisconnects;
    var a := g.pendings[g.shared.waiters[arrival.path]].address;
    StateChange(g, arrival, a);
    StateThroughout(Happens(g, arrival), more, a);
  }

  // ---- states against sockets ----

  predicate ActiveFor(g: Net, p: Path, m: nat) {
    p in g.shared.active && g.shared.active[p] == m
  }

  // The event takes socket m out of the active map: m closes, the bus is replaced, or the profile is
  // released.
  predicate Loses(g: Net, e: Event, m: nat)
    requires Can(g, e)
  {
    match e
    case CloseSocket(s) => s == m
    case Drain(c) => g.pendings[PendingOf(g, c)].channel == Some(m)
    case Register(registration) => Replaced(g.shared, registration)
    case Release => true
    case _ => false
  }

  // Events that leave the active map alone.
  predicate Inactive(e: Event) {
    e.Connect? || e.CallReturns? || e.Send? || e.Receive? || e.CallFailed? || e.CallSucceeded? || e.Expire?
    || e.RemoveOwn? || e.Reset? || e.ReportDown?
  }

  lemma ActiveSame(g: Net, e: Event)
    requires Can(g, e) && Inactive(e)
    ensures Happens(g, e).shared.active == g.shared.active
  {
    hide AddressOf, Addresses, Buffered, Known, Replaced;
  }

  lemma SocketsStay(g: Net, e: Event, m: nat)
    requires Can(g, e) && m in g.sockets
    ensures m in Happens(g, e).sockets
  {
    hide AddressOf, Addresses, Buffered, Known, Replaced, ActiveOk;
  }

  lemma ClosedActive(g: Net, m: nat, p: Path, s: nat)
    requires ActiveOk(g) && m in g.sockets && s in g.sockets
    ensures ActiveFor(Closed(g, m), p, s) <==> ActiveFor(g, p, s) && s != m
  {
  }

  lemma DrainActive(g: Net, e: Event, p: Path, m: nat)
    requires NetOk(g) && Can(g, e) && e.Drain? && m in g.sockets
    ensures ActiveFor(Happens(g, e), p, m) <==> ActiveFor(g, p, m) && !Loses(g, e, m)
  {
    hide WaitersOk, SocketsOk, CallersOk, ActiveOk, Closed;
    var n := PendingOf(g, e.c);
    var drained := Moved(Emptied(g, n), e.c, Resetting(n));
    if g.pendings[n].channel.Some? {
      CallerToRest(Emptied(g, n), e.c, Resetting(n));
      EmptiedActive(g, n);
      ClosedActive(drained, g.pendings[n].channel.value, p, m);
    }
  }

  lemma EmptiedActive(g: Net, n: nat)
    requires n in g.pendings
    ensures ActiveOk(Emptied(g, n)) == ActiveOk(g)
  {
  }

  lemma TakenOrCleared(g: Net, e: Event, p: Path, m: nat)
    requires Can(g, e) && (e.NewConnection? || e.Register? || e.Release?) && m in g.sockets
    ensures ActiveFor(Happens(g, e), p, m) <==> ActiveFor(g, p, m) && !Loses(g, e, m)
  {
    hide Known, Buffered, AddressOf, Addresses;
  }

  // A socket that is known stops being the active one of its path exactly by these events.
  lemma ActiveChange(g: Net, e: Event, p: Path, m: nat)
    requires NetOk(g) && Can(g, e) && m in g.sockets
    ensures ActiveFor(Happens(g, e), p, m) <==> ActiveFor(g, p, m) && !Loses(g, e, m)
  {
    if Inactive(e) {
      ActiveSame(g, e);
      hide NetOk, Can, Happens;
    } else if e.Drain? {
      DrainActive(g, e, p, m);
      hide NetOk, Can, Happens, Loses;
    } else if e.CloseSocket? {
      ClosedActive(g, e.m, p, m);
      hide NetOk, Closed, ActiveFor;
    } else {
      TakenOrCleared(g, e, p, m);
      hide NetOk, Can, Happens, Loses;
    }
  }

  ghost predicate SomeLoses(g: Net, events: seq<Event>, m: nat)
    requires Happened(g, events)
    decreases |events|
  {
    events != [] && (Loses(g, events[0], m) || SomeLoses(Happens(g, events[0]), events[1..], m))
  }

  lemma {:induction false} ActiveThroughout(g: Net, events: seq<Event>, p: Path, m: nat)
    requires NetOk(g) && Happened(g, events) && m in g.sockets
    ensures ActiveFor(History(g, events), p, m) <==> ActiveFor(g, p, m) && !SomeLoses(g, events, m)
    decreases |events|
  {
    hide NetOk, Can, Happens, Loses, ActiveFor;
    if events != [] {
      ActiveChange(g, events[0], p, m);
      EventKeepsNet(g, events[0]);
      SocketsStay(g, events[0], m);
      ActiveThroughout(Happens(g, events[0]), events[1..], p, m);
    }
  }

  // What a device is reported as agrees with its socket being the active one exactly when, since the
  // socket came in, either both or neither of these happened: something of its address was closed,
  // abandoned, disconnected or released; the socket itself was closed or lost its place to a replaced
  // bus or a release. An old socket or call that ends late does only the first, a replaced bus only
  // the second.
  lemma StateAgreesExactly(events: seq<Event>, arrival: Event, more: seq<Event>)
    requires Happened(NewNet, events) && Can(History(NewNet, events), arrival) && arrival.NewConnection?
    requires Happened(Happens(History(NewNet, events), arrival), more)
    requires var g := History(NewNet, events);
             NoneArrives(Happens(g, arrival), more, g.pendings[g.shared.waiters[arrival.path]].address)
    ensures var g := History(NewNet, events);
            var a, h := g.pendings[g.shared.waiters[arrival.path]].address, Happens(g, arrival);
            var end := History(h, more);
            && (ReportsConnected(end, a) <==> !SomeDisconnects(h, more, a))
            && (ActiveFor(end, arrival.path, arrival.m) <==> !SomeLoses(h, more, arrival.m))
            && ((ReportsConnected(end, a) <==> ActiveFor(end, arrival.path, arrival.m))
                <==> (SomeDisconnects(h, more, a) <==> SomeLoses(h, more, arrival.m)))
  {
    hide NetOk, AskingOk, TokensOk, Happened, History, NoneArrives, SomeDisconnects, SomeLoses, ReportsConnected;
    Reachable(events);
    var g := History(NewNet, events);
    StateFollowsConnection(g, arrival, more);
    EventKeepsNet(g, arrival);
    var h := Happens(g, arrival);
    assert arrival.m in h.sockets && ActiveFor(h, arrival.path, arrival.m);
    hide Can, Happens;
    ActiveThroughout(h, more, arrival.path, arrival.m);
  }

  // ---- waiters ----

  // The waiter of path p is given a descriptor, or taken back by its own caller.
  predicate Claimed(g: Net, e: Event, p: Path, n: nat)
    requires Can(g, e)
  {
    (e.NewConnection? && e.path == p) || (e.RemoveOwn? && PendingOf(g, e.c) == n)
  }

  lemma WaitersSame(g: Net, e: Event)
    requires Can(g, e) && !e.Connect? && !e.NewConnection? && !e.RemoveOwn?
    ensures Happens(g, e).shared.waiters == g.shared.waiters
  {
    hide AddressOf, Addresses, Buffered, Known;
  }

  // An installed waiter stays, under any event, until it is given a descriptor or taken back.
  lemma WaiterStays(g: Net, e: Event, p: Path)
    requires NetOk(g) && Can(g, e) && p in g.shared.waiters
    ensures var n := g.shared.waiters[p];
            if Claimed(g, e, p, n) then p !in Happens(g, e).shared.waiters
            else p in Happens(g, e).shared.waiters && Happens(g, e).shared.waiters[p] == n
  {
    hide SocketsOk, PlacesOk, ActiveOk, Addresses, AddressOf, Buffered;
    if !e.Connect? && !e.NewConnection? && !e.RemoveOwn? {
      WaitersSame(g, e);
      hide Can, Happens, NetOk;
    }
  }

  ghost predicate SomeClaims(g: Net, events: seq<Event>, p: Path, n: nat)
    requires Happened(g, events)
    decreases |events|
  {
    events != [] && (Claimed(g, events[0], p, n) || SomeClaims(Happens(g, events[0]), events[1..], p, n))
  }

  lemma {:induction false} WaiterStaysThroughout(g: Net, events: seq<Event>, p: Path)
    requires NetOk(g) && Happened(g, events) && p in g.shared.waiters
    requires !SomeClaims(g, events, p, g.shared.waiters[p])
    ensures var h := History(g, events); p in h.shared.waiters && h.shared.waiters[p] == g.shared.waiters[p]
    decreases |events|
  {
    hide NetOk, Can, Happens, Claimed;
    if events != [] {
      WaiterStays(g, events[0], p);
      EventKeepsNet(g, events[0]);
      WaiterStaysThroughout(Happens(g, events[0]), events[1..], p);
    }
  }

  // A call that has been let in is not forgotten: its waiter stays through any further events until
  // BlueZ brings a descriptor for its device or the call itself gives up, and a descriptor that BlueZ
  // brings meanwhile is made into a socket for this very call and its address.
  lemma CallIsServed(events: seq<Event>, connect: Event, more: seq<Event>, k: nat, m: nat)
    requires Happened(NewNet, events) && Can(History(NewNet, events), connect) && connect.Connect?
    requires var g := Happens(History(NewNet, events), connect);
             Happened(g, more) && !SomeClaims(g, more, connect.path, connect.n)
    ensures var h := History(Happens(History(NewNet, events), connect), more);
            && connect.path in h.shared.waiters && h.shared.waiters[connect.path] == connect.n
            && (k !in h.deliveries && m !in h.sockets ==>
                  && Can(h, NewConnection(k, connect.path, m))
                  && var after := Happens(h, NewConnection(k, connect.path, m));
                     && m in after.sockets && after.sockets[m] == Socket(connect.path, connect.address, connect.n, false)
                     && k in after.deliveries && after.deliveries[k] == Delivery(connect.n, m))
  {
    hide NetOk, AskingOk, TokensOk, Happened, History, SomeClaims;
    Reachable(events);
    var g0 := History(NewNet, events);
    EventKeepsNet(g0, connect);
    var g := Happens(g0, connect);
    assert g.shared.waiters[connect.path] == connect.n && g.pendings[connect.n] == Pending(connect.path, connect.address, None);
    WaiterStaysThroughout(g, more, connect.path);
    EventsKeepBoth(g, more);
    AddressKept(g, more, connect.n);
    hide Can, Happens;
    Delivered(History(g, more), connect.path, k, m);
  }

  lemma {:induction false} EventsKeepBoth(g: Net, events: seq<Event>)
    requires NetOk(g) && Happened(g, events)
    ensures NetOk(History(g, events))
    decreases |events|
  {
    hide NetOk, Can, Happens;
    if events != [] {
      EventKeepsNet(g, events[0]);
      EventsKeepBoth(Happens(g, events[0]), events[1..]);
    }
  }

  lemma PendingKept(g: Net, e: Event, n: nat)
    requires Can(g, e) && n in g.pendings
    ensures n in Happens(g, e).pendings && Happens(g, e).pendings[n].path == g.pendings[n].path
    ensures Happens(g, e).pendings[n].address == g.pendings[n].address
  {
    hide AddressOf, Addresses, Buffered;
  }

  lemma {:induction false} AddressKept(g: Net, events: seq<Event>, n: nat)
    requires Happened(g, events) && n in g.pendings
    ensures var h := History(g, events);
            n in h.pendings && h.pendings[n].path == g.pendings[n].path && h.pendings[n].address == g.pendings[n].address
    decreases |events|
  {
    hide Can, Happens;
    if events != [] {
      PendingKept(g, events[0], n);
      AddressKept(Happens(g, events[0]), events[1..], n);
    }
  }

  lemma Delivered(h: Net, p: Path, k: nat, m: nat)
    requires NetOk(h) && p in h.shared.waiters
    ensures k !in h.deliveries && m !in h.sockets ==>
              && Can(h, NewConnection(k, p, m))
              && var n, after := h.shared.waiters[p], Happens(h, NewConnection(k, p, m));
                 && n in h.pendings && m in after.sockets && after.sockets[m] == Socket(p, h.pendings[n].address, n, false)
                 && k in after.deliveries && after.deliveries[k] == Delivery(n, m)
  {
    hide SocketsOk, PlacesOk, CallersOk, ActiveOk;
  }

  // ---- calls that have given up ----

  // Nobody hands a descriptor to a call that has taken its waiter back.
  ghost predicate Withdrawn(g: Net, n: nat) {
    forall p | p in g.shared.waiters :: g.shared.waiters[p] != n
  }

  lemma WithdrawnKept(g: Net, e: Event, n: nat)
    requires Can(g, e) && n in g.pendings && Withdrawn(g, n)
    ensures Withdrawn(Happens(g, e), n) && n in Happens(g, e).pendings
    ensures e.NewConnection? ==> Happens(g, e).sockets[e.m].pending != n
  {
    hide AddressOf, Addresses, Buffered, Replaced;
  }

  lemma TakesBack(g: Net, e: Event)
    requires NetOk(g) && Can(g, e) && e.RemoveOwn?
    ensures Withdrawn(Happens(g, e), PendingOf(g, e.c)) && PendingOf(g, e.c) in Happens(g, e).pendings
  {
    hide SocketsOk, PlacesOk, ActiveOk;
  }

  ghost predicate MadeFor(g: Net, events: seq<Event>, n: nat)
    requires Happened(g, events)
    decreases |events|
  {
    events != []
    && ((events[0].NewConnection? && Happens(g, events[0]).sockets[events[0].m].pending == n)
        || MadeFor(Happens(g, events[0]), events[1..], n))
  }

  lemma {:induction false} NoneMadeFor(g: Net, events: seq<Event>, n: nat)
    requires Happened(g, events) && n in g.pendings && Withdrawn(g, n)
    ensures !MadeFor(g, events, n)
    decreases |events|
  {
    hide Can, Happens, Withdrawn;
    if events != [] {
      WithdrawnKept(g, events[0], n);
      NoneMadeFor(Happens(g, events[0]), events[1..], n);
    }
  }

  // Once a caller that gives up has taken its waiter back, no descriptor is ever made into a socket
  // for it.
  lemma AbandonedGetsNothing(events: seq<Event>, c: nat, more: seq<Event>)
    requires Happened(NewNet, events) && Can(History(NewNet, events), RemoveOwn(c))
    requires Happened(Happens(History(NewNet, events), RemoveOwn(c)), more)
    ensures var g := History(NewNet, events); !MadeFor(Happens(g, RemoveOwn(c)), more, PendingOf(g, c))
  {
    hide NetOk, AskingOk, TokensOk, Happened, History, MadeFor, Happens, Withdrawn;
    Reachable(events);
    TakesBack(History(NewNet, events), RemoveOwn(c));
    NoneMadeFor(Happens(History(NewNet, events), RemoveOwn(c)), more, PendingOf(History(NewNet, events), c));
  }

  // ---- callers come to an end ----

  // What a callback sends to a caller that still waits can be sent and received at once, and makes
  // that caller connected.
  lemma DeliveryIsReceived(events: seq<Event>, c: nat, k: nat)
    requires Happened(NewNet, events)
    requires var g := History(NewNet, events);
             && c in g.callers && (g.callers[c].Waiting? || g.callers[c].WaitingOn?)
             && k in g.deliveries && g.deliveries[k].pending == PendingOf(g, c)
    ensures var g := History(NewNet, events);
            && Can(g, Send(k)) && Can(Happens(g, Send(k)), Receive(c))
            && Happens(Happens(g, Send(k)), Receive(c))
               == g.(callers := g.callers[c := Connected(PendingOf(g, c), g.deliveries[k].socket)],
                     deliveries := g.deliveries - {k})
  {
    hide Happened, History;
    Reachable(events);
    var g := History(NewNet, events);
    var n := PendingOf(g, c);
    var sent := Happens(g, Send(k));
    var received := Happens(sent, Receive(c));
    assert received.pendings == g.pendings by {
      assert received.pendings[n] == g.pendings[n];
    }
  }

  // A caller that waits can give up by itself: its waiter goes, whatever lies in its channel is
  // closed, and its device is marked disconnected.
  lemma CallerCanGiveUp(events: seq<Event>, c: nat)
    requires Happened(NewNet, events)
    requires var g := History(NewNet, events); c in g.callers && (g.callers[c].Waiting? || g.callers[c].WaitingOn?)
    ensures var g := History(NewNet, events);
            var n := PendingOf(g, c);
            var more := [Expire(c), RemoveOwn(c), Drain(c), Reset(c)];
            && n in g.pendings && Happened(g, more)
            && var e := History(g, more);
               && e.callers == g.callers[c := GivenUp(n)]
               && !(g.pendings[n].path in e.shared.waiters && e.shared.waiters[g.pendings[n].path] == n)
               && n in e.pendings && e.pendings[n].channel.None?
               && (g.pendings[n].channel.Some? ==>
                     var m := g.pendings[n].channel.value; m in e.sockets && e.sockets[m].closing)
               && g.pendings[n].address in e.shared.states && !e.shared.states[g.pendings[n].address]
  {
    hide Happened, History;
    Reachable(events);
    var g := History(NewNet, events);
    ChannelKnown(g, c);
    hide NetOk, TokensOk, AskingOk;
    GivesUp(g, c);
  }

  lemma ChannelKnown(g: Net, c: nat)
    requires NetOk(g) && c in g.callers
    ensures var n := PendingOf(g, c);
            n in g.pendings && (g.pendings[n].channel.Some? ==> g.pendings[n].channel.value in g.sockets)
  {
    hide WaitersOk, ActiveOk, SocketsOk;
  }

  lemma GivesUp(g: Net, c: nat)
    requires c in g.callers && (g.callers[c].Waiting? || g.callers[c].WaitingOn?) && PendingOf(g, c) in g.pendings
    requires var p := g.pendings[PendingOf(g, c)]; p.channel.Some? ==> p.channel.value in g.sockets
    ensures var n := PendingOf(g, c);
            var more := [Expire(c), RemoveOwn(c), Drain(c), Reset(c)];
            && Happened(g, more)
            && var e := History(g, more);
               && e.callers == g.callers[c := GivenUp(n)]
               && !(g.pendings[n].path in e.shared.waiters && e.shared.waiters[g.pendings[n].path] == n)
               && n in e.pendings && e.pendings[n].channel.None?
               && (g.pendings[n].channel.Some? ==>
                     var m := g.pendings[n].channel.value; m in e.sockets && e.sockets[m].closing)
               && g.pendings[n].address in e.shared.states && !e.shared.states[g.pendings[n].address]
  {
    hide Happened, History, Can, Happens;
    var n := PendingOf(g, c);
    var p := g.pendings[n];
    var giving := ExpireIs(g, c);
    var removed := RemoveOwnIs(giving, c);
    assert removed == g.(callers := g.callers[c := Draining(n)], shared := WaiterRemoved(g.shared, p.path, n));
    var drained := DrainIs(removed, c);
    var e := ResetIs(drained, c);
    assert e.callers == g.callers[c := GivenUp(n)];
    FourEvents(g, Expire(c), RemoveOwn(c), Drain(c), Reset(c));
  }

  lemma ExpireIs(g: Net, c: nat) returns (g': Net)
    requires c in g.callers && (g.callers[c].Waiting? || g.callers[c].WaitingOn?) && PendingOf(g, c) in g.pendings
    ensures Can(g, Expire(c)) && g' == Happens(g, Expire(c)) == Moved(g, c, Cancelling(PendingOf(g, c)))
  {
    g' := Happens(g, Expire(c));
  }

  lemma RemoveOwnIs(g: Net, c: nat) returns (g': Net)
    requires c in g.callers && g.callers[c].Cancelling? && PendingOf(g, c) in g.pendings
    ensures var n := PendingOf(g, c);
            && Can(g, RemoveOwn(c)) && g' == Happens(g, RemoveOwn(c))
            && g' == Moved(g, c, Draining(n)).(shared := WaiterRemoved(g.shared, g.pendings[n].path, n))
  {
    g' := Happens(g, RemoveOwn(c));
  }

  lemma DrainIs(g: Net, c: nat) returns (g': Net)
    requires c in g.callers && g.callers[c].Draining? && PendingOf(g, c) in g.pendings
    requires var p := g.pendings[PendingOf(g, c)]; p.channel.Some? ==> p.channel.value in g.sockets
    ensures var n := PendingOf(g, c);
            && Can(g, Drain(c)) && g' == Happens(g, Drain(c))
            && g'.callers == g.callers[c := Resetting(n)] && g'.pendings == Emptied(g, n).pendings
            && g'.shared.waiters == g.shared.waiters
            && (g.pendings[n].channel.Some? ==>
                  g.pendings[n].channel.value in g'.sockets && g'.sockets[g.pendings[n].channel.value].closing)
  {
    g' := Happens(g, Drain(c));
  }

  lemma ResetIs(g: Net, c: nat) returns (g': Net)
    requires c in g.callers && g.callers[c].Resetting? && PendingOf(g, c) in g.pendings
    ensures var n := PendingOf(g, c);
            && Can(g, Reset(c)) && g' == Happens(g, Reset(c))
            && g' == Moved(g, c, GivenUp(n)).(shared := StateSet(g.shared, g.pendings[n].address, false))
  {
    g' := Happens(g, Reset(c));
  }

  lemma FourEvents(g: Net, a: Event, b: Event, c: Event, d: Event)
    requires Can(g, a) && Can(Happens(g, a), b) && Can(Happens(Happens(g, a), b), c)
    requires Can(Happens(Happens(Happens(g, a), b), c), d)
    ensures Happened(g, [a, b, c, d])
    ensures History(g, [a, b, c, d]) == Happens(Happens(Happens(Happens(g, a), b), c), d)
  {
    hide Can, Happens, Happened, History;
    var g1 := Happens(g, a);
    var g2 := Happens(g1, b);
    var g3 := Happens(g2, c);
    assert [d] + [] == [d] && [c] + [d] == [c, d] && [b] + [c, d] == [b, c, d] && [a] + [b, c, d] == [a, b, c, d];
    NoEvents(Happens(g3, d));
    EventFirst(g3, d, []);
    EventFirst(g2, c, [d]);
    EventFirst(g1, b, [c, d]);
    EventFirst(g, a, [b, c, d]);
  }

  lemma NoEvents(g: Net)
    ensures Happened(g, []) && History(g, []) == g
  {
  }

  lemma EventFirst(g: Net, e: Event, more: seq<Event>)
    requires Can(g, e) && Happened(Happens(g, e), more)
    ensures Happened(g, [e] + more) && History(g, [e] + more) == History(Happens(g, e), more)
  {
    hide Can, Happens;
    assert ([e] + more)[1..] == more;
  }
}
