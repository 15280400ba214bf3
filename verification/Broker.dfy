// The RFCOMM profile broker: a rendezvous between Connect callers and the callbacks of BlueZ. This
// module has its shared fields and the sections that run under its lock.
module Broker {
  import opened Domain

  // Device object paths, Bluetooth addresses and BlueZ registrations are only compared. A pending
  // connection, its call token and a socket are known by the number they were made with.
  type Path = nat
  type Address = nat

  datatype Shared = Shared(
    waiters: map<Path, nat>,
    active: map<Path, nat>,
    calls: map<Path, nat>,
    states: map<Address, bool>,
    registration: Option<nat>)

  const NewShared := Shared(map[], map[], map[], map[], None)

  datatype Refusal = AlreadyConnected | AlreadyConnecting | CallOutstanding

  // Connect: why the device cannot be waited for now.
  function Obstacle(b: Shared, path: Path): Option<Refusal> {
    if path in b.active then Some(AlreadyConnected)
    else if path in b.waiters then Some(AlreadyConnecting)
    else if path in b.calls then Some(CallOutstanding)
    else None
  }

  function Installed(b: Shared, path: Path, n: nat): Shared {
    b.(waiters := b.waiters[path := n], calls := b.calls[path := n])
  }

  // The goroutine around connectProfile, when it returns.
  function CallReturned(b: Shared, path: Path, n: nat): Shared {
    if path in b.calls && b.calls[path] == n then b.(calls := b.calls - {path}) else b
  }

  // NewConnection takes the waiter, or rejects the descriptor.
  predicate Takes(b: Shared, path: Path) {
    path in b.waiters && path !in b.active
  }

  function Taken(b: Shared, path: Path, m: nat, address: Address): Shared {
    b.(waiters := b.waiters - {path}, active := b.active[path := m], states := b.states[address := true])
  }

  function WaiterRemoved(b: Shared, path: Path, n: nat): Shared {
    if path in b.waiters && b.waiters[path] == n then b.(waiters := b.waiters - {path}) else b
  }

  function StateSet(b: Shared, address: Address, connected: bool): Shared {
    b.(states := b.states[address := connected])
  }

  function SocketClosed(b: Shared, path: Path, m: nat, address: Address): Shared {
    b.(active := if path in b.active && b.active[path] == m then b.active - {path} else b.active,
       states := b.states[address := false])
  }

  // ensureRegistered: a new registration means the bus was replaced.
  predicate Replaced(b: Shared, registration: nat) {
    b.registration.Some? && b.registration.value != registration
  }

  function Reregistered(b: Shared, registration: nat): Shared {
    if Replaced(b, registration)
    then b.(active := map[], calls := map[], registration := Some(registration))
    else b.(registration := Some(registration))
  }

  function Released(b: Shared, addressOf: map<nat, Address>): Shared {
    b.(active := map[], registration := None,
       states := b.states + map a | a in Addresses(b, addressOf) :: false)
  }

  function Addresses(b: Shared, addressOf: map<nat, Address>): set<Address> {
    set p | p in b.active && b.active[p] in addressOf :: addressOf[b.active[p]]
  }

  class ProfileBroker {
    var waiters: map<Path, nat>
    var active: map<Path, nat>
    var calls: map<Path, nat>
    var states: map<Address, bool>
    var registration: Option<nat>

    function State(): Shared
      reads this
    {
      Shared(waiters, active, calls, states, registration)
    }

    constructor ()
      ensures State() == NewShared
    {
      waiters, active, calls, states, registration := map[], map[], map[], map[], None;
    }

    method Install(path: Path, n: nat) returns (refused: Option<Refusal>)
      modifies this
      ensures refused == Obstacle(old(State()), path)
      ensures State() == if refused.Some? then old(State()) else Installed(old(State()), path, n)
      ensures refused == if path in old(active) then Some(AlreadyConnected) else if path in old(waiters) then Some(AlreadyConnecting)
                         else if path in old(calls) then Some(CallOutstanding) else None
      ensures refused.None? ==> waiters == old(waiters)[path := n] && calls == old(calls)[path := n]
      ensures active == old(active) && states == old(states) && registration == old(registration)
    {
      if path in active {
        return Some(AlreadyConnected);
      }
      if path in waiters {
        return Some(AlreadyConnecting);
      }
      if path in calls {
        return Some(CallOutstanding);
      }
      waiters := waiters[path := n];
      calls := calls[path := n];
      return None;
    }

    method ForgetCall(path: Path, n: nat)
      modifies this
      ensures State() == CallReturned(old(State()), path, n)
      ensures calls == (if path in old(calls) && old(calls)[path] == n then old(calls) - {path} else old(calls))
      ensures waiters == old(waiters) && active == old(active) && states == old(states) && registration == old(registration)
    {
      if path in calls && calls[path] == n {
        calls := calls - {path};
      }
    }

    // The pending connection that gets the descriptor, if it is wanted.
    method TakeWaiter(path: Path, m: nat, addressOf: map<nat, Address>) returns (pending: Option<nat>)
      requires forall p | p in waiters :: waiters[p] in addressOf
      modifies this
      ensures pending.Some? <==> Takes(old(State()), path)
      ensures pending.Some? ==>
                pending.value == old(waiters)[path] && State() == Taken(old(State()), path, m, addressOf[pending.value])
      ensures pending.None? ==> State() == old(State())
      ensures pending.Some? <==> path in old(waiters) && path !in old(active)
      ensures pending.Some? ==> waiters == old(waiters) - {path} && active == old(active)[path := m]
                                && states == old(states)[addressOf[pending.value] := true]
      ensures calls == old(calls) && registration == old(registration)
    {
      if path !in waiters || path in active {
        return None;
      }
      pending := Some(waiters[path]);
      waiters := waiters - {path};
      active := active[path := m];
      states := states[addressOf[pending.value] := true];
    }

    method RemoveWaiter(path: Path, n: nat)
      modifies this
      ensures State() == WaiterRemoved(old(State()), path, n)
      ensures waiters == (if path in old(waiters) && old(waiters)[path] == n then old(waiters) - {path} else old(waiters))
      ensures active == old(active) && calls == old(calls) && states == old(states) && registration == old(registration)
    {
      if path in waiters && waiters[path] == n {
        waiters := waiters - {path};
      }
    }

    method SetState(address: Address, connected: bool)
      modifies this
      ensures State() == StateSet(old(State()), address, connected)
    {
      states := states[address := connected];
    }

    // The locked sections of cancelPending, with nothing between them.
    method CancelPending(path: Path, n: nat, address: Address)
      modifies this
      ensures State() == StateSet(WaiterRemoved(old(State()), path, n), address, false)
      ensures waiters == (if path in old(waiters) && old(waiters)[path] == n then old(waiters) - {path} else old(waiters))
      ensures states == old(states)[address := false]
    {
      RemoveWaiter(path, n);
      SetState(address, false);
    }

    method CloseSocket(path: Path, m: nat, address: Address)
      modifies this
      ensures State() == SocketClosed(old(State()), path, m, address)
      ensures active == (if path in old(active) && old(active)[path] == m then old(active) - {path} else old(active))
      ensures states == old(states)[address := false] && waiters == old(waiters) && calls == old(calls)
    {
      if path in active && active[path] == m {
        active := active - {path};
      }
      states := states[address := false];
    }

    // The sockets of a replaced bus are returned for closing.
    method Register(renewed: nat) returns (stale: set<nat>)
      modifies this
      ensures State() == Reregistered(old(State()), renewed)
      ensures stale == if Replaced(old(State()), renewed) then old(active).Values else {}
      ensures registration == Some(renewed) && waiters == old(waiters) && states == old(states)
      ensures if old(registration).None? || old(registration) == Some(renewed) then active == old(active) && calls == old(calls)
              else active == map[] && calls == map[] && stale == old(active).Values
    {
      stale := {};
      if registration.Some? && registration.value != renewed {
        stale := active.Values;
        active := map[];
        calls := map[];
      }
      registration := Some(renewed);
    }

    method Release(addressOf: map<nat, Address>) returns (sockets: set<nat>)
      modifies this
      ensures State() == Released(old(State()), addressOf) && sockets == old(active).Values
      ensures active == map[] && registration == None && waiters == old(waiters) && calls == old(calls)
      ensures forall a, p | p in old(active) && old(active)[p] in addressOf && addressOf[old(active)[p]] == a ::
                a in states && !states[a]
      ensures forall a | forall p | p in old(active) && old(active)[p] in addressOf :: addressOf[old(active)[p]] != a ::
                if a in old(states) then a in states && states[a] == old(states)[a] else a !in states
    {
      sockets := active.Values;
      var gone := Addresses(State(), addressOf);
      states := states + map a | a in gone :: false;
      active := map[];
      registration := None;
    }
  }
}
