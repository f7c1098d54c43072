/**
 Two-phase connection admission: a bound on connections before authentication and another after it,
 each both global and for every source address. A permit that is dropped returns its capacity.
 */
module Connections {
  import opened Prelude

  type Ip = nat

  const CONNECTIONS_PER_PEER := 8

  class Semaphore {
    var available: nat

    constructor (limit: nat)
      ensures available == limit
    {
      available := limit;
    }

    method TryAcquire(n: nat) returns (taken: bool)
      modifies this
      ensures taken == (old(available) >= n) && available == (if taken then old(available) - n else old(available))
    {
      taken := available >= n;
      if taken {
        available := available - n;
      }
    }

    method Release(n: nat)
      modifies this
      ensures available == old(available) + n
    {
      available := available + n;
    }
  }

  /** The permits of one phase pair; a connection owns the permits its successful calls took. */
  class PhaseAdmission {
    const unauthenticated: Semaphore
    const authenticated: Semaphore

    constructor (unauthenticatedLimit: nat, authenticatedLimit: nat)
      ensures unauthenticated != authenticated && fresh(unauthenticated) && fresh(authenticated)
      ensures unauthenticated.available == unauthenticatedLimit && authenticated.available == authenticatedLimit
    {
      unauthenticated := new Semaphore(unauthenticatedLimit);
      authenticated := new Semaphore(authenticatedLimit);
    }

    method TryBegin() returns (begun: bool)
      modifies unauthenticated
      ensures begun == (old(unauthenticated.available) > 0)
      ensures unauthenticated.available == old(unauthenticated.available) - (if begun then 1 else 0)
    {
      begun := unauthenticated.TryAcquire(1);
    }

    /** A refusal hands the unauthenticated permit back to its owner; success exchanges it. */
    method TryAuthenticate() returns (upgraded: bool)
      requires unauthenticated != authenticated
      modifies unauthenticated, authenticated
      ensures upgraded == (old(authenticated.available) > 0)
      ensures authenticated.available == old(authenticated.available) - (if upgraded then 1 else 0)
      ensures unauthenticated.available == old(unauthenticated.available) + (if upgraded then 1 else 0)
    {
      upgraded := authenticated.TryAcquire(1);
      if upgraded {
        unauthenticated.Release(1);
      }
    }
  }

  function Occurrences(addresses: seq<Ip>, ip: Ip): nat {
    if addresses == [] then 0
    else Occurrences(addresses[..|addresses| - 1], ip) + if addresses[|addresses| - 1] == ip then 1 else 0
  }

  /** Peers behind one address share a budget that grows with their number. */
  method SourceLimits(addresses: seq<Ip>) returns (limits: map<Ip, nat>)
    ensures forall ip :: ip in limits <==> Occurrences(addresses, ip) > 0
    ensures forall ip :: ip in limits ==> limits[ip] == CONNECTIONS_PER_PEER * Occurrences(addresses, ip)
  {
    limits := map[];
    for i := 0 to |addresses|
      invariant forall ip :: ip in limits <==> Occurrences(addresses[..i], ip) > 0
      invariant forall ip :: ip in limits ==> limits[ip] == CONNECTIONS_PER_PEER * Occurrences(addresses[..i], ip)
    {
      assert addresses[..i + 1][..i] == addresses[..i];
      var ip := addresses[i];
      limits := limits[ip := CONNECTIONS_PER_PEER + if ip in limits then limits[ip] else 0];
    }
    assert addresses[..|addresses|] == addresses;
  }

  // ---- Any number of connections, in any interleaving ----

  datatype Pool =
    | GlobalUnauthenticated
    | GlobalAuthenticated
    | SourceUnauthenticated(ip: Ip)
    | SourceAuthenticated(ip: Ip)

  /** Permits are taken one at a time; a new one is taken before the one it replaces is dropped. */
  datatype Stage = Accepted | Begun | Admitted | Upgrading | Upgraded | Finishing | Working | Closed

  datatype Connection = Connection(ip: Ip, stage: Stage)

  datatype State = State(available: map<Pool, nat>, connections: seq<Connection>)

  datatype Event = Arrive(ip: Ip) | Proceed(connection: nat) | Drop(connection: nat)

  /** The permits a connection holds. */
  predicate Holds(c: Connection, p: Pool) {
    match p
    case GlobalUnauthenticated => c.stage.Begun? || c.stage.Admitted? || c.stage.Upgrading?
    case GlobalAuthenticated => c.stage.Upgrading? || c.stage.Upgraded? || c.stage.Finishing? || c.stage.Working?
    case SourceUnauthenticated(ip) =>
      ip == c.ip && (c.stage.Admitted? || c.stage.Upgrading? || c.stage.Upgraded? || c.stage.Finishing?)
    case SourceAuthenticated(ip) => ip == c.ip && (c.stage.Finishing? || c.stage.Working?)
  }

  /** The permit the next step asks for. */
  function Wanted(c: Connection): Option<Pool> {
    match c.stage
    case Accepted => Some(GlobalUnauthenticated)
    case Begun => Some(SourceUnauthenticated(c.ip))
    case Admitted => Some(GlobalAuthenticated)
    case Upgraded => Some(SourceAuthenticated(c.ip))
    case _ => None
  }

  /** The permit the next step drops, its replacement being held. */
  function Surplus(c: Connection): Option<Pool> {
    match c.stage
    case Upgrading => Some(GlobalUnauthenticated)
    case Finishing => Some(SourceUnauthenticated(c.ip))
    case _ => None
  }

  function Next(stage: Stage): Stage {
    match stage
    case Accepted => Begun
    case Begun => Admitted
    case Admitted => Upgrading
    case Upgrading => Upgraded
    case Upgraded => Finishing
    case Finishing => Working
    case Working => Working
    case Closed => Closed
  }

  function Taken(available: map<Pool, nat>, p: Pool): map<Pool, nat>
    requires p in available && available[p] > 0
  {
    available[p := available[p] - 1]
  }

  function Given(available: map<Pool, nat>, p: Pool): map<Pool, nat> {
    if p in available then available[p := available[p] + 1] else available
  }

  /** Everything the connection holds goes back. */
  function Returned(available: map<Pool, nat>, c: Connection): map<Pool, nat> {
    map p | p in available :: available[p] + if Holds(c, p) then 1 else 0
  }

  predicate Possible(s: State, e: Event) {
    e.Arrive? || e.connection < |s.connections|
  }

  function Closing(s: State, i: nat): State
    requires i < |s.connections|
  {
    State(Returned(s.available, s.connections[i]), s.connections[i := s.connections[i].(stage := Closed)])
  }

  /** A refused permit closes the connection; an unknown source has no pool and is refused. */
  function Step(s: State, e: Event): State
    requires Possible(s, e)
  {
    match e
    case Arrive(ip) => s.(connections := s.connections + [Connection(ip, Accepted)])
    case Drop(i) => Closing(s, i)
    case Proceed(i) =>
      var c := s.connections[i];
      var advanced := s.connections[i := c.(stage := Next(c.stage))];
      if Wanted(c).Some? then
        var p := Wanted(c).value;
        if p in s.available && s.available[p] > 0 then State(Taken(s.available, p), advanced) else Closing(s, i)
      else if Surplus(c).Some? then State(Given(s.available, Surplus(c).value), advanced)
      else s
  }

  function Held(connections: seq<Connection>, p: Pool): nat {
    if connections == [] then 0
    else Held(connections[..|connections| - 1], p) + if Holds(connections[|connections| - 1], p) then 1 else 0
  }

  /** Available plus held is the limit, in every pool. */
  ghost predicate Conserved(s: State, limits: map<Pool, nat>) {
    && s.available.Keys == limits.Keys
    && (forall p :: p in limits ==> s.available[p] + Held(s.connections, p) == limits[p])
    && (forall p :: p !in limits ==> Held(s.connections, p) == 0)
  }

  lemma {:induction false} HeldAt(connections: seq<Connection>, i: nat, c: Connection, p: Pool)
    requires i < |connections|
    ensures Held(connections[i := c], p) + (if Holds(connections[i], p) then 1 else 0)
         == Held(connections, p) + (if Holds(c, p) then 1 else 0)
    decreases |connections|
  {
    var n := |connections| - 1;
    if i < n {
      HeldAt(connections[..n], i, c, p);
      assert connections[i := c][..n] == connections[..n][i := c];
    } else {
      assert connections[i := c][..n] == connections[..n];
    }
  }

  lemma {:induction false} HeldAtLeast(connections: seq<Connection>, i: nat, p: Pool)
    requires i < |connections| && Holds(connections[i], p)
    ensures Held(connections, p) > 0
    decreases |connections|
  {
    var n := |connections| - 1;
    if i < n { HeldAtLeast(connections[..n], i, p); }
  }

  /** Moving to the next stage changes exactly the permit taken or dropped. */
  lemma NextHolds(c: Connection, p: Pool)
    ensures var d := c.(stage := Next(c.stage));
            Holds(d, p) <==> (Holds(c, p) && Surplus(c) != Some(p)) || Wanted(c) == Some(p)
    ensures Wanted(c) == Some(p) ==> !Holds(c, p)
    ensures Surplus(c) == Some(p) ==> Holds(c, p)
  {}

  lemma StepConserves(s: State, e: Event, limits: map<Pool, nat>)
    requires Conserved(s, limits) && Possible(s, e)
    ensures Conserved(Step(s, e), limits)
  {
    var t := Step(s, e);
    forall p ensures p in limits ==> t.available[p] + Held(t.connections, p) == limits[p]
      ensures p !in limits ==> Held(t.connections, p) == 0
    {
      if e.Arrive? {
        assert t.connections[..|s.connections|] == s.connections;
      } else {
        var c := s.connections[e.connection];
        HeldAt(s.connections, e.connection, t.connections[e.connection], p);
        NextHolds(c, p);
        if Holds(c, p) { HeldAtLeast(s.connections, e.connection, p); }
      }
    }
  }

  function After(s: State, events: seq<Event>): State
    decreases |events|
  {
    if events == [] then s
    else After(if Possible(s, events[0]) then Step(s, events[0]) else s, events[1..])
  }

  lemma {:induction false} RunConserves(s: State, events: seq<Event>, limits: map<Pool, nat>)
    requires Conserved(s, limits)
    ensures Conserved(After(s, events), limits)
    decreases |events|
  {
    if events != [] {
      if Possible(s, events[0]) { StepConserves(s, events[0], limits); }
      RunConserves(if Possible(s, events[0]) then Step(s, events[0]) else s, events[1..], limits);
    }
  }

  /**
   After any interleaving of arrivals, steps and drops, available plus held equals the limit in every
   pool, so no limit is ever exceeded and a refused step keeps nothing; and once every connection is
   closed all capacity is back.
   */
  lemma PermitsAreConserved(limits: map<Pool, nat>, events: seq<Event>)
    ensures var s := After(State(limits, []), events);
            && Conserved(s, limits)
            && (forall p :: p in limits ==> Held(s.connections, p) <= limits[p])
            && ((forall c :: c in s.connections ==> c.stage == Closed) ==> s.available == limits)
  {
    RunConserves(State(limits, []), events, limits);
    var s := After(State(limits, []), events);
    if forall c :: c in s.connections ==> c.stage == Closed {
      forall p ensures Held(s.connections, p) == 0 { ClosedHoldNothing(s.connections, p); }
    }
  }

  lemma {:induction false} ClosedHoldNothing(connections: seq<Connection>, p: Pool)
    requires forall c :: c in connections ==> c.stage == Closed
    ensures Held(connections, p) == 0
    decreases |connections|
  {
    if connections != [] { ClosedHoldNothing(connections[..|connections| - 1], p); }
  }
}
