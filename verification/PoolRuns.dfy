/** Whole runs of the pool: every interleaving of its critical sections, with time moving forward. */
module PoolRuns {
  import opened Common
  import opened Addresses
  import opened Pool
  import opened PoolSafety
  import opened PoolLeases
  import opened PoolConnections

  // Each step happens under the manager's lock. Inputs stand for callers, probes and clocks.
  datatype Step =
    | Add(id: ProxyId, address: Address, disabled: bool)
    | Update(id: ProxyId, address: Address, disabled: bool)
    | Switch(id: ProxyId, disabled: bool)
    | Delete(id: ProxyId)
    | Release(c: Client)
    | ReserveFor(c: Client, refresh: bool)
    | RestoreOne(id: ProxyId, c: Client)
    | BlameOne(id: ProxyId, c: Client)
    | Grant(id: ProxyId, c: Client, refresh: bool, expires: Time)
    | GrantDynamic(c: Client, id: ProxyId, address: Address, expires: Time)
    | Queue(c: Client, refresh: bool)
    | Unqueue(c: Client, stayNew: bool, stayRefs: bool)
    | Pop
    | Connect(c: Client, k: Connection)
    | Disconnect(c: Client, id: ProxyId, k: Connection)
    | Verdict(id: ProxyId, passed: bool, failureThreshold: nat, successThreshold: nat)
    | FlushDelete(id: ProxyId)

  ghost function Apply(s: State, step: Step, now: Time): State {
    match step
    case Add(id, address, disabled) => AddProxy(s, id, address, disabled)
    case Update(id, address, disabled) => UpdateProxy(s, id, address, disabled)
    case Switch(id, disabled) => SetProxyDisabled(s, id, disabled)
    case Delete(id) => DeleteProxy(s, id)
    case Release(c) => ReleaseLease(s, c, now)
    case ReserveFor(c, refresh) => Reserve(s, c, refresh, now).0
    case RestoreOne(id, c) => Restore(s, id, c)
    case BlameOne(id, c) => Blame(s, id, c)
    case Grant(id, c, refresh, expires) => Activate(s, id, c, refresh, expires)
    case GrantDynamic(c, id, address, expires) => ActivateDynamic(s, c, id, address, expires)
    case Queue(c, refresh) => EnqueuePending(s, c, refresh)
    case Unqueue(c, stayNew, stayRefs) => Unqueued(s, c, stayNew, stayRefs)
    case Pop => NextQueued(s, now).0
    case Connect(c, k) => AcquireConn(s, c, k, now).0
    case Disconnect(c, id, k) => UnregisterConn(s, c, id, k, now)
    case Verdict(id, passed, failureThreshold, successThreshold) =>
      RecordHealth(s, id, passed, failureThreshold, successThreshold, now)
    case FlushDelete(id) => s.(disk := EraseProxy(s.disk, {id}))
  }

  /** A generated proxy name is new; a deletion reaches the disk before its name is used again. */
  predicate FreshName(s: State, step: Step) {
    match step
    case GrantDynamic(_, id, _, _) => Unleased(s.leases, id) && id !in s.disk.proxies && id !in s.disk.dynamics
    case Add(id, _, _) => id !in s.proxies ==> id !in s.disk.dynamics
    case FlushDelete(id) => id !in s.proxies
    case _ => true
  }

  /** No busy proxy without a lease is made idle, and connections are unregistered where they were made. */
  ghost predicate Careful(s: State, step: Step, now: Time) {
    match step
    case Verdict(id, passed, _, _) => passed ==> !RecoversBusy(s, id, now)
    case Disconnect(c, id, k) => GivenThrough(s, c, id, k)
    case _ => true
  }

  // A step and the time at which it happens.
  datatype Event = Event(step: Step, now: Time)

  ghost function Run(s: State, events: seq<Event>): State
    decreases |events|
  {
    if events == [] then s else Run(Apply(s, events[0].step, events[0].now), events[1..])
  }

  /** Time does not run backwards, and names are fresh when they must be. */
  ghost predicate Possible(s: State, events: seq<Event>, from: Time)
    decreases |events|
  {
    events == [] ||
    (&& from <= events[0].now && FreshName(s, events[0].step)
     && Possible(Apply(s, events[0].step, events[0].now), events[1..], events[0].now))
  }

  ghost predicate AllCareful(s: State, events: seq<Event>)
    decreases |events|
  {
    events == [] ||
    (Careful(s, events[0].step, events[0].now) && AllCareful(Apply(s, events[0].step, events[0].now), events[1..]))
  }

  /** When the last event happened. */
  function EndOf(events: seq<Event>, from: Time): Time {
    if events == [] then from else events[|events| - 1].now
  }

  lemma EndOfTail(events: seq<Event>, from: Time)
    requires events != []
    ensures EndOf(events, from) == EndOf(events[1..], events[0].now)
  {
  }

  /** One event taken off a run. */
  lemma RunCons(s: State, e: Event, rest: seq<Event>, from: Time)
    requires from <= e.now && FreshName(s, e.step)
    ensures Run(s, [e] + rest) == Run(Apply(s, e.step, e.now), rest)
    ensures Possible(Apply(s, e.step, e.now), rest, e.now) ==> Possible(s, [e] + rest, from)
  {
    assert ([e] + rest)[1..] == rest;
  }

  lemma RunNone(s: State, from: Time)
    ensures Run(s, []) == s && Possible(s, [], from)
  {
  }

  const EMPTY := State(map[], [], map[], [], [], map[], Disk(map[], map[], map[]))

  // ---- Exclusivity over runs ----

  lemma ApplyKeepsLeases(s: State, step: Step, now: Time)
    requires LeasesOk(s, now) && FreshName(s, step)
    ensures LeasesOk(Apply(s, step, now), now)
  {
    match step
    case Add(id, address, disabled) => AdministrationKeepsLeases(s, now, id, address, disabled);
    case Update(id, address, disabled) => AdministrationKeepsLeases(s, now, id, address, disabled);
    case Switch(id, disabled) => AdministrationKeepsLeases(s, now, id, Unsplittable(""), disabled);
    case Delete(id) => AdministrationKeepsLeases(s, now, id, Unsplittable(""), false);
    case Release(c) => ReleaseKeepsLeases(s, c, now);
    case ReserveFor(c, refresh) => ReserveKeepsLeases(s, c, refresh, now);
    case RestoreOne(id, c) => SettlingKeepsLeases(s, now, id, c);
    case BlameOne(id, c) => SettlingKeepsLeases(s, now, id, c);
    case Grant(id, c, refresh, expires) => ActivateKeepsLeases(s, id, c, refresh, expires, now);
    case GrantDynamic(c, id, address, expires) => DynamicKeepsLeases(s, c, id, address, expires, now);
    case Queue(c, refresh) =>
    case Unqueue(_, _, _) =>
    case Pop =>
    case Connect(c, k) => ConnectionsKeepLeases(s, now, 0, c, k);
    case Disconnect(c, id, k) => ConnectionsKeepLeases(s, now, id, c, k);
    case Verdict(id, passed, ft, st) => HealthKeepsLeases(s, id, passed, ft, st, now);
    case FlushDelete(id) =>
  }

  lemma {:induction false} RunKeepsLeases(s: State, events: seq<Event>, from: Time)
    requires LeasesOk(s, from) && Possible(s, events, from)
    ensures LeasesOk(Run(s, events), EndOf(events, from))
    decreases |events|
  {
    if events != [] {
      var now := events[0].now;
      TimePasses(s, from, now);
      ApplyKeepsLeases(s, events[0].step, now);
      RunKeepsLeases(Apply(s, events[0].step, now), events[1..], now);
      EndOfTail(events, from);
    }
  }

  /**
   In every reachable state no two clients hold unexpired leases on one proxy, and a proxy being
   checked has none, although the lock is dropped while its probe runs.
   */
  lemma LeasesAreExclusive(events: seq<Event>, from: Time, c: Client, d: Client, id: ProxyId)
    requires Possible(EMPTY, events, from)
    ensures var (s, now) := (Run(EMPTY, events), EndOf(events, from));
            && (LiveOn(s.leases, now, c, id) && LiveOn(s.leases, now, d, id) ==> c == d)
            && (id in s.proxies && s.proxies[id].status == ProxyChecking ==> !LiveOn(s.leases, now, c, id))
            && (LiveOn(s.leases, now, c, id) ==> !Eligible(s, now, id))
  {
    RunKeepsLeases(EMPTY, events, from);
    var s, now := Run(EMPTY, events), EndOf(events, from);
    if id in s.proxies {
      assert LeaseOk(s.leases, now, id, s.proxies[id]);
    }
  }

  // ---- Connections over runs ----

  lemma ApplyKeepsConns(s: State, step: Step, now: Time)
    requires LeasesOk(s, now) && ConnsOk(s, now) && Careful(s, step, now)
    ensures ConnsOk(Apply(s, step, now), now)
  {
    match step
    case Add(id, address, disabled) => AdministrationKeepsConns(s, now, id, address, disabled);
    case Update(id, address, disabled) => AdministrationKeepsConns(s, now, id, address, disabled);
    case Switch(id, disabled) => AdministrationKeepsConns(s, now, id, Unsplittable(""), disabled);
    case Delete(id) => AdministrationKeepsConns(s, now, id, Unsplittable(""), false);
    case Release(c) => ReleaseKeepsConns(s, c, now);
    case ReserveFor(c, refresh) => ReserveKeepsConns(s, c, refresh, now);
    case RestoreOne(id, c) => SettlingKeepsConns(s, now, id, c);
    case BlameOne(id, c) => SettlingKeepsConns(s, now, id, c);
    case Grant(id, c, refresh, expires) => ActivateKeepsConns(s, id, c, refresh, expires, now);
    case GrantDynamic(c, id, address, expires) => DynamicKeepsConns(s, c, id, address, expires, now);
    case Queue(c, refresh) =>
    case Unqueue(_, _, _) =>
    case Pop =>
    case Connect(c, k) => AcquireKeepsConns(s, c, k, now);
    case Disconnect(c, id, k) => UnregisterKeepsConns(s, c, id, k, now);
    case Verdict(id, passed, ft, st) => HealthKeepsConns(s, id, passed, ft, st, now);
    case FlushDelete(id) =>
  }

  lemma {:induction false} RunKeepsConns(s: State, events: seq<Event>, from: Time)
    requires LeasesOk(s, from) && ConnsOk(s, from) && Possible(s, events, from) && AllCareful(s, events)
    ensures ConnsOk(Run(s, events), EndOf(events, from))
    decreases |events|
  {
    if events != [] {
      var now := events[0].now;
      TimePasses(s, from, now);
      ApplyKeepsLeases(s, events[0].step, now);
      ApplyKeepsConns(s, events[0].step, now);
      RunKeepsConns(Apply(s, events[0].step, now), events[1..], now);
      EndOfTail(events, from);
    }
  }

  /**
   Conservation and isolation: in every reachable state of a careful run a proxy's count is the
   number of its registered connections, which all belong to one client, and a proxy that is idle,
   being checked or disabled has none.
   */
  lemma ConnectionsAreIsolated(events: seq<Event>, from: Time, id: ProxyId)
    requires Possible(EMPTY, events, from) && AllCareful(EMPTY, events)
    ensures var s := Run(EMPTY, events);
            id in s.proxies ==>
              && s.proxies[id].activeConns == |On(s.via, id)|
              && (forall k, j :: k in On(s.via, id) && j in On(s.via, id) ==> k.0 == j.0)
              && (s.proxies[id].status in {ProxyIdle, ProxyChecking, ProxyDisabled} ==> On(s.via, id) == {})
  {
    RunKeepsConns(EMPTY, events, from);
    var s, now := Run(EMPTY, events), EndOf(events, from);
    if id in s.proxies {
      assert ConnOk(s.leases, s.via, now, id, s.proxies[id]);
      if s.proxies[id].status in {ProxyIdle, ProxyChecking, ProxyDisabled} {
        QuietStatus(s.leases, s.via, now, id, s.proxies[id]);
      }
    }
  }
}
