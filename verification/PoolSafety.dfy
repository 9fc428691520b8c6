/**
 What every critical section keeps, in every interleaving: leases stay exclusive, with no side
 condition; connection counts stay exact and every proxy's connections belong to one client, unless
 a busy proxy without a lease is made idle.
 */
module PoolSafety {
  import opened Common
  import opened Addresses
  import opened Pool

  // ---- Leases ----

  ghost predicate OrderOk(s: State) {
    NoDuplicates(s.order) && forall id :: id in s.order <==> id in s.proxies
  }

  /** No two clients hold unexpired leases on one proxy. */
  ghost predicate Exclusive(leases: Leases, now: Time) {
    forall c, d, id :: LiveOn(leases, now, c, id) && LiveOn(leases, now, d, id) ==> c == d
  }

  ghost predicate NoneLive(leases: Leases, now: Time, id: ProxyId) {
    forall c :: !LiveOn(leases, now, c, id)
  }

  ghost predicate OnlyLive(leases: Leases, now: Time, id: ProxyId, client: Option<Client>) {
    forall c :: LiveOn(leases, now, c, id) ==> client == Some(c)
  }

  /** A checked proxy has no unexpired lease; an active one only its own client's. */
  ghost predicate LeaseOk(leases: Leases, now: Time, id: ProxyId, p: Proxy) {
    && (p.status == ProxyChecking ==> p.client.Some? && NoneLive(leases, now, id))
    && (p.status == ProxyActive ==> OnlyLive(leases, now, id, p.client))
  }

  ghost predicate LeasesOk(s: State, now: Time) {
    Exclusive(s.leases, now) && forall id :: id in s.proxies ==> LeaseOk(s.leases, now, id, s.proxies[id])
  }

  // ---- Connections ----

  ghost function On(via: Registry, id: ProxyId): set<(Client, Connection)> {
    set k | k in via && via[k] == id
  }

  /** The client of some connection in the set. */
  ghost function OwnerOf(on: set<(Client, Connection)>): (c: Client)
    ensures on != {} ==> exists k :: k in on && k.0 == c
  {
    if on == {} then 0 else var k :| k in on; k.0
  }

  /** What a proxy with a connection of client `o` must look like. */
  ghost predicate OwnerOk(leases: Leases, now: Time, id: ProxyId, p: Proxy, o: Client) {
    && p.status in {ProxyActive, ProxyDraining, ProxyUnhealthy}
    && (p.status == ProxyActive ==> p.client == Some(o))
    && OnlyLive(leases, now, id, Some(o))
  }

  ghost predicate ConnOk(leases: Leases, via: Registry, now: Time, id: ProxyId, p: Proxy) {
    && p.activeConns == |On(via, id)|
    && (p.status == ProxyDraining ==> p.drainingFor.Some?)
    && (forall k :: k in On(via, id) ==> OwnerOk(leases, now, id, p, k.0))
    && (forall k :: k in On(via, id) ==> k.0 == OwnerOf(On(via, id)))
  }

  ghost predicate ConnsOk(s: State, now: Time) {
    && (forall k :: k in s.via ==> s.via[k] in s.proxies)
    && forall id :: id in s.proxies ==> ConnOk(s.leases, s.via, now, id, s.proxies[id])
  }

  // ---- Leases that connections depend on ----

  /** Neither draining nor free: the proxy serves the client whose lease is on it. */
  predicate InService(p: Proxy) {
    p.status == ProxyActive || (p.status == ProxyUnhealthy && p.drainingFor.None?)
  }

  predicate LeasedTo(leases: Leases, id: ProxyId, c: Client) {
    c in leases && leases[c].proxyId == id
  }

  /** A proxy in service is the one that the owners of its connections lease. */
  ghost predicate Attached(leases: Leases, via: Registry, id: ProxyId, p: Proxy) {
    InService(p) ==> forall k :: k in On(via, id) ==> LeasedTo(leases, id, k.0)
  }

  ghost predicate AttachedOk(s: State) {
    forall id :: id in s.proxies ==> Attached(s.leases, s.via, id, s.proxies[id])
  }

  // ---- Time only lets leases lapse ----

  lemma TimePasses(s: State, now: Time, later: Time)
    requires now <= later
    ensures LeasesOk(s, now) ==> LeasesOk(s, later)
    ensures ConnsOk(s, now) ==> ConnsOk(s, later)
  {
    assert forall c, id :: LiveOn(s.leases, later, c, id) ==> LiveOn(s.leases, now, c, id);
  }

  // ---- Changing one proxy ----

  lemma SetKeepsLeases(s: State, now: Time, id: ProxyId, p: Proxy)
    requires LeasesOk(s, now) && LeaseOk(s.leases, now, id, p)
    ensures LeasesOk(SetProxy(s, id, p), now)
  {
  }

  lemma SetKeepsConns(s: State, now: Time, id: ProxyId, p: Proxy)
    requires ConnsOk(s, now) && ConnOk(s.leases, s.via, now, id, p)
    ensures ConnsOk(SetProxy(s, id, p), now)
  {
  }

  /** Without connections, only the count and the draining label matter. */
  lemma QuietConnOk(leases: Leases, via: Registry, now: Time, id: ProxyId, p: Proxy, q: Proxy)
    requires ConnOk(leases, via, now, id, p) && p.activeConns == 0 && q.activeConns == 0
    requires q.status == ProxyDraining ==> q.drainingFor.Some?
    ensures ConnOk(leases, via, now, id, q)
  {
    assert On(via, id) == {};
  }

  /** A proxy that is idle, being checked or disabled has no connections. */
  lemma QuietStatus(leases: Leases, via: Registry, now: Time, id: ProxyId, p: Proxy)
    requires ConnOk(leases, via, now, id, p)
    requires p.status in {ProxyIdle, ProxyChecking, ProxyDisabled}
    ensures p.activeConns == 0 && On(via, id) == {}
  {
    assert forall k :: k in On(via, id) ==> OwnerOk(leases, now, id, p, k.0);
    assert On(via, id) == {};
  }
}
