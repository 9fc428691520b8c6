/**
 The lease pool's state and its critical sections: what each one does to proxies, leases, queues,
 registered connections and the tables on disk. Every function is total; a section whose guard fails
 leaves the state alone.
 */
module Pool {
  import opened Common
  import opened Addresses

  datatype ProxyStatus = ProxyIdle | ProxyChecking | ProxyActive | ProxyDraining | ProxyUnhealthy | ProxyDisabled

  datatype Source = PoolSource | ApiSource

  datatype Proxy = Proxy(
    address: Address,
    status: ProxyStatus,
    client: Option<Client>,
    drainingFor: Option<Client>,
    activeConns: nat,
    failureCount: nat,
    successCount: nat,
    disabled: bool,
    source: Source,
    providerExpiresAt: Time)

  datatype Lease = Lease(proxyId: ProxyId, expiresAt: Time)

  type Leases = map<Client, Lease>

  // Which proxy each registered connection of a client goes through.
  type Registry = map<(Client, Connection), ProxyId>

  // The tables, with times cut to whole seconds.
  datatype Row = Row(address: Address, disabled: bool)
  datatype Disk = Disk(leases: Leases, proxies: map<ProxyId, Row>, dynamics: map<ProxyId, Time>)

  datatype State = State(
    proxies: map<ProxyId, Proxy>,
    order: seq<ProxyId>,
    leases: Leases,
    pendingNew: seq<Client>,
    pendingRefs: seq<Client>,
    via: Registry,
    disk: Disk)

  const SECOND := 1_000_000_000

  function Truncate(t: Time): Time {
    t / SECOND * SECOND
  }

  function Stored(l: Lease): Lease {
    l.(expiresAt := Truncate(l.expiresAt))
  }

  // ---- Leases ----

  /** `c` holds an unexpired lease on `id`. */
  predicate LiveOn(leases: Leases, now: Time, c: Client, id: ProxyId) {
    c in leases && leases[c].proxyId == id && now < leases[c].expiresAt
  }

  predicate HasLive(leases: Leases, now: Time, id: ProxyId) {
    exists c :: c in leases && LiveOn(leases, now, c, id)
  }

  predicate Expired(leases: Leases, now: Time, c: Client) {
    c in leases && now > leases[c].expiresAt
  }

  // ---- One proxy ----

  function MarkIdle(p: Proxy): Proxy {
    p.(client := None, drainingFor := None, activeConns := 0,
       status := if p.status == ProxyUnhealthy then ProxyUnhealthy else ProxyIdle)
  }

  function Park(p: Proxy): Proxy {
    p.(status := ProxyDisabled, client := None, drainingFor := None)
  }

  /** Gives back a proxy that was being checked. */
  function Settled(p: Proxy): Proxy {
    if p.disabled then Park(p) else MarkIdle(p)
  }

  function ProbeFailed(p: Proxy): Proxy {
    p.(failureCount := p.failureCount + 1, successCount := 0, status := ProxyUnhealthy, client := None, drainingFor := None)
  }

  function ReleaseBinding(p: Proxy, c: Client): Proxy {
    if p.activeConns > 0 then
      p.(client := None, drainingFor := Some(c), status := if p.status == ProxyUnhealthy then ProxyUnhealthy else ProxyDraining)
    else
      p.(client := None, drainingFor := None,
         status := if p.status == ProxyUnhealthy then ProxyUnhealthy
                   else if p.disabled then ProxyDisabled else ProxyIdle)
  }

  /** What a client's previous proxy becomes when the client gets another one. */
  function Replaced(p: Proxy, c: Client): Proxy {
    if p.activeConns > 0 then p.(status := ProxyDraining, client := None, drainingFor := Some(c)) else MarkIdle(p)
  }

  // ---- Queues ----

  function Enqueue(queue: seq<Client>, c: Client): seq<Client> {
    if c in queue then queue else queue + [c]
  }

  function RemoveQueued(s: State, c: Client): State {
    s.(pendingNew := Without(s.pendingNew, c), pendingRefs := Without(s.pendingRefs, c))
  }

  /** Takes the client out of the queues that it is not to stay in. */
  function Unqueued(s: State, c: Client, stayNew: bool, stayRefs: bool): State {
    s.(pendingNew := if stayNew then s.pendingNew else Without(s.pendingNew, c),
       pendingRefs := if stayRefs then s.pendingRefs else Without(s.pendingRefs, c))
  }

  function EnqueuePending(s: State, c: Client, refresh: bool): State {
    if refresh then s.(pendingRefs := Enqueue(s.pendingRefs, c)) else s.(pendingNew := Enqueue(s.pendingNew, c))
  }

  // ---- Order ----

  function Keep(order: seq<ProxyId>, ids: set<ProxyId>): (r: seq<ProxyId>)
    ensures forall id :: id in r <==> id in order && id in ids
  {
    if order == [] then []
    else
      var front, last := Keep(order[..|order| - 1], ids), order[|order| - 1];
      assert order == order[..|order| - 1] + [last];
      if last in ids then front + [last] else front
  }

  function Insert(order: seq<ProxyId>, id: ProxyId): (r: seq<ProxyId>)
    ensures forall x :: x in r <==> x in order || x == id
  {
    if order == [] then [id]
    else if id <= order[0] then [id] + order
    else [order[0]] + Insert(order[1..], id)
  }

  function Sorted(order: seq<ProxyId>): (r: seq<ProxyId>)
    ensures forall x :: x in r <==> x in order
  {
    if order == [] then [] else Insert(Sorted(order[1..]), order[0])
  }

  // ---- Administration ----

  function AddProxy(s: State, id: ProxyId, address: Address, disabled: bool): State {
    if id in s.proxies then s
    else
      var p := Proxy(address, if disabled then ProxyDisabled else ProxyIdle, None, None, 0, 0, 0, disabled, PoolSource, 0);
      s.(proxies := s.proxies[id := p], order := Sorted(s.order + [id]),
         disk := s.disk.(proxies := s.disk.proxies[id := Row(address, disabled)]))
  }

  function SetProxy(s: State, id: ProxyId, p: Proxy): State {
    s.(proxies := s.proxies[id := p])
  }

  function SaveProxy(s: State, id: ProxyId): State
    requires id in s.proxies
  {
    s.(disk := s.disk.(proxies := s.disk.proxies[id := Row(s.proxies[id].address, s.proxies[id].disabled)]))
  }

  function UpdateProxy(s: State, id: ProxyId, address: Address, disabled: bool): State {
    if id !in s.proxies then s
    else
      var p := s.proxies[id];
      var status := if disabled && p.status == ProxyIdle then ProxyDisabled
                    else if p.status == ProxyDisabled then ProxyIdle else p.status;
      SaveProxy(SetProxy(s, id, p.(address := address, disabled := disabled, status := status)), id)
  }

  function SetProxyDisabled(s: State, id: ProxyId, disabled: bool): State {
    if id !in s.proxies then s
    else
      var p := s.proxies[id];
      var status := if disabled && p.status == ProxyIdle then ProxyDisabled
                    else if !disabled && p.status == ProxyDisabled then ProxyIdle else p.status;
      SaveProxy(SetProxy(s, id, p.(disabled := disabled, status := status)), id)
  }

  predicate InUse(p: Proxy) {
    p.status in {ProxyActive, ProxyChecking, ProxyDraining} || p.activeConns > 0
  }

  function WithoutProxy(s: State, id: ProxyId): State {
    s.(proxies := s.proxies - {id}, order := Without(s.order, id))
  }

  function EraseProxy(d: Disk, ids: set<ProxyId>): Disk {
    d.(proxies := d.proxies - ids, dynamics := d.dynamics - ids)
  }

  function DeleteProxy(s: State, id: ProxyId): State {
    if id !in s.proxies || InUse(s.proxies[id]) then s
    else WithoutProxy(s, id).(disk := EraseProxy(s.disk, {id}))
  }

  // ---- Taking and giving back leases ----

  predicate Eligible(s: State, now: Time, id: ProxyId) {
    && id in s.proxies
    && s.proxies[id].source != ApiSource && s.proxies[id].status == ProxyIdle && !s.proxies[id].disabled
    && !HasLive(s.leases, now, id)
  }

  function FirstEligible(s: State, now: Time, order: seq<ProxyId>): (r: Option<ProxyId>)
    ensures r.Some? ==> r.value in order && Eligible(s, now, r.value)
    ensures r.None? ==> forall id :: id in order ==> !Eligible(s, now, id)
  {
    if order == [] then None
    else if Eligible(s, now, order[0]) then Some(order[0])
    else FirstEligible(s, now, order[1..])
  }

  /** The proxy's binding after `c` gave up its lease on `leased`. */
  function Unbound(p: Proxy, id: ProxyId, leased: ProxyId, c: Client, stillLeased: bool): Proxy {
    var first := if id == leased && !stillLeased then ReleaseBinding(p, c) else p;
    if first.drainingFor == Some(c) then ReleaseBinding(first, c) else first
  }

  predicate Purgeable(leases: Leases, now: Time, id: ProxyId, p: Proxy) {
    p.source == ApiSource && p.activeConns == 0 && !HasLive(leases, now, id)
  }

  function ReleaseLease(s: State, c: Client, now: Time): State {
    if c !in s.leases then RemoveQueued(s, c)
    else
      var leased := s.leases[c].proxyId;
      var leases := s.leases - {c};
      var still := HasLive(leases, now, leased);
      var bound := map id | id in s.proxies :: Unbound(s.proxies[id], id, leased, c, still);
      var purged := set id | id in bound && Purgeable(leases, now, id, bound[id]);
      RemoveQueued(s, c).(
      leases := leases,
      proxies := bound - purged,
      order := Keep(s.order, (bound - purged).Keys),
      disk := EraseProxy(s.disk, purged).(leases := s.disk.leases - {c}))
  }

  datatype AssignmentStatus = LeaseActive | LeasePending | LeaseBlocked

  datatype Assignment = Assignment(status: AssignmentStatus, lease: Option<Lease>)

  function LeaseOf(s: State, c: Client): Option<Lease> {
    if c in s.leases then Some(s.leases[c]) else None
  }

  const PENDING := Assignment(LeasePending, None)

  /** The answer to a refresh that has to wait: the old lease, if there is one. */
  function PendingAssignment(s: State, c: Client, refresh: bool): Assignment {
    if refresh then Assignment(LeasePending, LeaseOf(s, c)) else PENDING
  }

  /** What a client is told about its lease: a pending refresh hides that it is active. */
  function CurrentAssignment(s: State, c: Client): Assignment {
    if c !in s.leases then Assignment(LeaseBlocked, None)
    else Assignment(if c in s.pendingRefs then LeasePending else LeaseActive, Some(s.leases[c]))
  }

  // Either a proxy was reserved, or the call already has its answer.
  datatype Reservation = Reserved(id: ProxyId) | Answered(assignment: Assignment)

  function Swept(s: State, c: Client, now: Time): State {
    if Expired(s.leases, now, c) then ReleaseLease(s, c, now) else s
  }

  function Reserve(s: State, c: Client, refresh: bool, now: Time): (State, Reservation) {
    var swept := Swept(s, c, now);
    if !refresh && c in swept.leases then (swept, Answered(Assignment(LeaseActive, Some(swept.leases[c]))))
    else
      match FirstEligible(swept, now, swept.order)
      case None => (EnqueuePending(swept, c, refresh), Answered(PendingAssignment(swept, c, refresh)))
      case Some(id) =>
        (SetProxy(swept, id, swept.proxies[id].(status := ProxyChecking, client := Some(c), drainingFor := None)), Reserved(id))
  }

  /** `id` is being checked for `c`. */
  predicate CheckedFor(s: State, id: ProxyId, c: Client) {
    id in s.proxies && s.proxies[id].status == ProxyChecking && s.proxies[id].client == Some(c)
  }

  /** Gives `id` back if it is still being checked for `c`. */
  function Restore(s: State, id: ProxyId, c: Client): State {
    if CheckedFor(s, id, c) then SetProxy(s, id, Settled(s.proxies[id])) else s
  }

  /** Holds a failed probe against `id` if it is still being checked for `c`. */
  function Blame(s: State, id: ProxyId, c: Client): State {
    if !CheckedFor(s, id, c) then s
    else SetProxy(s, id, if s.proxies[id].disabled then Park(s.proxies[id]) else ProbeFailed(s.proxies[id]))
  }

  function WithReplaced(s: State, c: Client): State {
    if c in s.leases && s.leases[c].proxyId in s.proxies
    then SetProxy(s, s.leases[c].proxyId, Replaced(s.proxies[s.leases[c].proxyId], c))
    else s
  }

  function WithLease(s: State, c: Client, l: Lease): State {
    RemoveQueued(s, c).(leases := s.leases[c := l], disk := s.disk.(leases := s.disk.leases[c := Stored(l)]))
  }

  /** Gives the checked proxy to its client. */
  function Activate(s: State, id: ProxyId, c: Client, refresh: bool, expires: Time): State {
    if !CheckedFor(s, id, c) || s.proxies[id].disabled then s
    else
      var before := if refresh then WithReplaced(s, c) else s;
      var p := before.proxies[id].(status := ProxyActive, client := Some(c), drainingFor := None, failureCount := 0,
                                   successCount := before.proxies[id].successCount + 1);
      WithLease(SetProxy(before, id, p), c, Lease(id, expires))
  }

  predicate AddressTaken(s: State, address: Address) {
    exists id :: id in s.proxies && SameEndpoint(s.proxies[id].address, address)
  }

  /** The previous proxy of a client that got a dynamic one: drained, dropped, or idle. */
  function WithSuperseded(s: State, c: Client): State {
    if c !in s.leases || s.leases[c].proxyId !in s.proxies then s
    else
      var id := s.leases[c].proxyId;
      var p := s.proxies[id];
      if p.activeConns == 0 && p.source == ApiSource then WithoutProxy(s, id).(disk := EraseProxy(s.disk, {id}))
      else SetProxy(s, id, Replaced(p, c))
  }

  /** Installs a validated dynamic proxy under the new name `id`. */
  function ActivateDynamic(s: State, c: Client, id: ProxyId, address: Address, expires: Time): State {
    if AddressTaken(s, address) || id in s.proxies then s
    else
      var before := WithSuperseded(s, c);
      var p := Proxy(address, ProxyActive, Some(c), None, 0, 0, 1, false, ApiSource, expires);
      var disk := before.disk.(proxies := before.disk.proxies[id := Row(address, false)],
                               dynamics := before.disk.dynamics[id := Truncate(expires)]);
      WithLease(before.(proxies := before.proxies[id := p], order := Sorted(before.order + [id]), disk := disk), c, Lease(id, expires))
  }

  // ---- Connections ----

  predicate MayConnect(s: State, c: Client, now: Time) {
    && c in s.leases && now <= s.leases[c].expiresAt
    && s.leases[c].proxyId in s.proxies
    && s.proxies[s.leases[c].proxyId].status == ProxyActive
    && s.proxies[s.leases[c].proxyId].client == Some(c)
  }

  function AcquireConn(s: State, c: Client, k: Connection, now: Time): (State, Option<ProxyId>) {
    if !MayConnect(s, c, now) || (c, k) in s.via then (s, None)
    else
      var id := s.leases[c].proxyId;
      var p := s.proxies[id];
      (SetProxy(s, id, p.(activeConns := p.activeConns + 1)).(via := s.via[(c, k) := id]), Some(id))
  }

  /** A proxy that lost a connection. */
  function Disconnected(p: Proxy): Proxy {
    var q := p.(activeConns := p.activeConns - (if p.activeConns > 0 then 1 else 0));
    if q.status == ProxyDraining && q.activeConns == 0
    then q.(client := None, drainingFor := None, status := if q.disabled then ProxyDisabled else ProxyIdle)
    else q
  }

  function UnregisterConn(s: State, c: Client, id: ProxyId, k: Connection, now: Time): State {
    if (c, k) !in s.via then s
    else
      var gone := s.(via := s.via - {(c, k)});
      if id !in s.proxies || s.proxies[id].activeConns == 0 then gone
      else if s.proxies[id].activeConns == 1 && s.proxies[id].source == ApiSource && !HasLive(s.leases, now, id)
      then WithoutProxy(gone, id)
      else SetProxy(gone, id, Disconnected(s.proxies[id]))
  }

  // ---- Health ----

  ghost function Recovered(s: State, id: ProxyId, p: Proxy, now: Time): Proxy {
    if HasLive(s.leases, now, id) then
      p.(status := ProxyActive, client := Some(LiveClient(s.leases, now, id)), drainingFor := None)
    else if p.drainingFor.Some? && p.activeConns > 0 then p.(status := ProxyDraining, client := None)
    else p.(status := ProxyIdle, client := None, drainingFor := None)
  }

  /** Some client with an unexpired lease on `id`: the one that the iteration meets first. */
  ghost function LiveClient(leases: Leases, now: Time, id: ProxyId): (c: Client)
    requires HasLive(leases, now, id)
    ensures LiveOn(leases, now, c, id)
  {
    var c :| c in leases && LiveOn(leases, now, c, id);
    c
  }

  /** Records the verdict of one health probe, in the order the code applies it. */
  ghost function RecordHealth(s: State, id: ProxyId, passed: bool, failureThreshold: nat, successThreshold: nat, now: Time): State {
    if id !in s.proxies then s
    else
      var p := s.proxies[id];
      if !passed then
        SetProxy(s, id, p.(failureCount := p.failureCount + 1, successCount := 0,
                           status := if p.failureCount + 1 >= failureThreshold then ProxyUnhealthy else p.status))
      else
        var q := p.(successCount := p.successCount + 1, failureCount := 0);
        SetProxy(s, id, if q.status == ProxyUnhealthy && q.successCount >= successThreshold then Recovered(s, id, q, now) else q)
  }

  // ---- Queue heads ----

  function NextQueued(s: State, now: Time): (State, Option<(Client, bool)>) {
    if FirstEligible(s, now, s.order).None? then (s, None)
    else if s.pendingNew != [] then (s.(pendingNew := s.pendingNew[1..]), Some((s.pendingNew[0], false)))
    else if s.pendingRefs != [] then (s.(pendingRefs := s.pendingRefs[1..]), Some((s.pendingRefs[0], true)))
    else (s, None)
  }
}
