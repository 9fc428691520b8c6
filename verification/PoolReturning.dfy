/**
 What becomes of a proxy: when it is given back after a check, when its client releases it or gets another
 one, and when health checks judge it, all in terms of its record, the leases and the clock.
 */
module PoolReturning {
  import opened Common
  import opened Addresses
  import opened Pool
  import opened PoolSafety
  import opened PoolTaking
  import opened LeaseCall
  import opened CallSafety
  import Evidence

  /** A lease of any client on `id` still runs. */
  ghost predicate Running(leases: Leases, now: Time, id: ProxyId) {
    exists c :: c in leases && leases[c].proxyId == id && now < leases[c].expiresAt
  }

  /** Everything about a proxy but whom it serves, how busy it is and how it has been doing. */
  predicate SameRecord(p: Proxy, q: Proxy) {
    q.address == p.address && q.disabled == p.disabled && q.source == p.source && q.providerExpiresAt == p.providerExpiresAt
  }

  predicate SameCounters(p: Proxy, q: Proxy) {
    q.failureCount == p.failureCount && q.successCount == p.successCount
  }

  // ---- After a check ----

  predicate BeingChecked(p: Proxy, c: Client) {
    p.status == ProxyChecking && p.client == Some(c)
  }

  /** Free again, with nothing held against it; disabled exactly if it was to be. */
  predicate GivenBack(p: Proxy, q: Proxy) {
    && SameRecord(p, q) && SameCounters(p, q) && q.client == None && q.drainingFor == None
    && q.status == (if p.disabled then ProxyDisabled else ProxyIdle)
    && (q.activeConns == p.activeConns || q.activeConns == 0)
  }

  /** Out of service with one more failure, unless it was to be disabled anyway. */
  predicate HeldAgainst(p: Proxy, q: Proxy) {
    && SameRecord(p, q) && q.client == None && q.drainingFor == None && q.activeConns == p.activeConns
    && if p.disabled then q.status == ProxyDisabled && SameCounters(p, q)
       else q.status == ProxyUnhealthy && q.failureCount == p.failureCount + 1 && q.successCount == 0
  }

  ghost predicate Listed(probes: seq<Evidence.Probe>, id: ProxyId) {
    exists i :: 0 <= i < |probes| && probes[i].proxyId == id
  }

  /** Restoring gives back every listed proxy that is still checked for the client, and touches no other. */
  lemma RestoreAllGivesBack(s: State, probes: seq<Evidence.Probe>, c: Client, id: ProxyId)
    requires id in s.proxies
    ensures var after := RestoreAll(s, probes, c);
            && after == s.(proxies := after.proxies) && after.proxies.Keys == s.proxies.Keys
            && if Listed(probes, id) && BeingChecked(s.proxies[id], c)
               then GivenBack(s.proxies[id], after.proxies[id]) else after.proxies[id] == s.proxies[id]
  {
    hide RestoreAll;
    RestoreAllAt(s, probes, c, id);
    ListedIds(probes, id);
  }

  /** Blaming holds one failure against every listed proxy that is still checked for the client. */
  lemma BlameAllHoldsAgainst(s: State, probes: seq<Evidence.Probe>, c: Client, id: ProxyId)
    requires id in s.proxies
    ensures var after := BlameAll(s, probes, c);
            && after == s.(proxies := after.proxies) && after.proxies.Keys == s.proxies.Keys
            && if Listed(probes, id) && BeingChecked(s.proxies[id], c)
               then HeldAgainst(s.proxies[id], after.proxies[id]) else after.proxies[id] == s.proxies[id]
  {
    hide BlameAll;
    BlameAllAt(s, probes, c, id);
    ListedIds(probes, id);
  }

  lemma ListedIds(probes: seq<Evidence.Probe>, id: ProxyId)
    ensures id in Ids(probes) <==> Listed(probes, id)
  {
    if id in Ids(probes) {
      var p :| p in probes && p.proxyId == id;
    }
  }

  /** A proxy of the pool that was given back is free to take again, once no lease on it runs. */
  lemma GivenBackIsUsable(s: State, now: Time, id: ProxyId, p: Proxy)
    requires id in s.proxies && GivenBack(p, s.proxies[id]) && !p.disabled && p.source == PoolSource
    ensures Running(s.leases, now, id) || Usable(s, now, id)
  {
  }

  // ---- Releases ----

  /** The binding to `c` is given up: a busy proxy drains for `c`, any other is free; unhealthy ones stay so. */
  predicate LetGoOf(p: Proxy, q: Proxy, c: Client) {
    && SameRecord(p, q) && SameCounters(p, q) && q.activeConns == p.activeConns && q.client == None
    && q.drainingFor == (if p.activeConns > 0 then Some(c) else None)
    && q.status == (if p.status == ProxyUnhealthy then ProxyUnhealthy
                    else if p.activeConns > 0 then ProxyDraining
                    else if p.disabled then ProxyDisabled else ProxyIdle)
  }

  /**
   A release removes exactly the provider's proxies without connections on which no remaining lease runs,
   from memory, order and tables. Of the others, it lets go of the proxy that was leased, unless somebody
   else's lease on it runs, and of those that drain for the client.
   */
  lemma ReleaseRemovesExactly(s: State, c: Client, now: Time, id: ProxyId)
    requires c in s.leases && id in s.proxies
    ensures var (after, p) := (ReleaseLease(s, c, now), s.proxies[id]);
            && after.leases == s.leases - {c}
            && (id !in after.proxies <==> p.source == ApiSource && p.activeConns == 0 && !Running(s.leases - {c}, now, id))
            && (id in after.order <==> id in s.order && id in after.proxies)
            && (id in after.disk.proxies <==> id in s.disk.proxies && id in after.proxies)
            && (id in after.disk.dynamics <==> id in s.disk.dynamics && id in after.proxies)
            && (id in after.proxies ==>
                  if (s.leases[c].proxyId == id && !Running(s.leases - {c}, now, id)) || p.drainingFor == Some(c)
                  then LetGoOf(p, after.proxies[id], c) else after.proxies[id] == p)
  {
    hide Keep;
    LiveOrNot(s.leases - {c}, now, id);
    LiveOrNot(s.leases - {c}, now, s.leases[c].proxyId);
  }

  /** Nobody else is affected: the others keep their leases, and proxies whose leases run stay. */
  lemma ReleaseSparesOthers(s: State, c: Client, now: Time)
    ensures var after := ReleaseLease(s, c, now);
            && after.leases == s.leases - {c} && after.via == s.via
            && after.disk.leases == (if c in s.leases then s.disk.leases - {c} else s.disk.leases)
            && after.pendingNew == Without(s.pendingNew, c) && after.pendingRefs == Without(s.pendingRefs, c)
            && (forall id :: id in after.proxies ==> id in s.proxies)
            && (forall id :: id in after.disk.proxies ==> id in s.disk.proxies && after.disk.proxies[id] == s.disk.proxies[id])
            && (forall id :: id in after.disk.dynamics ==> id in s.disk.dynamics && after.disk.dynamics[id] == s.disk.dynamics[id])
            && (c !in s.leases ==> after == s.(pendingNew := after.pendingNew, pendingRefs := after.pendingRefs))
            && forall d, id :: LiveOn(after.leases, now, d, id) && id in s.proxies ==> id in after.proxies
  {
    hide Keep, Unbound;
    assert c !in s.leases ==> s.leases - {c} == s.leases;
    var after := ReleaseLease(s, c, now);
    forall d, id | LiveOn(after.leases, now, d, id) && id in s.proxies ensures id in after.proxies {
      assert HasLive(after.leases, now, id);
    }
  }

  // ---- Getting another proxy ----

  /** A proxy left for another one drains if it is busy, and is idle otherwise; unhealthy ones stay so. */
  predicate LeftBehind(p: Proxy, q: Proxy, c: Client) {
    && SameRecord(p, q) && SameCounters(p, q) && q.client == None
    && if p.activeConns > 0 then q.status == ProxyDraining && q.drainingFor == Some(c) && q.activeConns == p.activeConns
       else q.status == (if p.status == ProxyUnhealthy then ProxyUnhealthy else ProxyIdle) && q.drainingFor == None && q.activeConns == 0
  }

  /** In service for `c`, with a clean record. */
  predicate ServesNow(p: Proxy, q: Proxy, c: Client) {
    && SameRecord(p, q) && q.status == ProxyActive && q.client == Some(c) && q.drainingFor == None
    && q.failureCount == 0 && q.successCount == p.successCount + 1 && q.activeConns == p.activeConns
  }

  /** `c` has the lease `l` in memory and, cut to the second, on disk; nobody else's changed, and it waits nowhere. */
  ghost predicate LeasedNow(s: State, after: State, c: Client, l: Lease) {
    && after.leases == s.leases[c := l]
    && after.disk.leases == s.disk.leases[c := l.(expiresAt := l.expiresAt / SECOND * SECOND)]
    && c !in after.pendingNew && c !in after.pendingRefs
    && (forall d :: d != c ==> (d in after.pendingNew <==> d in s.pendingNew) && (d in after.pendingRefs <==> d in s.pendingRefs))
  }

  /**
   An activation takes effect exactly if the proxy is still checked for the client and not disabled. Then
   it serves the client under the new lease; on a refresh the proxy of the old lease is left behind, and
   every other proxy is untouched.
   */
  lemma ActivateMeaning(s: State, id: ProxyId, c: Client, refresh: bool, expires: Time)
    ensures var after := Activate(s, id, c, refresh, expires);
            if !(id in s.proxies && BeingChecked(s.proxies[id], c) && !s.proxies[id].disabled) then after == s
            else
              && LeasedNow(s, after, c, Lease(id, expires)) && after.proxies.Keys == s.proxies.Keys
              && after.order == s.order && after.via == s.via
              && after.disk.proxies == s.disk.proxies && after.disk.dynamics == s.disk.dynamics
              && ServesNow(s.proxies[id], after.proxies[id], c)
              && forall other :: other in s.proxies && other != id ==>
                   if refresh && c in s.leases && s.leases[c].proxyId == other
                   then LeftBehind(s.proxies[other], after.proxies[other], c)
                   else after.proxies[other] == s.proxies[other]
  {
  }

  lemma SupersededMeaning(s: State, c: Client, other: ProxyId)
    requires other in s.proxies
    ensures var after := WithSuperseded(s, c);
            && after.leases == s.leases && after.via == s.via && after.disk.leases == s.disk.leases
            && after.pendingNew == s.pendingNew && after.pendingRefs == s.pendingRefs
            && (forall x :: x in after.proxies ==> x in s.proxies) && (forall x :: x in after.order ==> x in s.order)
            && if !(c in s.leases && s.leases[c].proxyId == other) then other in after.proxies && after.proxies[other] == s.proxies[other]
               else if s.proxies[other].activeConns == 0 && s.proxies[other].source == ApiSource
               then other !in after.proxies && other !in after.disk.proxies && other !in after.disk.dynamics && other !in after.order
               else other in after.proxies && LeftBehind(s.proxies[other], after.proxies[other], c)
  {
    hide Without;
  }

  /** The name is new, and no proxy has the endpoint. */
  predicate Installable(s: State, id: ProxyId, address: Address) {
    id !in s.proxies && forall other :: other in s.proxies ==> !SameEndpoint(s.proxies[other].address, address)
  }

  /**
   A dynamic proxy is installed exactly if its name is new and no proxy has its endpoint. It then serves
   its client, known to memory, order and tables until the provider's term.
   */
  lemma DynamicMeaning(s: State, c: Client, id: ProxyId, address: Address, expires: Time)
    ensures var after := ActivateDynamic(s, c, id, address, expires);
            if !Installable(s, id, address) then after == s
            else
              && LeasedNow(s, after, c, Lease(id, expires)) && after.via == s.via && id in after.proxies && id in after.order
              && after.proxies[id] == Proxy(address, ProxyActive, Some(c), None, 0, 0, 1, false, ApiSource, expires)
              && id in after.disk.proxies && after.disk.proxies[id] == Row(address, false)
              && id in after.disk.dynamics && after.disk.dynamics[id] == expires / SECOND * SECOND
              && forall other :: other in after.proxies && other != id ==> other in s.proxies
  {
    hide Sorted, Without, WithSuperseded;
    NothingSuperseded(s, c);
  }

  /** The proxy left behind for it goes, if it came from the provider and is not busy; the others stay as they are. */
  lemma DynamicLeavesBehind(s: State, c: Client, id: ProxyId, address: Address, expires: Time, other: ProxyId)
    requires Installable(s, id, address) && other in s.proxies
    ensures var after := ActivateDynamic(s, c, id, address, expires);
            if !(c in s.leases && s.leases[c].proxyId == other)
            then other in after.proxies && after.proxies[other] == s.proxies[other]
            else if s.proxies[other].activeConns == 0 && s.proxies[other].source == ApiSource
            then other !in after.proxies && other !in after.disk.proxies && other !in after.disk.dynamics && other !in after.order
            else other in after.proxies && LeftBehind(s.proxies[other], after.proxies[other], c)
  {
    hide Sorted, Without, WithSuperseded, LeftBehind;
    SupersededMeaning(s, c, other);
  }

  lemma NothingSuperseded(s: State, c: Client)
    ensures var after := WithSuperseded(s, c);
            && after.leases == s.leases && after.via == s.via && after.disk.leases == s.disk.leases
            && after.pendingNew == s.pendingNew && after.pendingRefs == s.pendingRefs
            && (forall x :: x in after.proxies ==> x in s.proxies) && (forall x :: x in after.order ==> x in s.order)
  {
    hide Without;
  }

  // ---- Health ----

  /** Back in service for the one client whose lease on it runs; else still draining, or idle. */
  ghost predicate RecoversTo(leases: Leases, now: Time, id: ProxyId, p: Proxy, q: Proxy) {
    && SameRecord(p, q) && q.activeConns == p.activeConns
    && if Running(leases, now, id)
       then q.status == ProxyActive && q.drainingFor == None
            && exists c :: q.client == Some(c) && c in leases && leases[c].proxyId == id && now < leases[c].expiresAt
       else if p.drainingFor.Some? && p.activeConns > 0
       then q.status == ProxyDraining && q.client == None && q.drainingFor == p.drainingFor
       else q.status == ProxyIdle && q.client == None && q.drainingFor == None
  }

  /**
   A failed check counts, and makes the proxy unhealthy from the threshold on. A passed one counts, and
   brings an unhealthy proxy back from the other threshold on. The counter not meant starts over, and
   nothing else changes.
   */
  lemma VerdictMeaning(s: State, id: ProxyId, passed: bool, failureThreshold: nat, successThreshold: nat, now: Time)
    requires id in s.proxies
    ensures var after := RecordHealth(s, id, passed, failureThreshold, successThreshold, now);
            var (p, q) := (s.proxies[id], after.proxies[id]);
            && after == s.(proxies := after.proxies) && after.proxies.Keys == s.proxies.Keys
            && (forall other :: other in s.proxies && other != id ==> after.proxies[other] == s.proxies[other])
            && q.failureCount == (if passed then 0 else p.failureCount + 1)
            && q.successCount == (if passed then p.successCount + 1 else 0)
            && (!passed ==> q == p.(failureCount := q.failureCount, successCount := q.successCount, status := q.status)
                            && q.status == if p.failureCount + 1 >= failureThreshold then ProxyUnhealthy else p.status)
            && (passed ==> if p.status == ProxyUnhealthy && p.successCount + 1 >= successThreshold
                           then RecoversTo(s.leases, now, id, p, q)
                           else q == p.(failureCount := q.failureCount, successCount := q.successCount))
  {
    LiveOrNot(s.leases, now, id);
  }

  // ---- Administration ----

  predicate Ascending(order: seq<ProxyId>) {
    forall i, j :: 0 <= i < j < |order| ==> order[i] <= order[j]
  }

  lemma ConsAscends(first: ProxyId, rest: seq<ProxyId>)
    requires Ascending(rest) && forall x :: x in rest ==> first <= x
    ensures Ascending([first] + rest)
  {
    var all := [first] + rest;
    forall i, j | 0 <= i < j < |all| ensures all[i] <= all[j] {
      assert all[j] == rest[j - 1] && rest[j - 1] in rest;
      if i > 0 {
        assert all[i] == rest[i - 1];
      }
    }
  }

  lemma TailAscends(order: seq<ProxyId>)
    requires Ascending(order) && order != []
    ensures Ascending(order[1..]) && forall x :: x in order ==> order[0] <= x
  {
    assert forall i :: 0 <= i < |order[1..]| ==> order[1..][i] == order[i + 1];
  }

  lemma {:induction false} InsertAscending(order: seq<ProxyId>, id: ProxyId)
    requires Ascending(order)
    ensures Ascending(Insert(order, id)) && |Insert(order, id)| == |order| + 1
  {
    hide Ascending;
    if order == [] {
      EmptyAscends();
      ConsAscends(id, []);
      assert [id] + [] == [id];
    } else {
      TailAscends(order);
      if id <= order[0] {
        ConsAscends(id, order);
      } else {
        InsertAscending(order[1..], id);
        assert forall x :: x in order[1..] ==> x in order;
        ConsAscends(order[0], Insert(order[1..], id));
      }
    }
  }

  lemma EmptyAscends()
    ensures Ascending([])
  {
  }

  /** The order is sorted afresh whenever a proxy is added. */
  lemma {:induction false} SortedAscends(order: seq<ProxyId>)
    ensures Ascending(Sorted(order)) && |Sorted(order)| == |order|
  {
    if order == [] {
      EmptyAscends();
    } else {
      SortedAscends(order[1..]);
      InsertAscending(Sorted(order[1..]), order[0]);
    }
  }

  /** A new proxy of the pool is free to take unless disabled, at its place in the sorted order, and saved. */
  lemma AddMeaning(s: State, id: ProxyId, address: Address, disabled: bool)
    requires id !in s.proxies
    ensures var after := AddProxy(s, id, address, disabled);
            && after == s.(proxies := after.proxies, order := after.order, disk := after.disk)
            && after.proxies == s.proxies[id := Proxy(address, if disabled then ProxyDisabled else ProxyIdle,
                                                      None, None, 0, 0, 0, disabled, PoolSource, 0)]
            && Ascending(after.order) && (forall x :: x in after.order <==> x in s.order || x == id)
            && after.disk == s.disk.(proxies := s.disk.proxies[id := Row(address, disabled)])
            && (!disabled ==> forall now :: Running(s.leases, now, id) || Usable(after, now, id))
  {
    hide Sorted;
    SortedAscends(s.order + [id]);
  }

  /** Taking an idle proxy out and putting it back changes nothing but the row; a busy one keeps its status. */
  lemma SwitchingBack(s: State, id: ProxyId)
    requires id in s.proxies && !s.proxies[id].disabled
    ensures var off := SetProxyDisabled(s, id, true);
            && off.proxies[id] == s.proxies[id].(disabled := true,
                 status := if s.proxies[id].status == ProxyIdle then ProxyDisabled else s.proxies[id].status)
            && off.proxies == s.proxies[id := off.proxies[id]]
            && (s.proxies[id].status != ProxyDisabled ==> SetProxyDisabled(off, id, false).proxies == s.proxies)
            && (s.proxies[id].status == ProxyDisabled ==> SetProxyDisabled(off, id, false).proxies[id].status == ProxyIdle)
  {
    var p, off := s.proxies[id], SetProxyDisabled(s, id, true);
    assert s.proxies[id := p] == s.proxies;
    if p.status != ProxyDisabled {
      var on := SetProxyDisabled(off, id, false);
      assert on.proxies[id] == p;
      assert on.proxies == off.proxies[id := p] == s.proxies[id := p];
    }
  }

  /** An update replaces address and flag. Saving a disabled proxy as disabled once more leaves it idle, but not free. */
  lemma UpdateMeaning(s: State, id: ProxyId, address: Address, disabled: bool)
    requires id in s.proxies
    ensures var after := UpdateProxy(s, id, address, disabled);
            var (p, q) := (s.proxies[id], after.proxies[id]);
            && q == p.(address := address, disabled := disabled, status := q.status)
            && after.proxies == s.proxies[id := q] && after.disk.proxies == s.disk.proxies[id := Row(address, disabled)]
            && after == s.(proxies := after.proxies, disk := s.disk.(proxies := after.disk.proxies))
            && (p.status != ProxyIdle && p.status != ProxyDisabled ==> q.status == p.status)
            && (p.status == ProxyIdle ==> (q.status == ProxyDisabled <==> disabled) && (q.status == ProxyIdle <==> !disabled))
            && (p.status == ProxyDisabled ==> q.status == ProxyIdle && forall now :: Usable(after, now, id) ==> !disabled)
  {
  }

  /** A proxy is deleted, with its rows, exactly if it is neither serving, checked nor draining, nor has connections. */
  lemma DeleteMeaning(s: State, id: ProxyId)
    requires id in s.proxies
    ensures var (after, p) := (DeleteProxy(s, id), s.proxies[id]);
            if p.activeConns > 0 || p.status == ProxyActive || p.status == ProxyChecking || p.status == ProxyDraining then after == s
            else
              && after == s.(proxies := s.proxies - {id}, order := after.order, disk := after.disk)
              && (forall x :: x in after.order <==> x in s.order && x != id)
              && after.disk == s.disk.(proxies := s.disk.proxies - {id}, dynamics := s.disk.dynamics - {id})
  {
  }
}
