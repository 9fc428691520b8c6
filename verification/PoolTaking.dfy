/**
 Who is given what: which proxy a reservation takes, which queued client is served, and who may connect
 through which proxy, all in terms of records, leases and the clock.
 */
module PoolTaking {
  import opened Common
  import opened Addresses
  import opened Pool
  import opened PoolSafety

  // ---- Proxies that are free to take ----

  /** An idle, enabled proxy of the pool on which no lease is running. */
  predicate Usable(s: State, now: Time, id: ProxyId) {
    && id in s.proxies
    && s.proxies[id].source == PoolSource && s.proxies[id].status == ProxyIdle && !s.proxies[id].disabled
    && forall c :: c in s.leases && s.leases[c].proxyId == id ==> s.leases[c].expiresAt <= now
  }

  /** `id` stands in the order before every other proxy that is free to take. */
  predicate TakesFirst(s: State, now: Time, order: seq<ProxyId>, id: ProxyId) {
    exists i :: 0 <= i < |order| && order[i] == id && Usable(s, now, id) && forall j :: 0 <= j < i ==> !Usable(s, now, order[j])
  }

  predicate NoneUsable(s: State, now: Time) {
    forall id :: id in s.order ==> !Usable(s, now, id)
  }

  lemma EligibleIsUsable(s: State, now: Time, id: ProxyId)
    ensures Eligible(s, now, id) <==> Usable(s, now, id)
  {
    if Eligible(s, now, id) {
      assert forall c :: c in s.leases && s.leases[c].proxyId == id ==> !LiveOn(s.leases, now, c, id);
    }
  }

  /** The scan of the order finds the first proxy that is free to take, and none only if none is. */
  lemma {:induction false} ScanTakesFirst(s: State, now: Time, order: seq<ProxyId>)
    ensures var r := FirstEligible(s, now, order);
            && (r.Some? ==> TakesFirst(s, now, order, r.value))
            && (r.None? <==> forall id :: id in order ==> !Usable(s, now, id))
  {
    hide Eligible, Usable;
    if order != [] {
      EligibleIsUsable(s, now, order[0]);
      ScanTakesFirst(s, now, order[1..]);
      var r := FirstEligible(s, now, order);
      if Usable(s, now, order[0]) {
        assert TakesFirst(s, now, order, order[0]);
      } else if r.Some? {
        var i :| 0 <= i < |order[1..]| && order[1..][i] == r.value && forall j :: 0 <= j < i ==> !Usable(s, now, order[1..][j]);
        assert order[i + 1] == r.value;
        assert forall j :: 0 <= j < i + 1 ==> !Usable(s, now, order[j]) by {
          assert forall j :: 0 < j < i + 1 ==> order[j] == order[1..][j - 1];
        }
      } else {
        assert forall id :: id in order ==> id == order[0] || id in order[1..];
      }
    }
  }

  // ---- Reservations ----

  /** Checked for `c`, its record otherwise as it was. */
  predicate CheckBegins(p: Proxy, q: Proxy, c: Client) {
    q == p.(status := ProxyChecking, client := Some(c), drainingFor := None)
  }

  /** `c` is told to wait, at the end of the queue of new clients or of refreshes, where it may already be. */
  predicate WaitsInQueue(s: State, after: State, c: Client, refresh: bool) {
    && (if refresh then after.pendingNew == s.pendingNew else after.pendingRefs == s.pendingRefs)
    && var (was, longer) := if refresh then (s.pendingRefs, after.pendingRefs) else (s.pendingNew, after.pendingNew);
       if c in was then longer == was else |longer| == |was| + 1 && longer[..|was|] == was && longer[|was|] == c
  }

  /**
   A client that does not ask for another proxy and whose lease has not lapsed is told its lease. Any other
   takes the first proxy that is free, and only that proxy changes; or, if none is free, it waits in line.
   */
  lemma ReserveMeaning(s: State, c: Client, refresh: bool, now: Time)
    ensures var (after, r) := Reserve(s, c, refresh, now);
            var swept := if c in s.leases && s.leases[c].expiresAt < now then ReleaseLease(s, c, now) else s;
            if !refresh && c in s.leases && now <= s.leases[c].expiresAt then
              after == s && r == Answered(Assignment(LeaseActive, Some(s.leases[c])))
            else if NoneUsable(swept, now) then
              && after == swept.(pendingNew := after.pendingNew, pendingRefs := after.pendingRefs)
              && WaitsInQueue(swept, after, c, refresh)
              && r == Answered(Assignment(LeasePending, if refresh && c in swept.leases then Some(s.leases[c]) else None))
            else
              && r.Reserved? && TakesFirst(swept, now, swept.order, r.id)
              && after == swept.(proxies := after.proxies) && after.proxies.Keys == swept.proxies.Keys
              && CheckBegins(swept.proxies[r.id], after.proxies[r.id], c)
              && forall id :: id in swept.proxies && id != r.id ==> after.proxies[id] == swept.proxies[id]
  {
    hide HasLive, Keep, Unbound, Purgeable, FirstEligible, Usable;
    var swept := Swept(s, c, now);
    ScanTakesFirst(swept, now, swept.order);
    SweptLeases(s, c, now);
  }

  lemma SweptLeases(s: State, c: Client, now: Time)
    ensures c in Swept(s, c, now).leases <==> c in s.leases && now <= s.leases[c].expiresAt
    ensures c in Swept(s, c, now).leases ==> Swept(s, c, now) == s
  {
  }

  // ---- Queue heads ----

  /**
   The client that is served is the one taken out: the head of the queue of new clients, or, when that is
   empty, of the queue of refreshes. Somebody is served exactly if somebody waits and a proxy is free.
   */
  lemma ServedIsTakenOut(s: State, now: Time)
    ensures var (after, served) := NextQueued(s, now);
            && after == s.(pendingNew := after.pendingNew, pendingRefs := after.pendingRefs)
            && (served.Some? <==> (s.pendingNew != [] || s.pendingRefs != []) && !NoneUsable(s, now))
            && (served.None? ==> after == s)
            && (served.Some? ==>
                  var (c, refresh) := served.value;
                  if s.pendingNew != []
                  then !refresh && s.pendingNew == [c] + after.pendingNew && after.pendingRefs == s.pendingRefs
                  else refresh && s.pendingRefs == [c] + after.pendingRefs && after.pendingNew == [])
  {
    hide FirstEligible, Usable;
    ScanTakesFirst(s, now, s.order);
  }

  // ---- Connections ----

  /** The client's own lease has not lapsed and is on `id`, which is in service for this client. */
  predicate ServedBy(s: State, c: Client, now: Time, id: ProxyId) {
    && c in s.leases && s.leases[c].proxyId == id && now <= s.leases[c].expiresAt
    && id in s.proxies && s.proxies[id].status == ProxyActive && s.proxies[id].client == Some(c)
  }

  /**
   A new connection is let through exactly if some proxy serves the client, and then through that proxy,
   which counts it. Nothing else changes, and a refusal changes nothing.
   */
  lemma ConnectsIffServed(s: State, c: Client, k: Connection, now: Time)
    ensures var (after, through) := AcquireConn(s, c, k, now);
            && (forall id :: through == Some(id) <==> ServedBy(s, c, now, id) && (c, k) !in s.via)
            && (through.None? ==> after == s)
            && (through.Some? ==>
                  && after == s.(via := s.via[(c, k) := through.value], proxies := after.proxies)
                  && after.proxies.Keys == s.proxies.Keys
                  && after.proxies[through.value] == s.proxies[through.value].(activeConns := s.proxies[through.value].activeConns + 1)
                  && forall id :: id in s.proxies && id != through.value ==> after.proxies[id] == s.proxies[id])
  {
  }

  /**
   Unregistering forgets the connection and lowers the count of its proxy by one. With its last connection
   a dynamic proxy without a running lease is dropped, and a draining one is free, or disabled; otherwise
   nobody's status changes.
   */
  lemma UnregisterMeaning(s: State, c: Client, id: ProxyId, k: Connection, now: Time)
    requires (c, k) in s.via && id in s.proxies && s.proxies[id].activeConns > 0
    ensures var (after, p) := (UnregisterConn(s, c, id, k, now), s.proxies[id]);
            && after.via == s.via - {(c, k)} && after.leases == s.leases && after.disk == s.disk
            && after.pendingNew == s.pendingNew && after.pendingRefs == s.pendingRefs
            && (forall other :: other in s.proxies && other != id ==> other in after.proxies && after.proxies[other] == s.proxies[other])
            && (forall other :: other in after.proxies ==> other in s.proxies)
            && (id !in after.proxies <==>
                  && p.activeConns == 1 && p.source == ApiSource
                  && forall d :: d in s.leases && s.leases[d].proxyId == id ==> s.leases[d].expiresAt <= now)
            && (id in after.proxies ==>
                  var q := after.proxies[id];
                  && q.activeConns == p.activeConns - 1
                  && if p.status == ProxyDraining && p.activeConns == 1
                     then q.status == (if p.disabled then ProxyDisabled else ProxyIdle) && q.client == None && q.drainingFor == None
                     else q == p.(activeConns := p.activeConns - 1))
  {
    hide Without;
    LiveOrNot(s.leases, now, id);
  }

  lemma LiveOrNot(leases: Leases, now: Time, id: ProxyId)
    ensures HasLive(leases, now, id) <==> exists c :: c in leases && leases[c].proxyId == id && now < leases[c].expiresAt
  {
    if c :| c in leases && leases[c].proxyId == id && now < leases[c].expiresAt {
      assert LiveOn(leases, now, c, id);
    }
  }

  /** An unknown connection, and one whose proxy is gone or counts nothing, changes no proxy. */
  lemma UnregisterNothing(s: State, c: Client, id: ProxyId, k: Connection, now: Time)
    requires (c, k) !in s.via || id !in s.proxies || s.proxies[id].activeConns == 0
    ensures UnregisterConn(s, c, id, k, now) == s.(via := s.via - {(c, k)})
  {
    assert (c, k) !in s.via ==> s.via - {(c, k)} == s.via;
  }
}
