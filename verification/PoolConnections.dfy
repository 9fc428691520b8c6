/** Conservation and isolation of connections: each critical section keeps `ConnsOk`. */
module PoolConnections {
  import opened Common
  import opened Addresses
  import opened Pool
  import opened PoolSafety
  import opened PoolLeases

  // ---- Releasing ----

  /** A live lease left over on a busy proxy is its owner's. */
  lemma UnboundConnOk(s: State, fewer: Leases, now: Time, id: ProxyId, c: Client)
    requires ConnsOk(s, now) && c in s.leases && id in s.proxies && fewer == s.leases - {c}
    ensures var leased := s.leases[c].proxyId;
            ConnOk(fewer, s.via, now, id, Unbound(s.proxies[id], id, leased, c, HasLive(fewer, now, leased)))
  {
    var p, leased := s.proxies[id], s.leases[c].proxyId;
    var still := HasLive(fewer, now, leased);
    var q := Unbound(p, id, leased, c, still);
    assert ConnOk(s.leases, s.via, now, id, p);
    forall k | k in On(s.via, id) ensures OwnerOk(fewer, now, id, q, k.0) {
      assert OwnerOk(s.leases, now, id, p, k.0);
      assert forall d :: LiveOn(fewer, now, d, id) ==> LiveOn(s.leases, now, d, id);
      if id == leased && still {
        var d :| d in fewer && LiveOn(fewer, now, d, leased);
        assert LiveOn(s.leases, now, d, id);
      }
    }
  }

  lemma ReleaseKeepsConns(s: State, c: Client, now: Time)
    requires ConnsOk(s, now)
    ensures ConnsOk(ReleaseLease(s, c, now), now)
  {
    if c in s.leases {
      var after := ReleaseLease(s, c, now);
      forall id | id in s.proxies
        ensures id in after.proxies ==> ConnOk(after.leases, after.via, now, id, after.proxies[id])
        ensures id !in after.proxies ==> On(s.via, id) == {}
      {
        UnboundConnOk(s, after.leases, now, id, c);
      }
      forall k | k in s.via ensures s.via[k] in after.proxies {
        assert k in On(s.via, s.via[k]);
      }
    }
  }

  lemma ReserveKeepsConns(s: State, c: Client, refresh: bool, now: Time)
    requires ConnsOk(s, now)
    ensures ConnsOk(Reserve(s, c, refresh, now).0, now)
    ensures var (after, r) := Reserve(s, c, refresh, now); r.Reserved? ==> On(after.via, r.id) == {}
  {
    ReleaseKeepsConns(s, c, now);
    var swept := Swept(s, c, now);
    var (after, r) := Reserve(s, c, refresh, now);
    if r.Reserved? {
      assert ConnOk(swept.leases, swept.via, now, r.id, swept.proxies[r.id]);
      QuietStatus(swept.leases, swept.via, now, r.id, swept.proxies[r.id]);
      QuietConnOk(swept.leases, swept.via, now, r.id, swept.proxies[r.id], after.proxies[r.id]);
      SetKeepsConns(swept, now, r.id, after.proxies[r.id]);
    }
  }

  // ---- Activating ----

  lemma ReplacedConnOk(s: State, now: Time, id: ProxyId, c: Client)
    requires id in s.proxies && ConnOk(s.leases, s.via, now, id, s.proxies[id])
    ensures ConnOk(s.leases, s.via, now, id, Replaced(s.proxies[id], c))
  {
    hide LiveOn;
    var p := s.proxies[id];
    if p.activeConns == 0 {
      QuietConnOk(s.leases, s.via, now, id, p, Replaced(p, c));
    } else {
      assert forall k :: k in On(s.via, id) ==> OwnerOk(s.leases, now, id, p, k.0);
    }
  }

  lemma ReplacedKeepsConns(s: State, now: Time, c: Client)
    requires ConnsOk(s, now)
    ensures ConnsOk(WithReplaced(s, c), now)
  {
    hide ConnOk, Replaced;
    if c in s.leases && s.leases[c].proxyId in s.proxies {
      ReplacedConnOk(s, now, s.leases[c].proxyId, c);
    }
  }

  /** A new lease on a proxy without connections. */
  lemma NewLeaseKeepsConns(s: State, now: Time, c: Client, l: Lease, more: Leases, id: ProxyId)
    requires ConnsOk(s, now) && id in s.proxies
    requires more == s.leases[c := l] && On(s.via, l.proxyId) == {}
    ensures ConnOk(more, s.via, now, id, s.proxies[id])
  {
    var p := s.proxies[id];
    assert ConnOk(s.leases, s.via, now, id, p);
    forall k | k in On(s.via, id) ensures OwnerOk(more, now, id, p, k.0) {
      assert OwnerOk(s.leases, now, id, p, k.0);
      assert forall d :: LiveOn(more, now, d, id) ==> LiveOn(s.leases, now, d, id);
    }
  }

  /** A refresh drains or frees the old proxy first; any other activation overwrites the client's lease. */
  lemma ActivateKeepsConns(s: State, id: ProxyId, c: Client, refresh: bool, expires: Time, now: Time)
    requires ConnsOk(s, now)
    ensures ConnsOk(Activate(s, id, c, refresh, expires), now)
  {
    var after := Activate(s, id, c, refresh, expires);
    if after != s {
      var before := if refresh then WithReplaced(s, c) else s;
      ReplacedKeepsConns(s, now, c);
      assert ConnOk(s.leases, s.via, now, id, s.proxies[id]);
      QuietStatus(s.leases, s.via, now, id, s.proxies[id]);
      forall other | other in after.proxies ensures ConnOk(after.leases, after.via, now, other, after.proxies[other]) {
        NewLeaseKeepsConns(before, now, c, Lease(id, expires), after.leases, other);
        if other == id {
          QuietConnOk(after.leases, after.via, now, id, before.proxies[id], after.proxies[id]);
        }
      }
    }
  }

  lemma SupersededKeepsConns(s: State, now: Time, c: Client)
    requires ConnsOk(s, now)
    ensures ConnsOk(WithSuperseded(s, c), now)
  {
    if c in s.leases && s.leases[c].proxyId in s.proxies {
      var id := s.leases[c].proxyId;
      assert ConnOk(s.leases, s.via, now, id, s.proxies[id]);
      ReplacedKeepsConns(s, now, c);
      forall k | k in s.via ensures s.via[k] in WithSuperseded(s, c).proxies {
        assert k in On(s.via, s.via[k]);
      }
    }
  }

  lemma DynamicKeepsConns(s: State, c: Client, id: ProxyId, address: Address, expires: Time, now: Time)
    requires ConnsOk(s, now)
    ensures ConnsOk(ActivateDynamic(s, c, id, address, expires), now)
  {
    var after := ActivateDynamic(s, c, id, address, expires);
    if after != s {
      var before := WithSuperseded(s, c);
      SupersededKeepsConns(s, now, c);
      assert On(s.via, id) == {};
      forall other | other in after.proxies ensures ConnOk(after.leases, after.via, now, other, after.proxies[other]) {
        if other != id {
          NewLeaseKeepsConns(before, now, c, Lease(id, expires), after.leases, other);
        }
      }
    }
  }

  // ---- Connecting ----

  /** A key added to or taken from the registry changes the connections of its own proxy only. */
  lemma RegistryChanged(via: Registry, key: (Client, Connection), id: ProxyId)
    ensures forall other :: On(via[key := id], other) - {key} == On(via, other) - {key}
    ensures key !in via ==> On(via[key := id], id) == On(via, id) + {key}
    ensures key !in via ==> forall other :: other != id ==> On(via[key := id], other) == On(via, other)
    ensures key in via && via[key] == id ==> On(via - {key}, id) == On(via, id) - {key}
    ensures key in via && via[key] == id ==> forall other :: other != id ==> On(via - {key}, other) == On(via, other)
  {
  }

  lemma JoinedConnOk(s: State, c: Client, k: Connection, now: Time)
    requires ConnsOk(s, now) && AcquireConn(s, c, k, now).1.Some?
    requires LeaseOk(s.leases, now, s.leases[c].proxyId, s.proxies[s.leases[c].proxyId])
    ensures var (after, granted) := AcquireConn(s, c, k, now);
            ConnOk(after.leases, after.via, now, granted.value, after.proxies[granted.value])
  {
    var id := s.leases[c].proxyId;
    var p := s.proxies[id];
    RegistryChanged(s.via, (c, k), id);
    assert ConnOk(s.leases, s.via, now, id, p);
    hide On, LiveOn;
    assert forall j :: j in On(s.via, id) ==> OwnerOk(s.leases, now, id, p, j.0) && j.0 == c;
    assert OwnerOk(s.leases, now, id, p.(activeConns := p.activeConns + 1), c);
  }

  lemma AcquireKeepsConns(s: State, c: Client, k: Connection, now: Time)
    requires ConnsOk(s, now) && LeasesOk(s, now)
    ensures ConnsOk(AcquireConn(s, c, k, now).0, now)
  {
    var (after, granted) := AcquireConn(s, c, k, now);
    if granted.Some? {
      var id := granted.value;
      RegistryChanged(s.via, (c, k), id);
      JoinedConnOk(s, c, k, now);
      forall other | other in after.proxies && other != id
        ensures ConnOk(after.leases, after.via, now, other, after.proxies[other])
      {
        assert ConnOk(s.leases, s.via, now, other, s.proxies[other]);
        SameConnections(s, after.via, now, other);
      }
    }
  }

  lemma SameConnections(s: State, via: Registry, now: Time, id: ProxyId)
    requires id in s.proxies && ConnOk(s.leases, s.via, now, id, s.proxies[id]) && On(via, id) == On(s.via, id)
    ensures ConnOk(s.leases, via, now, id, s.proxies[id])
  {
  }

  /** The caller unregisters a connection from the proxy it was given for it. */
  predicate GivenThrough(s: State, c: Client, id: ProxyId, k: Connection) {
    (c, k) in s.via ==> s.via[(c, k)] == id
  }

  lemma LeftConnOk(s: State, c: Client, id: ProxyId, k: Connection, now: Time)
    requires ConnsOk(s, now) && (c, k) in s.via && s.via[(c, k)] == id
    ensures var after := UnregisterConn(s, c, id, k, now);
            && (id in after.proxies ==> ConnOk(after.leases, after.via, now, id, after.proxies[id]))
            && (id !in after.proxies ==> On(after.via, id) == {})
            && s.proxies[id].activeConns > 0
  {
    hide ConnOk, HasLive, Disconnected, Without;
    assert (c, k) in On(s.via, id);
    RegistryChanged(s.via, (c, k), id);
    assert ConnOk(s.leases, s.via, now, id, s.proxies[id]);
    DisconnectedConnOk(s, (c, k), s.via - {(c, k)}, now, id);
  }

  lemma DisconnectedConnOk(s: State, key: (Client, Connection), via: Registry, now: Time, id: ProxyId)
    requires id in s.proxies && ConnOk(s.leases, s.via, now, id, s.proxies[id])
    requires key in On(s.via, id) && On(via, id) == On(s.via, id) - {key}
    ensures ConnOk(s.leases, via, now, id, Disconnected(s.proxies[id]))
    ensures s.proxies[id].activeConns > 0
    ensures s.proxies[id].activeConns == 1 ==> On(via, id) == {}
  {
    hide On;
    var p := s.proxies[id];
    assert forall j :: j in On(via, id) ==> j in On(s.via, id) && OwnerOk(s.leases, now, id, p, j.0);
    assert |On(via, id)| == |On(s.via, id)| - 1;
  }

  /** Every connection but the one that left is still through a proxy that exists. */
  lemma UnregisterKeepsProxies(s: State, c: Client, id: ProxyId, k: Connection, now: Time)
    requires ConnsOk(s, now) && (c, k) in s.via && s.via[(c, k)] == id
    ensures var after := UnregisterConn(s, c, id, k, now);
            forall j :: j in after.via ==> after.via[j] in after.proxies
  {
    var after := UnregisterConn(s, c, id, k, now);
    LeftConnOk(s, c, id, k, now);
    hide ConnOk;
    forall j | j in after.via ensures after.via[j] in after.proxies {
      assert after.via[j] == id ==> j in On(after.via, id);
    }
  }

  /** Only the proxy that lost the connection changed. */
  lemma UnregisterTouches(s: State, c: Client, id: ProxyId, k: Connection, now: Time)
    ensures var after := UnregisterConn(s, c, id, k, now);
            && after.leases == s.leases && after.via == s.via - {(c, k)}
            && forall other :: other in after.proxies && other != id ==> other in s.proxies && after.proxies[other] == s.proxies[other]
  {
    assert (c, k) !in s.via ==> s.via == s.via - {(c, k)};
  }

  lemma UnregisterKeepsConns(s: State, c: Client, id: ProxyId, k: Connection, now: Time)
    requires ConnsOk(s, now) && GivenThrough(s, c, id, k)
    ensures ConnsOk(UnregisterConn(s, c, id, k, now), now)
  {
    if (c, k) in s.via {
      var after := UnregisterConn(s, c, id, k, now);
      RegistryChanged(s.via, (c, k), id);
      LeftConnOk(s, c, id, k, now);
      UnregisterKeepsProxies(s, c, id, k, now);
      UnregisterTouches(s, c, id, k, now);
      hide ConnOk, UnregisterConn, On;
      forall other | other in after.proxies
        ensures ConnOk(after.leases, after.via, now, other, after.proxies[other])
      {
        if other != id {
          SameConnections(s, after.via, now, other);
        }
      }
    }
  }

  // ---- Health ----

  /** The branch that would make a busy proxy idle: no unexpired lease, no draining label. */
  predicate RecoversBusy(s: State, id: ProxyId, now: Time) {
    && id in s.proxies && s.proxies[id].status == ProxyUnhealthy
    && s.proxies[id].activeConns > 0 && s.proxies[id].drainingFor.None? && !HasLive(s.leases, now, id)
  }

  lemma RecoveredConnOk(s: State, id: ProxyId, q: Proxy, now: Time)
    requires ConnsOk(s, now) && id in s.proxies && s.proxies[id].status == ProxyUnhealthy && !RecoversBusy(s, id, now)
    requires q == s.proxies[id].(successCount := q.successCount, failureCount := q.failureCount)
    ensures ConnOk(s.leases, s.via, now, id, Recovered(s, id, q, now))
  {
    var p := s.proxies[id];
    assert ConnOk(s.leases, s.via, now, id, p);
    var r := Recovered(s, id, q, now);
    forall k | k in On(s.via, id) ensures OwnerOk(s.leases, now, id, r, k.0) {
      assert OwnerOk(s.leases, now, id, p, k.0);
      assert p.activeConns > 0;
      if HasLive(s.leases, now, id) {
        assert LiveOn(s.leases, now, LiveClient(s.leases, now, id), id);
      }
    }
  }

  lemma HealthKeepsConns(s: State, id: ProxyId, passed: bool, failureThreshold: nat, successThreshold: nat, now: Time)
    requires ConnsOk(s, now)
    requires passed ==> !RecoversBusy(s, id, now)
    ensures ConnsOk(RecordHealth(s, id, passed, failureThreshold, successThreshold, now), now)
  {
    if id in s.proxies {
      var p := s.proxies[id];
      var after := RecordHealth(s, id, passed, failureThreshold, successThreshold, now).proxies[id];
      assert ConnOk(s.leases, s.via, now, id, p);
      if passed && p.status == ProxyUnhealthy && p.successCount + 1 >= successThreshold {
        RecoveredConnOk(s, id, p.(successCount := p.successCount + 1, failureCount := 0), now);
      } else {
        assert forall k :: k in On(s.via, id) ==> OwnerOk(s.leases, now, id, p, k.0);
      }
      SetKeepsConns(s, now, id, after);
    }
  }

  /** A verdict is safe exactly unless it makes a busy proxy idle. */
  lemma RecoverySafety(s: State, id: ProxyId, passed: bool, failureThreshold: nat, successThreshold: nat, now: Time)
    requires ConnsOk(s, now) && id in s.proxies
    ensures ConnsOk(RecordHealth(s, id, passed, failureThreshold, successThreshold, now), now)
            <==> !(passed && s.proxies[id].successCount + 1 >= successThreshold && RecoversBusy(s, id, now))
  {
    var p := s.proxies[id];
    assert ConnOk(s.leases, s.via, now, id, p);
    var after := RecordHealth(s, id, passed, failureThreshold, successThreshold, now);
    if passed && p.successCount + 1 >= successThreshold && RecoversBusy(s, id, now) {
      assert after.proxies[id].status == ProxyIdle && after.proxies[id].activeConns > 0;
      if ConnsOk(after, now) {
        assert ConnOk(after.leases, after.via, now, id, after.proxies[id]);
        QuietStatus(after.leases, after.via, now, id, after.proxies[id]);
        assert false;
      }
    } else if passed && RecoversBusy(s, id, now) {
      assert forall k :: k in On(s.via, id) ==> OwnerOk(s.leases, now, id, p, k.0);
      SetKeepsConns(s, now, id, after.proxies[id]);
    } else {
      HealthKeepsConns(s, id, passed, failureThreshold, successThreshold, now);
    }
  }

  // ---- The rest changes only quiet proxies ----

  lemma SettlingKeepsConns(s: State, now: Time, id: ProxyId, c: Client)
    requires ConnsOk(s, now)
    ensures ConnsOk(Restore(s, id, c), now) && ConnsOk(Blame(s, id, c), now)
  {
    if CheckedFor(s, id, c) {
      var p := s.proxies[id];
      assert ConnOk(s.leases, s.via, now, id, p);
      QuietStatus(s.leases, s.via, now, id, p);
      QuietConnOk(s.leases, s.via, now, id, p, Restore(s, id, c).proxies[id]);
      QuietConnOk(s.leases, s.via, now, id, p, Blame(s, id, c).proxies[id]);
    }
  }

  lemma ReenabledConnOk(s: State, now: Time, id: ProxyId, p: Proxy)
    requires ConnsOk(s, now) && id in s.proxies && p.activeConns == s.proxies[id].activeConns
    requires p.client == s.proxies[id].client && p.drainingFor == s.proxies[id].drainingFor
    requires p.status == s.proxies[id].status
             || (p.status in {ProxyIdle, ProxyDisabled} && s.proxies[id].status in {ProxyIdle, ProxyDisabled})
    ensures ConnOk(s.leases, s.via, now, id, p)
  {
    assert ConnOk(s.leases, s.via, now, id, s.proxies[id]);
    if p.status != s.proxies[id].status {
      QuietStatus(s.leases, s.via, now, id, s.proxies[id]);
    } else {
      assert forall k :: k in On(s.via, id) ==> OwnerOk(s.leases, now, id, s.proxies[id], k.0);
    }
  }

  lemma AdministrationKeepsConns(s: State, now: Time, id: ProxyId, address: Address, disabled: bool)
    requires ConnsOk(s, now)
    ensures ConnsOk(AddProxy(s, id, address, disabled), now) && ConnsOk(UpdateProxy(s, id, address, disabled), now)
    ensures ConnsOk(SetProxyDisabled(s, id, disabled), now) && ConnsOk(DeleteProxy(s, id), now)
  {
    if id in s.proxies {
      ReenabledConnOk(s, now, id, UpdateProxy(s, id, address, disabled).proxies[id]);
      ReenabledConnOk(s, now, id, SetProxyDisabled(s, id, disabled).proxies[id]);
      DeleteKeepsConns(s, now, id);
    } else {
      assert On(s.via, id) == {};
    }
  }

  lemma DeleteKeepsConns(s: State, now: Time, id: ProxyId)
    requires ConnsOk(s, now) && id in s.proxies
    ensures ConnsOk(DeleteProxy(s, id), now)
  {
    assert ConnOk(s.leases, s.via, now, id, s.proxies[id]);
    forall k | k in s.via && s.proxies[id].activeConns == 0 ensures s.via[k] != id {
      assert s.via[k] == id ==> k in On(s.via, id);
    }
  }
}
