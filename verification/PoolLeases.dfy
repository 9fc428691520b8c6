/** Exclusivity: each critical section keeps `LeasesOk`, whatever ran in between. */
module PoolLeases {
  import opened Common
  import opened Addresses
  import opened Pool
  import opened PoolSafety

  /** Leases that are a part of the old ones, and proxies each fine by themselves. */
  lemma FewerLeases(leases: Leases, fewer: Leases, now: Time)
    requires Exclusive(leases, now)
    requires forall c :: c in fewer ==> c in leases && fewer[c] == leases[c]
    ensures Exclusive(fewer, now)
    ensures forall c, id :: LiveOn(fewer, now, c, id) ==> LiveOn(leases, now, c, id)
  {
    assert forall c, id :: LiveOn(fewer, now, c, id) ==> LiveOn(leases, now, c, id);
  }

  lemma ReleaseKeepsLeases(s: State, c: Client, now: Time)
    requires LeasesOk(s, now)
    ensures LeasesOk(ReleaseLease(s, c, now), now)
  {
    if c in s.leases {
      var after := ReleaseLease(s, c, now);
      FewerLeases(s.leases, after.leases, now);
      forall id | id in after.proxies ensures LeaseOk(after.leases, now, id, after.proxies[id]) {
        assert LeaseOk(s.leases, now, id, s.proxies[id]);
      }
    }
  }

  lemma SweepKeepsLeases(s: State, c: Client, now: Time)
    requires LeasesOk(s, now)
    ensures LeasesOk(Swept(s, c, now), now)
  {
    ReleaseKeepsLeases(s, c, now);
  }

  lemma NotLiveMeansNone(leases: Leases, now: Time, id: ProxyId)
    ensures HasLive(leases, now, id) <==> !NoneLive(leases, now, id)
  {
    if !NoneLive(leases, now, id) {
      var c :| LiveOn(leases, now, c, id);
      assert c in leases;
    }
  }

  lemma ReserveKeepsLeases(s: State, c: Client, refresh: bool, now: Time)
    requires LeasesOk(s, now)
    ensures LeasesOk(Reserve(s, c, refresh, now).0, now)
    ensures var (after, r) := Reserve(s, c, refresh, now);
            r.Reserved? ==> CheckedFor(after, r.id, c) && NoneLive(after.leases, now, r.id)
  {
    SweepKeepsLeases(s, c, now);
    var swept := Swept(s, c, now);
    var r := Reserve(s, c, refresh, now).1;
    if r.Reserved? {
      assert Eligible(swept, now, r.id);
      NotLiveMeansNone(swept.leases, now, r.id);
      SetKeepsLeases(swept, now, r.id, Reserve(s, c, refresh, now).0.proxies[r.id]);
    }
  }

  /** A lease for `c` on a proxy that nobody has an unexpired lease on. */
  lemma NewLeaseKeepsExclusive(leases: Leases, now: Time, c: Client, l: Lease, more: Leases)
    requires Exclusive(leases, now) && NoneLive(leases, now, l.proxyId) && more == leases[c := l]
    ensures Exclusive(more, now) && OnlyLive(more, now, l.proxyId, Some(c))
  {
    assert forall d, id :: LiveOn(more, now, d, id) ==> if d == c then id == l.proxyId else LiveOn(leases, now, d, id);
  }

  lemma OtherLeaseOk(leases: Leases, now: Time, c: Client, l: Lease, more: Leases, other: ProxyId, p: Proxy)
    requires LeaseOk(leases, now, other, p) && other != l.proxyId && more == leases[c := l]
    ensures LeaseOk(more, now, other, p)
  {
    assert forall d :: LiveOn(more, now, d, other) ==> LiveOn(leases, now, d, other);
  }

  lemma ReplacedKeepsLeases(s: State, now: Time, c: Client)
    requires LeasesOk(s, now)
    ensures LeasesOk(WithReplaced(s, c), now)
  {
  }

  lemma ActivateKeepsLeases(s: State, id: ProxyId, c: Client, refresh: bool, expires: Time, now: Time)
    requires LeasesOk(s, now)
    ensures LeasesOk(Activate(s, id, c, refresh, expires), now)
  {
    var after := Activate(s, id, c, refresh, expires);
    if after != s {
      var before := if refresh then WithReplaced(s, c) else s;
      ReplacedKeepsLeases(s, now, c);
      NewLeaseKeepsExclusive(s.leases, now, c, Lease(id, expires), after.leases);
      assert LeaseOk(s.leases, now, id, s.proxies[id]);
      forall other | other in after.proxies ensures LeaseOk(after.leases, now, other, after.proxies[other]) {
        if other != id {
          assert LeaseOk(s.leases, now, other, before.proxies[other]);
          OtherLeaseOk(s.leases, now, c, Lease(id, expires), after.leases, other, before.proxies[other]);
        }
      }
    }
  }

  /** A name that no lease mentions. */
  predicate Unleased(leases: Leases, id: ProxyId) {
    forall c :: c in leases ==> leases[c].proxyId != id
  }

  lemma DynamicKeepsLeases(s: State, c: Client, id: ProxyId, address: Address, expires: Time, now: Time)
    requires LeasesOk(s, now) && Unleased(s.leases, id)
    ensures LeasesOk(ActivateDynamic(s, c, id, address, expires), now)
  {
    var after := ActivateDynamic(s, c, id, address, expires);
    if after != s {
      var before := WithSuperseded(s, c);
      assert NoneLive(s.leases, now, id);
      NewLeaseKeepsExclusive(s.leases, now, c, Lease(id, expires), after.leases);
      forall other | other in after.proxies ensures LeaseOk(after.leases, now, other, after.proxies[other]) {
        if other != id {
          assert LeaseOk(s.leases, now, other, s.proxies[other]);
          OtherLeaseOk(s.leases, now, c, Lease(id, expires), after.leases, other, before.proxies[other]);
        }
      }
    }
  }

  lemma HealthKeepsLeases(s: State, id: ProxyId, passed: bool, failureThreshold: nat, successThreshold: nat, now: Time)
    requires LeasesOk(s, now)
    ensures LeasesOk(RecordHealth(s, id, passed, failureThreshold, successThreshold, now), now)
  {
    if id in s.proxies {
      var after := RecordHealth(s, id, passed, failureThreshold, successThreshold, now);
      SetKeepsLeases(s, now, id, after.proxies[id]);
    }
  }

  /** Giving back and blaming never touch a lease. */
  lemma SettlingKeepsLeases(s: State, now: Time, id: ProxyId, c: Client)
    requires LeasesOk(s, now)
    ensures LeasesOk(Restore(s, id, c), now) && LeasesOk(Blame(s, id, c), now)
  {
  }

  lemma AdministrationKeepsLeases(s: State, now: Time, id: ProxyId, address: Address, disabled: bool)
    requires LeasesOk(s, now)
    ensures LeasesOk(AddProxy(s, id, address, disabled), now) && LeasesOk(UpdateProxy(s, id, address, disabled), now)
    ensures LeasesOk(SetProxyDisabled(s, id, disabled), now) && LeasesOk(DeleteProxy(s, id), now)
  {
  }

  lemma ConnectionsKeepLeases(s: State, now: Time, id: ProxyId, c: Client, k: Connection)
    requires LeasesOk(s, now)
    ensures LeasesOk(AcquireConn(s, c, k, now).0, now) && LeasesOk(UnregisterConn(s, c, id, k, now), now)
  {
  }
}
