/**
 The lease behind a connection: a proxy in service is the one that the owners of its connections lease.
 Overlapping activations for one client break this, and only this. While it holds, isolation follows
 from an order that a caller can keep: release lapsed leases before a proxy recovers.
 */
module PoolAttachment {
  import opened Common
  import opened Addresses
  import opened Pool
  import opened PoolSafety
  import opened PoolLeases
  import opened PoolConnections
  import opened PoolRuns
  import opened PoolSweep

  /** No proxy in service has an open connection of the client that depends on its lease. */
  ghost predicate Dispensable(s: State, c: Client) {
    forall k :: k in s.via && k.0 == c && LeasedTo(s.leases, s.via[k], c) && s.via[k] in s.proxies ==>
      !InService(s.proxies[s.via[k]])
  }

  // ---- One proxy ----

  /** A proxy that serves no more than before, while its owners keep their leases. */
  lemma StaysAttached(leases: Leases, more: Leases, via: Registry, id: ProxyId, p: Proxy, q: Proxy)
    requires Attached(leases, via, id, p) && (InService(q) && On(via, id) != {} ==> InService(p))
    requires forall k :: k in On(via, id) && LeasedTo(leases, id, k.0) ==> LeasedTo(more, id, k.0)
    ensures Attached(more, via, id, q)
  {
  }

  lemma SetKeepsAttached(s: State, id: ProxyId, q: Proxy)
    requires AttachedOk(s) && id in s.proxies && (InService(q) && On(s.via, id) != {} ==> InService(s.proxies[id]))
    ensures AttachedOk(SetProxy(s, id, q))
  {
    StaysAttached(s.leases, s.leases, s.via, id, s.proxies[id], q);
  }

  // ---- Releasing ----

  lemma ReleaseAttached(s: State, c: Client, now: Time, id: ProxyId)
    requires ConnsOk(s, now) && AttachedOk(s) && c in s.leases && id in s.proxies
    ensures var (leased, fewer) := (s.leases[c].proxyId, s.leases - {c});
            Attached(fewer, s.via, id, Unbound(s.proxies[id], id, leased, c, HasLive(fewer, now, leased)))
  {
    var (p, leased, fewer) := (s.proxies[id], s.leases[c].proxyId, s.leases - {c});
    var still := HasLive(fewer, now, leased);
    var q := Unbound(p, id, leased, c, still);
    assert ConnOk(s.leases, s.via, now, id, p) && Attached(s.leases, s.via, id, p);
    if InService(q) {
      forall k | k in On(s.via, id) ensures LeasedTo(fewer, id, k.0) {
        assert OwnerOk(s.leases, now, id, p, k.0);
        if k.0 == c && still {
          var d :| d in fewer && LiveOn(fewer, now, d, leased);
          assert LiveOn(s.leases, now, d, leased);
        }
      }
    }
  }

  lemma ReleaseKeepsAttached(s: State, c: Client, now: Time)
    requires ConnsOk(s, now) && AttachedOk(s)
    ensures AttachedOk(ReleaseLease(s, c, now))
  {
    if c in s.leases {
      var after := ReleaseLease(s, c, now);
      forall id | id in after.proxies ensures Attached(after.leases, after.via, id, after.proxies[id]) {
        ReleaseAttached(s, c, now, id);
      }
    }
  }

  lemma ReserveKeepsAttached(s: State, c: Client, refresh: bool, now: Time)
    requires ConnsOk(s, now) && AttachedOk(s)
    ensures AttachedOk(Reserve(s, c, refresh, now).0)
  {
    hide HasLive, ReleaseLease, Attached;
    ReleaseKeepsAttached(s, c, now);
    var swept := Swept(s, c, now);
    var (after, r) := Reserve(s, c, refresh, now);
    if r.Reserved? {
      SetKeepsAttached(swept, r.id, after.proxies[r.id]);
    }
  }

  // ---- Activating ----

  lemma ReplacedKeepsAttached(s: State, now: Time, c: Client)
    requires ConnsOk(s, now) && AttachedOk(s)
    ensures AttachedOk(WithReplaced(s, c)) && Dispensable(WithReplaced(s, c), c)
  {
    if c in s.leases && s.leases[c].proxyId in s.proxies {
      var id := s.leases[c].proxyId;
      assert ConnOk(s.leases, s.via, now, id, s.proxies[id]);
      SetKeepsAttached(s, id, Replaced(s.proxies[id], c));
      assert forall k :: k in s.via && s.via[k] == id ==> k in On(s.via, id);
    }
  }

  /** A new lease for a client whose old one is dispensable. */
  lemma NewLeaseAttached(s: State, c: Client, l: Lease, more: Leases, id: ProxyId)
    requires AttachedOk(s) && Dispensable(s, c) && id in s.proxies && more == s.leases[c := l]
    ensures Attached(more, s.via, id, s.proxies[id])
  {
    assert Attached(s.leases, s.via, id, s.proxies[id]);
    if InService(s.proxies[id]) {
      forall k | k in On(s.via, id) ensures LeasedTo(more, id, k.0) {
        assert LeasedTo(s.leases, id, k.0);
      }
    }
  }

  lemma ActivateKeepsAttached(s: State, id: ProxyId, c: Client, refresh: bool, expires: Time, now: Time)
    requires ConnsOk(s, now) && AttachedOk(s) && (refresh || Dispensable(s, c))
    ensures AttachedOk(Activate(s, id, c, refresh, expires))
  {
    var after := Activate(s, id, c, refresh, expires);
    if after != s {
      var before := if refresh then WithReplaced(s, c) else s;
      ReplacedKeepsAttached(s, now, c);
      assert On(s.via, id) == {} by {
        assert ConnOk(s.leases, s.via, now, id, s.proxies[id]);
        QuietStatus(s.leases, s.via, now, id, s.proxies[id]);
      }
      hide On, Dispensable;
      forall other | other in after.proxies ensures Attached(after.leases, after.via, other, after.proxies[other]) {
        if other != id {
          NewLeaseAttached(before, c, Lease(id, expires), after.leases, other);
        }
      }
    }
  }

  lemma SupersededKeepsAttached(s: State, now: Time, c: Client)
    requires ConnsOk(s, now) && AttachedOk(s)
    ensures AttachedOk(WithSuperseded(s, c)) && Dispensable(WithSuperseded(s, c), c)
  {
    ReplacedKeepsAttached(s, now, c);
  }

  lemma DynamicKeepsAttached(s: State, c: Client, id: ProxyId, address: Address, expires: Time, now: Time)
    requires ConnsOk(s, now) && AttachedOk(s)
    ensures AttachedOk(ActivateDynamic(s, c, id, address, expires))
  {
    var after := ActivateDynamic(s, c, id, address, expires);
    if after != s {
      var before := WithSuperseded(s, c);
      SupersededKeepsAttached(s, now, c);
      assert On(s.via, id) == {};
      hide On, Dispensable, Without, Sorted, AddressTaken;
      forall other | other in after.proxies ensures Attached(after.leases, after.via, other, after.proxies[other]) {
        if other != id {
          NewLeaseAttached(before, c, Lease(id, expires), after.leases, other);
        }
      }
    }
  }

  /** Overwriting a lease that an open connection depends on leaves that connection without it. */
  lemma OverwriteDetaches(s: State, id: ProxyId, c: Client, expires: Time)
    requires CheckedFor(s, id, c) && !s.proxies[id].disabled && !Dispensable(s, c)
    ensures !AttachedOk(Activate(s, id, c, false, expires))
  {
    hide Without;
    var after := Activate(s, id, c, false, expires);
    var k :| k in s.via && k.0 == c && LeasedTo(s.leases, s.via[k], c) && s.via[k] in s.proxies && InService(s.proxies[s.via[k]]);
    var left := s.via[k];
    assert left != id && k in On(after.via, left);
    assert !Attached(after.leases, after.via, left, after.proxies[left]);
  }

  /**
   An activation that is not a refresh leaves every connection with the lease it depends on exactly if
   none depends on the lease that it overwrites.
   */
  lemma OverwriteSafety(s: State, id: ProxyId, c: Client, expires: Time, now: Time)
    requires ConnsOk(s, now) && AttachedOk(s) && CheckedFor(s, id, c) && !s.proxies[id].disabled
    ensures AttachedOk(Activate(s, id, c, false, expires)) <==> Dispensable(s, c)
  {
    hide ConnsOk, AttachedOk, Dispensable, Activate;
    if Dispensable(s, c) {
      ActivateKeepsAttached(s, id, c, false, expires, now);
    } else {
      OverwriteDetaches(s, id, c, expires);
    }
  }

  // ---- Connections and health ----

  lemma AcquireKeepsAttached(s: State, c: Client, k: Connection, now: Time)
    requires ConnsOk(s, now) && AttachedOk(s)
    ensures AttachedOk(AcquireConn(s, c, k, now).0)
  {
    var (after, granted) := AcquireConn(s, c, k, now);
    if granted.Some? {
      forall id | id in after.proxies ensures Attached(after.leases, after.via, id, after.proxies[id]) {
        assert Attached(s.leases, s.via, id, s.proxies[id]);
        assert forall j :: j in On(after.via, id) ==> j == (c, k) || j in On(s.via, id);
      }
    }
  }

  lemma UnregisterKeepsAttached(s: State, c: Client, id: ProxyId, k: Connection, now: Time)
    requires AttachedOk(s)
    ensures AttachedOk(UnregisterConn(s, c, id, k, now))
  {
    hide HasLive, Without;
    var after := UnregisterConn(s, c, id, k, now);
    forall other | other in after.proxies ensures Attached(after.leases, after.via, other, after.proxies[other]) {
      assert Attached(s.leases, s.via, other, s.proxies[other]);
      assert forall j :: j in On(after.via, other) ==> j in On(s.via, other);
    }
  }

  lemma RecoveredAttached(s: State, id: ProxyId, q: Proxy, now: Time)
    requires ConnsOk(s, now) && AttachedOk(s) && id in s.proxies
    requires q == s.proxies[id].(successCount := q.successCount, failureCount := q.failureCount)
    ensures Attached(s.leases, s.via, id, Recovered(s, id, q, now))
  {
    assert ConnOk(s.leases, s.via, now, id, s.proxies[id]);
    if HasLive(s.leases, now, id) {
      var holder := LiveClient(s.leases, now, id);
      forall k | k in On(s.via, id) ensures LeasedTo(s.leases, id, k.0) {
        assert OwnerOk(s.leases, now, id, s.proxies[id], k.0);
        assert LiveOn(s.leases, now, holder, id);
      }
    }
  }

  lemma HealthKeepsAttached(s: State, id: ProxyId, passed: bool, ft: nat, st: nat, now: Time)
    requires ConnsOk(s, now) && AttachedOk(s)
    ensures AttachedOk(RecordHealth(s, id, passed, ft, st, now))
  {
    if id in s.proxies {
      var p := s.proxies[id];
      assert ConnOk(s.leases, s.via, now, id, p) && Attached(s.leases, s.via, id, p);
      if passed {
        RecoveredAttached(s, id, p.(successCount := p.successCount + 1, failureCount := 0), now);
      }
      hide On, Recovered;
      if On(s.via, id) != {} && !InService(p) {
        BusyOutOfService(s, id, now);
      }
    }
  }

  lemma BusyOutOfService(s: State, id: ProxyId, now: Time)
    requires ConnsOk(s, now) && id in s.proxies && !InService(s.proxies[id]) && On(s.via, id) != {}
    ensures s.proxies[id].drainingFor.Some?
  {
    assert ConnOk(s.leases, s.via, now, id, s.proxies[id]);
    var k :| k in On(s.via, id);
    assert OwnerOk(s.leases, now, id, s.proxies[id], k.0);
  }

  // ---- The rest ----

  lemma SettlingKeepsAttached(s: State, id: ProxyId, c: Client)
    requires AttachedOk(s)
    ensures AttachedOk(Restore(s, id, c))
    ensures forall now :: ConnsOk(s, now) ==> AttachedOk(Blame(s, id, c))
  {
    if CheckedFor(s, id, c) {
      SetKeepsAttached(s, id, Restore(s, id, c).proxies[id]);
      forall now | ConnsOk(s, now) ensures AttachedOk(Blame(s, id, c)) {
        assert ConnOk(s.leases, s.via, now, id, s.proxies[id]);
        QuietStatus(s.leases, s.via, now, id, s.proxies[id]);
        SetKeepsAttached(s, id, Blame(s, id, c).proxies[id]);
      }
    }
  }

  lemma AdministrationKeepsAttached(s: State, step: Step, now: Time)
    requires AttachedOk(s) && ConnsOk(s, now)
    requires step.Add? || step.Update? || step.Switch? || step.Delete?
    ensures AttachedOk(Apply(s, step, now))
  {
    hide Without, Sorted;
    assert step.id !in s.proxies ==> On(s.via, step.id) == {};
    forall id | id in Apply(s, step, now).proxies
      ensures Attached(s.leases, s.via, id, Apply(s, step, now).proxies[id])
    {
      assert id in s.proxies ==> Attached(s.leases, s.via, id, s.proxies[id]);
    }
  }

  // ---- Ordered runs ----

  predicate AllLive(leases: Leases, now: Time, id: ProxyId) {
    forall c :: c in leases && leases[c].proxyId == id ==> LiveOn(leases, now, c, id)
  }

  /**
   What callers can see to: activations for one client do not overlap, and lapsed leases on a proxy are
   released before it recovers.
   */
  ghost predicate Ordered(s: State, step: Step, now: Time) {
    match step
    case Grant(_, c, refresh, _) => refresh || Dispensable(s, c)
    case Verdict(id, passed, _, _) => passed ==> AllLive(s.leases, now, id)
    case Disconnect(c, id, k) => GivenThrough(s, c, id, k)
    case _ => true
  }

  ghost predicate AllOrdered(s: State, events: seq<Event>)
    decreases |events|
  {
    events == [] ||
    (Ordered(s, events[0].step, events[0].now) && AllOrdered(Apply(s, events[0].step, events[0].now), events[1..]))
  }

  /** While connections have the leases they depend on, no proxy with only live leases is made idle busy. */
  lemma ReleasedBeforeRecovery(s: State, id: ProxyId, now: Time)
    requires ConnsOk(s, now) && AttachedOk(s) && AllLive(s.leases, now, id)
    ensures !RecoversBusy(s, id, now)
  {
    if id in s.proxies {
      assert ConnOk(s.leases, s.via, now, id, s.proxies[id]) && Attached(s.leases, s.via, id, s.proxies[id]);
      assert forall k :: k in On(s.via, id) && LeasedTo(s.leases, id, k.0) ==> HasLive(s.leases, now, id);
    }
  }

  lemma OrderedIsCareful(s: State, step: Step, now: Time)
    requires ConnsOk(s, now) && AttachedOk(s) && Ordered(s, step, now)
    ensures Careful(s, step, now)
  {
    hide ConnsOk, AttachedOk, RecoversBusy, AllLive;
    if step.Verdict? && step.passed {
      ReleasedBeforeRecovery(s, step.id, now);
    }
  }

  lemma ApplyKeepsAttached(s: State, step: Step, now: Time)
    requires ConnsOk(s, now) && AttachedOk(s) && Ordered(s, step, now)
    ensures AttachedOk(Apply(s, step, now))
  {
    hide ConnsOk, Dispensable, AllLive, Reserve, ReleaseLease, Activate, ActivateDynamic, UnregisterConn, AcquireConn, RecordHealth;
    match step
    case Add(_, _, _) => AdministrationKeepsAttached(s, step, now);
    case Update(_, _, _) => AdministrationKeepsAttached(s, step, now);
    case Switch(_, _) => AdministrationKeepsAttached(s, step, now);
    case Delete(_) => AdministrationKeepsAttached(s, step, now);
    case Release(c) => ReleaseKeepsAttached(s, c, now);
    case ReserveFor(c, refresh) => ReserveKeepsAttached(s, c, refresh, now);
    case RestoreOne(id, c) => SettlingKeepsAttached(s, id, c);
    case BlameOne(id, c) => SettlingKeepsAttached(s, id, c);
    case Grant(id, c, refresh, expires) => ActivateKeepsAttached(s, id, c, refresh, expires, now);
    case GrantDynamic(c, id, address, expires) => DynamicKeepsAttached(s, c, id, address, expires, now);
    case Connect(c, k) => AcquireKeepsAttached(s, c, k, now);
    case Disconnect(c, id, k) => UnregisterKeepsAttached(s, c, id, k, now);
    case Verdict(id, passed, ft, st) => HealthKeepsAttached(s, id, passed, ft, st, now);
    case _ =>
  }

  /** An ordered run keeps isolation as well as the lease behind every connection. */
  lemma {:induction false} OrderedRunKeepsAll(s: State, events: seq<Event>, from: Time)
    requires LeasesOk(s, from) && ConnsOk(s, from) && AttachedOk(s) && Possible(s, events, from) && AllOrdered(s, events)
    ensures ConnsOk(Run(s, events), EndOf(events, from)) && AttachedOk(Run(s, events))
    decreases |events|
  {
    hide LeasesOk, ConnsOk, AttachedOk, Apply, Ordered, Careful, FreshName;
    if events != [] {
      var (step, now) := (events[0].step, events[0].now);
      TimePasses(s, from, now);
      OrderedIsCareful(s, step, now);
      ApplyKeepsLeases(s, step, now);
      ApplyKeepsConns(s, step, now);
      ApplyKeepsAttached(s, step, now);
      OrderedRunKeepsAll(Apply(s, step, now), events[1..], now);
      EndOfTail(events, from);
    }
  }

  /**
   From the empty pool, when activations for one client do not overlap and lapsed leases are released
   before recovery: counts are exact, each proxy serves one client's connections, a free one none, and
   every connection through a proxy in service is backed by its owner's lease.
   */
  lemma OrderedRunsAreIsolated(events: seq<Event>, from: Time, id: ProxyId)
    requires Possible(EMPTY, events, from) && AllOrdered(EMPTY, events)
    ensures var s := Run(EMPTY, events);
            id in s.proxies ==>
              && s.proxies[id].activeConns == |On(s.via, id)|
              && (forall k, j :: k in On(s.via, id) && j in On(s.via, id) ==> k.0 == j.0)
              && (s.proxies[id].status in {ProxyIdle, ProxyChecking, ProxyDisabled} ==> On(s.via, id) == {})
              && (InService(s.proxies[id]) ==> forall k :: k in On(s.via, id) ==> LeasedTo(s.leases, id, k.0))
  {
    OrderedRunKeepsAll(EMPTY, events, from);
    hide Possible, AllOrdered, Run, OwnerOk;
    var s, now := Run(EMPTY, events), EndOf(events, from);
    if id in s.proxies {
      assert ConnOk(s.leases, s.via, now, id, s.proxies[id]);
      assert Attached(s.leases, s.via, id, s.proxies[id]);
      if s.proxies[id].status in {ProxyIdle, ProxyChecking, ProxyDisabled} {
        QuietStatus(s.leases, s.via, now, id, s.proxies[id]);
      }
    }
  }

  // ---- Activations that do not overlap ----

  predicate GrantsTo(step: Step, c: Client) {
    (step.Grant? || step.GrantDynamic?) && step.c == c
  }

  lemma OnlyGrantsAddLeases(s: State, step: Step, now: Time, c: Client)
    requires !GrantsTo(step, c) && c !in s.leases
    ensures c !in Apply(s, step, now).leases
  {
    hide Apply;
    StepLease(s, Event(step, now), c);
  }

  lemma {:induction false} AbsentLeaseStaysAbsent(s: State, events: seq<Event>, c: Client)
    requires c !in s.leases && forall e :: e in events ==> !GrantsTo(e.step, c)
    ensures c !in Run(s, events).leases
    decreases |events|
  {
    if events != [] {
      OnlyGrantsAddLeases(s, events[0].step, events[0].now, c);
      AbsentLeaseStaysAbsent(Apply(s, events[0].step, events[0].now), events[1..], c);
    }
  }

  /** If no other activation for the client runs between reservation and activation, nothing is overwritten. */
  lemma SerialActivationsAreOrdered(s: State, c: Client, now: Time, between: seq<Event>, id: ProxyId, expires: Time, later: Time)
    requires Reserve(s, c, false, now).1.Reserved?
    requires forall e :: e in between ==> !GrantsTo(e.step, c)
    ensures Ordered(Run(Reserve(s, c, false, now).0, between), Grant(id, c, false, expires), later)
  {
    AbsentLeaseStaysAbsent(Reserve(s, c, false, now).0, between, c);
  }
}
