/** The manager object: its maps and queues, changed in place under one lock. */
module Manager {
  import opened Common
  import opened Addresses
  import opened Pool
  import opened PoolSafety
  import opened PoolShape
  import opened Front
  import opened FrontPath
  import opened Evidence
  import opened LeaseCall
  import opened CallSafety
  import opened CallProgress
  import opened CallReserved
  import opened PoolTaking
  import PoolRuns
  import opened PoolSweep
  import FrontLedger
  import Connector
  import Probing

  // ---- Filtering the order one name at a time ----

  lemma {:induction false} KeepLess(order: seq<ProxyId>, ids: set<ProxyId>, x: ProxyId)
    ensures Keep(order, ids - {x}) == Without(Keep(order, ids), x)
  {
    if order != [] {
      var front, last := order[..|order| - 1], order[|order| - 1];
      KeepLess(front, ids, x);
      WithoutAppend(Keep(front, ids), last, x);
    }
  }

  lemma {:induction false} KeepAll(order: seq<ProxyId>, ids: set<ProxyId>)
    requires forall id :: id in order ==> id in ids
    ensures Keep(order, ids) == order
  {
    if order != [] {
      KeepAll(order[..|order| - 1], ids);
      assert order[|order| - 1] in order;
      assert order == order[..|order| - 1] + [order[|order| - 1]];
    }
  }

  lemma EraseMore(d: Disk, some: set<ProxyId>, more: set<ProxyId>)
    ensures EraseProxy(EraseProxy(d, some), more) == EraseProxy(d, some + more)
    ensures EraseProxy(d, {}) == d
  {
    assert d.proxies - some - more == d.proxies - (some + more);
    assert d.dynamics - some - more == d.dynamics - (some + more);
  }

  class Manager {
    var proxies: map<ProxyId, Proxy>
    var order: seq<ProxyId>
    var leases: Leases
    var pendingNew: seq<Client>
    var pendingRefs: seq<Client>
    var conns: Registry
    var db: Disk
    // Every reservation ever made for a lease call, in order; never read.
    ghost var reservations: seq<ProxyId>
    // Every probe result ever judged by a lease call, in order; never read.
    ghost var judged: seq<Result>
    // Every queued client ever served, with the answer, in order; never read.
    ghost var answered: seq<(Client, bool, Assignment)>

    ghost function View(): State
      reads this
    {
      State(proxies, order, leases, pendingNew, pendingRefs, conns, db)
    }

    ghost predicate Valid()
      reads this
    {
      OrderOk(View())
    }

    constructor (s: State)
      requires OrderOk(s)
      ensures Valid() && View() == s
    {
      proxies, order, leases, pendingNew, pendingRefs, conns, db :=
        s.proxies, s.order, s.leases, s.pendingNew, s.pendingRefs, s.via, s.disk;
      reservations, judged, answered := [], [], [];
    }

    // ---- Looking ----

    method ProxyHasActiveLease(id: ProxyId, now: Time) returns (active: bool)
      ensures active == HasLive(leases, now, id)
    {
      var rest := leases.Keys;
      while rest != {}
        invariant rest <= leases.Keys
        invariant forall c :: c in leases && c !in rest ==> !LiveOn(leases, now, c, id)
        decreases rest
      {
        SomeMember(rest);
        var c :| c in rest;
        if leases[c].proxyId == id && now < leases[c].expiresAt {
          return true;
        }
        rest := rest - {c};
      }
      return false;
    }

    method TakeIdleProxy(now: Time) returns (taken: Option<ProxyId>)
      ensures taken == FirstEligible(View(), now, order)
    {
      var i := 0;
      while i < |order|
        invariant 0 <= i <= |order|
        invariant FirstEligible(View(), now, order) == FirstEligible(View(), now, order[i..])
      {
        var id := order[i];
        assert order[i..][0] == id && order[i..][1..] == order[i + 1..];
        if id in proxies && proxies[id].source != ApiSource && proxies[id].status == ProxyIdle && !proxies[id].disabled {
          var active := ProxyHasActiveLease(id, now);
          if !active {
            return Some(id);
          }
        }
        i := i + 1;
      }
      return None;
    }

    // ---- Queues ----

    method EnqueueNew(c: Client)
      modifies this`pendingNew
      ensures pendingNew == Enqueue(old(pendingNew), c)
    {
      for i := 0 to |pendingNew|
        invariant pendingNew == old(pendingNew) && c !in pendingNew[..i]
      {
        if pendingNew[i] == c {
          return;
        }
      }
      assert pendingNew[..|pendingNew|] == pendingNew;
      pendingNew := pendingNew + [c];
    }

    method EnqueueRefresh(c: Client)
      modifies this`pendingRefs
      ensures pendingRefs == Enqueue(old(pendingRefs), c)
    {
      for i := 0 to |pendingRefs|
        invariant pendingRefs == old(pendingRefs) && c !in pendingRefs[..i]
      {
        if pendingRefs[i] == c {
          return;
        }
      }
      assert pendingRefs[..|pendingRefs|] == pendingRefs;
      pendingRefs := pendingRefs + [c];
    }

    method EnqueuePendingLease(c: Client, refresh: bool) returns (a: Assignment)
      modifies this`pendingNew, this`pendingRefs
      ensures View() == EnqueuePending(old(View()), c, refresh)
      ensures a == PendingAssignment(old(View()), c, refresh)
    {
      if refresh {
        EnqueueRefresh(c);
        if c in leases {
          return Assignment(LeasePending, Some(leases[c]));
        }
      } else {
        EnqueueNew(c);
      }
      return PENDING;
    }

    method RemoveQueuedClient(c: Client)
      modifies this`pendingNew, this`pendingRefs
      ensures View() == RemoveQueued(old(View()), c)
    {
      pendingNew := Without(pendingNew, c);
      pendingRefs := Without(pendingRefs, c);
    }

    method NextQueuedClient(now: Time) returns (next: Option<(Client, bool)>)
      modifies this`pendingNew, this`pendingRefs
      ensures (View(), next) == NextQueued(old(View()), now)
    {
      var idle := TakeIdleProxy(now);
      if idle.None? {
        return None;
      }
      if |pendingNew| > 0 {
        next := Some((pendingNew[0], false));
        pendingNew := pendingNew[1..];
        return;
      }
      if |pendingRefs| > 0 {
        next := Some((pendingRefs[0], true));
        pendingRefs := pendingRefs[1..];
        return;
      }
      return None;
    }

    // ---- Releasing ----

    /** Lets go of every proxy that drains for `c`. */
    method ReleaseDraining(c: Client)
      requires Valid()
      modifies this`proxies
      ensures Valid() && proxies == map id | id in old(proxies) :: LetGo(old(proxies)[id], c)
    {
      hide ReleaseBinding, LetSome;
      ghost var was := proxies;
      LetNone(was, c);
      var i := 0;
      while i < |order|
        invariant 0 <= i <= |order| && proxies == LetSome(was, order[..i], c)
      {
        var id := order[i];
        assert id in order && id !in order[..i];
        assert order[..i + 1] == order[..i] + [id];
        LetOneMore(was, order[..i], id, c);
        if id in proxies && proxies[id].drainingFor == Some(c) {
          proxies := proxies[id := ReleaseBinding(proxies[id], c)];
        }
        i := i + 1;
      }
      assert order[..i] == order;
      LetAll(was, order, c);
    }

    /** Drops the dynamic proxies that nothing uses any more, in memory and on disk. */
    method PurgeUnused(now: Time)
      requires Valid()
      modifies this`proxies, this`order, this`db
      ensures Valid()
      ensures var purged := set id | id in old(proxies) && Purgeable(leases, now, id, old(proxies)[id]);
              && proxies == old(proxies) - purged && db == EraseProxy(old(db), purged)
              && order == Keep(old(order), (old(proxies) - purged).Keys)
    {
      hide HasLive, NoDuplicates, Keep, Without, EraseProxy;
      var listed := order;
      ghost var was, purged := proxies, {};
      ghost var doomed := set id | id in was && Purgeable(leases, now, id, was[id]);
      KeepAll(order, was.Keys);
      EraseMore(db, {}, {});
      var i := 0;
      while i < |listed|
        invariant 0 <= i <= |listed|
        invariant purged == set id | id in listed[..i] && id in doomed
        invariant proxies == was - purged && db == EraseProxy(old(db), purged)
        invariant order == Keep(listed, was.Keys - purged)
        invariant NoDuplicates(order)
      {
        var id := listed[i];
        assert listed[..i + 1] == listed[..i] + [id];
        i := i + 1;
        if id !in proxies || proxies[id].source != ApiSource || proxies[id].activeConns > 0 {
          assert id !in doomed || id in purged;
          continue;
        }
        var active := ProxyHasActiveLease(id, now);
        if active {
          continue;
        }
        KeepLess(listed, was.Keys - purged, id);
        WithoutKeepsDistinct(order, id);
        EraseMore(old(db), purged, {id});
        assert was - purged - {id} == was - (purged + {id});
        proxies := proxies - {id};
        order := Without(order, id);
        db := EraseProxy(db, {id});
        purged := purged + {id};
        assert was.Keys - purged == was.Keys - (purged - {id}) - {id};
      }
      assert listed[..i] == listed;
      assert purged == doomed;
      assert (was - purged).Keys == was.Keys - purged;
    }

    /** Lets go of the leased proxy, unless somebody else has it by now, and of the draining ones. */
    method ReleaseBindings(c: Client, leased: ProxyId, now: Time)
      requires Valid()
      modifies this`proxies
      ensures Valid()
      ensures proxies == map id | id in old(proxies) :: Unbound(old(proxies)[id], id, leased, c, HasLive(leases, now, leased))
    {
      hide HasLive, NoDuplicates;
      var still := ProxyHasActiveLease(leased, now);
      if leased in proxies && !still {
        proxies := proxies[leased := ReleaseBinding(proxies[leased], c)];
      }
      ReleaseDraining(c);
    }

    method ReleaseLocked(c: Client, now: Time)
      requires Valid()
      modifies this`proxies, this`order, this`leases, this`pendingNew, this`pendingRefs, this`db
      ensures Valid() && View() == ReleaseLease(old(View()), c, now)
    {
      hide HasLive, NoDuplicates, Keep, Without, Unbound, Purgeable;
      if c !in leases {
        RemoveQueuedClient(c);
        return;
      }
      var leased := leases[c].proxyId;
      leases := leases - {c};
      RemoveQueuedClient(c);
      ReleaseBindings(c, leased, now);
      db := db.(leases := db.leases - {c});
      PurgeUnused(now);
    }

    // ---- Expiring ----

    /** Any step of the pool, made by the method for it; a passed health verdict needs exclusive leases. */
    method Perform(step: PoolRuns.Step, now: Time)
      requires Valid() && !(step.Verdict? && step.passed)
      modifies this
      ensures Valid() && View() == PoolRuns.Apply(old(View()), step, now)
    {
      hide NoDuplicates, Reserve, ReleaseLease, Activate, ActivateDynamic, UnregisterConn, AcquireConn,
           Restore, Blame, NextQueued, EnqueuePending, Unqueued, AddProxy, UpdateProxy, SetProxyDisabled, DeleteProxy, RecordHealth;
      match step {
        case Release(c) => ReleaseLocked(c, now);
        case ReserveFor(c, refresh) => var r := ReserveProxyForLease(c, refresh, now);
        case RestoreOne(id, c) => SettleOne(id, c, false);
        case BlameOne(id, c) => SettleOne(id, c, true);
        case Grant(id, c, refresh, expires) => Give(id, c, refresh, expires);
        case GrantDynamic(c, id, address, expires) => GiveDynamic(c, id, address, expires);
        case Queue(c, refresh) => var a := EnqueuePendingLease(c, refresh);
        case Unqueue(c, stayNew, stayRefs) => RestorePendingSnapshot(c, Snapshot(stayNew, stayRefs));
        case Pop => var next := NextQueuedClient(now);
        case Connect(c, k) => var through := AcquireProxyConn(c, k, now);
        case Disconnect(c, id, k) => var erase := UnregisterProxyConn(c, id, k, now);
        case _ => Administer(step, now);
      }
    }

    /** The steps that are about one proxy and no client. */
    method Administer(step: PoolRuns.Step, now: Time)
      requires Valid()
      requires step.Add? || step.Update? || step.Switch? || step.Delete? || step.FlushDelete? || (step.Verdict? && !step.passed)
      modifies this`proxies, this`order, this`db
      ensures Valid() && View() == PoolRuns.Apply(old(View()), step, now)
    {
      hide NoDuplicates, AddProxy, UpdateProxy, RecordHealth, DeleteProxy, SetProxyDisabled;
      match step {
        case Add(id, address, disabled) => var added := InsertProxy(id, address, disabled);
        case Update(id, address, disabled) => var found := ChangeProxy(id, address, disabled);
        case Switch(id, disabled) => var found := SwitchProxy(id, disabled);
        case Delete(id) => var removed := RemoveProxy(id);
        case Verdict(id, _, failureThreshold, successThreshold) => FailHealth(id, failureThreshold, successThreshold, now);
        case FlushDelete(id) => db := EraseProxy(db, {id});
      }
    }

    /** Gives back, or blames, one proxy. */
    method SettleOne(id: ProxyId, c: Client, blame: bool)
      requires Valid()
      modifies this`proxies
      ensures Valid() && View() == if blame then Blame(old(View()), id, c) else Restore(old(View()), id, c)
    {
      hide NoDuplicates, RestoreAll, BlameAll;
      var probes := [AnyProbe(id)];
      OneSettled(View(), probes, c);
      if blame {
        MarkAmbiguousProbesFailed(probes, c);
      } else {
        RestoreAmbiguousProbes(probes, c);
      }
    }

    /** An activation, if the proxy is still being checked for the client. */
    method Give(id: ProxyId, c: Client, refresh: bool, expires: Time)
      requires Valid()
      modifies this`proxies, this`order, this`leases, this`pendingNew, this`pendingRefs, this`db
      ensures Valid() && View() == Activate(old(View()), id, c, refresh, expires)
    {
      hide NoDuplicates, Without;
      if id in proxies && proxies[id].status == ProxyChecking && proxies[id].client == Some(c) && !proxies[id].disabled {
        RecheckSame(View(), id, c);
        var a := ActivateCheckedProxy(id, c, refresh, expires);
      }
    }

    method GiveDynamic(c: Client, id: ProxyId, address: Address, expires: Time)
      requires Valid()
      modifies this`proxies, this`order, this`leases, this`pendingNew, this`pendingRefs, this`db
      ensures Valid() && View() == ActivateDynamic(old(View()), c, id, address, expires)
    {
      hide NoDuplicates, Without, Sorted, AddressTaken, WithSuperseded;
      if id !in proxies {
        var activated := ActivateDynamicProxy(c, id, address, expires);
      }
    }

    /** While the lock is free anything may happen; `events` says what did. */
    method Meanwhile(quiet: bool) returns (ghost events: seq<PoolRuns.Event>)
      requires Valid()
      modifies this
      ensures Valid() && View() == PoolRuns.Run(old(View()), events) && (quiet ==> events == [])
    {
      hide NoDuplicates, PoolRuns.Apply;
      events := [];
      var steps: nat := *;
      var i := 0;
      while !quiet && i < steps
        invariant Valid() && View() == PoolRuns.Run(old(View()), events) && (quiet ==> events == [])
      {
        i := i + 1;
        var step: PoolRuns.Step, now: Time := *, *;
        if !step.Verdict? || !step.passed {
          RunLast(old(View()), events + [PoolRuns.Event(step, now)]);
          Perform(step, now);
          events := events + [PoolRuns.Event(step, now)];
        }
      }
    }

    /**
     Collects the clients whose leases have lapsed and then releases them one by one. In between the lock
     is free, and unless the surroundings are `quiet`, anything happens: the sweep is the run of `turns`.
     */
    method ExpireLeases(now: Time, quiet: bool) returns (ghost turns: seq<Turn>)
      requires Valid()
      modifies this
      ensures Valid() && View() == PoolRuns.Run(old(View()), Sweep(turns))
      ensures forall c :: Expired(old(leases), now, c) <==> exists i :: 0 <= i < |turns| && turns[i].client == c
      ensures forall i, j :: 0 <= i < j < |turns| ==> turns[i].client != turns[j].client
      ensures forall i :: 0 <= i < |turns| ==> now <= turns[i].at && (quiet ==> turns[i].others == [])
      ensures quiet ==> leases == map c | c in old(leases) && now <= old(leases)[c].expiresAt :: old(leases)[c]
    {
      hide NoDuplicates, Others, PoolRuns.Run, Sweep;
      ghost var was, s0 := leases, View();
      var expired := LapsedClients(now);
      turns := [];
      NoneYet(was);
      SweepStarts(s0);
      for i := 0 to |expired|
        invariant Valid() && View() == PoolRuns.Run(s0, Sweep(turns))
        invariant |turns| == i && forall k :: 0 <= k < i ==> turns[k].client == expired[k]
        invariant forall k :: 0 <= k < i ==> now <= turns[k].at && (quiet ==> turns[k].others == [])
        invariant quiet ==> leases == Others(was, expired[..i])
      {
        OneMore(was, expired[..i], expired[i]);
        assert expired[..i + 1] == expired[..i] + [expired[i]];
        var turn := SweepOne(expired[i], now, quiet);
        SweepGrows(s0, turns, turn);
        turns := turns + [turn];
      }
      assert expired[..|expired|] == expired;
      ExactlyLapsed(was, expired, now);
      assert forall i :: 0 <= i < |expired| ==> turns[i].client == expired[i];
    }

    /** Releases one client, after other things happened. */
    method SweepOne(c: Client, now: Time, quiet: bool) returns (ghost turn: Turn)
      requires Valid()
      modifies this
      ensures Valid() && turn.client == c && now <= turn.at && (quiet ==> turn.others == [] && leases == old(leases) - {c})
      ensures View() == ReleaseLease(PoolRuns.Run(old(View()), turn.others), c, turn.at)
    {
      hide NoDuplicates, ReleaseLease, PoolRuns.Apply;
      ghost var events := Meanwhile(quiet);
      var at: Time := *;
      at := if at < now then now else at;
      turn := Turn(events, c, at);
      ReleaseRemoves(View(), c, at);
      ReleaseLocked(c, at);
    }

    method LapsedClients(now: Time) returns (expired: seq<Client>)
      ensures forall c :: c in expired <==> Expired(leases, now, c)
      ensures forall i, j :: 0 <= i < j < |expired| ==> expired[i] != expired[j]
    {
      expired := [];
      var rest := leases.Keys;
      while rest != {}
        invariant rest <= leases.Keys
        invariant forall c :: c in expired <==> c !in rest && Expired(leases, now, c)
        invariant forall i, j :: 0 <= i < j < |expired| ==> expired[i] != expired[j]
        decreases rest
      {
        SomeMember(rest);
        var c :| c in rest;
        if now > leases[c].expiresAt {
          expired := expired + [c];
        }
        rest := rest - {c};
      }
    }

    // ---- Lease calls ----

    method ReserveProxyForLease(c: Client, refresh: bool, now: Time) returns (r: Reservation)
      requires Valid()
      modifies this`proxies, this`order, this`leases, this`pendingNew, this`pendingRefs, this`db, this`reservations
      ensures Valid() && (View(), r) == Reserve(old(View()), c, refresh, now)
      ensures reservations == old(reservations) + if r.Reserved? then [r.id] else []
    {
      hide HasLive, NoDuplicates, ReleaseLease, FirstEligible;
      if c in leases && now > leases[c].expiresAt {
        ReleaseLocked(c, now);
      }
      if !refresh && c in leases {
        return Answered(Assignment(LeaseActive, Some(leases[c])));
      }
      var idle := TakeIdleProxy(now);
      if idle.None? {
        var a := EnqueuePendingLease(c, refresh);
        return Answered(a);
      }
      var id := idle.value;
      proxies := proxies[id := proxies[id].(status := ProxyChecking, client := Some(c), drainingFor := None)];
      reservations := reservations + [id];
      return Reserved(id);
    }

    method RestoreAmbiguousProbes(probes: seq<Probe>, c: Client)
      requires Valid()
      modifies this`proxies
      ensures Valid() && View() == RestoreAll(old(View()), probes, c)
    {
      hide NoDuplicates;
      var i := 0;
      while i < |probes|
        invariant 0 <= i <= |probes| && Valid()
        invariant RestoreAll(View(), probes[i..], c) == RestoreAll(old(View()), probes, c)
      {
        var id := probes[i].proxyId;
        assert probes[i..][0] == probes[i] && probes[i..][1..] == probes[i + 1..];
        ghost var before := View();
        i := i + 1;
        if id !in proxies || proxies[id].status != ProxyChecking || proxies[id].client != Some(c) {
          continue;
        }
        if proxies[id].disabled {
          proxies := proxies[id := Park(proxies[id])];
          assert View() == Restore(before, id, c);
          continue;
        }
        proxies := proxies[id := MarkIdle(proxies[id])];
        assert View() == Restore(before, id, c);
      }
    }

    method MarkAmbiguousProbesFailed(probes: seq<Probe>, c: Client)
      requires Valid()
      modifies this`proxies
      ensures Valid() && View() == BlameAll(old(View()), probes, c)
    {
      hide NoDuplicates;
      var i := 0;
      while i < |probes|
        invariant 0 <= i <= |probes| && Valid()
        invariant BlameAll(View(), probes[i..], c) == BlameAll(old(View()), probes, c)
      {
        var id := probes[i].proxyId;
        assert probes[i..][0] == probes[i] && probes[i..][1..] == probes[i + 1..];
        ghost var before := View();
        i := i + 1;
        if id !in proxies || proxies[id].status != ProxyChecking || proxies[id].client != Some(c) {
          continue;
        }
        if proxies[id].disabled {
          proxies := proxies[id := Park(proxies[id])];
          assert View() == Blame(before, id, c);
          continue;
        }
        proxies := proxies[id := ProbeFailed(proxies[id])];
        assert View() == Blame(before, id, c);
      }
    }

    /** Gives the checked proxy to the client; the old one drains or becomes idle. */
    method ActivateCheckedProxy(id: ProxyId, c: Client, refresh: bool, expires: Time) returns (a: Assignment)
      requires Valid() && id in proxies && !proxies[id].disabled
      modifies this`proxies, this`order, this`leases, this`pendingNew, this`pendingRefs, this`db
      ensures Valid() && View() == Activate(Recheck(old(View()), id, c), id, c, refresh, expires)
      ensures a == Assignment(LeaseActive, Some(Lease(id, expires)))
    {
      hide NoDuplicates, Without, Activate, Recheck;
      ActivateForgets(View(), id, c, refresh, expires);
      if refresh && c in leases && leases[c].proxyId in proxies {
        var left := leases[c].proxyId;
        if proxies[left].activeConns > 0 {
          proxies := proxies[left := proxies[left].(status := ProxyDraining, client := None, drainingFor := Some(c))];
        } else {
          proxies := proxies[left := MarkIdle(proxies[left])];
        }
      }
      assert View() == if refresh then WithReplaced(old(View()), c) else old(View());
      proxies := proxies[id := proxies[id].(status := ProxyActive, client := Some(c), drainingFor := None,
                                            failureCount := 0, successCount := proxies[id].successCount + 1)];
      RemoveQueuedClient(c);
      leases := leases[c := Lease(id, expires)];
      db := db.(leases := db.leases[c := Stored(Lease(id, expires))]);
      return Assignment(LeaseActive, Some(Lease(id, expires)));
    }

    /** The part of a lease call's loop that runs under the lock, once a probe's result is in. */
    method CommitProbe(call: Call, cancelled: bool, expires: Time) returns (next: Call)
      requires Valid() && call.phase.Judging?
      modifies this`proxies, this`order, this`leases, this`pendingNew, this`pendingRefs, this`db, this`judged
      ensures Valid() && (View(), next) == Commit(old(View()), call, cancelled, expires)
      ensures judged == old(judged) + [call.phase.result]
    {
      hide NoDuplicates, RestoreAll, BlameAll, Endpoints, CommitVerdict, Without;
      var id, c, result := call.phase.id, call.client, call.phase.result;
      judged := judged + [result];
      if id !in proxies || proxies[id].status != ProxyChecking || proxies[id].client != Some(c) {
        return Retry(call, call.probes);
      }
      if proxies[id].disabled {
        proxies := proxies[id := Park(proxies[id])];
        return Retry(call, call.probes);
      }
      if cancelled {
        proxies := proxies[id := MarkIdle(proxies[id])];
        var a := if call.refresh && c in leases then Assignment(LeasePending, Some(leases[c])) else PENDING;
        RestoreAmbiguousProbes(call.probes, c);
        return Finish(call, a);
      }
      if FailureScopeOf(result) == SharedScope {
        proxies := proxies[id := MarkIdle(proxies[id])];
        var a := EnqueuePendingLease(c, call.refresh);
        RestoreAmbiguousProbes(call.probes, c);
        return Finish(call, a);
      }
      if FailureScopeOf(result) == AmbiguousScope {
        var probes := call.probes + [Probe(id, proxies[id].address, call.phase.address, TokenOr(AmbiguousFailureToken(result)))];
        var distinct := DistinctEndpoints(probes);
        if distinct >= 2 {
          var a := EnqueuePendingLease(c, call.refresh);
          return call.(phase := Weighing(false), probes := probes, answer := a);
        }
        return Retry(call, probes);
      }
      next := CommitConclusive(call, expires);
    }

    /** A probe that says something about the proxy: the held ones are settled by it, and it is blamed or given. */
    method CommitConclusive(call: Call, expires: Time) returns (next: Call)
      requires Valid() && call.phase.Judging?
      requires CheckedFor(View(), call.phase.id, call.client) && !proxies[call.phase.id].disabled
      modifies this`proxies, this`order, this`leases, this`pendingNew, this`pendingRefs, this`db
      ensures Valid() && (View(), next) == CommitVerdict(old(View()), call, expires)
    {
      hide NoDuplicates, RestoreAll, BlameAll, Activate, Without, Unresolved, Validated;
      var id, c := call.phase.id, call.client;
      var rest := call.probes;
      ghost var validated: seq<Probe> := [];
      if |call.probes| > 0 && call.phase.evidence.Some? {
        var unresolved, settled := PartitionByEvidence(call.probes, call.phase.evidence.value);
        rest, validated := unresolved, settled;
        MarkAmbiguousProbesFailed(settled, c);
      }
      PartedEmpty(call.phase.evidence);
      assert (rest, validated) == Parted(call.probes, call.phase.evidence);
      assert View() == BlameAll(old(View()), validated, c) by { NothingBlamed(old(View()), c); }
      BlameAllAt(old(View()), validated, c, id);
      ghost var blamed := View();
      if call.phase.result.Failed? {
        proxies := proxies[id := ProbeFailed(proxies[id])];
        assert View() == Blame(Recheck(blamed, id, c), id, c);
        return Retry(call, rest);
      }
      RestoreAmbiguousProbes(rest, c);
      RestoreAllAt(blamed, rest, c, id);
      var a := ActivateCheckedProxy(id, c, call.refresh, expires);
      return Finish(call, a);
    }

    /** The first proxy in use through another endpoint than every held probe's. */
    method ActiveCrossValidationProxy(probes: seq<Probe>) returns (candidate: Option<ProxyId>)
      ensures candidate == FirstCandidate(View(), probes, order)
    {
      var i := 0;
      while i < |order|
        invariant 0 <= i <= |order|
        invariant FirstCandidate(View(), probes, order) == FirstCandidate(View(), probes, order[i..])
      {
        var id := order[i];
        assert order[i..][0] == id && order[i..][1..] == order[i + 1..];
        i := i + 1;
        if id !in proxies || proxies[id].disabled {
          continue;
        }
        var held := HeldOrSame(probes, id, proxies[id].address);
        if held || (proxies[id].status != ProxyActive && proxies[id].status != ProxyDraining) {
          continue;
        }
        return Some(id);
      }
      return None;
    }

    method ConvictAndSettle(call: Call) returns (next: Call)
      requires Valid() && call.phase.Convicting?
      modifies this`proxies
      ensures Valid() && (View(), next) == Conclude(old(View()), call)
    {
      hide NoDuplicates, RestoreAll, BlameAll;
      MarkAmbiguousProbesFailed(call.phase.validated, call.client);
      if |call.probes| == 0 {
        return call.(phase := LeaseCall.Phase.Finished);
      }
      RestoreAmbiguousProbes(call.probes, call.client);
      return Finish(call, call.answer);
    }

    /** The second look at the newest evidence, and the batch. */
    method FinishBatch(call: Call, connector: Connector.Connector, now: Time) returns (next: Call, later: Option<Front.Evidence>)
      requires Valid() && connector.Valid() && call.phase == Weighing(true)
      modifies this`proxies, connector
      ensures Valid() && connector.Valid() && (View(), next) == LookAgain(old(View()), call, later)
      ensures later == RecentEvidence(old(connector.View()))
      ensures connector.ledger == old(connector.ledger)
              || (TwoWitnesses(call.probes) && connector.ledger == FrontLedger.Apply(old(connector.ledger), BatchOp(call, now)))
    {
      hide NoDuplicates, RestoreAll, BlameAll, Endpoints, TwoWitnesses, Unresolved, Validated, FrontLedger.Exact, RecentEvidence;
      later := connector.RecentFrontEvidence();
      if later.Some? {
        var unresolved, validated := PartitionByEvidence(call.probes, later.value);
        if |validated| > 0 {
          next := ConvictAndSettle(call.(phase := Convicting(validated), probes := unresolved));
          return;
        }
      }
      var distinct := DistinctEndpoints(call.probes);
      if distinct >= 2 {
        var first, last, ok := TokenRange(call.probes);
        if ok {
          var tripped := connector.RecordAmbiguousBatchFailure(first, last, now);
        }
      }
      RestoreAmbiguousProbes(call.probes, call.client);
      next := Finish(call, call.answer);
    }

    method FrontEvidenceForProbeResult(connector: Connector.Connector, exit: Address, r: Result) returns (e: Option<Front.Evidence>)
      requires connector.Valid()
      ensures e == EvidenceFor(connector.View(), exit, r)
    {
      if FrontEstablished(r) && r.failure.token.sequence != 0 {
        return Some(Front.Evidence.Evidence(exit, r.failure.token.generation, r.failure.token.sequence, 0));
      }
      if r.Failed? {
        return None;
      }
      e := connector.RecentFrontEvidence();
      if e.None? || !SameEndpoint(e.value.exit, exit) {
        return None;
      }
    }

    method RestorePendingSnapshot(c: Client, before: Snapshot)
      modifies this`pendingNew, this`pendingRefs
      ensures View() == RestoreSnapshot(old(View()), c, before)
    {
      if !before.inNew {
        pendingNew := Without(pendingNew, c);
      }
      if !before.inRefs {
        pendingRefs := Without(pendingRefs, c);
      }
    }

    /** Probes a proxy in use, and goes by what its result says about the front. */
    method CrossValidate(call: Call, id: ProxyId, connector: Connector.Connector, t: Trip, cancelled: bool, now: Time)
      returns (next: Call, result: Result, evidence: Option<Front.Evidence>)
      requires Valid() && connector.Valid() && call.phase == Weighing(false) && PlausibleTrip(t) && id in proxies
      modifies this`proxies, this`pendingNew, this`pendingRefs, connector
      ensures Valid() && connector.Valid()
      ensures var crossing := call.(phase := CrossJudging(id, old(proxies)[id].address, 0, result, evidence));
              (View(), next) == CrossCommit(old(View()), crossing, cancelled)
      ensures next.phase.Finished? || next.phase == Weighing(true)
    {
      hide NoDuplicates, RestoreAll, BlameAll, Unresolved, Validated, FrontLedger.Exact, RecentEvidence, EvidenceFor, Truthful,
           FailureScopeOf, AmbiguousFailureToken;
      var address := proxies[id].address;
      var later: Time := *;
      result := Probing.ProbeExit(connector, address, t, now, later, [], []);
      evidence := FrontEvidenceForProbeResult(connector, address, result);
      var crossed := call.(phase := Weighing(true));
      if cancelled {
        RestoreAmbiguousProbes(call.probes, call.client);
        RestorePendingSnapshot(call.client, call.before);
        next := Finish(call, call.answer);
        return;
      }
      if FailureScopeOf(result) == SharedScope {
        RestoreAmbiguousProbes(call.probes, call.client);
        next := Finish(call, call.answer);
        return;
      }
      if FailureScopeOf(result) == AmbiguousScope {
        var token := AmbiguousFailureToken(result);
        if token.Some? {
          crossed := crossed.(probes := crossed.probes + [Probe(id, address, address, token.value)]);
        }
      } else if evidence.Some? {
        var unresolved, validated := PartitionByEvidence(call.probes, evidence.value);
        if |validated| > 0 {
          MarkAmbiguousProbesFailed(validated, call.client);
          RestoreAmbiguousProbes(unresolved, call.client);
          next := Finish(call, call.answer);
          return;
        }
      }
      next := crossed;
    }

    /** Settles the ambiguous failures of a lease call, perhaps with the help of a proxy in use. */
    method ResolveAmbiguousLeaseBatch(call: Call, connector: Connector.Connector, cancelled: bool, t: Trip, crossCancelled: bool, now: Time)
      returns (next: Call, ghost x: Settlement)
      requires Valid() && connector.Valid() && call.phase == Weighing(false) && PlausibleTrip(t)
      modifies this`proxies, this`pendingNew, this`pendingRefs, connector
      ensures Valid() && connector.Valid() && (View(), next) == Resolve(old(View()), call, x)
      ensures x.cancelled == cancelled && x.crossCancelled == crossCancelled
    {
      hide NoDuplicates, RestoreAll, BlameAll, LookAgain, FirstCandidate, Unresolved, Validated, FrontLedger.Exact, RecentEvidence,
           TwoWitnesses, CrossCommit, Conclude;
      x := Settlement(cancelled, None, Success, None, crossCancelled, None);
      if cancelled {
        RestoreAmbiguousProbes(call.probes, call.client);
        RestorePendingSnapshot(call.client, call.before);
        next := Finish(call, call.answer);
        return;
      }
      var recent := connector.RecentFrontEvidence();
      x := x.(recent := recent);
      if recent.Some? {
        var unresolved, validated := PartitionByEvidence(call.probes, recent.value);
        if |validated| > 0 {
          next := ConvictAndSettle(call.(phase := Convicting(validated), probes := unresolved));
          return;
        }
      }
      PartedNone(call.probes, recent);
      var crossed := call.(phase := Weighing(true));
      var candidate := ActiveCrossValidationProxy(call.probes);
      if candidate.Some? {
        var result, evidence;
        crossed, result, evidence := CrossValidate(call, candidate.value, connector, t, crossCancelled, now);
        x := x.(crossResult := result, crossEvidence := evidence);
        if crossed.phase.Finished? {
          next := crossed;
          return;
        }
      }
      var later;
      next, later := FinishBatch(crossed, connector, now);
      x := x.(later := later);
    }

    // ---- The lease call itself ----

    /** Whatever a network lets happen on one attempt. */
    method AnyTrip() returns (t: Trip)
      ensures PlausibleTrip(t)
    {
      t := *;
      if t.exitHello.failed.None? {
        t := t.(exitHello := t.exitHello.(methodReply := true));
      }
    }

    /** While a probe runs, other proxies and this one may fail or be disabled; nothing is freed. */
    method Elsewhere()
      requires Valid()
      modifies this`proxies, this`db
      ensures Valid() && Quieter(old(View()), View())
    {
      hide NoDuplicates, Quieter, RecordHealth, SetProxyDisabled;
      QuieterSelf(View());
      var steps: nat := *;
      var i := 0;
      while i < steps
        invariant Valid() && Quieter(old(View()), View())
      {
        i := i + 1;
        ghost var before := View();
        var disable: bool, id: ProxyId, threshold: nat := *, *, *;
        QuieterOnce(before, id, threshold, 0, 0);
        if disable {
          var found := SwitchProxy(id, true);
        } else {
          FailHealth(id, threshold, 0, 0);
        }
        QuieterChain(old(View()), before, View());
      }
    }

    /** A failing health verdict. */
    method FailHealth(id: ProxyId, failureThreshold: nat, successThreshold: nat, now: Time)
      requires Valid()
      modifies this`proxies
      ensures Valid() && View() == RecordHealth(old(View()), id, false, failureThreshold, successThreshold, now)
    {
      hide NoDuplicates, HasLive;
      if id !in proxies {
        return;
      }
      var p := proxies[id].(failureCount := proxies[id].failureCount + 1, successCount := 0);
      if p.failureCount >= failureThreshold && p.status != ProxyUnhealthy {
        p := p.(status := ProxyUnhealthy);
      }
      proxies := proxies[id := p];
    }

    method AssignmentCanceled(c: Client, now: Time) returns (a: Assignment)
      ensures a == if c in leases && now < leases[c].expiresAt then Assignment(LeaseActive, Some(leases[c])) else PENDING
    {
      if c in leases && now < leases[c].expiresAt {
        return Assignment(LeaseActive, Some(leases[c]));
      }
      return PENDING;
    }

    /** While the front asks to wait, a lease that still runs is answered and everything else queued. */
    method FrontBackoffAssignment(c: Client, refresh: bool, wait: int, now: Time) returns (a: Option<Assignment>)
      requires Valid()
      modifies this`pendingNew, this`pendingRefs
      ensures Valid() && (a.Some? <==> wait > 0)
      ensures a.None? ==> View() == old(View())
      ensures a.Some? ==> Answers(View(), c, a.value)
      ensures a.Some? ==> Deferred(old(View()), View(), c, refresh, now, a.value)
      ensures a.Some? && a.value.status == LeaseActive ==> View() == old(View()) && !refresh
      ensures View() == old(View()) || View() == EnqueuePending(old(View()), c, refresh && c in leases && now < leases[c].expiresAt)
    {
      hide NoDuplicates;
      if wait <= 0 {
        return None;
      }
      if c in leases && now < leases[c].expiresAt {
        if !refresh {
          return Some(Assignment(LeaseActive, Some(leases[c])));
        }
        EnqueueRefresh(c);
        return Some(Assignment(LeasePending, Some(leases[c])));
      }
      EnqueueNew(c);
      return Some(PENDING);
    }

    /** The retry loop: reserves and probes until a proxy is given, the batch is full, or nothing is left. */
    method TryProxies(start: Call, connector: Connector.Connector, live: bool) returns (call: Call, ghost stopped: bool)
      requires Valid() && connector.Valid() && start == NewCall(View(), start.client, start.refresh)
      modifies this`proxies, this`order, this`leases, this`pendingNew, this`pendingRefs, this`db, this`reservations, this`judged, connector
      ensures Valid() && connector.Valid() && Ended(old(View()), View(), start, call, stopped)
      ensures live ==> !stopped
      ensures call.client == start.client
      ensures old(reservations) <= reservations && LogOk(old(View()), View(), start.client, reservations[|old(reservations)|..])
      ensures old(judged) <= judged && (!stopped ==> Explained(View(), call, judged[|old(judged)|..]))
      ensures Earned(old(View()), start.client, call.answer, reservations[|old(reservations)|..], judged[|old(judged)|..])
    {
      hide NoDuplicates, CheckingFor, QueuesKept, NobodyAdded, Answers, EnqueuePending, Looping, Ended, Commit, Reserve,
           Spare, Quieter, FrontLedger.Exact, Truthful, EvidenceFor, AllStillHeld, LogOk, Trying, Explained, Earned;
      ghost var s0, log, results := View(), [], [];
      var c, refresh := start.client, start.refresh;
      LoopStarts(s0, c, refresh);
      LogStarts(s0, c);
      TryingStarts(s0, start);
      call := start;
      while true
        invariant Valid() && connector.Valid() && Looping(s0, View(), start, call) && SameCall(s0, start, call) && call.phase.Ready?
        invariant reservations == old(reservations) + log && LogOk(s0, View(), c, log)
        invariant judged == old(judged) + results && Trying(s0, View(), call, results)
        decreases if c in leases then 1 else 0, Spare(View())
      {
        ghost var s := View();
        var at: Time := *;
        var r := ReserveProxyForLease(c, refresh, at);
        ReserveLogs(s0, s, c, refresh, at, log);
        if r.Answered? {
          ghost var trying := call;
          call := call.(answer := r.assignment, phase := if |call.probes| == 0 then LeaseCall.Phase.Finished else Weighing(false));
          AnswerEnds(s0, s, start, trying, at, call);
          AnswerExplained(s0, s, trying, at, call, log, results);
          assert log + [] == log && reservations[|old(reservations)|..] == log && judged[|old(judged)|..] == results;
          return call, false;
        }
        log := log + [r.id];
        ReservedTrying(s0, s, call, at, results);
        var result, stop;
        call, result, stop := ProbeReserved(s0, s, start, call, at, r.id, connector, live, log, results);
        results := results + [result];
        assert judged == old(judged) + results;
        if !call.phase.Ready? {
          assert reservations[|old(reservations)|..] == log && judged[|old(judged)|..] == results;
          return call, stop;
        }
      }
    }

    /** Probes the proxy just reserved, and judges the result. */
    method ProbeReserved(ghost s0: State, ghost s: State, ghost start: Call, trying: Call, at: Time, id: ProxyId,
                         connector: Connector.Connector, live: bool, ghost log: seq<ProxyId>, ghost results: seq<Result>)
      returns (next: Call, result: Result, stop: bool)
      requires Valid() && connector.Valid() && Looping(s0, s, start, trying) && SameCall(s0, start, trying)
      requires trying.phase.Ready? && (View(), Reserved(id)) == Reserve(s, trying.client, trying.refresh, at)
      requires LogOk(s0, View(), trying.client, log) && Trying(s0, View(), trying, results) && log != [] && log[|log| - 1] == id
      modifies this`proxies, this`order, this`leases, this`pendingNew, this`pendingRefs, this`db, this`judged, connector
      ensures Valid() && connector.Valid() && (live ==> !stop)
      ensures judged == old(judged) + [result] && SameCall(s0, start, next) && LogOk(s0, View(), trying.client, log)
      ensures next.phase.Ready? ==>
                Looping(s0, View(), start, next) && Closer(s, View(), trying.client) && Trying(s0, View(), next, results + [result])
      ensures !next.phase.Ready? ==> Ended(s0, View(), start, next, stop)
      ensures !next.phase.Ready? && !stop ==> Explained(View(), next, results + [result])
      ensures !next.phase.Ready? ==> Earned(s0, trying.client, next.answer, log, results + [result])
    {
      hide NoDuplicates, CheckingFor, QueuesKept, NobodyAdded, Answers, EnqueuePending, Ended, Commit, Reserve, Truthful, EvidenceFor,
           Spare, AllStillHeld, LogOk, Explained, Earned, Trying, Looping, Closer, FrontLedger.Exact;
      var address := if id in proxies then proxies[id].address else Unsplittable("");
      var t := AnyTrip();
      ghost var reserved := View();
      Elsewhere();
      QuieterLogs(s0, reserved, View(), trying.client, log);
      QuieterTrying(s0, reserved, View(), trying, results);
      var later: Time := *;
      result := Probing.ProbeExit(connector, address, t, at, later, [], []);
      var evidence := FrontEvidenceForProbeResult(connector, address, result);
      var expires: Time := *;
      stop := *;
      stop := stop && !live;
      var judging := trying.(phase := Judging(id, address, 0, result, evidence));
      next := JudgeProbe(s0, s, start, trying, at, judging, stop, expires, log, results);
    }

    /** One judgement of the retry loop, with what it keeps. */
    method JudgeProbe(ghost s0: State, ghost s: State, ghost start: Call, ghost trying: Call, ghost at: Time, judging: Call,
                      stop: bool, expires: Time, ghost log: seq<ProxyId>, ghost results: seq<Result>)
      returns (next: Call)
      requires Valid() && judging.phase.Judging? && judging == trying.(phase := judging.phase)
      requires Looping(s0, s, start, trying) && SameCall(s0, start, trying)
      requires trying.phase.Ready? && Reserve(s, trying.client, trying.refresh, at).1 == Reserved(judging.phase.id)
      requires Quieter(Reserve(s, trying.client, trying.refresh, at).0, View())
      requires LogOk(s0, View(), trying.client, log) && Trying(s0, View(), trying, results)
      requires log != [] && log[|log| - 1] == judging.phase.id
      modifies this`proxies, this`order, this`leases, this`pendingNew, this`pendingRefs, this`db, this`judged
      ensures Valid() && judged == old(judged) + [judging.phase.result] && SameCall(s0, start, next)
      ensures LogOk(s0, View(), trying.client, log)
      ensures next.phase.Ready? ==>
                && Looping(s0, View(), start, next) && Closer(s, View(), trying.client)
                && Trying(s0, View(), next, results + [judging.phase.result])
      ensures !next.phase.Ready? ==> Ended(s0, View(), start, next, stop)
      ensures !next.phase.Ready? && !stop ==> Explained(View(), next, results + [judging.phase.result])
      ensures !next.phase.Ready? ==> Earned(s0, trying.client, next.answer, log, results + [judging.phase.result])
    {
      hide NoDuplicates, CheckingFor, QueuesKept, NobodyAdded, Answers, EnqueuePending, Ended, Commit, Reserve,
           Spare, Quieter, AllStillHeld, LogOk, Explained, Earned, Trying, Looping, Closer;
      ghost var before := View();
      TryingJudges(s0, before, trying, judging, results);
      JudgingHolds(s0, s, start, trying, at, before, judging);
      RoundEnds(s0, before, start, judging, stop, expires);
      CommitSame(before, judging, stop, expires);
      CommitLogs(s0, before, judging, stop, expires, log);
      CommitExplained(s0, before, judging, stop, expires, log, results);
      next := CommitProbe(judging, stop, expires);
      if next.phase.Ready? {
        CloserStays(s, before, View(), trying.client);
      }
    }

    /** Settles the batch that a lease call's loop ended with; the caller may cancel at two moments. */
    method SettleBatch(call: Call, connector: Connector.Connector, now: Time, live: bool,
                       ghost s0: State, ghost start: Call, ghost log: seq<ProxyId>)
      returns (next: Call, ghost stopped: bool)
      requires Valid() && connector.Valid() && call.phase == Weighing(false)
      requires Ended(s0, View(), start, call, false) && LogOk(s0, View(), call.client, log)
      modifies this`proxies, this`pendingNew, this`pendingRefs, connector
      ensures Valid() && connector.Valid() && (live ==> !stopped)
      ensures next.phase.Finished? && Ended(s0, View(), start, next, stopped) && next == call.(phase := next.phase, probes := [])
      ensures LogOk(s0, View(), call.client, log)
    {
      hide NoDuplicates, Ended, LogOk, Resolve, FrontLedger.Exact, Parted, FirstCandidate;
      var first: bool, later: bool := *, *;
      var t := AnyTrip();
      ghost var s, x := View(), Settlement(false, None, Success, None, false, None);
      next, x := ResolveAmbiguousLeaseBatch(call, connector, first && !live, t, later && !live, now);
      stopped := Stopped(s, call, x);
      ResolveEnds(s0, s, start, call, x);
      ResolveSettles(s, call, x);
      ResolveEmpties(s, call, x);
      ResolveLogs(s0, s, call, x, log);
    }

    /**
     Gets `c` a proxy. Clocks and the network are arbitrary, and during each probe other proxies may fail.
     `live` promises that the caller does not cancel; otherwise a
     cancellation may come at any moment, and `stopped` says that one was seen. It terminates: every
     round spends a spare proxy, or sweeps the client's own lapsed lease.
     */
    method EnsureLease(c: Client, refresh: bool, connector: Connector.Connector, wait: int, now: Time, cancelled: bool, live: bool)
      returns (a: Assignment, ghost stopped: bool)
      requires Valid() && connector.Valid() && (live ==> !cancelled)
      modifies this`proxies, this`order, this`leases, this`pendingNew, this`pendingRefs, this`db, this`reservations, this`judged,
               connector
      ensures Valid() && connector.Valid()
      ensures old(reservations) <= reservations && old(judged) <= judged
      // A live call ends with the client's lease, or with the client queued: because the front asks to wait,
      // because a probe had trouble with the front, or because no proxy is free.
      ensures live ==> !stopped
      ensures !stopped ==> Answers(View(), c, a)
      ensures !stopped && a.status == LeasePending && wait <= 0 ==> Troubled(judged[|old(judged)|..]) || NothingFree(View())
      // A call seen as cancelled queues nobody. Cancelled from the start it is told its running lease, and told
      // to wait it is put off; in both cases it tries nothing.
      ensures stopped ==> NobodyAdded(old(View()), View())
      ensures cancelled ==> View() == old(View()) && a == RunningAssignment(old(View()), c, now)
      ensures !cancelled && wait > 0 ==> Deferred(old(View()), View(), c, refresh, now, a)
      ensures cancelled || wait > 0 ==> reservations == old(reservations) && judged == old(judged)
      // A new lease is for the proxy reserved last, whose probe succeeded, and leaves no queue longer.
      ensures Earned(old(View()), c, a, reservations[|old(reservations)|..], judged[|old(judged)|..])
      ensures a.status == LeaseActive ==> QueuesKept(old(View()), View(), c)
      // What is still being checked was before, for the same client; else every reserved proxy is active, idle,
      // unhealthy or disabled.
      ensures forall id :: CheckingFor(View(), id).Some? ==> CheckingFor(View(), id) == CheckingFor(old(View()), id)
      ensures IdleIsQuiet(old(View())) ==>
                forall id :: id in reservations[|old(reservations)|..] ==>
                  id in proxies && (AtRest(proxies[id]) || CheckingFor(old(View()), id) == Some(c))
    {
      hide NoDuplicates, CheckingFor, QueuesKept, NobodyAdded, Answers, EnqueuePending, Looping, Ended, Commit, Reserve, Resolve,
           Spare, Quieter, Stopped, FrontLedger.Exact, Truthful, EvidenceFor, AllStillHeld, LogOk, Troubled, NothingFree, IdleIsQuiet,
           Deferred;
      Unchanged(View(), c);
      if cancelled {
        a := AssignmentCanceled(c, now);
        return a, true;
      }
      var deferred := FrontBackoffAssignment(c, refresh, wait, now);
      QueueingChecksNobody(old(View()), View(), c, refresh && c in leases && now < leases[c].expiresAt);
      if deferred.Some? {
        QueueingKeepsLease(old(View()), View(), c, refresh && c in leases && now < leases[c].expiresAt, deferred.value, [], []);
        return deferred.value, false;
      }
      var call := Call(c, refresh, Snapshot(c in pendingNew, c in pendingRefs), Ready, [], PENDING);
      ghost var s0, start := View(), call;
      call, stopped := TryProxies(call, connector, live);
      ghost var log, results := reservations[|old(reservations)|..], judged[|old(judged)|..];
      if !call.phase.Finished? {
        EndedWeighs(s0, View(), start, call, stopped);
        call, stopped := SettleBatch(call, connector, now, live, s0, start, log);
      }
      forall id ensures CheckingFor(View(), id).Some? ==> CheckingFor(View(), id) == CheckingFor(s0, id) {
        EndedOwesNothing(s0, View(), start, call, stopped, id);
      }
      forall id | IdleIsQuiet(s0) && id in log ensures id in proxies && (AtRest(proxies[id]) || CheckingFor(s0, id) == Some(c)) {
        ReservedAtRest(s0, View(), c, log, id);
      }
      EndedAnswers(s0, View(), start, call, stopped);
      a := call.answer;
    }

    /**
     Serves queued clients until none can be served, or one is not given a lease. Every round that goes on
     shortens the queues. `at` is when nobody could be served any more.
     */
    method ProcessQueues(connector: Connector.Connector) returns (ghost at: Time)
      requires Valid() && connector.Valid()
      modifies this, connector
      ensures Valid() && connector.Valid()
      ensures forall id :: CheckingFor(View(), id).Some? ==> CheckingFor(View(), id) == CheckingFor(old(View()), id)
      ensures old(answered) <= answered
      ensures forall i :: |old(answered)| <= i < |answered| - 1 ==> answered[i].2.status == LeaseActive
      ensures (|old(answered)| < |answered| && answered[|answered| - 1].2.status != LeaseActive)
              || (pendingNew == [] && pendingRefs == []) || NoneUsable(View(), at)
    {
      hide NoDuplicates, CheckingFor, Answers, NobodyAdded, FrontLedger.Exact, FirstEligible, NoneUsable;
      while true
        invariant Valid() && connector.Valid()
        invariant forall id :: CheckingFor(View(), id).Some? ==> CheckingFor(View(), id) == CheckingFor(old(View()), id)
        invariant old(answered) <= answered
        invariant forall i :: |old(answered)| <= i < |answered| ==> answered[i].2.status == LeaseActive
        decreases |pendingNew| + |pendingRefs|
      {
        ghost var before := View();
        var now: Time, wait: int, cancelled: bool, live: bool := *, *, *, *;
        at := now;
        var queued := NextQueuedClient(now);
        ServedIsTakenOut(before, now);
        PoppingChecksNobody(before, now);
        if queued.None? {
          return;
        }
        var a, stopped := EnsureLease(queued.value.0, queued.value.1, connector, wait, now, cancelled, live && !cancelled);
        answered := answered + [(queued.value.0, queued.value.1, a)];
        if a.status != LeaseActive {
          return;
        }
      }
    }

    // ---- Health ----

    /** The client with an unexpired lease on `id`, if there is one. */
    method LeaseHolder(id: ProxyId, now: Time) returns (holder: Option<Client>)
      ensures holder.Some? ==> LiveOn(leases, now, holder.value, id)
      ensures holder.None? <==> !HasLive(leases, now, id)
    {
      var rest := leases.Keys;
      while rest != {}
        invariant rest <= leases.Keys
        invariant forall c :: c in leases && c !in rest ==> !LiveOn(leases, now, c, id)
        decreases rest
      {
        SomeMember(rest);
        var c :| c in rest;
        if leases[c].proxyId == id && now < leases[c].expiresAt {
          return Some(c);
        }
        rest := rest - {c};
      }
      return None;
    }

    method RecordHealthVerdict(id: ProxyId, passed: bool, failureThreshold: nat, successThreshold: nat, now: Time)
      requires Valid() && Exclusive(leases, now)
      modifies this`proxies
      ensures Valid() && View() == RecordHealth(old(View()), id, passed, failureThreshold, successThreshold, now)
    {
      hide NoDuplicates, HasLive;
      if id !in proxies {
        return;
      }
      var p := proxies[id];
      if !passed {
        p := p.(failureCount := p.failureCount + 1, successCount := 0);
        if p.failureCount >= failureThreshold && p.status != ProxyUnhealthy {
          p := p.(status := ProxyUnhealthy);
        }
        proxies := proxies[id := p];
        return;
      }
      p := p.(successCount := p.successCount + 1, failureCount := 0);
      if p.status == ProxyUnhealthy && p.successCount >= successThreshold {
        var holder := LeaseHolder(id, now);
        if holder.Some? {
          assert holder.value == LiveClient(leases, now, id);
          p := p.(status := ProxyActive, client := holder, drainingFor := None);
        } else if p.drainingFor.Some? && p.activeConns > 0 {
          p := p.(status := ProxyDraining, client := None);
        } else {
          p := p.(status := ProxyIdle, client := None, drainingFor := None);
        }
      }
      proxies := proxies[id := p];
    }

    // ---- Administration ----

    method InsertProxy(id: ProxyId, address: Address, disabled: bool) returns (added: bool)
      requires Valid()
      modifies this`proxies, this`order, this`db
      ensures Valid() && View() == AddProxy(old(View()), id, address, disabled)
      ensures added == (id !in old(proxies))
    {
      hide NoDuplicates, Sorted;
      if id in proxies {
        return false;
      }
      var p := Proxy(address, if disabled then ProxyDisabled else ProxyIdle, None, None, 0, 0, 0, disabled, PoolSource, 0);
      GrownKeepsOrder(View(), id, p);
      db := db.(proxies := db.proxies[id := Row(address, disabled)]);
      proxies := proxies[id := p];
      order := Sorted(order + [id]);
      return true;
    }

    method ChangeProxy(id: ProxyId, address: Address, disabled: bool) returns (found: bool)
      requires Valid()
      modifies this`proxies, this`db
      ensures Valid() && View() == UpdateProxy(old(View()), id, address, disabled)
      ensures found == (id in old(proxies))
    {
      hide NoDuplicates;
      if id !in proxies {
        return false;
      }
      var p := proxies[id].(address := address, disabled := disabled);
      if disabled && p.status == ProxyIdle {
        p := p.(status := ProxyDisabled);
      } else if p.status == ProxyDisabled {
        p := p.(status := ProxyIdle);
      }
      proxies := proxies[id := p];
      db := db.(proxies := db.proxies[id := Row(p.address, p.disabled)]);
      return true;
    }

    method SwitchProxy(id: ProxyId, disabled: bool) returns (found: bool)
      requires Valid()
      modifies this`proxies, this`db
      ensures Valid() && View() == SetProxyDisabled(old(View()), id, disabled)
      ensures found == (id in old(proxies))
    {
      hide NoDuplicates;
      if id !in proxies {
        return false;
      }
      var p := proxies[id].(disabled := disabled);
      if disabled && p.status == ProxyIdle {
        p := p.(status := ProxyDisabled);
      } else if !disabled && p.status == ProxyDisabled {
        p := p.(status := ProxyIdle);
      }
      proxies := proxies[id := p];
      db := db.(proxies := db.proxies[id := Row(p.address, p.disabled)]);
      return true;
    }

    method RemoveProxy(id: ProxyId) returns (removed: bool)
      requires Valid()
      modifies this`proxies, this`order, this`db
      ensures Valid() && View() == DeleteProxy(old(View()), id)
      ensures removed <==> id in old(proxies) && !InUse(old(proxies)[id])
    {
      hide NoDuplicates;
      if id !in proxies || proxies[id].status == ProxyActive || proxies[id].status == ProxyChecking
         || proxies[id].status == ProxyDraining || proxies[id].activeConns > 0 {
        return false;
      }
      WithoutKeepsDistinct(order, id);
      db := EraseProxy(db, {id});
      proxies := proxies - {id};
      order := Without(order, id);
      return true;
    }

    // ---- Connections ----

    method AcquireProxyConn(c: Client, k: Connection, now: Time) returns (through: Option<ProxyId>)
      requires Valid()
      modifies this`proxies, this`conns
      ensures Valid() && (View(), through) == AcquireConn(old(View()), c, k, now)
    {
      hide NoDuplicates;
      if c !in leases || now > leases[c].expiresAt {
        return None;
      }
      var id := leases[c].proxyId;
      if id !in proxies || proxies[id].status != ProxyActive || proxies[id].client != Some(c) {
        return None;
      }
      if (c, k) in conns {
        return None;
      }
      conns := conns[(c, k) := id];
      proxies := proxies[id := proxies[id].(activeConns := proxies[id].activeConns + 1)];
      return Some(id);
    }

    /** `erase` names a dynamic proxy whose rows are to be erased once the lock is released. */
    method UnregisterProxyConn(c: Client, id: ProxyId, k: Connection, now: Time) returns (erase: Option<ProxyId>)
      requires Valid()
      modifies this`proxies, this`order, this`conns
      ensures Valid() && View() == UnregisterConn(old(View()), c, id, k, now)
      ensures erase.Some? <==> id in old(proxies) && id !in proxies
      ensures erase.Some? ==> erase.value == id
    {
      hide NoDuplicates, HasLive;
      if (c, k) !in conns {
        return None;
      }
      conns := conns - {(c, k)};
      if id !in proxies || proxies[id].activeConns == 0 {
        return None;
      }
      var p := proxies[id].(activeConns := proxies[id].activeConns - 1);
      if p.activeConns == 0 && p.source == ApiSource {
        var active := ProxyHasActiveLease(id, now);
        if !active {
          WithoutKeepsDistinct(order, id);
          proxies := proxies - {id};
          order := Without(order, id);
          return Some(id);
        }
      }
      if p.status == ProxyDraining && p.activeConns == 0 {
        p := p.(client := None, drainingFor := None, status := if p.disabled then ProxyDisabled else ProxyIdle);
      }
      proxies := proxies[id := p];
      return None;
    }

    // ---- Dynamic proxies ----

    method ProxyAddressExists(address: Address) returns (taken: bool)
      ensures taken == AddressTaken(View(), address)
    {
      var rest := proxies.Keys;
      while rest != {}
        invariant rest <= proxies.Keys
        invariant forall id :: id in proxies && id !in rest ==> !SameEndpoint(proxies[id].address, address)
        decreases rest
      {
        SomeMember(rest);
        var id :| id in rest;
        if SameEndpoint(proxies[id].address, address) {
          return true;
        }
        rest := rest - {id};
      }
      return false;
    }

    /** Drains, drops or frees the proxy that the client had until now. */
    method SupersedeProxy(c: Client)
      requires Valid()
      modifies this`proxies, this`order, this`db
      ensures Valid() && View() == WithSuperseded(old(View()), c)
    {
      hide NoDuplicates, Without;
      if c !in leases || leases[c].proxyId !in proxies {
        return;
      }
      var left := leases[c].proxyId;
      if proxies[left].activeConns > 0 {
        proxies := proxies[left := proxies[left].(status := ProxyDraining, client := None, drainingFor := Some(c))];
      } else if proxies[left].source == ApiSource {
        WithoutKeepsDistinct(order, left);
        proxies := proxies - {left};
        order := Without(order, left);
        db := EraseProxy(db, {left});
      } else {
        proxies := proxies[left := MarkIdle(proxies[left])];
      }
    }

    method ActivateDynamicProxy(c: Client, id: ProxyId, address: Address, expires: Time) returns (activated: bool)
      requires Valid() && id !in proxies
      modifies this`proxies, this`order, this`leases, this`pendingNew, this`pendingRefs, this`db
      ensures Valid() && View() == ActivateDynamic(old(View()), c, id, address, expires)
      ensures activated == !AddressTaken(old(View()), address)
    {
      hide NoDuplicates, Without, Sorted, WithSuperseded, AddressTaken;
      var taken := ProxyAddressExists(address);
      if taken {
        return false;
      }
      SupersededShrinks(View(), c);
      SupersedeProxy(c);
      GrownKeepsOrder(View(), id, Proxy(address, ProxyActive, Some(c), None, 0, 0, 1, false, ApiSource, expires));
      proxies := proxies[id := Proxy(address, ProxyActive, Some(c), None, 0, 0, 1, false, ApiSource, expires)];
      order := Sorted(order + [id]);
      RemoveQueuedClient(c);
      leases := leases[c := Lease(id, expires)];
      db := db.(proxies := db.proxies[id := Row(address, false)], dynamics := db.dynamics[id := Truncate(expires)],
                leases := db.leases[c := Stored(Lease(id, expires))]);
      return true;
    }

    /**
     A client asks for a proxy of the provider. `asBefore` says that its lease already has these
     terms, `acquired` is the provider's answer and `probe` how validating it went. A refusal leaves
     everything as it was; success means the new proxy until the requested end.
     */
    method LeaseDynamic(c: Client, refresh: bool, asBefore: bool, enabled: bool, front: Option<Address>, acquired: Option<Address>,
                        probe: Result, id: ProxyId, expires: Time)
      returns (r: DynamicResult)
      requires Valid() && id !in proxies
      modifies this`proxies, this`order, this`leases, this`pendingNew, this`pendingRefs, this`db
      ensures Valid()
      ensures r.Refused? ==> View() == old(View())
      ensures r.Refused? ==>
                match r.error
                case ApiDisabled => !enabled
                case RequestFailed => enabled && acquired.None?
                case FrontAddress => enabled && acquired.Some? && front.Some? && SameEndpoint(acquired.value, front.value)
                case DuplicateEndpoint => enabled && acquired.Some? && AddressTaken(old(View()), acquired.value)
                case Unusable => enabled && acquired.Some? && !AddressTaken(old(View()), acquired.value) && probe.Failed?
      ensures r.Leased? ==> r.assignment.status == LeaseActive && r.assignment.lease == LeaseOf(View(), c)
      ensures var reused := !refresh && asBefore && CurrentAssignment(old(View()), c).status == LeaseActive;
              && (reused ==> r.Leased? && View() == old(View()))
              && (!reused && r.Leased? ==>
                    && acquired.Some? && View() == ActivateDynamic(old(View()), c, id, acquired.value, expires)
                    && LeaseOf(View(), c) == Some(Lease(id, expires)))
              && (!reused ==> (r.Leased? <==>
                    && enabled && acquired.Some? && probe.Success? && !AddressTaken(old(View()), acquired.value)
                    && !(front.Some? && SameEndpoint(acquired.value, front.value))))
    {
      hide NoDuplicates, AddressTaken, ActivateDynamic;
      if !refresh && asBefore && c in leases && c !in pendingRefs {
        return Leased(Assignment(LeaseActive, Some(leases[c])));
      }
      if !enabled {
        return Refused(ApiDisabled);
      }
      if acquired.None? {
        return Refused(RequestFailed);
      }
      if front.Some? && SameEndpoint(acquired.value, front.value) {
        return Refused(FrontAddress);
      }
      var duplicate := ProxyAddressExists(acquired.value);
      if duplicate {
        return Refused(DuplicateEndpoint);
      }
      if probe.Failed? {
        return Refused(Unusable);
      }
      DynamicLeases(View(), c, id, acquired.value, expires);
      var activated := ActivateDynamicProxy(c, id, acquired.value, expires);
      if !activated {
        return Refused(DuplicateEndpoint);
      }
      return Leased(Assignment(LeaseActive, Some(Lease(id, expires))));
    }
  }

  lemma DynamicLeases(s: State, c: Client, id: ProxyId, address: Address, expires: Time)
    requires id !in s.proxies && !AddressTaken(s, address)
    ensures LeaseOf(ActivateDynamic(s, c, id, address, expires), c) == Some(Lease(id, expires))
  {
    hide Without, Sorted, AddressTaken, WithSuperseded;
  }

  /** The proxies once those in `ids` that drain for `c` are let go. */
  function LetSome(was: map<ProxyId, Proxy>, ids: seq<ProxyId>, c: Client): map<ProxyId, Proxy> {
    map id | id in was :: if id in ids then LetGo(was[id], c) else was[id]
  }

  lemma LetNone(was: map<ProxyId, Proxy>, c: Client)
    ensures LetSome(was, [], c) == was
  {
  }

  lemma LetOneMore(was: map<ProxyId, Proxy>, ids: seq<ProxyId>, id: ProxyId, c: Client)
    requires id !in ids
    ensures var some := LetSome(was, ids, c);
            && (id in some <==> id in was)
            && LetSome(was, ids + [id], c) ==
               if id in some && some[id].drainingFor == Some(c) then some[id := ReleaseBinding(some[id], c)] else some
  {
  }

  lemma LetAll(was: map<ProxyId, Proxy>, ids: seq<ProxyId>, c: Client)
    requires forall id :: id in was ==> id in ids
    ensures LetSome(was, ids, c) == map id | id in was :: LetGo(was[id], c)
    ensures LetSome(was, ids, c).Keys == was.Keys
  {
    assert forall id :: id in was ==> LetSome(was, ids, c)[id] == LetGo(was[id], c);
  }

  /** The leases of all clients but those in `cs`. */
  function Others(leases: Leases, cs: seq<Client>): Leases {
    map c | c in leases && c !in cs :: leases[c]
  }

  lemma NoneYet(leases: Leases)
    ensures Others(leases, []) == leases
  {
  }

  lemma ExactlyLapsed(leases: Leases, expired: seq<Client>, now: Time)
    requires forall c :: c in expired <==> Expired(leases, now, c)
    ensures Others(leases, expired) == map c | c in leases && now <= leases[c].expiresAt :: leases[c]
  {
    assert forall c :: c in leases ==> (c in expired <==> now > leases[c].expiresAt);
  }

  lemma OneMore(leases: Leases, cs: seq<Client>, c: Client)
    ensures Others(leases, cs + [c]) == Others(leases, cs) - {c}
  {
  }

  lemma SweepStarts(s: State)
    ensures PoolRuns.Run(s, Sweep([])) == s
  {
  }

  lemma SweepGrows(s: State, turns: seq<Turn>, turn: Turn)
    ensures PoolRuns.Run(s, Sweep(turns + [turn]))
         == ReleaseLease(PoolRuns.Run(PoolRuns.Run(s, Sweep(turns)), turn.others), turn.client, turn.at)
  {
    hide PoolRuns.Run;
    var before, e := Sweep(turns) + turn.others, PoolRuns.Event(PoolRuns.Release(turn.client), turn.at);
    assert (turns + [turn])[..|turns|] == turns;
    assert Sweep(turns + [turn]) == before + [e];
    RunLast(s, before + [e]);
    assert (before + [e])[..|before|] == before;
    RunSplits(s, Sweep(turns), turn.others);
  }

  /** What a client is told without trying anything: its running lease, or to wait. */
  function RunningAssignment(s: State, c: Client, now: Time): Assignment {
    if c in s.leases && now < s.leases[c].expiresAt then Assignment(LeaseActive, Some(s.leases[c])) else PENDING
  }

  /**
   Put off because the front asks to wait: a running lease is answered; a client that wants another proxy
   keeps it and waits among the refreshes; any other waits among the new clients.
   */
  predicate Deferred(s: State, after: State, c: Client, refresh: bool, now: Time, a: Assignment) {
    if c in s.leases && now < s.leases[c].expiresAt && !refresh then after == s && a == Assignment(LeaseActive, Some(s.leases[c]))
    else
      var again := c in s.leases && now < s.leases[c].expiresAt;
      && after == s.(pendingNew := after.pendingNew, pendingRefs := after.pendingRefs) && WaitsInQueue(s, after, c, again)
      && a == Assignment(LeasePending, if again then Some(s.leases[c]) else None)
  }

  function AnyProbe(id: ProxyId): Probe {
    Probe(id, Unsplittable(""), Unsplittable(""), NO_TOKEN)
  }

  lemma OneSettled(s: State, probes: seq<Probe>, c: Client)
    requires |probes| == 1
    ensures RestoreAll(s, probes, c) == Restore(s, probes[0].proxyId, c)
    ensures BlameAll(s, probes, c) == Blame(s, probes[0].proxyId, c)
  {
    assert probes[1..] == [];
  }

  lemma ReleaseRemoves(s: State, c: Client, now: Time)
    ensures ReleaseLease(s, c, now).leases == s.leases - {c}
  {
    assert c !in s.leases ==> s.leases - {c} == s.leases;
  }

  datatype DynamicError = ApiDisabled | RequestFailed | FrontAddress | DuplicateEndpoint | Unusable

  datatype DynamicResult = Leased(assignment: Assignment) | Refused(error: DynamicError)

  lemma SupersededShrinks(s: State, c: Client)
    ensures WithSuperseded(s, c).proxies.Keys <= s.proxies.Keys && WithSuperseded(s, c).leases == s.leases
    ensures QueuesSame(s, WithSuperseded(s, c))
  {
  }

  /** The proxy is one of the probed ones, or its address is the same endpoint as one of theirs. */
  method HeldOrSame(probes: seq<Probe>, id: ProxyId, address: Address) returns (held: bool)
    ensures held <==> exists p :: p in probes && (p.proxyId == id || SameEndpoint(p.address, address))
  {
    for i := 0 to |probes|
      invariant forall p :: p in probes[..i] ==> p.proxyId != id && !SameEndpoint(p.address, address)
    {
      assert probes[..i + 1] == probes[..i] + [probes[i]];
      if probes[i].proxyId == id || SameEndpoint(probes[i].address, address) {
        return true;
      }
    }
    assert probes[..|probes|] == probes;
    return false;
  }

  /** The proxy as its new lease makes it. */
  function Given(p: Proxy, c: Client): Proxy {
    p.(status := ProxyActive, client := Some(c), drainingFor := None, failureCount := 0, successCount := p.successCount + 1)
  }

  lemma ActivateForgets(s: State, id: ProxyId, c: Client, refresh: bool, expires: Time)
    requires id in s.proxies && !s.proxies[id].disabled
    ensures var before := if refresh then WithReplaced(s, c) else s;
            && id in before.proxies
            && Activate(Recheck(s, id, c), id, c, refresh, expires)
               == WithLease(SetProxy(before, id, Given(before.proxies[id], c)), c, Lease(id, expires))
  {
    hide Without;
    var before := if refresh then WithReplaced(s, c) else s;
    var checked := Recheck(s, id, c);
    var after := if refresh then WithReplaced(checked, c) else checked;
    assert Given(after.proxies[id], c) == Given(before.proxies[id], c);
    assert after.proxies[id := Given(before.proxies[id], c)] == before.proxies[id := Given(before.proxies[id], c)];
  }

  lemma NothingBlamed(s: State, c: Client)
    ensures BlameAll(s, [], c) == s
  {
  }

  function LetGo(p: Proxy, c: Client): Proxy {
    if p.drainingFor == Some(c) then ReleaseBinding(p, c) else p
  }
}
