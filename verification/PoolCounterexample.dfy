/**
 Runs from the empty pool in which something goes wrong. A busy unhealthy proxy recovers before its
 lapsed lease is released, and then carries two clients' connections. A lease that was renewed after
 the sweep of lapsed leases had collected its client is ended by that sweep.
 */
module PoolCounterexample {
  import opened Common
  import opened Addresses
  import opened Pool
  import opened PoolRuns

  const EXIT := HostPort(Ip(1), Some(1080))

  // Client 1 gets proxy 7 until time 10 and connects; the proxy fails a health probe.
  const BUSY := [
    Event(Add(7, EXIT, false), 5), Event(ReserveFor(1, false), 5), Event(Grant(7, 1, false, 10), 5),
    Event(Connect(1, 1), 6), Event(Verdict(7, false, 1, 1), 7)]

  // The lease lapses unreleased, the proxy recovers, and client 2 gets it and connects.
  const MIXED := [
    Event(Verdict(7, true, 1, 1), 20), Event(ReserveFor(2, false), 20), Event(Grant(7, 2, false, 99), 20),
    Event(Connect(2, 1), 20)]

  // The only proxy, and a pool with just that proxy and perhaps client 1's lease and connection.
  function Seven(status: ProxyStatus, client: Option<Client>, conns: nat, failures: nat, successes: nat): Proxy {
    Proxy(EXIT, status, client, None, conns, failures, successes, false, PoolSource, 0)
  }

  const SAVED := map[7 := Row(EXIT, false)]

  function Free(p: Proxy): State {
    State(map[7 := p], [7], map[], [], [], map[], Disk(map[], SAVED, map[]))
  }

  function Leased(p: Proxy, via: Registry): State {
    State(map[7 := p], [7], map[1 := Lease(7, 10)], [], [], via, Disk(map[1 := Lease(7, 0)], SAVED, map[]))
  }

  const ONE: Registry := map[(1, 1) := 7]

  const ADDED := Free(Seven(ProxyIdle, None, 0, 0, 0))
  const CHECKED := Free(Seven(ProxyChecking, Some(1), 0, 0, 0))
  const GRANTED := Leased(Seven(ProxyActive, Some(1), 0, 0, 1), map[])
  const CONNECTED := Leased(Seven(ProxyActive, Some(1), 1, 0, 1), ONE)
  const FAILED := Leased(Seven(ProxyUnhealthy, Some(1), 1, 1, 0), ONE)
  const RECOVERED := Leased(Seven(ProxyIdle, None, 1, 0, 1), ONE)
  const RECHECKED := Leased(Seven(ProxyChecking, Some(2), 1, 0, 1), ONE)

  lemma Adding()
    ensures Apply(EMPTY, BUSY[0].step, 5) == ADDED
  {
    assert EMPTY.order + [7] == [7];
    assert [7][1..] == [];
  }

  lemma Reserving()
    ensures Apply(ADDED, BUSY[1].step, 5) == CHECKED
  {
    assert Eligible(ADDED, 5, 7);
  }

  lemma Granting()
    ensures Apply(CHECKED, BUSY[2].step, 5) == GRANTED
  {
  }

  lemma Connecting()
    ensures Apply(GRANTED, BUSY[3].step, 6) == CONNECTED
  {
  }

  lemma Failing()
    ensures Apply(CONNECTED, BUSY[4].step, 7) == FAILED
  {
  }

  lemma Recovering()
    ensures Apply(FAILED, MIXED[0].step, 20) == RECOVERED
  {
    assert !HasLive(FAILED.leases, 20, 7);
  }

  lemma Rechecking()
    ensures Apply(RECOVERED, MIXED[1].step, 20) == RECHECKED
  {
    assert Eligible(RECOVERED, 20, 7);
  }

  ghost function Regranted(): State {
    Apply(RECHECKED, MIXED[2].step, 20)
  }

  lemma Regranting()
    ensures MayConnect(Regranted(), 2, 20) && Regranted().via == ONE && Regranted().leases[2].proxyId == 7
  {
  }

  lemma Reconnecting()
    ensures Apply(Regranted(), MIXED[3].step, 20).via == map[(1, 1) := 7, (2, 1) := 7]
  {
    Regranting();
    hide Regranted, MayConnect;
    assert ONE[(2, 1) := 7] == map[(1, 1) := 7, (2, 1) := 7];
  }

  lemma BusyReached(rest: seq<Event>)
    ensures Run(EMPTY, BUSY + rest) == Run(FAILED, rest)
    ensures Possible(FAILED, rest, 7) ==> Possible(EMPTY, BUSY + rest, 0)
  {
    hide Apply, Run, Possible;
    Adding();
    Reserving();
    Granting();
    Connecting();
    Failing();
    var last := [BUSY[4]] + rest;
    var more := [BUSY[2]] + ([BUSY[3]] + last);
    RunCons(CONNECTED, BUSY[4], rest, 6);
    RunCons(GRANTED, BUSY[3], last, 5);
    RunCons(CHECKED, BUSY[2], [BUSY[3]] + last, 5);
    RunCons(ADDED, BUSY[1], more, 5);
    RunCons(EMPTY, BUSY[0], [BUSY[1]] + more, 0);
    assert BUSY + rest == [BUSY[0]] + ([BUSY[1]] + more);
  }

  lemma MixedReached()
    ensures Possible(FAILED, MIXED, 7)
    ensures Run(FAILED, MIXED).via == map[(1, 1) := 7, (2, 1) := 7]
  {
    Granted();
    hide Apply, Run, Possible, Regranted;
    Recovering();
    Rechecking();
    Reconnecting();
    RunNone(Apply(Regranted(), MIXED[3].step, 20), 20);
    RunCons(Regranted(), MIXED[3], [], 20);
    RunCons(RECHECKED, MIXED[2], [MIXED[3]] + [], 20);
    RunCons(RECOVERED, MIXED[1], [MIXED[2]] + ([MIXED[3]] + []), 20);
    RunCons(FAILED, MIXED[0], [MIXED[1]] + ([MIXED[2]] + ([MIXED[3]] + [])), 7);
    assert MIXED == [MIXED[0]] + ([MIXED[1]] + ([MIXED[2]] + ([MIXED[3]] + [])));
  }

  lemma Granted()
    ensures Apply(RECHECKED, MIXED[2].step, 20) == Regranted()
  {
  }

  lemma RecoveryBeforeReleaseMixesClients()
    ensures Possible(EMPTY, BUSY + MIXED, 0)
    ensures var via := Run(EMPTY, BUSY + MIXED).via;
            exists k, j :: k in via && j in via && via[k] == via[j] && k.0 != j.0
  {
    BusyReached(MIXED);
    MixedReached();
    var via := Run(EMPTY, BUSY + MIXED).via;
    assert (1, 1) in via && (2, 1) in via && via[(1, 1)] == via[(2, 1)];
  }

  // ---- The sweep ----

  // After the lease until 10 has lapsed and the sweep has collected client 1, the client renews it.
  const RENEWAL := [Event(ReserveFor(1, false), 20), Event(Grant(7, 1, false, 99), 20)]

  const GIVEN := [BUSY[0], BUSY[1], BUSY[2]]

  const REOPENED := Free(Seven(ProxyChecking, Some(1), 0, 0, 1))

  lemma GivenReached(rest: seq<Event>)
    ensures Run(EMPTY, GIVEN + rest) == Run(GRANTED, rest)
    ensures Possible(GRANTED, rest, 5) ==> Possible(EMPTY, GIVEN + rest, 0)
  {
    hide Apply, Run, Possible;
    Adding();
    Reserving();
    Granting();
    var more := [BUSY[2]] + rest;
    RunCons(CHECKED, BUSY[2], rest, 5);
    RunCons(ADDED, BUSY[1], more, 5);
    RunCons(EMPTY, BUSY[0], [BUSY[1]] + more, 0);
    assert GIVEN + rest == [BUSY[0]] + ([BUSY[1]] + more);
  }

  lemma LapsedBinding()
    ensures (map id | id in GRANTED.proxies :: Unbound(GRANTED.proxies[id], id, 7, 1, HasLive(map[], 20, 7)))
         == map[7 := Seven(ProxyIdle, None, 0, 0, 1)]
  {
    assert !HasLive(map[], 20, 7);
  }

  lemma LapsedRows()
    ensures EraseProxy(GRANTED.disk, {}).(leases := GRANTED.disk.leases - {1}) == Disk(map[], SAVED, map[])
    ensures RemoveQueued(GRANTED, 1) == GRANTED
  {
    assert GRANTED.disk.leases - {1} == map[];
  }

  lemma Lapsing()
    ensures Swept(GRANTED, 1, 20) == Free(Seven(ProxyIdle, None, 0, 0, 1))
  {
    hide Unbound, HasLive, RemoveQueued, EraseProxy, Keep;
    var leases := GRANTED.leases - {1};
    assert leases == map[];
    LapsedBinding();
    var bound := map[7 := Seven(ProxyIdle, None, 0, 0, 1)];
    var purged := set id | id in bound && Purgeable(leases, 20, id, bound[id]);
    assert purged == {} && bound - purged == bound && bound.Keys == {7};
    Keeping();
    LapsedRows();
  }

  lemma Keeping()
    ensures Keep([7], {7}) == [7]
  {
    assert [7][..0] == [];
  }

  lemma Renewing()
    ensures Apply(GRANTED, RENEWAL[0].step, 20) == REOPENED
    ensures 1 in Apply(REOPENED, RENEWAL[1].step, 20).leases && Apply(REOPENED, RENEWAL[1].step, 20).leases[1] == Lease(7, 99)
  {
    hide ReleaseLease;
    Lapsing();
    assert Eligible(Swept(GRANTED, 1, 20), 20, 7);
  }

  lemma SweepEndsRenewedLease()
    ensures Possible(EMPTY, GIVEN + RENEWAL, 0)
    ensures Expired(Run(EMPTY, GIVEN).leases, 20, 1)
    ensures var renewed := Run(EMPTY, GIVEN + RENEWAL);
            HasLive(renewed.leases, 20, 7) && 1 in renewed.leases && 1 !in Apply(renewed, Release(1), 20).leases
  {
    GivenReached([]);
    GivenReached(RENEWAL);
    Renewing();
    hide Apply, Run, Possible;
    RunNone(GRANTED, 5);
    var after := Apply(REOPENED, RENEWAL[1].step, 20);
    RunNone(after, 20);
    RunCons(REOPENED, RENEWAL[1], [], 20);
    RunCons(GRANTED, RENEWAL[0], [RENEWAL[1]] + [], 5);
    assert RENEWAL == [RENEWAL[0]] + ([RENEWAL[1]] + []);
    assert GIVEN + [] == GIVEN;
    assert LiveOn(after.leases, 20, 1, 7);
    Releasing(after);
  }

  lemma Releasing(s: State)
    ensures 1 !in Apply(s, Release(1), 20).leases
  {
  }

  // ---- Answers ----

  // Client 1 gets a dynamic proxy until time 10, which nobody sweeps.
  const RENTED := [Event(GrantDynamic(1, 9, EXIT, 10), 5)]

  /** After the lease has lapsed the client is still told that it is active. */
  lemma LapsedLeaseIsAnswered()
    ensures Possible(EMPTY, RENTED, 0)
    ensures var s := Run(EMPTY, RENTED);
            && CurrentAssignment(s, 1) == Assignment(LeaseActive, Some(Lease(9, 10)))
            && Expired(s.leases, 20, 1) && 9 in s.proxies && s.proxies[9].source == ApiSource
  {
    hide Without, Sorted;
    RunCons(EMPTY, RENTED[0], [], 0);
    RunNone(Apply(EMPTY, RENTED[0].step, 5), 5);
    assert RENTED == [RENTED[0]] + [];
    assert !AddressTaken(EMPTY, EXIT);
  }
}
