/**
 Why activations for one client must not overlap: a run from the empty pool in which two calls of client
 1 are both given a proxy. No lease ever lapses, so every recovery keeps the order of releasing first;
 still one proxy ends up with two clients' connections.
 */
module OverlapCounterexample {
  import opened Common
  import opened Addresses
  import opened Pool
  import opened PoolRuns

  const A := HostPort(Ip(1), Some(1080))
  const B := HostPort(Ip(2), Some(1080))

  // Client 1 reserves 7 and 8, gets 7 and connects, then gets 8; 7 fails a health probe.
  const OVERLAP := [
    Event(Add(7, A, false), 5), Event(Add(8, B, false), 5), Event(ReserveFor(1, false), 5), Event(ReserveFor(1, false), 5),
    Event(Grant(7, 1, false, 99), 6), Event(Connect(1, 1), 6), Event(Grant(8, 1, false, 99), 6), Event(Verdict(7, false, 1, 1), 7)]

  // Proxy 7 recovers; client 2 gets it and connects.
  const SECOND := [
    Event(Verdict(7, true, 1, 1), 8), Event(ReserveFor(2, false), 9), Event(Grant(7, 2, false, 99), 9), Event(Connect(2, 1), 9)]

  function Plain(address: Address, status: ProxyStatus, client: Option<Client>, conns: nat, failures: nat, successes: nat): Proxy {
    Proxy(address, status, client, None, conns, failures, successes, false, PoolSource, 0)
  }

  const FREE := Plain(B, ProxyIdle, None, 0, 0, 0)

  function Both(seven: Proxy, eight: Proxy, leases: Leases, via: Registry, table: Leases): State {
    State(map[7 := seven, 8 := eight], [7, 8], leases, [], [], via,
          Disk(table, map[7 := Row(A, false), 8 := Row(B, false)], map[]))
  }

  const ONLY := State(map[7 := Plain(A, ProxyIdle, None, 0, 0, 0)], [7], map[], [], [], map[], Disk(map[], map[7 := Row(A, false)], map[]))
  const TWO := Both(Plain(A, ProxyIdle, None, 0, 0, 0), FREE, map[], map[], map[])
  const CHECKED := Both(Plain(A, ProxyChecking, Some(1), 0, 0, 0), FREE, map[], map[], map[])
  const TWICE := Both(Plain(A, ProxyChecking, Some(1), 0, 0, 0), Plain(B, ProxyChecking, Some(1), 0, 0, 0), map[], map[], map[])
  const GIVEN := Both(Plain(A, ProxyActive, Some(1), 0, 0, 1), Plain(B, ProxyChecking, Some(1), 0, 0, 0),
                      map[1 := Lease(7, 99)], map[], map[1 := Lease(7, 0)])
  const USED := Both(Plain(A, ProxyActive, Some(1), 1, 0, 1), Plain(B, ProxyChecking, Some(1), 0, 0, 0),
                     map[1 := Lease(7, 99)], map[(1, 1) := 7], map[1 := Lease(7, 0)])
  const OVERWRITTEN := After(Plain(A, ProxyActive, Some(1), 1, 0, 1))
  const FAILED := After(Plain(A, ProxyUnhealthy, Some(1), 1, 1, 0))
  const RECOVERED := After(Plain(A, ProxyIdle, None, 1, 0, 1))
  const RECHECKED := After(Plain(A, ProxyChecking, Some(2), 1, 0, 1))

  /** The pool once client 1's lease is on proxy 8, its connection still on 7. */
  function After(seven: Proxy): State {
    Both(seven, Plain(B, ProxyActive, Some(1), 0, 0, 1), map[1 := Lease(8, 99)], map[(1, 1) := 7], map[1 := Lease(8, 0)])
  }

  lemma Adding()
    ensures Apply(EMPTY, OVERLAP[0].step, 5) == ONLY
  {
    assert EMPTY.order + [7] == [7];
    assert [7][1..] == [];
  }

  lemma AddingAnother()
    ensures Apply(ONLY, OVERLAP[1].step, 5) == TWO
  {
    assert [7] + [8] == [7, 8] && [7, 8][1..] == [8] && [8][1..] == [];
    assert Sorted([8]) == [8];
    assert Insert([8], 7) == [7, 8];
  }

  lemma Reserving()
    ensures Apply(TWO, OVERLAP[2].step, 5) == CHECKED
  {
    assert Eligible(TWO, 5, 7);
  }

  lemma ReservingAnother()
    ensures Apply(CHECKED, OVERLAP[3].step, 5) == TWICE
  {
    assert CHECKED.order[1..] == [8];
    assert !Eligible(CHECKED, 5, 7) && Eligible(CHECKED, 5, 8);
    assert FirstEligible(CHECKED, 5, [8]) == Some(8);
  }

  lemma Granting()
    ensures Apply(TWICE, OVERLAP[4].step, 6) == GIVEN
  {
    hide HasLive;
    assert CheckedFor(TWICE, 7, 1);
    assert RemoveQueued(TWICE, 1) == TWICE;
    assert TWICE.proxies[7 := GIVEN.proxies[7]] == GIVEN.proxies;
  }

  lemma Connecting()
    ensures Apply(GIVEN, OVERLAP[5].step, 6) == USED
  {
  }

  lemma Overwriting()
    ensures Apply(USED, OVERLAP[6].step, 6) == OVERWRITTEN
  {
  }

  lemma Failing()
    ensures Apply(OVERWRITTEN, OVERLAP[7].step, 7) == FAILED
  {
  }

  lemma Recovering()
    ensures Apply(FAILED, SECOND[0].step, 8) == RECOVERED
  {
    assert !HasLive(FAILED.leases, 8, 7);
  }

  lemma Rechecking()
    ensures Apply(RECOVERED, SECOND[1].step, 9) == RECHECKED
  {
    assert Eligible(RECOVERED, 9, 7);
  }

  ghost function Regranted(): State {
    Apply(RECHECKED, SECOND[2].step, 9)
  }

  lemma Regranting()
    ensures MayConnect(Regranted(), 2, 9) && Regranted().via == map[(1, 1) := 7] && Regranted().leases[2].proxyId == 7
  {
  }

  lemma Reconnecting()
    ensures Apply(Regranted(), SECOND[3].step, 9).via == map[(1, 1) := 7, (2, 1) := 7]
  {
    Regranting();
    hide Regranted, MayConnect;
    assert map[(1, 1) := 7][(2, 1) := 7] == map[(1, 1) := 7, (2, 1) := 7];
  }

  lemma HalfReached(rest: seq<Event>)
    ensures Run(EMPTY, OVERLAP[..4] + rest) == Run(TWICE, rest)
    ensures Possible(TWICE, rest, 5) ==> Possible(EMPTY, OVERLAP[..4] + rest, 0)
  {
    Adding();
    AddingAnother();
    Reserving();
    ReservingAnother();
    hide Apply, Run, Possible;
    var three := [OVERLAP[3]] + rest;
    var two := [OVERLAP[2]] + three;
    RunCons(CHECKED, OVERLAP[3], rest, 5);
    RunCons(TWO, OVERLAP[2], three, 5);
    RunCons(ONLY, OVERLAP[1], two, 5);
    RunCons(EMPTY, OVERLAP[0], [OVERLAP[1]] + two, 0);
    assert OVERLAP[..4] + rest == [OVERLAP[0]] + ([OVERLAP[1]] + two);
  }

  lemma FailedReached(rest: seq<Event>)
    ensures Run(TWICE, OVERLAP[4..] + rest) == Run(FAILED, rest)
    ensures Possible(FAILED, rest, 7) ==> Possible(TWICE, OVERLAP[4..] + rest, 5)
  {
    Granting();
    Connecting();
    Overwriting();
    Failing();
    hide Apply, Run, Possible;
    var seven := [OVERLAP[7]] + rest;
    var six := [OVERLAP[6]] + seven;
    RunCons(OVERWRITTEN, OVERLAP[7], rest, 6);
    RunCons(USED, OVERLAP[6], seven, 6);
    RunCons(GIVEN, OVERLAP[5], six, 6);
    RunCons(TWICE, OVERLAP[4], [OVERLAP[5]] + six, 5);
    assert OVERLAP[4..] + rest == [OVERLAP[4]] + ([OVERLAP[5]] + six);
  }

  lemma MixedReached()
    ensures Possible(FAILED, SECOND, 7)
    ensures Run(FAILED, SECOND).via == map[(1, 1) := 7, (2, 1) := 7]
  {
    Granted();
    hide Apply, Regranted;
    Recovering();
    Rechecking();
    Reconnecting();
    var last := Apply(Regranted(), SECOND[3].step, 9);
    RunNone(last, 9);
    hide Run, Possible;
    RunCons(Regranted(), SECOND[3], [], 9);
    RunCons(RECHECKED, SECOND[2], [SECOND[3]] + [], 9);
    RunCons(RECOVERED, SECOND[1], [SECOND[2]] + ([SECOND[3]] + []), 8);
    RunCons(FAILED, SECOND[0], [SECOND[1]] + ([SECOND[2]] + ([SECOND[3]] + [])), 7);
    assert SECOND == [SECOND[0]] + ([SECOND[1]] + ([SECOND[2]] + ([SECOND[3]] + [])));
  }

  lemma Granted()
    ensures Apply(RECHECKED, SECOND[2].step, 9) == Regranted()
  {
  }

  /**
   The run is possible, no lease is lapsed when the proxy recovers, and in the end proxy 7 carries
   connections of both clients.
   */
  lemma OverlapMixesClients()
    ensures Possible(EMPTY, OVERLAP + SECOND, 0)
    ensures var before := Run(EMPTY, OVERLAP);
            forall c :: c in before.leases ==> LiveOn(before.leases, SECOND[0].now, c, before.leases[c].proxyId)
    ensures var via := Run(EMPTY, OVERLAP + SECOND).via;
            exists k, j :: k in via && j in via && via[k] == via[j] && k.0 != j.0
  {
    hide Apply, Run, Possible;
    MixedReached();
    FailedReached(SECOND);
    FailedReached([]);
    HalfReached(OVERLAP[4..] + SECOND);
    HalfReached(OVERLAP[4..] + []);
    RunNone(FAILED, 7);
    assert OVERLAP + SECOND == OVERLAP[..4] + (OVERLAP[4..] + SECOND);
    assert OVERLAP == OVERLAP[..4] + (OVERLAP[4..] + []);
    var via := Run(EMPTY, OVERLAP + SECOND).via;
    assert (1, 1) in via && (2, 1) in via && via[(1, 1)] == via[(2, 1)];
  }
}
