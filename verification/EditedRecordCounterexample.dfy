/**
 Why the address on record must not be edited while a proxy is probed: a run from the start in which an
 exit is blamed for an ambiguous failure although every success in the front's history is through the
 very endpoint that failed.
 */
module EditedRecordCounterexample {
  import opened Common
  import opened Addresses
  import opened Front
  import opened FrontLedger
  import opened FrontPath
  import opened Evidence
  import opened Pool
  import PoolRuns
  import opened LeaseCall
  import opened CallSafety
  import opened World

  const A := HostPort(Ip(1), Some(1080))
  const B := HostPort(Ip(2), Some(1080))

  // The front: one attempt through A fails ambiguously, a later one through A succeeds.
  const FRONT0 := NewLedger(true, 5)
  const FRONT1 := FrontLedger.Apply(FRONT0, Begin(0, 2))
  const FRONT2 := FrontLedger.Apply(FRONT1, Confuse(0, A, 3))
  const FRONT3 := FrontLedger.Apply(FRONT2, Begin(1, 6))
  const FRONT4 := FrontLedger.Apply(FRONT3, Succeed(1, A, 6))

  const FAILURE := Failed(InPhase(FrontConnectExit, AmbiguousScope, false, Token(0, 1)))
  const PROOF := Front.Evidence.Evidence(A, 0, 2, 6)
  const PROBE := Probe(7, B, A, Token(0, 1))

  lemma FrontFacts()
    ensures FRONT1.history == [] && FRONT3.history == FRONT2.history
    ensures FRONT2.history == [Entry(AmbiguousFailure, 0, A)]
    ensures FRONT4.history == [Entry(AmbiguousFailure, 0, A), Entry(Established, 0, A)]
    ensures RecentEvidence(FRONT4.circuit) == Some(PROOF)
  {
  }

  // The pool: its only proxy is reserved, edited, and blamed.
  function Only(address: Address, status: ProxyStatus, client: Option<Client>, failures: nat, queued: seq<Client>): State {
    State(map[7 := Proxy(address, status, client, None, 0, failures, 0, false, PoolSource, 0)], [7], map[], queued, [], map[],
          Disk(map[], map[7 := Row(address, false)], map[]))
  }

  const FREE := Only(A, ProxyIdle, None, 0, [])
  const CHECKED := Only(A, ProxyChecking, Some(1), 0, [])
  const EDITED := Only(B, ProxyChecking, Some(1), 0, [])
  const WAITING := Only(B, ProxyChecking, Some(1), 0, [1])
  const BLAMED := Only(B, ProxyUnhealthy, None, 1, [1])

  // The lease call.
  function CallAt(phase: LeaseCall.Phase, probes: seq<Probe>): Call {
    Call(1, false, Snapshot(false, false), phase, probes, PENDING)
  }

  function At(front: Ledger, pool: State, phase: LeaseCall.Phase, probes: seq<Probe>): World {
    World(front, pool, map[0 := CallAt(phase, probes)], map[])
  }

  function In(now: Time, result: Result): Input {
    Input(now, false, result, 0)
  }

  const JUDGING := Judging(7, A, 0, FAILURE, None)

  const RUN := [
    Moment(Outside(PoolRuns.Add(7, A, false)), 1, World(FRONT0, FREE, map[], map[])),
    Moment(Arrive(0, 1, false), 1, At(FRONT0, FREE, Ready, [])),
    Moment(Move(0, In(2, Success)), 2, At(FRONT0, CHECKED, Probing(7, A, 0), [])),
    Moment(FrontStep(Begin(0, 2)), 2, At(FRONT1, CHECKED, Probing(7, A, 0), [])),
    Moment(FrontStep(Confuse(0, A, 3)), 3, At(FRONT2, CHECKED, Probing(7, A, 0), [])),
    Moment(Move(0, In(3, FAILURE)), 3, At(FRONT2, CHECKED, JUDGING, []))]

  const REST := [
    Moment(Outside(PoolRuns.Update(7, B, false)), 4, At(FRONT2, EDITED, JUDGING, [])),
    Moment(Move(0, In(5, Success)), 5, At(FRONT2, EDITED, Ready, [PROBE])),
    Moment(FrontStep(Begin(1, 6)), 6, At(FRONT3, EDITED, Ready, [PROBE])),
    Moment(FrontStep(Succeed(1, A, 6)), 6, At(FRONT4, EDITED, Ready, [PROBE])),
    Moment(Move(0, In(7, Success)), 7, At(FRONT4, WAITING, Weighing(false), [PROBE])),
    Moment(Move(0, In(7, Success)), 7, At(FRONT4, WAITING, Convicting([PROBE]), []))]

  const LAST := Moment(Move(0, In(8, Success)), 8, At(FRONT4, BLAMED, LeaseCall.Phase.Finished, []))

  // ---- Each step ----

  lemma Adding()
    ensures Next(StartWorld(true, 5), RUN[0].step, 1, RUN[0].world)
  {
    assert PoolRuns.EMPTY.order + [7] == [7];
    assert [7][1..] == [];
  }

  lemma Arriving()
    ensures Next(RUN[0].world, RUN[1].step, 1, RUN[1].world)
  {
  }

  lemma Reserving()
    ensures Next(RUN[1].world, RUN[2].step, 2, RUN[2].world)
  {
    assert Eligible(FREE, 2, 7);
    assert FirstEligible(FREE, 2, [7]) == Some(7);
    assert FREE.proxies[7 := CHECKED.proxies[7]] == CHECKED.proxies;
    assert Reserve(FREE, 1, false, 2) == (CHECKED, Reserved(7));
    assert map[0 := CallAt(Ready, [])][0 := CallAt(Probing(7, A, 0), [])] == map[0 := CallAt(Probing(7, A, 0), [])];
  }

  lemma FrontMoves()
    ensures Next(RUN[2].world, RUN[3].step, 2, RUN[3].world) && Next(RUN[3].world, RUN[4].step, 3, RUN[4].world)
    ensures Next(REST[1].world, REST[2].step, 6, REST[2].world) && Next(REST[2].world, REST[3].step, 6, REST[3].world)
  {
    hide FrontLedger.Apply;
  }

  lemma Returning()
    ensures Next(RUN[4].world, RUN[5].step, 3, RUN[5].world)
  {
    FrontFacts();
    hide FrontLedger.Apply;
    assert Truthful(FRONT2.history, A, 0, FAILURE);
    assert map[0 := CallAt(Probing(7, A, 0), [])][0 := CallAt(JUDGING, [])] == map[0 := CallAt(JUDGING, [])];
  }

  lemma Editing()
    ensures Next(RUN[5].world, REST[0].step, 4, REST[0].world)
  {
    hide FrontLedger.Apply;
  }

  lemma Committing()
    ensures Next(REST[0].world, REST[1].step, 5, REST[1].world)
  {
    hide FrontLedger.Apply;
    OneProbe();
    assert map[0 := CallAt(JUDGING, [])][0 := CallAt(Ready, [PROBE])] == map[0 := CallAt(Ready, [PROBE])];
  }

  lemma OneProbe()
    ensures |Endpoints([PROBE])| == 1 && [] + [PROBE] == [PROBE]
  {
    assert [PROBE][..0] == [];
  }

  lemma Waiting()
    ensures Next(REST[3].world, REST[4].step, 7, REST[4].world)
  {
    hide FrontLedger.Apply;
    assert !Eligible(EDITED, 7, 7) && EDITED.order[1..] == [];
    assert FirstEligible(EDITED, 7, [7]) == None;
    assert Enqueue([], 1) == [1];
    assert Reserve(EDITED, 1, false, 7) == (WAITING, Answered(PENDING));
    assert map[0 := CallAt(Ready, [PROBE])][0 := CallAt(Weighing(false), [PROBE])] == map[0 := CallAt(Weighing(false), [PROBE])];
  }

  lemma ProofValidates()
    ensures Parted([PROBE], Some(PROOF)) == ([], [PROBE])
  {
    assert Validates(PROOF, PROBE);
    var none: seq<Probe> := [];
    assert [PROBE][..0] == none;
    assert none + [PROBE] == [PROBE];
    assert Parted([PROBE], Some(PROOF)) == (Unresolved([PROBE], PROOF), Validated([PROBE], PROOF));
    assert Unresolved([PROBE], PROOF) == none;
    assert Validated([PROBE], PROOF) == [PROBE];
  }

  lemma Accusing()
    ensures Next(REST[4].world, REST[5].step, 7, REST[5].world)
  {
    FrontFacts();
    ProofValidates();
    hide FrontLedger.Apply, Parted, RecentEvidence;
    assert map[0 := CallAt(Weighing(false), [PROBE])][0 := CallAt(Convicting([PROBE]), [])] == map[0 := CallAt(Convicting([PROBE]), [])];
  }

  lemma Blaming()
    ensures Next(REST[5].world, LAST.step, 8, LAST.world)
  {
    hide FrontLedger.Apply;
    assert [PROBE][1..] == [];
    assert Blame(WAITING, 7, 1) == BLAMED;
    assert BlameAll(WAITING, [PROBE], 1) == BLAMED;
    var ended := CallAt(LeaseCall.Phase.Finished, []);
    assert map[0 := CallAt(Convicting([PROBE]), [])][0 := ended] == map[0 := ended];
  }

  // ---- The run ----

  lemma HappensCons(w: World, m: Moment, rest: seq<Moment>, from: Time)
    requires from <= m.now && Next(w, m.step, m.now, m.world) && Happens(m.world, m.now, rest)
    ensures Happens(w, from, [m] + rest)
  {
    assert ([m] + rest)[1..] == rest;
  }

  lemma RestHappens()
    ensures Happens(RUN[5].world, 3, REST)
  {
    hide Next, FrontLedger.Apply;
    Editing();
    Committing();
    FrontMoves();
    Waiting();
    Accusing();
    HappensCons(REST[4].world, REST[5], [], 7);
    HappensCons(REST[3].world, REST[4], [REST[5]] + [], 6);
    HappensCons(REST[2].world, REST[3], [REST[4]] + ([REST[5]] + []), 6);
    HappensCons(REST[1].world, REST[2], [REST[3]] + ([REST[4]] + ([REST[5]] + [])), 5);
    HappensCons(REST[0].world, REST[1], [REST[2]] + ([REST[3]] + ([REST[4]] + ([REST[5]] + []))), 4);
    HappensCons(RUN[5].world, REST[0], [REST[1]] + ([REST[2]] + ([REST[3]] + ([REST[4]] + ([REST[5]] + [])))), 3);
    assert REST == [REST[0]] + ([REST[1]] + ([REST[2]] + ([REST[3]] + ([REST[4]] + ([REST[5]] + [])))));
  }

  lemma RunLeadsTo(rest: seq<Moment>)
    requires Happens(RUN[5].world, 3, rest)
    ensures Happens(StartWorld(true, 5), 0, RUN + rest)
  {
    hide Next, Happens, FrontLedger.Apply, StartWorld, At;
    Adding();
    Arriving();
    Reserving();
    FrontMoves();
    Returning();
    var five := [RUN[5]] + rest;
    var four := [RUN[4]] + five;
    var three := [RUN[3]] + four;
    var two := [RUN[2]] + three;
    var one := [RUN[1]] + two;
    HappensCons(RUN[4].world, RUN[5], rest, 3);
    HappensCons(RUN[3].world, RUN[4], five, 2);
    HappensCons(RUN[2].world, RUN[3], four, 2);
    HappensCons(RUN[1].world, RUN[2], three, 1);
    HappensCons(RUN[0].world, RUN[1], two, 1);
    HappensCons(StartWorld(true, 5), RUN[0], one, 0);
    SixInOrder(RUN, rest);
  }

  lemma SixInOrder(six: seq<Moment>, rest: seq<Moment>)
    requires |six| == 6
    ensures six + rest == [six[0]] + ([six[1]] + ([six[2]] + ([six[3]] + ([six[4]] + ([six[5]] + rest)))))
  {
  }

  /**
   The run happens, its next step raises proxy 7's failure count, the probe blamed went to endpoint A,
   and so did every success that the history holds.
   */
  lemma EditedRecordBlamesUnfairly()
    ensures Happens(StartWorld(true, 5), 0, RUN + REST)
    ensures var w := LastWorld(StartWorld(true, 5), RUN + REST);
            && Next(w, LAST.step, LAST.now, LAST.world) && Raised(w.pool, LAST.world.pool, 7)
            && Accused(w.calls[0]) == [PROBE] && PROBE.proxyId == 7
            && forall i :: 0 <= i < |w.front.history| && w.front.history[i].kind == Established ==>
                 SameEndpoint(w.front.history[i].exit, PROBE.probed)
  {
    hide Next, Happens, FrontLedger.Apply, StartWorld;
    RestHappens();
    RunLeadsTo(REST);
    Blaming();
    FrontFacts();
    assert (RUN + REST)[|RUN + REST| - 1] == REST[5];
  }
}
