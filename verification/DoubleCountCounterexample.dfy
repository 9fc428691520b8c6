/**
 Why the address on record matters for the second witness, too: a run from the start in which the circuit
 opens although both probes behind the batch went to one endpoint, which was counted under two addresses.
 */
module DoubleCountCounterexample {
  import opened Common
  import opened Addresses
  import opened Front
  import opened FrontLedger
  import opened FrontPath
  import opened Evidence
  import opened Pool
  import PoolRuns
  import opened LeaseCall
  import opened World
  import opened EditedRecordCounterexample

  // The second attempt through A fails ambiguously, too.
  const FRONT5 := FrontLedger.Apply(FRONT3, Confuse(1, A, 6))

  const AGAIN_FAILED := Failed(InPhase(FrontConnectExit, AmbiguousScope, false, Token(0, 2)))
  const AGAIN := Probe(8, A, A, Token(0, 2))

  // Proxy 7 is still being checked, its address edited; proxy 8 is another name of endpoint A.
  const SEVEN := Proxy(B, ProxyChecking, Some(1), None, 0, 0, 0, false, PoolSource, 0)

  function Pair(status: ProxyStatus, client: Option<Client>, queued: seq<Client>): State {
    State(map[7 := SEVEN, 8 := Proxy(A, status, client, None, 0, 0, 0, false, PoolSource, 0)], [7, 8], map[], queued, [], map[],
          Disk(map[], map[7 := Row(B, false), 8 := Row(A, false)], map[]))
  }

  const ADDED := Pair(ProxyIdle, None, [])
  const BOTH := Pair(ProxyChecking, Some(1), [])
  const QUEUED := Pair(ProxyChecking, Some(1), [1])

  const JUDGING_AGAIN := Judging(8, A, 1, AGAIN_FAILED, None)

  const HELD := [PROBE, AGAIN]

  // From the moment at which the first failure is held.
  const TWICE := [
    Moment(Outside(PoolRuns.Add(8, A, false)), 6, At(FRONT2, ADDED, Ready, [PROBE])),
    Moment(Move(0, In(6, Success)), 6, At(FRONT2, BOTH, Probing(8, A, 1), [PROBE])),
    Moment(FrontStep(Begin(1, 6)), 6, At(FRONT3, BOTH, Probing(8, A, 1), [PROBE])),
    Moment(FrontStep(Confuse(1, A, 6)), 6, At(FRONT5, BOTH, Probing(8, A, 1), [PROBE])),
    Moment(Move(0, In(7, AGAIN_FAILED)), 7, At(FRONT5, BOTH, JUDGING_AGAIN, [PROBE])),
    Moment(Move(0, In(7, Success)), 7, At(FRONT5, QUEUED, Weighing(false), HELD)),
    Moment(Move(0, In(7, Success)), 7, At(FRONT5, QUEUED, Choosing, HELD)),
    Moment(Move(0, In(7, Success)), 7, At(FRONT5, QUEUED, Weighing(true), HELD)),
    Moment(Move(0, In(7, Success)), 7, At(FRONT5, QUEUED, Batching, HELD))]

  const OPENED := FrontLedger.Apply(FRONT5, Batch(Token(0, 1), Token(0, 2), 8))
  const OPENS := Moment(Move(0, In(8, Success)), 8, At(OPENED, QUEUED, Settling, HELD))

  lemma FrontFacts()
    ensures FRONT2.history == [Entry(AmbiguousFailure, 0, A)]
    ensures FRONT5.history == [Entry(AmbiguousFailure, 0, A), Entry(AmbiguousFailure, 0, A)]
    ensures RecentEvidence(FRONT5.circuit) == None
    ensures FRONT5.circuit.generation == 0
    ensures OPENED.circuit.generation == 1
  {
  }

  // ---- Each step ----

  lemma CallMoves(from: LeaseCall.Phase, to: LeaseCall.Phase, held: seq<Probe>, more: seq<Probe>)
    ensures map[0 := CallAt(from, held)][0 := CallAt(to, more)] == map[0 := CallAt(to, more)]
  {
  }

  lemma Adding()
    ensures Next(REST[1].world, TWICE[0].step, 6, TWICE[0].world)
  {
    hide FrontLedger.Apply;
    assert [7] + [8] == [7, 8] && [7, 8][1..] == [8] && [8][1..] == [];
    assert Sorted([8]) == [8];
    assert Insert([8], 7) == [7, 8];
    assert PoolRuns.Apply(EDITED, PoolRuns.Add(8, A, false), 6) == ADDED;
  }

  lemma Reserving()
    ensures Next(TWICE[0].world, TWICE[1].step, 6, TWICE[1].world)
  {
    FrontFacts();
    hide FrontLedger.Apply;
    assert ADDED.order[1..] == [8];
    assert !Eligible(ADDED, 6, 7) && Eligible(ADDED, 6, 8);
    assert FirstEligible(ADDED, 6, [8]) == Some(8);
    assert FirstEligible(ADDED, 6, ADDED.order) == Some(8);
    assert ADDED.proxies[8 := BOTH.proxies[8]] == BOTH.proxies;
    assert Reserve(ADDED, 1, false, 6) == (BOTH, Reserved(8));
    CallMoves(Ready, Probing(8, A, 1), [PROBE], [PROBE]);
  }

  lemma FrontMoves()
    ensures Next(TWICE[1].world, TWICE[2].step, 6, TWICE[2].world) && Next(TWICE[2].world, TWICE[3].step, 6, TWICE[3].world)
  {
    hide FrontLedger.Apply;
  }

  lemma Returning()
    ensures Next(TWICE[3].world, TWICE[4].step, 7, TWICE[4].world)
  {
    FrontFacts();
    hide FrontLedger.Apply;
    assert Truthful(FRONT5.history, A, 1, AGAIN_FAILED);
    CallMoves(Probing(8, A, 1), JUDGING_AGAIN, [PROBE], [PROBE]);
  }

  lemma TwoEndpoints()
    ensures [PROBE] + [AGAIN] == HELD && Endpoints(HELD) == [B, A]
  {
    assert HELD[..1] == [PROBE] && [PROBE][..0] == [];
    assert Endpoints([PROBE]) == [B];
    assert !SameEndpoint(B, A);
  }

  lemma Committing()
    ensures Next(TWICE[4].world, TWICE[5].step, 7, TWICE[5].world)
  {
    hide FrontLedger.Apply;
    TwoEndpoints();
    hide Endpoints;
    assert Enqueue([], 1) == [1];
    assert EnqueuePending(BOTH, 1, false) == QUEUED;
    CallMoves(JUDGING_AGAIN, Weighing(false), [PROBE], HELD);
  }

  lemma WeighingUp()
    ensures Next(TWICE[5].world, TWICE[6].step, 7, TWICE[6].world)
    ensures Next(TWICE[6].world, TWICE[7].step, 7, TWICE[7].world)
    ensures Next(TWICE[7].world, TWICE[8].step, 7, TWICE[8].world)
  {
    hide FrontLedger.Apply, RecentEvidence;
    FrontFacts();
    CallMoves(Weighing(false), Choosing, HELD, HELD);
    CallMoves(Choosing, Weighing(true), HELD, HELD);
    CallMoves(Weighing(true), Batching, HELD, HELD);
    assert FirstCandidate(QUEUED, HELD, [7, 8]) == None;
  }

  lemma Tokens()
    ensures Range(HELD) == (Token(0, 1), Token(0, 2))
  {
    assert HELD[..1] == [PROBE] && [PROBE][..0] == [];
    assert Range([PROBE]) == (Token(0, 1), Token(0, 1));
  }

  lemma Opening()
    ensures Next(TWICE[8].world, OPENS.step, 8, OPENS.world)
  {
    hide FrontLedger.Apply, Endpoints, Range;
    TwoEndpoints();
    Tokens();
    CallMoves(Batching, LeaseCall.Phase.Settling, HELD, HELD);
    var call, w, input := CallAt(Batching, HELD), TWICE[8].world, In(8, Success);
    assert w == At(FRONT5, QUEUED, Batching, HELD) && w.calls[0] == call;
    assert Advance(w.front, w.pool, w.calls[0], input) == (OPENS.world.front, QUEUED, CallAt(LeaseCall.Phase.Settling, HELD));
  }

  // ---- The run ----

  lemma TwiceHappens()
    ensures Happens(REST[1].world, 5, TWICE)
  {
    hide Next, FrontLedger.Apply, At;
    Adding();
    Reserving();
    FrontMoves();
    Returning();
    Committing();
    WeighingUp();
    var end := [TWICE[6]] + ([TWICE[7]] + ([TWICE[8]] + []));
    HappensCons(TWICE[7].world, TWICE[8], [], 7);
    HappensCons(TWICE[6].world, TWICE[7], [TWICE[8]] + [], 7);
    HappensCons(TWICE[5].world, TWICE[6], [TWICE[7]] + ([TWICE[8]] + []), 7);
    HappensCons(TWICE[4].world, TWICE[5], end, 7);
    HappensCons(TWICE[3].world, TWICE[4], [TWICE[5]] + end, 6);
    HappensCons(TWICE[2].world, TWICE[3], [TWICE[4]] + ([TWICE[5]] + end), 6);
    HappensCons(TWICE[1].world, TWICE[2], [TWICE[3]] + ([TWICE[4]] + ([TWICE[5]] + end)), 6);
    HappensCons(TWICE[0].world, TWICE[1], [TWICE[2]] + ([TWICE[3]] + ([TWICE[4]] + ([TWICE[5]] + end))), 6);
    HappensCons(REST[1].world, TWICE[0], [TWICE[1]] + ([TWICE[2]] + ([TWICE[3]] + ([TWICE[4]] + ([TWICE[5]] + end)))), 5);
    assert TWICE == [TWICE[0]] + ([TWICE[1]] + ([TWICE[2]] + ([TWICE[3]] + ([TWICE[4]] + ([TWICE[5]] + end)))));
  }

  lemma RunHappens()
    ensures Happens(StartWorld(true, 5), 0, RUN + (REST[..2] + TWICE))
  {
    hide Next, FrontLedger.Apply, StartWorld;
    TwiceHappens();
    Editing();
    EditedRecordCounterexample.Committing();
    HappensCons(REST[0].world, REST[1], TWICE, 4);
    HappensCons(RUN[5].world, REST[0], [REST[1]] + TWICE, 3);
    assert REST[..2] + TWICE == [REST[0]] + ([REST[1]] + TWICE);
    RunLeadsTo(REST[..2] + TWICE);
  }

  /**
   The run happens and its next step, of the lease call, opens the circuit. All that the call holds are two
   probes, and both went to endpoint A.
   */
  lemma OneEndpointOpensCircuit()
    ensures Happens(StartWorld(true, 5), 0, RUN + (REST[..2] + TWICE))
    ensures var w := LastWorld(StartWorld(true, 5), RUN + (REST[..2] + TWICE));
            && Next(w, OPENS.step, OPENS.now, OPENS.world)
            && OPENS.world.front.circuit.generation > w.front.circuit.generation
            && w.calls[0].probes == [PROBE, AGAIN] && SameEndpoint(PROBE.probed, AGAIN.probed)
  {
    hide Next, Happens, FrontLedger.Apply, StartWorld;
    RunHappens();
    Opening();
    FrontFacts();
    assert (RUN + (REST[..2] + TWICE))[|RUN + (REST[..2] + TWICE)| - 1] == TWICE[8];
  }
}
