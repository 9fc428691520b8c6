# sock5gw: verified models of the front circuit and the lease pool

sock5gw hands out SOCKS5 exit proxies to clients. Each client leases one exit; all traffic may have to
pass a shared *front* proxy first. This project models the code that decides who gets which exit, and
whether a failed connection is the exit's fault or the front's, and proves what that code guarantees
over every interleaving of its critical sections.

**Front circuit** (`Front`, `FrontLedger`, `FrontTheorems`, `Connector`, `FrontTimes`, `FrontPath`,
`FrontReports`, `FrontWire`, `Probing`). Connection attempts begin and later complete as a shared
failure, an ambiguous failure, a success or an abandonment, in any order. The connector keeps only a
few fields. A ghost ledger keeps the whole history of resolutions, and `Exact` says that the fields
summarise it; every operation keeps `Exact`, and what tokens, evidence and batches mean is derived from
it. `FrontPath` and `Probing` follow one attempt from admission to the error that the manager sees.
`FrontReports` tells by the hop that failed what is reported, `FrontTimes` by the clock who is let in
and when, and `FrontWire` reads the reports off the bytes that stand on the connection.

**Lease pool** (`Pool`, `PoolTaking`, `PoolReturning`, `PoolSafety`, `PoolLeases`, `PoolConnections`,
`PoolRuns`, `PoolAttachment`, `PoolSweep`, `PoolShape`, `PoolCounterexample`, `OverlapCounterexample`).
`Pool` gives each critical section of the manager as a function on proxies, leases, queues, registered
connections and the tables. `PoolTaking` and `PoolReturning` say in terms of records, leases and the
clock who is given what, and what becomes of each proxy.
`PoolRuns` lets them interleave freely while time moves on. Exclusivity of leases needs no side
condition. Isolation of connections needs one, that no busy proxy without a lease is made idle, and
`RecoverySafety` says that this is exact. `PoolAttachment` replaces it by an order that callers can
keep, and says what overlapping activations for one client break. `PoolSweep` says which leases the
sweep of lapsed leases ends.

**Lease calls, health rounds, everything together** (`Evidence`, `LeaseCall`, `CallSafety`,
`CallShape`, `CallProgress`, `CallReserved`, `CallOutcome`, `Health`, `HealthVerdicts`, `World`,
`WorldProbes`, `EditedRecordCounterexample`, `DoubleCountCounterexample`). A lease call gives up the
lock while it probes, so it is cut into phases. `CallOutcome` says what each end of a probe does to
every proxy of the call, `HealthVerdicts` what a health round tells the counters about each result.
`World` interleaves the front, the pool, any number of lease calls and health rounds, and every other
operation. The results hold for every run of a system that begins to serve (`World.Fresh`), with an
empty pool or after a restart: exits are blamed fairly, the circuit opens only on two witnesses, no
proxy is left stranded in the checking state, leases are exclusive, the tables mirror them, the queues
are first in, first out, and connections are isolated under the one condition. `WorldProbes` adds whose
probes they were.

**The manager object** (`Manager`). The same critical sections as methods that change maps and queues
in place, each proved equal to its function, up to `EnsureLease` and `ProcessQueues` with their loops
and termination. Ghost fields log what lease calls reserved and which results they judged, so that
the contract of `EnsureLease` can say what became of each reserved proxy and why a call has to wait.

**Restart** (`Restart`, `RestartTheorems`). Loading the tables, also after a crash between two database
calls of any step, or of the start itself, and safety over any number of crashes and restarts.

**Smaller parts.** `DynamicGates` (the per-client reference-counted gate), `QueueWorker` (drain worker
and retry timer), `Socks` and `SocksClient` (RFC 1928 and RFC 1929 on the wire), `FakeIp` (the address
allocator), `Addresses`, `Common`.

## Conventions

Clients, proxies and connections are numbers. Time is an integer in nanoseconds; the tables hold whole
seconds. A probe's result, a clock reading and a cancellation are inputs that may be anything, except
that the tokens in a result must be in the front's history for the endpoint that was probed
(`Evidence.Truthful`); `Probing.ProbeExit` and `FrontPath.ReturnedTokensAreIssued` prove that the
connector's own code guarantees this. A connection is unregistered through the proxy that it was given,
as the gateway does (internal/gateway/gateway.go:184).

## Findings

- An unhealthy proxy that recovers before its lapsed lease is released can become idle with open
  connections, and then serve a second client (internal/manager/health.go:446-461).
  `PoolConnections.RecoverySafety` gives the exact condition, and
  `PoolCounterexample.RecoveryBeforeReleaseMixesClients` a run that does it.
- Two activations for one client may overlap when the front is disabled, since the assignment gate is
  then not taken (internal/manager/manager.go:891-902). An activation that is not a refresh then
  overwrites a lease, and open connections lose the lease they depend on.
  `PoolAttachment.OverwriteSafety` says exactly when that is harmless. It makes the recovery above
  harmful even if every lapsed lease is released in time: `OverlapCounterexample.OverlapMixesClients`
  is such a run. Without overlap, releasing first is enough (`PoolAttachment.OrderedRunsAreIsolated`).
- When a probe returns, the code compares evidence with the address on record, not with the one it
  probed (internal/manager/manager.go:951-954). `Evidence.RecordedAddressMatters` and
  `Evidence.CountedTwiceIffEdited` say exactly when that makes a difference.
  `EditedRecordCounterexample.EditedRecordBlamesUnfairly` is a run in which an exit is blamed although the
  only success is through the very endpoint that failed, and
  `DoubleCountCounterexample.OneEndpointOpensCircuit` one in which the circuit opens although both
  witnesses are one endpoint. While nobody edits the address of a proxy that a call is probing, the
  results hold for the probed endpoints (`WorldProbes.LeaseCallsBlameFairly`,
  `WorldProbes.LeaseCallsOpenFairly`). Health rounds compare the probed addresses.
- The sweep of lapsed leases first collects clients and then releases each without looking again
  (internal/manager/manager.go:1955-1971). What it ends is a lapsed lease exactly if the client was given
  no lease in between that still runs (`PoolSweep.SweepEndsOnlyLapsed`);
  `PoolCounterexample.SweepEndsRenewedLease` is a run in which it was.
- A client of a dynamic proxy is told that its lease is active without a look at the clock
  (internal/manager/dynamic.go:335-349). `PoolSweep.AnswerIsSweptIffRunning` says exactly when that is
  what a sweep would leave it, and `PoolCounterexample.LapsedLeaseIsAnswered` is a run in which it is not.
- `FakeIPStore` takes the address as written, not the network's base. Its addresses stay strictly inside
  the network exactly if the two are the same (`FakeIp.InsideIffAligned`).

## Model

| member | source | states |
|---|---|---|
| FrontLedger.RunKeepsExact | internal/outbound/connector.go:566-692 | in every interleaving of attempts, completions and batches the circuit's fields stay the exact summary of the whole history: generation counts shared failures, the sequence is the length, the evidence is the newest success, the circuit is open iff the newest resolution is shared, and the half-open probe is the one unresolved current attempt |
| FrontTheorems.CompletionCounts | internal/outbound/connector.go:584-627 | an attempt's success or failure counts exactly when no shared failure was recorded since it began |
| FrontTheorems.AmbiguousTokenMeaning | internal/outbound/connector.go:629-648 | an attempt gets an ambiguous token exactly when every resolution since it began is ambiguous, and the token is then the newest resolution |
| FrontTheorems.EvidenceIsNewestSuccess | internal/outbound/connector.go:305-315 | recent evidence is the newest success, with no shared failure after it, and is absent exactly when there is no such success |
| FrontTheorems.BatchDecisionExact | internal/outbound/connector.go:654-677 | for issued ambiguous tokens the batch opens the circuit exactly when `last` is the newest resolution and everything from `first` on is ambiguous in the current generation |
| FrontTheorems.BatchAcceptedOnce | internal/outbound/connector.go:654-677 | a pair that opened the circuit never opens it again, whatever happens in between |
| FrontTheorems.OpenCircuitHasOneProbe | internal/outbound/connector.go:566-582 | while open, at most one unresolved attempt of the current generation exists, and it exists exactly when the half-open flag is set |
| FrontTheorems.ClosedStaysClosed | internal/outbound/connector.go:566-692 | within a generation a closed circuit never opens again |
| FrontTheorems.RetryAfterMatchesAdmission | internal/outbound/connector.go:229-246 | the reported wait is positive exactly while an attempt would be refused |
| FrontTheorems.StatusShowsNewestResolution | internal/outbound/connector.go:216-227 | the public status names the newest resolution, or the running half-open probe |
| FrontTheorems.NoiseCanBeDeleted | internal/outbound/connector.go:584-692 | deleting superseded completions from a run changes neither circuit nor history |
| FrontTimes.AdmissionMeaning | internal/outbound/connector.go:566-582 | an attempt is let in exactly if the newest resolution is no shared failure, or its wait is over and nobody probes the front; it carries the count of shared failures and the length of the history |
| FrontTimes.FailureShutsForBackoff | internal/outbound/connector.go:584-601 | a shared failure that counts refuses attempts exactly before its time plus the configured backoff, and reports that wait |
| FrontTimes.BatchShutsForBackoff | internal/outbound/connector.go:654-677 | so does an accepted batch |
| FrontTimes.AbandonedProbeShutsAgain | internal/outbound/connector.go:679-692 | an abandoned probe of an open circuit shuts it again for the backoff without a new failure; any other abandoned attempt changes nothing |
| FrontTimes.ShutMeansShut | internal/outbound/connector.go:566-692 | until then, in any order and number of operations, nobody is let in and nothing older attempts or batches report changes circuit or history |
| FrontTimes.OneProbeAtATime | internal/outbound/connector.go:566-582 | the first attempt after the wait probes the front alone until it is resolved |
| FrontTimes.ResolutionReopens | internal/outbound/connector.go:603-648 | a success or ambiguous failure that counts lets everybody in at once; one that does not changes nothing |
| FrontTimes.ShownErrorNamesHop | internal/outbound/connector.go:694-709 | the public text of a failure tells the hops of the front apart |
| FrontTimes.NeverOpensOn | internal/outbound/connector.go:654-677 | without a configured front nobody waits, nothing is evidence and no batch opens the circuit; a malformed batch never does |
| Connector.Connector.BeginFrontAttempt | internal/outbound/connector.go:566-582 | the fields follow the ledger's step; a refusal changes nothing and comes with a positive wait |
| Connector.Connector.RecordFrontFailure | internal/outbound/connector.go:584-601 | the fields follow the ledger's step and stay exact |
| Connector.Connector.RecordFrontSuccess | internal/outbound/connector.go:603-627 | as the ledger; the success is current exactly when no shared failure came since the start, and its token is then a recorded success of this exit |
| Connector.Connector.RecordFrontAmbiguous | internal/outbound/connector.go:629-648 | as the ledger; a token is given exactly when everything since the start is ambiguous |
| Connector.Connector.RecordAmbiguousBatchFailure | internal/outbound/connector.go:654-677 | as the ledger; returns whether the batch was accepted |
| Connector.Connector.AbandonFrontAttempt | internal/outbound/connector.go:679-692 | as the ledger; the history is untouched |
| FrontPath.ConnectThroughFront | internal/outbound/connector.go:473-564 | reports and result equal the outcome function; `FrontReports` says what that means hop by hop |
| FrontPath.ResolvedExactlyOnce | internal/outbound/connector.go:473-564 | an admitted attempt is resolved exactly once; success is reported exactly when a method reply was read from the exit, and a phase error says so exactly then |
| FrontPath.ScopeNamesReport | internal/outbound/connector.go:122-134 | the error's scope is shared or ambiguous exactly according to the report made to the circuit, and the exit's exactly if success was reported and a phase failed beyond |
| FrontReports.AbandonedIffHungUp | internal/outbound/connector.go:478-562 | an admitted attempt is abandoned exactly if the caller had hung up when its hop failed and the exit had not answered; success is reported exactly if it had; after any other report the caller had not hung up |
| FrontReports.EachReportStandsForItsHop | internal/outbound/connector.go:484-545 | which hop each reported phase stands for, and what the caller is told with it |
| FrontReports.ExitFailuresNameTheExit | internal/outbound/connector.go:536-562 | once the exit answered, the result names its part, authentication, handshake or CONNECT, with the token of the success, or nothing if the caller hung up |
| FrontReports.HangingUpOpensNothing | internal/outbound/connector.go:479-488 | in every state a caller that hangs up opens no circuit |
| FrontReports.FrontProbeMeaning | internal/outbound/connector.go:347-430 | the same for an attempt that goes no further than the front |
| FrontReports.WithoutFrontOnlyExitsFail | internal/outbound/connector.go:319-343 | without a front no failure is held against it |
| FrontPath.ReturnedTokensAreIssued | internal/outbound/connector.go:473-564 | a returned token is in the history for this exit and was issued after the attempt began; established evidence is a recorded success |
| FrontWire.SuccessIffExitAnswered | internal/outbound/connector.go:509-562 | over a connection that takes every write, success is reported exactly if the front was reached, its bytes accept handshake and CONNECT, and a version-5 reply of the exit stands right behind them |
| FrontWire.PastFrontMeaning | internal/outbound/connector.go:509-533 | the front's part succeeds exactly if its bytes are an accepting method choice, password verdict and CONNECT reply, and leaves the exit's bytes standing |
| FrontPath.ConnectFront | internal/outbound/connector.go:347-430 | reports and result of reaching a target through the front alone, by its first failing hop |
| FrontPath.DirectProbeResolvedOnce | internal/outbound/connector.go:347-430 | a front probe is resolved exactly once and never ends ambiguous, established or as an exit failure |
| Probing.ProbeExit | internal/outbound/connector.go:319-343 | whatever other attempts do to the connector between admission and report, connecting through it keeps it exact, only extends its history, and returns truthful tokens: issued for this exit, after the start |
| Evidence.PartitionByEvidence | internal/manager/manager.go:1184-1198 | the loop splits the probes into those the evidence validates and those it does not |
| Evidence.PartitionKeepsAll | internal/manager/manager.go:1184-1198 | no probe is lost, doubled or invented by the split |
| Evidence.UnresolvedStaysIncreasing | internal/manager/manager.go:1184-1198 | the unresolved probes keep the order of their tokens |
| Evidence.EvidenceIsWitnessed | internal/manager/manager.go:1163-1182 | evidence derived from a probe's result is a success the history holds |
| Evidence.ValidatedIsExcused | internal/manager/manager.go:1184-1198 | a validated probe's token is followed by a success of the same generation through another endpoint, with no shared failure between |
| Evidence.RecordedAddressMatters | internal/manager/manager.go:949-956 | everything that may validate a probe, compared with the address on record, is through another endpoint than the probed one exactly if the record names that endpoint, the probe has no token, or it probed no endpoint |
| Evidence.UneditedRecordIsProbed | internal/manager/manager.go:949-956 | with an unedited record the excusing success is through another endpoint than the probed one; `WorldProbes.QuietRunIsHonoured` says when records are unedited |
| Evidence.UneditedWitnessesDiffer | internal/manager/manager.go:1229-1247 | with unedited records two counted endpoints are two different probed endpoints |
| Evidence.CountedTwiceIffEdited | internal/manager/manager.go:1229-1247 | every probe with an unedited record counted beside a given one went to another endpoint exactly if the record of the given one names what it probed, it has no token, or it probed no endpoint |
| Evidence.DistinctEndpoints | internal/manager/manager.go:1229-1247 | the loop's count reaches two exactly if two probes with tokens have different endpoints |
| Evidence.TokenRange | internal/manager/manager.go:1249-1262 | the first and last token in list order, and whether there are any |
| Evidence.RangeSpans | internal/manager/manager.go:1249-1262 | for increasing tokens that range encloses every token, and its ends are tokens of the list |
| Evidence.TwoWitnessRule | internal/manager/manager.go:1133-1138 | a batch that opens the circuit has two probes of different endpoints inside the all-ambiguous end of the history |
| Health.CheckRound | internal/manager/health.go:147-247 | verdicts, in order, and the batch equal the decision functions, the batch with its exact condition; `HealthVerdicts` says what the verdicts mean |
| Health.FindBatch | internal/manager/health.go:199-235 | a batch is found exactly if nothing was skipped, every result is ambiguous with a token of one generation, and two endpoints differ |
| Health.RoundBlamesFairly | internal/manager/health.go:167-198 | a round fails a proxy only for a failure, beyond the front or an ambiguous one of which the history excuses the front |
| HealthVerdicts.DecisionMeaning | internal/manager/health.go:167-247 | exactly the successes yield a passing verdict, exactly the exits' own failures a failing one, the rest none |
| HealthVerdicts.VerdictsAreCounted | internal/manager/health.go:167-247 | a round passes each proxy as often as a probe of it succeeded, and fails it as often as one failed by its own fault |
| HealthVerdicts.HealthyExitsPass | internal/manager/health.go:193-194 | an exit whose probes all succeeded is never failed, and passed as often as it was probed |
| HealthVerdicts.KnownMeaning | internal/manager/health.go:106-126 | a round's evidence is every answer of an exit to its probes, and the connector's newest success |
| HealthVerdicts.RoundOpensIffSuspected | internal/manager/health.go:199-235 | the round's batch opens the circuit exactly if its greatest token is the newest resolution and everything since each of its tokens is ambiguous |
| Health.RoundHasTwoWitnesses | internal/manager/health.go:199-235 | a round that opens the circuit has two different endpoints in the all-ambiguous end of the history |
| Health.RoundComparesProbedEndpoints | internal/manager/health.go:106-126 | the endpoints that a round compares are the ones it probed |
| PoolRuns.LeasesAreExclusive | internal/manager/manager.go:1606-1624 | in every reachable state no two clients hold unexpired leases on one proxy, a proxy being checked has none, and a leased one is not eligible |
| PoolRuns.RunKeepsConns | internal/manager/manager.go:384-456 | unless a busy proxy without a lease is made idle, every run keeps each count equal to the registered connections and each proxy's connections one client's, overlapping activations included |
| PoolRuns.ConnectionsAreIsolated | internal/manager/manager.go:384-456 | from the empty pool, unless a busy proxy without a lease is made idle: exact counts, one client per proxy, and no connections on an idle, checked or disabled proxy |
| PoolAttachment.OverwriteSafety | internal/manager/manager.go:1365-1395 | an activation that is not a refresh leaves every connection through a proxy in service with its owner's lease exactly if none depends on the lease it overwrites |
| PoolAttachment.ReleasedBeforeRecovery | internal/manager/health.go:446-461 | while connections have their leases, a proxy on which every lease is live cannot become idle with connections by recovering |
| PoolAttachment.OrderedRunsAreIsolated | internal/manager/manager.go:384-456 | from the empty pool, if activations for one client do not overlap and lapsed leases are released before recovery: exact counts, one client per proxy, none on a free one, and every connection through a proxy in service backed by its owner's lease |
| PoolAttachment.SerialActivationsAreOrdered | internal/manager/manager.go:891-902 | if no other activation of the client runs between reservation and activation, the activation overwrites no lease |
| OverlapCounterexample.OverlapMixesClients | internal/manager/manager.go:1365-1395 | a possible run from the empty pool with overlapping activations, no lapsed lease when the proxy recovers, and two clients' connections on one proxy in the end |
| PoolConnections.RecoverySafety | internal/manager/health.go:446-461 | a health verdict keeps connections isolated exactly unless it makes a busy proxy without a lease idle |
| PoolCounterexample.RecoveryBeforeReleaseMixesClients | internal/manager/health.go:446-461 | a possible run from the empty pool in which one proxy carries two clients' connections |
| PoolCounterexample.SweepEndsRenewedLease | internal/manager/manager.go:1955-1971 | a possible run in which a client collected by the sweep has renewed its lease, and the sweep ends the unexpired one |
| PoolSweep.SweepEndsOnlyLapsed | internal/manager/manager.go:1955-1971 | for a client collected with a lapsed lease and any events until its release: the release ends a lapsed lease or none exactly if no activation for it took effect in between whose lease still runs and stands |
| PoolSweep.EachTurnEndsOnlyLapsed | internal/manager/manager.go:1965-1970 | the same for every turn of a whole sweep, whatever happens before each of its releases |
| PoolSweep.AnswerIsSweptIffRunning | internal/manager/dynamic.go:335-349 | an answer after a sweep never is a lapsed lease, and the answer without one agrees exactly if the lease has not lapsed |
| PoolSweep.CurrentMeaning | internal/manager/dynamic.go:335-349 | blocked exactly without a lease, pending exactly while waiting for another proxy, with the lease it has |
| PoolCounterexample.LapsedLeaseIsAnswered | internal/manager/dynamic.go:335-349 | a possible run after which a lapsed lease on a dynamic proxy is answered as active |
| PoolTaking.ReserveMeaning | internal/manager/manager.go:1323-1344 | a client that does not ask for another proxy and whose lease has not lapsed is told it; any other gets the first free proxy in order, which alone changes, or joins the right queue at its end if none is free |
| PoolTaking.ServedIsTakenOut | internal/manager/manager.go:1516-1533 | the client served is the one taken out, head of the new queue or, if that is empty, of the refreshes; somebody is served exactly if somebody waits and a proxy is free |
| PoolTaking.ConnectsIffServed | internal/manager/manager.go:384-408 | a connection is let through exactly if the client's own lease has not lapsed and its proxy serves this client, then through that proxy, and is new; a refusal changes nothing |
| PoolTaking.UnregisterMeaning | internal/manager/manager.go:418-456 | one connection is forgotten and its proxy counts one less; with the last one a dynamic proxy without running lease goes and a draining one is free or disabled |
| PoolReturning.RestoreAllGivesBack | internal/manager/manager.go:1264-1278 | each listed proxy still checked for the client is idle, or disabled exactly if it is to be, with unchanged counters; no other changes |
| PoolReturning.GivenBackIsUsable | internal/manager/manager.go:1606-1614 | a proxy given back can be taken again as soon as no lease on it runs |
| PoolReturning.BlameAllHoldsAgainst | internal/manager/manager.go:1289-1303 | each listed proxy still checked for the client is out of service with one more failure, unless disabled; no other changes |
| PoolReturning.ReleaseRemovesExactly | internal/manager/manager.go:1535-1571 | a release removes, from memory, order and tables, exactly the provider's proxies without connections on which no remaining lease runs; it lets go of the leased proxy, unless another lease on it runs, and of those draining for the client |
| PoolReturning.ReleaseSparesOthers | internal/manager/manager.go:1553-1560 | the other clients keep their leases, and a proxy on which one runs stays |
| PoolReturning.ActivateMeaning | internal/manager/manager.go:1365-1395 | activation takes effect exactly on a proxy still checked for the client and enabled: it serves the client with a clean record under the new lease; on a refresh the old proxy drains or idles; nothing else changes |
| PoolReturning.DynamicMeaning | internal/manager/dynamic.go:159-235 | a dynamic proxy is installed exactly if name and endpoint are new, in memory, order and tables until its term |
| PoolReturning.DynamicLeavesBehind | internal/manager/dynamic.go:180-205 | the proxy left behind goes if it is the provider's and not busy, else drains or idles; the others are untouched |
| PoolReturning.VerdictMeaning | internal/manager/health.go:256-288 | which counter moves, from which threshold a proxy is unhealthy or back, and to whom it comes back |
| PoolReturning.AddMeaning | internal/manager/manager.go:508-560 | a new proxy is free to take unless disabled, in sorted order, and saved |
| PoolReturning.UpdateMeaning | internal/manager/manager.go:802-836 | address and flag are replaced; saving a disabled proxy as disabled leaves it idle, but not free to take |
| PoolReturning.SwitchingBack | internal/manager/manager.go:838-860 | disabling and enabling again gives back the same proxy; a busy one keeps its status |
| PoolReturning.DeleteMeaning | internal/manager/manager.go:862-878 | a proxy goes, with its rows, exactly if it is not serving, checked, draining or connected |
| PoolLeases.ActivateKeepsLeases | internal/manager/manager.go:1365-1395 | activation after the lock was dropped keeps leases exclusive, whatever ran in between |
| PoolLeases.DynamicKeepsLeases | internal/manager/dynamic.go:159-235 | activating a dynamic proxy keeps leases exclusive |
| PoolConnections.ReleaseKeepsConns | internal/manager/manager.go:1535-1604 | a release keeps counts and isolation: a proxy with connections drains and is not freed |
| PoolConnections.UnregisterKeepsConns | internal/manager/manager.go:418-456 | unregistering keeps counts and isolation; a drained proxy is freed with its last connection |
| PoolShape.QueuesStayFifo | internal/manager/manager.go:1902-1940 | in every step both queues stay free of duplicates, keep their order, and gain at most one client at the end |
| PoolShape.RunKeepsShape | internal/manager/manager.go:1535-1571 | over every run of the pool's own steps the order lists exactly the proxies, the queues stay distinct, and the tables mirror the leases with times cut to seconds |
| LeaseCall.FirstCandidate | internal/manager/manager.go:1200-1218 | the first proxy in use through another endpoint than every held probe's, or none if there is none |
| CallSafety.AdvanceHolds | internal/manager/manager.go:911-981 | in every phase of a lease call, a proxy still being checked is either still held by the call or was never its own |
| CallSafety.AdvanceOk | internal/manager/manager.go:911-981 | the tokens a call holds stay recorded ambiguous failures of the endpoints it probed, in order, and what it is about to blame stays excused |
| CallSafety.AdvanceBlamesFairly | internal/manager/manager.go:966-975 | a step of a call raises a failure count only after its own probe failed beyond the front, or ambiguously, recorded for the endpoint probed, with the front excused |
| CallShape.AdvanceKeepsShape | internal/manager/manager.go:911-981 | every phase of a lease call, whole commits included, keeps order, tables and distinct queues, and each queue gains at most one client at its end |
| CallSafety.BatchHasTwoWitnesses | internal/manager/manager.go:1133-1138 | a call that opens the circuit has two endpoints in the all-ambiguous end of the history |
| CallOutcome.InnocentAreGivenBack | internal/manager/manager.go:936-948 | after a cancellation or a front failure every proxy the call checks is given back with nothing held against it, no other changes, and only a front failure queues the client |
| CallOutcome.UnwantedAreLeft | internal/manager/manager.go:922-935 | a proxy taken away meanwhile is left alone, a disabled one parked, and the call goes on |
| CallOutcome.AmbiguousAreHeld | internal/manager/manager.go:949-964 | an ambiguous failure is held; the call stops, and queues its client, exactly once two endpoints are held |
| CallOutcome.GuiltyAreHeldAgainst | internal/manager/manager.go:966-974 | a failure beyond the front is held against its proxy, and against exactly the held ones that its evidence settles; the others stay held |
| CallOutcome.SuccessSettlesAll | internal/manager/manager.go:966-979 | a success gives the proxy to the client; of the held ones, those the evidence settles are failed and the others given back |
| CallOutcome.EvidenceMeaning | internal/manager/manager.go:1163-1182 | which evidence the end of a probe brings |
| CallOutcome.RecentSettlesIffExcused | internal/manager/manager.go:1184-1198 | the newest evidence settles a recorded probe exactly if the success behind it excuses the front |
| CallOutcome.WeighingMeaning | internal/manager/manager.go:1148-1161 | what the newest evidence settles is convicted, and only that; otherwise the call goes on to the next stage |
| CallOutcome.ConvictionMeaning | internal/manager/manager.go:1289-1303 | a conviction fails exactly the convicted proxies still checked |
| CallOutcome.SettlementMeaning | internal/manager/manager.go:1140-1146 | settling gives back exactly the held proxies still checked |
| CallOutcome.GivingUpMeaning | internal/manager/manager.go:1057-1064 | a cancelled call gives back what it checks and leaves its client queued only where it was before |
| CallOutcome.CrossingMeaning | internal/manager/manager.go:1080-1118 | what each result of a probe of a proxy in use does to the held ones |
| CallOutcome.CandidateMeaning | internal/manager/manager.go:1200-1218 | the call probes the first enabled proxy in use that is not held and through another endpoint than every held one, at its address on record, or goes on without one |
| CallOutcome.BatchOpensIffSuspected | internal/manager/manager.go:1133-1138 | the call's batch opens the circuit exactly if two endpoints are held, one of their failures is the newest resolution, and everything since each is ambiguous |
| World.RunKeepsSound | internal/manager/manager.go:887-981 | over every interleaving of everything, the front is exact, leases exclusive, tables and queues in shape, checked proxies held, tokens issued and verdicts fair |
| World.StartIsFresh | internal/manager/manager.go:207-310 | the empty pool with a new front is a system that begins to serve |
| World.ExitsAreBlamedFairly | internal/manager/manager.go:1289-1303 | in every run a failure count rises only with one of the two justifications, the failure being recorded for the endpoint that was probed, or by a fair verdict of a health round |
| WorldProbes.ProbesAreOwn | internal/manager/manager.go:911-981 | in every run each probe a call holds is one that it began itself, of that proxy, at the address then on record, before the token was issued |
| WorldProbes.QuietRunIsHonoured | internal/manager/manager.go:949-956 | if nobody edits a proxy's address while a call probes it, the call judges that proxy's probes by the endpoint they went to |
| WorldProbes.LeaseCallsBlameFairly | internal/manager/manager.go:966-975 | in every run a call that blames a proxy without a failure beyond the front holds its own probe of it, recorded as ambiguous and excused against the address on record; against the probed endpoint, if nobody edited the address during a probe |
| WorldProbes.LeaseCallsOpenFairly | internal/manager/manager.go:1133-1138 | in every run without such edits a call that opens the circuit itself probed two different endpoints within the all-ambiguous end of the history |
| EditedRecordCounterexample.EditedRecordBlamesUnfairly | internal/manager/manager.go:949-956 | a run from the start whose next step blames a proxy although every success in the history is through the endpoint that was probed |
| DoubleCountCounterexample.OneEndpointOpensCircuit | internal/manager/manager.go:949-956 | a run from the start whose next step opens the circuit although both probes behind the batch went to one endpoint |
| World.CircuitOpensFairly | internal/outbound/connector.go:584-677 | in every run the circuit opens only when an unresolved attempt of the current generation fails on the front, or by a batch with two witnesses |
| World.NoProxyIsStranded | internal/manager/manager.go:887-1014 | in every run a checked proxy has no unexpired lease and is held by an unfinished call of its client |
| World.LeasesStayExclusive | internal/manager/manager.go:1323-1344 | exclusivity with lease calls and health rounds in flight |
| World.TablesMirrorLeases | internal/manager/manager.go:1535-1571 | with lease calls in flight: the order lists exactly the proxies, nobody is queued twice in a queue, and the tables hold exactly the leases, cut to the second, and each proxy's rows |
| World.QueuesAreFifo | internal/manager/manager.go:1902-1940 | with lease calls in flight, each step keeps the order of both queues and adds at most one client, at the end |
| World.ConnectionsStayIsolated | internal/manager/manager.go:384-456 | conservation and isolation with lease calls and health rounds in flight, unless a busy proxy without a lease is made idle |
| Manager.Manager.ReleaseLocked | internal/manager/manager.go:1535-1571 | the loops over the order release and purge exactly what the pool's function says, in memory and on disk |
| Manager.Manager.ExpireLeases | internal/manager/manager.go:1955-1971 | whatever happens while the lock is free, the whole sweep is a run of the pool that releases exactly the clients lapsed when collected, each once and not before; if nothing happens, exactly the lapsed leases are gone afterwards |
| Manager.Manager.Perform | internal/manager/manager.go:384-878 | the object makes every step of the pool by its own method, except a passed health verdict |
| Manager.Manager.TakeIdleProxy | internal/manager/manager.go:1606-1614 | the first eligible proxy in order, or none if none is eligible |
| Manager.Manager.ReserveProxyForLease | internal/manager/manager.go:1323-1344 | sweeps the client's lapsed lease, answers with its lease, reserves the first eligible proxy, or queues the client |
| Manager.Manager.CommitProbe | internal/manager/manager.go:921-979 | what a probe's result does under the lock equals the commit function, case by case |
| Manager.Manager.RestoreAmbiguousProbes | internal/manager/manager.go:1264-1278 | gives back exactly the listed proxies that are still being checked for the client |
| Manager.Manager.MarkAmbiguousProbesFailed | internal/manager/manager.go:1289-1303 | blames exactly the listed proxies that are still being checked for the client |
| Manager.Manager.ActivateCheckedProxy | internal/manager/manager.go:1365-1395 | the new lease in memory and on disk, the old proxy drained or idle, the client out of both queues |
| Manager.Manager.ResolveAmbiguousLeaseBatch | internal/manager/manager.go:1057-1146 | settles a batch as the composition of its stages, whatever the surroundings answer |
| Manager.Manager.FinishBatch | internal/manager/manager.go:1120-1146 | the second look at the evidence; the circuit is asked only with two witnesses |
| Manager.Manager.FrontBackoffAssignment | internal/manager/manager.go:1016-1041 | while the front asks to wait, a running lease is answered unchanged; a client that wants another proxy keeps it and joins the refreshes; any other joins the new clients |
| Manager.Manager.TryProxies | internal/manager/manager.go:909-981 | the retry loop terminates; a live one ends with the lease, with trouble on the front, or with no proxy free; a new lease is for the last reserved proxy, whose probe succeeded; every reserved proxy is at rest or still held |
| Manager.Manager.EnsureLease | internal/manager/manager.go:887-981 | terminates; a live call ends with its lease, or queued because the front asks to wait, a probe had trouble with the front or no proxy is free; a cancelled one queues nobody, and tries nothing if cancelled before; a new lease is for the proxy reserved last, whose probe succeeded; whatever is still checked was before, and every other reserved proxy ends active, idle, unhealthy or disabled |
| Manager.Manager.ProcessQueues | internal/manager/manager.go:1503-1514 | a pass terminates, since every round that goes on shortens the queues; it ends when nobody waits, no proxy is free, or a served client got no lease, every earlier one having got its; whatever is still checked was checked before for the same client |
| Manager.Manager.NextQueuedClient | internal/manager/manager.go:1516-1533 | the head of the queue of new clients, then of refreshes, if a proxy is free |
| Manager.Manager.AcquireProxyConn | internal/manager/manager.go:384-408 | a connection is registered and counted exactly through the client's own active, unexpired lease |
| Manager.Manager.UnregisterProxyConn | internal/manager/manager.go:418-456 | the count falls, a drained proxy is freed, and a dynamic one without lease is dropped and named for erasure |
| Manager.Manager.RecordHealthVerdict | internal/manager/health.go:256-288 | counters, thresholds and the recovered status as the pool's function says |
| Manager.Manager.ActivateDynamicProxy | internal/manager/dynamic.go:159-235 | refuses a taken address; otherwise the old proxy is drained, dropped or idle and the new one leased, in memory and on disk |
| Manager.Manager.LeaseDynamic | internal/manager/dynamic.go:88-157 | a refusal changes nothing and names its cause; success, exactly if nothing stands in the way, means the new proxy until the requested end, or the unchanged lease with the same terms |
| Manager.Manager.InsertProxy | internal/manager/manager.go:508-560 | a new proxy is idle or disabled, in memory, order and table |
| Manager.Manager.ChangeProxy | internal/manager/manager.go:802-836 | the record, its status and its row change together |
| Manager.Manager.SwitchProxy | internal/manager/manager.go:838-860 | disabling takes an idle proxy out, enabling puts a disabled one back |
| Manager.Manager.RemoveProxy | internal/manager/manager.go:862-878 | only a proxy that is not in use is removed |
| CallProgress.ReserveSpends | internal/manager/manager.go:1323-1344 | every reservation spends a spare proxy, or first sweeps away the client's own lapsed lease |
| CallProgress.ResolveSettles | internal/manager/manager.go:1057-1146 | settling always ends the call with everything given back; the queues stay, or what the call queued is taken back |
| CallProgress.RoundEnds | internal/manager/manager.go:921-981 | a round of the loop frees nothing and goes on, or ends with the promised answer and queues |
| CallReserved.ReserveLogs | internal/manager/manager.go:1323-1344 | a reservation takes a pool proxy without connections, if idle proxies had none before |
| CallReserved.CommitLogs | internal/manager/manager.go:921-981 | judging a result leaves every proxy that the call reserved without connections, and at rest or still checked for it |
| CallReserved.ResolveLogs | internal/manager/manager.go:1057-1146 | so does settling the batch |
| CallReserved.CommitExplained | internal/manager/manager.go:921-981 | judging a result goes on, or ends with a lease for the proxy whose probe succeeded, or pending after trouble with the front |
| CallReserved.AnswerExplained | internal/manager/manager.go:1323-1344 | an answer without a probe is the lease from the start, or comes when no proxy is free |
| Restart.New | internal/manager/manager.go:207-310 | fails exactly on an address conflict with the front; otherwise memory and tables are exactly what the rows call for; its calls to the database lead one by one from the stored tables to those it leaves, each of them tables that a cut-short start may leave |
| RestartTheorems.RestoredExactly | internal/manager/manager.go:270-301 | a lease comes back exactly if its row and its proxy's row are kept and no term has ended, and never longer than before |
| RestartTheorems.ProxiesReturnIfSaved | internal/manager/manager.go:226-309 | a pool proxy comes back exactly if its row is there, a dynamic one exactly if its term and a lease on it run |
| RestartTheorems.ProxiesReturnAsSaved | internal/manager/manager.go:226-301 | as its row says, with a clean record: in service for a client whose lease came back, otherwise free, or disabled |
| RestartTheorems.ConfiguredAreSaved | internal/manager/manager.go:207-225 | configured proxies are saved and enabled under the last address given; other rows are kept |
| RestartTheorems.NoOrphanDynamics | internal/manager/manager.go:302-309 | every dynamic proxy left in memory or on disk has an unexpired lease |
| RestartTheorems.RestoredIsSafe | internal/manager/manager.go:207-310 | a restart from good tables satisfies every invariant of a running pool |
| RestartTheorems.TornRowsOk | internal/store/store.go:117-131 | whatever a crash between the database calls of any step of the whole system leaves, the tables are good |
| RestartTheorems.StartLeavesGoodRows | internal/manager/manager.go:207-310 | so is whatever a start leaves that stops or fails in the middle |
| RestartTheorems.RestartGrantsNothingNew | internal/manager/manager.go:270-301 | each lease after a crash was held, on the same proxy and at least as long, before or after the interrupted step |
| RestartTheorems.UntouchedLeaseSurvives | internal/store/store.go:251-287 | a lease that the interrupted step did not touch comes back, cut to the second, if that is not over |
| RestartTheorems.SafeAcrossRestarts | internal/manager/manager.go:207-310 | over any number of runs of the whole system, each cut short in the middle of a step or already while starting: every life opens as a system that begins to serve, every invariant holds when it is cut short, connections are isolated unless a busy proxy without a lease is made idle, and the tables stay good |
| RestartTheorems.OpeningIsFresh | internal/manager/manager.go:207-310 | a start from good tables opens as a system that begins to serve, so that the results about blame, probes, circuit and isolation hold after it |
| DynamicGates.RunKeepsSound | internal/manager/dynamic.go:380-408 | over any interleaving refs equals waiters plus holder, and at most one caller holds each gate |
| DynamicGates.OneHolderPerClient | internal/manager/dynamic.go:380-408 | callers have the same gate exactly if they have the same client, at most one of a client's callers holds it, and the entry exists exactly while one is registered |
| DynamicGates.GateTable.Register | internal/manager/dynamic.go:380-388 | a caller joins the client's gate, or a new one |
| DynamicGates.GateTable.ReleaseRef | internal/manager/dynamic.go:390-397 | the last reference removes the entry |
| QueueWorker.RunKeepsSound | internal/manager/manager.go:1408-1470 | at most one worker exists, and never beside a set timer, over all interleavings |
| QueueWorker.StartsExactlyWhen | internal/manager/manager.go:1408-1437 | asked while somebody waits for a free proxy, and not stopped, beside a worker or a set timer, a worker starts, or, if the front asks to wait, a fresh timer is set; otherwise nothing happens |
| QueueWorker.EndsExactlyWhen | internal/manager/manager.go:1439-1486 | only a worker's end lowers the count, and only the set timer's callback, cancelling and stopping take it down |
| QueueWorker.RevokedCallbackIsInert | internal/manager/manager.go:1439-1458 | a callback still on its way when its timer is cancelled, superseded or stopped changes nothing whenever it fires, whatever ran in between |
| QueueWorker.NothingStartsAfterStop | internal/manager/manager.go:1479-1486 | after stop no worker starts and no timer is set |
| QueueWorker.QueueRunner.ProcessQueueAsync | internal/manager/manager.go:1408-1437 | a worker starts only if none runs, nothing is stopped, and no timer is set |
| QueueWorker.QueueRunner.TimerFired | internal/manager/manager.go:1444-1457 | only the callback of the set timer acts |
| Socks.SessionRoundTrip | internal/outbound/socks5.go:50-145 | decoding the emitted greeting, authentication and request recovers methods, credentials, address and port |
| Socks.AuthenticationRoundTrip | internal/outbound/socks5.go:87-97 | decoding the authentication recovers name and password, empty ones included |
| Socks.RequestRoundTrip | internal/outbound/socks5.go:109-145 | decoding the CONNECT request recovers the target of every address type |
| Socks.ShortWritesDeliver | internal/outbound/socks5.go:243-258 | short writes that make progress deliver every byte |
| Socks.Wire.WriteFull | internal/outbound/socks5.go:243-258 | the loop writes the remaining slice until all is sent in order or a write fails |
| SocksClient.HandshakeWithMethodSelection | internal/outbound/socks5.go:50-85 | what the handshake sends and reads, and at which stage it fails |
| SocksClient.MethodReplyMeaning | internal/outbound/socks5.go:50-85 | the method-selection callback runs exactly when a version-5 reply to the greeting was read |
| SocksClient.FailingStageMeaning | internal/outbound/socks5.go:50-107 | a handshake fails over the credentials exactly if they are too long or the peer turned them down after choosing a method; before that as a handshake |
| SocksClient.HandshakeConsumesItsOwn | internal/outbound/socks5.go:50-107 | a successful handshake reads exactly its own bytes |
| SocksClient.ReplyMeaning | internal/outbound/socks5.go:145-177 | a reply is accepted exactly if it decodes with code zero, and consumes exactly its own bytes |
| SocksClient.ConnectMeaning | internal/outbound/socks5.go:109-177 | CONNECT succeeds exactly if the request was sent and an accepting reply read |
| FakeIp.InsideIffAligned | internal/manager/fakeip.go:21-63 | every address lies strictly between network and broadcast exactly if the address given is the network's base |
| FakeIp.FakeIpStore.Get | internal/manager/fakeip.go:45-63 | a known name keeps its address, a new one takes the next slot, also after wrap-around |
| FakeIp.AddressRoundTrip | internal/manager/fakeip.go:45-74 | an address's name leads back to that address, also after wrap-around |
| FakeIp.NameRoundTripIffRecent | internal/manager/fakeip.go:45-74 | looking up a name's address yields the name exactly if no later name took its slot and the address lies in the network, as it does strictly on every aligned CIDR |
| FakeIp.FirstNamesAreInjective | internal/manager/fakeip.go:45-74 | until the slots are used up, different names have different addresses, and on an aligned CIDR looking an address up yields its name |
| Addresses.SameEndpointIsPartialEquivalence | internal/manager/manager.go:1885-1900 | endpoint equality is symmetric and transitive, and reflexive exactly on well-formed addresses |
| Addresses.SameEndpointMeaning | internal/manager/manager.go:1885-1900 | both must name host and port; ports and hosts must agree |
| Addresses.NormalizedAlike | internal/manager/manager.go:1885-1900 | names are taken for the same exactly if they differ in nothing but ASCII case and one trailing dot |
| Common.RemoveInPlace | internal/manager/manager.go:1932-1940 | the in-place filter removes every occurrence and keeps the rest in order |

## Left out

- Generation and sequence counters are unbounded; wrap-around of 64-bit counters is not modelled.
- A replaced connector (a changed front configuration): every result about tokens is for one connector.
- Dialing, DNS, TLS and reading the exit address: a probe is an arbitrary outcome with truthful tokens.
- A lease's status field, which is always active, and its country, duration and mode, which do not decide who gets what; whether a dynamic request matches the current terms is an input.
- Pointers to proxies, leases and gates: they are values in maps, so aliasing is not modelled; a call that keeps using a pointer after other probes were settled is modelled by `LeaseCall.Recheck`.
- Host names and IP literals as text: an address is already split into host and port, an IP literal has one canonical number, and a port is a number or missing.
- The order in which Go iterates over maps is arbitrary in the methods; creation times that order the proxy rows are not kept.
- Failed database writes: every call to the database is one atomic change, and a crash falls between calls.
- A proxy name used again before its deletion has reached the disk, and generated names that repeat.
- Waking the queue after a proxy becomes free, and putting the queue off for a moment after an unsettled batch: the code does not wake it everywhere (expired leases), and no liveness is claimed.
- The assignment gate itself: that activations of a client do not overlap is a condition of `PoolAttachment.OrderedRunsAreIsolated` only; all other results allow overlap.
- The gathering part of a health round (workers, preflight, cancellation): a round's results arrive one by one in any order, or the round is dropped.
- Manager.Manager.EnsureLease: while it probes, other proxies may fail or be disabled, but steps that free proxies for it are excluded, since the code does not terminate under arbitrary interference; `World` covers every interference without termination. That reserved proxies end at rest supposes that no overlapping call already had them checked, and that idle proxies have no connections when it starts, which `World.ConnectionsStayIsolated` provides.
- Manager.Manager.EnsureLease: the connector's attempts that were unresolved before a probe begins stay so until it ends; `Probing.ProbeExit` itself lets them end meanwhile.
- Manager.Manager.ExpireLeases: while the lock is free, every step of the pool but a passed health verdict may happen; `PoolSweep` covers that one as well.
- CallOutcome.GuiltyAreHeldAgainst: for a proxy whose probe is not at the same time held from before, which takes another call of its client; so do CallOutcome.SuccessSettlesAll, which also leaves the proxy of the old lease out of the held ones.
- Restart.New: the rows are listed once, and the two clock readings stand for the several that the code makes.
- SocksClient.HandshakeWithMethodSelection: deadlines and cancellation while bytes are in transit.
- Manager.Manager.InsertProxy: the checks that an identifier is given, the address splits, and it is not the front's (internal/manager/manager.go:509-522) come before; so they do for Manager.ChangeProxy.
- Normalising a dynamic request's country and duration: a request arrives in normal form.
- Configuration, routing, the HTTP interface, the provider's interface, gateway relay, DNS server and scripts.
