/**
 What each end of a probe does to the proxies of a lease call, proxy by proxy: which are given back, which
 are held against, which one serves the client; and when the call's batch opens the circuit.
 */
module CallOutcome {
  import opened Common
  import opened Addresses
  import opened Front
  import opened FrontLedger
  import opened FrontTheorems
  import opened FrontPath
  import opened Evidence
  import opened Pool
  import opened PoolTaking
  import opened PoolReturning
  import opened LeaseCall
  import opened CallSafety

  // ---- Which probes a piece of evidence settles ----

  /** The evidence is newer than the probe's token, of its generation, and through another endpoint. */
  predicate SettledBy(e: Option<Front.Evidence>, p: Probe) {
    && e.Some? && p.token.sequence != 0 && e.value.generation == p.token.generation
    && p.token.sequence < e.value.sequence && !SameEndpoint(e.value.exit, p.address)
  }

  lemma PartedMeaning(probes: seq<Probe>, e: Option<Front.Evidence>)
    ensures var (rest, validated) := Parted(probes, e);
            && (forall p :: p in rest <==> p in probes && !SettledBy(e, p))
            && (forall p :: p in validated <==> p in probes && SettledBy(e, p))
  {
  }

  /**
   The evidence that a probe's end brings: of a failure after the exit had answered, that answer; of a
   success, the connector's newest evidence if it is of this endpoint; of anything else, none.
   */
  lemma EvidenceMeaning(c: Circuit, exit: Address, r: Result, e: Front.Evidence)
    ensures EvidenceFor(c, exit, r) == Some(e) <==>
              if r.Success? then
                && e == c.recentEvidence && c.enabled && e.sequence != 0 && e.generation == c.generation
                && SameEndpoint(e.exit, exit)
              else
                && r.failure.InPhase? && r.failure.established && r.failure.token.sequence != 0
                && e == Front.Evidence.Evidence(exit, r.failure.token.generation, r.failure.token.sequence, 0)
  {
  }

  /**
   The connector's newest evidence settles a recorded probe exactly if the success behind it excuses the
   front: it came later, through another endpoint, with no shared failure in between.
   */
  lemma RecentSettlesIffExcused(l: Ledger, p: Probe)
    requires Exact(l) && RecentEvidence(l.circuit).Some? && p.token.sequence != 0 && Recorded(l.history, p)
    ensures var e := RecentEvidence(l.circuit).value;
            && 1 <= e.sequence <= |l.history|
            && (SettledBy(Some(e), p) <==>
                  && p.token.sequence < e.sequence && !SameEndpoint(l.history[e.sequence - 1].exit, p.address)
                  && NoneOf(l.history, SharedFailure, p.token.sequence, e.sequence))
  {
    hide SharedCount;
    var h, e := l.history, RecentEvidence(l.circuit).value;
    var k := p.token.sequence - 1;
    assert NumberedAt(h, k) && NumberedAt(h, e.sequence - 1);
    if k < e.sequence - 1 {
      CountSplits(h[..e.sequence - 1], k);
      assert h[..e.sequence - 1][..k] == h[..k];
    }
  }

  // ---- The end of a probe ----

  /** The call checks `id`: it is the proxy just probed, or a probe of it is held. */
  predicate Checks(s: State, call: Call, id: ProxyId)
    requires call.phase.Judging?
  {
    id in s.proxies && BeingChecked(s.proxies[id], call.client) && (id == call.phase.id || id in Ids(call.probes))
  }

  /** The probe's proxy is still checked for the call, and nobody disabled it. */
  predicate StillWanted(s: State, call: Call)
    requires call.phase.Judging?
  {
    var id := call.phase.id;
    id in s.proxies && BeingChecked(s.proxies[id], call.client) && !s.proxies[id].disabled
  }

  /**
   A cancelled call, and one whose probe failed on the front, gives back every proxy it checks with nothing
   held against it, and touches no other. It ends pending; only the second kind queues the client.
   */
  lemma InnocentAreGivenBack(s: State, call: Call, cancelled: bool, expires: Time, id: ProxyId)
    requires call.phase.Judging? && StillWanted(s, call) && id in s.proxies
    requires cancelled || FailureScopeOf(call.phase.result) == SharedScope
    ensures var (after, next) := Commit(s, call, cancelled, expires);
            && after == s.(proxies := after.proxies, pendingNew := after.pendingNew, pendingRefs := after.pendingRefs)
            && after.proxies.Keys == s.proxies.Keys
            && (if Checks(s, call, id) then GivenBack(s.proxies[id], after.proxies[id]) else after.proxies[id] == s.proxies[id])
            && (if cancelled then after.pendingNew == s.pendingNew && after.pendingRefs == s.pendingRefs
                else WaitsInQueue(s, after, call.client, call.refresh))
            && next.phase.Finished? && next.probes == []
            && next.answer == Assignment(LeasePending, if call.refresh then LeaseOf(s, call.client) else None)
  {
    hide RestoreAll, BlameAll, CommitVerdict, Endpoints;
    var (mine, c) := (call.phase.id, call.client);
    var given := Restore(s, mine, c);
    RestoreAllAt(given, call.probes, c, id);
    RestoreAllAt(EnqueuePending(given, c, call.refresh), call.probes, c, id);
  }

  /** A proxy that another step took away in the meantime is left alone; one that was disabled is parked. */
  lemma UnwantedAreLeft(s: State, call: Call, cancelled: bool, expires: Time)
    requires call.phase.Judging? && !StillWanted(s, call)
    ensures var (after, next) := Commit(s, call, cancelled, expires);
            var id := call.phase.id;
            && next == call.(phase := Ready) && after == s.(proxies := after.proxies)
            && after.proxies.Keys == s.proxies.Keys
            && forall other :: other in s.proxies ==>
                 if other == id && BeingChecked(s.proxies[id], call.client) then GivenBack(s.proxies[id], after.proxies[id])
                 else after.proxies[other] == s.proxies[other]
  {
    hide RestoreAll, BlameAll, CommitVerdict, Endpoints;
  }

  /**
   An ambiguous failure is held, under the address on record and the one that was probed. The call goes on,
   or, exactly if its held failures are of two endpoints, stops to settle them and queues its client.
   */
  lemma AmbiguousAreHeld(s: State, call: Call, expires: Time)
    requires call.phase.Judging? && StillWanted(s, call) && FailureScopeOf(call.phase.result) == AmbiguousScope
    ensures var (after, next) := Commit(s, call, false, expires);
            var probe := Probe(call.phase.id, s.proxies[call.phase.id].address, call.phase.address,
                               TokenOr(AmbiguousFailureToken(call.phase.result)));
            && next.probes == call.probes + [probe] && next == call.(phase := next.phase, probes := next.probes, answer := next.answer)
            && (next.phase == Weighing(false) <==> TwoWitnesses(next.probes)) && (next.phase.Ready? <==> !TwoWitnesses(next.probes))
            && if next.phase.Ready? then after == s && next.answer == call.answer
               else && after == s.(pendingNew := after.pendingNew, pendingRefs := after.pendingRefs)
                    && WaitsInQueue(s, after, call.client, call.refresh)
                    && next.answer == Assignment(LeasePending, if call.refresh then LeaseOf(s, call.client) else None)
  {
    hide Endpoints, TwoWitnesses, CommitVerdict, RestoreAll;
    TwoWitnessesCounted(call.probes + [Probe(call.phase.id, s.proxies[call.phase.id].address, call.phase.address,
                                             TokenOr(AmbiguousFailureToken(call.phase.result)))]);
  }

  /**
   A failure beyond the front is held against the proxy, and the evidence that comes with it against the
   proxies of the held probes that it settles. The others stay held, and the call goes on.
   */
  lemma GuiltyAreHeldAgainst(s: State, call: Call, expires: Time, id: ProxyId)
    requires call.phase.Judging? && StillWanted(s, call) && id in s.proxies
    requires call.phase.result.Failed? && !IsFrontFailure(call.phase.result)
    requires call.phase.id !in Ids(call.probes)
    ensures var (after, next) := Commit(s, call, false, expires);
            && next == call.(phase := Ready, probes := next.probes)
            && (forall p :: p in next.probes <==> p in call.probes && !SettledBy(call.phase.evidence, p))
            && after == s.(proxies := after.proxies) && after.proxies.Keys == s.proxies.Keys
            && if Checks(s, call, id)
                  && (id == call.phase.id || exists p :: p in call.probes && p.proxyId == id && SettledBy(call.phase.evidence, p))
               then HeldAgainst(s.proxies[id], after.proxies[id]) else after.proxies[id] == s.proxies[id]
  {
    hide RestoreAll, BlameAll, Endpoints, Activate, Parted;
    var (mine, c) := (call.phase.id, call.client);
    var (rest, validated) := Parted(call.probes, call.phase.evidence);
    PartedMeaning(call.probes, call.phase.evidence);
    BlameAllAt(s, validated, c, mine);
    BlameAllAt(s, validated, c, id);
    assert mine !in Ids(validated);
  }

  /**
   A success gives the proxy to the client under the new lease. The held probes are settled with it: those
   that the evidence settles are held against their proxies, the others' proxies are given back.
   */
  lemma SuccessSettlesAll(s: State, call: Call, expires: Time, id: ProxyId)
    requires call.phase.Judging? && StillWanted(s, call) && id in s.proxies && call.phase.result.Success?
    requires call.phase.id !in Ids(call.probes)
    requires call.refresh && call.client in s.leases ==> s.leases[call.client].proxyId !in Ids(call.probes) + {call.phase.id}
    ensures var (after, next) := Commit(s, call, false, expires);
            var (mine, c) := (call.phase.id, call.client);
            && next.phase.Finished? && next.probes == [] && next.answer == Assignment(LeaseActive, Some(Lease(mine, expires)))
            && LeasedNow(s, after, c, Lease(mine, expires)) && after.proxies.Keys == s.proxies.Keys
            && if id == mine then ServesNow(s.proxies[id], after.proxies[id], c)
               else if Checks(s, call, id) then
                 if exists p :: p in call.probes && p.proxyId == id && SettledBy(call.phase.evidence, p)
                 then HeldAgainst(s.proxies[id], after.proxies[id]) else GivenBack(s.proxies[id], after.proxies[id])
               else if call.refresh && c in s.leases && s.leases[c].proxyId == id then LeftBehind(s.proxies[id], after.proxies[id], c)
               else after.proxies[id] == s.proxies[id]
  {
    hide RestoreAll, BlameAll, Endpoints, Activate, Parted, LeasedNow, ServesNow, LeftBehind;
    var (mine, c) := (call.phase.id, call.client);
    var (rest, validated) := Parted(call.probes, call.phase.evidence);
    PartedMeaning(call.probes, call.phase.evidence);
    var blamed := BlameAll(s, validated, c);
    var settled := RestoreAll(blamed, rest, c);
    BlameAllAt(s, validated, c, mine);
    BlameAllAt(s, validated, c, id);
    RestoreAllAt(blamed, rest, c, mine);
    RestoreAllAt(blamed, rest, c, id);
    assert mine !in Ids(validated) && mine !in Ids(rest);
    assert Recheck(settled, mine, c) == settled by { RecheckSame(settled, mine, c); }
    ActivateMeaning(settled, mine, c, call.refresh, expires);
    LeasedAlike(s, settled, Activate(settled, mine, c, call.refresh, expires), c, Lease(mine, expires));
  }

  lemma LeasedAlike(s: State, t: State, after: State, c: Client, l: Lease)
    requires LeasedNow(t, after, c, l) && OnlyProxies(s, t)
    ensures LeasedNow(s, after, c, l)
  {
  }

  // ---- Settling a batch ----

  /** A conviction holds against every convicted proxy still checked, and nothing else; the rest is given back next. */
  lemma ConvictionMeaning(s: State, call: Call, id: ProxyId)
    requires call.phase.Convicting? && id in s.proxies
    ensures var (after, next) := Convict(s, call);
            && after == s.(proxies := after.proxies) && after.proxies.Keys == s.proxies.Keys
            && (if id in Ids(call.phase.validated) && BeingChecked(s.proxies[id], call.client)
                then HeldAgainst(s.proxies[id], after.proxies[id]) else after.proxies[id] == s.proxies[id])
            && next == call.(phase := next.phase) && (if call.probes == [] then next.phase.Finished? else next.phase.Settling?)
  {
    hide BlameAll;
    BlameAllAt(s, call.phase.validated, call.client, id);
  }

  lemma SettlementMeaning(s: State, call: Call, id: ProxyId)
    requires call.phase.Settling? && id in s.proxies
    ensures var (after, next) := Settle(s, call);
            && after == s.(proxies := after.proxies) && after.proxies.Keys == s.proxies.Keys
            && (if id in Ids(call.probes) && BeingChecked(s.proxies[id], call.client)
                then GivenBack(s.proxies[id], after.proxies[id]) else after.proxies[id] == s.proxies[id])
            && next == call.(phase := LeaseCall.Phase.Finished, probes := [])
  {
    hide RestoreAll;
    RestoreAllAt(s, call.probes, call.client, id);
  }

  /** The look at the newest evidence: what it settles is convicted; a call cancelled before it gives up. */
  lemma WeighingMeaning(recent: Option<Front.Evidence>, s: State, call: Call, cancelled: bool)
    requires call.phase.Weighing? && !(cancelled && !call.phase.crossed)
    ensures var (after, next) := Weigh(recent, s, call, cancelled);
            && after == s && next == call.(phase := next.phase, probes := next.probes)
            && if exists p :: p in call.probes && SettledBy(recent, p)
               then && next.phase.Convicting?
                    && (forall p :: p in next.phase.validated <==> p in call.probes && SettledBy(recent, p))
                    && (forall p :: p in next.probes <==> p in call.probes && !SettledBy(recent, p))
               else next.probes == call.probes && next.phase == if call.phase.crossed then Batching else Choosing
  {
    hide Parted;
    PartedMeaning(call.probes, recent);
    var validated := Parted(call.probes, recent).1;
    assert validated == [] <==> forall p :: p in call.probes ==> !SettledBy(recent, p) by {
      assert validated != [] ==> validated[0] in validated;
    }
  }

  /**
   A call that gives up gives back what it checks, and leaves its client in exactly those queues where it
   was both before the call and until now.
   */
  lemma GivingUpMeaning(s: State, call: Call, id: ProxyId)
    requires id in s.proxies
    ensures var (after, next) := GiveUp(s, call);
            && after == s.(proxies := after.proxies, pendingNew := after.pendingNew, pendingRefs := after.pendingRefs)
            && after.proxies.Keys == s.proxies.Keys
            && (if id in Ids(call.probes) && BeingChecked(s.proxies[id], call.client)
                then GivenBack(s.proxies[id], after.proxies[id]) else after.proxies[id] == s.proxies[id])
            && (forall d :: d in after.pendingNew <==> d in s.pendingNew && (d != call.client || call.before.inNew))
            && (forall d :: d in after.pendingRefs <==> d in s.pendingRefs && (d != call.client || call.before.inRefs))
            && next == call.(phase := LeaseCall.Phase.Finished, probes := [])
  {
    hide RestoreAll;
    RestoreAllAt(s, call.probes, call.client, id);
  }

  /**
   What a probe of a proxy in use says about the held ones. Cancelled, the call gives up; a front failure
   gives them all back; another ambiguous one joins them; anything else convicts those that its evidence
   settles and gives back the rest, or, if it settles none, changes nothing.
   */
  lemma CrossingMeaning(s: State, call: Call, id: ProxyId)
    requires call.phase.CrossJudging? && id in s.proxies
    ensures var (after, next) := CrossCommit(s, call, false);
            && after == s.(proxies := after.proxies) && after.proxies.Keys == s.proxies.Keys && next.answer == call.answer
            && var (p, q, r) := (s.proxies[id], after.proxies[id], call.phase.result);
               var mine := id in Ids(call.probes) && BeingChecked(p, call.client);
               match FailureScopeOf(r)
               case SharedScope => next.phase.Finished? && next.probes == [] && if mine then GivenBack(p, q) else q == p
               case AmbiguousScope =>
                 && after == s && next.phase == Weighing(true)
                 && var t := AmbiguousFailureToken(r);
                    next.probes == if t.None? then call.probes
                                   else call.probes + [Probe(call.phase.id, call.phase.address, call.phase.address, t.value)]
               case _ =>
                 if forall x :: x in call.probes ==> !SettledBy(call.phase.evidence, x)
                 then after == s && next == call.(phase := Weighing(true))
                 else && next.phase.Finished? && next.probes == []
                      && if !mine then q == p
                         else if exists x :: x in call.probes && x.proxyId == id && SettledBy(call.phase.evidence, x)
                         then HeldAgainst(p, q) else GivenBack(p, q)
  {
    hide RestoreAll, BlameAll, Parted, FailureScopeOf, AmbiguousFailureToken;
    var (rest, validated) := Parted(call.probes, call.phase.evidence);
    PartedMeaning(call.probes, call.phase.evidence);
    RestoreAllAt(s, call.probes, call.client, id);
    BlameAllAt(s, validated, call.client, id);
    RestoreAllAt(BlameAll(s, validated, call.client), rest, call.client, id);
    assert validated != [] ==> validated[0] in validated;
  }

  /** In use, enabled, not among the held ones, and through another endpoint than each of them. */
  predicate InUseElsewhere(s: State, probes: seq<Probe>, id: ProxyId) {
    && id in s.proxies && !s.proxies[id].disabled
    && (s.proxies[id].status == ProxyActive || s.proxies[id].status == ProxyDraining)
    && forall i :: 0 <= i < |probes| ==> probes[i].proxyId != id && !SameEndpoint(probes[i].address, s.proxies[id].address)
  }

  /** The call probes the first such proxy in order, at the address on record, or goes on without if there is none. */
  lemma CandidateMeaning(l: Ledger, s: State, call: Call)
    requires call.phase.Choosing?
    ensures var next := Choose(l, s, call);
            && next == call.(phase := next.phase)
            && if forall id :: id in s.order ==> !InUseElsewhere(s, call.probes, id) then next.phase == Weighing(true)
               else && next.phase.CrossProbing? && next.phase.since == |l.history|
                    && next.phase.id in s.proxies && next.phase.address == s.proxies[next.phase.id].address
                    && exists i :: 0 <= i < |s.order| && s.order[i] == next.phase.id && InUseElsewhere(s, call.probes, next.phase.id)
                                   && forall j :: 0 <= j < i ==> !InUseElsewhere(s, call.probes, s.order[j])
  {
    assert forall id :: IsCandidate(s, call.probes, id) <==> InUseElsewhere(s, call.probes, id);
  }

  // ---- The batch ----

  /** Some held failure is the newest resolution, and everything since each held one is ambiguous. */
  ghost predicate NothingButAmbiguous(l: Ledger, probes: seq<Probe>) {
    && (exists p :: p in probes && p.token.sequence == |l.history|)
    && forall p :: p in probes && p.token.sequence != 0 ==> SuffixAmbiguous(l, p.token.sequence - 1)
  }

  /** Putting the batch to the circuit opens it exactly if two endpoints failed and nothing but ambiguous failures came since. */
  lemma BatchOpensIffSuspected(l: Ledger, call: Call, now: Time)
    requires Exact(l) && l.circuit.enabled && call.phase.Batching? && CallOk(l.history, call)
    ensures TryBatch(l, call, now).0.circuit.generation > l.circuit.generation
            <==> TwoWitnesses(call.probes) && NothingButAmbiguous(l, call.probes)
    ensures TryBatch(l, call, now).1 == call.(phase := Settling)
  {
    hide Exact, Endpoints, TwoWitnesses, SuffixAmbiguous;
    TwoWitnessesCounted(call.probes);
    RangeSpans(call.probes);
    if TwoWitnesses(call.probes) {
      RangeEncloses(l.history, call.probes);
      var (first, last) := Range(call.probes);
      BatchDecisionExact(l, first, last, now);
      WitnessesCarryTokens(call.probes);
      NewestEnds(l, call.probes, first, last);
    }
  }

  lemma WitnessesCarryTokens(probes: seq<Probe>)
    requires TwoWitnesses(probes)
    ensures exists p :: p in probes && p.token.sequence != 0
  {
    var i, j :| 0 <= i < j < |probes| && WitnessPair(probes[i], probes[j]);
    assert probes[i] in probes;
  }

  lemma NewestEnds(l: Ledger, probes: seq<Probe>, first: Token, last: Token)
    requires Issuances(l.history, probes) && Encloses(l.history, probes, first, last)
    requires (exists p :: p in probes && p.token == first) && exists p :: p in probes && p.token == last
    ensures last.sequence == |l.history| && SuffixAmbiguous(l, first.sequence - 1) <==> NothingButAmbiguous(l, probes)
  {
  }
}
