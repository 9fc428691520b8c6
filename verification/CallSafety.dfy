/** What one step of a lease call does to proxies, tokens and blame, whatever ran in between. */
module CallSafety {
  import opened Common
  import opened Addresses
  import opened Front
  import opened FrontLedger
  import opened FrontTheorems
  import opened FrontPath
  import opened Evidence
  import opened Pool
  import opened PoolSafety
  import opened PoolLeases
  import opened PoolConnections
  import opened LeaseCall

  // ---- Who is checking a proxy ----

  function CheckingFor(s: State, id: ProxyId): Option<Client> {
    if id in s.proxies && s.proxies[id].status == ProxyChecking then s.proxies[id].client else None
  }

  /** Only the proxies changed, and none came or went. */
  predicate OnlyProxies(s: State, after: State) {
    after == s.(proxies := after.proxies) && after.proxies.Keys == s.proxies.Keys
  }

  function RestoredOne(p: Proxy, c: Client): Proxy {
    if p.status == ProxyChecking && p.client == Some(c) then Settled(p) else p
  }

  function BlamedOne(p: Proxy, c: Client): Proxy {
    if p.status == ProxyChecking && p.client == Some(c) then (if p.disabled then Park(p) else ProbeFailed(p)) else p
  }

  /** Restoring a list settles each of its proxies that is still checked for the client, once. */
  lemma {:induction false} RestoreAllAt(s: State, probes: seq<Probe>, c: Client, id: ProxyId)
    ensures var after := RestoreAll(s, probes, c);
            && OnlyProxies(s, after)
            && (id in s.proxies ==>
                  after.proxies[id] == if id in Ids(probes) then RestoredOne(s.proxies[id], c) else s.proxies[id])
    decreases |probes|
  {
    if probes != [] {
      RestoreAllAt(Restore(s, probes[0].proxyId, c), probes[1..], c, id);
      assert Ids(probes) == {probes[0].proxyId} + Ids(probes[1..]);
    }
  }

  /** Blaming a list holds one failure against each of its proxies that is still checked for the client. */
  lemma {:induction false} BlameAllAt(s: State, probes: seq<Probe>, c: Client, id: ProxyId)
    ensures var after := BlameAll(s, probes, c);
            && OnlyProxies(s, after)
            && (id in s.proxies ==>
                  after.proxies[id] == if id in Ids(probes) then BlamedOne(s.proxies[id], c) else s.proxies[id])
    decreases |probes|
  {
    if probes != [] {
      BlameAllAt(Blame(s, probes[0].proxyId, c), probes[1..], c, id);
      assert Ids(probes) == {probes[0].proxyId} + Ids(probes[1..]);
    }
  }

  lemma SettlingOnlyProxies(s: State, probes: seq<Probe>, c: Client)
    ensures OnlyProxies(s, RestoreAll(s, probes, c)) && OnlyProxies(s, BlameAll(s, probes, c))
  {
    RestoreAllAt(s, probes, c, 0);
    BlameAllAt(s, probes, c, 0);
  }

  lemma RecheckSame(s: State, id: ProxyId, c: Client)
    requires CheckedFor(s, id, c)
    ensures Recheck(s, id, c) == s
  {
    assert s.proxies[id := s.proxies[id].(status := ProxyChecking, client := Some(c))] == s.proxies;
  }

  // ---- Nobody is left checked ----

  /** `id`, if it is being checked afterwards, is held by the call, or was and is somebody else's. */
  predicate StillHeld(s: State, after: State, call: Call, next: Call, id: ProxyId) {
    CheckingFor(after, id).Some? ==>
      || (CheckingFor(after, id) == Some(call.client) && id in Held(next))
      || (CheckingFor(s, id) == CheckingFor(after, id) && !(CheckingFor(s, id) == Some(call.client) && id in Held(call)))
  }

  /** The client of a call never changes. */
  lemma SameClient(l: Ledger, s: State, call: Call, input: Input)
    ensures var next := Advance(l, s, call, input).2;
            next.client == call.client && next.refresh == call.refresh && next.before == call.before
  {
    hide Reserve, RestoreAll, BlameAll, Activate, Endpoints, Truthful, EvidenceFor, FirstCandidate;
  }

  lemma ReleaseChecks(s: State, c: Client, now: Time, id: ProxyId)
    ensures CheckingFor(ReleaseLease(s, c, now), id).Some? ==> CheckingFor(ReleaseLease(s, c, now), id) == CheckingFor(s, id)
  {
    hide HasLive, Keep, Without;
  }

  lemma ReserveHolds(l: Ledger, s: State, call: Call, now: Time, id: ProxyId)
    requires call.phase.Ready?
    ensures var (after, next) := ReserveNext(l, s, call, now); StillHeld(s, after, call, next, id)
  {
    hide HasLive, ReleaseLease, FirstEligible;
    ReleaseChecks(s, call.client, now, id);
  }

  lemma CommitHolds(s: State, call: Call, cancelled: bool, expires: Time, id: ProxyId)
    requires call.phase.Judging?
    ensures var (after, next) := Commit(s, call, cancelled, expires); StillHeld(s, after, call, next, id)
  {
    hide RestoreAll, Endpoints, CommitVerdict;
    var (mine, c) := (call.phase.id, call.client);
    RestoreAllAt(Restore(s, mine, c), call.probes, c, id);
    RestoreAllAt(EnqueuePending(Restore(s, mine, c), c, call.refresh), call.probes, c, id);
    if CheckedFor(s, mine, c) && !s.proxies[mine].disabled && !cancelled
       && FailureScopeOf(call.phase.result) != SharedScope && FailureScopeOf(call.phase.result) != AmbiguousScope {
      CommitVerdictHolds(s, call, expires, id);
    }
  }

  lemma PartedIds(probes: seq<Probe>, e: Option<Front.Evidence>)
    ensures Ids(probes) == Ids(Parted(probes, e).0) + Ids(Parted(probes, e).1)
  {
  }

  lemma ActivateChecks(s: State, mine: ProxyId, c: Client, refresh: bool, expires: Time, id: ProxyId)
    requires CheckedFor(s, mine, c) && !s.proxies[mine].disabled
    ensures var after := Activate(s, mine, c, refresh, expires);
            CheckingFor(after, id).Some? ==> CheckingFor(after, id) == CheckingFor(s, id) && id != mine
  {
    hide Without;
  }

  lemma RecheckedChecks(s: State, mine: ProxyId, c: Client, id: ProxyId)
    requires mine in s.proxies
    ensures CheckingFor(Blame(Recheck(s, mine, c), mine, c), id) == if id == mine then None else CheckingFor(s, id)
    ensures CheckedFor(Recheck(s, mine, c), mine, c) && Recheck(s, mine, c).proxies[mine].disabled == s.proxies[mine].disabled
    ensures id != mine ==> CheckingFor(Recheck(s, mine, c), id) == CheckingFor(s, id)
  {
  }

  /** Settling a list checks nobody anew, and nobody of the list for the client. */
  lemma SettlingChecks(s: State, probes: seq<Probe>, c: Client, id: ProxyId)
    ensures var after := RestoreAll(s, probes, c);
            CheckingFor(after, id) == if id in Ids(probes) && CheckingFor(s, id) == Some(c) then None else CheckingFor(s, id)
    ensures var after := BlameAll(s, probes, c);
            CheckingFor(after, id) == if id in Ids(probes) && CheckingFor(s, id) == Some(c) then None else CheckingFor(s, id)
    ensures id in s.proxies ==>
              && id in RestoreAll(s, probes, c).proxies && RestoreAll(s, probes, c).proxies[id].disabled == s.proxies[id].disabled
              && id in BlameAll(s, probes, c).proxies && BlameAll(s, probes, c).proxies[id].disabled == s.proxies[id].disabled
  {
    hide RestoreAll, BlameAll, Ids;
    RestoreAllAt(s, probes, c, id);
    BlameAllAt(s, probes, c, id);
  }

  lemma CommitVerdictHolds(s: State, call: Call, expires: Time, id: ProxyId)
    requires call.phase.Judging? && CheckedFor(s, call.phase.id, call.client) && !s.proxies[call.phase.id].disabled
    ensures var (after, next) := CommitVerdict(s, call, expires); StillHeld(s, after, call, next, id)
  {
    hide RestoreAll, BlameAll, Parted, Ids, Recheck, Blame, Activate, CheckingFor, CheckedFor;
    var (mine, c) := (call.phase.id, call.client);
    var (rest, validated) := Parted(call.probes, call.phase.evidence);
    PartedIds(call.probes, call.phase.evidence);
    var blamed := BlameAll(s, validated, c);
    var settled := RestoreAll(blamed, rest, c);
    assert mine in s.proxies by { CheckedExists(s, mine, c); }
    SettlingChecks(s, validated, c, id);
    SettlingChecks(s, validated, c, mine);
    SettlingChecks(blamed, rest, c, id);
    SettlingChecks(blamed, rest, c, mine);
    RecheckedChecks(blamed, mine, c, id);
    RecheckedChecks(settled, mine, c, id);
    ActivateChecks(Recheck(settled, mine, c), mine, c, call.refresh, expires, id);
  }

  lemma CheckedExists(s: State, id: ProxyId, c: Client)
    requires CheckedFor(s, id, c)
    ensures id in s.proxies
  {
  }

  lemma WeighHolds(recent: Option<Front.Evidence>, s: State, call: Call, cancelled: bool, id: ProxyId)
    requires call.phase.Weighing?
    ensures var (after, next) := Weigh(recent, s, call, cancelled); StillHeld(s, after, call, next, id)
  {
    hide RestoreAll, Unresolved, Validated, Without;
    RestoreAllAt(s, call.probes, call.client, id);
    PartedIds(call.probes, recent);
  }

  lemma ConvictHolds(s: State, call: Call, id: ProxyId)
    requires call.phase.Convicting?
    ensures var (after, next) := Convict(s, call); StillHeld(s, after, call, next, id)
  {
    hide BlameAll;
    BlameAllAt(s, call.phase.validated, call.client, id);
  }

  lemma SettleHolds(s: State, call: Call, id: ProxyId)
    requires call.phase.Settling?
    ensures var (after, next) := Settle(s, call); StillHeld(s, after, call, next, id)
  {
    hide RestoreAll;
    RestoreAllAt(s, call.probes, call.client, id);
  }

  lemma CrossCommitHolds(s: State, call: Call, cancelled: bool, id: ProxyId)
    requires call.phase.CrossJudging?
    ensures var (after, next) := CrossCommit(s, call, cancelled); StillHeld(s, after, call, next, id)
  {
    hide RestoreAll, BlameAll, Unresolved, Validated, Without;
    var (rest, validated) := Parted(call.probes, call.phase.evidence);
    PartedIds(call.probes, call.phase.evidence);
    RestoreAllAt(s, call.probes, call.client, id);
    BlameAllAt(s, validated, call.client, id);
    RestoreAllAt(BlameAll(s, validated, call.client), rest, call.client, id);
  }

  /** Holding composes. */
  lemma StillHeldChain(s: State, mid: State, after: State, call: Call, between: Call, next: Call, id: ProxyId)
    requires StillHeld(s, mid, call, between, id) && StillHeld(mid, after, between, next, id)
    requires between.client == call.client == next.client
    ensures StillHeld(s, after, call, next, id)
  {
    hide Held, CheckingFor;
  }

  /** In every phase: what the call stops holding is no longer being checked for its client. */
  lemma AdvanceHolds(l: Ledger, s: State, call: Call, input: Input, id: ProxyId)
    ensures var (_, after, next) := Advance(l, s, call, input); StillHeld(s, after, call, next, id)
  {
    hide StillHeld, ReserveNext, Commit, Weigh, Convict, CrossCommit, Settle;
    match call.phase
    case Ready => ReserveHolds(l, s, call, input.now, id);
    case Judging(_, _, _, _, _) => CommitHolds(s, call, input.cancelled, input.expires, id);
    case Weighing(_) => WeighHolds(RecentEvidence(l.circuit), s, call, input.cancelled, id);
    case Convicting(_) => ConvictHolds(s, call, id);
    case CrossJudging(_, _, _, _, _) => CrossCommitHolds(s, call, input.cancelled, id);
    case Settling => SettleHolds(s, call, id);
    case _ => WaitingHolds(l, s, call, input, id);
  }

  /** The phases that do not touch the pool hold on to everything. */
  lemma WaitingHolds(l: Ledger, s: State, call: Call, input: Input, id: ProxyId)
    requires call.phase.Probing? || call.phase.Choosing? || call.phase.CrossProbing? || call.phase.Batching? || call.phase.Finished?
    ensures var (_, after, next) := Advance(l, s, call, input); StillHeld(s, after, call, next, id)
  {
    hide Truthful, EvidenceFor, FirstCandidate, Endpoints;
  }

  // ---- Tokens ----

  /** Every token of the list is at most `since`. */
  predicate Below(probes: seq<Probe>, since: nat) {
    forall p :: p in probes ==> p.token.sequence <= since
  }

  /** The result's token is the record of this probe, and its evidence is a recorded success. */
  ghost predicate ResultOk(h: History, probed: Address, since: nat, r: Result, e: Option<Front.Evidence>) {
    && (AmbiguousFailureToken(r).Some? ==>
          var token := AmbiguousFailureToken(r).value;
          Issued(h, token, AmbiguousFailure) && h[token.sequence - 1].exit == probed && since < token.sequence)
    && (e.Some? ==> Witnessed(h, e.value))
  }

  ghost predicate AllExcused(h: History, probes: seq<Probe>) {
    forall p :: p in probes ==> IsExcused(h, p)
  }

  /** The tokens a call holds were issued, in order; what it is about to blame on exits is excused. */
  ghost predicate CallOk(h: History, call: Call) {
    && Issuances(h, call.probes) && Increasing(call.probes)
    && match call.phase
       case Probing(_, _, since) => since <= |h| && Below(call.probes, since)
       case Judging(_, address, since, r, e) => Below(call.probes, since) && ResultOk(h, address, since, r, e)
       case CrossProbing(_, _, since) => since <= |h| && Below(call.probes, since)
       case CrossJudging(_, address, since, r, e) => Below(call.probes, since) && ResultOk(h, address, since, r, e)
       case Convicting(validated) => AllExcused(h, validated)
       case Finished => call.probes == []
       case _ => true
  }

  lemma IssuancesGrow(h: History, more: History, probes: seq<Probe>)
    requires h <= more
    ensures Issuances(h, probes) ==> Issuances(more, probes)
    ensures AllExcused(h, probes) ==> AllExcused(more, probes)
  {
    if AllExcused(h, probes) {
      forall p | p in probes ensures IsExcused(more, p) {
        assert IsExcused(h, p);
        HistoryGrows(h, more, p.token, Established, p.address, NO_EVIDENCE);
      }
    }
  }

  /** A longer history changes nothing about a call. */
  lemma CallOkGrows(h: History, more: History, call: Call)
    requires h <= more && CallOk(h, call)
    ensures CallOk(more, call)
  {
    IssuancesGrow(h, more, call.probes);
    if call.phase.Convicting? {
      IssuancesGrow(h, more, call.phase.validated);
    }
  }

  lemma IssuedBelow(h: History, probes: seq<Probe>)
    requires Issuances(h, probes)
    ensures Below(probes, |h|)
  {
  }

  /** A probe that began after every token held was issued gets a later one. */
  lemma AppendIssued(h: History, probes: seq<Probe>, since: nat, p: Probe)
    requires Issuances(h, probes) && Increasing(probes) && Below(probes, since)
    requires p.token.sequence != 0 ==> Recorded(h, p) && since < p.token.sequence
    ensures Issuances(h, probes + [p]) && Increasing(probes + [p])
  {
    assert (probes + [p])[..|probes|] == probes;
  }

  lemma PartedOk(h: History, probes: seq<Probe>, e: Option<Front.Evidence>)
    requires Numbered(h) && Issuances(h, probes) && Increasing(probes) && (e.Some? ==> Witnessed(h, e.value))
    ensures var (rest, validated) := Parted(probes, e);
            Issuances(h, rest) && Increasing(rest) && AllExcused(h, validated)
  {
    hide Numbered, Witnessed, Excused;
    if e.Some? {
      UnresolvedStaysIncreasing(probes, e.value);
      forall p | p in Validated(probes, e.value) ensures IsExcused(h, p) {
        ValidatedIsExcused(h, e.value, p);
      }
    }
  }

  lemma ReturnOk(l: Ledger, exit: Address, since: nat, r: Result)
    requires Exact(l) && Truthful(l.history, exit, since, r)
    ensures ResultOk(l.history, exit, since, r, EvidenceFor(l.circuit, exit, r))
  {
    EvidenceIsWitnessed(l, exit, since, r);
  }

  lemma RecentIsWitnessed(l: Ledger)
    requires Exact(l)
    ensures RecentEvidence(l.circuit).Some? ==> Witnessed(l.history, RecentEvidence(l.circuit).value)
  {
  }

  lemma CommitOk(h: History, s: State, call: Call, cancelled: bool, expires: Time)
    requires Numbered(h) && CallOk(h, call) && call.phase.Judging?
    ensures CallOk(h, Commit(s, call, cancelled, expires).1)
  {
    hide Numbered, Issuances, Increasing, Below, ResultOk, RestoreAll, BlameAll, Activate, Endpoints, Parted;
    assert Issuances(h, []) && Increasing([]) by { NoProbes(h); }
    PartedOkFor(h, call);
    if CheckedFor(s, call.phase.id, call.client) {
      var token := TokenOr(AmbiguousFailureToken(call.phase.result));
      AppendFor(h, call, Probe(call.phase.id, s.proxies[call.phase.id].address, call.phase.address, token));
    }
  }

  lemma NoProbes(h: History)
    ensures Issuances(h, []) && Increasing([])
  {
  }

  lemma PartedOkFor(h: History, call: Call)
    requires Numbered(h) && CallOk(h, call) && (call.phase.Judging? || call.phase.CrossJudging?)
    ensures var (rest, validated) := Parted(call.probes, call.phase.evidence);
            Issuances(h, rest) && Increasing(rest) && AllExcused(h, validated)
  {
    hide Numbered, Issuances, Increasing, Below, Parted;
    PartedOk(h, call.probes, call.phase.evidence);
  }

  lemma AppendFor(h: History, call: Call, p: Probe)
    requires CallOk(h, call) && (call.phase.Judging? || call.phase.CrossJudging?)
    requires p.token == TokenOr(AmbiguousFailureToken(call.phase.result)) && p.probed == call.phase.address
    ensures Issuances(h, call.probes + [p]) && Increasing(call.probes + [p])
  {
    AppendIssued(h, call.probes, call.phase.since, p);
  }

  lemma WeighCases(recent: Option<Front.Evidence>, s: State, call: Call, cancelled: bool)
    requires call.phase.Weighing?
    ensures var next := Weigh(recent, s, call, cancelled).1;
            || (next.phase.Finished? && next.probes == [])
            || ((next.phase.Batching? || next.phase.Choosing?) && next.probes == call.probes)
            || (next.phase.Convicting? && (next.probes, next.phase.validated) == Parted(call.probes, recent))
  {
    hide RestoreAll, Parted, RestoreSnapshot;
  }

  lemma WeighOk(l: Ledger, s: State, call: Call, cancelled: bool)
    requires Exact(l) && CallOk(l.history, call) && call.phase.Weighing?
    ensures CallOk(l.history, Weigh(RecentEvidence(l.circuit), s, call, cancelled).1)
  {
    hide Summarises, StatusAgrees, AttemptsFit, Numbered, Issuances, Increasing, Weigh, Parted, AllExcused, RecentEvidence, Witnessed;
    RecentIsWitnessed(l);
    NoProbes(l.history);
    WeighCases(RecentEvidence(l.circuit), s, call, cancelled);
    PartedOk(l.history, call.probes, RecentEvidence(l.circuit));
  }

  /** What a call's probes and phase can become when it settles. */
  lemma CrossCommitCases(s: State, call: Call, cancelled: bool)
    requires call.phase.CrossJudging?
    ensures var next := CrossCommit(s, call, cancelled).1;
            || (next.phase.Finished? && next.probes == [])
            || (next.phase.Weighing? && (next.probes == call.probes
                 || next.probes == call.probes
                      + [Probe(call.phase.id, call.phase.address, call.phase.address, TokenOr(AmbiguousFailureToken(call.phase.result)))]))
  {
    hide RestoreAll, BlameAll, Parted, AmbiguousFailureToken, FailureScopeOf, RestoreSnapshot;
  }

  lemma CrossCommitOk(h: History, s: State, call: Call, cancelled: bool)
    requires Numbered(h) && CallOk(h, call) && call.phase.CrossJudging?
    ensures CallOk(h, CrossCommit(s, call, cancelled).1)
  {
    hide Numbered, Issuances, Increasing, Below, ResultOk, CrossCommit, AmbiguousFailureToken, AllExcused;
    NoProbes(h);
    CrossCommitCases(s, call, cancelled);
    AppendFor(h, call, Probe(call.phase.id, call.phase.address, call.phase.address, TokenOr(AmbiguousFailureToken(call.phase.result))));
  }

  /** Every phase keeps the tokens issued and in order. */
  lemma AdvanceOk(l: Ledger, s: State, call: Call, input: Input)
    requires Exact(l) && CallOk(l.history, call)
    ensures CallOk(Advance(l, s, call, input).0.history, Advance(l, s, call, input).2)
  {
    hide Numbered, Summarises, StatusAgrees, AttemptsFit, Issuances, Increasing, Below, ResultOk, RestoreAll, BlameAll, Endpoints,
         Reserve, Commit, Truthful, EvidenceFor, Weigh, CrossCommit;
    NoProbes(l.history);
    IssuedBelow(l.history, call.probes);
    match call.phase
    case Probing(_, address, since) =>
      if Truthful(l.history, address, since, input.result) { ReturnOk(l, address, since, input.result); }
    case CrossProbing(_, address, since) =>
      if Truthful(l.history, address, since, input.result) { ReturnOk(l, address, since, input.result); }
    case Judging(_, _, _, _, _) => CommitOk(l.history, s, call, input.cancelled, input.expires);
    case Weighing(_) => WeighOk(l, s, call, input.cancelled);
    case CrossJudging(_, _, _, _, _) => CrossCommitOk(l.history, s, call, input.cancelled);
    case Batching =>
      ApplyMonotone(l, BatchOp(call, input.now));
      IssuancesGrow(l.history, FrontLedger.Apply(l, BatchOp(call, input.now)).history, call.probes);
    case _ =>
  }

  // ---- Blame ----

  /** The probes whose proxies a step of the call may blame. */
  function Accused(call: Call): seq<Probe> {
    if call.phase.Convicting? then call.phase.validated else call.probes
  }

  /** The call's own probe of `id` failed beyond the front. */
  predicate FailedBeyondFront(call: Call, id: ProxyId) {
    && call.phase.Judging? && call.phase.id == id && call.phase.result.Failed?
    && (FailureScopeOf(call.phase.result) == ExitScope || FailureScopeOf(call.phase.result) == UnknownScope)
  }

  /** The call's own probe of `id` failed ambiguously, and the history excuses the front of it. */
  ghost predicate FrontExcused(h: History, call: Call, id: ProxyId) {
    exists p :: p in Accused(call) && p.proxyId == id && IsExcused(h, p)
  }

  predicate Raised(s: State, after: State, id: ProxyId) {
    id in s.proxies && id in after.proxies && after.proxies[id].failureCount > s.proxies[id].failureCount
  }

  function Failures(s: State, id: ProxyId): nat {
    if id in s.proxies then s.proxies[id].failureCount else 0
  }

  lemma SettlingFailures(s: State, probes: seq<Probe>, c: Client, id: ProxyId)
    ensures Failures(RestoreAll(s, probes, c), id) == Failures(s, id)
    ensures id !in Ids(probes) ==> Failures(BlameAll(s, probes, c), id) == Failures(s, id)
    ensures RestoreAll(s, probes, c).proxies.Keys == s.proxies.Keys == BlameAll(s, probes, c).proxies.Keys
  {
    hide RestoreAll, BlameAll, Ids;
    RestoreAllAt(s, probes, c, id);
    BlameAllAt(s, probes, c, id);
  }

  lemma ActivateFailures(s: State, mine: ProxyId, c: Client, refresh: bool, expires: Time, id: ProxyId)
    ensures Failures(Activate(Recheck(s, mine, c), mine, c, refresh, expires), id) <= Failures(s, id)
    ensures id != mine ==> Failures(Blame(Recheck(s, mine, c), mine, c), id) == Failures(s, id)
  {
    hide Without;
  }

  lemma PartedIsExcused(h: History, call: Call, e: Option<Front.Evidence>, id: ProxyId)
    requires AllExcused(h, Parted(call.probes, e).1) && id in Ids(Parted(call.probes, e).1) && !call.phase.Convicting?
    ensures FrontExcused(h, call, id)
  {
    var p :| p in Parted(call.probes, e).1 && p.proxyId == id;
    assert IsExcused(h, p);
  }

  lemma ReserveRaisesNone(s: State, c: Client, refresh: bool, now: Time, id: ProxyId)
    ensures !Raised(s, Reserve(s, c, refresh, now).0, id)
  {
    hide ReleaseLease, HasLive, FirstEligible;
    ReleaseRaisesNone(s, c, now, id);
  }

  lemma ReleaseRaisesNone(s: State, c: Client, now: Time, id: ProxyId)
    ensures !Raised(s, ReleaseLease(s, c, now), id)
  {
    hide HasLive, Keep, Without;
  }

  lemma VerdictBlamesFairly(h: History, s: State, call: Call, expires: Time, id: ProxyId)
    requires Numbered(h) && CallOk(h, call) && call.phase.Judging?
    requires CheckedFor(s, call.phase.id, call.client) && !s.proxies[call.phase.id].disabled
    requires FailureScopeOf(call.phase.result) == ExitScope || FailureScopeOf(call.phase.result) == UnknownScope
    requires Raised(s, CommitVerdict(s, call, expires).0, id)
    ensures FailedBeyondFront(call, id) || FrontExcused(h, call, id)
  {
    var (mine, c) := (call.phase.id, call.client);
    var (rest, validated) := Parted(call.probes, call.phase.evidence);
    PartedOkFor(h, call);
    hide Numbered, CallOk, AllExcused, RestoreAll, BlameAll, Parted, FrontExcused, Activate, Recheck, Blame, CheckedFor;
    var blamed := BlameAll(s, validated, c);
    SettlingFailures(s, validated, c, id);
    SettlingFailures(blamed, rest, c, id);
    ActivateFailures(blamed, mine, c, call.refresh, expires, id);
    ActivateFailures(RestoreAll(blamed, rest, c), mine, c, call.refresh, expires, id);
    if id in Ids(validated) {
      PartedIsExcused(h, call, call.phase.evidence, id);
    }
  }

  lemma CommitBlamesFairly(h: History, s: State, call: Call, cancelled: bool, expires: Time, id: ProxyId)
    requires Numbered(h) && CallOk(h, call) && call.phase.Judging?
    requires Raised(s, Commit(s, call, cancelled, expires).0, id)
    ensures FailedBeyondFront(call, id) || FrontExcused(h, call, id)
  {
    hide Numbered, CallOk, RestoreAll, BlameAll, FrontExcused, CommitVerdict, Endpoints;
    var (mine, c) := (call.phase.id, call.client);
    RestoreAllAt(Restore(s, mine, c), call.probes, c, id);
    RestoreAllAt(EnqueuePending(Restore(s, mine, c), c, call.refresh), call.probes, c, id);
    VerdictBlamesFairly(h, s, call, expires, id);
  }

  lemma CrossFailures(s: State, call: Call, cancelled: bool, id: ProxyId)
    requires call.phase.CrossJudging? && Raised(s, CrossCommit(s, call, cancelled).0, id)
    ensures id in Ids(Parted(call.probes, call.phase.evidence).1)
  {
    hide RestoreAll, BlameAll, Parted, Ids, Without, FailureScopeOf, AmbiguousFailureToken, Finish, Unresolved, Validated;
    var (c, result) := (call.client, call.phase.result);
    var (rest, validated) := Parted(call.probes, call.phase.evidence);
    SettlingFailures(s, call.probes, c, id);
    SettlingFailures(s, validated, c, id);
    SettlingFailures(BlameAll(s, validated, c), rest, c, id);
  }

  lemma CrossBlamesFairly(h: History, s: State, call: Call, cancelled: bool, id: ProxyId)
    requires Numbered(h) && CallOk(h, call) && call.phase.CrossJudging?
    requires Raised(s, CrossCommit(s, call, cancelled).0, id)
    ensures FrontExcused(h, call, id)
  {
    hide *;
    PartedOkFor(h, call);
    CrossFailures(s, call, cancelled, id);
    PartedIsExcused(h, call, call.phase.evidence, id);
  }

  lemma ConvictBlamesFairly(h: History, s: State, call: Call, id: ProxyId)
    requires CallOk(h, call) && call.phase.Convicting? && Raised(s, Convict(s, call).0, id)
    ensures FrontExcused(h, call, id)
  {
    hide Issuances, Increasing, BlameAll, Excused;
    BlameAllAt(s, call.phase.validated, call.client, id);
    var p :| p in call.phase.validated && p.proxyId == id;
    assert IsExcused(h, p);
  }

  /** A step of a lease call raises a proxy's failure count only with one of the two justifications. */
  lemma AdvanceBlamesFairly(l: Ledger, s: State, call: Call, input: Input, id: ProxyId)
    requires Exact(l) && CallOk(l.history, call) && Raised(s, Advance(l, s, call, input).1, id)
    ensures FailedBeyondFront(call, id) || FrontExcused(l.history, call, id)
  {
    hide Summarises, StatusAgrees, AttemptsFit, Numbered, CallOk, RestoreAll, BlameAll, FrontExcused,
         FailedBeyondFront, Reserve, Commit, CrossCommit;
    RestoreAllAt(s, call.probes, call.client, id);
    match call.phase
    case Ready => ReserveRaisesNone(s, call.client, call.refresh, input.now, id);
    case Judging(_, _, _, _, _) => CommitBlamesFairly(l.history, s, call, input.cancelled, input.expires, id);
    case Convicting(_) => ConvictBlamesFairly(l.history, s, call, id);
    case CrossJudging(_, _, _, _, _) => CrossBlamesFairly(l.history, s, call, input.cancelled, id);
    case _ =>
  }

  // ---- The circuit ----

  /** A lease call that opens the circuit has two endpoints in the all-ambiguous end of the history. */
  lemma BatchHasTwoWitnesses(l: Ledger, s: State, call: Call, input: Input)
    requires Exact(l) && CallOk(l.history, call)
    requires Advance(l, s, call, input).0 != l
    ensures call.phase.Batching? && FrontSuspected(l, call.probes)
  {
    hide Reserve, Commit, CrossCommit, Weigh, RestoreAll, BlameAll, Truthful, EvidenceFor, FirstCandidate, AttemptsFit, StatusAgrees;
    TwoWitnessesCounted(call.probes);
    hide Endpoints, TwoWitnesses, Numbered, Summarises, FrontSuspected;
    if call.phase.Batching? && BatchAccepted(l.circuit, Range(call.probes).0, Range(call.probes).1) {
      RangeEncloses(l.history, call.probes);
      TwoWitnessRule(l, call.probes, Range(call.probes).0, Range(call.probes).1);
    }
  }

  // ---- Leases ----

  lemma {:induction false} RestoreAllKeepsLeases(s: State, probes: seq<Probe>, c: Client, now: Time)
    requires LeasesOk(s, now)
    ensures LeasesOk(RestoreAll(s, probes, c), now)
    decreases |probes|
  {
    hide LeasesOk;
    if probes != [] {
      SettlingKeepsLeases(s, now, probes[0].proxyId, c);
      RestoreAllKeepsLeases(Restore(s, probes[0].proxyId, c), probes[1..], c, now);
    }
  }

  lemma {:induction false} BlameAllKeepsLeases(s: State, probes: seq<Probe>, c: Client, now: Time)
    requires LeasesOk(s, now)
    ensures LeasesOk(BlameAll(s, probes, c), now)
    decreases |probes|
  {
    hide LeasesOk;
    if probes != [] {
      SettlingKeepsLeases(s, now, probes[0].proxyId, c);
      BlameAllKeepsLeases(Blame(s, probes[0].proxyId, c), probes[1..], c, now);
    }
  }

  lemma RecheckKeepsLeases(s: State, id: ProxyId, c: Client, now: Time)
    requires LeasesOk(s, now) && NoneLive(s.leases, now, id)
    ensures LeasesOk(Recheck(s, id, c), now)
  {
    if id in s.proxies {
      SetKeepsLeases(s, now, id, Recheck(s, id, c).proxies[id]);
    }
  }

  lemma VerdictKeepsLeases(s: State, call: Call, expires: Time, now: Time)
    requires LeasesOk(s, now) && call.phase.Judging? && CheckedFor(s, call.phase.id, call.client)
    ensures LeasesOk(CommitVerdict(s, call, expires).0, now)
  {
    var (mine, c) := (call.phase.id, call.client);
    var (rest, validated) := Parted(call.probes, call.phase.evidence);
    assert NoneLive(s.leases, now, mine) by { assert LeaseOk(s.leases, now, mine, s.proxies[mine]); }
    hide LeasesOk, NoneLive, RestoreAll, BlameAll, Parted, Activate, Recheck;
    var blamed := BlameAll(s, validated, c);
    BlameAllKeepsLeases(s, validated, c, now);
    BlameAllAt(s, validated, c, mine);
    if call.phase.result.Failed? {
      RecheckKeepsLeases(blamed, mine, c, now);
      SettlingKeepsLeases(Recheck(blamed, mine, c), now, mine, c);
    } else {
      var settled := RestoreAll(blamed, rest, c);
      RestoreAllKeepsLeases(blamed, rest, c, now);
      RestoreAllAt(blamed, rest, c, mine);
      RecheckKeepsLeases(settled, mine, c, now);
      ActivateKeepsLeases(Recheck(settled, mine, c), mine, c, call.refresh, expires, now);
    }
  }

  /** Queues do not matter to leases. */
  lemma QueuesKeepLeases(s: State, c: Client, refresh: bool, before: Snapshot, now: Time)
    requires LeasesOk(s, now)
    ensures LeasesOk(EnqueuePending(s, c, refresh), now) && LeasesOk(RestoreSnapshot(s, c, before), now)
  {
  }

  lemma CommitKeepsLeases(s: State, call: Call, cancelled: bool, expires: Time, now: Time)
    requires LeasesOk(s, now) && call.phase.Judging?
    ensures LeasesOk(Commit(s, call, cancelled, expires).0, now)
  {
    hide LeasesOk, RestoreAll, BlameAll, CommitVerdict, Endpoints, EnqueuePending;
    var (mine, c) := (call.phase.id, call.client);
    SettlingKeepsLeases(s, now, mine, c);
    var given := Restore(s, mine, c);
    QueuesKeepLeases(given, c, call.refresh, call.before, now);
    QueuesKeepLeases(s, c, call.refresh, call.before, now);
    RestoreAllKeepsLeases(given, call.probes, c, now);
    RestoreAllKeepsLeases(EnqueuePending(given, c, call.refresh), call.probes, c, now);
    if CheckedFor(s, mine, c) {
      VerdictKeepsLeases(s, call, expires, now);
    }
  }

  /** No step of a lease call endangers exclusivity. */
  lemma AdvanceKeepsLeases(l: Ledger, s: State, call: Call, input: Input)
    requires LeasesOk(s, input.now)
    ensures LeasesOk(Advance(l, s, call, input).1, input.now)
  {
    hide LeasesOk, RestoreAll, BlameAll, Reserve, Commit, Truthful, EvidenceFor, FirstCandidate, Parted, RestoreSnapshot;
    var (now, c) := (input.now, call.client);
    RestoreAllKeepsLeases(s, call.probes, c, now);
    QueuesKeepLeases(RestoreAll(s, call.probes, c), c, call.refresh, call.before, now);
    match call.phase
    case Ready => ReserveKeepsLeases(s, c, call.refresh, now);
    case Judging(_, _, _, _, _) => CommitKeepsLeases(s, call, input.cancelled, input.expires, now);
    case Convicting(validated) => BlameAllKeepsLeases(s, validated, c, now);
    case CrossJudging(_, _, _, _, evidence) =>
      var (rest, validated) := Parted(call.probes, evidence);
      BlameAllKeepsLeases(s, validated, c, now);
      RestoreAllKeepsLeases(BlameAll(s, validated, c), rest, c, now);
    case _ =>
  }

  // ---- Connections ----

  lemma {:induction false} RestoreAllKeepsConns(s: State, probes: seq<Probe>, c: Client, now: Time)
    requires ConnsOk(s, now)
    ensures ConnsOk(RestoreAll(s, probes, c), now)
    decreases |probes|
  {
    hide ConnsOk;
    if probes != [] {
      SettlingKeepsConns(s, now, probes[0].proxyId, c);
      RestoreAllKeepsConns(Restore(s, probes[0].proxyId, c), probes[1..], c, now);
    }
  }

  lemma {:induction false} BlameAllKeepsConns(s: State, probes: seq<Probe>, c: Client, now: Time)
    requires ConnsOk(s, now)
    ensures ConnsOk(BlameAll(s, probes, c), now)
    decreases |probes|
  {
    hide ConnsOk;
    if probes != [] {
      SettlingKeepsConns(s, now, probes[0].proxyId, c);
      BlameAllKeepsConns(Blame(s, probes[0].proxyId, c), probes[1..], c, now);
    }
  }

  lemma RecheckKeepsConns(s: State, id: ProxyId, c: Client, now: Time)
    requires ConnsOk(s, now) && (id in s.proxies ==> s.proxies[id].activeConns == 0)
    ensures ConnsOk(Recheck(s, id, c), now)
  {
    if id in s.proxies {
      assert ConnOk(s.leases, s.via, now, id, s.proxies[id]);
      QuietConnOk(s.leases, s.via, now, id, s.proxies[id], Recheck(s, id, c).proxies[id]);
      SetKeepsConns(s, now, id, Recheck(s, id, c).proxies[id]);
    }
  }

  lemma VerdictKeepsConns(s: State, call: Call, expires: Time, now: Time)
    requires ConnsOk(s, now) && call.phase.Judging? && CheckedFor(s, call.phase.id, call.client)
    ensures ConnsOk(CommitVerdict(s, call, expires).0, now)
  {
    var (mine, c) := (call.phase.id, call.client);
    var (rest, validated) := Parted(call.probes, call.phase.evidence);
    assert s.proxies[mine].activeConns == 0 by {
      assert ConnOk(s.leases, s.via, now, mine, s.proxies[mine]);
      QuietStatus(s.leases, s.via, now, mine, s.proxies[mine]);
    }
    hide ConnsOk, RestoreAll, BlameAll, Parted, Activate;
    var blamed := BlameAll(s, validated, c);
    var settled := RestoreAll(blamed, rest, c);
    BlameAllKeepsConns(s, validated, c, now);
    RestoreAllKeepsConns(blamed, rest, c, now);
    BlameAllAt(s, validated, c, mine);
    RestoreAllAt(blamed, rest, c, mine);
    RecheckKeepsConns(blamed, mine, c, now);
    RecheckKeepsConns(settled, mine, c, now);
    SettlingKeepsConns(Recheck(blamed, mine, c), now, mine, c);
    ActivateKeepsConns(Recheck(settled, mine, c), mine, c, call.refresh, expires, now);
  }

  lemma QueuesKeepConns(s: State, c: Client, refresh: bool, before: Snapshot, now: Time)
    requires ConnsOk(s, now)
    ensures ConnsOk(EnqueuePending(s, c, refresh), now) && ConnsOk(RestoreSnapshot(s, c, before), now)
  {
    hide ConnOk;
  }

  lemma CommitKeepsConns(s: State, call: Call, cancelled: bool, expires: Time, now: Time)
    requires ConnsOk(s, now) && call.phase.Judging?
    ensures ConnsOk(Commit(s, call, cancelled, expires).0, now)
  {
    hide ConnsOk, RestoreAll, BlameAll, CommitVerdict, Endpoints, EnqueuePending;
    var (mine, c) := (call.phase.id, call.client);
    SettlingKeepsConns(s, now, mine, c);
    var given := Restore(s, mine, c);
    QueuesKeepConns(given, c, call.refresh, call.before, now);
    QueuesKeepConns(s, c, call.refresh, call.before, now);
    RestoreAllKeepsConns(given, call.probes, c, now);
    RestoreAllKeepsConns(EnqueuePending(given, c, call.refresh), call.probes, c, now);
    if CheckedFor(s, mine, c) {
      VerdictKeepsConns(s, call, expires, now);
    }
  }

  /** A lease call keeps connections counted and apart. */
  lemma AdvanceKeepsConns(l: Ledger, s: State, call: Call, input: Input)
    requires ConnsOk(s, input.now)
    ensures ConnsOk(Advance(l, s, call, input).1, input.now)
  {
    hide ConnsOk, RestoreAll, BlameAll, Reserve, Commit, Truthful, EvidenceFor, FirstCandidate, Parted, RestoreSnapshot;
    var (now, c) := (input.now, call.client);
    RestoreAllKeepsConns(s, call.probes, c, now);
    QueuesKeepConns(RestoreAll(s, call.probes, c), c, call.refresh, call.before, now);
    match call.phase
    case Ready => ReserveKeepsConns(s, c, call.refresh, now);
    case Judging(_, _, _, _, _) => CommitKeepsConns(s, call, input.cancelled, input.expires, now);
    case Convicting(validated) => BlameAllKeepsConns(s, validated, c, now);
    case CrossJudging(_, _, _, _, evidence) =>
      var (rest, validated) := Parted(call.probes, evidence);
      BlameAllKeepsConns(s, validated, c, now);
      RestoreAllKeepsConns(BlameAll(s, validated, c), rest, c, now);
    case _ =>
  }
}
