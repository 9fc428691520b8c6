/**
 Whose probe it was. Over whole runs: every ambiguous failure that a lease call holds came from a probe
 that the call itself began, of that proxy, at the address it then had; and unless the record was edited
 while such a probe ran, the call judges it by the endpoint that it probed.
 */
module WorldProbes {
  import opened Common
  import opened Addresses
  import opened Front
  import opened FrontLedger
  import opened FrontTheorems
  import opened FrontPath
  import opened Evidence
  import opened Pool
  import PoolRuns
  import opened LeaseCall
  import opened CallSafety
  import opened World

  // ---- Addresses on record ----

  /** The step puts an address on record for `id`. */
  predicate Readdresses(step: Step, id: ProxyId) {
    step.Outside? && match step.step
                     case Add(i, _, _) => i == id
                     case Update(i, _, _) => i == id
                     case GrantDynamic(_, i, _, _) => i == id
                     case _ => false
  }

  predicate AddressKept(s: State, after: State, id: ProxyId) {
    id in after.proxies ==> id in s.proxies && after.proxies[id].address == s.proxies[id].address
  }

  lemma OutsideKeepsAddress(s: State, step: PoolRuns.Step, now: Time, id: ProxyId)
    requires IsOutside(step) && !Readdresses(Outside(step), id)
    ensures AddressKept(s, PoolRuns.Apply(s, step, now), id)
  {
    hide HasLive, Without, Sorted, Keep, FirstEligible;
  }

  lemma ReleaseKeepsAddress(s: State, c: Client, now: Time, id: ProxyId)
    ensures AddressKept(s, ReleaseLease(s, c, now), id)
  {
    hide HasLive, Keep, Purgeable;
  }

  lemma ReserveKeepsAddress(s: State, c: Client, refresh: bool, now: Time, id: ProxyId)
    ensures AddressKept(s, Reserve(s, c, refresh, now).0, id)
  {
    hide HasLive, ReleaseLease, FirstEligible;
    ReleaseKeepsAddress(s, c, now, id);
  }

  lemma SettlingKeepsAddress(s: State, probes: seq<Probe>, c: Client, id: ProxyId)
    ensures AddressKept(s, RestoreAll(s, probes, c), id) && AddressKept(s, BlameAll(s, probes, c), id)
  {
    hide RestoreAll, BlameAll;
    RestoreAllAt(s, probes, c, id);
    BlameAllAt(s, probes, c, id);
  }

  lemma ActivateKeepsAddress(s: State, mine: ProxyId, c: Client, refresh: bool, expires: Time, id: ProxyId)
    ensures AddressKept(s, Activate(Recheck(s, mine, c), mine, c, refresh, expires), id)
    ensures AddressKept(s, Blame(Recheck(s, mine, c), mine, c), id)
  {
    hide Without;
  }

  lemma CommitKeepsAddress(s: State, call: Call, cancelled: bool, expires: Time, id: ProxyId)
    requires call.phase.Judging?
    ensures AddressKept(s, Commit(s, call, cancelled, expires).0, id)
  {
    hide RestoreAll, BlameAll, Endpoints, Parted, Activate, Recheck, Blame, Without;
    var (mine, c) := (call.phase.id, call.client);
    var given := Restore(s, mine, c);
    var (rest, validated) := Parted(call.probes, call.phase.evidence);
    var blamed := BlameAll(s, validated, c);
    SettlingKeepsAddress(given, call.probes, c, id);
    SettlingKeepsAddress(EnqueuePending(given, c, call.refresh), call.probes, c, id);
    SettlingKeepsAddress(s, validated, c, id);
    SettlingKeepsAddress(blamed, rest, c, id);
    ActivateKeepsAddress(blamed, mine, c, call.refresh, expires, id);
    ActivateKeepsAddress(RestoreAll(blamed, rest, c), mine, c, call.refresh, expires, id);
  }

  /** Lease calls never change an address on record. */
  lemma AdvanceKeepsAddress(l: Ledger, s: State, call: Call, input: Input, id: ProxyId)
    ensures AddressKept(s, Advance(l, s, call, input).1, id)
  {
    hide RestoreAll, BlameAll, Reserve, Commit, Truthful, EvidenceFor, FirstCandidate, Parted, Endpoints, Without;
    SettlingKeepsAddress(s, call.probes, call.client, id);
    match call.phase
    case Ready => ReserveKeepsAddress(s, call.client, call.refresh, input.now, id);
    case Judging(_, _, _, _, _) => CommitKeepsAddress(s, call, input.cancelled, input.expires, id);
    case Convicting(validated) => SettlingKeepsAddress(s, validated, call.client, id);
    case CrossJudging(_, _, _, _, evidence) =>
      var (rest, validated) := Parted(call.probes, evidence);
      SettlingKeepsAddress(s, validated, call.client, id);
      SettlingKeepsAddress(BlameAll(s, validated, call.client), rest, call.client, id);
    case _ =>
  }

  // ---- Every probe that a call answers for ----

  function AllProbes(call: Call): seq<Probe> {
    if call.phase.Convicting? then call.probes + call.phase.validated else call.probes
  }

  /** Where the probes of a call come from when it takes a step: from those it had, or from the one judged. */
  predicate ProbeFrom(call: Call, s: State, p: Probe) {
    || p in AllProbes(call)
    || (call.phase.Judging? && call.phase.id in s.proxies && p == JudgedProbe(call, s.proxies[call.phase.id].address))
    || (call.phase.CrossJudging? && p == JudgedProbe(call, call.phase.address))
  }

  function JudgedProbe(call: Call, address: Address): Probe
    requires call.phase.Judging? || call.phase.CrossJudging?
  {
    Probe(call.phase.id, address, call.phase.address, TokenOr(AmbiguousFailureToken(call.phase.result)))
  }

  lemma PartedFrom(probes: seq<Probe>, e: Option<Front.Evidence>, p: Probe)
    ensures p in Parted(probes, e).0 || p in Parted(probes, e).1 ==> p in probes
  {
  }

  lemma CommitProbesFrom(s: State, call: Call, cancelled: bool, expires: Time, p: Probe)
    requires call.phase.Judging?
    ensures p in AllProbes(Commit(s, call, cancelled, expires).1) ==> ProbeFrom(call, s, p)
  {
    hide RestoreAll, BlameAll, Endpoints, Activate, Parted, AmbiguousFailureToken, FailureScopeOf;
    PartedFrom(call.probes, call.phase.evidence, p);
  }

  lemma WeighProbesFrom(recent: Option<Front.Evidence>, s: State, call: Call, cancelled: bool, p: Probe)
    requires call.phase.Weighing?
    ensures p in AllProbes(Weigh(recent, s, call, cancelled).1) ==> p in call.probes
  {
    hide RestoreAll, Parted, RestoreSnapshot;
    PartedFrom(call.probes, recent, p);
  }

  lemma CrossProbesFrom(s: State, call: Call, cancelled: bool, p: Probe)
    requires call.phase.CrossJudging?
    ensures p in AllProbes(CrossCommit(s, call, cancelled).1) ==> ProbeFrom(call, s, p)
  {
    hide CrossCommit, AmbiguousFailureToken;
    CrossCommitCases(s, call, cancelled);
  }

  lemma AdvanceProbesFrom(l: Ledger, s: State, call: Call, input: Input, p: Probe)
    ensures p in AllProbes(Advance(l, s, call, input).2) ==> ProbeFrom(call, s, p)
  {
    hide RestoreAll, BlameAll, Reserve, Commit, Weigh, CrossCommit, Truthful, EvidenceFor, FirstCandidate, Parted, Endpoints,
         AmbiguousFailureToken;
    match call.phase
    case Judging(_, _, _, _, _) => CommitProbesFrom(s, call, input.cancelled, input.expires, p);
    case Weighing(_) => WeighProbesFrom(RecentEvidence(l.circuit), s, call, input.cancelled, p);
    case CrossJudging(_, _, _, _, _) => CrossProbesFrom(s, call, input.cancelled, p);
    case _ =>
  }

  // ---- Where a probe began ----

  predicate InProbe(phase: LeaseCall.Phase) {
    phase.Probing? || phase.Judging? || phase.CrossProbing? || phase.CrossJudging?
  }

  /** At moment `i` of the run call `k` began a probe of `id`, at the address then on record. */
  predicate BeganAt(run: seq<Moment>, i: nat, k: nat, id: ProxyId, address: Address, since: nat) {
    && i < |run| && run[i].step.Move? && run[i].step.k == k && k in run[i].world.calls
    && var phase := run[i].world.calls[k].phase;
       && (phase.Probing? || phase.CrossProbing?)
       && phase.id == id && phase.address == address && phase.since == since && since == |run[i].world.front.history|
       && id in run[i].world.pool.proxies && run[i].world.pool.proxies[id].address == address
  }

  ghost predicate Began(run: seq<Moment>, k: nat, id: ProxyId, address: Address, since: nat) {
    exists i: nat :: BeganAt(run, i, k, id, address, since)
  }

  /** Call `k` itself probed the proxy, at the probed address, before the token was issued. */
  ghost predicate OwnProbe(run: seq<Moment>, k: nat, p: Probe) {
    exists since: nat :: Began(run, k, p.proxyId, p.probed, since) && (p.token.sequence != 0 ==> since < p.token.sequence)
  }

  ghost predicate Founded(run: seq<Moment>, k: nat, call: Call) {
    && (InProbe(call.phase) ==> Began(run, k, call.phase.id, call.phase.address, call.phase.since))
    && forall p :: p in AllProbes(call) ==> OwnProbe(run, k, p)
  }

  ghost predicate AllFounded(run: seq<Moment>, calls: map<nat, Call>) {
    forall k :: k in calls ==> Founded(run, k, calls[k])
  }

  lemma BeganGrows(run: seq<Moment>, m: Moment, k: nat, id: ProxyId, address: Address, since: nat)
    requires Began(run, k, id, address, since)
    ensures Began(run + [m], k, id, address, since)
  {
    var i: nat :| BeganAt(run, i, k, id, address, since);
    assert BeganAt(run + [m], i, k, id, address, since);
  }

  lemma OwnProbeGrows(run: seq<Moment>, m: Moment, k: nat, p: Probe)
    requires OwnProbe(run, k, p)
    ensures OwnProbe(run + [m], k, p)
  {
    hide Began;
    var since: nat :| Began(run, k, p.proxyId, p.probed, since) && (p.token.sequence != 0 ==> since < p.token.sequence);
    BeganGrows(run, m, k, p.proxyId, p.probed, since);
  }

  lemma FoundedGrows(run: seq<Moment>, m: Moment, k: nat, call: Call)
    requires Founded(run, k, call)
    ensures Founded(run + [m], k, call)
  {
    hide Began, OwnProbe;
    if InProbe(call.phase) {
      BeganGrows(run, m, k, call.phase.id, call.phase.address, call.phase.since);
    }
    forall p | p in AllProbes(call) ensures OwnProbe(run + [m], k, p) {
      OwnProbeGrows(run, m, k, p);
    }
  }

  /** The phase after a step is the probe in progress, or one that this step begins. */
  lemma PhaseFrom(l: Ledger, s: State, call: Call, input: Input)
    ensures var (front, after, next) := Advance(l, s, call, input);
            InProbe(next.phase) ==>
              || (InProbe(call.phase) && next.phase.id == call.phase.id && next.phase.address == call.phase.address
                  && next.phase.since == call.phase.since)
              || ((next.phase.Probing? || next.phase.CrossProbing?) && next.phase.since == |front.history|
                  && next.phase.id in after.proxies && after.proxies[next.phase.id].address == next.phase.address)
  {
    hide RestoreAll, BlameAll, Reserve, CommitVerdict, CrossCommit, Truthful, EvidenceFor, Parted, Endpoints, Weigh;
    match call.phase
    case Ready => ReservedIsThere(s, call.client, call.refresh, input.now);
    case Judging(_, _, _, _, _) => CommitLeavesProbe(s, call, input.cancelled, input.expires);
    case Weighing(_) => WeighCases(RecentEvidence(l.circuit), s, call, input.cancelled);
    case CrossJudging(_, _, _, _, _) => CrossCommitCases(s, call, input.cancelled);
    case _ =>
  }

  lemma ReservedIsThere(s: State, c: Client, refresh: bool, now: Time)
    ensures Reserve(s, c, refresh, now).1.Reserved? ==> Reserve(s, c, refresh, now).1.id in Reserve(s, c, refresh, now).0.proxies
  {
    hide HasLive, ReleaseLease;
  }

  lemma CommitLeavesProbe(s: State, call: Call, cancelled: bool, expires: Time)
    requires call.phase.Judging?
    ensures !InProbe(Commit(s, call, cancelled, expires).1.phase)
  {
    hide RestoreAll, BlameAll, Endpoints, Activate, Parted;
  }

  /** What a call's step adds to its probes is the probe that it judges. */
  lemma MoveFounded(w: World, k: nat, input: Input, run: seq<Moment>, m: Moment)
    requires k in w.calls && Founded(run, k, w.calls[k]) && CallOk(w.front.history, w.calls[k])
    requires m.step == Move(k, input) && Next(w, m.step, m.now, m.world)
    ensures Founded(run + [m], k, m.world.calls[k])
  {
    hide Began, OwnProbe, Advance, CallOk, AllProbes;
    var call, next := w.calls[k], m.world.calls[k];
    PhaseFrom(w.front, w.pool, call, input);
    FoundedGrows(run, m, k, call);
    if InProbe(next.phase) {
      NextProbeFounded(w, k, input, run, m);
    }
    forall p | p in AllProbes(next) ensures OwnProbe(run + [m], k, p) {
      AdvanceProbesFrom(w.front, w.pool, call, input, p);
      if p !in AllProbes(call) {
        JudgedFounded(w.front.history, w.pool, call, k, run + [m], p);
      }
    }
  }

  lemma NextProbeFounded(w: World, k: nat, input: Input, run: seq<Moment>, m: Moment)
    requires k in w.calls && Founded(run + [m], k, w.calls[k])
    requires m.step == Move(k, input) && Next(w, m.step, m.now, m.world) && InProbe(m.world.calls[k].phase)
    ensures var phase := m.world.calls[k].phase; Began(run + [m], k, phase.id, phase.address, phase.since)
  {
    hide Began, OwnProbe, Advance, AllProbes;
    PhaseFrom(w.front, w.pool, w.calls[k], input);
    var call, phase := w.calls[k], m.world.calls[k].phase;
    if InProbe(call.phase) && phase.id == call.phase.id && phase.address == call.phase.address && phase.since == call.phase.since {
    } else {
      assert (run + [m])[|run|] == m;
      assert BeganAt(run + [m], |run|, k, phase.id, phase.address, phase.since);
      BeganIntro(run + [m], |run|, k, phase.id, phase.address, phase.since);
    }
  }

  lemma BeganIntro(run: seq<Moment>, i: nat, k: nat, id: ProxyId, address: Address, since: nat)
    requires BeganAt(run, i, k, id, address, since)
    ensures Began(run, k, id, address, since)
  {
  }

  lemma JudgedFounded(h: History, s: State, call: Call, k: nat, run: seq<Moment>, p: Probe)
    requires CallOk(h, call) && Founded(run, k, call) && ProbeFrom(call, s, p) && p !in AllProbes(call)
    ensures OwnProbe(run, k, p)
  {
    hide Began, Issuances, Increasing, Below;
    assert Began(run, k, p.proxyId, p.probed, call.phase.since);
  }

  lemma {:induction false} HappensSplits(w: World, from: Time, run: seq<Moment>)
    requires Happens(w, from, run) && run != []
    ensures var (front, last) := (run[..|run| - 1], run[|run| - 1]);
            Happens(w, from, front) && LastTime(from, front) <= last.now && Next(LastWorld(w, front), last.step, last.now, last.world)
    decreases |run|
  {
    hide Next;
    if |run| > 1 {
      HappensSplits(run[0].world, run[0].now, run[1..]);
      var front := run[..|run| - 1];
      assert run[1..][..|run| - 2] == front[1..] && run[1..][|run| - 2] == run[|run| - 1];
    }
  }

  lemma StepFounded(w: World, now: Time, run: seq<Moment>, m: Moment)
    requires Sound(w, now) && AllFounded(run, w.calls) && Next(w, m.step, m.now, m.world)
    ensures AllFounded(run + [m], m.world.calls)
  {
    hide Founded, Advance, CallOk, RoundsOk, Exact, AllProbes;
    forall k | k in m.world.calls ensures Founded(run + [m], k, m.world.calls[k]) {
      if m.step.Move? && m.step.k == k {
        CallsOkAt(w.front.history, w.calls, k);
        MoveFounded(w, k, m.step.input, run, m);
      } else if k in w.calls {
        FoundedGrows(run, m, k, w.calls[k]);
      } else {
        NewCallFounded(run + [m], k, w.pool, m.step.c, m.step.refresh);
      }
    }
  }

  lemma NewCallFounded(run: seq<Moment>, k: nat, s: State, c: Client, refresh: bool)
    ensures Founded(run, k, NewCall(s, c, refresh))
  {
  }

  /** Every probe that a call answers for, or has in progress, is one that it began itself. */
  lemma {:induction false} ProbesAreOwn(w: World, from: Time, run: seq<Moment>)
    requires Sound(w, from) && w.calls == map[] && Happens(w, from, run)
    ensures AllFounded(run, LastWorld(w, run).calls)
    decreases |run|
  {
    hide Sound, Next, Founded;
    if run != [] {
      var front, last := run[..|run| - 1], run[|run| - 1];
      HappensSplits(w, from, run);
      ProbesAreOwn(w, from, front);
      RunKeepsSound(w, from, front);
      StepFounded(LastWorld(w, front), LastTime(from, front), front, last);
      assert run == front + [last];
    }
  }

  // ---- Judged by the probed endpoint ----

  predicate ProbingNow(call: Call, id: ProxyId) {
    (call.phase.Probing? || call.phase.Judging?) && call.phase.id == id
  }

  /** Nobody edits the address of `id` while call `k` has a probe of it between reservation and judgement. */
  ghost predicate Quiet(w: World, run: seq<Moment>, k: nat, id: ProxyId)
    decreases |run|
  {
    run == [] ||
    (&& (k in w.calls && ProbingNow(w.calls[k], id) ==> !Readdresses(run[0].step, id))
     && Quiet(run[0].world, run[1..], k, id))
  }

  /** The call judges its probes of `id` by the address that they went to. */
  ghost predicate Honoured(s: State, call: Call, id: ProxyId) {
    && (forall p :: p in AllProbes(call) && p.proxyId == id ==> p.address == p.probed)
    && (ProbingNow(call, id) && id in s.proxies ==> s.proxies[id].address == call.phase.address)
  }

  lemma AdvanceHonoured(l: Ledger, s: State, call: Call, input: Input, id: ProxyId)
    requires Honoured(s, call, id)
    ensures Honoured(Advance(l, s, call, input).1, Advance(l, s, call, input).2, id)
  {
    hide Advance, AllProbes, AmbiguousFailureToken;
    var (_, after, next) := Advance(l, s, call, input);
    AdvanceKeepsAddress(l, s, call, input, id);
    PhaseFrom(l, s, call, input);
    ProbingContinues(l, s, call, input);
    forall p | p in AllProbes(next) && p.proxyId == id ensures p.address == p.probed {
      AdvanceProbesFrom(l, s, call, input, p);
    }
  }

  /** A probe for reservation goes on as one. */
  lemma ProbingContinues(l: Ledger, s: State, call: Call, input: Input)
    ensures var next := Advance(l, s, call, input).2;
            next.phase.Judging? ==> call.phase.Probing? || next == call
    ensures var next := Advance(l, s, call, input).2;
            next.phase.Probing? ==> call.phase.Ready? || next == call
  {
    hide RestoreAll, BlameAll, Reserve, CommitVerdict, Commit, CrossCommit, Truthful, EvidenceFor, Parted, Endpoints, Weigh, FirstCandidate;
    match call.phase
    case Judging(_, _, _, _, _) => CommitLeavesProbe(s, call, input.cancelled, input.expires);
    case Weighing(_) => WeighCases(RecentEvidence(l.circuit), s, call, input.cancelled);
    case CrossJudging(_, _, _, _, _) => CrossCommitCases(s, call, input.cancelled);
    case _ =>
  }

  lemma NextHonoured(w: World, step: Step, now: Time, next: World, k: nat, id: ProxyId)
    requires Next(w, step, now, next) && (k in w.calls ==> Honoured(w.pool, w.calls[k], id))
    requires k in w.calls && ProbingNow(w.calls[k], id) ==> !Readdresses(step, id)
    ensures k in next.calls ==> Honoured(next.pool, next.calls[k], id)
  {
    hide Advance, AllProbes, PoolRuns.Apply, FrontLedger.Apply, RecordHealth, Judged, Readdresses;
    match step
    case Outside(s) =>
      if k in w.calls && ProbingNow(w.calls[k], id) {
        OutsideKeepsAddress(w.pool, s, now, id);
      }
    case Arrive(j, c, refresh) =>
      if j == k {
        NewCallHonoured(w.pool, c, refresh, id);
      }
    case Move(j, input) =>
      if j == k {
        AdvanceHonoured(w.front, w.pool, w.calls[k], input, id);
      } else {
        AdvanceKeepsAddress(w.front, w.pool, w.calls[j], input, id);
      }
    case Deliver(r, ft, st) =>
      var v := w.rounds[r].verdicts[0];
      HealthKeepsAddress(w.pool, v.proxyId, v.passed, ft, st, now, id);
    case _ =>
  }

  lemma NewCallHonoured(s: State, c: Client, refresh: bool, id: ProxyId)
    ensures Honoured(s, NewCall(s, c, refresh), id)
  {
  }

  lemma HealthKeepsAddress(s: State, id: ProxyId, passed: bool, ft: nat, st: nat, now: Time, other: ProxyId)
    ensures AddressKept(s, RecordHealth(s, id, passed, ft, st, now), other)
  {
    hide HasLive;
  }

  lemma {:induction false} QuietRunIsHonoured(w: World, from: Time, run: seq<Moment>, k: nat, id: ProxyId)
    requires Happens(w, from, run) && Quiet(w, run, k, id) && (k in w.calls ==> Honoured(w.pool, w.calls[k], id))
    ensures var last := LastWorld(w, run); k in last.calls ==> Honoured(last.pool, last.calls[k], id)
    decreases |run|
  {
    hide Next, Honoured, Readdresses, ProbingNow;
    if run != [] {
      NextHonoured(w, run[0].step, run[0].now, run[0].world, k, id);
      QuietRunIsHonoured(run[0].world, run[0].now, run[1..], k, id);
    }
  }

  // ---- The results, for every run of a system that begins to serve ----

  /** `p` is the call's own probe of its proxy, recorded as an ambiguous failure of the endpoint it went to. */
  ghost predicate OwnRecord(w: World, run: seq<Moment>, k: nat, p: Probe) {
    p.token.sequence != 0 && OwnProbe(run, k, p) && Recorded(w.front.history, p)
  }

  lemma MoveHasCall(w: World, step: Step, now: Time, next: World)
    ensures step.Move? && Next(w, step, now, next) ==> step.k in w.calls
  {
  }

  /**
   A lease call that raises the failure count of `id`, other than by a failure beyond the front, holds a
   probe of `id` that it began itself, whose recorded ambiguous failure is followed by a success elsewhere
   than at the address on record. If nobody edited that address while a probe of the call was running,
   the success is through another endpoint than the probed one.
   */
  lemma LeaseCallsBlameFairly(start: World, from: Time, run: seq<Moment>, last: Moment, k: nat, id: ProxyId)
    requires Fresh(start, from) && Happens(start, from, run)
    ensures var w := LastWorld(start, run);
            && LastTime(from, run) <= last.now && last.step.Move? && last.step.k == k
            && Next(w, last.step, last.now, last.world) && Raised(w.pool, last.world.pool, id)
            && !FailedBeyondFront(w.calls[k], id) ==>
              exists p: Probe ::
                && p.proxyId == id && OwnRecord(w, run, k, p) && Excused(w.front.history, p.token, p.address)
                && (Quiet(start, run, k, id) ==> Excused(w.front.history, p.token, p.probed))
  {
    var w := LastWorld(start, run);
    hide Sound, Next, Happens, Quiet, Raised, FailedBeyondFront, Honoured, OwnProbe, Excused;
    RunKeepsSound(start, from, run);
    ProbesAreOwn(start, from, run);
    MoveHasCall(w, last.step, last.now, last.world);
    if && LastTime(from, run) <= last.now && last.step.Move? && last.step.k == k
       && Next(w, last.step, last.now, last.world) && Raised(w.pool, last.world.pool, id) && !FailedBeyondFront(w.calls[k], id)
    {
      SoundLater(w, LastTime(from, run), last.now);
      NextBlamesFairly(w, last.step, last.now, last.world, id);
      var p :| p in Accused(w.calls[k]) && p.proxyId == id && IsExcused(w.front.history, p);
      assert OwnProbe(run, k, p);
      if Quiet(start, run, k, id) {
        QuietRunIsHonoured(start, from, run, k, id);
        HonouredAt(w.pool, w.calls[k], id, p);
        UneditedRecordIsProbed(w.front.history, p);
      }
    }
  }

  lemma HonouredAt(s: State, call: Call, id: ProxyId, p: Probe)
    requires Honoured(s, call, id) && p in AllProbes(call) && p.proxyId == id
    ensures p.address == p.probed
  {
  }

  /** Two probes of the call, recorded within the all-ambiguous end of the history, went to different endpoints. */
  ghost predicate ProbedApart(w: World, run: seq<Moment>, k: nat, from: nat, p: Probe, q: Probe) {
    && OwnRecord(w, run, k, p) && OwnRecord(w, run, k, q) && SuffixAmbiguous(w.front, from)
    && from < p.token.sequence && from < q.token.sequence
    && !SameEndpoint(p.probed, q.probed)
  }

  lemma WitnessesApart(w: World, run: seq<Moment>, k: nat)
    requires k in w.calls && FrontSuspected(w.front, w.calls[k].probes) && Founded(run, k, w.calls[k])
    requires forall p :: p in w.calls[k].probes ==> p.address == p.probed
    ensures exists since: nat, p: Probe, q: Probe :: ProbedApart(w, run, k, since, p, q)
  {
    hide OwnProbe, SuffixAmbiguous, Began;
    var probes := w.calls[k].probes;
    var since: nat, i, j :|
      && 0 <= i < j < |probes| && WitnessPair(probes[i], probes[j])
      && InSuffix(w.front, since, probes[i]) && InSuffix(w.front, since, probes[j]) && SuffixAmbiguous(w.front, since);
    var p, q := probes[i], probes[j];
    assert p in AllProbes(w.calls[k]) && q in AllProbes(w.calls[k]);
    UneditedWitnessesDiffer(p, q);
    assert ProbedApart(w, run, k, since, p, q);
  }

  /**
   A lease call that opens the circuit, while nobody edited the address of a proxy it was probing, probed
   two different endpoints itself, and both failures lie in the all-ambiguous end of the history.
   */
  lemma LeaseCallsOpenFairly(start: World, from: Time, run: seq<Moment>, last: Moment, k: nat)
    requires Fresh(start, from) && Happens(start, from, run)
    requires forall id :: Quiet(start, run, k, id)
    ensures var w := LastWorld(start, run);
            && LastTime(from, run) <= last.now && last.step.Move? && last.step.k == k
            && Next(w, last.step, last.now, last.world)
            && last.world.front.circuit.generation > w.front.circuit.generation ==>
              exists since: nat, p: Probe, q: Probe :: ProbedApart(w, run, k, since, p, q)
  {
    var w := LastWorld(start, run);
    hide Sound, Next, Happens, Quiet, Honoured, Founded, ProbedApart, FrontSuspected;
    RunKeepsSound(start, from, run);
    ProbesAreOwn(start, from, run);
    MoveHasCall(w, last.step, last.now, last.world);
    if && LastTime(from, run) <= last.now && last.step.Move? && last.step.k == k
       && Next(w, last.step, last.now, last.world) && last.world.front.circuit.generation > w.front.circuit.generation
    {
      SoundLater(w, LastTime(from, run), last.now);
      NextOpensFairly(w, last.step, last.now, last.world);
      forall p | p in w.calls[k].probes ensures p.address == p.probed {
        QuietRunIsHonoured(start, from, run, k, p.proxyId);
        HonouredAt(w.pool, w.calls[k], p.proxyId, p);
      }
      WitnessesApart(w, run, k);
    }
  }
}
