/** What becomes of the proxies that a lease call reserves, and why it ends as it does. */
module CallReserved {
  import opened Common
  import opened Addresses
  import opened Front
  import opened FrontLedger
  import opened FrontPath
  import opened Evidence
  import opened Pool
  import opened LeaseCall
  import opened CallSafety
  import opened CallProgress

  /** Active, idle, unhealthy or disabled: what a reserved proxy may end as. */
  predicate AtRest(p: Proxy) {
    p.status in {ProxyActive, ProxyIdle, ProxyUnhealthy, ProxyDisabled}
  }

  /** A proxy of the pool without connections, at rest or still being checked for `c`. */
  predicate ReservedOk(s: State, c: Client, id: ProxyId) {
    && id in s.proxies && s.proxies[id].source == PoolSource && s.proxies[id].activeConns == 0
    && (AtRest(s.proxies[id]) || CheckedFor(s, id, c))
  }

  /** An idle proxy has no connections. */
  ghost predicate IdleIsQuiet(s: State) {
    forall id :: id in s.proxies && s.proxies[id].status == ProxyIdle ==> s.proxies[id].activeConns == 0
  }

  /** If idle proxies had no connections at the start, the reserved ones are as they should be. */
  ghost predicate LogOk(s0: State, s: State, c: Client, log: seq<ProxyId>) {
    IdleIsQuiet(s0) ==> IdleIsQuiet(s) && forall id :: id in log ==> ReservedOk(s, c, id)
  }

  // ---- One proxy ----

  /** A step that gives no proxy connections, and starts no check but for `c`. */
  predicate Tame(p: Proxy, q: Proxy, c: Client) {
    && q.source == p.source
    && (p.activeConns == 0 ==>
          && q.activeConns == 0
          && ((q.status == p.status && q.client == p.client) || AtRest(q) || (q.status == ProxyChecking && q.client == Some(c))))
    && (q.status == ProxyIdle && q.activeConns != 0 ==> p.status == ProxyIdle && p.activeConns != 0)
  }

  predicate TameAt(s: State, after: State, c: Client, id: ProxyId) {
    && (id in after.proxies ==> id in s.proxies && Tame(s.proxies[id], after.proxies[id], c))
    && (id in s.proxies && s.proxies[id].source == PoolSource ==> id in after.proxies)
  }

  lemma TameChain(s: State, mid: State, after: State, c: Client, id: ProxyId)
    requires TameAt(s, mid, c, id) && TameAt(mid, after, c, id)
    ensures TameAt(s, after, c, id)
  {
  }

  lemma TameKeepsLog(s0: State, s: State, after: State, c: Client, log: seq<ProxyId>)
    requires LogOk(s0, s, c, log) && forall id :: TameAt(s, after, c, id)
    ensures LogOk(s0, after, c, log)
  {
    forall id | id in log && IdleIsQuiet(s0) ensures ReservedOk(after, c, id) {
      assert ReservedOk(s, c, id) && TameAt(s, after, c, id);
    }
    forall id | id in after.proxies && after.proxies[id].status == ProxyIdle && IdleIsQuiet(s0)
      ensures after.proxies[id].activeConns == 0
    {
      assert TameAt(s, after, c, id);
    }
  }

  // ---- Each part of a call ----

  lemma ReleaseTame(s: State, c: Client, now: Time, id: ProxyId)
    ensures TameAt(s, ReleaseLease(s, c, now), c, id)
  {
    hide HasLive, Keep, Without;
  }

  lemma ReserveTame(s: State, c: Client, refresh: bool, now: Time, id: ProxyId)
    ensures TameAt(s, Reserve(s, c, refresh, now).0, c, id)
  {
    hide HasLive, ReleaseLease, FirstEligible;
    ReleaseTame(s, c, now, id);
  }

  lemma SettlingTame(s: State, probes: seq<Probe>, c: Client, id: ProxyId)
    ensures TameAt(s, RestoreAll(s, probes, c), c, id) && TameAt(s, BlameAll(s, probes, c), c, id)
  {
    hide RestoreAll, BlameAll;
    RestoreAllAt(s, probes, c, id);
    BlameAllAt(s, probes, c, id);
  }

  lemma ActivateTame(s: State, mine: ProxyId, c: Client, refresh: bool, expires: Time, id: ProxyId)
    ensures TameAt(s, Activate(Recheck(s, mine, c), mine, c, refresh, expires), c, id)
    ensures TameAt(s, Blame(Recheck(s, mine, c), mine, c), c, id)
  {
    hide Without;
  }

  lemma VerdictTame(s: State, call: Call, expires: Time, id: ProxyId)
    requires call.phase.Judging?
    ensures TameAt(s, CommitVerdict(s, call, expires).0, call.client, id)
  {
    hide RestoreAll, BlameAll, Parted, Activate, Recheck, Blame, TameAt;
    var (mine, c) := (call.phase.id, call.client);
    var (rest, validated) := Parted(call.probes, call.phase.evidence);
    var blamed := BlameAll(s, validated, c);
    var settled := RestoreAll(blamed, rest, c);
    SettlingTame(s, validated, c, id);
    SettlingTame(blamed, rest, c, id);
    ActivateTame(blamed, mine, c, call.refresh, expires, id);
    ActivateTame(settled, mine, c, call.refresh, expires, id);
    if call.phase.result.Failed? {
      TameChain(s, blamed, Blame(Recheck(blamed, mine, c), mine, c), c, id);
    } else {
      TameChain(s, blamed, settled, c, id);
      TameChain(s, settled, Activate(Recheck(settled, mine, c), mine, c, call.refresh, expires), c, id);
    }
  }

  lemma CommitTame(s: State, call: Call, cancelled: bool, expires: Time, id: ProxyId)
    requires call.phase.Judging?
    ensures TameAt(s, Commit(s, call, cancelled, expires).0, call.client, id)
  {
    hide RestoreAll, BlameAll, CommitVerdict, Endpoints;
    var (mine, c) := (call.phase.id, call.client);
    var given := Restore(s, mine, c);
    SettlingTame(given, call.probes, c, id);
    SettlingTame(EnqueuePending(given, c, call.refresh), call.probes, c, id);
    VerdictTame(s, call, expires, id);
  }

  lemma CrossTame(s: State, call: Call, cancelled: bool, id: ProxyId)
    requires call.phase.CrossJudging?
    ensures TameAt(s, CrossCommit(s, call, cancelled).0, call.client, id)
  {
    hide RestoreAll, BlameAll, Parted, FailureScopeOf, AmbiguousFailureToken, Without;
    var (rest, validated) := Parted(call.probes, call.phase.evidence);
    SettlingTame(s, call.probes, call.client, id);
    SettlingTame(s, validated, call.client, id);
    SettlingTame(BlameAll(s, validated, call.client), rest, call.client, id);
  }

  lemma ConcludeTame(s: State, call: Call, id: ProxyId)
    requires call.phase.Convicting?
    ensures TameAt(s, Conclude(s, call).0, call.client, id)
  {
    hide RestoreAll, BlameAll;
    SettlingTame(s, call.phase.validated, call.client, id);
    SettlingTame(BlameAll(s, call.phase.validated, call.client), call.probes, call.client, id);
  }

  lemma LookAgainTame(s: State, call: Call, later: Option<Front.Evidence>, id: ProxyId)
    requires call.phase == Weighing(true)
    ensures TameAt(s, LookAgain(s, call, later).0, call.client, id)
  {
    hide RestoreAll, BlameAll, Conclude, Parted;
    var (t, next) := Weigh(later, s, call, false);
    SettlingTame(s, call.probes, call.client, id);
    if next.phase.Convicting? {
      ConcludeTame(t, next, id);
    }
  }

  lemma ResolveTame(s: State, call: Call, x: Settlement, id: ProxyId)
    requires call.phase == Weighing(false)
    ensures TameAt(s, Resolve(s, call, x).0, call.client, id)
  {
    hide RestoreAll, BlameAll, Conclude, LookAgain, CrossCommit, Parted, FirstCandidate, Without;
    SettlingTame(s, call.probes, call.client, id);
    var (t, next) := Weigh(x.recent, s, call, x.cancelled);
    if next.phase.Finished? {
    } else if next.phase.Convicting? {
      ConcludeTame(t, next, id);
    } else {
      match FirstCandidate(t, next.probes, t.order)
      case None => LookAgainTame(t, next.(phase := Weighing(true)), x.later, id);
      case Some(i) =>
        var crossing := next.(phase := CrossJudging(i, t.proxies[i].address, 0, x.crossResult, x.crossEvidence));
        CrossTame(t, crossing, x.crossCancelled, id);
        CrossCommitCases(t, crossing, x.crossCancelled);
        CrossCommitSame(t, crossing, x.crossCancelled);
        var (u, last) := CrossCommit(t, crossing, x.crossCancelled);
        if !last.phase.Finished? {
          LookAgainTame(u, last, x.later, id);
          TameChain(s, u, LookAgain(u, last, x.later).0, call.client, id);
        }
    }
  }

  lemma CrossCommitSame(s: State, call: Call, cancelled: bool)
    requires call.phase.CrossJudging?
    ensures var next := CrossCommit(s, call, cancelled).1;
            next.client == call.client && (!next.phase.Finished? ==> next.phase == Weighing(true))
  {
    hide RestoreAll, BlameAll, Parted, AmbiguousFailureToken, FailureScopeOf, RestoreSnapshot;
  }

  // ---- The log of reservations ----

  lemma LogStarts(s: State, c: Client)
    ensures LogOk(s, s, c, [])
  {
  }

  /** A new reservation joins the log as an idle proxy of the pool that is now being checked. */
  lemma ReserveLogs(s0: State, s: State, c: Client, refresh: bool, now: Time, log: seq<ProxyId>)
    requires LogOk(s0, s, c, log)
    ensures var (after, r) := Reserve(s, c, refresh, now);
            LogOk(s0, after, c, log + if r.Reserved? then [r.id] else [])
  {
    hide ReleaseLease, HasLive, TameAt;
    var (after, r) := Reserve(s, c, refresh, now);
    forall id ensures TameAt(s, after, c, id) {
      ReserveTame(s, c, refresh, now, id);
    }
    TameKeepsLog(s0, s, after, c, log);
    var swept := Swept(s, c, now);
    forall id ensures TameAt(s, swept, c, id) {
      ReleaseTame(s, c, now, id);
      TameSelf(s, c, id);
    }
    TameKeepsLog(s0, s, swept, c, log);
  }

  lemma TameSelf(s: State, c: Client, id: ProxyId)
    ensures TameAt(s, s, c, id)
  {
  }

  lemma QuieterLogs(s0: State, s: State, after: State, c: Client, log: seq<ProxyId>)
    requires LogOk(s0, s, c, log) && Quieter(s, after)
    ensures LogOk(s0, after, c, log)
  {
    hide Spare, LogOk;
    forall id ensures TameAt(s, after, c, id) {
      assert id in s.proxies ==> Worse(s.proxies[id], after.proxies[id]);
    }
    TameKeepsLog(s0, s, after, c, log);
  }

  lemma CommitLogs(s0: State, s: State, call: Call, cancelled: bool, expires: Time, log: seq<ProxyId>)
    requires LogOk(s0, s, call.client, log) && call.phase.Judging?
    ensures LogOk(s0, Commit(s, call, cancelled, expires).0, call.client, log)
  {
    hide Commit, LogOk, TameAt;
    forall id ensures TameAt(s, Commit(s, call, cancelled, expires).0, call.client, id) {
      CommitTame(s, call, cancelled, expires, id);
    }
    TameKeepsLog(s0, s, Commit(s, call, cancelled, expires).0, call.client, log);
  }

  lemma ResolveLogs(s0: State, s: State, call: Call, x: Settlement, log: seq<ProxyId>)
    requires LogOk(s0, s, call.client, log) && call.phase == Weighing(false)
    ensures LogOk(s0, Resolve(s, call, x).0, call.client, log)
  {
    hide Resolve, LogOk, TameAt;
    forall id ensures TameAt(s, Resolve(s, call, x).0, call.client, id) {
      ResolveTame(s, call, x, id);
    }
    TameKeepsLog(s0, s, Resolve(s, call, x).0, call.client, log);
  }

  /** Every proxy that the call reserved and no longer checks is at rest. */
  lemma ReservedAtRest(s0: State, s: State, c: Client, log: seq<ProxyId>, id: ProxyId)
    requires LogOk(s0, s, c, log) && IdleIsQuiet(s0) && id in log
    ensures id in s.proxies && (AtRest(s.proxies[id]) || CheckingFor(s, id) == Some(c))
  {
  }

  // ---- Why a call ends as it does ----

  /** Some probe of the call failed on the front or on the way through it. */
  predicate Troubled(judged: seq<Result>) {
    exists i :: 0 <= i < |judged| && IsFrontFailure(judged[i])
  }

  ghost predicate NothingFree(s: State) {
    exists at :: FirstEligible(s, at, s.order).None?
  }

  /** Held probes mean trouble, and the lease is still the one from the start, if it was not swept. */
  predicate Trying(s0: State, s: State, call: Call, judged: seq<Result>) {
    && (call.probes != [] ==> Troubled(judged))
    && (call.client in s.leases ==> LeaseOf(s, call.client) == LeaseOf(s0, call.client))
  }

  /** A pending answer comes from trouble with the front, or from an empty pool; a batch comes from trouble. */
  ghost predicate Explained(s: State, call: Call, judged: seq<Result>) {
    && (call.phase.Weighing? ==> Troubled(judged))
    && (call.answer.status == LeasePending ==> Troubled(judged) || NothingFree(s))
  }

  /** An active answer is the lease from the start, or is for the proxy reserved last, whose probe succeeded. */
  predicate Earned(s0: State, c: Client, a: Assignment, log: seq<ProxyId>, judged: seq<Result>) {
    a.status == LeaseActive && a.lease != LeaseOf(s0, c) ==>
      && judged != [] && judged[|judged| - 1].Success?
      && log != [] && a.lease.Some? && a.lease.value.proxyId == log[|log| - 1]
  }

  lemma EnqueueFreesNone(s: State, c: Client, refresh: bool, at: Time, order: seq<ProxyId>)
    ensures FirstEligible(EnqueuePending(s, c, refresh), at, order) == FirstEligible(s, at, order)
    decreases |order|
  {
    if order != [] {
      EnqueueFreesNone(s, c, refresh, at, order[1..]);
      assert Eligible(EnqueuePending(s, c, refresh), at, order[0]) == Eligible(s, at, order[0]);
    }
  }

  lemma AnsweredReasons(s: State, c: Client, refresh: bool, now: Time)
    ensures var (after, r) := Reserve(s, c, refresh, now);
            && (r.Answered? && r.assignment.status == LeasePending ==> NothingFree(after))
            && (r.Answered? && r.assignment.status == LeaseActive ==> r.assignment.lease == LeaseOf(s, c))
            && (c in after.leases ==> LeaseOf(after, c) == LeaseOf(s, c))
  {
    hide HasLive, Keep, Without, FirstEligible, Eligible;
    var swept := Swept(s, c, now);
    EnqueueFreesNone(swept, c, refresh, now, swept.order);
  }

  lemma AnswerExplained(s0: State, s: State, call: Call, now: Time, next: Call, log: seq<ProxyId>, judged: seq<Result>)
    requires Trying(s0, s, call, judged) && Reserve(s, call.client, call.refresh, now).1.Answered?
    requires next == call.(answer := Reserve(s, call.client, call.refresh, now).1.assignment,
                           phase := if call.probes == [] then LeaseCall.Phase.Finished else Weighing(false))
    ensures Explained(Reserve(s, call.client, call.refresh, now).0, next, judged) && Earned(s0, call.client, next.answer, log, judged)
  {
    hide Reserve, Troubled, NothingFree;
    AnsweredReasons(s, call.client, call.refresh, now);
    ActiveHasLease(s, call.client, call.refresh, now);
  }

  lemma ActiveHasLease(s: State, c: Client, refresh: bool, now: Time)
    ensures var r := Reserve(s, c, refresh, now).1;
            r.Answered? && r.assignment.status == LeaseActive ==> c in s.leases
  {
    hide HasLive, Keep, Without, FirstEligible;
  }

  lemma CommitReasons(s: State, call: Call, cancelled: bool, expires: Time)
    requires call.phase.Judging?
    ensures var (after, next) := Commit(s, call, cancelled, expires);
            && (next.phase.Finished? && !cancelled ==>
                  if next.answer.status != LeaseActive then IsFrontFailure(call.phase.result)
                  else call.phase.result.Success? && next.answer.lease == Some(Lease(call.phase.id, expires)))
            && (next.phase.Weighing? ==> IsFrontFailure(call.phase.result) && next.answer.status == LeasePending)
            && (next.probes != [] ==> call.probes != [] || IsFrontFailure(call.phase.result))
            && (next.phase.Ready? ==> after.leases == s.leases) && next.client == call.client
  {
    hide RestoreAll, BlameAll, Endpoints, Activate, Parted, Without;
    PartedEmpty(call.phase.evidence);
    RetrySpares(s, call, cancelled, expires);
  }

  lemma PartedEmpty(e: Option<Front.Evidence>)
    ensures Parted([], e) == ([], [])
  {
  }

  /** Judging one more result either goes on trying, or ends for a reason. */
  lemma CommitExplained(s0: State, s: State, call: Call, cancelled: bool, expires: Time, log: seq<ProxyId>, judged: seq<Result>)
    requires call.phase.Judging? && Trying(s0, s, call, judged) && log != [] && log[|log| - 1] == call.phase.id
    ensures var (after, next) := Commit(s, call, cancelled, expires);
            var more := judged + [call.phase.result];
            && (next.phase.Ready? ==> Trying(s0, after, next, more))
            && (!next.phase.Ready? ==> Earned(s0, call.client, next.answer, log, more))
            && (!next.phase.Ready? && !cancelled ==> Explained(after, next, more))
  {
    hide Commit, IsFrontFailure, NothingFree;
    CommitReasons(s, call, cancelled, expires);
    CommitSame(s, call, cancelled, expires);
    CommitAnswers(s, call, cancelled, expires);
    var more := judged + [call.phase.result];
    assert more[|judged|] == call.phase.result;
    if Troubled(judged) {
      var i :| 0 <= i < |judged| && IsFrontFailure(judged[i]);
      assert more[i] == judged[i];
    }
  }

  lemma TryingStarts(s: State, start: Call)
    requires start.probes == []
    ensures Trying(s, s, start, [])
  {
  }

  lemma TryingJudges(s0: State, s: State, trying: Call, judging: Call, judged: seq<Result>)
    requires Trying(s0, s, trying, judged) && judging == trying.(phase := judging.phase)
    ensures Trying(s0, s, judging, judged)
  {
  }

  /** Queueing changes no lease, so that an active answer is the lease from the start. */
  lemma QueueingKeepsLease(s: State, after: State, c: Client, refresh: bool, a: Assignment, log: seq<ProxyId>, judged: seq<Result>)
    requires after == s || after == EnqueuePending(s, c, refresh)
    requires Answers(after, c, a)
    ensures Earned(s, c, a, log, judged)
  {
  }

  lemma QuieterTrying(s0: State, s: State, after: State, call: Call, judged: seq<Result>)
    requires Trying(s0, s, call, judged) && after.leases == s.leases
    ensures Trying(s0, after, call, judged)
  {
  }

  lemma ReservedTrying(s0: State, s: State, call: Call, now: Time, judged: seq<Result>)
    requires Trying(s0, s, call, judged)
    ensures Trying(s0, Reserve(s, call.client, call.refresh, now).0, call, judged)
  {
    hide Reserve, Troubled, NothingFree;
    AnsweredReasons(s, call.client, call.refresh, now);
    ReserveKeepsOthers(s, call.client, call.refresh, now);
  }

  lemma ReserveKeepsOthers(s: State, c: Client, refresh: bool, now: Time)
    ensures c in Reserve(s, c, refresh, now).0.leases ==> c in s.leases
  {
    hide HasLive, Keep, Without, FirstEligible;
  }
}
