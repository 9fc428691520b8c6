/** What a lease call does to the spare proxies and to the queues, on its way to an answer. */
module CallProgress {
  import opened Common
  import opened Addresses
  import opened Front
  import opened FrontLedger
  import opened FrontPath
  import opened Evidence
  import opened Pool
  import opened PoolSafety
  import opened LeaseCall
  import opened CallSafety

  // ---- Spare proxies ----

  /** The pool proxies that could be reserved if no lease were in the way. */
  function Spare(s: State): set<ProxyId> {
    set id | id in s.proxies && s.proxies[id].source == PoolSource && s.proxies[id].status == ProxyIdle && !s.proxies[id].disabled
  }

  /** What else may go on during a call: proxies fail, and are disabled, but nothing is freed. */
  ghost predicate Quieter(s: State, after: State) {
    && after == s.(proxies := after.proxies, disk := after.disk) && after.proxies.Keys == s.proxies.Keys
    && Spare(after) <= Spare(s)
    && (forall id :: CheckingFor(after, id).Some? ==> CheckingFor(after, id) == CheckingFor(s, id))
    && forall id :: id in s.proxies ==> Worse(s.proxies[id], after.proxies[id])
  }

  /** The same proxy, or the same but unhealthy or disabled. */
  predicate Worse(p: Proxy, q: Proxy) {
    && q.activeConns == p.activeConns && q.source == p.source && q.client == p.client
    && (q.status == p.status || q.status == ProxyUnhealthy || q.status == ProxyDisabled)
  }

  lemma QuieterOnce(s: State, id: ProxyId, ft: nat, st: nat, now: Time)
    ensures Quieter(s, SetProxyDisabled(s, id, true)) && Quieter(s, RecordHealth(s, id, false, ft, st, now))
  {
  }

  lemma QuieterChain(s: State, mid: State, after: State)
    requires Quieter(s, mid) && Quieter(mid, after)
    ensures Quieter(s, after)
  {
    hide Spare, CheckingFor;
  }

  /** A reservation takes a spare proxy, unless it first sweeps the client's lapsed lease away. */
  lemma ReserveSpends(s: State, c: Client, refresh: bool, now: Time)
    ensures var (after, r) := Reserve(s, c, refresh, now);
            && (r.Reserved? && !Expired(s.leases, now, c) ==>
                  after.leases == s.leases && Spare(after) < Spare(s)
                  && after.pendingNew == s.pendingNew && after.pendingRefs == s.pendingRefs)
            && (r.Reserved? && Expired(s.leases, now, c) ==>
                  && c in s.leases && c !in after.leases
                  && after.pendingNew == Without(s.pendingNew, c) && after.pendingRefs == Without(s.pendingRefs, c))
            && (r.Reserved? ==> CheckingFor(after, r.id) == Some(c) && !after.proxies[r.id].disabled)
  {
    hide HasLive, Without, Keep;
    var (after, r) := Reserve(s, c, refresh, now);
    if r.Reserved? && !Expired(s.leases, now, c) {
      assert r.id in Spare(s) && r.id !in Spare(after);
    }
  }

  lemma SettlingSpares(s: State, probes: seq<Probe>, c: Client)
    ensures Spare(BlameAll(s, probes, c)) <= Spare(s)
  {
    hide BlameAll;
    forall id | id in Spare(BlameAll(s, probes, c)) ensures id in Spare(s) {
      BlameAllAt(s, probes, c, id);
    }
  }

  /** A probe that makes the call try again frees nothing, and leaves leases and queues alone. */
  lemma RetrySpares(s: State, call: Call, cancelled: bool, expires: Time)
    requires call.phase.Judging?
    ensures var (after, next) := Commit(s, call, cancelled, expires);
            next.phase.Ready? ==>
              && after.leases == s.leases && Spare(after) <= Spare(s)
              && after.pendingNew == s.pendingNew && after.pendingRefs == s.pendingRefs
  {
    hide RestoreAll, BlameAll, Endpoints, Activate, Parted, Without;
    var validated := Parted(call.probes, call.phase.evidence).1;
    SettlingSpares(s, validated, call.client);
    BlameAllAt(s, validated, call.client, call.phase.id);
  }

  // ---- Queues ----

  predicate Queued(s: State, c: Client) {
    c in s.pendingNew || c in s.pendingRefs
  }

  /** The answer is a lease of the client, or a promise that it is queued. */
  predicate Answers(s: State, c: Client, a: Assignment) {
    && a.status != LeaseBlocked
    && (a.status == LeaseActive ==> a.lease.Some? && LeaseOf(s, c) == a.lease)
    && (a.status == LeasePending ==> Queued(s, c))
  }

  /** Neither queue got longer, and the client is the only one that may have left them. */
  predicate QueuesKept(s: State, after: State, c: Client) {
    && (after.pendingNew == s.pendingNew || after.pendingNew == Without(s.pendingNew, c))
    && (after.pendingRefs == s.pendingRefs || after.pendingRefs == Without(s.pendingRefs, c))
  }

  lemma WithoutTwice(s: seq<Client>, c: Client)
    ensures Without(Without(s, c), c) == Without(s, c)
  {
  }

  lemma QueuesKeptChain(s: State, mid: State, after: State, c: Client)
    requires QueuesKept(s, mid, c) && QueuesKept(mid, after, c)
    ensures QueuesKept(s, after, c)
  {
    hide Without;
    WithoutTwice(s.pendingNew, c);
    WithoutTwice(s.pendingRefs, c);
  }

  /** Nobody is queued who was not before. */
  predicate NobodyAdded(s: State, after: State) {
    && (forall d :: d in after.pendingNew ==> d in s.pendingNew)
    && (forall d :: d in after.pendingRefs ==> d in s.pendingRefs)
  }

  predicate QueuesSame(s: State, after: State) {
    after.pendingNew == s.pendingNew && after.pendingRefs == s.pendingRefs
  }

  /** When the reservation answers, the answer is honest, and an active one queues nobody. */
  lemma ReserveAnswers(s: State, c: Client, refresh: bool, now: Time)
    ensures var (after, r) := Reserve(s, c, refresh, now);
            && (r.Answered? ==> Answers(after, c, r.assignment))
            && (r.Answered? && r.assignment.status == LeaseActive ==> QueuesKept(s, after, c))
            && (r.Answered? && r.assignment.status == LeaseActive ==> Reserve(s, c, refresh, now).0 == Swept(s, c, now))
  {
    hide HasLive, Without, Keep, FirstEligible;
  }

  lemma ActivateAnswers(s: State, id: ProxyId, c: Client, refresh: bool, expires: Time)
    requires CheckedFor(s, id, c) && !s.proxies[id].disabled
    ensures var after := Activate(s, id, c, refresh, expires);
            && LeaseOf(after, c) == Some(Lease(id, expires))
            && after.pendingNew == Without(s.pendingNew, c) && after.pendingRefs == Without(s.pendingRefs, c)
  {
    hide Without;
  }

  lemma VerdictAnswers(s: State, call: Call, expires: Time)
    requires call.phase.Judging? && CheckedFor(s, call.phase.id, call.client) && !s.proxies[call.phase.id].disabled
    ensures var (after, next) := CommitVerdict(s, call, expires);
            && (next.phase.Ready? || next.phase.Finished?)
            && (next.phase.Finished? ==>
                  Answers(after, call.client, next.answer) && next.answer.status == LeaseActive && QueuesKept(s, after, call.client))
  {
    hide RestoreAll, BlameAll, Parted, Without, Activate;
    var (mine, c) := (call.phase.id, call.client);
    var (rest, validated) := Parted(call.probes, call.phase.evidence);
    var blamed := BlameAll(s, validated, c);
    BlameAllAt(s, validated, c, mine);
    RestoreAllAt(blamed, rest, c, mine);
    ActivateAnswers(Recheck(RestoreAll(blamed, rest, c), mine, c), mine, c, call.refresh, expires);
  }

  /** A call that ends at a probe's result was cancelled and queued nobody, or answers honestly. */
  lemma CommitAnswers(s: State, call: Call, cancelled: bool, expires: Time)
    requires call.phase.Judging?
    ensures var (after, next) := Commit(s, call, cancelled, expires);
            && (next.phase.Ready? || next.phase.Finished? || (next.phase.Weighing? && !next.phase.crossed))
            && (cancelled && next.phase.Finished? ==> QueuesSame(s, after) && next.answer.status == LeasePending)
            && (cancelled ==> !next.phase.Weighing?)
            && (!cancelled && !next.phase.Ready? ==> Answers(after, call.client, next.answer))
            && (next.phase.Finished? && next.answer.status == LeaseActive ==> QueuesKept(s, after, call.client))
            && (next.phase.Weighing? ==> next.answer.status == LeasePending)
            && (next.phase.Weighing? || (next.phase.Finished? && next.answer.status == LeasePending) ==>
                  (QueuesSame(s, after) || QueuesSame(EnqueuePending(s, call.client, call.refresh), after)))
  {
    hide RestoreAll, BlameAll, CommitVerdict, Endpoints, Without;
    var (mine, c) := (call.phase.id, call.client);
    SettlingOnlyProxies(Restore(s, mine, c), call.probes, c);
    SettlingOnlyProxies(EnqueuePending(Restore(s, mine, c), c, call.refresh), call.probes, c);
    if CheckedFor(s, mine, c) && !s.proxies[mine].disabled {
      VerdictAnswers(s, call, expires);
    }
  }

  // ---- A whole settlement ----

  /** It ends with the call's answer, holds nothing, and touches neither leases nor order. */
  predicate SettledFor(s: State, after: State, call: Call, next: Call) {
    && next.phase.Finished? && next.answer == call.answer && next.client == call.client
    && after.leases == s.leases && after.order == s.order && after.proxies.Keys == s.proxies.Keys
    && after.disk == s.disk && after.via == s.via
  }

  lemma ConcludeSettles(s: State, call: Call)
    requires call.phase.Convicting?
    ensures var (after, next) := Conclude(s, call);
            SettledFor(s, after, call, next) && QueuesSame(s, after) && forall id :: StillHeld(s, after, call, next, id)
  {
    hide RestoreAll, BlameAll, StillHeld;
    var (t, mid) := Convict(s, call);
    SettlingOnlyProxies(s, call.phase.validated, call.client);
    SettlingOnlyProxies(t, call.probes, call.client);
    forall id ensures StillHeld(s, Conclude(s, call).0, call, Conclude(s, call).1, id) {
      ConvictHolds(s, call, id);
      if mid.phase.Settling? {
        SettleHolds(t, mid, id);
        StillHeldChain(s, t, Settle(t, mid).0, call, mid, Settle(t, mid).1, id);
      }
    }
  }

  lemma LookAgainSettles(s: State, call: Call, later: Option<Front.Evidence>)
    requires call.phase == Weighing(true)
    ensures var (after, next) := LookAgain(s, call, later);
            SettledFor(s, after, call, next) && QueuesSame(s, after) && forall id :: StillHeld(s, after, call, next, id)
  {
    hide RestoreAll, Conclude, StillHeld, Parted;
    var (t, mid) := Weigh(later, s, call, false);
    var (after, next) := LookAgain(s, call, later);
    SettlingOnlyProxies(t, mid.probes, call.client);
    if mid.phase.Convicting? {
      ConcludeSettles(t, mid);
    }
    forall id ensures StillHeld(s, after, call, next, id) {
      WeighHolds(later, s, call, false, id);
      if mid.phase.Batching? {
        SettleHolds(t, mid.(phase := Settling), id);
        SettlingHoldsSame(s, t, call, mid, id);
        StillHeldChain(s, t, after, call, mid.(phase := Settling), next, id);
      } else {
        StillHeldChain(s, t, after, call, mid, next, id);
      }
    }
  }

  /** Putting the batch to the circuit changes nothing about what is held. */
  lemma SettlingHoldsSame(s: State, t: State, call: Call, mid: Call, id: ProxyId)
    requires mid.phase.Batching? && StillHeld(s, t, call, mid, id)
    ensures StillHeld(s, t, call, mid.(phase := Settling), id)
  {
  }

  /** The surroundings cancelled the call before or during its cross-validation. */
  predicate Stopped(s: State, call: Call, x: Settlement) {
    || x.cancelled
    || (Parted(call.probes, x.recent).1 == [] && FirstCandidate(s, call.probes, s.order).Some? && x.crossCancelled)
  }

  /** The queues after giving up at `s`. */
  predicate TakenBack(s: State, after: State, call: Call) {
    QueuesSame(RestoreSnapshot(s, call.client, call.before), after)
  }

  /** Taking back leaves nobody queued who was not when the call began. */
  lemma TakenBackAddsNobody(s0: State, mid: State, s: State, after: State, call: Call)
    requires QueuesKept(s0, mid, call.client) && call.before == SnapshotOf(s0, call.client)
    requires QueuesSame(mid, s) || QueuesSame(EnqueuePending(mid, call.client, call.refresh), s)
    requires TakenBack(s, after, call)
    ensures NobodyAdded(s0, after)
  {
  }

  lemma GiveUpSettles(s: State, call: Call, id: ProxyId)
    ensures var (after, next) := GiveUp(s, call);
            && SettledFor(s, after, call, next) && TakenBack(s, after, call)
            && (call.phase.Weighing? || call.phase.CrossJudging? ==> StillHeld(s, after, call, next, id))
  {
    hide RestoreAll, Without;
    SettlingOnlyProxies(s, call.probes, call.client);
    RestoreAllAt(s, call.probes, call.client, id);
  }

  lemma CrossCommitSettles(s: State, call: Call, cancelled: bool)
    requires call.phase.CrossJudging?
    ensures var (after, next) := CrossCommit(s, call, cancelled);
            && (next.phase.Finished? ==> SettledFor(s, after, call, next))
            && (!next.phase.Finished? ==> after == s && next == call.(phase := Weighing(true), probes := next.probes))
            && (if cancelled then next.phase.Finished? && TakenBack(s, after, call) else QueuesSame(s, after))
  {
    hide RestoreAll, BlameAll, Without;
    GiveUpSettles(s, call, 0);
    var (rest, validated) := Parted(call.probes, call.phase.evidence);
    SettlingOnlyProxies(s, call.probes, call.client);
    SettlingOnlyProxies(s, validated, call.client);
    SettlingOnlyProxies(BlameAll(s, validated, call.client), rest, call.client);
  }

  /** The call keeps its probes when it goes on to another proxy. */
  lemma CrossingHolds(s: State, call: Call, crossing: Call, id: ProxyId)
    requires call.phase.Weighing? && crossing.probes == call.probes && crossing.client == call.client
    requires crossing.phase.CrossJudging? || crossing.phase.Weighing?
    ensures StillHeld(s, s, call, crossing, id)
  {
  }

  lemma CrossSettles(s: State, call: Call, crossing: Call, x: Settlement)
    requires call.phase == Weighing(false) && crossing.phase.CrossJudging? && crossing == call.(phase := crossing.phase)
    ensures var (u, last) := CrossCommit(s, crossing, x.crossCancelled);
            var (after, next) := if last.phase.Finished? then (u, last) else LookAgain(u, last, x.later);
            && SettledFor(s, after, call, next) && (forall id :: StillHeld(s, after, call, next, id))
            && (if x.crossCancelled then TakenBack(s, after, call) else QueuesSame(s, after))
  {
    hide CrossCommit, LookAgain, StillHeld, RestoreSnapshot;
    CrossCommitSettles(s, crossing, x.crossCancelled);
    var (u, last) := CrossCommit(s, crossing, x.crossCancelled);
    if !last.phase.Finished? {
      LookAgainSettles(u, last, x.later);
    }
    var (after, next) := if last.phase.Finished? then (u, last) else LookAgain(u, last, x.later);
    forall id ensures StillHeld(s, after, call, next, id) {
      CrossingHolds(s, call, crossing, id);
      CrossCommitHolds(s, crossing, x.crossCancelled, id);
      StillHeldChain(s, s, u, call, crossing, last, id);
      if !last.phase.Finished? {
        StillHeldChain(s, u, after, call, last, next, id);
      }
    }
  }

  /**
   Settling a batch always ends the call with everything given back; it leaves the queues alone, or,
   when the call was cancelled, takes back what the call had queued.
   */
  lemma ResolveSettles(s: State, call: Call, x: Settlement)
    requires call.phase == Weighing(false)
    ensures var (after, next) := Resolve(s, call, x);
            && SettledFor(s, after, call, next) && (forall id :: StillHeld(s, after, call, next, id))
            && (if Stopped(s, call, x) then TakenBack(s, after, call) else QueuesSame(s, after))
  {
    hide LookAgain, Conclude, CrossCommit, StillHeld, RestoreSnapshot, Parted, FirstCandidate, GiveUp;
    var (after, next) := Resolve(s, call, x);
    var (t, mid) := Weigh(x.recent, s, call, x.cancelled);
    if x.cancelled {
      forall id ensures StillHeld(s, after, call, next, id) && SettledFor(s, after, call, next) && TakenBack(s, after, call) {
        GiveUpSettles(s, call, id);
      }
      GiveUpSettles(s, call, 0);
    } else if mid.phase.Convicting? {
      ConcludeSettles(t, mid);
      forall id ensures StillHeld(s, after, call, next, id) {
        WeighHolds(x.recent, s, call, false, id);
        StillHeldChain(s, t, after, call, mid, next, id);
      }
    } else {
      PartedNone(call.probes, x.recent);
      match FirstCandidate(s, call.probes, s.order)
      case None =>
        LookAgainSettles(s, call.(phase := Weighing(true)), x.later);
        forall id ensures StillHeld(s, after, call, next, id) {
          CrossingHolds(s, call, call.(phase := Weighing(true)), id);
          StillHeldChain(s, s, after, call, call.(phase := Weighing(true)), next, id);
        }
      case Some(id) =>
        CrossSettles(s, call, call.(phase := CrossJudging(id, s.proxies[id].address, 0, x.crossResult, x.crossEvidence)), x);
    }
  }

  lemma {:induction false} PartedNone(probes: seq<Probe>, e: Option<Front.Evidence>)
    requires Parted(probes, e).1 == []
    ensures Parted(probes, e).0 == probes
  {
    if e.Some? && probes != [] {
      PartedNone(probes[..|probes| - 1], e);
      assert probes == probes[..|probes| - 1] + [probes[|probes| - 1]];
    }
  }

  // ---- One round of the retry loop ----

  /** A reserved proxy is held by the call that judges it next. */
  lemma ReservedHolds(s: State, call: Call, judging: Call, now: Time, id: ProxyId)
    requires call.phase.Ready? && Reserve(s, call.client, call.refresh, now).1.Reserved?
    requires judging == call.(phase := judging.phase) && judging.phase.Judging?
    requires judging.phase.id == Reserve(s, call.client, call.refresh, now).1.id
    ensures StillHeld(s, Reserve(s, call.client, call.refresh, now).0, call, judging, id)
  {
    hide HasLive, ReleaseLease, FirstEligible;
    ReleaseChecks(s, call.client, now, id);
  }

  /** An answered reservation holds nothing new. */
  lemma AnsweredHolds(s: State, call: Call, next: Call, now: Time, id: ProxyId)
    requires call.phase.Ready? && Reserve(s, call.client, call.refresh, now).1.Answered?
    requires next == call.(phase := next.phase, answer := next.answer) && (next.phase.Finished? || next.phase.Weighing?)
    ensures StillHeld(s, Reserve(s, call.client, call.refresh, now).0, call, next, id)
  {
    hide HasLive, ReleaseLease, FirstEligible;
    ReleaseChecks(s, call.client, now, id);
  }

  lemma QuieterHolds(s0: State, s: State, after: State, call: Call, next: Call, id: ProxyId)
    requires Quieter(s, after) && StillHeld(s0, s, call, next, id)
    ensures StillHeld(s0, after, call, next, id)
  {
    hide Spare, Held, CheckingFor;
  }

  /** The queues when a call stops trying: untouched, or with the client added at the end of one. */
  ghost predicate QueuesAtEnd(s0: State, s: State, call: Call) {
    exists mid :: QueuesKept(s0, mid, call.client)
                  && (QueuesSame(mid, s) || QueuesSame(EnqueuePending(mid, call.client, call.refresh), s))
  }

  lemma AnsweredQueues(s0: State, s: State, call: Call, now: Time)
    requires QueuesKept(s0, s, call.client) && Reserve(s, call.client, call.refresh, now).1.Answered?
    ensures QueuesAtEnd(s0, Reserve(s, call.client, call.refresh, now).0, call)
    ensures Reserve(s, call.client, call.refresh, now).1.assignment.status == LeaseActive ==>
              QueuesKept(s0, Reserve(s, call.client, call.refresh, now).0, call.client)
  {
    hide HasLive, FirstEligible, Without, Keep;
    var swept := Swept(s, call.client, now);
    assert QueuesKept(s, swept, call.client);
    QueuesKeptChain(s0, s, swept, call.client);
    ReserveAnswers(s, call.client, call.refresh, now);
  }

  /** Nobody but the call's own end can still owe a proxy. */
  lemma NothingOwed(s0: State, s: State, call: Call, next: Call, id: ProxyId)
    requires StillHeld(s0, s, call, next, id) && next.phase.Finished? && next.probes == []
    ensures CheckingFor(s, id).Some? ==> CheckingFor(s, id) == CheckingFor(s0, id)
  {
  }

  lemma ResolvedQueues(s0: State, s: State, call: Call, x: Settlement)
    requires call.phase == Weighing(false) && QueuesAtEnd(s0, s, call) && call.before == SnapshotOf(s0, call.client)
    requires Answers(s, call.client, call.answer)
    ensures var (after, next) := Resolve(s, call, x);
            && (Stopped(s, call, x) ==> NobodyAdded(s0, after))
            && (!Stopped(s, call, x) ==> Answers(after, call.client, next.answer))
            && (call.answer.status == LeaseActive && QueuesKept(s0, s, call.client) ==> QueuesKept(s0, after, call.client))
  {
    hide Resolve, Stopped, Without;
    ResolveSettles(s, call, x);
    if Stopped(s, call, x) {
      var mid :| QueuesKept(s0, mid, call.client) && (QueuesSame(mid, s) || QueuesSame(EnqueuePending(mid, call.client, call.refresh), s));
      TakenBackAddsNobody(s0, mid, s, Resolve(s, call, x).0, call);
      WithoutTwice(s0.pendingNew, call.client);
      WithoutTwice(s0.pendingRefs, call.client);
    }
  }

  // ---- The loop's invariant, and what holds when it ends ----

  ghost predicate AllStillHeld(s0: State, s: State, start: Call, call: Call) {
    forall id :: StillHeld(s0, s, start, call, id)
  }

  predicate SameCall(s0: State, start: Call, call: Call) {
    call.client == start.client && call.refresh == start.refresh && call.before == SnapshotOf(s0, start.client)
  }

  ghost predicate Looping(s0: State, s: State, start: Call, call: Call) {
    call.phase.Ready? && SameCall(s0, start, call) && AllStillHeld(s0, s, start, call) && QueuesKept(s0, s, start.client)
  }

  ghost predicate Ended(s0: State, s: State, start: Call, call: Call, stopped: bool) {
    && SameCall(s0, start, call) && AllStillHeld(s0, s, start, call)
    && (call.phase == Weighing(false) || (call.phase.Finished? && call.probes == []))
    && (stopped ==> call.phase.Finished? && NobodyAdded(s0, s))
    && (!stopped ==> Answers(s, start.client, call.answer))
    && (call.phase.Weighing? ==> QueuesAtEnd(s0, s, call))
    && (call.answer.status == LeaseActive ==> QueuesKept(s0, s, start.client))
  }

  /** A spare proxy was spent, or the client's lapsed lease swept away. */
  ghost predicate Closer(s: State, after: State, c: Client) {
    (c in s.leases && c !in after.leases) || (after.leases == s.leases && Spare(after) < Spare(s))
  }

  lemma LoopStarts(s: State, c: Client, refresh: bool)
    ensures Looping(s, s, NewCall(s, c, refresh), NewCall(s, c, refresh))
  {
    assert Ids([]) == {};
  }

  lemma AnswerEnds(s0: State, s: State, start: Call, call: Call, now: Time, next: Call)
    requires Looping(s0, s, start, call) && Reserve(s, call.client, call.refresh, now).1.Answered?
    requires next == call.(answer := Reserve(s, call.client, call.refresh, now).1.assignment,
                           phase := if call.probes == [] then LeaseCall.Phase.Finished else Weighing(false))
    ensures Ended(s0, Reserve(s, call.client, call.refresh, now).0, start, next, false)
  {
    hide Reserve, StillHeld, QueuesKept, QueuesAtEnd, Answers, NobodyAdded;
    var after := Reserve(s, call.client, call.refresh, now).0;
    ReserveAnswers(s, call.client, call.refresh, now);
    AnsweredQueues(s0, s, call, now);
    QueuesAtEndSame(s0, after, call, next);
    forall id ensures StillHeld(s0, after, start, next, id) {
      AnsweredHolds(s, call, next, now, id);
      StillHeldChain(s0, s, after, start, call, next, id);
    }
  }

  lemma QueuesAtEndSame(s0: State, s: State, call: Call, next: Call)
    requires QueuesAtEnd(s0, s, call) && next.client == call.client && next.refresh == call.refresh
    ensures QueuesAtEnd(s0, s, next)
  {
  }

  /** From a reservation to the judgement of its probe. */
  lemma JudgingHolds(s0: State, s: State, start: Call, call: Call, now: Time, before: State, judging: Call)
    requires Looping(s0, s, start, call) && Reserve(s, call.client, call.refresh, now).1.Reserved?
    requires Quieter(Reserve(s, call.client, call.refresh, now).0, before)
    requires judging == call.(phase := judging.phase) && judging.phase.Judging?
    requires judging.phase.id == Reserve(s, call.client, call.refresh, now).1.id
    ensures AllStillHeld(s0, before, start, judging) && QueuesKept(s0, before, start.client)
    ensures Closer(s, before, start.client)
  {
    hide Reserve, StillHeld, QueuesKept, Expired;
    var reserved := Reserve(s, call.client, call.refresh, now).0;
    ReserveSpends(s, call.client, call.refresh, now);
    KeptOrSwept(s, reserved, call.client);
    QueuesKeptChain(s0, s, reserved, call.client);
    forall id ensures StillHeld(s0, before, start, judging, id) {
      ReservedHolds(s, call, judging, now, id);
      StillHeldChain(s0, s, reserved, start, call, judging, id);
      QuieterHolds(s0, reserved, before, start, judging, id);
    }
    QueuesKeptQuieter(s0, reserved, before, call.client);
  }

  lemma KeptOrSwept(s: State, after: State, c: Client)
    requires QueuesSame(s, after) || (after.pendingNew == Without(s.pendingNew, c) && after.pendingRefs == Without(s.pendingRefs, c))
    ensures QueuesKept(s, after, c)
  {
  }

  lemma QueuesKeptQuieter(s0: State, s: State, after: State, c: Client)
    requires QueuesKept(s0, s, c) && QueuesSame(s, after)
    ensures QueuesKept(s0, after, c)
  {
  }

  /** A round either spends something and goes on, or ends the loop as it should. */
  lemma RoundEnds(s0: State, before: State, start: Call, judging: Call, cancelled: bool, expires: Time)
    requires judging.phase.Judging? && SameCall(s0, start, judging)
    requires AllStillHeld(s0, before, start, judging) && QueuesKept(s0, before, start.client)
    ensures var (after, next) := Commit(before, judging, cancelled, expires);
            && (next.phase.Ready? ==> Looping(s0, after, start, next) && after.leases == before.leases && Spare(after) <= Spare(before))
            && (!next.phase.Ready? ==> Ended(s0, after, start, next, cancelled))
  {
    hide Commit, StillHeld, QueuesKept, Answers, Spare, RestoreSnapshot, EnqueuePending;
    var (after, next) := Commit(before, judging, cancelled, expires);
    CommitSame(before, judging, cancelled, expires);
    RetrySpares(before, judging, cancelled, expires);
    CommitAnswers(before, judging, cancelled, expires);
    CommitQueues(s0, before, after, judging, next);
    forall id ensures StillHeld(s0, after, start, next, id) {
      CommitHolds(before, judging, cancelled, expires, id);
      StillHeldChain(s0, before, after, start, judging, next, id);
    }
  }

  lemma CommitSame(s: State, call: Call, cancelled: bool, expires: Time)
    requires call.phase.Judging?
    ensures var next := Commit(s, call, cancelled, expires).1;
            && next.client == call.client && next.refresh == call.refresh && next.before == call.before
            && (next.phase.Finished? ==> next.probes == [])
  {
    hide RestoreAll, BlameAll, Endpoints, Activate, Parted;
  }

  /** How the queues end follows from how this round left them. */
  lemma CommitQueues(s0: State, before: State, after: State, judging: Call, next: Call)
    requires QueuesKept(s0, before, judging.client) && next.client == judging.client && next.refresh == judging.refresh
    ensures QueuesSame(before, after) || QueuesSame(EnqueuePending(before, judging.client, judging.refresh), after) ==>
              QueuesAtEnd(s0, after, next)
    ensures QueuesSame(before, after) ==> QueuesKept(s0, after, judging.client) && NobodyAdded(s0, after)
    ensures QueuesKept(before, after, judging.client) ==> QueuesKept(s0, after, judging.client)
  {
    if QueuesKept(before, after, judging.client) {
      QueuesKeptChain(s0, before, after, judging.client);
    }
  }

  /** Settling the batch ends the call as it should. */
  lemma ResolveEnds(s0: State, s: State, start: Call, call: Call, x: Settlement)
    requires Ended(s0, s, start, call, false) && call.phase == Weighing(false)
    ensures var (after, next) := Resolve(s, call, x);
            next.phase.Finished? && Ended(s0, after, start, next, Stopped(s, call, x))
  {
    hide Resolve, StillHeld, QueuesKept, QueuesAtEnd, Answers, NobodyAdded, Stopped, RestoreSnapshot;
    ResolveSettles(s, call, x);
    ResolvedQueues(s0, s, call, x);
    ResolveEmpties(s, call, x);
    var (after, next) := Resolve(s, call, x);
    forall id ensures StillHeld(s0, after, start, next, id) {
      StillHeldChain(s0, s, after, start, call, next, id);
    }
  }

  lemma ResolveEmpties(s: State, call: Call, x: Settlement)
    requires call.phase == Weighing(false)
    ensures var next := Resolve(s, call, x).1;
            next.probes == [] && next.refresh == call.refresh && next.before == call.before && next.client == call.client
  {
    hide RestoreAll, BlameAll, Parted, FirstCandidate, RestoreSnapshot, FailureScopeOf, AmbiguousFailureToken;
  }

  /** A finished call owes nothing: whoever is being checked was before, for the same client. */
  lemma EndedOwesNothing(s0: State, s: State, start: Call, call: Call, stopped: bool, id: ProxyId)
    requires Ended(s0, s, start, call, stopped) && call.phase.Finished?
    ensures CheckingFor(s, id).Some? ==> CheckingFor(s, id) == CheckingFor(s0, id)
  {
    hide QueuesKept, QueuesAtEnd, Answers, NobodyAdded, StillHeld;
    NothingOwed(s0, s, start, call, id);
  }

  lemma QuieterSelf(s: State)
    ensures Quieter(s, s)
  {
  }

  /** Queueing alone checks nobody. */
  lemma QueueingChecksNobody(s: State, after: State, c: Client, refresh: bool)
    requires after == s || after == EnqueuePending(s, c, refresh)
    ensures forall id :: CheckingFor(after, id) == CheckingFor(s, id)
  {
  }

  lemma Unchanged(s: State, c: Client)
    ensures QueuesKept(s, s, c) && NobodyAdded(s, s)
  {
  }

  lemma CloserStays(s: State, before: State, after: State, c: Client)
    requires Closer(s, before, c) && after.leases == before.leases && Spare(after) <= Spare(before)
    ensures Closer(s, after, c)
  {
    hide Spare;
  }

  lemma EndedWeighs(s0: State, s: State, start: Call, call: Call, stopped: bool)
    requires Ended(s0, s, start, call, stopped) && !call.phase.Finished?
    ensures !stopped && call.phase == Weighing(false)
  {
  }

  lemma EndedAnswers(s0: State, s: State, start: Call, call: Call, stopped: bool)
    requires Ended(s0, s, start, call, stopped)
    ensures stopped ==> NobodyAdded(s0, s)
    ensures !stopped ==> Answers(s, start.client, call.answer)
    ensures call.answer.status == LeaseActive ==> QueuesKept(s0, s, start.client)
  {
  }

  lemma PoppingChecksNobody(s: State, now: Time)
    ensures forall id :: CheckingFor(NextQueued(s, now).0, id) == CheckingFor(s, id)
  {
  }
}
