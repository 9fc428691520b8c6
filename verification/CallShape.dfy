/** A lease call keeps the pool's bookkeeping: proxy order, FIFO queues, and the tables on disk. */
module CallShape {
  import opened Common
  import opened Addresses
  import opened Front
  import opened FrontLedger
  import opened FrontPath
  import opened Evidence
  import opened Pool
  import opened PoolSafety
  import opened PoolShape
  import opened LeaseCall
  import opened CallSafety

  // ---- Order ----

  lemma OnlyProxiesKeepsOrder(s: State, after: State)
    requires OrderOk(s) && after.order == s.order && after.proxies.Keys == s.proxies.Keys
    ensures OrderOk(after)
  {
  }

  /** The verdict on a probe, taken apart: settle, then blame or activate the proxy at hand. */
  lemma VerdictKeepsOrder(s: State, call: Call, expires: Time)
    requires OrderOk(s) && call.phase.Judging?
    ensures OrderOk(CommitVerdict(s, call, expires).0)
  {
    hide NoDuplicates, RestoreAll, BlameAll, Parted, Activate, OrderOk;
    var (mine, c) := (call.phase.id, call.client);
    var (rest, validated) := Parted(call.probes, call.phase.evidence);
    var blamed := BlameAll(s, validated, c);
    var settled := RestoreAll(blamed, rest, c);
    SettlingOnlyProxies(s, validated, c);
    SettlingOnlyProxies(blamed, rest, c);
    OnlyProxiesKeepsOrder(s, Blame(Recheck(blamed, mine, c), mine, c));
    OnlyProxiesKeepsOrder(s, Recheck(settled, mine, c));
    GrantKeepsOrder(Recheck(settled, mine, c), mine, c, call.refresh, expires);
  }

  lemma CommitKeepsOrder(s: State, call: Call, cancelled: bool, expires: Time)
    requires OrderOk(s) && call.phase.Judging?
    ensures OrderOk(Commit(s, call, cancelled, expires).0)
  {
    hide NoDuplicates, RestoreAll, BlameAll, CommitVerdict, Endpoints, OrderOk;
    var given := Restore(s, call.phase.id, call.client);
    SettlingOnlyProxies(given, call.probes, call.client);
    SettlingOnlyProxies(EnqueuePending(given, call.client, call.refresh), call.probes, call.client);
    VerdictKeepsOrder(s, call, expires);
    if Commit(s, call, cancelled, expires).0 != CommitVerdict(s, call, expires).0 {
      OnlyProxiesKeepsOrder(s, Commit(s, call, cancelled, expires).0);
    }
  }

  lemma AdvanceKeepsOrder(l: Ledger, s: State, call: Call, input: Input)
    requires OrderOk(s)
    ensures OrderOk(Advance(l, s, call, input).1)
  {
    hide NoDuplicates, RestoreAll, BlameAll, Reserve, Commit, Truthful, EvidenceFor, FirstCandidate, Parted, Endpoints, OrderOk;
    SettlingOnlyProxies(s, call.probes, call.client);
    match call.phase
    case Ready => ReserveKeepsOrder(s, call.client, call.refresh, input.now);
    case Judging(_, _, _, _, _) => CommitKeepsOrder(s, call, input.cancelled, input.expires);
    case Convicting(validated) =>
      SettlingOnlyProxies(s, validated, call.client);
      OnlyProxiesKeepsOrder(s, Advance(l, s, call, input).1);
    case CrossJudging(_, _, _, _, evidence) =>
      var (rest, validated) := Parted(call.probes, evidence);
      SettlingOnlyProxies(s, validated, call.client);
      SettlingOnlyProxies(BlameAll(s, validated, call.client), rest, call.client);
      OnlyProxiesKeepsOrder(s, Advance(l, s, call, input).1);
    case _ => OnlyProxiesKeepsOrder(s, Advance(l, s, call, input).1);
  }

  // ---- Queues ----

  predicate QueuesAffected(s: State, after: State, c: Client) {
    QueueEffect(s.pendingNew, after.pendingNew, c) && QueueEffect(s.pendingRefs, after.pendingRefs, c)
  }

  lemma ActivateQueues(s: State, id: ProxyId, c: Client, refresh: bool, expires: Time)
    ensures QueuesAffected(s, Activate(s, id, c, refresh, expires), c)
  {
    hide Without;
  }

  lemma ReserveQueues(s: State, c: Client, refresh: bool, now: Time)
    ensures QueuesAffected(s, Reserve(s, c, refresh, now).0, c)
  {
    hide HasLive, Without, Enqueue, Keep, FirstEligible;
  }

  lemma CommitQueueEffect(s: State, call: Call, cancelled: bool, expires: Time)
    requires call.phase.Judging?
    ensures QueuesAffected(s, Commit(s, call, cancelled, expires).0, call.client)
  {
    hide RestoreAll, BlameAll, Endpoints, Parted, Activate, Without, Enqueue;
    var (mine, c) := (call.phase.id, call.client);
    var given := Restore(s, mine, c);
    SettlingOnlyProxies(given, call.probes, c);
    SettlingOnlyProxies(EnqueuePending(given, c, call.refresh), call.probes, c);
    var (rest, validated) := Parted(call.probes, call.phase.evidence);
    var settled := RestoreAll(BlameAll(s, validated, c), rest, c);
    SettlingOnlyProxies(s, validated, c);
    SettlingOnlyProxies(BlameAll(s, validated, c), rest, c);
    ActivateQueues(Recheck(settled, mine, c), mine, c, call.refresh, expires);
  }

  /** Each step of a call leaves the queues, takes its client out, or adds it at an end. */
  lemma AdvanceQueues(l: Ledger, s: State, call: Call, input: Input)
    ensures QueuesAffected(s, Advance(l, s, call, input).1, call.client)
  {
    hide RestoreAll, BlameAll, Reserve, Commit, Truthful, EvidenceFor, FirstCandidate, Parted, Endpoints, Without, Enqueue;
    SettlingOnlyProxies(s, call.probes, call.client);
    match call.phase
    case Ready => ReserveQueues(s, call.client, call.refresh, input.now);
    case Judging(_, _, _, _, _) => CommitQueueEffect(s, call, input.cancelled, input.expires);
    case Convicting(validated) => SettlingOnlyProxies(s, validated, call.client);
    case CrossJudging(_, _, _, _, evidence) =>
      var (rest, validated) := Parted(call.probes, evidence);
      SettlingOnlyProxies(s, validated, call.client);
      SettlingOnlyProxies(BlameAll(s, validated, call.client), rest, call.client);
    case _ =>
  }

  // ---- Disk ----

  lemma {:induction false} RestoreAllKeepsDisk(s: State, probes: seq<Probe>, c: Client)
    requires DiskOk(s)
    ensures DiskOk(RestoreAll(s, probes, c))
    decreases |probes|
  {
    hide DiskOk;
    if probes != [] {
      SettlingKeepsDisk(s, probes[0].proxyId, c);
      RestoreAllKeepsDisk(Restore(s, probes[0].proxyId, c), probes[1..], c);
    }
  }

  lemma {:induction false} BlameAllKeepsDisk(s: State, probes: seq<Probe>, c: Client)
    requires DiskOk(s)
    ensures DiskOk(BlameAll(s, probes, c))
    decreases |probes|
  {
    hide DiskOk;
    if probes != [] {
      SettlingKeepsDisk(s, probes[0].proxyId, c);
      BlameAllKeepsDisk(Blame(s, probes[0].proxyId, c), probes[1..], c);
    }
  }

  lemma RecheckKeepsDisk(s: State, id: ProxyId, c: Client)
    requires DiskOk(s) && (id in s.proxies ==> s.proxies[id].source == PoolSource)
    ensures DiskOk(Recheck(s, id, c))
  {
    hide Mirrors, TermsAgree, AllSaved;
    if id in s.proxies {
      TouchKeepsDisk(s, id, Recheck(s, id, c).proxies[id]);
    }
  }

  /** Only proxies of the pool are ever checked. */
  lemma CheckedIsPool(s: State, id: ProxyId, c: Client)
    requires DiskOk(s) && CheckedFor(s, id, c)
    ensures s.proxies[id].source == PoolSource
  {
    assert Saved(s.disk, id, s.proxies[id]);
  }

  lemma VerdictKeepsDisk(s: State, call: Call, expires: Time)
    requires DiskOk(s) && call.phase.Judging? && CheckedFor(s, call.phase.id, call.client)
    ensures DiskOk(CommitVerdict(s, call, expires).0)
  {
    hide DiskOk, RestoreAll, BlameAll, Parted, Activate, Recheck;
    var (mine, c) := (call.phase.id, call.client);
    var (rest, validated) := Parted(call.probes, call.phase.evidence);
    var blamed := BlameAll(s, validated, c);
    var settled := RestoreAll(blamed, rest, c);
    CheckedIsPool(s, mine, c);
    BlameAllKeepsDisk(s, validated, c);
    RestoreAllKeepsDisk(blamed, rest, c);
    BlameAllAt(s, validated, c, mine);
    RestoreAllAt(blamed, rest, c, mine);
    RecheckKeepsDisk(blamed, mine, c);
    RecheckKeepsDisk(settled, mine, c);
    SettlingKeepsDisk(Recheck(blamed, mine, c), mine, c);
    GrantKeepsDisk(Recheck(settled, mine, c), mine, c, call.refresh, expires);
  }

  /** Queues are not on disk. */
  lemma QueuesKeepDisk(s: State, c: Client, refresh: bool, before: Snapshot)
    requires DiskOk(s)
    ensures DiskOk(EnqueuePending(s, c, refresh)) && DiskOk(RestoreSnapshot(s, c, before))
  {
  }

  lemma CommitKeepsDisk(s: State, call: Call, cancelled: bool, expires: Time)
    requires DiskOk(s) && call.phase.Judging?
    ensures DiskOk(Commit(s, call, cancelled, expires).0)
  {
    hide DiskOk, RestoreAll, BlameAll, CommitVerdict, Endpoints, EnqueuePending;
    var (mine, c) := (call.phase.id, call.client);
    SettlingKeepsDisk(s, mine, c);
    var given := Restore(s, mine, c);
    QueuesKeepDisk(given, c, call.refresh, call.before);
    QueuesKeepDisk(s, c, call.refresh, call.before);
    RestoreAllKeepsDisk(given, call.probes, c);
    RestoreAllKeepsDisk(EnqueuePending(given, c, call.refresh), call.probes, c);
    if CheckedFor(s, mine, c) {
      VerdictKeepsDisk(s, call, expires);
    }
  }

  lemma AdvanceKeepsDisk(l: Ledger, s: State, call: Call, input: Input)
    requires DiskOk(s)
    ensures DiskOk(Advance(l, s, call, input).1)
  {
    hide DiskOk, RestoreAll, BlameAll, Reserve, Commit, Truthful, EvidenceFor, FirstCandidate, Parted, RestoreSnapshot;
    var c := call.client;
    RestoreAllKeepsDisk(s, call.probes, c);
    QueuesKeepDisk(RestoreAll(s, call.probes, c), c, call.refresh, call.before);
    match call.phase
    case Ready => ReserveKeepsDisk(s, c, call.refresh, input.now);
    case Judging(_, _, _, _, _) => CommitKeepsDisk(s, call, input.cancelled, input.expires);
    case Convicting(validated) => BlameAllKeepsDisk(s, validated, c);
    case CrossJudging(_, _, _, _, evidence) =>
      var (rest, validated) := Parted(call.probes, evidence);
      BlameAllKeepsDisk(s, validated, c);
      RestoreAllKeepsDisk(BlameAll(s, validated, c), rest, c);
    case _ =>
  }

  // ---- All three ----

  lemma AffectedStaysFifo(s: State, after: State, c: Client)
    requires QueuesOk(s) && QueuesAffected(s, after, c)
    ensures QueuesOk(after) && FifoStep(s.pendingNew, after.pendingNew) && FifoStep(s.pendingRefs, after.pendingRefs)
  {
    hide FifoStep, NoDuplicates, QueueEffect;
    EffectIsFifo(s.pendingNew, after.pendingNew, c);
    EffectIsFifo(s.pendingRefs, after.pendingRefs, c);
  }

  lemma AdvanceKeepsShape(l: Ledger, s: State, call: Call, input: Input)
    requires ShapeOk(s)
    ensures var after := Advance(l, s, call, input).1;
            ShapeOk(after) && FifoStep(s.pendingNew, after.pendingNew) && FifoStep(s.pendingRefs, after.pendingRefs)
  {
    hide Advance, OrderOk, QueuesOk, DiskOk, FifoStep, QueuesAffected;
    AdvanceKeepsOrder(l, s, call, input);
    AdvanceKeepsDisk(l, s, call, input);
    AdvanceQueues(l, s, call, input);
    AffectedStaysFifo(s, Advance(l, s, call, input).1, call.client);
  }
}
