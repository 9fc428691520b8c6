/** The pool's bookkeeping over whole runs: proxy order, FIFO queues, and the tables on disk. */
module PoolShape {
  import opened Common
  import opened Addresses
  import opened Pool
  import opened PoolSafety
  import opened PoolLeases
  import opened PoolRuns

  // ---- Order ----

  lemma ConsDistinct(first: ProxyId, rest: seq<ProxyId>)
    requires NoDuplicates(rest) && first !in rest
    ensures NoDuplicates([first] + rest)
  {
  }

  lemma TailDistinct(order: seq<ProxyId>)
    requires NoDuplicates(order) && order != []
    ensures NoDuplicates(order[1..]) && order[0] !in order[1..]
  {
  }

  lemma {:induction false} KeepDistinct(order: seq<ProxyId>, ids: set<ProxyId>)
    requires NoDuplicates(order)
    ensures NoDuplicates(Keep(order, ids))
  {
    if order != [] {
      var front := order[..|order| - 1];
      KeepDistinct(front, ids);
      assert order[|order| - 1] !in front;
    }
  }

  lemma {:induction false} InsertDistinct(order: seq<ProxyId>, id: ProxyId)
    requires NoDuplicates(order) && id !in order
    ensures NoDuplicates(Insert(order, id))
  {
    if order == [] {
    } else if id <= order[0] {
      ConsDistinct(id, order);
    } else {
      TailDistinct(order);
      InsertDistinct(order[1..], id);
      ConsDistinct(order[0], Insert(order[1..], id));
    }
  }

  lemma {:induction false} SortedDistinct(order: seq<ProxyId>)
    requires NoDuplicates(order)
    ensures NoDuplicates(Sorted(order))
  {
    if order != [] {
      TailDistinct(order);
      hide NoDuplicates;
      SortedDistinct(order[1..]);
      InsertDistinct(Sorted(order[1..]), order[0]);
    }
  }

  lemma ReleaseKeepsOrder(s: State, c: Client, now: Time)
    requires OrderOk(s)
    ensures OrderOk(ReleaseLease(s, c, now))
  {
    if c in s.leases {
      KeepDistinct(s.order, ReleaseLease(s, c, now).proxies.Keys);
    }
  }

  lemma GrownKeepsOrder(s: State, id: ProxyId, p: Proxy)
    requires OrderOk(s) && id !in s.proxies
    ensures OrderOk(s.(proxies := s.proxies[id := p], order := Sorted(s.order + [id])))
  {
    SortedDistinct(s.order + [id]);
  }

  lemma ShrunkKeepsOrder(s: State, id: ProxyId)
    requires OrderOk(s)
    ensures OrderOk(WithoutProxy(s, id))
  {
    WithoutKeepsDistinct(s.order, id);
  }

  lemma ReserveKeepsOrder(s: State, c: Client, refresh: bool, now: Time)
    requires OrderOk(s)
    ensures OrderOk(Reserve(s, c, refresh, now).0)
  {
    hide NoDuplicates, HasLive, ReleaseLease, Keep, Without;
    ReleaseKeepsOrder(s, c, now);
  }

  lemma GrantKeepsOrder(s: State, id: ProxyId, c: Client, refresh: bool, expires: Time)
    requires OrderOk(s)
    ensures OrderOk(Activate(s, id, c, refresh, expires))
  {
    hide NoDuplicates, Without;
  }

  lemma DynamicKeepsOrder(s: State, c: Client, id: ProxyId, address: Address, expires: Time)
    requires OrderOk(s)
    ensures OrderOk(ActivateDynamic(s, c, id, address, expires))
  {
    hide NoDuplicates, Sorted;
    var before, after := WithSuperseded(s, c), ActivateDynamic(s, c, id, address, expires);
    if c in s.leases {
      ShrunkKeepsOrder(s, s.leases[c].proxyId);
    }
    if after != s {
      GrownKeepsOrder(before, id, after.proxies[id]);
    }
  }

  lemma DisconnectKeepsOrder(s: State, c: Client, id: ProxyId, k: Connection, now: Time)
    requires OrderOk(s)
    ensures OrderOk(UnregisterConn(s, c, id, k, now))
  {
    hide NoDuplicates, HasLive;
    ShrunkKeepsOrder(s.(via := s.via - {(c, k)}), id);
  }

  /** Steps that only change proxies in place, or nothing the order depends on. */
  predicate InPlace(s: State, after: State) {
    after.order == s.order && after.proxies.Keys == s.proxies.Keys
  }

  lemma OthersKeepOrder(s: State, step: Step, now: Time)
    requires step.Update? || step.Switch? || step.RestoreOne? || step.BlameOne? || step.Queue? || step.Unqueue?
             || step.Pop? || step.Connect? || step.Verdict? || step.FlushDelete?
    ensures InPlace(s, Apply(s, step, now))
  {
    hide HasLive, Without, Eligible, Recovered;
  }

  lemma ApplyKeepsOrder(s: State, step: Step, now: Time)
    requires OrderOk(s)
    ensures OrderOk(Apply(s, step, now))
  {
    hide NoDuplicates, Sorted, Without, ReleaseLease, Reserve, Activate, ActivateDynamic, UnregisterConn, RecordHealth;
    match step
    case Add(id, address, disabled) =>
      if id !in s.proxies { GrownKeepsOrder(s, id, AddProxy(s, id, address, disabled).proxies[id]); }
    case Delete(id) => ShrunkKeepsOrder(s, id);
    case Release(c) => ReleaseKeepsOrder(s, c, now);
    case ReserveFor(c, refresh) => ReserveKeepsOrder(s, c, refresh, now);
    case Grant(id, c, refresh, expires) => GrantKeepsOrder(s, id, c, refresh, expires);
    case GrantDynamic(c, id, address, expires) => DynamicKeepsOrder(s, c, id, address, expires);
    case Disconnect(c, id, k) => DisconnectKeepsOrder(s, c, id, k, now);
    case _ => OthersKeepOrder(s, step, now);
  }

  // ---- Queues ----

  ghost predicate QueuesOk(s: State) {
    NoDuplicates(s.pendingNew) && NoDuplicates(s.pendingRefs)
  }

  /** Some clients leave, at most one joins at the end, and nobody changes places. */
  ghost predicate FifoStep(before: seq<Client>, after: seq<Client>) {
    exists kept, joined :: FifoParts(before, after, kept, joined)
  }

  ghost predicate FifoParts(before: seq<Client>, after: seq<Client>, kept: seq<Client>, joined: seq<Client>) {
    after == kept + joined && |joined| <= 1 && Subsequence(kept, before)
  }

  lemma EnqueueIsFifo(before: seq<Client>, kept: seq<Client>, c: Client)
    requires Subsequence(kept, before)
    ensures FifoStep(before, kept) && FifoStep(before, Enqueue(kept, c))
    ensures NoDuplicates(kept) ==> NoDuplicates(Enqueue(kept, c))
  {
    assert FifoParts(before, kept, kept, []);
    assert FifoParts(before, kept + [c], kept, [c]);
  }

  lemma QueueOps(queue: seq<Client>, c: Client)
    ensures Subsequence(queue, queue) && Subsequence(Without(queue, c), queue)
    ensures queue != [] ==> Subsequence(queue[1..], queue)
    ensures NoDuplicates(queue) ==> NoDuplicates(Without(queue, c)) && (queue != [] ==> NoDuplicates(queue[1..]))
  {
    SubsequenceReflexive(queue);
    WithoutKeepsOrder(queue, c);
    if queue != [] {
      TailKeepsOrder(queue);
    }
    if NoDuplicates(queue) {
      WithoutKeepsDistinct(queue, c);
    }
  }

  /** Every step leaves both queues as they were, takes one client out, adds one at the end, or both. */
  predicate QueueEffect(before: seq<Client>, after: seq<Client>, c: Client) {
    || after == before
    || after == Without(before, c)
    || after == Enqueue(before, c)
    || after == Enqueue(Without(before, c), c)
    || (before != [] && after == before[1..])
  }

  function Subject(step: Step): Client {
    match step
    case Release(c) => c
    case ReserveFor(c, _) => c
    case Grant(_, c, _, _) => c
    case GrantDynamic(c, _, _, _) => c
    case Queue(c, _) => c
    case Unqueue(c, _, _) => c
    case _ => 0
  }

  predicate QueuesUntouched(s: State, after: State) {
    after.pendingNew == s.pendingNew && after.pendingRefs == s.pendingRefs
  }

  lemma QuietStepQueues(s: State, step: Step, now: Time)
    requires step.Add? || step.Update? || step.Switch? || step.Delete? || step.RestoreOne? || step.BlameOne?
             || step.Connect? || step.Disconnect? || step.Verdict? || step.FlushDelete?
    ensures QueuesUntouched(s, Apply(s, step, now))
  {
    hide HasLive, Without, Sorted, Recovered;
  }

  lemma GrantQueues(s: State, step: Step, now: Time)
    requires step.Grant? || step.GrantDynamic?
    ensures var after := Apply(s, step, now);
            QueuesUntouched(s, after) || QueuesUntouched(RemoveQueued(s, step.c), after)
  {
    hide HasLive, Without, Sorted, Replaced;
  }

  lemma StepQueueEffect(s: State, step: Step, now: Time)
    ensures QueueEffect(s.pendingNew, Apply(s, step, now).pendingNew, Subject(step))
    ensures QueueEffect(s.pendingRefs, Apply(s, step, now).pendingRefs, Subject(step))
  {
    hide HasLive, Without, Enqueue, Keep, Eligible, FirstEligible, RecordHealth, Activate, ActivateDynamic, UnregisterConn;
    match step
    case Release(_) =>
    case ReserveFor(_, _) =>
    case Queue(_, _) =>
    case Unqueue(_, _, _) =>
    case Pop =>
    case Grant(_, _, _, _) => GrantQueues(s, step, now);
    case GrantDynamic(_, _, _, _) => GrantQueues(s, step, now);
    case _ => QuietStepQueues(s, step, now);
  }

  lemma EffectIsFifo(before: seq<Client>, after: seq<Client>, c: Client)
    requires QueueEffect(before, after, c)
    ensures FifoStep(before, after)
    ensures NoDuplicates(before) ==> NoDuplicates(after)
  {
    hide Subsequence, NoDuplicates, FifoStep;
    QueueOps(before, c);
    EnqueueIsFifo(before, before, c);
    EnqueueIsFifo(before, Without(before, c), c);
    if before != [] {
      EnqueueIsFifo(before, before[1..], c);
    }
  }

  /** Both queues stay free of duplicates and keep their relative order in every step. */
  lemma QueuesStayFifo(s: State, step: Step, now: Time)
    requires QueuesOk(s)
    ensures QueuesOk(Apply(s, step, now))
    ensures FifoStep(s.pendingNew, Apply(s, step, now).pendingNew)
    ensures FifoStep(s.pendingRefs, Apply(s, step, now).pendingRefs)
  {
    hide FifoStep, NoDuplicates, Apply, QueueEffect;
    StepQueueEffect(s, step, now);
    EffectIsFifo(s.pendingNew, Apply(s, step, now).pendingNew, Subject(step));
    EffectIsFifo(s.pendingRefs, Apply(s, step, now).pendingRefs, Subject(step));
  }

  // ---- Disk ----

  /** The lease table is the leases in memory, with times cut to seconds. */
  ghost predicate Mirrors(table: Leases, leases: Leases) {
    && table.Keys == leases.Keys
    && forall c :: c in leases ==> table[c] == Stored(leases[c])
  }

  /** A proxy in memory has its row, and a dynamic row exactly if it came from the provider. */
  predicate Saved(d: Disk, id: ProxyId, p: Proxy) {
    && id in d.proxies && d.proxies[id] == Row(p.address, p.disabled)
    && (p.source == ApiSource ==> id in d.dynamics && d.dynamics[id] == Truncate(p.providerExpiresAt))
    && (p.source == PoolSource ==> id !in d.dynamics)
    && (p.source == ApiSource ==> p.status != ProxyChecking)
  }

  /** A lease on a dynamic proxy ends when the provider's own term does, row for row. */
  predicate TermAgrees(dynamics: map<ProxyId, Time>, l: Lease) {
    l.proxyId in dynamics ==> Truncate(l.expiresAt) == dynamics[l.proxyId]
  }

  ghost predicate TermsAgree(dynamics: map<ProxyId, Time>, leases: Leases) {
    forall c :: c in leases ==> TermAgrees(dynamics, leases[c])
  }

  ghost predicate AllSaved(d: Disk, proxies: map<ProxyId, Proxy>) {
    forall id :: id in proxies ==> Saved(d, id, proxies[id])
  }

  ghost predicate WholeTerms(dynamics: map<ProxyId, Time>) {
    forall id :: id in dynamics ==> Truncate(dynamics[id]) == dynamics[id]
  }

  ghost predicate DiskOk(s: State) {
    && Mirrors(s.disk.leases, s.leases) && TermsAgree(s.disk.dynamics, s.leases)
    && AllSaved(s.disk, s.proxies) && WholeTerms(s.disk.dynamics)
  }

  lemma UnboundSaved(d: Disk, id: ProxyId, p: Proxy, leased: ProxyId, c: Client, still: bool, purged: set<ProxyId>, leases: Leases)
    requires Saved(d, id, p) && id !in purged
    ensures Saved(EraseProxy(d, purged).(leases := leases), id, Unbound(p, id, leased, c, still))
  {
  }

  /** What releasing leaves of the proxies has the rows it had. */
  lemma ReleaseKeepsSaved(s: State, c: Client, now: Time)
    requires AllSaved(s.disk, s.proxies) && c in s.leases
    ensures AllSaved(ReleaseLease(s, c, now).disk, ReleaseLease(s, c, now).proxies)
  {
    hide HasLive, Keep, Without, Saved, Unbound, EraseProxy, Purgeable;
    var after := ReleaseLease(s, c, now);
    var leased, leases := s.leases[c].proxyId, s.leases - {c};
    var still := HasLive(leases, now, leased);
    var bound := map id | id in s.proxies :: Unbound(s.proxies[id], id, leased, c, still);
    var purged := set id | id in bound && Purgeable(leases, now, id, bound[id]);
    forall id | id in after.proxies ensures Saved(after.disk, id, after.proxies[id]) {
      UnboundSaved(s.disk, id, s.proxies[id], leased, c, still, purged, s.disk.leases - {c});
    }
  }

  lemma ReleaseKeepsTerms(s: State, c: Client, now: Time)
    requires TermsAgree(s.disk.dynamics, s.leases) && Mirrors(s.disk.leases, s.leases) && c in s.leases
    ensures TermsAgree(ReleaseLease(s, c, now).disk.dynamics, ReleaseLease(s, c, now).leases)
    ensures Mirrors(ReleaseLease(s, c, now).disk.leases, ReleaseLease(s, c, now).leases)
  {
    hide HasLive, Keep, Without;
    assert forall d :: d in s.leases && d != c ==> TermAgrees(s.disk.dynamics, s.leases[d]);
  }

  lemma ReleaseKeepsDisk(s: State, c: Client, now: Time)
    requires DiskOk(s)
    ensures DiskOk(ReleaseLease(s, c, now))
  {
    hide HasLive, Keep, Without, Mirrors, TermsAgree, AllSaved;
    if c in s.leases {
      ReleaseKeepsSaved(s, c, now);
      ReleaseKeepsTerms(s, c, now);
    }
  }

  /** A proxy changed in place, with its row. */
  lemma SetKeepsDisk(s: State, id: ProxyId, p: Proxy, disk: Disk)
    requires DiskOk(s) && id in s.proxies && p.source == s.proxies[id].source
    requires p.providerExpiresAt == s.proxies[id].providerExpiresAt && Saved(disk, id, p)
    requires disk == s.disk.(proxies := disk.proxies) && disk.proxies == s.disk.proxies[id := Row(p.address, p.disabled)]
    ensures DiskOk(SetProxy(s, id, p).(disk := disk))
  {
  }

  lemma TouchKeepsDisk(s: State, id: ProxyId, p: Proxy)
    requires DiskOk(s) && id in s.proxies && p.source == s.proxies[id].source
    requires p.address == s.proxies[id].address && p.disabled == s.proxies[id].disabled
    requires p.providerExpiresAt == s.proxies[id].providerExpiresAt
    requires p.source == ApiSource ==> p.status != ProxyChecking
    ensures DiskOk(SetProxy(s, id, p))
  {
    assert Saved(s.disk, id, s.proxies[id]);
    assert s.disk.proxies == s.disk.proxies[id := Row(p.address, p.disabled)];
    SetKeepsDisk(s, id, p, s.disk);
  }

  lemma ReserveKeepsDisk(s: State, c: Client, refresh: bool, now: Time)
    requires DiskOk(s)
    ensures DiskOk(Reserve(s, c, refresh, now).0)
  {
    hide HasLive, ReleaseLease, Mirrors, TermsAgree, AllSaved, Without;
    ReleaseKeepsDisk(s, c, now);
    var swept := Swept(s, c, now);
    var (after, r) := Reserve(s, c, refresh, now);
    if r.Reserved? {
      TouchKeepsDisk(swept, r.id, after.proxies[r.id]);
    }
  }

  lemma ReplacedKeepsDisk(s: State, c: Client)
    requires DiskOk(s)
    ensures DiskOk(WithReplaced(s, c))
  {
    hide Mirrors, TermsAgree, AllSaved;
    if c in s.leases && s.leases[c].proxyId in s.proxies {
      TouchKeepsDisk(s, s.leases[c].proxyId, Replaced(s.proxies[s.leases[c].proxyId], c));
    }
  }

  lemma LeaseKeepsDisk(s: State, c: Client, l: Lease)
    requires DiskOk(s)
    requires TermAgrees(s.disk.dynamics, l)
    ensures DiskOk(WithLease(s, c, l))
  {
    hide Without;
  }

  lemma GrantKeepsDisk(s: State, id: ProxyId, c: Client, refresh: bool, expires: Time)
    requires DiskOk(s)
    ensures DiskOk(Activate(s, id, c, refresh, expires))
  {
    var after := Activate(s, id, c, refresh, expires);
    if after != s {
      assert Saved(s.disk, id, s.proxies[id]);
      ReplacedKeepsDisk(s, c);
      hide Saved, Mirrors, TermsAgree, DiskOk, Without;
      var before := if refresh then WithReplaced(s, c) else s;
      TouchKeepsDisk(before, id, after.proxies[id]);
      LeaseKeepsDisk(SetProxy(before, id, after.proxies[id]), c, Lease(id, expires));
    }
  }

  lemma ErasedKeepsDisk(s: State, id: ProxyId)
    requires DiskOk(s)
    ensures DiskOk(WithoutProxy(s, id)) && DiskOk(WithoutProxy(s, id).(disk := EraseProxy(s.disk, {id})))
    ensures id !in s.proxies ==> DiskOk(s.(disk := EraseProxy(s.disk, {id})))
  {
    hide Without;
  }

  lemma SupersededKeepsDisk(s: State, c: Client)
    requires DiskOk(s)
    ensures DiskOk(WithSuperseded(s, c))
  {
    hide Mirrors, TermsAgree, AllSaved, Without;
    if c in s.leases && s.leases[c].proxyId in s.proxies {
      var id := s.leases[c].proxyId;
      ErasedKeepsDisk(s, id);
      TouchKeepsDisk(s, id, Replaced(s.proxies[id], c));
    }
  }

  lemma DynamicKeepsDisk(s: State, c: Client, id: ProxyId, address: Address, expires: Time)
    requires DiskOk(s) && Unleased(s.leases, id)
    ensures DiskOk(ActivateDynamic(s, c, id, address, expires))
  {
    var after := ActivateDynamic(s, c, id, address, expires);
    if after != s {
      SupersededKeepsDisk(s, c);
      hide Sorted, Without, Replaced;
      var before := WithSuperseded(s, c);
      NewProxyKeepsDisk(before, id, after.proxies[id]);
      var disk := before.disk.(proxies := before.disk.proxies[id := Row(address, false)],
                               dynamics := before.disk.dynamics[id := Truncate(expires)]);
      LeaseKeepsDisk(before.(proxies := before.proxies[id := after.proxies[id]], order := Sorted(before.order + [id]), disk := disk),
                     c, Lease(id, expires));
    }
  }

  lemma NewProxyKeepsDisk(s: State, id: ProxyId, p: Proxy)
    requires DiskOk(s) && Unleased(s.leases, id) && p.source == ApiSource && p.status != ProxyChecking
    ensures var disk := s.disk.(proxies := s.disk.proxies[id := Row(p.address, p.disabled)],
                                dynamics := s.disk.dynamics[id := Truncate(p.providerExpiresAt)]);
            DiskOk(s.(proxies := s.proxies[id := p], order := Sorted(s.order + [id]), disk := disk))
  {
    hide Sorted;
  }

  lemma AdministrationKeepsDisk(s: State, step: Step, now: Time)
    requires DiskOk(s) && FreshName(s, step)
    requires step.Add? || step.Update? || step.Switch? || step.Delete?
    ensures DiskOk(Apply(s, step, now))
  {
    hide Sorted, Without;
    if step.id in s.proxies {
      ErasedKeepsDisk(s, step.id);
    }
  }

  lemma DisconnectKeepsDisk(s: State, c: Client, id: ProxyId, k: Connection, now: Time)
    requires DiskOk(s)
    ensures DiskOk(UnregisterConn(s, c, id, k, now))
  {
    hide HasLive, Mirrors, TermsAgree, Without;
    var gone := s.(via := s.via - {(c, k)});
    ErasedKeepsDisk(gone, id);
    if id in s.proxies {
      assert Saved(s.disk, id, s.proxies[id]);
      TouchKeepsDisk(gone, id, Disconnected(s.proxies[id]));
    }
  }

  lemma ConnectKeepsDisk(s: State, c: Client, k: Connection, now: Time)
    requires DiskOk(s)
    ensures DiskOk(AcquireConn(s, c, k, now).0)
  {
    hide Mirrors, TermsAgree, AllSaved;
    var (after, granted) := AcquireConn(s, c, k, now);
    if granted.Some? {
      TouchKeepsDisk(s, granted.value, after.proxies[granted.value]);
    }
  }

  lemma SettlingKeepsDisk(s: State, id: ProxyId, c: Client)
    requires DiskOk(s)
    ensures DiskOk(Restore(s, id, c)) && DiskOk(Blame(s, id, c))
  {
    hide Mirrors, TermsAgree, AllSaved;
    if CheckedFor(s, id, c) {
      TouchKeepsDisk(s, id, Restore(s, id, c).proxies[id]);
      TouchKeepsDisk(s, id, Blame(s, id, c).proxies[id]);
    }
  }

  lemma HealthKeepsDisk(s: State, id: ProxyId, passed: bool, failureThreshold: nat, successThreshold: nat, now: Time)
    requires DiskOk(s)
    ensures DiskOk(RecordHealth(s, id, passed, failureThreshold, successThreshold, now))
  {
    hide HasLive, Mirrors, TermsAgree, LiveClient;
    if id in s.proxies {
      assert Saved(s.disk, id, s.proxies[id]);
      TouchKeepsDisk(s, id, RecordHealth(s, id, passed, failureThreshold, successThreshold, now).proxies[id]);
    }
  }

  lemma ApplyKeepsDisk(s: State, step: Step, now: Time)
    requires DiskOk(s) && FreshName(s, step)
    ensures DiskOk(Apply(s, step, now))
  {
    hide HasLive, Mirrors, TermsAgree, AllSaved, Without, ReleaseLease, Reserve, Activate, ActivateDynamic, UnregisterConn, RecordHealth;
    match step
    case Add(_, _, _) => AdministrationKeepsDisk(s, step, now);
    case Update(_, _, _) => AdministrationKeepsDisk(s, step, now);
    case Switch(_, _) => AdministrationKeepsDisk(s, step, now);
    case Delete(_) => AdministrationKeepsDisk(s, step, now);
    case Release(c) => ReleaseKeepsDisk(s, c, now);
    case ReserveFor(c, refresh) => ReserveKeepsDisk(s, c, refresh, now);
    case Grant(id, c, refresh, expires) => GrantKeepsDisk(s, id, c, refresh, expires);
    case GrantDynamic(c, id, address, expires) => DynamicKeepsDisk(s, c, id, address, expires);
    case Queue(_, _) =>
    case Unqueue(_, _, _) =>
    case Pop =>
    case Disconnect(c, id, k) => DisconnectKeepsDisk(s, c, id, k, now);
    case FlushDelete(id) => ErasedKeepsDisk(s, id);
    case RestoreOne(id, c) => SettlingKeepsDisk(s, id, c);
    case BlameOne(id, c) => SettlingKeepsDisk(s, id, c);
    case Connect(c, k) => ConnectKeepsDisk(s, c, k, now);
    case Verdict(id, passed, ft, st) => HealthKeepsDisk(s, id, passed, ft, st, now);
  }

  // ---- All three ----

  ghost predicate ShapeOk(s: State) {
    OrderOk(s) && QueuesOk(s) && DiskOk(s)
  }

  lemma ApplyKeepsShape(s: State, step: Step, now: Time)
    requires ShapeOk(s) && FreshName(s, step)
    ensures ShapeOk(Apply(s, step, now))
    ensures FifoStep(s.pendingNew, Apply(s, step, now).pendingNew) && FifoStep(s.pendingRefs, Apply(s, step, now).pendingRefs)
  {
    hide Apply, OrderOk, QueuesOk, DiskOk, FifoStep, FreshName;
    ApplyKeepsOrder(s, step, now);
    QueuesStayFifo(s, step, now);
    ApplyKeepsDisk(s, step, now);
  }

  /** Over every run the order matches the proxies, the queues stay distinct, and the disk mirrors. */
  lemma {:induction false} RunKeepsShape(s: State, events: seq<Event>, from: Time)
    requires ShapeOk(s) && Possible(s, events, from)
    ensures ShapeOk(Run(s, events))
    decreases |events|
  {
    if events != [] {
      hide Apply, ShapeOk, FifoStep;
      ApplyKeepsShape(s, events[0].step, events[0].now);
      RunKeepsShape(Apply(s, events[0].step, events[0].now), events[1..], events[0].now);
    }
  }
}
