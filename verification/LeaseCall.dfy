/**
 One lease call, cut where it gives up the manager's lock: while a probe runs and between the stages
 that settle a batch of ambiguous failures. Each function is one critical section.
 */
module LeaseCall {
  import opened Common
  import opened Addresses
  import opened Front
  import opened FrontLedger
  import opened FrontPath
  import opened Evidence
  import opened Pool

  // Where a call stands. `since` is the length of the front's history when a probe began.
  datatype Phase =
    | Ready
    | Probing(id: ProxyId, address: Address, since: nat)
    | Judging(id: ProxyId, address: Address, since: nat, result: Result, evidence: Option<Front.Evidence>)
    | Weighing(crossed: bool)
    | Convicting(validated: seq<Probe>)
    | Choosing
    | CrossProbing(id: ProxyId, address: Address, since: nat)
    | CrossJudging(id: ProxyId, address: Address, since: nat, result: Result, evidence: Option<Front.Evidence>)
    | Batching
    | Settling
    | Finished

  // Whether the client was queued when the call began.
  datatype Snapshot = Snapshot(inNew: bool, inRefs: bool)

  datatype Call = Call(client: Client, refresh: bool, before: Snapshot, phase: Phase, probes: seq<Probe>, answer: Assignment)

  function SnapshotOf(s: State, c: Client): Snapshot {
    Snapshot(c in s.pendingNew, c in s.pendingRefs)
  }

  function NewCall(s: State, c: Client, refresh: bool): Call {
    Call(c, refresh, SnapshotOf(s, c), Ready, [], PENDING)
  }

  // ---- Settling the probes that a call holds ----

  /** Gives back every probed proxy that is still being checked for `c`. */
  function RestoreAll(s: State, probes: seq<Probe>, c: Client): State
    decreases |probes|
  {
    if probes == [] then s else RestoreAll(Restore(s, probes[0].proxyId, c), probes[1..], c)
  }

  /** Blames every probed proxy that is still being checked for `c`. */
  function BlameAll(s: State, probes: seq<Probe>, c: Client): State
    decreases |probes|
  {
    if probes == [] then s else BlameAll(Blame(s, probes[0].proxyId, c), probes[1..], c)
  }

  function RestoreSnapshot(s: State, c: Client, before: Snapshot): State {
    Unqueued(s, c, before.inNew, before.inRefs)
  }

  /**
   The code goes on with the proxy it looked up, whatever settling the other probes did to it; here
   that proxy is put back into the checked state that the next assignment overwrites.
   */
  function Recheck(s: State, id: ProxyId, c: Client): State {
    if id in s.proxies then SetProxy(s, id, s.proxies[id].(status := ProxyChecking, client := Some(c))) else s
  }

  // ---- The retry loop ----

  function ReserveNext(l: Ledger, s: State, call: Call, now: Time): (State, Call)
    requires call.phase.Ready?
  {
    var (after, r) := Reserve(s, call.client, call.refresh, now);
    match r
    case Reserved(id) => (after, call.(phase := Probing(id, after.proxies[id].address, |l.history|)))
    case Answered(a) => (after, call.(answer := a, phase := if call.probes == [] then Finished else Weighing(false)))
  }

  /** The probe's result, with what the connector says about it at that moment. */
  function ProbeReturned(l: Ledger, call: Call, result: Result): Call
    requires call.phase.Probing?
  {
    if !Truthful(l.history, call.phase.address, call.phase.since, result) then call
    else
      var p := call.phase;
      call.(phase := Judging(p.id, p.address, p.since, result, EvidenceFor(l.circuit, p.address, result)))
  }

  function Finish(call: Call, answer: Assignment): Call {
    call.(answer := answer, phase := Finished, probes := [])
  }

  function Retry(call: Call, probes: seq<Probe>): Call {
    call.(phase := Ready, probes := probes)
  }

  /** The probes that evidence leaves open, and those that it settles. */
  function Parted(probes: seq<Probe>, e: Option<Front.Evidence>): (seq<Probe>, seq<Probe>) {
    if e.None? then (probes, []) else (Unresolved(probes, e.value), Validated(probes, e.value))
  }

  function CommitAmbiguous(s: State, call: Call): (State, Call)
    requires call.phase.Judging? && call.phase.id in s.proxies
  {
    var id := call.phase.id;
    var probe := Probe(id, s.proxies[id].address, call.phase.address, TokenOr(AmbiguousFailureToken(call.phase.result)));
    var probes := call.probes + [probe];
    if |Endpoints(probes)| >= 2 then
      (EnqueuePending(s, call.client, call.refresh),
       call.(phase := Weighing(false), probes := probes, answer := PendingAssignment(s, call.client, call.refresh)))
    else (s, Retry(call, probes))
  }

  function CommitVerdict(s: State, call: Call, expires: Time): (State, Call)
    requires call.phase.Judging?
  {
    var (id, c) := (call.phase.id, call.client);
    var (rest, validated) := Parted(call.probes, call.phase.evidence);
    var blamed := BlameAll(s, validated, c);
    if call.phase.result.Failed? then (Blame(Recheck(blamed, id, c), id, c), Retry(call, rest))
    else
      var settled := RestoreAll(blamed, rest, c);
      (Activate(Recheck(settled, id, c), id, c, call.refresh, expires), Finish(call, Assignment(LeaseActive, Some(Lease(id, expires)))))
  }

  /** What a probe's result does, once the lock is held again. */
  function Commit(s: State, call: Call, cancelled: bool, expires: Time): (State, Call)
    requires call.phase.Judging?
  {
    var (id, c) := (call.phase.id, call.client);
    if !CheckedFor(s, id, c) then (s, Retry(call, call.probes))
    else if s.proxies[id].disabled then (Restore(s, id, c), Retry(call, call.probes))
    else if cancelled then
      (RestoreAll(Restore(s, id, c), call.probes, c), Finish(call, PendingAssignment(s, c, call.refresh)))
    else if FailureScopeOf(call.phase.result) == SharedScope then
      (RestoreAll(EnqueuePending(Restore(s, id, c), c, call.refresh), call.probes, c),
       Finish(call, PendingAssignment(s, c, call.refresh)))
    else if FailureScopeOf(call.phase.result) == AmbiguousScope then CommitAmbiguous(s, call)
    else CommitVerdict(s, call, expires)
  }

  // ---- Settling a batch of ambiguous failures ----

  /** A cancelled call takes back what it queued. */
  function GiveUp(s: State, call: Call): (State, Call) {
    (RestoreSnapshot(RestoreAll(s, call.probes, call.client), call.client, call.before), Finish(call, call.answer))
  }

  function Weigh(recent: Option<Front.Evidence>, s: State, call: Call, cancelled: bool): (State, Call)
    requires call.phase.Weighing?
  {
    var next := if call.phase.crossed then Batching else Choosing;
    if cancelled && !call.phase.crossed then GiveUp(s, call)
    else
      var (rest, validated) := Parted(call.probes, recent);
      if validated == [] then (s, call.(phase := next))
      else (s, call.(phase := Convicting(validated), probes := rest))
  }

  function Convict(s: State, call: Call): (State, Call)
    requires call.phase.Convicting?
  {
    (BlameAll(s, call.phase.validated, call.client),
     call.(phase := if call.probes == [] then Finished else Settling))
  }

  predicate IsCandidate(s: State, probes: seq<Probe>, id: ProxyId) {
    && id in s.proxies && !s.proxies[id].disabled
    && (forall p :: p in probes ==> p.proxyId != id && !SameEndpoint(p.address, s.proxies[id].address))
    && (s.proxies[id].status == ProxyActive || s.proxies[id].status == ProxyDraining)
  }

  /** The first proxy in use through another endpoint than every held probe's. */
  function FirstCandidate(s: State, probes: seq<Probe>, order: seq<ProxyId>): (r: Option<ProxyId>)
    ensures r.Some? ==> exists i :: 0 <= i < |order| && order[i] == r.value && IsCandidate(s, probes, r.value)
                                    && forall j :: 0 <= j < i ==> !IsCandidate(s, probes, order[j])
    ensures r.None? ==> forall id :: id in order ==> !IsCandidate(s, probes, id)
  {
    if order == [] then None
    else if IsCandidate(s, probes, order[0]) then Some(order[0])
    else FirstCandidate(s, probes, order[1..])
  }

  function Choose(l: Ledger, s: State, call: Call): Call
    requires call.phase.Choosing?
  {
    match FirstCandidate(s, call.probes, s.order)
    case None => call.(phase := Weighing(true))
    case Some(id) => call.(phase := CrossProbing(id, s.proxies[id].address, |l.history|))
  }

  function CrossReturned(l: Ledger, call: Call, result: Result): Call
    requires call.phase.CrossProbing?
  {
    var p := call.phase;
    if !Truthful(l.history, p.address, p.since, result) then call
    else call.(phase := CrossJudging(p.id, p.address, p.since, result, EvidenceFor(l.circuit, p.address, result)))
  }

  function CrossCommit(s: State, call: Call, cancelled: bool): (State, Call)
    requires call.phase.CrossJudging?
  {
    var (c, result) := (call.client, call.phase.result);
    if cancelled then GiveUp(s, call)
    else match FailureScopeOf(result)
         case SharedScope => (RestoreAll(s, call.probes, c), Finish(call, call.answer))
         case AmbiguousScope =>
           var token := AmbiguousFailureToken(result);
           (s, call.(phase := Weighing(true),
                     probes := if token.None? then call.probes
                               else call.probes + [Probe(call.phase.id, call.phase.address, call.phase.address, token.value)]))
         case _ =>
           var (rest, validated) := Parted(call.probes, call.phase.evidence);
           if validated == [] then (s, call.(phase := Weighing(true)))
           else (RestoreAll(BlameAll(s, validated, c), rest, c), Finish(call, call.answer))
  }

  function BatchOp(call: Call, now: Time): Op {
    var (first, last) := Range(call.probes);
    Batch(first, last, now)
  }

  /** Puts the batch to the circuit, if it has two endpoints. */
  function TryBatch(l: Ledger, call: Call, now: Time): (Ledger, Call)
    requires call.phase.Batching?
  {
    (if |Endpoints(call.probes)| >= 2 && Range(call.probes).0.sequence != 0 then FrontLedger.Apply(l, BatchOp(call, now)) else l,
     call.(phase := Settling))
  }

  function Settle(s: State, call: Call): (State, Call)
    requires call.phase.Settling?
  {
    (RestoreAll(s, call.probes, call.client), Finish(call, call.answer))
  }

  // ---- One step, whichever comes next ----

  // What the surroundings contribute: the clock, the caller's cancellation, a result, a new expiry.
  datatype Input = Input(now: Time, cancelled: bool, result: Result, expires: Time)

  function Advance(l: Ledger, s: State, call: Call, input: Input): (Ledger, State, Call) {
    match call.phase
    case Ready => var (t, next) := ReserveNext(l, s, call, input.now); (l, t, next)
    case Probing(_, _, _) => (l, s, ProbeReturned(l, call, input.result))
    case Judging(_, _, _, _, _) => var (t, next) := Commit(s, call, input.cancelled, input.expires); (l, t, next)
    case Weighing(_) => var (t, next) := Weigh(RecentEvidence(l.circuit), s, call, input.cancelled); (l, t, next)
    case Convicting(_) => var (t, next) := Convict(s, call); (l, t, next)
    case Choosing => (l, s, Choose(l, s, call))
    case CrossProbing(_, _, _) => (l, s, CrossReturned(l, call, input.result))
    case CrossJudging(_, _, _, _, _) => var (t, next) := CrossCommit(s, call, input.cancelled); (l, t, next)
    case Batching => var (m, next) := TryBatch(l, call, input.now); (m, s, next)
    case Settling => var (t, next) := Settle(s, call); (l, t, next)
    case Finished => (l, s, call)
  }

  // ---- A whole settlement, when nothing else runs ----

  // What the surroundings contribute to the settlement of one batch.
  datatype Settlement = Settlement(
    cancelled: bool, recent: Option<Front.Evidence>,
    crossResult: Result, crossEvidence: Option<Front.Evidence>, crossCancelled: bool,
    later: Option<Front.Evidence>)

  function Conclude(s: State, call: Call): (State, Call)
    requires call.phase.Convicting?
  {
    var (t, next) := Convict(s, call);
    if next.phase.Finished? then (t, next) else Settle(t, next)
  }

  function LookAgain(s: State, call: Call, later: Option<Front.Evidence>): (State, Call)
    requires call.phase == Weighing(true)
  {
    var (t, next) := Weigh(later, s, call, false);
    if next.phase.Convicting? then Conclude(t, next) else Settle(t, next.(phase := Settling))
  }

  function Resolve(s: State, call: Call, x: Settlement): (State, Call)
    requires call.phase == Weighing(false)
  {
    var (t, next) := Weigh(x.recent, s, call, x.cancelled);
    if next.phase.Finished? then (t, next)
    else if next.phase.Convicting? then Conclude(t, next)
    else
      match FirstCandidate(t, next.probes, t.order)
      case None => LookAgain(t, next.(phase := Weighing(true)), x.later)
      case Some(id) =>
        var crossing := next.(phase := CrossJudging(id, t.proxies[id].address, 0, x.crossResult, x.crossEvidence));
        var (u, last) := CrossCommit(t, crossing, x.crossCancelled);
        if last.phase.Finished? then (u, last) else LookAgain(u, last, x.later)
  }

  // ---- What a call holds ----

  /** The proxies of a list of probes. */
  function Ids(probes: seq<Probe>): set<ProxyId> {
    set p | p in probes :: p.proxyId
  }

  /** The proxies that a call is responsible for giving back. */
  function Held(call: Call): set<ProxyId> {
    Ids(call.probes) +
    match call.phase
    case Probing(id, _, _) => {id}
    case Judging(id, _, _, _, _) => {id}
    case Convicting(validated) => Ids(validated)
    case _ => {}
  }
}
