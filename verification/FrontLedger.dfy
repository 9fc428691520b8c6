/**
 The front circuit against its whole history. A ledger adds to the circuit every resolution ever
 recorded, in order, and the attempts still unresolved. `Exact` says that the circuit's few fields
 summarise that history; every operation of every interleaving keeps it.
 */
module FrontLedger {
  import opened Common
  import opened Addresses
  import opened Front

  // A recorded resolution. Its sequence number is its position plus one. `exit` is the endpoint of
  // the attempt that was resolved (the front itself for a shared failure).
  datatype Entry = Entry(kind: Kind, generation: nat, exit: Address)

  type History = seq<Entry>

  datatype Ledger = Ledger(circuit: Circuit, history: History, open: map<nat, Attempt>)

  // One critical section of the connector. Attempts are named by whoever began them.
  datatype Op =
    | Begin(id: nat, now: Time)
    | Fail(id: nat, phase: Phase, exit: Address, now: Time)
    | Succeed(id: nat, exit: Address, now: Time)
    | Confuse(id: nat, exit: Address, now: Time)
    | Abandon(id: nat, now: Time)
    | Batch(first: Token, last: Token, now: Time)

  function NewLedger(enabled: bool, backoff: nat): Ledger {
    Ledger(NewCircuit(enabled, backoff), [], map[])
  }

  function Logged(l: Ledger, circuit: Circuit, kind: Kind, exit: Address): Ledger {
    if circuit.resolutionSeq == l.circuit.resolutionSeq then l.(circuit := circuit)
    else l.(circuit := circuit, history := l.history + [Entry(kind, l.circuit.generation, exit)])
  }

  /** The effect of one operation; completing an attempt that is not unresolved is not possible. */
  function Apply(l: Ledger, op: Op): Ledger {
    match op
    case Begin(id, now) =>
      var (circuit, admitted) := BeginAttempt(l.circuit, now);
      if id in l.open || admitted.None? then l
      else l.(circuit := circuit, open := l.open[id := admitted.value])
    case Fail(id, phase, exit, now) =>
      if id !in l.open then l
      else Logged(l, RecordFailure(l.circuit, l.open[id], phase, now), SharedFailure, exit).(open := l.open - {id})
    case Succeed(id, exit, now) =>
      if id !in l.open then l
      else Logged(l, RecordSuccess(l.circuit, l.open[id], exit, now).0, Established, exit).(open := l.open - {id})
    case Confuse(id, exit, now) =>
      if id !in l.open then l
      else Logged(l, RecordAmbiguous(l.circuit, l.open[id], now).0, AmbiguousFailure, exit).(open := l.open - {id})
    case Abandon(id, now) =>
      if id !in l.open then l
      else l.(circuit := AbandonAttempt(l.circuit, l.open[id], now), open := l.open - {id})
    case Batch(first, last, now) =>
      Logged(l, RecordBatch(l.circuit, first, last, now).0, SharedFailure, Unsplittable(""))
  }

  function Run(l: Ledger, ops: seq<Op>): Ledger
    decreases |ops|
  {
    if ops == [] then l else Run(Apply(l, ops[0]), ops[1..])
  }

  // ---- Reference definitions, on the history alone ----

  /** How many shared failures the history holds. */
  function SharedCount(h: History): nat {
    if h == [] then 0
    else SharedCount(h[..|h| - 1]) + (if h[|h| - 1].kind == SharedFailure then 1 else 0)
  }

  predicate NoneOf(h: History, kind: Kind, from: nat, to: nat)
    requires from <= to <= |h|
  {
    forall k :: from <= k < to ==> h[k].kind != kind
  }

  predicate AllAmbiguous(h: History, from: nat)
    requires from <= |h|
  {
    forall k :: from <= k < |h| ==> h[k].kind == AmbiguousFailure
  }

  /** Entry `k` carries the number of shared failures before it. */
  predicate NumberedAt(h: History, k: nat)
    requires k < |h|
  {
    h[k].generation == SharedCount(h[..k])
  }

  ghost predicate Numbered(h: History) {
    forall k :: 0 <= k < |h| ==> NumberedAt(h, k)
  }

  /** `t` was handed out for an entry of kind `kind`. */
  predicate Issued(h: History, t: Token, kind: Kind) {
    1 <= t.sequence <= |h| && h[t.sequence - 1].kind == kind && h[t.sequence - 1].generation == t.generation
  }

  /** `e` is a success recorded for the endpoint it names. */
  predicate Witnessed(h: History, e: Evidence) {
    Issued(h, Token(e.generation, e.sequence), Established) && h[e.sequence - 1].exit == e.exit
  }

  // ---- What the circuit knows about its history ----

  ghost predicate Summarises(c: Circuit, h: History) {
    && c.resolutionSeq == |h|
    && c.generation == SharedCount(h)
    && c.lastResolution == (if h == [] then None else Some(h[|h| - 1].kind))
    && (if c.recentEvidence.sequence == 0
        then c.recentEvidence.generation == 0 && NoneOf(h, Established, 0, |h|)
        else Witnessed(h, c.recentEvidence) && NoneOf(h, Established, c.recentEvidence.sequence, |h|))
  }

  ghost predicate StatusAgrees(c: Circuit) {
    && (c.openUntil.Some? <==> c.lastResolution == Some(SharedFailure))
    && (c.halfOpenInFlight ==> c.openUntil.Some?)
    && c.circuitOpenUntil == c.openUntil
    && (c.enabled ==>
          c.status == if c.halfOpenInFlight then HalfOpen
                      else match c.lastResolution
                           case None => Unknown
                           case Some(SharedFailure) => Unhealthy
                           case Some(AmbiguousFailure) => Unknown
                           case Some(Established) => Healthy)
    && (c.lastError == NoError <==> c.lastResolution == None || c.lastResolution == Some(Established))
  }

  /** The unresolved attempt that probes an open circuit. */
  predicate IsProbe(l: Ledger, id: nat) {
    id in l.open && l.open[id].halfOpen && l.open[id].generation == l.circuit.generation
  }

  ghost predicate AttemptsFit(l: Ledger) {
    && (forall id :: id in l.open ==>
          && l.open[id].startedSequence <= |l.history|
          && l.open[id].generation == SharedCount(l.history[..l.open[id].startedSequence]))
    && (forall id :: id in l.open && l.open[id].generation == l.circuit.generation && l.circuit.openUntil.Some? ==> IsProbe(l, id))
    && (forall id :: IsProbe(l, id) ==> l.circuit.halfOpenInFlight)
    && (forall id, other :: IsProbe(l, id) && IsProbe(l, other) ==> id == other)
    && (l.circuit.halfOpenInFlight ==> exists id :: IsProbe(l, id))
  }

  ghost predicate Exact(l: Ledger) {
    Summarises(l.circuit, l.history) && Numbered(l.history) && StatusAgrees(l.circuit) && AttemptsFit(l)
  }

  // ---- Counting ----

  lemma {:induction false} CountSplits(h: History, from: nat)
    requires from <= |h|
    ensures SharedCount(h[..from]) <= SharedCount(h)
    ensures SharedCount(h[..from]) == SharedCount(h) <==> NoneOf(h, SharedFailure, from, |h|)
  {
    if from < |h| {
      var front := h[..|h| - 1];
      CountSplits(front, from);
      assert front[..from] == h[..from];
      assert NoneOf(h, SharedFailure, from, |h|)
          <==> NoneOf(front, SharedFailure, from, |front|) && h[|h| - 1].kind != SharedFailure;
    } else {
      assert h[..from] == h;
    }
  }

  /** Entries of one generation have no shared failure between them. */
  lemma SameGenerationNoShared(h: History, i: nat, j: nat)
    requires Numbered(h) && i <= j < |h|
    ensures h[i].generation <= h[j].generation
    ensures h[i].generation == h[j].generation <==> NoneOf(h, SharedFailure, i, j)
  {
    assert NumberedAt(h, i) && NumberedAt(h, j);
    CountSplits(h[..j], i);
    assert h[..j][..i] == h[..i];
  }

  lemma LoggedKeepsNumbered(h: History, e: Entry)
    requires Numbered(h) && e.generation == SharedCount(h)
    ensures Numbered(h + [e])
    ensures SharedCount(h + [e]) == SharedCount(h) + (if e.kind == SharedFailure then 1 else 0)
  {
    var longer := h + [e];
    assert longer[..|h|] == h;
    forall k | 0 <= k < |longer| ensures NumberedAt(longer, k) {
      assert longer[..k] == h[..k];
      assert k < |h| ==> NumberedAt(h, k);
    }
  }

  // ---- Every operation keeps the summary exact ----

  lemma NewIsExact(enabled: bool, backoff: nat)
    ensures Exact(NewLedger(enabled, backoff))
  {
  }

  lemma AppendKeepsSummary(l: Ledger, kind: Kind, exit: Address, now: Time, circuit: Circuit)
    requires Exact(l)
    requires circuit.resolutionSeq == l.circuit.resolutionSeq + 1
    requires circuit.lastResolution == Some(kind)
    requires circuit.generation == l.circuit.generation + (if kind == SharedFailure then 1 else 0)
    requires circuit.recentEvidence ==
             if kind == Established then Evidence(exit, l.circuit.generation, |l.history| + 1, now)
             else l.circuit.recentEvidence
    ensures Summarises(circuit, Logged(l, circuit, kind, exit).history)
    ensures Numbered(Logged(l, circuit, kind, exit).history)
  {
    LoggedKeepsNumbered(l.history, Entry(kind, l.circuit.generation, exit));
  }

  /** Starts and generations of unresolved attempts survive a longer history. */
  lemma StartsSurvive(l: Ledger, e: Entry)
    requires Exact(l)
    ensures forall id :: id in l.open ==>
              && (l.history + [e])[..l.open[id].startedSequence] == l.history[..l.open[id].startedSequence]
              && l.open[id].generation <= l.circuit.generation
  {
    forall id | id in l.open
      ensures (l.history + [e])[..l.open[id].startedSequence] == l.history[..l.open[id].startedSequence]
      ensures l.open[id].generation <= l.circuit.generation
    {
      CountSplits(l.history, l.open[id].startedSequence);
    }
  }

  /** Opening the circuit makes every unresolved attempt stale. */
  lemma OpeningLeavesStale(l: Ledger, after: Ledger, e: Entry)
    requires Exact(l)
    requires after.history == l.history + [e]
    requires after.circuit.generation == l.circuit.generation + 1 && !after.circuit.halfOpenInFlight
    requires forall id :: id in after.open ==> id in l.open && after.open[id] == l.open[id]
    ensures AttemptsFit(after)
  {
    StartsSurvive(l, e);
    assert forall id :: id in after.open ==> after.open[id].generation < after.circuit.generation;
    assert forall id :: !IsProbe(after, id);
  }

  /** Closing the circuit resolves its probe, so none is left. */
  lemma ClosingLeavesNoProbe(l: Ledger, after: Ledger, id: nat, e: Entry)
    requires Exact(l) && id in l.open && l.open[id].generation == l.circuit.generation
    requires after.history == l.history + [e] && after.open == l.open - {id}
    requires after.circuit.generation == l.circuit.generation
    requires after.circuit.openUntil.None? && !after.circuit.halfOpenInFlight
    ensures AttemptsFit(after)
  {
    StartsSurvive(l, e);
    forall i ensures !IsProbe(after, i) {
      if IsProbe(after, i) {
        assert IsProbe(l, i);
      }
    }
  }

  lemma OpenKeepsExact(l: Ledger, id: nat, exit: Address, error: PublicError, now: Time)
    requires Exact(l) && error != NoError
    ensures Exact(Logged(l, OpenCircuit(l.circuit, error, now), SharedFailure, exit).(open := l.open - {id}))
    ensures Exact(Logged(l, OpenCircuit(l.circuit, error, now), SharedFailure, exit))
  {
    var circuit := OpenCircuit(l.circuit, error, now);
    AppendKeepsSummary(l, SharedFailure, exit, now, circuit);
    var e := Entry(SharedFailure, l.circuit.generation, exit);
    OpeningLeavesStale(l, Logged(l, circuit, SharedFailure, exit), e);
    OpeningLeavesStale(l, Logged(l, circuit, SharedFailure, exit).(open := l.open - {id}), e);
  }

  /** Dropping an attempt that cannot matter any more. */
  lemma DropKeepsExact(l: Ledger, id: nat)
    requires Exact(l) && !IsProbe(l, id)
    ensures Exact(l.(open := l.open - {id}))
  {
    var after := l.(open := l.open - {id});
    if l.circuit.halfOpenInFlight {
      var probe :| IsProbe(l, probe);
      assert IsProbe(after, probe);
    }
    assert forall i :: IsProbe(after, i) ==> IsProbe(l, i);
  }

  lemma BeginKeepsExact(l: Ledger, id: nat, now: Time)
    requires Exact(l) && id !in l.open
    ensures Exact(Apply(l, Begin(id, now)))
  {
    var after := Apply(l, Begin(id, now));
    assert l.history[..|l.history|] == l.history;
    if after != l {
      assert forall i :: i != id ==> (IsProbe(after, i) <==> IsProbe(l, i));
      if after.circuit.halfOpenInFlight {
        assert IsProbe(after, id);
      }
    }
  }

  /** A superseded attempt is never the running probe. */
  lemma SupersededIsNoProbe(l: Ledger, id: nat)
    requires Exact(l) && id in l.open && Superseded(l.circuit, l.open[id])
    ensures !IsProbe(l, id)
  {
    // A probe's circuit is open: the newest entry is a shared failure, so a success after the
    // probe's start would have that failure after it.
    CountSplits(l.history, l.open[id].startedSequence);
  }

  lemma SucceedKeepsExact(l: Ledger, id: nat, exit: Address, now: Time)
    requires Exact(l) && id in l.open
    ensures Exact(Apply(l, Succeed(id, exit, now)))
  {
    if l.open[id].generation != l.circuit.generation {
      DropKeepsExact(l, id);
    } else {
      var circuit := RecordSuccess(l.circuit, l.open[id], exit, now).0;
      AppendKeepsSummary(l, Established, exit, now, circuit);
      ClosingLeavesNoProbe(l, Apply(l, Succeed(id, exit, now)), id, Entry(Established, l.circuit.generation, exit));
    }
  }

  lemma ConfuseKeepsExact(l: Ledger, id: nat, exit: Address, now: Time)
    requires Exact(l) && id in l.open
    ensures Exact(Apply(l, Confuse(id, exit, now)))
  {
    if Superseded(l.circuit, l.open[id]) {
      SupersededIsNoProbe(l, id);
      DropKeepsExact(l, id);
    } else {
      var circuit := RecordAmbiguous(l.circuit, l.open[id], now).0;
      AppendKeepsSummary(l, AmbiguousFailure, exit, now, circuit);
      ClosingLeavesNoProbe(l, Apply(l, Confuse(id, exit, now)), id, Entry(AmbiguousFailure, l.circuit.generation, exit));
    }
  }

  lemma AbandonKeepsExact(l: Ledger, id: nat, now: Time)
    requires Exact(l) && id in l.open
    ensures Exact(Apply(l, Abandon(id, now)))
  {
    var after := Apply(l, Abandon(id, now));
    if !IsProbe(l, id) {
      DropKeepsExact(l, id);
    } else {
      assert forall i :: IsProbe(after, i) ==> IsProbe(l, i);
    }
  }

  lemma ApplyKeepsExact(l: Ledger, op: Op)
    requires Exact(l)
    ensures Exact(Apply(l, op))
  {
    match op
    case Begin(id, now) =>
      if id !in l.open { BeginKeepsExact(l, id, now); }
    case Fail(id, phase, exit, now) =>
      if id in l.open {
        if l.open[id].generation != l.circuit.generation {
          DropKeepsExact(l, id);
        } else {
          OpenKeepsExact(l, id, exit, PublicFrontError(phase), now);
        }
      }
    case Succeed(id, exit, now) =>
      if id in l.open { SucceedKeepsExact(l, id, exit, now); }
    case Confuse(id, exit, now) =>
      if id in l.open { ConfuseKeepsExact(l, id, exit, now); }
    case Abandon(id, now) =>
      if id in l.open { AbandonKeepsExact(l, id, now); }
    case Batch(first, last, now) =>
      if BatchAccepted(l.circuit, first, last) {
        OpenKeepsExact(l, 0, Unsplittable(""), NoCandidateReached, now);
      }
  }

  /** In every interleaving of attempts and batches, the circuit is an exact summary. */
  lemma {:induction false} RunKeepsExact(l: Ledger, ops: seq<Op>)
    requires Exact(l)
    ensures Exact(Run(l, ops))
    decreases |ops|
  {
    if ops != [] {
      ApplyKeepsExact(l, ops[0]);
      RunKeepsExact(Apply(l, ops[0]), ops[1..]);
    }
  }
}
