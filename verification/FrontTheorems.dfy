/** What an exact ledger implies: the meaning of tokens, evidence, batches and the open circuit. */
module FrontTheorems {
  import opened Common
  import opened Addresses
  import opened Front
  import opened FrontLedger

  // ---- Tokens and evidence ----

  /** An attempt's success or failure counts exactly when no shared failure came since it began. */
  lemma CompletionCounts(l: Ledger, id: nat, exit: Address, phase: Phase, now: Time)
    requires Exact(l) && id in l.open
    ensures var a := l.open[id];
            && (RecordSuccess(l.circuit, a, exit, now).1.Some? <==> NoneOf(l.history, SharedFailure, a.startedSequence, |l.history|))
            && (RecordFailure(l.circuit, a, phase, now) != l.circuit <==> NoneOf(l.history, SharedFailure, a.startedSequence, |l.history|))
  {
    CountSplits(l.history, l.open[id].startedSequence);
  }

  lemma SuccessTokenMeaning(l: Ledger, id: nat, exit: Address, now: Time)
    requires Exact(l) && id in l.open
    ensures var token := RecordSuccess(l.circuit, l.open[id], exit, now).1;
            token.Some? ==> Witnessed(Apply(l, Succeed(id, exit, now)).history,
                                      Evidence(exit, token.value.generation, token.value.sequence, now))
  {
  }

  /** An attempt gets an ambiguous token exactly when everything since it began is ambiguous. */
  lemma AmbiguousTokenMeaning(l: Ledger, id: nat, exit: Address, now: Time)
    requires Exact(l) && id in l.open
    ensures var a := l.open[id];
            var token := RecordAmbiguous(l.circuit, a, now).1;
            && (token.Some? <==> AllAmbiguous(l.history, a.startedSequence))
            && (token.Some? ==> a.startedSequence < token.value.sequence
                                && Issued(Apply(l, Confuse(id, exit, now)).history, token.value, AmbiguousFailure)
                                && token.value.sequence == |Apply(l, Confuse(id, exit, now)).history|
                                && AllAmbiguous(Apply(l, Confuse(id, exit, now)).history, a.startedSequence))
  {
    var a := l.open[id];
    CountSplits(l.history, a.startedSequence);
    var e := l.circuit.recentEvidence;
    if a.generation == l.circuit.generation && e.sequence > a.startedSequence {
      assert NumberedAt(l.history, e.sequence - 1);
      SameGenerationBetween(l.history, a.startedSequence, e.sequence - 1);
    }
  }

  /** Counts do not fall along a history. */
  lemma SameGenerationBetween(h: History, from: nat, to: nat)
    requires from <= to <= |h|
    ensures SharedCount(h[..from]) <= SharedCount(h[..to]) <= SharedCount(h)
  {
    CountSplits(h, to);
    CountSplits(h[..to], from);
    assert h[..to][..from] == h[..from];
  }

  /** Position `k` holds the newest success, and no shared failure came after it. */
  predicate NewestSuccess(h: History, k: nat) {
    && k < |h| && h[k].kind == Established
    && NoneOf(h, Established, k + 1, |h|)
    && NoneOf(h, SharedFailure, k + 1, |h|)
  }

  /** Recent evidence is the newest success of the current generation, whenever there is one. */
  lemma EvidenceIsNewestSuccess(l: Ledger)
    requires Exact(l) && l.circuit.enabled
    ensures match RecentEvidence(l.circuit)
            case Some(e) => Witnessed(l.history, e) && NewestSuccess(l.history, e.sequence - 1)
            case None => forall k :: !NewestSuccess(l.history, k)
  {
    var e := l.circuit.recentEvidence;
    if e.sequence != 0 {
      assert NumberedAt(l.history, e.sequence - 1);
      CountSplits(l.history, e.sequence - 1);
      assert NoneOf(l.history, SharedFailure, e.sequence - 1, |l.history|)
          <==> NoneOf(l.history, SharedFailure, e.sequence, |l.history|);
    }
    if RecentEvidence(l.circuit).None? {
      forall k ensures !NewestSuccess(l.history, k) {
        if e.sequence != 0 && k == e.sequence - 1 {
          assert !NoneOf(l.history, SharedFailure, e.sequence, |l.history|);
        }
      }
    }
  }

  // ---- Batches ----

  /**
   For tokens that were issued, a batch opens the circuit exactly when `last` is the newest
   resolution and every resolution from `first` onward is ambiguous in the current generation.
   */
  lemma BatchDecisionExact(l: Ledger, first: Token, last: Token, now: Time)
    requires Exact(l) && l.circuit.enabled
    requires Issued(l.history, first, AmbiguousFailure) && Issued(l.history, last, AmbiguousFailure)
    ensures RecordBatch(l.circuit, first, last, now).1
            <==> last.sequence == |l.history| && SuffixAmbiguous(l, first.sequence - 1)
  {
    if RecordBatch(l.circuit, first, last, now).1 {
      AcceptedMeansAllAmbiguous(l, first, last);
    }
    if last.sequence == |l.history| && SuffixAmbiguous(l, first.sequence - 1) {
      assert l.history[first.sequence - 1].generation == l.circuit.generation;
      assert l.history[last.sequence - 1].generation == l.circuit.generation;
    }
  }

  /** From `from` onward, every resolution is ambiguous in the current generation. */
  predicate SuffixAmbiguous(l: Ledger, from: nat) {
    forall k :: from <= k < |l.history| ==>
      l.history[k].kind == AmbiguousFailure && l.history[k].generation == l.circuit.generation
  }

  lemma AcceptedMeansAllAmbiguous(l: Ledger, first: Token, last: Token)
    requires Summarises(l.circuit, l.history) && Numbered(l.history) && BatchAccepted(l.circuit, first, last)
    requires Issued(l.history, first, AmbiguousFailure)
    ensures SuffixAmbiguous(l, first.sequence - 1)
  {
    var h := l.history;
    var from := first.sequence - 1;
    CountSplits(h, from);
    NoLaterSuccess(l, first);
    forall k | from <= k < |h| ensures h[k].kind == AmbiguousFailure && h[k].generation == l.circuit.generation {
      assert NumberedAt(h, from) && NumberedAt(h, k);
      SameGenerationBetween(h, from, k);
    }
  }

  /** A success after `first` would be of the same generation, and so refused by the test. */
  lemma NoLaterSuccess(l: Ledger, first: Token)
    requires Summarises(l.circuit, l.history) && Numbered(l.history)
    requires Issued(l.history, first, AmbiguousFailure) && first.generation == l.circuit.generation
    requires !(l.circuit.recentEvidence.generation == l.circuit.generation && l.circuit.recentEvidence.sequence > first.sequence)
    ensures NoneOf(l.history, Established, first.sequence - 1, |l.history|)
  {
    hide SharedCount;
    var h, e := l.history, l.circuit.recentEvidence;
    assert NumberedAt(h, first.sequence - 1);
    if e.sequence > first.sequence {
      assert NumberedAt(h, e.sequence - 1);
      SameGenerationBetween(h, first.sequence - 1, e.sequence - 1);
    }
  }

  lemma ApplyMonotone(l: Ledger, op: Op)
    ensures Apply(l, op).circuit.generation >= l.circuit.generation
    ensures l.history <= Apply(l, op).history
    ensures Apply(l, op).circuit.enabled == l.circuit.enabled
  {
  }

  /** Generations never fall and the history only grows. */
  lemma {:induction false} RunMonotone(l: Ledger, ops: seq<Op>)
    ensures Run(l, ops).circuit.generation >= l.circuit.generation
    ensures l.history <= Run(l, ops).history
    ensures Run(l, ops).circuit.enabled == l.circuit.enabled
    decreases |ops|
  {
    if ops != [] {
      ApplyMonotone(l, ops[0]);
      RunMonotone(Apply(l, ops[0]), ops[1..]);
    }
  }

  /** A pair that opened the circuit once never opens it again, whatever happens in between. */
  lemma BatchAcceptedOnce(l: Ledger, first: Token, last: Token, now: Time, ops: seq<Op>, later: Time)
    requires RecordBatch(l.circuit, first, last, now).1
    ensures !RecordBatch(Run(Apply(l, Batch(first, last, now)), ops).circuit, first, last, later).1
  {
    RunMonotone(Apply(l, Batch(first, last, now)), ops);
  }

  // ---- The open circuit ----

  /** While open, the probe is the only attempt that can still count, and it exists iff in flight. */
  lemma OpenCircuitHasOneProbe(l: Ledger)
    requires Exact(l) && l.circuit.openUntil.Some?
    ensures forall id, other ::
              && id in l.open && l.open[id].generation == l.circuit.generation
              && other in l.open && l.open[other].generation == l.circuit.generation
              ==> id == other
    ensures l.circuit.halfOpenInFlight <==> exists id :: id in l.open && l.open[id].generation == l.circuit.generation
  {
    assert forall id :: id in l.open && l.open[id].generation == l.circuit.generation ==> IsProbe(l, id);
    if l.circuit.halfOpenInFlight {
      var id :| IsProbe(l, id);
      assert id in l.open && l.open[id].generation == l.circuit.generation;
    }
  }

  lemma ApplyKeepsClosed(l: Ledger, op: Op)
    requires Exact(l) && l.circuit.openUntil.None?
    ensures Apply(l, op).circuit.openUntil.None? || Apply(l, op).circuit.generation > l.circuit.generation
  {
  }

  /** A circuit found closed does not open again before the next generation. */
  lemma {:induction false} ClosedStaysClosed(l: Ledger, ops: seq<Op>)
    requires Exact(l) && l.circuit.openUntil.None?
    ensures Run(l, ops).circuit.generation == l.circuit.generation ==> Run(l, ops).circuit.openUntil.None?
    decreases |ops|
  {
    if ops != [] {
      var next := Apply(l, ops[0]);
      ApplyKeepsExact(l, ops[0]);
      ApplyMonotone(l, ops[0]);
      RunMonotone(next, ops[1..]);
      ApplyKeepsClosed(l, ops[0]);
      if next.circuit.generation == l.circuit.generation {
        ClosedStaysClosed(next, ops[1..]);
      }
    }
  }

  /** The wait reported to callers is positive exactly while an attempt would be refused. */
  lemma RetryAfterMatchesAdmission(l: Ledger, now: Time)
    requires Exact(l) && l.circuit.enabled
    ensures RetryAfter(l.circuit, now) > 0 <==> BeginAttempt(l.circuit, now).1.None?
    ensures RetryAfter(l.circuit, now) >= 0
  {
  }

  /** The public status shows the newest resolution, or the running probe. */
  lemma StatusShowsNewestResolution(l: Ledger)
    requires Exact(l) && l.circuit.enabled
    ensures var newest := if l.history == [] then None else Some(l.history[|l.history| - 1].kind);
            match PublicStatus(l.circuit)
            case Disabled => false
            case HalfOpen => newest == Some(SharedFailure) && exists id :: IsProbe(l, id)
            case Unhealthy => newest == Some(SharedFailure) && l.circuit.circuitOpenUntil.Some? && forall id :: !IsProbe(l, id)
            case Healthy => newest == Some(Established)
            case Unknown => newest == None || newest == Some(AmbiguousFailure)
  {
  }

  // ---- Superseded completions ----

  /** `op` completes an attempt that newer resolutions have already superseded, or that is gone. */
  predicate Noise(l: Ledger, op: Op) {
    match op
    case Begin(_, _) => false
    case Fail(id, _, _, _) => id !in l.open || l.open[id].generation != l.circuit.generation
    case Succeed(id, _, _) => id !in l.open || l.open[id].generation != l.circuit.generation
    case Confuse(id, _, _) => id !in l.open || Superseded(l.circuit, l.open[id])
    case Abandon(id, _) => id !in l.open
    case Batch(_, _, _) => false
  }

  function WithoutNoise(l: Ledger, ops: seq<Op>): seq<Op>
    decreases |ops|
  {
    if ops == [] then []
    else
      var rest := WithoutNoise(Apply(l, ops[0]), ops[1..]);
      if Noise(l, ops[0]) then rest else [ops[0]] + rest
  }

  /** Every attempt begun in `ops` has a name not used before. */
  predicate FreshNames(used: set<nat>, ops: seq<Op>)
    decreases |ops|
  {
    if ops == [] then true
    else if ops[0].Begin? then ops[0].id !in used && FreshNames(used + {ops[0].id}, ops[1..])
    else FreshNames(used, ops[1..])
  }

  /** The same circuit and history, with every attempt of `l` still unresolved in `other`. */
  predicate SameFront(l: Ledger, other: Ledger) {
    && l.circuit == other.circuit
    && l.history == other.history
    && forall id :: id in l.open ==> id in other.open && other.open[id] == l.open[id]
  }

  /** Deleting superseded completions from a run changes neither the circuit nor the history. */
  lemma {:induction false} NoiseCanBeDeleted(l: Ledger, other: Ledger, used: set<nat>, ops: seq<Op>)
    requires SameFront(l, other) && other.open.Keys <= used && FreshNames(used, ops)
    ensures SameFront(Run(l, ops), Run(other, WithoutNoise(l, ops)))
    decreases |ops|
  {
    if ops != [] {
      var op, next := ops[0], Apply(l, ops[0]);
      if Noise(l, op) {
        NoiseCanBeDeleted(next, other, used, ops[1..]);
      } else {
        var grown := if op.Begin? then used + {op.id} else used;
        NoiseCanBeDeleted(next, Apply(other, op), grown, ops[1..]);
        assert ([op] + WithoutNoise(next, ops[1..]))[1..] == WithoutNoise(next, ops[1..]);
      }
    }
  }
}
