/**
 When the front is let alone, for how long, and who is let in next: the circuit's answers against the clock.
 */
module FrontTimes {
  import opened Common
  import opened Addresses
  import opened Front
  import opened FrontLedger
  import opened FrontTheorems

  // ---- Who is let in ----

  /** Whether an attempt beginning at `now` is let in, and as the one that probes an open circuit. */
  predicate LetIn(c: Circuit, now: Time) {
    BeginAttempt(c, now).1.Some?
  }

  /**
   An attempt is let in while the newest resolution is no shared failure. After one, it is let in exactly
   when the wait is over and nobody probes the front at the moment; it then is the one that probes it. Every
   attempt remembers the generation and the newest resolution.
   */
  lemma AdmissionMeaning(l: Ledger, now: Time)
    requires Exact(l)
    ensures var (c, admitted) := BeginAttempt(l.circuit, now);
            var shut := l.history != [] && l.history[|l.history| - 1].kind == SharedFailure;
            && (shut <==> l.circuit.openUntil.Some?)
            && (admitted.Some? <==> !shut || (l.circuit.openUntil.value <= now && forall id :: !IsProbe(l, id)))
            && (admitted.Some? ==> admitted.value == Attempt(SharedCount(l.history), shut, |l.history|))
            && (if admitted.Some? && shut then c == l.circuit.(halfOpenInFlight := true, status := HalfOpen) else c == l.circuit)
  {
  }

  // ---- How long it is shut ----

  /** Shut until `due`, with nobody probing, since a shared failure that nothing can follow before that. */
  ghost predicate ShutUntil(l: Ledger, due: Time) {
    Exact(l) && l.circuit.openUntil == Some(due) && !l.circuit.halfOpenInFlight
  }

  /**
   A shared failure that counts, at `now`, shuts the front for the configured time: an attempt is refused
   exactly before `now + backoff`, and until then callers are told how long that is.
   */
  lemma FailureShutsForBackoff(l: Ledger, id: nat, phase: Phase, exit: Address, now: Time, later: Time)
    requires Exact(l) && id in l.open && NoneOf(l.history, SharedFailure, l.open[id].startedSequence, |l.history|)
    ensures var after := Apply(l, Fail(id, phase, exit, now));
            && ShutUntil(after, now + l.circuit.backoff)
            && (LetIn(after.circuit, later) <==> now + l.circuit.backoff <= later)
            && (l.circuit.enabled ==>
                  RetryAfter(after.circuit, later) == if later < now + l.circuit.backoff then now + l.circuit.backoff - later else 0)
            && after.circuit.lastCheckedAt == Some(now) && after.circuit.lastError == PublicFrontError(phase)
  {
    CountSplits(l.history, l.open[id].startedSequence);
    ApplyKeepsExact(l, Fail(id, phase, exit, now));
    hide Exact;
  }

  /** The failure shown to the public names the hop: reaching, authenticating at, greeting or using the front. */
  lemma ShownErrorNamesHop(phase: Phase)
    ensures PublicFrontError(phase) == DialFailed <==> phase == FrontDial
    ensures PublicFrontError(phase) == AuthenticationFailed <==> phase == FrontAuth
    ensures PublicFrontError(phase) == HandshakeFailed <==> phase == FrontHandshake
    ensures PublicFrontError(phase) == ExitNotReached <==> phase == FrontConnectExit
    ensures PublicFrontError(phase) == TargetNotReached <==> phase == FrontConnectTarget
    ensures PublicFrontError(phase) !in {NoError, NoCandidateReached}
  {
  }

  /** So does a batch that is accepted. */
  lemma BatchShutsForBackoff(l: Ledger, first: Token, last: Token, now: Time, later: Time)
    requires Exact(l) && BatchAccepted(l.circuit, first, last)
    ensures var after := Apply(l, Batch(first, last, now));
            && ShutUntil(after, now + l.circuit.backoff)
            && (LetIn(after.circuit, later) <==> now + l.circuit.backoff <= later)
            && RetryAfter(after.circuit, later) == (if later < now + l.circuit.backoff then now + l.circuit.backoff - later else 0)
            && after.circuit.lastCheckedAt == Some(now) && after.circuit.lastError == NoCandidateReached
  {
    ApplyKeepsExact(l, Batch(first, last, now));
    hide Exact;
  }

  /**
   An abandoned probe of an open circuit shuts it again for the configured time, without a new failure.
   Any other abandoned attempt leaves the circuit as it was.
   */
  lemma AbandonedProbeShutsAgain(l: Ledger, id: nat, now: Time)
    requires Exact(l) && id in l.open
    ensures var after := Apply(l, Abandon(id, now));
            && after.history == l.history && after.circuit.lastCheckedAt == l.circuit.lastCheckedAt
            && if IsProbe(l, id)
               then ShutUntil(after, now + l.circuit.backoff) && after.circuit.lastError == l.circuit.lastError
               else after.circuit == l.circuit
  {
    ApplyKeepsExact(l, Abandon(id, now));
    assert IsProbe(l, id) ==> l.circuit.halfOpenInFlight;
  }

  /** Every attempt that begins in these operations does so before `due`. */
  predicate BeginBefore(ops: seq<Op>, due: Time) {
    forall op :: op in ops && op.Begin? ==> op.now < due
  }

  lemma NothingMovesWhileShut(l: Ledger, op: Op, due: Time)
    requires ShutUntil(l, due) && (op.Begin? ==> op.now < due)
    ensures var after := Apply(l, op);
            && after.circuit == l.circuit && after.history == l.history && ShutUntil(after, due)
            && (forall id :: id in after.open ==> id in l.open)
  {
    ApplyKeepsExact(l, op);
    assert forall id :: id in l.open && l.open[id].generation == l.circuit.generation ==> IsProbe(l, id);
  }

  /**
   While it is shut, nobody is let in, and nothing that older attempts or batches still report changes the
   circuit or joins the history, in any order and number.
   */
  lemma {:induction false} ShutMeansShut(l: Ledger, due: Time, ops: seq<Op>)
    requires ShutUntil(l, due) && BeginBefore(ops, due)
    ensures Run(l, ops).circuit == l.circuit && Run(l, ops).history == l.history
    ensures forall id :: id in Run(l, ops).open ==> id in l.open
    decreases |ops|
  {
    hide ShutUntil, Apply;
    if ops != [] {
      NothingMovesWhileShut(l, ops[0], due);
      ShutMeansShut(Apply(l, ops[0]), due, ops[1..]);
    }
  }

  /** The first attempt let in after the wait probes the front alone: until it is resolved, nobody else is let in. */
  lemma OneProbeAtATime(l: Ledger, due: Time, id: nat, now: Time, later: Time)
    requires ShutUntil(l, due) && due <= now && id !in l.open
    ensures var after := Apply(l, Begin(id, now));
            && id in after.open && IsProbe(after, id) && !LetIn(after.circuit, later)
            && (l.circuit.enabled ==> RetryAfter(after.circuit, later) == 100_000_000)
  {
  }

  // ---- How it opens up again ----

  /** A success or an ambiguous failure that counts lets everybody in at once, and dates the status. */
  lemma ResolutionReopens(l: Ledger, id: nat, exit: Address, now: Time, later: Time)
    requires Exact(l) && id in l.open
    ensures var after := Apply(l, Succeed(id, exit, now)).circuit;
            if NoneOf(l.history, SharedFailure, l.open[id].startedSequence, |l.history|)
            then LetIn(after, later) && RetryAfter(after, later) == 0 && after.lastCheckedAt == Some(now) && after.lastError == NoError
            else after == l.circuit
    ensures var after := Apply(l, Confuse(id, exit, now)).circuit;
            if AllAmbiguous(l.history, l.open[id].startedSequence)
            then && LetIn(after, later) && RetryAfter(after, later) == 0
                 && after.lastCheckedAt == Some(now) && after.lastError == ExitNotReached
            else after == l.circuit
  {
    CompletionCounts(l, id, exit, FrontDial, now);
    AmbiguousTokenMeaning(l, id, exit, now);
  }

  // ---- Without a front ----

  /** While no front is configured nobody waits, nothing is evidence, and no batch opens the circuit; nor does a malformed one ever. */
  lemma NeverOpensOn(c: Circuit, first: Token, last: Token, now: Time)
    ensures !c.enabled ==> RetryAfter(c, now) == 0 && RecentEvidence(c).None? && RecordBatch(c, first, last, now) == (c, false)
    ensures first.sequence == 0 || last.sequence == 0 || first.generation != last.generation || last.sequence < first.sequence ==>
              RecordBatch(c, first, last, now) == (c, false)
  {
  }
}
