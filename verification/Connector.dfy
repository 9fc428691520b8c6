/** The connector object: mutable circuit fields, updated one critical section at a time. */
module Connector {
  import opened Common
  import opened Addresses
  import opened Front
  import opened FrontLedger
  import opened FrontTheorems

  /**
   `ledger` is never read by the code. It records the whole history, and `Valid` says that the
   fields are at all times the exact summary of it. The ghost parameter `id` of a completion names
   the unresolved attempt that is being completed.
   */
  class Connector {
    const enabled: bool
    const backoff: nat
    var openUntil: Option<Time>
    var halfOpenInFlight: bool
    var generation: nat
    var resolutionSeq: nat
    var lastResolution: Option<Kind>
    var recentEvidence: Evidence
    var status: Status
    var lastCheckedAt: Option<Time>
    var circuitOpenUntil: Option<Time>
    var lastError: PublicError
    ghost var ledger: Ledger

    ghost function View(): Circuit
      reads this
    {
      Circuit(enabled, backoff, openUntil, halfOpenInFlight, generation, resolutionSeq, lastResolution,
              recentEvidence, status, lastCheckedAt, circuitOpenUntil, lastError)
    }

    ghost predicate Valid()
      reads this
    {
      View() == ledger.circuit && Exact(ledger)
    }

    ghost predicate Unresolved(id: nat, attempt: Attempt)
      reads this
    {
      id in ledger.open && ledger.open[id] == attempt
    }

    constructor (enabled: bool, backoff: nat)
      ensures Valid() && ledger == NewLedger(enabled, backoff)
    {
      this.enabled, this.backoff := enabled, backoff;
      openUntil, halfOpenInFlight, generation, resolutionSeq := None, false, 0, 0;
      lastResolution, recentEvidence := None, NO_EVIDENCE;
      status := if enabled then Unknown else Disabled;
      lastCheckedAt, circuitOpenUntil, lastError := None, None, NoError;
      ledger := NewLedger(enabled, backoff);
      NewIsExact(enabled, backoff);
    }

    method BeginFrontAttempt(now: Time, ghost id: nat) returns (attempt: Option<Attempt>)
      requires Valid() && id !in ledger.open
      modifies this
      ensures Valid() && ledger == Apply(old(ledger), Begin(id, now))
      ensures attempt.Some? ==> Unresolved(id, attempt.value)
      ensures attempt.None? ==> ledger == old(ledger) && (enabled ==> RetryAfter(old(View()), now) > 0)
    {
      hide Exact;
      ApplyKeepsExact(ledger, Begin(id, now));
      ledger := Apply(ledger, Begin(id, now));
      if openUntil.Some? && now < openUntil.value {
        return None;
      }
      if openUntil.Some? {
        if halfOpenInFlight {
          return None;
        }
        halfOpenInFlight := true;
        status := HalfOpen;
        return Some(Attempt(generation, true, resolutionSeq));
      }
      return Some(Attempt(generation, false, resolutionSeq));
    }

    /** The end that a shared failure and an accepted batch have in common. */
    method OpenFrontCircuit(error: PublicError, now: Time)
      modifies this`generation, this`resolutionSeq, this`lastResolution, this`openUntil, this`halfOpenInFlight, this`status,
               this`lastCheckedAt, this`circuitOpenUntil, this`lastError
      ensures View() == OpenCircuit(old(View()), error, now)
    {
      generation := generation + 1;
      resolutionSeq := resolutionSeq + 1;
      lastResolution := Some(SharedFailure);
      openUntil := Some(now + backoff);
      halfOpenInFlight := false;
      status := Unhealthy;
      lastCheckedAt := Some(now);
      circuitOpenUntil := openUntil;
      lastError := error;
    }

    method RecordFrontFailure(attempt: Attempt, phase: Phase, now: Time, ghost id: nat, ghost exit: Address)
      requires Valid() && Unresolved(id, attempt)
      modifies this
      ensures Valid() && ledger == Apply(old(ledger), Fail(id, phase, exit, now))
    {
      hide Exact;
      ApplyKeepsExact(ledger, Fail(id, phase, exit, now));
      ledger := Apply(ledger, Fail(id, phase, exit, now));
      if attempt.generation != generation {
        return;
      }
      OpenFrontCircuit(PublicFrontError(phase), now);
    }

    method RecordFrontSuccess(attempt: Attempt, exit: Address, now: Time, ghost id: nat)
      returns (token: Token, current: bool)
      requires Valid() && Unresolved(id, attempt)
      modifies this
      ensures Valid() && ledger == Apply(old(ledger), Succeed(id, exit, now))
      ensures (if current then Some(token) else None) == RecordSuccess(old(View()), attempt, exit, now).1
      ensures current ==> Witnessed(ledger.history, Evidence(exit, token.generation, token.sequence, now))
      ensures !current ==> token == NO_TOKEN
      ensures current <==> NoneOf(old(ledger.history), SharedFailure, attempt.startedSequence, |old(ledger.history)|)
    {
      hide Exact, NoneOf, Witnessed;
      CompletionCounts(ledger, id, exit, OtherPhase, now);
      SuccessTokenMeaning(ledger, id, exit, now);
      ApplyKeepsExact(ledger, Succeed(id, exit, now));
      ledger := Apply(ledger, Succeed(id, exit, now));
      if attempt.generation != generation {
        return NO_TOKEN, false;
      }
      resolutionSeq := resolutionSeq + 1;
      token := Token(generation, resolutionSeq);
      lastResolution := Some(Established);
      recentEvidence := Evidence(exit, token.generation, token.sequence, now);
      openUntil := None;
      halfOpenInFlight := false;
      status := Healthy;
      lastCheckedAt := Some(now);
      circuitOpenUntil := None;
      lastError := NoError;
      return token, true;
    }

    method RecordFrontAmbiguous(attempt: Attempt, now: Time, ghost id: nat, ghost exit: Address)
      returns (token: Token, current: bool)
      requires Valid() && Unresolved(id, attempt)
      modifies this
      ensures Valid() && ledger == Apply(old(ledger), Confuse(id, exit, now))
      ensures (if current then Some(token) else None) == RecordAmbiguous(old(View()), attempt, now).1
      ensures current <==> AllAmbiguous(old(ledger.history), attempt.startedSequence)
      ensures current ==> Issued(ledger.history, token, AmbiguousFailure) && token.sequence == |ledger.history|
      ensures !current ==> token == NO_TOKEN && ledger.history == old(ledger.history)
    {
      hide Exact, AllAmbiguous;
      AmbiguousTokenMeaning(ledger, id, exit, now);
      ApplyKeepsExact(ledger, Confuse(id, exit, now));
      ledger := Apply(ledger, Confuse(id, exit, now));
      if attempt.generation != generation {
        return NO_TOKEN, false;
      }
      if recentEvidence.generation == attempt.generation && recentEvidence.sequence > attempt.startedSequence {
        return NO_TOKEN, false;
      }
      resolutionSeq := resolutionSeq + 1;
      token := Token(generation, resolutionSeq);
      lastResolution := Some(AmbiguousFailure);
      openUntil := None;
      halfOpenInFlight := false;
      status := Unknown;
      lastCheckedAt := Some(now);
      circuitOpenUntil := None;
      lastError := PublicFrontError(FrontConnectExit);
      return token, true;
    }

    method RecordAmbiguousBatchFailure(first: Token, last: Token, now: Time) returns (tripped: bool)
      requires Valid()
      modifies this
      ensures Valid() && ledger == Apply(old(ledger), Batch(first, last, now))
      ensures tripped == BatchAccepted(old(View()), first, last)
    {
      hide Exact;
      ApplyKeepsExact(ledger, Batch(first, last, now));
      ledger := Apply(ledger, Batch(first, last, now));
      if !enabled {
        return false;
      }
      if first.sequence == 0 || last.sequence == 0 || first.generation != last.generation || first.generation != generation
         || first.sequence > last.sequence || last.sequence != resolutionSeq || lastResolution != Some(AmbiguousFailure) {
        return false;
      }
      if recentEvidence.generation == generation && recentEvidence.sequence > first.sequence {
        return false;
      }
      OpenFrontCircuit(NoCandidateReached, now);
      return true;
    }

    method AbandonFrontAttempt(attempt: Attempt, now: Time, ghost id: nat)
      requires Valid() && Unresolved(id, attempt)
      modifies this
      ensures Valid() && ledger == Apply(old(ledger), Abandon(id, now))
      ensures ledger.history == old(ledger.history)
    {
      hide Exact;
      ApplyKeepsExact(ledger, Abandon(id, now));
      ledger := Apply(ledger, Abandon(id, now));
      if !attempt.halfOpen {
        return;
      }
      if attempt.generation != generation || !halfOpenInFlight {
        return;
      }
      halfOpenInFlight := false;
      openUntil := Some(now + backoff);
      status := Unhealthy;
      circuitOpenUntil := openUntil;
    }

    method RecentFrontEvidence() returns (evidence: Option<Evidence>)
      requires Valid()
      ensures evidence == RecentEvidence(View())
    {
      if !enabled || recentEvidence.sequence == 0 || recentEvidence.generation != generation {
        return None;
      }
      return Some(recentEvidence);
    }

    method FrontRetryAfter(now: Time) returns (wait: int)
      requires Valid()
      ensures wait == RetryAfter(View(), now)
    {
      if !enabled {
        return 0;
      }
      if halfOpenInFlight {
        return HALF_OPEN_RETRY_DELAY;
      }
      wait := if openUntil.Some? then openUntil.value - now else -1;
      if wait < 0 {
        return 0;
      }
    }
  }
}
