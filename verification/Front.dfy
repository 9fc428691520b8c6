/**
 The front circuit: the constant-size state that the connector keeps about the shared front
 proxy, and what each completed attempt does to it. Every function is one critical section.
 */
module Front {
  import opened Common
  import opened Addresses

  datatype Phase =
    | FrontDial | FrontCircuit | FrontHandshake | FrontAuth | FrontConnectExit | FrontConnectTarget
    | ExitDial | ExitHandshake | ExitAuth | ExitConnect
    | OtherPhase

  // Which side a failure is held against.
  datatype Scope = UnknownScope | SharedScope | AmbiguousScope | ExitScope

  function ScopeForPhase(phase: Phase): Scope {
    match phase
    case FrontDial | FrontCircuit | FrontHandshake | FrontAuth | FrontConnectTarget => SharedScope
    case FrontConnectExit => AmbiguousScope
    case ExitDial | ExitHandshake | ExitAuth | ExitConnect => ExitScope
    case OtherPhase => UnknownScope
  }

  // The credential-free text shown for the last front failure.
  datatype PublicError =
    | NoError
    | DialFailed | AuthenticationFailed | HandshakeFailed | ExitNotReached | TargetNotReached | FrontFailed
    | NoCandidateReached

  function PublicFrontError(phase: Phase): (r: PublicError)
    ensures r != NoError
  {
    match phase
    case FrontDial => DialFailed
    case FrontAuth => AuthenticationFailed
    case FrontHandshake => HandshakeFailed
    case FrontConnectExit => ExitNotReached
    case FrontConnectTarget => TargetNotReached
    case _ => FrontFailed
  }

  // One ordered resolution within a generation. Sequence 0 is never issued.
  datatype Token = Token(generation: nat, sequence: nat)

  const NO_TOKEN := Token(0, 0)

  // A method reply was received from `exit` through the front.
  datatype Evidence = Evidence(exit: Address, generation: nat, sequence: nat, at: Time)

  const NO_EVIDENCE := Evidence(Unsplittable(""), 0, 0, 0)

  datatype Attempt = Attempt(generation: nat, halfOpen: bool, startedSequence: nat)

  datatype Kind = SharedFailure | AmbiguousFailure | Established

  datatype Status = Disabled | Unknown | Healthy | Unhealthy | HalfOpen

  datatype Circuit = Circuit(
    enabled: bool,
    backoff: nat,
    openUntil: Option<Time>,
    halfOpenInFlight: bool,
    generation: nat,
    resolutionSeq: nat,
    lastResolution: Option<Kind>,
    recentEvidence: Evidence,
    status: Status,
    lastCheckedAt: Option<Time>,
    circuitOpenUntil: Option<Time>,
    lastError: PublicError)

  const HALF_OPEN_RETRY_DELAY := 100_000_000

  function NewCircuit(enabled: bool, backoff: nat): Circuit {
    Circuit(enabled, backoff, None, false, 0, 0, None, NO_EVIDENCE,
            if enabled then Unknown else Disabled, None, None, NoError)
  }

  /** Admits an attempt, or refuses it while the circuit is open or its probe is running. */
  function BeginAttempt(c: Circuit, now: Time): (Circuit, Option<Attempt>) {
    if c.openUntil.Some? && now < c.openUntil.value then (c, None)
    else if c.openUntil.Some? then
      if c.halfOpenInFlight then (c, None)
      else (c.(halfOpenInFlight := true, status := HalfOpen),
            Some(Attempt(c.generation, true, c.resolutionSeq)))
    else (c, Some(Attempt(c.generation, false, c.resolutionSeq)))
  }

  function OpenCircuit(c: Circuit, error: PublicError, now: Time): Circuit {
    c.(generation := c.generation + 1,
       resolutionSeq := c.resolutionSeq + 1,
       lastResolution := Some(SharedFailure),
       openUntil := Some(now + c.backoff),
       halfOpenInFlight := false,
       status := Unhealthy,
       lastCheckedAt := Some(now),
       circuitOpenUntil := Some(now + c.backoff),
       lastError := error)
  }

  function RecordFailure(c: Circuit, attempt: Attempt, phase: Phase, now: Time): Circuit {
    if attempt.generation != c.generation then c else OpenCircuit(c, PublicFrontError(phase), now)
  }

  function RecordSuccess(c: Circuit, attempt: Attempt, exit: Address, now: Time): (Circuit, Option<Token>) {
    if attempt.generation != c.generation then (c, None)
    else
      var token := Token(c.generation, c.resolutionSeq + 1);
      (c.(resolutionSeq := token.sequence,
          lastResolution := Some(Established),
          recentEvidence := Evidence(exit, token.generation, token.sequence, now),
          openUntil := None,
          halfOpenInFlight := false,
          status := Healthy,
          lastCheckedAt := Some(now),
          circuitOpenUntil := None,
          lastError := NoError),
       Some(token))
  }

  predicate Superseded(c: Circuit, attempt: Attempt) {
    || attempt.generation != c.generation
    || (c.recentEvidence.generation == attempt.generation && c.recentEvidence.sequence > attempt.startedSequence)
  }

  function RecordAmbiguous(c: Circuit, attempt: Attempt, now: Time): (Circuit, Option<Token>) {
    if Superseded(c, attempt) then (c, None)
    else
      var token := Token(c.generation, c.resolutionSeq + 1);
      (c.(resolutionSeq := token.sequence,
          lastResolution := Some(AmbiguousFailure),
          openUntil := None,
          halfOpenInFlight := false,
          status := Unknown,
          lastCheckedAt := Some(now),
          circuitOpenUntil := None,
          lastError := PublicFrontError(FrontConnectExit)),
       Some(token))
  }

  /** The test that decides whether a batch of ambiguous failures opens the circuit. */
  predicate BatchAccepted(c: Circuit, first: Token, last: Token) {
    && c.enabled
    && first.sequence != 0 && last.sequence != 0
    && first.generation == last.generation == c.generation
    && first.sequence <= last.sequence
    && last.sequence == c.resolutionSeq
    && c.lastResolution == Some(AmbiguousFailure)
    && !(c.recentEvidence.generation == c.generation && c.recentEvidence.sequence > first.sequence)
  }

  function RecordBatch(c: Circuit, first: Token, last: Token, now: Time): (Circuit, bool) {
    if BatchAccepted(c, first, last) then (OpenCircuit(c, NoCandidateReached, now), true) else (c, false)
  }

  function AbandonAttempt(c: Circuit, attempt: Attempt, now: Time): Circuit {
    if !attempt.halfOpen || attempt.generation != c.generation || !c.halfOpenInFlight then c
    else c.(halfOpenInFlight := false,
            openUntil := Some(now + c.backoff),
            status := Unhealthy,
            circuitOpenUntil := Some(now + c.backoff))
  }

  /** The newest method reply of the current generation, if the front is enabled. */
  function RecentEvidence(c: Circuit): Option<Evidence> {
    if !c.enabled || c.recentEvidence.sequence == 0 || c.recentEvidence.generation != c.generation then None
    else Some(c.recentEvidence)
  }

  function RetryAfter(c: Circuit, now: Time): int {
    if !c.enabled then 0
    else if c.halfOpenInFlight then HALF_OPEN_RETRY_DELAY
    else if c.openUntil.None? || c.openUntil.value < now then 0
    else c.openUntil.value - now
  }

  function PublicStatus(c: Circuit): Status {
    if c.enabled && c.halfOpenInFlight then HalfOpen else c.status
  }
}
