/**
 One connection attempt through the front, from admission to result: which completion it reports to
 the circuit, and what its error tells the manager.
 */
module FrontPath {
  import opened Common
  import opened Addresses
  import opened Front
  import opened FrontLedger
  import opened FrontTheorems
  import opened Socks

  // ---- Errors ----

  // A plain error carries no phase; a cancelled call returns one.
  datatype Failure = Plain | InPhase(phase: Phase, scope: Scope, established: bool, token: Token)

  datatype Result = Success | Failed(failure: Failure)

  function PhaseFailure(phase: Phase): Failure {
    InPhase(phase, ScopeForPhase(phase), false, NO_TOKEN)
  }

  function AmbiguousAt(token: Option<Token>): Failure {
    InPhase(FrontConnectExit, AmbiguousScope, false, TokenOr(token))
  }

  function TokenOr(token: Option<Token>): Token {
    if token.Some? then token.value else NO_TOKEN
  }

  function EstablishedFailure(phase: Phase, token: Token): Failure {
    InPhase(phase, ScopeForPhase(phase), true, token)
  }

  /** The explicit scope, or the one implied by the phase. */
  function FailureScopeOf(r: Result): Scope {
    match r
    case Failed(InPhase(phase, scope, _, _)) => if scope != UnknownScope then scope else ScopeForPhase(phase)
    case _ => UnknownScope
  }

  predicate IsFrontFailure(r: Result) {
    FailureScopeOf(r) == SharedScope || FailureScopeOf(r) == AmbiguousScope
  }

  predicate FrontEstablished(r: Result) {
    r.Failed? && r.failure.InPhase? && r.failure.established
  }

  function AmbiguousFailureToken(r: Result): Option<Token> {
    if r.Failed? && r.failure.InPhase? && FailureScopeOf(r) == AmbiguousScope && r.failure.token.sequence != 0
    then Some(r.failure.token) else None
  }

  function ConfirmedExitFailure(f: Failure): Failure {
    match f
    case Plain => f
    case InPhase(phase, _, _, token) => InPhase(phase, ExitScope, true, token)
  }

  // ---- What happens on the way ----

  datatype Hop = Dial | Bind | FrontHello | FrontReach | ExitHello | ExitReach

  // How one hop went; when it failed, whether the caller had cancelled by then.
  datatype HopResult = Fine | Broken(cancelled: bool)

  /**
   Everything outside the code's control during one attempt: how each hop goes, what the two SOCKS5
   handshakes report, and what the circuit answers to a completion.
   */
  datatype Trip = Trip(
    attempt: Option<Attempt>,
    dial: HopResult, bind: HopResult,
    frontHello: Handshake, frontHelloCancelled: bool, frontReach: HopResult,
    exitHello: Handshake, exitHelloCancelled: bool, exitReach: HopResult,
    ambiguousToken: Option<Token>,
    successToken: Option<Token>)

  // What is reported to the circuit.
  datatype Report = ReportFailure(phase: Phase) | ReportAmbiguous | ReportSuccess | ReportAbandon

  function HelloStep(h: Handshake, cancelled: bool): HopResult {
    if h.failed.None? then Fine else Broken(cancelled)
  }

  function FrontHelloPhase(h: Handshake): Phase {
    if h.failed == Some(AuthStage) then FrontAuth else FrontHandshake
  }

  function ExitHelloPhase(h: Handshake): Phase {
    if h.failed == Some(AuthStage) then ExitAuth else ExitHandshake
  }

  // ---- The first hop that fails decides everything ----

  function StepAt(t: Trip, hop: Hop): HopResult {
    match hop
    case Dial => t.dial
    case Bind => t.bind
    case FrontHello => HelloStep(t.frontHello, t.frontHelloCancelled)
    case FrontReach => t.frontReach
    case ExitHello => HelloStep(t.exitHello, t.exitHelloCancelled)
    case ExitReach => t.exitReach
  }

  /** The first of the hops up to the front's own CONNECT that fails. */
  function BrokenBeforeExit(t: Trip): (r: Option<Hop>)
    ensures r.Some? ==> StepAt(t, r.value).Broken?
  {
    if t.dial.Broken? then Some(Dial)
    else if t.bind.Broken? then Some(Bind)
    else if StepAt(t, FrontHello).Broken? then Some(FrontHello)
    else if t.frontReach.Broken? then Some(FrontReach)
    else None
  }

  function FirstBroken(t: Trip): (r: Option<Hop>)
    ensures r.Some? ==> StepAt(t, r.value).Broken?
  {
    if BrokenBeforeExit(t).Some? then BrokenBeforeExit(t)
    else if StepAt(t, ExitHello).Broken? then Some(ExitHello)
    else if t.exitReach.Broken? then Some(ExitReach)
    else None
  }

  /** The exit's method reply was read on this trip. */
  predicate ReplyReached(t: Trip) {
    BrokenBeforeExit(t).None? && t.exitHello.methodReply
  }

  function PhaseAt(t: Trip, hop: Hop): Phase {
    match hop
    case Dial => FrontDial
    case Bind => FrontHandshake
    case FrontHello => FrontHelloPhase(t.frontHello)
    case FrontReach => FrontConnectExit
    case ExitHello => if t.exitHello.methodReply then ExitHelloPhase(t.exitHello) else FrontConnectExit
    case ExitReach => ExitConnect
  }

  /** Reports and result of a chained attempt, by its first broken hop. */
  function ChainedOutcome(t: Trip): (seq<Report>, Result) {
    if t.attempt.None? then ([], Failed(PhaseFailure(FrontCircuit)))
    else match FirstBroken(t)
         case None => ([ReportSuccess], Success)
         case Some(hop) =>
           var cancelled := StepAt(t, hop).cancelled;
           if ReplyReached(t) then
             ([ReportSuccess],
              Failed(if cancelled then Plain else EstablishedFailure(PhaseAt(t, hop), TokenOr(t.successToken))))
           else if cancelled then ([ReportAbandon], Failed(Plain))
           else if PhaseAt(t, hop) == FrontConnectExit then
             ([ReportAmbiguous], Failed(AmbiguousAt(t.ambiguousToken)))
           else ([ReportFailure(PhaseAt(t, hop))], Failed(PhaseFailure(PhaseAt(t, hop))))
  }

  /** A handshake succeeds only after its method reply. */
  predicate PlausibleTrip(t: Trip) {
    t.exitHello.failed.None? ==> t.exitHello.methodReply
  }

  method ConnectThroughFront(t: Trip) returns (calls: seq<Report>, r: Result)
    requires PlausibleTrip(t)
    ensures (calls, r) == ChainedOutcome(t)
  {
    calls := [];
    if t.attempt.None? {
      return calls, Failed(PhaseFailure(FrontCircuit));
    }
    var resolved := false;
    label Attempted: {
      if t.dial.Broken? {
        if t.dial.cancelled {
          r := Failed(Plain);
          break Attempted;
        }
        calls, resolved := calls + [ReportFailure(FrontDial)], true;
        r := Failed(PhaseFailure(FrontDial));
        break Attempted;
      }
      if t.bind.Broken? {
        if t.bind.cancelled {
          r := Failed(Plain);
          break Attempted;
        }
        calls, resolved := calls + [ReportFailure(FrontHandshake)], true;
        r := Failed(PhaseFailure(FrontHandshake));
        break Attempted;
      }
      if t.frontHello.failed.Some? {
        if t.frontHelloCancelled {
          r := Failed(Plain);
          break Attempted;
        }
        var phase := FrontHelloPhase(t.frontHello);
        calls, resolved := calls + [ReportFailure(phase)], true;
        r := Failed(PhaseFailure(phase));
        break Attempted;
      }
      if t.frontReach.Broken? {
        if t.frontReach.cancelled {
          r := Failed(Plain);
          break Attempted;
        }
        calls, resolved := calls + [ReportAmbiguous], true;
        r := Failed(AmbiguousAt(t.ambiguousToken));
        break Attempted;
      }
      var frontToken, frontEstablished := NO_TOKEN, false;
      if t.exitHello.methodReply {
        frontEstablished := true;
        calls, resolved := calls + [ReportSuccess], true;
        frontToken := TokenOr(t.successToken);
      }
      if t.exitHello.failed.Some? {
        if t.exitHelloCancelled {
          r := Failed(Plain);
          break Attempted;
        }
        if !frontEstablished {
          calls, resolved := calls + [ReportAmbiguous], true;
          r := Failed(AmbiguousAt(t.ambiguousToken));
          break Attempted;
        }
        r := Failed(EstablishedFailure(ExitHelloPhase(t.exitHello), frontToken));
        break Attempted;
      }
      if t.exitReach.Broken? {
        if t.exitReach.cancelled {
          r := Failed(Plain);
          break Attempted;
        }
        r := Failed(EstablishedFailure(ExitConnect, frontToken));
        break Attempted;
      }
      r := Success;
    }
    if !resolved {
      calls := calls + [ReportAbandon];
    }
    assert calls == ChainedOutcome(t).0;
  }

  /**
   An admitted attempt is resolved exactly once. Success is reported exactly when the exit's method
   reply was read, and a phase error says so exactly then.
   */
  lemma ResolvedExactlyOnce(t: Trip)
    requires PlausibleTrip(t)
    ensures var (calls, r) := ChainedOutcome(t);
            && |calls| == (if t.attempt.Some? then 1 else 0)
            && (calls == [ReportSuccess] <==> t.attempt.Some? && ReplyReached(t))
            && (r.Failed? && r.failure.InPhase? ==> (FrontEstablished(r) <==> t.attempt.Some? && ReplyReached(t)))
            && (r.Success? ==> calls == [ReportSuccess])
            && (calls == [ReportAbandon] ==> r == Failed(Plain))
  {
  }

  /** The scope of the error names the report that was made. */
  lemma ScopeNamesReport(t: Trip)
    requires PlausibleTrip(t) && t.attempt.Some?
    ensures var (calls, r) := ChainedOutcome(t);
            && (FailureScopeOf(r) == SharedScope <==> exists phase :: calls == [ReportFailure(phase)])
            && (FailureScopeOf(r) == AmbiguousScope <==> calls == [ReportAmbiguous])
            && (FailureScopeOf(r) == ExitScope <==> calls == [ReportSuccess] && r.Failed? && r.failure != Plain)
  {
    var (calls, r) := ChainedOutcome(t);
    if FailureScopeOf(r) == SharedScope {
      assert calls == [ReportFailure(r.failure.phase)];
    }
  }

  /** The circuit operation behind a report. */
  function OpOf(call: Report, id: nat, exit: Address, now: Time): Op {
    match call
    case ReportFailure(phase) => Fail(id, phase, exit, now)
    case ReportAmbiguous => Confuse(id, exit, now)
    case ReportSuccess => Succeed(id, exit, now)
    case ReportAbandon => Abandon(id, now)
  }

  /** The trip's tokens are the circuit's answers at the moment of the report. */
  predicate AnsweredBy(t: Trip, l: Ledger, id: nat, exit: Address, now: Time) {
    && id in l.open
    && t.attempt == Some(l.open[id])
    && t.ambiguousToken == RecordAmbiguous(l.circuit, l.open[id], now).1
    && t.successToken == RecordSuccess(l.circuit, l.open[id], exit, now).1
  }

  /**
   Whatever other attempts did meanwhile, the report resolves the attempt, an ambiguous token
   returned to the manager is one the history holds for this exit, and so is established evidence.
   */
  lemma ReturnedTokensAreIssued(t: Trip, l: Ledger, id: nat, exit: Address, now: Time)
    requires Exact(l) && PlausibleTrip(t) && AnsweredBy(t, l, id, exit, now)
    ensures var (calls, r) := ChainedOutcome(t);
            var after := Apply(l, OpOf(calls[0], id, exit, now));
            && id !in after.open
            && (AmbiguousFailureToken(r).Some? ==>
                  && Issued(after.history, AmbiguousFailureToken(r).value, AmbiguousFailure)
                  && after.history[AmbiguousFailureToken(r).value.sequence - 1].exit == exit
                  && l.open[id].startedSequence < AmbiguousFailureToken(r).value.sequence)
            && (FrontEstablished(r) && r.failure.token.sequence != 0 ==>
                  Witnessed(after.history, Evidence(exit, r.failure.token.generation, r.failure.token.sequence, now)))
  {
    hide Exact, AllAmbiguous;
    AmbiguousTokenMeaning(l, id, exit, now);
    SuccessTokenMeaning(l, id, exit, now);
  }

  // ---- Probing the front itself ----

  /** Reports and result of reaching a target without an exit. */
  function DirectOutcome(t: Trip): (seq<Report>, Result) {
    if t.attempt.None? then ([], Failed(PhaseFailure(FrontCircuit)))
    else match BrokenBeforeExit(t)
         case None =>
           ([ReportSuccess], if t.successToken.Some? then Success else Failed(PhaseFailure(FrontCircuit)))
         case Some(hop) =>
           var phase := if hop == FrontReach then FrontConnectTarget else PhaseAt(t, hop);
           if StepAt(t, hop).cancelled then ([ReportAbandon], Failed(Plain))
           else ([ReportFailure(phase)], Failed(PhaseFailure(phase)))
  }

  method ConnectFront(t: Trip) returns (calls: seq<Report>, r: Result)
    ensures (calls, r) == DirectOutcome(t)
  {
    calls := [];
    if t.attempt.None? {
      return calls, Failed(PhaseFailure(FrontCircuit));
    }
    var resolved := false;
    label Attempted: {
      if t.dial.Broken? {
        if t.dial.cancelled {
          r := Failed(Plain);
          break Attempted;
        }
        calls, resolved := calls + [ReportFailure(FrontDial)], true;
        r := Failed(PhaseFailure(FrontDial));
        break Attempted;
      }
      if t.bind.Broken? {
        if t.bind.cancelled {
          r := Failed(Plain);
          break Attempted;
        }
        calls, resolved := calls + [ReportFailure(FrontHandshake)], true;
        r := Failed(PhaseFailure(FrontHandshake));
        break Attempted;
      }
      if t.frontHello.failed.Some? {
        if t.frontHelloCancelled {
          r := Failed(Plain);
          break Attempted;
        }
        var phase := FrontHelloPhase(t.frontHello);
        calls, resolved := calls + [ReportFailure(phase)], true;
        r := Failed(PhaseFailure(phase));
        break Attempted;
      }
      if t.frontReach.Broken? {
        if t.frontReach.cancelled {
          r := Failed(Plain);
          break Attempted;
        }
        calls, resolved := calls + [ReportFailure(FrontConnectTarget)], true;
        r := Failed(PhaseFailure(FrontConnectTarget));
        break Attempted;
      }
      calls, resolved := calls + [ReportSuccess], true;
      if t.successToken.None? {
        r := Failed(PhaseFailure(FrontCircuit));
        break Attempted;
      }
      r := Success;
    }
    if !resolved {
      calls := calls + [ReportAbandon];
    }
    assert calls == DirectOutcome(t).0;
  }

  /** A front probe is resolved exactly once and never leaves an ambiguous or exit failure. */
  lemma DirectProbeResolvedOnce(t: Trip)
    ensures var (calls, r) := DirectOutcome(t);
            && |calls| == (if t.attempt.Some? then 1 else 0)
            && FailureScopeOf(r) != AmbiguousScope && FailureScopeOf(r) != ExitScope && !FrontEstablished(r)
            && (r.Success? ==> calls == [ReportSuccess] && t.successToken.Some?)
            && (t.attempt.Some? && BrokenBeforeExit(t).None? <==> calls == [ReportSuccess])
  {
  }
}
