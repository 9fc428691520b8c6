/**
 What an attempt through the front reports, told by the hop at which it failed. Nothing here refers to how
 the outcome is computed: a hop is found by what happened on the way.
 */
module FrontReports {
  import opened Common
  import opened Addresses
  import opened Front
  import opened FrontLedger
  import opened FrontTheorems
  import opened Socks
  import opened FrontPath
  import Probing

  /** Everything up to the front's own handshake went well. */
  predicate FrontGreeted(t: Trip) {
    t.dial.Fine? && t.bind.Fine? && t.frontHello.failed.None?
  }

  /** The attempt failed at this hop, after the earlier ones went well. */
  predicate FailsAt(t: Trip, hop: Hop) {
    match hop
    case Dial => t.dial.Broken?
    case Bind => t.dial.Fine? && t.bind.Broken?
    case FrontHello => t.dial.Fine? && t.bind.Fine? && t.frontHello.failed.Some?
    case FrontReach => FrontGreeted(t) && t.frontReach.Broken?
    case ExitHello => FrontGreeted(t) && t.frontReach.Fine? && t.exitHello.failed.Some?
    case ExitReach => FrontGreeted(t) && t.frontReach.Fine? && t.exitHello.failed.None? && t.exitReach.Broken?
  }

  /** When that hop failed, the caller had hung up. */
  predicate HungUpAt(t: Trip, hop: Hop)
    requires FailsAt(t, hop)
  {
    match hop
    case Dial => t.dial.cancelled
    case Bind => t.bind.cancelled
    case FrontHello => t.frontHelloCancelled
    case FrontReach => t.frontReach.cancelled
    case ExitHello => t.exitHelloCancelled
    case ExitReach => t.exitReach.cancelled
  }

  predicate AllWent(t: Trip) {
    FrontGreeted(t) && t.frontReach.Fine? && t.exitHello.failed.None? && t.exitReach.Fine?
  }

  /** The exit answered: its method choice was read. */
  predicate ExitAnswered(t: Trip) {
    FrontGreeted(t) && t.frontReach.Fine? && t.exitHello.methodReply
  }

  /** Either everything went well, or exactly one hop is where the attempt failed. */
  lemma OneHopFails(t: Trip)
    ensures AllWent(t) <==> forall hop :: !FailsAt(t, hop)
    ensures forall hop, other :: FailsAt(t, hop) && FailsAt(t, other) ==> hop == other
  {
    assert !AllWent(t) ==>
        || FailsAt(t, Dial) || FailsAt(t, Bind) || FailsAt(t, FrontHello)
        || FailsAt(t, FrontReach) || FailsAt(t, ExitHello) || FailsAt(t, ExitReach);
  }

  /**
   An admitted attempt is abandoned exactly if the caller had hung up when its hop failed and the exit had
   not answered. Whatever else is reported as a failure, the caller had not hung up.
   */
  lemma AbandonedIffHungUp(t: Trip)
    requires PlausibleTrip(t) && t.attempt.Some?
    ensures var reports := ChainedOutcome(t).0;
            && (reports == [ReportAbandon] <==> !ExitAnswered(t) && exists hop :: FailsAt(t, hop) && HungUpAt(t, hop))
            && (reports == [ReportSuccess] <==> ExitAnswered(t))
            && (reports == [ReportAmbiguous] || (exists phase :: reports == [ReportFailure(phase)]) ==>
                  exists hop :: FailsAt(t, hop) && !HungUpAt(t, hop))
  {
    OneHopFails(t);
    match FirstBroken(t)
    case None => assert AllWent(t);
    case Some(hop) => assert FailsAt(t, hop) && (HungUpAt(t, hop) <==> StepAt(t, hop).cancelled);
  }

  /**
   Which hop each report stands for, when the caller had not hung up: reaching or greeting the front is the
   front's failure; the front's CONNECT, and silence behind it, leave open whose it was.
   */
  lemma EachReportStandsForItsHop(t: Trip)
    requires PlausibleTrip(t) && t.attempt.Some? && !ExitAnswered(t)
    requires forall hop :: FailsAt(t, hop) ==> !HungUpAt(t, hop)
    ensures var (reports, r) := ChainedOutcome(t);
            && (reports == [ReportFailure(FrontDial)] <==> FailsAt(t, Dial))
            && (reports == [ReportFailure(FrontAuth)] <==> FailsAt(t, FrontHello) && t.frontHello.failed == Some(AuthStage))
            && (reports == [ReportFailure(FrontHandshake)] <==>
                  FailsAt(t, Bind) || (FailsAt(t, FrontHello) && t.frontHello.failed != Some(AuthStage)))
            && (reports == [ReportAmbiguous] <==> FailsAt(t, FrontReach) || FailsAt(t, ExitHello))
            && (reports == [ReportAmbiguous] ==> r == Failed(InPhase(FrontConnectExit, AmbiguousScope, false, TokenOr(t.ambiguousToken))))
            && (reports != [ReportAmbiguous] ==>
                  exists phase :: reports == [ReportFailure(phase)] && r == Failed(InPhase(phase, SharedScope, false, NO_TOKEN)))
  {
    OneHopFails(t);
    match FirstBroken(t)
    case None =>
    case Some(hop) => assert FailsAt(t, hop) && (HungUpAt(t, hop) <==> StepAt(t, hop).cancelled);
  }

  /** Once the exit has answered, what the caller is told names the exit's part and carries the token of the success. */
  lemma ExitFailuresNameTheExit(t: Trip)
    requires PlausibleTrip(t) && t.attempt.Some? && ExitAnswered(t)
    ensures var r := ChainedOutcome(t).1;
            && (r.Success? <==> AllWent(t))
            && (FailsAt(t, ExitHello) && !t.exitHelloCancelled ==>
                  r == Failed(InPhase(if t.exitHello.failed == Some(AuthStage) then ExitAuth else ExitHandshake,
                                      ExitScope, true, TokenOr(t.successToken))))
            && (FailsAt(t, ExitReach) && !t.exitReach.cancelled ==>
                  r == Failed(InPhase(ExitConnect, ExitScope, true, TokenOr(t.successToken))))
            && ((FailsAt(t, ExitHello) && t.exitHelloCancelled) || (FailsAt(t, ExitReach) && t.exitReach.cancelled) ==> r == Failed(Plain))
  {
  }

  /** A refused attempt reports nothing and is told that the circuit is open. */
  lemma RefusedReportsNothing(t: Trip)
    requires t.attempt.None?
    ensures ChainedOutcome(t) == ([], Failed(InPhase(FrontCircuit, SharedScope, false, NO_TOKEN)))
    ensures DirectOutcome(t) == ([], Failed(InPhase(FrontCircuit, SharedScope, false, NO_TOKEN)))
  {
  }

  /** One client's hanging up never opens the shared circuit. */
  lemma HangingUpOpensNothing(t: Trip, l: Ledger, id: nat, exit: Address, now: Time)
    requires PlausibleTrip(t) && t.attempt.Some? && Exact(l)
    requires exists hop :: FailsAt(t, hop) && HungUpAt(t, hop)
    ensures var after := Apply(l, OpOf(ChainedOutcome(t).0[0], id, exit, now)).circuit;
            after.generation == l.circuit.generation && (l.circuit.openUntil.None? ==> after.openUntil.None?)
  {
    hide Exact;
    var hop :| FailsAt(t, hop) && HungUpAt(t, hop);
    OneHopFails(t);
    AbandonedIffHungUp(t);
    hide ChainedOutcome;
    HungUpIsHarmless(l, id, exit, now);
  }

  lemma HungUpIsHarmless(l: Ledger, id: nat, exit: Address, now: Time)
    requires Exact(l)
    ensures forall report :: report in {ReportAbandon, ReportSuccess} ==>
              var after := Apply(l, OpOf(report, id, exit, now)).circuit;
              after.generation == l.circuit.generation && (l.circuit.openUntil.None? ==> after.openUntil.None?)
  {
  }

  // ---- The front alone, and no front at all ----

  /** An attempt that goes no further than the front: each hop is the front's, unless the caller had hung up. */
  lemma FrontProbeMeaning(t: Trip)
    requires t.attempt.Some?
    ensures var (reports, r) := DirectOutcome(t);
            && (reports == [ReportAbandon] <==>
                  exists hop :: hop in {Dial, Bind, FrontHello, FrontReach} && FailsAt(t, hop) && HungUpAt(t, hop))
            && (reports == [ReportSuccess] <==> FrontGreeted(t) && t.frontReach.Fine?)
            && (r.Success? <==> FrontGreeted(t) && t.frontReach.Fine? && t.successToken.Some?)
            && (reports == [ReportFailure(FrontDial)] <==> FailsAt(t, Dial) && !t.dial.cancelled)
            && (reports == [ReportFailure(FrontAuth)] <==>
                  FailsAt(t, FrontHello) && t.frontHello.failed == Some(AuthStage) && !t.frontHelloCancelled)
            && (reports == [ReportFailure(FrontConnectTarget)] <==> FailsAt(t, FrontReach) && !t.frontReach.cancelled)
            && (reports == [ReportFailure(FrontHandshake)] <==>
                  || (FailsAt(t, Bind) && !t.bind.cancelled)
                  || (FailsAt(t, FrontHello) && t.frontHello.failed != Some(AuthStage) && !t.frontHelloCancelled))
            && (forall phase :: reports == [ReportFailure(phase)] ==> r == Failed(InPhase(phase, SharedScope, false, NO_TOKEN)))
            && (reports == [ReportAbandon] ==> r == Failed(Plain))
  {
    OneHopFails(t);
    match BrokenBeforeExit(t)
    case None => assert FrontGreeted(t) && t.frontReach.Fine?;
    case Some(hop) => assert FailsAt(t, hop) && (HungUpAt(t, hop) <==> StepAt(t, hop).cancelled);
  }

  /**
   Without a front, no result is held against it: the hop that failed names the exit's part, unless the caller
   had hung up.
   */
  lemma WithoutFrontOnlyExitsFail(t: Trip)
    ensures var r := Probing.DirectExit(t);
            && (r.Success? <==> t.dial.Fine? && t.bind.Fine? && t.exitHello.failed.None? && t.exitReach.Fine?)
            && (t.dial.Broken? ==> r == OfExit(t.dial.cancelled, ExitDial))
            && (t.dial.Fine? && t.bind.Broken? ==> r == OfExit(t.bind.cancelled, ExitHandshake))
            && (t.dial.Fine? && t.bind.Fine? && t.exitHello.failed.Some? ==>
                  r == OfExit(t.exitHelloCancelled, if t.exitHello.failed == Some(AuthStage) then ExitAuth else ExitHandshake))
            && (t.dial.Fine? && t.bind.Fine? && t.exitHello.failed.None? && t.exitReach.Broken? ==>
                  r == OfExit(t.exitReach.cancelled, ExitConnect))
  {
  }

  function OfExit(hungUp: bool, phase: Phase): Result {
    Failed(if hungUp then Plain else InPhase(phase, ExitScope, false, NO_TOKEN))
  }
}
