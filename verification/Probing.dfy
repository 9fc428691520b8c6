/** A probe of one exit, with the connector it goes through: the tokens it returns are truthful. */
module Probing {
  import opened Common
  import opened Addresses
  import opened Front
  import opened FrontLedger
  import opened FrontTheorems
  import opened FrontPath
  import opened Evidence
  import Connector

  /** The result of connecting to the exit without a front. */
  function DirectExit(t: Trip): Result {
    if t.dial.Broken? then Failed(if t.dial.cancelled then Plain else PhaseFailure(ExitDial))
    else if t.bind.Broken? then Failed(if t.bind.cancelled then Plain else PhaseFailure(ExitHandshake))
    else if t.exitHello.failed.Some? then Failed(if t.exitHelloCancelled then Plain else PhaseFailure(ExitHelloPhase(t.exitHello)))
    else if t.exitReach.Broken? then Failed(if t.exitReach.cancelled then Plain else PhaseFailure(ExitConnect))
    else Success
  }

  /** A name that no unresolved attempt has. */
  ghost function FreshId(open: map<nat, Attempt>): (id: nat)
    ensures id !in open
  {
    Above(open.Keys)
  }

  ghost function Above(ids: set<nat>): (n: nat)
    ensures forall id :: id in ids ==> id < n
  {
    if ids == {} then 0
    else
      var id :| id in ids;
      var n := Above(ids - {id});
      assert forall i :: i in ids ==> i == id || i in ids - {id};
      if id < n then n else id + 1
  }

  // ---- Other attempts ----

  /** `others` are unresolved attempts, under different names. */
  ghost predicate Unresolved(l: Ledger, others: seq<Attempt>, names: seq<nat>) {
    && |names| == |others|
    && (forall i :: 0 <= i < |names| ==> names[i] in l.open && l.open[names[i]] == others[i])
    && (forall i, j :: 0 <= i < j < |names| ==> names[i] != names[j])
  }

  /** None of them is `mine`. */
  ghost predicate Apart(l: Ledger, others: seq<Attempt>, names: seq<nat>, mine: nat) {
    Unresolved(l, others, names) && mine !in names
  }

  /** The same unresolved attempts, but for one. */
  lemma OthersRemain(l: Ledger, after: Ledger, others: seq<Attempt>, names: seq<nat>, mine: nat, k: nat)
    requires Apart(l, others, names, mine) && k < |others| && after.open == l.open - {names[k]}
    ensures Apart(after, others[..k] + others[k + 1..], names[..k] + names[k + 1..], mine)
  {
    var left := names[..k] + names[k + 1..];
    assert forall i :: 0 <= i < |left| ==> left[i] == names[if i < k then i else i + 1];
  }

  lemma OthersGrow(l: Ledger, after: Ledger, others: seq<Attempt>, names: seq<nat>, mine: nat, id: nat, now: Time)
    requires Apart(l, others, names, mine) && id !in l.open && mine in l.open && after == FrontLedger.Apply(l, Begin(id, now))
    ensures after.history == l.history && mine in after.open && after.open[mine] == l.open[mine]
    ensures if id in after.open then Apart(after, others + [after.open[id]], names + [id], mine) else Apart(after, others, names, mine)
  {
    hide BeginAttempt;
    assert forall i :: 0 <= i < |names| ==> names[i] != id;
  }

  lemma Resolves(l: Ledger, report: Report, id: nat, exit: Address, now: Time)
    requires id in l.open
    ensures FrontLedger.Apply(l, OpOf(report, id, exit, now)).open == l.open - {id}
  {
  }

  /** Other attempts begin and end, and batches are put to the circuit, in any order and number. */
  method OtherTraffic(connector: Connector.Connector, ghost mine: nat, others: seq<Attempt>, ghost names: seq<nat>)
    requires connector.Valid() && mine in connector.ledger.open && Apart(connector.ledger, others, names, mine)
    modifies connector
    ensures connector.Valid() && old(connector.ledger).history <= connector.ledger.history
    ensures mine in connector.ledger.open && connector.ledger.open[mine] == old(connector.ledger).open[mine]
  {
    hide Exact, RecordAmbiguous, RecordSuccess, RecordFailure, AbandonAttempt, BeginAttempt, FrontLedger.Apply, Apart;
    var left := others;
    ghost var called := names;
    var steps: nat := *;
    var i := 0;
    while i < steps
      invariant connector.Valid() && old(connector.ledger).history <= connector.ledger.history
      invariant mine in connector.ledger.open && connector.ledger.open[mine] == old(connector.ledger).open[mine]
      invariant Apart(connector.ledger, left, called, mine)
    {
      i := i + 1;
      left, called := OtherStep(connector, mine, left, called);
    }
  }

  method OtherStep(connector: Connector.Connector, ghost mine: nat, others: seq<Attempt>, ghost names: seq<nat>)
    returns (left: seq<Attempt>, ghost called: seq<nat>)
    requires connector.Valid() && mine in connector.ledger.open && Apart(connector.ledger, others, names, mine)
    modifies connector
    ensures connector.Valid() && old(connector.ledger).history <= connector.ledger.history
    ensures mine in connector.ledger.open && connector.ledger.open[mine] == old(connector.ledger).open[mine]
    ensures Apart(connector.ledger, left, called, mine)
  {
    hide Exact, RecordAmbiguous, RecordSuccess, RecordFailure, AbandonAttempt, BeginAttempt, FrontLedger.Apply;
    ghost var before := connector.ledger;
    left, called := others, names;
    var now: Time, k: nat, batch: bool := *, *, *;
    if k < |others| {
      var report: Report, exit: Address := *, *;
      Resolves(before, report, names[k], exit, now);
      ApplyMonotone(before, OpOf(report, names[k], exit, now));
      var token := Deliver(connector, others[k], report, names[k], exit, now);
      OthersRemain(before, connector.ledger, others, names, mine, k);
      left, called := others[..k] + others[k + 1..], names[..k] + names[k + 1..];
    } else if batch {
      var first: Token, last: Token := *, *;
      ApplyMonotone(before, Batch(first, last, now));
      var tripped := connector.RecordAmbiguousBatchFailure(first, last, now);
      BatchKeepsOpen(before, first, last, now);
    } else {
      ghost var id := FreshId(before.open);
      OthersGrow(before, FrontLedger.Apply(before, Begin(id, now)), others, names, mine, id, now);
      var attempt := connector.BeginFrontAttempt(now, id);
      if attempt.Some? {
        left, called := others + [attempt.value], names + [id];
      }
    }
  }

  lemma BatchKeepsOpen(l: Ledger, first: Token, last: Token, now: Time)
    ensures FrontLedger.Apply(l, Batch(first, last, now)).open == l.open
  {
  }

  // ---- The probe ----

  /**
   Connects to `exit`. `t` is what happens on the way; the circuit itself supplies the attempt and the
   token. Between admission and report, other attempts, among them the unresolved `others`, use the
   connector in any way, and time passes.
   */
  method ProbeExit(connector: Connector.Connector, exit: Address, t: Trip, now: Time, later: Time,
                   others: seq<Attempt>, ghost names: seq<nat>)
    returns (result: Result)
    requires connector.Valid() && PlausibleTrip(t)
    requires Unresolved(connector.ledger, others, names)
    modifies connector
    ensures connector.Valid() && old(connector.ledger).history <= connector.ledger.history
    ensures Truthful(connector.ledger.history, exit, |old(connector.ledger).history|, result)
    ensures !connector.enabled ==> connector.ledger == old(connector.ledger)
  {
    hide Exact, AllAmbiguous, NoneOf, RecordAmbiguous, RecordSuccess, RecordFailure, AbandonAttempt, ChainedOutcome, Apart, Unresolved;
    if !connector.enabled {
      return DirectExit(t);
    }
    ghost var id, before := FreshId(connector.ledger.open), connector.ledger;
    BeginStarts(before, others, names, id, now);
    var attempt := connector.BeginFrontAttempt(now, id);
    var planned := t.(attempt := attempt, ambiguousToken := None, successToken := None);
    if attempt.None? {
      var reports, refused := ConnectThroughFront(planned);
      NotAdmitted(planned);
      return refused;
    }
    OtherTraffic(connector, id, others, names);
    result := ReportAttempt(connector, attempt.value, exit, t, later, id);
  }

  /** Ends the attempt with what happened on the way, and returns what the manager is told. */
  method ReportAttempt(connector: Connector.Connector, attempt: Attempt, exit: Address, t: Trip, now: Time, ghost id: nat)
    returns (result: Result)
    requires connector.Valid() && connector.Unresolved(id, attempt) && PlausibleTrip(t)
    modifies connector
    ensures connector.Valid() && old(connector.ledger).history <= connector.ledger.history
    ensures Truthful(connector.ledger.history, exit, attempt.startedSequence, result)
  {
    hide Exact, AllAmbiguous, NoneOf, RecordAmbiguous, RecordSuccess, RecordFailure, AbandonAttempt, ChainedOutcome;
    ghost var begun := connector.ledger;
    var planned := t.(attempt := Some(attempt), ambiguousToken := None, successToken := None);
    var reports, untold := ConnectThroughFront(planned);
    ResolvedExactlyOnce(planned);
    ghost var answered := planned.(
      ambiguousToken := RecordAmbiguous(begun.circuit, attempt, now).1,
      successToken := RecordSuccess(begun.circuit, attempt, exit, now).1);
    SameReports(planned, answered);
    ReturnedTokensAreIssued(answered, begun, id, exit, now);
    ApplyMonotone(begun, OpOf(reports[0], id, exit, now));
    var token := Deliver(connector, attempt, reports[0], id, exit, now);
    result := if reports[0].ReportAmbiguous? then Failed(AmbiguousAt(token))
              else if FrontEstablished(untold) then Failed(EstablishedFailure(untold.failure.phase, TokenOr(token)))
              else untold;
    assert connector.ledger == FrontLedger.Apply(begun, OpOf(reports[0], id, exit, now));
    assert result == ChainedOutcome(answered).1;
  }

  /** Makes a report to the circuit, and returns the token that it answers with. */
  method Deliver(connector: Connector.Connector, attempt: Attempt, report: Report, ghost id: nat, exit: Address, now: Time)
    returns (token: Option<Token>)
    requires connector.Valid() && connector.Unresolved(id, attempt)
    modifies connector
    ensures connector.Valid() && connector.ledger == FrontLedger.Apply(old(connector.ledger), OpOf(report, id, exit, now))
    ensures report.ReportAmbiguous? ==> token == RecordAmbiguous(old(connector.View()), attempt, now).1
    ensures report.ReportSuccess? ==> token == RecordSuccess(old(connector.View()), attempt, exit, now).1
  {
    hide Exact, AllAmbiguous, NoneOf, RecordAmbiguous, RecordSuccess, RecordFailure, AbandonAttempt, FrontLedger.Apply;
    token := None;
    match report {
      case ReportFailure(phase) => connector.RecordFrontFailure(attempt, phase, now, id, exit);
      case ReportAmbiguous =>
        var t, current := connector.RecordFrontAmbiguous(attempt, now, id, exit);
        token := if current then Some(t) else None;
      case ReportSuccess =>
        var t, current := connector.RecordFrontSuccess(attempt, exit, now, id);
        token := if current then Some(t) else None;
      case ReportAbandon => connector.AbandonFrontAttempt(attempt, now, id);
    }
  }

  lemma NotAdmitted(t: Trip)
    requires t.attempt.None?
    ensures ChainedOutcome(t).1 == Failed(PhaseFailure(FrontCircuit))
  {
  }

  lemma BeginStarts(l: Ledger, others: seq<Attempt>, names: seq<nat>, id: nat, now: Time)
    requires Exact(l) && id !in l.open && Unresolved(l, others, names)
    ensures var after := FrontLedger.Apply(l, Begin(id, now));
            && after.history == l.history && Apart(after, others, names, id)
            && (id in after.open ==> after.open[id].startedSequence == |l.history|)
  {
  }

  /** The circuit's answers change only the tokens of the result. */
  lemma SameReports(planned: Trip, answered: Trip)
    requires PlausibleTrip(planned)
    requires answered == planned.(ambiguousToken := answered.ambiguousToken, successToken := answered.successToken)
    requires planned.attempt.Some? && planned.ambiguousToken.None? && planned.successToken.None?
    ensures ChainedOutcome(answered).0 == ChainedOutcome(planned).0
    ensures var (reports, untold) := ChainedOutcome(planned);
            ChainedOutcome(answered).1 ==
            if reports == [ReportAmbiguous] then Failed(AmbiguousAt(answered.ambiguousToken))
            else if FrontEstablished(untold) then Failed(EstablishedFailure(untold.failure.phase, TokenOr(answered.successToken)))
            else untold
  {
  }
}
