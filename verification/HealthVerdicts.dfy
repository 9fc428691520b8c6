/**
 What a health round tells the counters, result by result: successes pass, failures that are the exit's
 own fail, and failures that may be the front's say nothing.
 */
module HealthVerdicts {
  import opened Common
  import opened Addresses
  import opened Front
  import opened FrontLedger
  import opened FrontTheorems
  import opened FrontPath
  import Evidence
  import opened Health

  /** Some evidence of the round is newer than the ambiguous failure, of its generation, and through another endpoint. */
  predicate FrontWorkedSince(known: seq<Front.Evidence>, c: Checked) {
    && IsAmbiguous(c.result)
    && exists e :: e in known && var t := TokenOr(AmbiguousFailureToken(c.result));
                   && t.sequence != 0 && e.generation == t.generation && t.sequence < e.sequence
                   && !SameEndpoint(e.exit, c.address)
  }

  /**
   The failure is the exit's own: an ambiguous one although the front worked since, or one that is not the
   front's and comes from an exit that had answered, or from a round that leaves no doubt about the front.
   */
  predicate ExitsOwn(known: seq<Front.Evidence>, results: seq<Checked>, c: Checked) {
    && c.result.Failed?
    && if IsAmbiguous(c.result) then FrontWorkedSince(known, c)
       else FailureScopeOf(c.result) != SharedScope
            && (FrontEstablished(c.result) || forall i :: 0 <= i < |results| ==> !IsAmbiguous(results[i].result))
  }

  /** The evidence of a round: every exit that answered a probe of it, and the connector's newest success. */
  lemma KnownMeaning(results: seq<Checked>, recent: Option<Front.Evidence>, e: Front.Evidence)
    ensures e in KnownEvidence(results, recent) <==>
              || recent == Some(e)
              || exists i :: 0 <= i < |results| && FrontEstablished(results[i].result) && results[i].result.failure.token.sequence != 0
                             && e.exit == results[i].address && e.at == 0
                             && Token(e.generation, e.sequence) == results[i].result.failure.token
  {
    if e in Proofs(results) {
      var i :| 0 <= i < |results| && Proof(results[i]) == Some(e);
      assert FrontEstablished(results[i].result);
    }
    if i :| 0 <= i < |results| && FrontEstablished(results[i].result) && results[i].result.failure.token.sequence != 0
            && e.exit == results[i].address && e.at == 0 && Token(e.generation, e.sequence) == results[i].result.failure.token {
      assert Proof(results[i]) == Some(e);
    }
  }

  /** Exactly the successes yield a passing verdict, exactly the exits' own failures a failing one, the rest none. */
  lemma DecisionMeaning(known: seq<Front.Evidence>, results: seq<Checked>, c: Checked)
    ensures var d := Decision(known, AnyAmbiguous(results), c);
            && (d == Some(Verdict(c.proxyId, true)) <==> c.result.Success?)
            && (d == Some(Verdict(c.proxyId, false)) <==> ExitsOwn(known, results, c))
            && (d.None? <==> c.result.Failed? && !ExitsOwn(known, results, c))
  {
    assert Cleared(known, c) <==> FrontWorkedSince(known, c);
  }

  /** The positions of the results that satisfy `f`. */
  function Where(results: seq<Checked>, f: Checked -> bool): set<nat> {
    set i: nat | 0 <= i < |results| && f(results[i])
  }

  lemma OneMoreWhere(front: seq<Checked>, c: Checked, f: Checked -> bool)
    ensures |Where(front + [c], f)| == |Where(front, f)| + if f(c) then 1 else 0
  {
    var n: nat, more := |front|, front + [c];
    assert forall i: nat :: i < n ==> more[i] == front[i];
    if f(c) {
      assert Where(more, f) == Where(front, f) + {n};
    } else {
      assert Where(more, f) == Where(front, f);
    }
  }

  /** The results for `id` that pass, and those that are held against it. */
  function Passing(results: seq<Checked>, id: ProxyId): set<nat> {
    Where(results, (c: Checked) => c.proxyId == id && c.result.Success?)
  }

  function Failing(known: seq<Front.Evidence>, round: seq<Checked>, results: seq<Checked>, id: ProxyId): set<nat> {
    Where(results, (c: Checked) => c.proxyId == id && ExitsOwn(known, round, c))
  }

  lemma OneMoreResult(known: seq<Front.Evidence>, round: seq<Checked>, front: seq<Checked>, c: Checked, id: ProxyId)
    ensures |Passing(front + [c], id)| == |Passing(front, id)| + if c.proxyId == id && c.result.Success? then 1 else 0
    ensures |Failing(known, round, front + [c], id)|
         == |Failing(known, round, front, id)| + if c.proxyId == id && ExitsOwn(known, round, c) then 1 else 0
  {
    hide ExitsOwn, Where;
    OneMoreWhere(front, c, (c: Checked) => c.proxyId == id && c.result.Success?);
    OneMoreWhere(front, c, (c: Checked) => c.proxyId == id && ExitsOwn(known, round, c));
  }

  /**
   The round passes a proxy as often as a probe of it succeeded, and fails it as often as a probe of it
   failed by the exit's own fault.
   */
  lemma {:induction false} VerdictsAreCounted(known: seq<Front.Evidence>, round: seq<Checked>, results: seq<Checked>, id: ProxyId)
    ensures var verdicts := Decisions(known, AnyAmbiguous(round), results);
            && multiset(verdicts)[Verdict(id, true)] == |Passing(results, id)|
            && multiset(verdicts)[Verdict(id, false)] == |Failing(known, round, results, id)|
  {
    hide ExitsOwn, Decision, AnyAmbiguous, Passing, Failing;
    if results == [] {
      NoResults(known, round, id);
    } else {
      var front, c := results[..|results| - 1], results[|results| - 1];
      VerdictsAreCounted(known, round, front, id);
      DecisionMeaning(known, round, c);
      assert results == front + [c];
      OneMoreResult(known, round, front, c, id);
    }
  }

  lemma NoResults(known: seq<Front.Evidence>, round: seq<Checked>, id: ProxyId)
    ensures Passing([], id) == {} && Failing(known, round, [], id) == {}
  {
  }

  /** The verdicts come in the order of the results. */
  lemma {:induction false} VerdictsInOrder(known: seq<Front.Evidence>, anyAmbiguous: bool, results: seq<Checked>, more: seq<Checked>)
    ensures Decisions(known, anyAmbiguous, results) <= Decisions(known, anyAmbiguous, results + more)
  {
    hide Decision;
    if more == [] {
      assert results + more == results;
    } else {
      VerdictsInOrder(known, anyAmbiguous, results, more[..|more| - 1]);
      assert (results + more)[..|results + more| - 1] == results + more[..|more| - 1];
    }
  }

  /** A healthy exit is never failed: if every probe of it succeeded, all it gets are as many passing verdicts. */
  lemma HealthyExitsPass(known: seq<Front.Evidence>, results: seq<Checked>, id: ProxyId)
    requires forall i :: 0 <= i < |results| && results[i].proxyId == id ==> results[i].result.Success?
    ensures var verdicts := Decisions(known, AnyAmbiguous(results), results);
            && Verdict(id, false) !in verdicts
            && multiset(verdicts)[Verdict(id, true)] == |set i: nat | 0 <= i < |results| && results[i].proxyId == id|
  {
    VerdictsAreCounted(known, results, results, id);
    hide Decisions;
    assert Failing(known, results, results, id) == {};
    assert Passing(results, id) == set i: nat | 0 <= i < |results| && results[i].proxyId == id;
  }

  /**
   Putting the round's batch to the circuit opens it exactly if the failure with the greatest token is the
   newest resolution, and everything since the one with the least is ambiguous.
   */
  lemma RoundOpensIffSuspected(l: Ledger, results: seq<Checked>, first: Token, last: Token, now: Time)
    requires Exact(l) && l.circuit.enabled && Honest(l.history, results) && Extremes(results, first, last)
    ensures Apply(l, Batch(first, last, now)).circuit.generation > l.circuit.generation
            <==> && (exists i: nat, t :: TokenOf(results, i, t) && t.sequence == |l.history|)
                 && forall i: nat, t :: TokenOf(results, i, t) && t.sequence != 0 ==> SuffixAmbiguous(l, t.sequence - 1)
  {
    hide Exact, SuffixAmbiguous, AmbiguousFailureToken;
    forall i: nat, t | TokenOf(results, i, t) ensures Issued(l.history, t, AmbiguousFailure) {
      assert Evidence.Truthful(l.history, results[i].address, 0, results[i].result);
    }
    BatchDecisionExact(l, first, last, now);
    SuffixShrinks(l, first, last);
  }

  lemma SuffixShrinks(l: Ledger, first: Token, last: Token)
    ensures forall t: Token :: SuffixAmbiguous(l, first.sequence) && first.sequence <= t.sequence ==> SuffixAmbiguous(l, t.sequence)
    ensures forall t: Token :: 1 <= first.sequence && SuffixAmbiguous(l, first.sequence - 1) && first.sequence <= t.sequence ==>
              SuffixAmbiguous(l, t.sequence - 1)
  {
  }
}
