/** One round of health checks: from the collected results to verdicts and, perhaps, a front batch. */
module Health {
  import opened Common
  import opened Addresses
  import opened Front
  import opened FrontLedger
  import opened FrontTheorems
  import opened FrontPath
  import Evidence

  // What a worker brought back: the address it probed and how the probe ended.
  datatype Checked = Checked(proxyId: ProxyId, address: Address, result: Result)

  // A verdict that reaches the proxy's counters.
  datatype Verdict = Verdict(proxyId: ProxyId, passed: bool)

  predicate IsAmbiguous(r: Result) {
    FailureScopeOf(r) == AmbiguousScope
  }

  function AsProbe(c: Checked): Evidence.Probe {
    Evidence.Probe(c.proxyId, c.address, c.address, TokenOr(AmbiguousFailureToken(c.result)))
  }

  function AsProbes(results: seq<Checked>): (r: seq<Evidence.Probe>)
    ensures |r| == |results| && forall i :: 0 <= i < |results| ==> r[i] == AsProbe(results[i])
  {
    seq(|results|, i requires 0 <= i < |results| => AsProbe(results[i]))
  }

  predicate AnyAmbiguous(results: seq<Checked>) {
    exists i :: 0 <= i < |results| && IsAmbiguous(results[i].result)
  }

  // ---- Evidence ----

  function Proof(c: Checked): Option<Front.Evidence> {
    if FrontEstablished(c.result) && c.result.failure.token.sequence != 0
    then Some(Front.Evidence.Evidence(c.address, c.result.failure.token.generation, c.result.failure.token.sequence, 0))
    else None
  }

  /** The round's evidence: every method reply that a probe saw, then the newest one of all. */
  function KnownEvidence(results: seq<Checked>, recent: Option<Front.Evidence>): seq<Front.Evidence> {
    Proofs(results) + if recent.Some? then [recent.value] else []
  }

  function Proofs(results: seq<Checked>): (r: seq<Front.Evidence>)
    ensures forall e :: e in r <==> exists i :: 0 <= i < |results| && Proof(results[i]) == Some(e)
  {
    if results == [] then []
    else
      var front, last := results[..|results| - 1], results[|results| - 1];
      assert forall i :: 0 <= i < |results| ==> results[i] == (if i < |front| then front[i] else last);
      if Proof(last).Some? then Proofs(front) + [Proof(last).value] else Proofs(front)
  }

  method CollectEvidence(results: seq<Checked>, recent: Option<Front.Evidence>) returns (known: seq<Front.Evidence>)
    ensures known == KnownEvidence(results, recent)
  {
    known := [];
    for i := 0 to |results|
      invariant known == Proofs(results[..i])
    {
      assert results[..i + 1][..i] == results[..i];
      if FrontEstablished(results[i].result) && results[i].result.failure.token.sequence != 0 {
        var token := results[i].result.failure.token;
        known := known + [Front.Evidence.Evidence(results[i].address, token.generation, token.sequence, 0)];
      }
    }
    assert results[..|results|] == results;
    if recent.Some? {
      known := known + [recent.value];
    }
  }

  /** The front is excused of this result's ambiguous failure by some evidence of the round. */
  predicate Cleared(known: seq<Front.Evidence>, c: Checked) {
    IsAmbiguous(c.result) && exists e :: e in known && Evidence.Validates(e, AsProbe(c))
  }

  method IsCleared(known: seq<Front.Evidence>, c: Checked) returns (cleared: bool)
    ensures cleared == Cleared(known, c)
  {
    if !IsAmbiguous(c.result) {
      return false;
    }
    var token := AmbiguousFailureToken(c.result);
    if token.None? {
      return false;
    }
    for i := 0 to |known|
      invariant forall j :: 0 <= j < i ==> !Evidence.Validates(known[j], AsProbe(c))
    {
      if known[i].generation == token.value.generation && known[i].sequence > token.value.sequence
         && !SameEndpoint(c.address, known[i].exit) {
        SameEndpointIsPartialEquivalence(c.address, known[i].exit, c.address);
        assert known[i] in known && Evidence.Validates(known[i], AsProbe(c));
        return true;
      }
      SameEndpointIsPartialEquivalence(c.address, known[i].exit, c.address);
    }
    return false;
  }

  // ---- Verdicts ----

  /**
   What the round decides about one result: successes always count; an ambiguous failure counts only
   if cleared; an established one always; any other only if the round had no ambiguous failure.
   */
  function Decision(known: seq<Front.Evidence>, anyAmbiguous: bool, c: Checked): Option<Verdict> {
    if c.result.Success? then Some(Verdict(c.proxyId, true))
    else if IsAmbiguous(c.result) then (if Cleared(known, c) then Some(Verdict(c.proxyId, false)) else None)
    else if FailureScopeOf(c.result) == SharedScope || (anyAmbiguous && !FrontEstablished(c.result)) then None
    else Some(Verdict(c.proxyId, false))
  }

  function Decisions(known: seq<Front.Evidence>, anyAmbiguous: bool, results: seq<Checked>): seq<Verdict> {
    if results == [] then []
    else
      var front := Decisions(known, anyAmbiguous, results[..|results| - 1]);
      var last := Decision(known, anyAmbiguous, results[|results| - 1]);
      if last.Some? then front + [last.value] else front
  }

  /** The filter of the recording step: a front failure never reaches the counters. */
  method Record(proxyId: ProxyId, r: Result, verdicts: seq<Verdict>) returns (more: seq<Verdict>)
    ensures more == if IsFrontFailure(r) then verdicts else verdicts + [Verdict(proxyId, r.Success?)]
  {
    if r.Failed? && IsFrontFailure(r) {
      return verdicts;
    }
    return verdicts + [Verdict(proxyId, r.Success?)];
  }

  /** The failures a batch must enclose: every result of the round is an ambiguous one with a token. */
  predicate AllConfused(results: seq<Checked>, generation: nat) {
    forall i :: 0 <= i < |results| ==>
      AmbiguousFailureToken(results[i].result).Some? && AmbiguousFailureToken(results[i].result).value.generation == generation
  }

  predicate TokenOf(results: seq<Checked>, i: nat, t: Token) {
    i < |results| && AmbiguousFailureToken(results[i].result) == Some(t)
  }

  /** `first` and `last` are the least and the greatest token of the results. */
  ghost predicate Extremes(results: seq<Checked>, first: Token, last: Token) {
    && (exists i :: TokenOf(results, i, first))
    && (exists i :: TokenOf(results, i, last))
    && forall i, t :: TokenOf(results, i, t) ==> first.sequence <= t.sequence <= last.sequence
  }

  /** The running least and greatest token of one generation, or that the round is not all confused. */
  ghost predicate Scanned(results: seq<Checked>, all: bool, first: Token, last: Token) {
    && (all ==> AllConfused(results, first.generation))
    && (!all ==> forall generation :: !AllConfused(results, generation))
    && (all && results != [] ==> first.sequence != 0 && last.sequence != 0 && Extremes(results, first, last))
    && (all && results == [] ==> first == NO_TOKEN)
  }

  lemma ScannedNext(results: seq<Checked>, c: Checked, all: bool, first: Token, last: Token, allNow: bool, firstNow: Token, lastNow: Token)
    requires Scanned(results, all, first, last)
    requires var token := AmbiguousFailureToken(c.result);
             if !all || token.None? then !allNow
             else if first.sequence == 0 then allNow && firstNow == token.value && lastNow == token.value
             else if token.value.generation != first.generation then !allNow
             else && allNow && firstNow == (if token.value.sequence < first.sequence then token.value else first)
                  && lastNow == if token.value.sequence > last.sequence then token.value else last
    ensures Scanned(results + [c], allNow, firstNow, lastNow)
  {
    var more, token := results + [c], AmbiguousFailureToken(c.result);
    if !allNow {
      forall generation ensures !AllConfused(more, generation) {
        if AllConfused(more, generation) {
          assert more[|results|] == c;
          assert results != [] ==> more[0] == results[0];
          assert forall i :: 0 <= i < |results| ==> more[i] == results[i];
          assert AllConfused(results, generation);
        }
      }
    } else {
      forall i: nat, t | TokenOf(more, i, t) ensures firstNow.sequence <= t.sequence <= lastNow.sequence {
        assert i < |results| ==> TokenOf(results, i, t);
      }
      ExtremesKept(results, c, first, last, firstNow, lastNow);
    }
  }

  lemma ExtremesKept(results: seq<Checked>, c: Checked, first: Token, last: Token, firstNow: Token, lastNow: Token)
    requires results != [] ==> (exists i :: TokenOf(results, i, first)) && exists i :: TokenOf(results, i, last)
    requires AmbiguousFailureToken(c.result).Some?
    requires firstNow == AmbiguousFailureToken(c.result).value || (results != [] && firstNow == first)
    requires lastNow == AmbiguousFailureToken(c.result).value || (results != [] && lastNow == last)
    ensures exists i :: TokenOf(results + [c], i, firstNow)
    ensures exists i :: TokenOf(results + [c], i, lastNow)
  {
    assert TokenOf(results + [c], |results|, AmbiguousFailureToken(c.result).value);
    if results != [] {
      var i: nat :| TokenOf(results, i, first);
      var j: nat :| TokenOf(results, j, last);
      assert TokenOf(results + [c], i, first) && TokenOf(results + [c], j, last);
    }
  }

  /** The batch that the round puts to the circuit, if any. */
  method FindBatch(results: seq<Checked>, skipped: bool) returns (batch: Option<(Token, Token)>)
    requires AnyAmbiguous(results)
    ensures batch.Some? <==>
              !skipped && (exists generation :: AllConfused(results, generation)) && Evidence.TwoWitnesses(AsProbes(results))
    ensures batch.Some? ==> Extremes(results, batch.value.0, batch.value.1)
  {
    hide AmbiguousFailureToken, Extremes, Evidence.Endpoints;
    var all := true;
    var addresses: seq<Address> := [];
    var first, last := NO_TOKEN, NO_TOKEN;
    assert results[..0] == [];
    NoEndpoints();
    var i := 0;
    while i < |results|
      invariant 0 <= i <= |results|
      invariant Scanned(results[..i], all, first, last)
      invariant addresses == Evidence.Endpoints(AsProbes(results[..i]))
    {
      var c := results[i];
      assert results[..i + 1] == results[..i] + [c];
      ghost var before := (all, first, last);
      NextEndpoint(results, i);
      i := i + 1;
      TokenImpliesAmbiguous(c.result);
      if !IsAmbiguous(c.result) || AmbiguousFailureToken(c.result).None? {
        all := false;
        ScannedNext(results[..i - 1], c, before.0, before.1, before.2, all, first, last);
        continue;
      }
      var token := AmbiguousFailureToken(c.result).value;
      var known := Evidence.IsKnown(addresses, c.address);
      if !known {
        addresses := addresses + [c.address];
      }
      if first.sequence == 0 {
        first, last := token, token;
        ScannedNext(results[..i - 1], c, before.0, before.1, before.2, all, first, last);
        continue;
      }
      if token.generation != first.generation {
        all := false;
        ScannedNext(results[..i - 1], c, before.0, before.1, before.2, all, first, last);
        continue;
      }
      if token.sequence < first.sequence {
        first := token;
      }
      if token.sequence > last.sequence {
        last := token;
      }
      ScannedNext(results[..i - 1], c, before.0, before.1, before.2, all, first, last);
    }
    assert results[..i] == results;
    Evidence.TwoWitnessesCounted(AsProbes(results));
    if !skipped && all && |addresses| >= 2 && first.sequence != 0 && last.sequence != 0 {
      return Some((first, last));
    }
    return None;
  }

  lemma TokenImpliesAmbiguous(r: Result)
    ensures AmbiguousFailureToken(r).Some? ==> IsAmbiguous(r) && AmbiguousFailureToken(r).value.sequence != 0
  {
  }

  lemma NoEndpoints()
    ensures Evidence.Endpoints(AsProbes([])) == []
  {
  }

  lemma NextEndpoint(results: seq<Checked>, i: nat)
    requires i < |results|
    ensures var (before, c) := (Evidence.Endpoints(AsProbes(results[..i])), results[i]);
            Evidence.Endpoints(AsProbes(results[..i + 1])) ==
            if AmbiguousFailureToken(c.result).None? || Evidence.Known(before, c.address) then before else before + [c.address]
  {
    var probes := AsProbes(results[..i + 1]);
    assert probes[..|probes| - 1] == AsProbes(results[..i]);
  }

  // ---- The round ----

  /** Which results are cleared, whether any is, and whether the round has an ambiguous failure. */
  method AnyCleared(known: seq<Front.Evidence>, results: seq<Checked>) returns (cleared: seq<bool>, some: bool, ambiguous: bool)
    ensures |cleared| == |results| && forall i :: 0 <= i < |results| ==> cleared[i] == Cleared(known, results[i])
    ensures some <==> exists i :: 0 <= i < |results| && Cleared(known, results[i])
    ensures ambiguous == AnyAmbiguous(results)
  {
    cleared, some, ambiguous := [], false, false;
    for i := 0 to |results|
      invariant |cleared| == i && forall j :: 0 <= j < i ==> cleared[j] == Cleared(known, results[j])
      invariant some <==> exists j :: 0 <= j < i && Cleared(known, results[j])
      invariant ambiguous <==> exists j :: 0 <= j < i && IsAmbiguous(results[j].result)
    {
      var one := IsCleared(known, results[i]);
      cleared := cleared + [one];
      some := some || one;
      ambiguous := ambiguous || IsAmbiguous(results[i].result);
    }
  }

  /** Ends a round that was neither cancelled nor stopped by a shared failure. */
  method CheckRound(results: seq<Checked>, skipped: bool, recent: Option<Front.Evidence>)
    returns (verdicts: seq<Verdict>, batch: Option<(Token, Token)>)
    ensures verdicts == Decisions(KnownEvidence(results, recent), AnyAmbiguous(results), results)
    ensures batch.Some? <==>
              && !skipped && (exists generation :: AllConfused(results, generation)) && Evidence.TwoWitnesses(AsProbes(results))
              && forall i :: 0 <= i < |results| ==> !Cleared(KnownEvidence(results, recent), results[i])
    ensures batch.Some? ==> Extremes(results, batch.value.0, batch.value.1)
  {
    hide Extremes, AllConfused, Evidence.TwoWitnesses, KnownEvidence, Cleared;
    var known := CollectEvidence(results, recent);
    var cleared, some, ambiguous := AnyCleared(known, results);
    verdicts, batch := [], None;
    var i := 0;
    if ambiguous && some {
      while i < |results|
        invariant 0 <= i <= |results|
        invariant verdicts == Decisions(known, ambiguous, results[..i])
      {
        var c := results[i];
        assert results[..i + 1][..i] == results[..i];
        i := i + 1;
        assert cleared[i - 1] ==> IsAmbiguous(c.result) by { ClearedIsAmbiguous(known, c); }
        var result := c.result;
        if IsAmbiguous(result) {
          if !cleared[i - 1] {
            continue;
          }
          result := Failed(ConfirmedExitFailure(result.failure));
        }
        if result.Success? || FrontEstablished(result) || cleared[i - 1] {
          verdicts := Record(c.proxyId, result, verdicts);
        }
      }
      assert results[..i] == results;
      return;
    }
    if ambiguous {
      batch := FindBatch(results, skipped);
      while i < |results|
        invariant 0 <= i <= |results|
        invariant verdicts == Decisions(known, ambiguous, results[..i])
      {
        var c := results[i];
        assert results[..i + 1][..i] == results[..i];
        assert !Cleared(known, c);
        if c.result.Success? || FrontEstablished(c.result) {
          verdicts := Record(c.proxyId, c.result, verdicts);
        }
        i := i + 1;
      }
      assert results[..i] == results;
      return;
    }
    NoBatchWithoutAmbiguity(results);
    while i < |results|
      invariant 0 <= i <= |results|
      invariant verdicts == Decisions(known, ambiguous, results[..i])
    {
      assert results[..i + 1][..i] == results[..i];
      assert !IsAmbiguous(results[i].result);
      verdicts := Record(results[i].proxyId, results[i].result, verdicts);
      i := i + 1;
    }
    assert results[..i] == results;
  }

  lemma ClearedIsAmbiguous(known: seq<Front.Evidence>, c: Checked)
    ensures Cleared(known, c) ==> IsAmbiguous(c.result)
  {
  }

  lemma NoBatchWithoutAmbiguity(results: seq<Checked>)
    requires !AnyAmbiguous(results)
    ensures !Evidence.TwoWitnesses(AsProbes(results))
  {
    assert forall i :: 0 <= i < |results| ==> AsProbes(results)[i].token.sequence == 0;
  }

  // ---- What a round may do ----

  /** Every result's tokens are in the history, for the address that was probed. */
  ghost predicate Honest(h: History, results: seq<Checked>) {
    forall i :: 0 <= i < |results| ==> Evidence.Truthful(h, results[i].address, 0, results[i].result)
  }

  /**
   A round fails a proxy only if its own probe failed beyond the front, or failed ambiguously and the
   history excuses the front of it.
   */
  lemma RoundBlamesFairly(l: Ledger, results: seq<Checked>, recent: Option<Front.Evidence>, i: nat)
    requires Numbered(l.history) && Honest(l.history, results) && i < |results|
    requires recent.Some? ==> Witnessed(l.history, recent.value)
    requires Decision(KnownEvidence(results, recent), AnyAmbiguous(results), results[i]) == Some(Verdict(results[i].proxyId, false))
    ensures var r := results[i].result;
            && r.Failed?
            && (|| FailureScopeOf(r) == ExitScope || FailureScopeOf(r) == UnknownScope
                || Evidence.IsExcused(l.history, AsProbe(results[i])))
  {
    if IsAmbiguous(results[i].result) {
      var e :| e in KnownEvidence(results, recent) && Evidence.Validates(e, AsProbe(results[i]));
      if recent != Some(e) {
        var j :| 0 <= j < |results| && Proof(results[j]) == Some(e);
        assert Evidence.Truthful(l.history, results[j].address, 0, results[j].result);
      }
      assert Evidence.Truthful(l.history, results[i].address, 0, results[i].result);
      Evidence.ValidatedIsExcused(l.history, e, AsProbe(results[i]));
    }
  }

  /** A round that opens the circuit has two different endpoints in the all-ambiguous end of the history. */
  lemma RoundHasTwoWitnesses(l: Ledger, results: seq<Checked>, first: Token, last: Token)
    requires Summarises(l.circuit, l.history) && Numbered(l.history) && Honest(l.history, results)
    requires Evidence.TwoWitnesses(AsProbes(results)) && Extremes(results, first, last)
    requires BatchAccepted(l.circuit, first, last)
    ensures Evidence.FrontSuspected(l, AsProbes(results))
  {
    hide Summarises, Numbered, BatchAccepted, Evidence.TwoWitnesses, Evidence.FrontSuspected;
    var probes := AsProbes(results);
    forall p | p in probes && p.token.sequence != 0
      ensures Evidence.Recorded(l.history, p) && first.sequence <= p.token.sequence <= last.sequence
    {
      var i :| 0 <= i < |probes| && probes[i] == p;
      assert Evidence.Truthful(l.history, results[i].address, 0, results[i].result);
      assert TokenOf(results, i, p.token);
    }
    var i: nat :| TokenOf(results, i, first);
    var j: nat :| TokenOf(results, j, last);
    assert Evidence.Truthful(l.history, results[i].address, 0, results[i].result);
    assert Evidence.Truthful(l.history, results[j].address, 0, results[j].result);
    Evidence.TwoWitnessRule(l, probes, first, last);
  }

  /** The endpoints that a health round compares are the ones it probed. */
  lemma RoundComparesProbedEndpoints(l: Ledger, results: seq<Checked>, i: nat)
    requires Honest(l.history, results) && i < |results| && AsProbe(results[i]).token.sequence != 0
    ensures l.history[AsProbe(results[i]).token.sequence - 1].exit == AsProbe(results[i]).address
  {
    assert Evidence.Truthful(l.history, results[i].address, 0, results[i].result);
  }
}
