/**
 Ambiguous probes and what later successes say about them: which may be blamed on their exits, and
 when they together speak against the front.
 */
module Evidence {
  import opened Common
  import opened Addresses
  import opened Front
  import opened FrontLedger
  import opened FrontTheorems
  import opened FrontPath

  // A probe that failed ambiguously: the address on record for the proxy when the result was judged, the
  // address that was probed (which no decision reads), and the token, if any.
  datatype Probe = Probe(proxyId: ProxyId, address: Address, probed: Address, token: Token)

  /** What one probe's result proves about the front. */
  function EvidenceFor(c: Circuit, exit: Address, r: Result): Option<Front.Evidence> {
    if FrontEstablished(r) && r.failure.token.sequence != 0 then
      Some(Front.Evidence.Evidence(exit, r.failure.token.generation, r.failure.token.sequence, 0))
    else if r.Failed? then None
    else
      var recent := RecentEvidence(c);
      if recent.Some? && SameEndpoint(recent.value.exit, exit) then recent else None
  }

  /** The tokens in a probe's result are in the history, for the endpoint probed, since it began. */
  predicate Truthful(h: History, exit: Address, since: nat, r: Result) {
    && (AmbiguousFailureToken(r).Some? ==>
          && Issued(h, AmbiguousFailureToken(r).value, AmbiguousFailure)
          && h[AmbiguousFailureToken(r).value.sequence - 1].exit == exit
          && since < AmbiguousFailureToken(r).value.sequence)
    && (FrontEstablished(r) && r.failure.token.sequence != 0 ==>
          Witnessed(h, Front.Evidence.Evidence(exit, r.failure.token.generation, r.failure.token.sequence, 0)))
  }

  /** Evidence obtained this way is a success that the history holds. */
  lemma EvidenceIsWitnessed(l: Ledger, exit: Address, since: nat, r: Result)
    requires Exact(l) && Truthful(l.history, exit, since, r)
    ensures EvidenceFor(l.circuit, exit, r).Some? ==> Witnessed(l.history, EvidenceFor(l.circuit, exit, r).value)
  {
  }

  // ---- Blaming exits ----

  /** `e` shows that the front worked after the probe failed, through another endpoint. */
  predicate Validates(e: Front.Evidence, probe: Probe) {
    && probe.token.sequence != 0
    && e.generation == probe.token.generation
    && e.sequence > probe.token.sequence
    && !SameEndpoint(e.exit, probe.address)
  }

  function Unresolved(probes: seq<Probe>, e: Front.Evidence): (r: seq<Probe>)
    ensures forall p :: p in r <==> p in probes && !Validates(e, p)
  {
    if probes == [] then []
    else
      var front, last := Unresolved(probes[..|probes| - 1], e), probes[|probes| - 1];
      assert forall p :: p in probes <==> p in probes[..|probes| - 1] || p == last;
      if Validates(e, last) then front else front + [last]
  }

  function Validated(probes: seq<Probe>, e: Front.Evidence): (r: seq<Probe>)
    ensures forall p :: p in r <==> p in probes && Validates(e, p)
  {
    if probes == [] then []
    else
      var front, last := Validated(probes[..|probes| - 1], e), probes[|probes| - 1];
      assert forall p :: p in probes <==> p in probes[..|probes| - 1] || p == last;
      if Validates(e, last) then front + [last] else front
  }

  method PartitionByEvidence(probes: seq<Probe>, e: Front.Evidence) returns (unresolved: seq<Probe>, validated: seq<Probe>)
    ensures unresolved == Unresolved(probes, e) && validated == Validated(probes, e)
  {
    unresolved, validated := [], [];
    var i := 0;
    while i < |probes|
      invariant 0 <= i <= |probes|
      invariant unresolved == Unresolved(probes[..i], e) && validated == Validated(probes[..i], e)
    {
      var probe := probes[i];
      assert probes[..i + 1][..i] == probes[..i];
      if probe.token.sequence == 0 || e.generation != probe.token.generation || e.sequence <= probe.token.sequence
         || SameEndpoint(e.exit, probe.address) {
        unresolved := unresolved + [probe];
      } else {
        validated := validated + [probe];
      }
      i := i + 1;
    }
    assert probes[..i] == probes;
  }

  /** The partition loses and invents nothing. */
  lemma {:induction false} PartitionKeepsAll(probes: seq<Probe>, e: Front.Evidence)
    ensures multiset(Unresolved(probes, e)) + multiset(Validated(probes, e)) == multiset(probes)
  {
    if probes != [] {
      var front, last := probes[..|probes| - 1], probes[|probes| - 1];
      PartitionKeepsAll(front, e);
      assert probes == front + [last];
    }
  }

  /** Later probes carry later tokens. */
  ghost predicate Increasing(probes: seq<Probe>) {
    probes == [] ||
    (&& Increasing(probes[..|probes| - 1])
     && forall p :: p in probes[..|probes| - 1] && probes[|probes| - 1].token.sequence != 0 ==>
          p.token.sequence < probes[|probes| - 1].token.sequence)
  }

  /** What stays unresolved stays in order. */
  lemma {:induction false} UnresolvedStaysIncreasing(probes: seq<Probe>, e: Front.Evidence)
    requires Increasing(probes)
    ensures Increasing(Unresolved(probes, e))
  {
    if probes != [] {
      var front, last := probes[..|probes| - 1], probes[|probes| - 1];
      UnresolvedStaysIncreasing(front, e);
      if !Validates(e, last) {
        var r := Unresolved(probes, e);
        assert r[..|r| - 1] == Unresolved(front, e) && r[|r| - 1] == last;
      }
    }
  }

  /** A later success of the token's generation, elsewhere than `address`, with no shared failure between. */
  predicate ExcusedAt(h: History, token: Token, address: Address, k: nat) {
    && 1 <= token.sequence <= k < |h|
    && h[k].kind == Established && h[k].generation == token.generation
    && !SameEndpoint(h[k].exit, address)
    && NoneOf(h, SharedFailure, token.sequence - 1, k)
  }

  /** The front is excused of the failure that `token` stands for. */
  ghost predicate Excused(h: History, token: Token, address: Address) {
    exists k: nat :: ExcusedAt(h, token, address, k)
  }

  /** Only failures that the history excuses the front of are ever blamed on an exit. */
  lemma ValidatedIsExcused(h: History, e: Front.Evidence, probe: Probe)
    requires Numbered(h) && Witnessed(h, e) && Issued(h, probe.token, AmbiguousFailure) && Validates(e, probe)
    ensures Excused(h, probe.token, probe.address)
  {
    SameGenerationNoShared(h, probe.token.sequence - 1, e.sequence - 1);
    assert ExcusedAt(h, probe.token, probe.address, e.sequence - 1);
  }

  lemma HistoryGrows(h: History, more: History, token: Token, kind: Kind, address: Address, e: Front.Evidence)
    requires h <= more
    ensures Issued(h, token, kind) ==> Issued(more, token, kind)
    ensures Witnessed(h, e) ==> Witnessed(more, e)
    ensures Excused(h, token, address) ==> Excused(more, token, address)
  {
    if k: nat :| ExcusedAt(h, token, address, k) {
      assert ExcusedAt(more, token, address, k);
    }
  }

  /** The address on record is the endpoint that was probed. */
  predicate Unedited(p: Probe) {
    p.address == p.probed || SameEndpoint(p.probed, p.address)
  }

  /**
   The code compares evidence with the address on record when the probe's result is judged, not with the
   one it probed. Everything that may validate the probe is through another endpoint than the probed one
   exactly if the record names that endpoint (or the probe has no token, or probed no endpoint at all).
   */
  lemma RecordedAddressMatters(p: Probe)
    ensures (forall e :: Validates(e, p) ==> !SameEndpoint(e.exit, p.probed))
            <==> p.token.sequence == 0 || SameEndpoint(p.probed, p.address) || !WellFormed(p.probed)
  {
    if p.token.sequence != 0 && !SameEndpoint(p.probed, p.address) && WellFormed(p.probed) {
      var e := Front.Evidence.Evidence(p.probed, p.token.generation, p.token.sequence + 1, 0);
      assert Validates(e, p) && SameEndpoint(e.exit, p.probed);
    }
    forall e | Validates(e, p) && SameEndpoint(p.probed, p.address) ensures !SameEndpoint(e.exit, p.probed) {
      SameEndpointIsPartialEquivalence(e.exit, p.probed, p.address);
    }
  }

  /** With an unedited record the excuse is a success through another endpoint than the probed one. */
  lemma UneditedRecordIsProbed(h: History, p: Probe)
    requires Excused(h, p.token, p.address) && Unedited(p)
    ensures Excused(h, p.token, p.probed)
  {
    var k: nat :| ExcusedAt(h, p.token, p.address, k);
    SameEndpointIsPartialEquivalence(h[k].exit, p.probed, p.address);
    assert ExcusedAt(h, p.token, p.probed, k);
  }

  // ---- Opening the circuit ----

  predicate Known(addresses: seq<Address>, address: Address) {
    exists i :: 0 <= i < |addresses| && SameEndpoint(addresses[i], address)
  }

  method IsKnown(addresses: seq<Address>, address: Address) returns (known: bool)
    ensures known == Known(addresses, address)
  {
    for i := 0 to |addresses|
      invariant forall j :: 0 <= j < i ==> !SameEndpoint(addresses[j], address)
    {
      if SameEndpoint(addresses[i], address) {
        return true;
      }
    }
    return false;
  }

  /** The first address of each endpoint among the probes that carry a token. */
  function Endpoints(probes: seq<Probe>): seq<Address> {
    if probes == [] then []
    else
      var front, last := Endpoints(probes[..|probes| - 1]), probes[|probes| - 1];
      if last.token.sequence == 0 || Known(front, last.address) then front else front + [last.address]
  }

  /**
   Every probe with an unedited record that is counted as a second witness beside `p` went to another
   endpoint than `p` did, exactly if the record of `p` names the endpoint that it probed (or `p` has no
   token, or probed no endpoint at all).
   */
  lemma CountedTwiceIffEdited(p: Probe)
    ensures (forall q :: WitnessPair(p, q) && Unedited(q) ==> !SameEndpoint(p.probed, q.probed))
            <==> p.token.sequence == 0 || SameEndpoint(p.probed, p.address) || !WellFormed(p.probed)
  {
    if p.token.sequence != 0 && !SameEndpoint(p.probed, p.address) && WellFormed(p.probed) {
      var q := Probe(p.proxyId + 1, p.probed, p.probed, p.token);
      SameEndpointIsPartialEquivalence(p.address, p.probed, p.address);
      assert WitnessPair(p, q) && Unedited(q) && SameEndpoint(p.probed, q.probed);
    }
    forall q | WitnessPair(p, q) && Unedited(q) && SameEndpoint(p.probed, p.address) ensures !SameEndpoint(p.probed, q.probed) {
      UneditedWitnessesDiffer(p, q);
    }
  }

  /** With unedited records two witnesses are two different probed endpoints. */
  lemma UneditedWitnessesDiffer(p: Probe, q: Probe)
    requires WitnessPair(p, q) && Unedited(p) && Unedited(q)
    ensures !SameEndpoint(p.probed, q.probed)
  {
    SameEndpointIsPartialEquivalence(p.address, p.probed, q.probed);
    SameEndpointIsPartialEquivalence(p.address, q.probed, q.address);
    SameEndpointIsPartialEquivalence(p.probed, p.address, q.probed);
  }

  method DistinctEndpoints(probes: seq<Probe>) returns (count: nat)
    ensures count == |Endpoints(probes)|
    ensures count >= 2 <==> TwoWitnesses(probes)
  {
    var addresses: seq<Address> := [];
    var i := 0;
    while i < |probes|
      invariant 0 <= i <= |probes|
      invariant addresses == Endpoints(probes[..i])
    {
      var probe := probes[i];
      assert probes[..i + 1][..i] == probes[..i];
      i := i + 1;
      if probe.token.sequence == 0 {
        continue;
      }
      var known := IsKnown(addresses, probe.address);
      if known {
        continue;
      }
      addresses := addresses + [probe.address];
    }
    assert probes[..i] == probes;
    TwoWitnessesCounted(probes);
    return |addresses|;
  }

  predicate WitnessPair(p: Probe, q: Probe) {
    p.token.sequence != 0 && q.token.sequence != 0 && !SameEndpoint(p.address, q.address)
  }

  /** Two probes with tokens failed ambiguously through different endpoints. */
  ghost predicate TwoWitnesses(probes: seq<Probe>) {
    exists i, j :: 0 <= i < j < |probes| && WitnessPair(probes[i], probes[j])
  }

  /** The endpoints are pairwise different, and every token's endpoint is among them. */
  lemma {:induction false} EndpointsCover(probes: seq<Probe>)
    ensures forall i, j :: 0 <= i < j < |Endpoints(probes)| ==> !SameEndpoint(Endpoints(probes)[i], Endpoints(probes)[j])
    ensures forall p :: p in probes && p.token.sequence != 0 ==>
              p.address in Endpoints(probes) || Known(Endpoints(probes), p.address)
    ensures forall a :: a in Endpoints(probes) ==> exists p :: p in probes && p.token.sequence != 0 && p.address == a
  {
    if probes != [] {
      var front, last := probes[..|probes| - 1], probes[|probes| - 1];
      EndpointsCover(front);
      assert forall p :: p in probes <==> p in front || p == last;
      var before, after := Endpoints(front), Endpoints(probes);
      forall p | p in probes && p.token.sequence != 0 ensures p.address in after || Known(after, p.address) {
        if p in front && Known(before, p.address) {
          var i :| 0 <= i < |before| && SameEndpoint(before[i], p.address);
          assert SameEndpoint(after[i], p.address);
        }
      }
      assert last in probes;
    }
  }

  lemma {:induction false} OneEndpointNoPair(probes: seq<Probe>)
    requires |Endpoints(probes)| <= 1
    ensures !TwoWitnesses(probes)
  {
    if probes != [] {
      var front, last := probes[..|probes| - 1], probes[|probes| - 1];
      OneEndpointNoPair(front);
      OneEndpoint(front);
      hide Endpoints;
      forall i, j | 0 <= i < j < |probes| ensures !WitnessPair(probes[i], probes[j]) {
        if j < |front| {
          assert !WitnessPair(front[i], front[j]);
        } else {
          LastJoins(probes, front[i]);
        }
      }
    }
  }

  lemma LastJoins(probes: seq<Probe>, p: Probe)
    requires probes != [] && |Endpoints(probes)| <= 1 && p in probes[..|probes| - 1]
    ensures !WitnessPair(p, probes[|probes| - 1])
  {
    OneEndpoint(probes[..|probes| - 1]);
  }

  lemma {:induction false} TwoEndpointsPair(probes: seq<Probe>)
    requires |Endpoints(probes)| >= 2
    ensures TwoWitnesses(probes)
  {
    var front := probes[..|probes| - 1];
    if |Endpoints(front)| >= 2 {
      TwoEndpointsPair(front);
      var i, j :| 0 <= i < j < |front| && WitnessPair(front[i], front[j]);
      assert WitnessPair(probes[i], probes[j]);
    } else {
      OneEndpoint(front);
      var i :| 0 <= i < |front| && front[i].token.sequence != 0 && front[i].address == Endpoints(front)[0];
      assert WitnessPair(probes[i], probes[|front|]);
    }
  }

  /** The count reaches two exactly if two probes with tokens went through different endpoints. */
  lemma TwoWitnessesCounted(probes: seq<Probe>)
    ensures |Endpoints(probes)| >= 2 <==> TwoWitnesses(probes)
  {
    if |Endpoints(probes)| >= 2 {
      TwoEndpointsPair(probes);
    } else {
      OneEndpointNoPair(probes);
    }
  }

  /** With a single endpoint, every token is its. */
  lemma OneEndpoint(probes: seq<Probe>)
    ensures |Endpoints(probes)| == 0 ==> forall p :: p in probes ==> p.token.sequence == 0
    ensures |Endpoints(probes)| == 1 ==>
              && (exists i :: 0 <= i < |probes| && probes[i].token.sequence != 0 && probes[i].address == Endpoints(probes)[0])
              && forall p :: p in probes && p.token.sequence != 0 ==>
                   p.address == Endpoints(probes)[0] || SameEndpoint(Endpoints(probes)[0], p.address)
  {
    EndpointsCover(probes);
    if |Endpoints(probes)| == 1 {
      assert Endpoints(probes)[0] in Endpoints(probes);
      var p :| p in probes && p.token.sequence != 0 && p.address == Endpoints(probes)[0];
    }
  }

  // The range of a batch in list order: its first token and its last.
  function Range(probes: seq<Probe>): (Token, Token) {
    if probes == [] then (NO_TOKEN, NO_TOKEN)
    else
      var (first, last) := Range(probes[..|probes| - 1]);
      var token := probes[|probes| - 1].token;
      if token.sequence == 0 then (first, last)
      else (if first.sequence == 0 then token else first, token)
  }

  method TokenRange(probes: seq<Probe>) returns (first: Token, last: Token, ok: bool)
    ensures (first, last) == Range(probes) && ok == (first.sequence != 0)
  {
    first, last := NO_TOKEN, NO_TOKEN;
    var i := 0;
    while i < |probes|
      invariant 0 <= i <= |probes|
      invariant (first, last) == Range(probes[..i])
      invariant first.sequence == 0 <==> last.sequence == 0
    {
      var token := probes[i].token;
      assert probes[..i + 1][..i] == probes[..i];
      i := i + 1;
      if token.sequence == 0 {
        continue;
      }
      if first.sequence == 0 {
        first := token;
      }
      last := token;
    }
    assert probes[..i] == probes;
    ok := first.sequence != 0 && last.sequence != 0;
  }

  /** In an increasing list the range spans every token, and its ends are tokens of the list. */
  lemma {:induction false} RangeSpans(probes: seq<Probe>)
    requires Increasing(probes)
    ensures var (first, last) := Range(probes);
            && (forall p :: p in probes && p.token.sequence != 0 ==> first.sequence <= p.token.sequence <= last.sequence)
            && (first.sequence != 0 ==> (exists p :: p in probes && p.token == first) && exists p :: p in probes && p.token == last)
            && (first.sequence == 0 ==> forall p :: p in probes ==> p.token.sequence == 0)
  {
    if probes != [] {
      var front, last := probes[..|probes| - 1], probes[|probes| - 1];
      RangeSpans(front);
      assert forall p :: p in probes <==> p in front || p == last;
    }
  }

  /** The history's entry for the probe's token is an ambiguous failure of the endpoint that was probed. */
  predicate Recorded(h: History, p: Probe) {
    Issued(h, p.token, AmbiguousFailure) && h[p.token.sequence - 1].exit == p.probed
  }

  /** Every token of the list is recorded. */
  ghost predicate Issuances(h: History, probes: seq<Probe>) {
    forall p :: p in probes && p.token.sequence != 0 ==> Recorded(h, p)
  }

  /** The probe's recorded failure lies within the end of the history. */
  predicate InSuffix(l: Ledger, from: nat, p: Probe) {
    from < p.token.sequence <= |l.history| && Recorded(l.history, p)
  }

  /** Two different endpoints failed within the end of the history, which holds nothing but ambiguous failures. */
  ghost predicate FrontSuspected(l: Ledger, probes: seq<Probe>) {
    exists from: nat, i, j ::
      && 0 <= i < j < |probes| && WitnessPair(probes[i], probes[j])
      && InSuffix(l, from, probes[i]) && InSuffix(l, from, probes[j])
      && SuffixAmbiguous(l, from)
  }

  /** `first` and `last` are issued tokens that enclose every token of the list. */
  ghost predicate Encloses(h: History, probes: seq<Probe>, first: Token, last: Token) {
    && Issued(h, first, AmbiguousFailure) && Issued(h, last, AmbiguousFailure)
    && forall p :: p in probes && p.token.sequence != 0 ==> first.sequence <= p.token.sequence <= last.sequence
  }

  /** The range of an increasing list encloses it. */
  lemma RangeEncloses(h: History, probes: seq<Probe>)
    requires Issuances(h, probes) && Increasing(probes) && TwoWitnesses(probes)
    ensures Encloses(h, probes, Range(probes).0, Range(probes).1)
  {
    RangeSpans(probes);
    var i, j :| 0 <= i < j < |probes| && WitnessPair(probes[i], probes[j]);
    assert probes[i] in probes;
  }

  /**
   The two-witness rule: a batch that is big enough to be tried and opens the circuit has two of its
   endpoints in the all-ambiguous end of the history.
   */
  lemma TwoWitnessRule(l: Ledger, probes: seq<Probe>, first: Token, last: Token)
    requires Summarises(l.circuit, l.history) && Numbered(l.history)
    requires Issuances(l.history, probes) && TwoWitnesses(probes) && Encloses(l.history, probes, first, last)
    requires BatchAccepted(l.circuit, first, last)
    ensures FrontSuspected(l, probes)
  {
    AcceptedMeansAllAmbiguous(l, first, last);
    var i, j :| 0 <= i < j < |probes| && WitnessPair(probes[i], probes[j]);
    assert probes[i] in probes && probes[j] in probes;
    assert InSuffix(l, first.sequence - 1, probes[i]) && InSuffix(l, first.sequence - 1, probes[j]);
  }

  /** The probe failed ambiguously, and the history excuses the front of it. */
  ghost predicate IsExcused(h: History, p: Probe) {
    p.token.sequence != 0 && Recorded(h, p) && Excused(h, p.token, p.address)
  }
}
