/**
 The sweep of lapsed leases. It collects clients first and releases them later, without looking again.
 What a release then ends is a lapsed lease exactly if the client was given no other lease meanwhile
 that still runs.
 */
module PoolSweep {
  import opened Common
  import opened Addresses
  import opened Pool
  import opened PoolRuns

  // ---- What one step does to a client's lease ----

  /** The lease that the step gives to `c`, if its guard lets it take effect. */
  ghost function Installed(s: State, step: Step, c: Client): Option<Lease> {
    match step
    case Grant(id, d, _, expires) =>
      if d == c && CheckedFor(s, id, c) && !s.proxies[id].disabled then Some(Lease(id, expires)) else None
    case GrantDynamic(d, id, address, expires) =>
      if d == c && !AddressTaken(s, address) && id !in s.proxies then Some(Lease(id, expires)) else None
    case _ => None
  }

  /** The step takes the lease of `c` away: a release, or a reservation that first sweeps a lapsed lease. */
  predicate Removes(s: State, e: Event, c: Client) {
    || e.step == Release(c)
    || (e.step.ReserveFor? && e.step.c == c && Expired(s.leases, e.now, c))
  }

  ghost predicate LeaseStands(s: State, e: Event, c: Client) {
    Installed(s, e.step, c).None? && !Removes(s, e, c)
  }

  lemma GrantLease(s: State, step: Step, now: Time, c: Client)
    requires step.Grant? || step.GrantDynamic?
    ensures LeaseOf(Apply(s, step, now), c) == if Installed(s, step, c).Some? then Installed(s, step, c) else LeaseOf(s, c)
  {
    hide HasLive, Without, Sorted, AddressTaken;
  }

  lemma ReserveLease(s: State, e: Event, c: Client)
    requires e.step.ReserveFor? || e.step.Release?
    ensures LeaseOf(Apply(s, e.step, e.now), c) == if Removes(s, e, c) then None else LeaseOf(s, c)
  {
    hide HasLive, Keep, Without, FirstEligible, Unbound, Purgeable;
  }

  lemma OtherLease(s: State, step: Step, now: Time, c: Client)
    requires !step.Grant? && !step.GrantDynamic? && !step.ReserveFor? && !step.Release?
    ensures LeaseOf(Apply(s, step, now), c) == LeaseOf(s, c)
  {
    hide HasLive, Without, Sorted, FirstEligible, Recovered;
  }

  lemma StepLease(s: State, e: Event, c: Client)
    ensures LeaseOf(Apply(s, e.step, e.now), c) ==
            if Removes(s, e, c) then None else if Installed(s, e.step, c).Some? then Installed(s, e.step, c) else LeaseOf(s, c)
  {
    hide Apply, Expired, AddressTaken, CheckedFor;
    if e.step.Grant? || e.step.GrantDynamic? {
      GrantLease(s, e.step, e.now, c);
    } else if e.step.ReserveFor? || e.step.Release? {
      ReserveLease(s, e, c);
    } else {
      OtherLease(s, e.step, e.now, c);
    }
  }

  // ---- Whole runs ----

  lemma {:induction false} RunSplits(s: State, events: seq<Event>, more: seq<Event>)
    ensures Run(s, events + more) == Run(Run(s, events), more)
    decreases |events|
  {
    hide Apply;
    if events == [] {
      assert events + more == more;
    } else {
      assert (events + more)[1..] == events[1..] + more;
      RunSplits(Apply(s, events[0].step, events[0].now), events[1..], more);
    }
  }

  lemma RunLast(s: State, events: seq<Event>)
    requires events != []
    ensures var front, e := events[..|events| - 1], events[|events| - 1];
            Run(s, events) == Apply(Run(s, front), e.step, e.now)
  {
    hide Apply;
    var front, e := events[..|events| - 1], events[|events| - 1];
    assert events == front + [e];
    RunSplits(s, front, [e]);
    assert [e][1..] == [];
  }

  /** Event `i` gives `c` a lease until `later` or longer, and no later event takes or replaces it. */
  ghost predicate RenewedAt(s: State, events: seq<Event>, c: Client, later: Time, i: nat) {
    && i < |events|
    && var l := Installed(Run(s, events[..i]), events[i].step, c);
       && l.Some? && later <= l.value.expiresAt
       && forall j :: i < j < |events| ==> LeaseStands(Run(s, events[..j]), events[j], c)
  }

  ghost predicate Renewed(s: State, events: seq<Event>, c: Client, later: Time) {
    exists i: nat :: RenewedAt(s, events, c, later, i)
  }

  lemma RenewedBefore(s: State, events: seq<Event>, c: Client, later: Time)
    requires events != []
    requires LeaseStands(Run(s, events[..|events| - 1]), events[|events| - 1], c)
    ensures Renewed(s, events, c, later) <==> Renewed(s, events[..|events| - 1], c, later)
  {
    hide Run, LeaseStands, Installed;
    var front := events[..|events| - 1];
    assert forall j :: 0 <= j <= |front| ==> events[..j] == front[..j];
    if Renewed(s, events, c, later) {
      var i: nat :| RenewedAt(s, events, c, later, i);
      NotInstalled(s, events, c);
      assert RenewedAt(s, front, c, later, i);
    }
    if Renewed(s, front, c, later) {
      var i: nat :| RenewedAt(s, front, c, later, i);
      assert RenewedAt(s, events, c, later, i);
    }
  }

  lemma NotInstalled(s: State, events: seq<Event>, c: Client)
    requires events != [] && LeaseStands(Run(s, events[..|events| - 1]), events[|events| - 1], c)
    ensures Installed(Run(s, events[..|events| - 1]), events[|events| - 1].step, c).None?
  {
  }

  /** The last event decides, if it gives or takes the client's lease. */
  lemma RenewedLast(s: State, events: seq<Event>, c: Client, later: Time)
    requires events != []
    requires !LeaseStands(Run(s, events[..|events| - 1]), events[|events| - 1], c)
    ensures var l := Installed(Run(s, events[..|events| - 1]), events[|events| - 1].step, c);
            Renewed(s, events, c, later) <==> l.Some? && later <= l.value.expiresAt
  {
    hide Run, LeaseStands, Installed;
    var last := |events| - 1;
    if Renewed(s, events, c, later) {
      var i: nat :| RenewedAt(s, events, c, later, i);
      assert i == last;
    }
    var l := Installed(Run(s, events[..last]), events[last].step, c);
    if l.Some? && later <= l.value.expiresAt {
      assert RenewedAt(s, events, c, later, last);
    }
  }

  /**
   A client whose lease has lapsed at `at` is released at `later`, after any events in between. The lease
   that it then has is lapsed, or it has none, exactly if none of these events gave it a lease that still
   runs and stands.
   */
  lemma {:induction false} SweepEndsOnlyLapsed(s: State, c: Client, at: Time, between: seq<Event>, later: Time)
    requires Expired(s.leases, at, c) && at <= later
    ensures var t := Run(s, between);
            && Apply(t, Release(c), later).leases == t.leases - {c}
            && ((c in t.leases ==> Expired(t.leases, later, c)) <==> !Renewed(s, between, c, later))
    decreases |between|
  {
    hide Run, Renewed, Apply, LeaseStands, Installed, Removes;
    ReleaseEnds(Run(s, between), c, later);
    if between == [] {
      NothingRenews(s, c, later);
    } else {
      var front, e := between[..|between| - 1], between[|between| - 1];
      SweepEndsOnlyLapsed(s, c, at, front, later);
      RunLast(s, between);
      StepLease(Run(s, front), e, c);
      StandsOrNot(Run(s, front), e, c);
      if LeaseStands(Run(s, front), e, c) {
        RenewedBefore(s, between, c, later);
      } else {
        RenewedLast(s, between, c, later);
      }
    }
  }

  lemma StandsOrNot(s: State, e: Event, c: Client)
    ensures LeaseStands(s, e, c) <==> Installed(s, e.step, c).None? && !Removes(s, e, c)
    ensures !(Installed(s, e.step, c).Some? && Removes(s, e, c))
  {
  }

  lemma NothingRenews(s: State, c: Client, later: Time)
    ensures Run(s, []) == s && !Renewed(s, [], c, later)
  {
  }

  lemma ReleaseEnds(s: State, c: Client, now: Time)
    ensures Apply(s, Release(c), now).leases == s.leases - {c}
  {
    assert c !in s.leases ==> s.leases - {c} == s.leases;
  }

  // ---- The sweep as a run ----

  // What happens while the lock is free, and then the release of one client.
  datatype Turn = Turn(others: seq<Event>, client: Client, at: Time)

  function Sweep(turns: seq<Turn>): seq<Event> {
    if turns == [] then []
    else
      var last := turns[|turns| - 1];
      Sweep(turns[..|turns| - 1]) + last.others + [Event(Release(last.client), last.at)]
  }

  /** In a sweep that collected its clients at `now`, when each turn's release ends a lapsed lease or none. */
  lemma EachTurnEndsOnlyLapsed(s: State, turns: seq<Turn>, now: Time, i: nat)
    requires i < |turns| && Expired(s.leases, now, turns[i].client) && now <= turns[i].at
    ensures var (c, before) := (turns[i].client, Sweep(turns[..i]) + turns[i].others);
            && Run(s, Sweep(turns[..i + 1])).leases == Run(s, before).leases - {c}
            && ((c in Run(s, before).leases ==> Expired(Run(s, before).leases, turns[i].at, c))
                <==> !Renewed(s, before, c, turns[i].at))
  {
    hide Run, Apply, Renewed;
    var (c, before) := (turns[i].client, Sweep(turns[..i]) + turns[i].others);
    SweepEndsOnlyLapsed(s, c, now, before, turns[i].at);
    assert turns[..i + 1][..i] == turns[..i];
    var e := Event(Release(c), turns[i].at);
    assert Sweep(turns[..i + 1]) == before + [e];
    RunLast(s, before + [e]);
    assert (before + [e])[..|before|] == before;
  }

  /** If nobody gives a client a lease, its release ends a lapsed lease or none. */
  lemma {:induction false} NoGrantNoRenewal(s: State, events: seq<Event>, c: Client, later: Time)
    requires forall e :: e in events ==> !(e.step.Grant? && e.step.c == c) && !(e.step.GrantDynamic? && e.step.c == c)
    ensures !Renewed(s, events, c, later)
  {
    forall i: nat ensures !RenewedAt(s, events, c, later, i) {
      if i < |events| {
        assert events[i] in events;
      }
    }
  }

  // ---- Answers ----

  /** A client without a lease is blocked; one that waits for another proxy is pending under its old lease. */
  lemma CurrentMeaning(s: State, c: Client)
    ensures var a := CurrentAssignment(s, c);
            && (a.status == LeaseBlocked <==> c !in s.leases)
            && (a.status == LeasePending <==> c in s.leases && c in s.pendingRefs)
            && a.lease == (if c in s.leases then Some(s.leases[c]) else None)
  {
  }

  /**
   A client of a dynamic proxy is answered without sweeping. It is told what it would be told after its
   lapsed lease was swept, which never is a lapsed lease, exactly if its lease has not lapsed.
   */
  lemma AnswerIsSweptIffRunning(s: State, c: Client, now: Time)
    ensures var a := CurrentAssignment(Swept(s, c, now), c);
            && (a.lease.Some? ==> now <= a.lease.value.expiresAt)
            && (CurrentAssignment(s, c) == a <==> !Expired(s.leases, now, c))
  {
    hide HasLive, Keep, Without, Unbound, Purgeable;
  }
}
