/**
 What restarting guarantees, also after a crash between the database calls of a step, with lease calls
 and health rounds in flight, or of the start itself.
 */
module RestartTheorems {
  import opened Common
  import opened Addresses
  import opened Pool
  import opened PoolSafety
  import opened PoolLeases
  import PoolRuns
  import opened PoolShape
  import opened Restart
  import FrontLedger
  import opened LeaseCall
  import opened CallSafety
  import CallShape
  import Evidence
  import opened World

  // ---- One restart ----

  /** The tables promise no proxy to two clients, and lease and provider rows agree. */
  ghost predicate RowsOk(d: Disk, now: Time) {
    && Exclusive(d.leases, now) && TermsAgree(d.dynamics, d.leases) && WholeTerms(d.dynamics)
    && forall c :: c in d.leases ==> Stored(d.leases[c]) == d.leases[c]
  }

  /** A lease comes back exactly if its proxy's row is kept and no term has ended; never longer. */
  lemma RestoredExactly(d: Disk, now: Time, later: Time, s: State, c: Client)
    requires Restored(d, now, later, s)
    ensures c in s.leases <==>
              && c in d.leases && now < d.leases[c].expiresAt && d.leases[c].proxyId in d.proxies
              && (d.leases[c].proxyId in d.dynamics ==> now < d.dynamics[d.leases[c].proxyId])
    ensures c in s.leases ==>
              && s.leases[c].proxyId == d.leases[c].proxyId && s.leases[c].expiresAt <= d.leases[c].expiresAt
              && (TermsAgree(d.dynamics, d.leases) && Stored(d.leases[c]) == d.leases[c] ==> s.leases[c] == d.leases[c])
  {
    hide OrderOk;
    if c in s.leases && TermsAgree(d.dynamics, d.leases) {
      assert TermAgrees(d.dynamics, d.leases[c]);
    }
  }

  /**
   A proxy comes back as its row says: free or disabled when no lease on it came back, in service for a
   client whose lease did, with a clean record and nobody connected.
   */
  lemma ProxiesReturnAsSaved(d: Disk, now: Time, later: Time, s: State, id: ProxyId)
    requires Restored(d, now, later, s) && id in s.proxies
    ensures var p := s.proxies[id];
            && id in d.proxies && p.address == d.proxies[id].address && p.disabled == d.proxies[id].disabled
            && p.activeConns == 0 && p.failureCount == 0 && p.successCount == 0 && p.drainingFor == None
            && (p.source == ApiSource <==> id in d.dynamics)
            && p.providerExpiresAt == (if id in d.dynamics then d.dynamics[id] else 0)
            && if forall c :: c in s.leases ==> s.leases[c].proxyId != id
               then p.client == None && p.status == if d.proxies[id].disabled then ProxyDisabled else ProxyIdle
               else p.status == ProxyActive && exists c :: p.client == Some(c) && c in s.leases && s.leases[c].proxyId == id
  {
    assert BoundByLease(d, s.leases, id, s.proxies[id]);
  }

  /** A pool proxy whose row is there always comes back; a dynamic one exactly if its term and a lease on it run. */
  lemma ProxiesReturnIfSaved(d: Disk, now: Time, later: Time, s: State, id: ProxyId)
    requires Restored(d, now, later, s)
    ensures id !in d.dynamics ==> (id in s.proxies <==> id in d.proxies)
    ensures id in d.dynamics ==>
              (id in s.proxies <==>
                 && id in d.proxies && now < d.dynamics[id]
                 && exists c :: c in s.leases && s.leases[c].proxyId == id && later < s.leases[c].expiresAt)
  {
    assert HasLive(s.leases, later, id) <==> exists c :: c in s.leases && s.leases[c].proxyId == id && later < s.leases[c].expiresAt by {
      if c :| c in s.leases && s.leases[c].proxyId == id && later < s.leases[c].expiresAt {
        assert LiveOn(s.leases, later, c, id);
      }
    }
  }

  /** Configured proxies are saved, and enabled, under the last address given for them; other rows are kept. */
  lemma {:induction false} ConfiguredAreSaved(rows: map<ProxyId, Row>, configured: seq<Configured>, id: ProxyId)
    ensures var table := Configure(rows, configured);
            if forall i :: 0 <= i < |configured| ==> configured[i].id != id
            then (id in table <==> id in rows) && (id in rows ==> table[id] == rows[id])
            else exists i :: 0 <= i < |configured| && configured[i].id == id && id in table
                             && table[id] == Row(configured[i].address, false)
                             && forall j :: i < j < |configured| ==> configured[j].id != id
  {
    if configured != [] {
      var front, last := configured[..|configured| - 1], configured[|configured| - 1];
      ConfiguredAreSaved(rows, front, id);
      assert forall i :: 0 <= i < |front| ==> configured[i] == front[i];
      if last.id == id {
        assert configured[|front|].id == id;
      } else if exists i :: 0 <= i < |front| && front[i].id == id {
        var i :| 0 <= i < |front| && front[i].id == id && id in Configure(rows, front)
                 && Configure(rows, front)[id] == Row(front[i].address, false)
                 && forall j :: i < j < |front| ==> front[j].id != id;
        assert configured[i].id == id;
      }
    }
  }

  /** Every dynamic proxy left in memory or on disk has an unexpired lease. */
  lemma NoOrphanDynamics(d: Disk, now: Time, later: Time, s: State, id: ProxyId)
    requires Restored(d, now, later, s)
    ensures id in s.proxies && s.proxies[id].source == ApiSource ==> HasLive(s.leases, later, id)
    ensures id in s.disk.dynamics ==> id in s.proxies && s.proxies[id].source == ApiSource
  {
    hide OrderOk, HasLive;
    if id in s.proxies {
      assert BoundByLease(d, s.leases, id, s.proxies[id]);
    }
  }

  /** Restored leases are live, and were live in the tables. */
  lemma RestoredIsExclusive(d: Disk, now: Time, later: Time, s: State)
    requires Restored(d, now, later, s) && Exclusive(d.leases, now)
    ensures Exclusive(s.leases, now)
  {
    hide OrderOk, BoundByLease;
    assert forall c, id :: LiveOn(s.leases, now, c, id) ==> LiveOn(d.leases, now, c, id);
  }

  lemma RestoredKeepsLeases(d: Disk, now: Time, later: Time, s: State)
    requires Restored(d, now, later, s) && Exclusive(d.leases, now)
    ensures LeasesOk(s, now)
  {
    RestoredIsExclusive(d, now, later, s);
    forall id | id in s.proxies ensures LeaseOk(s.leases, now, id, s.proxies[id]) {
      assert BoundByLease(d, s.leases, id, s.proxies[id]);
      AttachedLeaseOk(d, now, s.leases, id, s.proxies[id]);
    }
  }

  lemma AttachedLeaseOk(d: Disk, now: Time, leases: Leases, id: ProxyId, p: Proxy)
    requires BoundByLease(d, leases, id, p) && Exclusive(leases, now)
    requires forall c :: c in leases ==> LiveOn(leases, now, c, leases[c].proxyId)
    ensures LeaseOk(leases, now, id, p)
  {
    if c :| c in leases && leases[c].proxyId == id {
      var b :| BoundTo(d, leases, id, p, b);
      assert LiveOn(leases, now, b, id);
    }
  }

  lemma RestoredKeepsConns(d: Disk, now: Time, later: Time, s: State)
    requires Restored(d, now, later, s)
    ensures ConnsOk(s, now)
  {
    forall id | id in s.proxies ensures ConnOk(s.leases, s.via, now, id, s.proxies[id]) {
      assert BoundByLease(d, s.leases, id, s.proxies[id]);
      assert On(s.via, id) == {};
    }
  }

  lemma RestoredMirrors(d: Disk, now: Time, later: Time, s: State)
    requires Restored(d, now, later, s) && RowsOk(d, now)
    ensures Mirrors(s.disk.leases, s.leases) && TermsAgree(s.disk.dynamics, s.leases)
  {
    hide OrderOk, HasLive, Exclusive, BoundByLease;
    forall c | c in s.leases ensures s.leases[c] == d.leases[c] && TermAgrees(s.disk.dynamics, s.leases[c]) {
      RestoredExactly(d, now, later, s, c);
      assert TermAgrees(d.dynamics, d.leases[c]);
    }
  }

  lemma RestoredIsSaved(d: Disk, now: Time, later: Time, s: State)
    requires Restored(d, now, later, s) && WholeTerms(d.dynamics)
    ensures AllSaved(s.disk, s.proxies) && WholeTerms(s.disk.dynamics)
  {
    hide OrderOk, HasLive, RestoredLeases;
    forall id | id in s.proxies ensures Saved(s.disk, id, s.proxies[id]) {
      assert BoundByLease(d, s.leases, id, s.proxies[id]);
    }
  }

  lemma RestoredKeepsDisk(d: Disk, now: Time, later: Time, s: State)
    requires Restored(d, now, later, s) && RowsOk(d, now)
    ensures DiskOk(s)
  {
    hide Restored, Exclusive, Mirrors, TermsAgree, WholeTerms, AllSaved;
    RestoredMirrors(d, now, later, s);
    RestoredIsSaved(d, now, later, s);
  }

  /** A restart from good tables satisfies every invariant of a running pool. */
  lemma RestoredIsSafe(d: Disk, now: Time, later: Time, s: State)
    requires Restored(d, now, later, s) && RowsOk(d, now)
    ensures LeasesOk(s, now) && ConnsOk(s, now) && OrderOk(s) && QueuesOk(s) && DiskOk(s)
  {
    RestoredKeepsLeases(d, now, later, s);
    RestoredKeepsConns(d, now, later, s);
    RestoredKeepsDisk(d, now, later, s);
  }

  // ---- Crashes ----

  predicate SameRows(d: Disk, e: Disk, id: ProxyId) {
    && (id in d.proxies <==> id in e.proxies) && (id in d.proxies ==> d.proxies[id] == e.proxies[id])
    && (id in d.dynamics <==> id in e.dynamics) && (id in d.dynamics ==> d.dynamics[id] == e.dynamics[id])
  }

  /**
   What a crash during a step can leave: the lease table as it was or as it will be, and each proxy's
   rows likewise. This includes every crash between two calls to the database.
   */
  ghost predicate Torn(before: Disk, after: Disk, d: Disk) {
    && (d.leases == before.leases || d.leases == after.leases)
    && forall id :: SameRows(d, before, id) || SameRows(d, after, id)
  }

  /** The rows that a step writes fit the rows that it leaves. */
  ghost predicate CrossTerms(s: State, after: State) {
    TermsAgree(after.disk.dynamics, s.leases) && TermsAgree(s.disk.dynamics, after.leases)
  }

  /** A step that only takes rows away. */
  ghost predicate Shrinks(s: State, after: State) {
    && (forall c :: c in after.leases ==> c in s.leases && after.leases[c] == s.leases[c])
    && (forall id :: id in after.disk.dynamics ==> id in s.disk.dynamics && after.disk.dynamics[id] == s.disk.dynamics[id])
  }

  lemma ShrinkingFits(s: State, after: State)
    requires TermsAgree(s.disk.dynamics, s.leases) && Shrinks(s, after)
    ensures CrossTerms(s, after)
  {
    assert forall c :: c in s.leases ==> TermAgrees(s.disk.dynamics, s.leases[c]);
  }

  lemma ReleaseShrinks(s: State, c: Client, now: Time)
    ensures Shrinks(s, ReleaseLease(s, c, now))
  {
    hide HasLive, Without, Keep;
  }

  lemma ReserveShrinks(s: State, c: Client, refresh: bool, now: Time)
    ensures Shrinks(s, Reserve(s, c, refresh, now).0)
  {
    hide ReleaseLease, FirstEligible, HasLive;
    ReleaseShrinks(s, c, now);
  }

  lemma OutsideShrinks(s: State, step: PoolRuns.Step, now: Time)
    requires IsOutside(step) && !step.GrantDynamic? && !step.Release?
    ensures Shrinks(s, PoolRuns.Apply(s, step, now))
  {
    hide HasLive, Without, Sorted, FirstEligible;
  }

  lemma HealthShrinks(s: State, id: ProxyId, passed: bool, ft: nat, st: nat, now: Time)
    ensures Shrinks(s, RecordHealth(s, id, passed, ft, st, now))
  {
    hide Recovered;
  }

  lemma GrantFits(s: State, id: ProxyId, c: Client, refresh: bool, expires: Time)
    requires DiskOk(s)
    ensures CrossTerms(s, Activate(s, id, c, refresh, expires))
  {
    hide Without, Mirrors;
    if CheckedFor(s, id, c) {
      assert Saved(s.disk, id, s.proxies[id]);
    }
    assert forall d :: d in s.leases ==> TermAgrees(s.disk.dynamics, s.leases[d]);
  }

  lemma DynamicFits(s: State, c: Client, id: ProxyId, address: Address, expires: Time)
    requires TermsAgree(s.disk.dynamics, s.leases) && Unleased(s.leases, id) && id !in s.disk.dynamics
    ensures CrossTerms(s, ActivateDynamic(s, c, id, address, expires))
  {
    hide Without, Sorted, Replaced, AddressTaken;
    assert forall d :: d in s.leases ==> TermAgrees(s.disk.dynamics, s.leases[d]);
  }

  lemma OutsideFits(s: State, step: PoolRuns.Step, now: Time)
    requires DiskOk(s) && IsOutside(step) && PoolRuns.FreshName(s, step)
    ensures CrossTerms(s, PoolRuns.Apply(s, step, now))
  {
    hide CrossTerms, TermsAgree, Mirrors, AllSaved, WholeTerms, Shrinks, ReleaseLease, ActivateDynamic;
    match step
    case Release(c) => ReleaseShrinks(s, c, now); ShrinkingFits(s, PoolRuns.Apply(s, step, now));
    case GrantDynamic(c, id, address, expires) => DynamicFits(s, c, id, address, expires);
    case _ => OutsideShrinks(s, step, now); ShrinkingFits(s, PoolRuns.Apply(s, step, now));
  }

  /** The same rows and leases. */
  predicate SameBooks(s: State, t: State) {
    t.disk == s.disk && t.leases == s.leases
  }

  lemma FitsSameBooks(s: State, t: State, after: State)
    requires SameBooks(s, t) && CrossTerms(t, after)
    ensures CrossTerms(s, after)
  {
  }

  lemma SettlingKeepsBooks(s: State, probes: seq<Evidence.Probe>, c: Client, mine: ProxyId)
    ensures SameBooks(s, BlameAll(s, probes, c)) && SameBooks(s, RestoreAll(s, probes, c))
    ensures SameBooks(s, Recheck(s, mine, c)) && SameBooks(s, Blame(s, mine, c))
  {
    hide RestoreAll, BlameAll, CheckedFor;
    SettlingOnlyProxies(s, probes, c);
  }

  /** What the verdict settles before it gives the proxy leaves rows and leases alone. */
  lemma RecheckedKeepsDisk(s: State, call: Call)
    requires DiskOk(s) && call.phase.Judging? && CheckedFor(s, call.phase.id, call.client)
    ensures var (mine, c) := (call.phase.id, call.client);
            var (rest, validated) := Parted(call.probes, call.phase.evidence);
            var settled := RestoreAll(BlameAll(s, validated, c), rest, c);
            DiskOk(Recheck(settled, mine, c)) && SameBooks(s, Recheck(settled, mine, c))
  {
    hide RestoreAll, BlameAll, Parted, DiskOk, Recheck;
    var (mine, c) := (call.phase.id, call.client);
    var (rest, validated) := Parted(call.probes, call.phase.evidence);
    var blamed := BlameAll(s, validated, c);
    var settled := RestoreAll(blamed, rest, c);
    CallShape.CheckedIsPool(s, mine, c);
    CallShape.BlameAllKeepsDisk(s, validated, c);
    CallShape.RestoreAllKeepsDisk(blamed, rest, c);
    BlameAllAt(s, validated, c, mine);
    RestoreAllAt(blamed, rest, c, mine);
    CallShape.RecheckKeepsDisk(settled, mine, c);
    SettlingKeepsBooks(s, validated, c, mine);
    SettlingKeepsBooks(blamed, rest, c, mine);
    SettlingKeepsBooks(settled, rest, c, mine);
  }

  /** The verdict on a probe writes at most the new lease. */
  lemma VerdictFits(s: State, call: Call, expires: Time)
    requires DiskOk(s) && call.phase.Judging? && CheckedFor(s, call.phase.id, call.client)
    ensures CrossTerms(s, CommitVerdict(s, call, expires).0)
  {
    hide RestoreAll, BlameAll, Parted, Activate, Blame, DiskOk, Recheck, CrossTerms, CheckedFor, SameBooks;
    var (mine, c) := (call.phase.id, call.client);
    var (rest, validated) := Parted(call.probes, call.phase.evidence);
    var blamed := BlameAll(s, validated, c);
    if call.phase.result.Failed? {
      SettlingKeepsBooks(s, validated, c, mine);
      SettlingKeepsBooks(blamed, rest, c, mine);
      SettlingKeepsBooks(Recheck(blamed, mine, c), rest, c, mine);
      SameBooksFit(s, blamed, Recheck(blamed, mine, c), Blame(Recheck(blamed, mine, c), mine, c));
    } else {
      var rechecked := Recheck(RestoreAll(blamed, rest, c), mine, c);
      RecheckedKeepsDisk(s, call);
      GrantFits(rechecked, mine, c, call.refresh, expires);
      FitsSameBooks(s, rechecked, Activate(rechecked, mine, c, call.refresh, expires));
    }
  }

  lemma SameBooksFit(s: State, t: State, u: State, after: State)
    requires DiskOk(s) && SameBooks(s, t) && SameBooks(t, u) && SameBooks(u, after)
    ensures CrossTerms(s, after)
  {
  }

  lemma SameTermsFit(s: State)
    requires DiskOk(s)
    ensures TermsAgree(s.disk.dynamics, s.leases)
  {
  }

  lemma BooksUntouchedFit(s: State, after: State)
    requires DiskOk(s) && SameBooks(s, after)
    ensures CrossTerms(s, after)
  {
  }

  lemma CommitFits(s: State, call: Call, cancelled: bool, expires: Time)
    requires DiskOk(s) && call.phase.Judging?
    ensures CrossTerms(s, Commit(s, call, cancelled, expires).0)
  {
    hide CrossTerms, RestoreAll, BlameAll, CommitVerdict, DiskOk, Evidence.Endpoints;
    var (id, c) := (call.phase.id, call.client);
    SettlingOnlyProxies(Restore(s, id, c), call.probes, c);
    SettlingOnlyProxies(EnqueuePending(Restore(s, id, c), c, call.refresh), call.probes, c);
    if CheckedFor(s, id, c) && SameBooks(s, Commit(s, call, cancelled, expires).0) {
      BooksUntouchedFit(s, Commit(s, call, cancelled, expires).0);
    } else if CheckedFor(s, id, c) {
      VerdictFits(s, call, expires);
    } else {
      BooksUntouchedFit(s, s);
    }
  }

  lemma CrossCommitFits(s: State, call: Call, cancelled: bool)
    requires DiskOk(s) && call.phase.CrossJudging?
    ensures CrossTerms(s, CrossCommit(s, call, cancelled).0)
  {
    hide CrossTerms, RestoreAll, BlameAll, Parted, DiskOk;
    var (rest, validated) := Parted(call.probes, call.phase.evidence);
    SettlingOnlyProxies(s, call.probes, call.client);
    SettlingOnlyProxies(s, validated, call.client);
    SettlingOnlyProxies(BlameAll(s, validated, call.client), rest, call.client);
    BooksUntouchedFit(s, CrossCommit(s, call, cancelled).0);
  }

  lemma AdvanceFits(l: FrontLedger.Ledger, s: State, call: Call, input: Input)
    requires DiskOk(s)
    ensures CrossTerms(s, Advance(l, s, call, input).1)
  {
    hide CrossTerms, RestoreAll, BlameAll, Parted, Reserve, Commit, CrossCommit, FirstCandidate, Shrinks, DiskOk,
         Evidence.Truthful, Evidence.EvidenceFor, Evidence.Endpoints;
    SameTermsFit(s);
    SettlingOnlyProxies(s, call.probes, call.client);
    match call.phase
    case Ready =>
      ReserveShrinks(s, call.client, call.refresh, input.now);
      ShrinkingFits(s, Advance(l, s, call, input).1);
    case Judging(_, _, _, _, _) => CommitFits(s, call, input.cancelled, input.expires);
    case Convicting(validated) =>
      SettlingOnlyProxies(s, validated, call.client);
      BooksUntouchedFit(s, Advance(l, s, call, input).1);
    case CrossJudging(_, _, _, _, _) => CrossCommitFits(s, call, input.cancelled);
    case _ => BooksUntouchedFit(s, Advance(l, s, call, input).1);
  }

  /** Whatever the system does next, the rows it writes fit the rows it leaves. */
  lemma NextFits(w: World, step: Step, now: Time, next: World)
    requires Sound(w, now) && Next(w, step, now, next)
    ensures CrossTerms(w.pool, next.pool)
  {
    hide FrontLedger.Exact, LeasesOk, NoneStranded, CallsOk, RoundsOk, PoolRuns.Apply, FrontLedger.Apply, Advance, Judged, RecordHealth,
         OrderOk, QueuesOk, DiskOk, CrossTerms, Shrinks;
    SameTermsFit(w.pool);
    match step
    case Outside(s) => OutsideFits(w.pool, s, now);
    case Move(k, input) => AdvanceFits(w.front, w.pool, w.calls[k], input);
    case Deliver(r, ft, st) =>
      var v := w.rounds[r].verdicts[0];
      HealthShrinks(w.pool, v.proxyId, v.passed, ft, st, now);
      ShrinkingFits(w.pool, next.pool);
    case _ => NothingFits(w.pool);
  }

  lemma NothingFits(s: State)
    requires DiskOk(s)
    ensures CrossTerms(s, s)
  {
  }

  lemma MirrorIsExclusive(table: Leases, leases: Leases, now: Time)
    requires Mirrors(table, leases) && Exclusive(leases, now)
    ensures Exclusive(table, now)
    ensures forall c :: c in table ==> Stored(table[c]) == table[c]
  {
    assert forall c, id :: LiveOn(table, now, c, id) ==> LiveOn(leases, now, c, id);
  }

  lemma TornRows(s: State, after: State, now: Time, d: Disk)
    requires LeasesOk(s, now) && DiskOk(s) && LeasesOk(after, now) && DiskOk(after) && CrossTerms(s, after)
    requires Torn(s.disk, after.disk, d)
    ensures RowsOk(d, now)
  {
    MirrorIsExclusive(s.disk.leases, s.leases, now);
    MirrorIsExclusive(after.disk.leases, after.leases, now);
    hide Exclusive, LeasesOk;
    forall c | c in d.leases ensures TermAgrees(d.dynamics, d.leases[c]) {
      var l := if d.leases == s.disk.leases then s.leases[c] else after.leases[c];
      assert TermAgrees(s.disk.dynamics, l) && TermAgrees(after.disk.dynamics, l);
      assert SameRows(d, s.disk, l.proxyId) || SameRows(d, after.disk, l.proxyId);
    }
    forall id | id in d.dynamics ensures Truncate(d.dynamics[id]) == d.dynamics[id] {
      assert SameRows(d, s.disk, id) || SameRows(d, after.disk, id);
    }
  }

  /** Whatever a crash leaves of any step of the system, the tables are good. */
  lemma TornRowsOk(w: World, step: Step, now: Time, next: World, d: Disk)
    requires Sound(w, now) && Next(w, step, now, next) && Torn(w.pool.disk, next.pool.disk, d)
    ensures RowsOk(d, now)
  {
    hide Next, Torn, RowsOk, CrossTerms, FrontLedger.Exact, LeasesOk, NoneStranded, CallsOk, RoundsOk, OrderOk, QueuesOk, DiskOk;
    NextFits(w, step, now, next);
    NextKeepsSound(w, step, now, next);
    TornRows(w.pool, next.pool, now, d);
  }

  /**
   A restart after a crash grants nothing new: each lease in it was held, on the same proxy and at
   least as long, before or after the interrupted step.
   */
  lemma RestartGrantsNothingNew(w: World, step: Step, now: Time, next: World, d: Disk, from: Time, later: Time, t: State, c: Client)
    requires Sound(w, now) && Next(w, step, now, next) && Torn(w.pool.disk, next.pool.disk, d)
    requires Restored(d, from, later, t) && c in t.leases
    ensures HeldBefore(w.pool.leases, t.leases[c], c) || HeldBefore(next.pool.leases, t.leases[c], c)
  {
    hide Next, FrontLedger.Exact, LeasesOk, NoneStranded, CallsOk, RoundsOk, OrderOk, QueuesOk;
    TornRowsOk(w, step, now, next, d);
    NextKeepsSound(w, step, now, next);
    RestoredExactly(d, from, later, t, c);
    hide Restored;
    assert d.leases == w.pool.disk.leases || d.leases == next.pool.disk.leases;
  }

  /** The client held this lease, perhaps a fraction of a second longer. */
  predicate HeldBefore(leases: Leases, l: Lease, c: Client) {
    c in leases && l == Stored(leases[c]) && l.expiresAt <= leases[c].expiresAt
  }

  /** A lease that the interrupted step did not touch comes back, cut to the second, if that is not over. */
  lemma UntouchedLeaseSurvives(w: World, step: Step, now: Time, next: World, d: Disk, from: Time, later: Time, t: State, c: Client)
    requires Sound(w, now) && Next(w, step, now, next) && Torn(w.pool.disk, next.pool.disk, d)
    requires Restored(d, from, later, t)
    requires c in w.pool.leases && c in next.pool.leases && next.pool.leases[c] == w.pool.leases[c]
    requires w.pool.leases[c].proxyId in w.pool.proxies && w.pool.leases[c].proxyId in next.pool.proxies
    requires from < Truncate(w.pool.leases[c].expiresAt)
    ensures c in t.leases && t.leases[c] == Stored(w.pool.leases[c])
  {
    hide Next, FrontLedger.Exact, LeasesOk, NoneStranded, CallsOk, RoundsOk, OrderOk, QueuesOk;
    TornRowsOk(w, step, now, next, d);
    NextKeepsSound(w, step, now, next);
    RestoredExactly(d, from, later, t, c);
    hide Restored;
    UntouchedRows(w.pool, next.pool, d, w.pool.leases[c].proxyId, c);
  }

  /** The rows of an untouched lease and its proxy are in the tables whichever way they were torn. */
  lemma UntouchedRows(s: State, after: State, d: Disk, id: ProxyId, c: Client)
    requires DiskOk(s) && DiskOk(after) && Torn(s.disk, after.disk, d) && TermsAgree(d.dynamics, d.leases)
    requires c in s.leases && c in after.leases && after.leases[c] == s.leases[c] && s.leases[c].proxyId == id
    requires id in s.proxies && id in after.proxies
    ensures c in d.leases && d.leases[c] == Stored(s.leases[c]) && id in d.proxies
    ensures id in d.dynamics ==> d.dynamics[id] == Truncate(s.leases[c].expiresAt)
  {
    assert Saved(s.disk, id, s.proxies[id]) && Saved(after.disk, id, after.proxies[id]);
    assert SameRows(d, s.disk, id) || SameRows(d, after.disk, id);
    assert TermAgrees(d.dynamics, d.leases[c]);
  }

  // ---- Any number of lives ----

  // Either the process starts from the tables, serves, and stops in the middle of a last step; or it
  // stops, or fails, while it still starts.
  datatype Life =
    | Served(configured: seq<Configured>, start: Time, later: Time, front: bool, backoff: nat,
             first: State, run: seq<Moment>, last: Moment, left: Disk)
    | Aborted(configured: seq<Configured>, at: Time, left: Disk)

  function EndsAt(life: Life): Time {
    if life.Served? then life.last.now else life.at
  }

  /** The system as it begins to serve. */
  function Opening(life: Life): World
    requires life.Served?
  {
    World(FrontLedger.NewLedger(life.front, life.backoff), life.first, map[], map[])
  }

  ghost predicate Lived(d: Disk, life: Life, from: Time) {
    match life
    case Served(configured, start, later, _, _, first, run, last, left) =>
      && from <= start <= later
      && Restored(d.(proxies := Configure(d.proxies, configured)), start, later, first)
      && Happens(Opening(life), later, run) && LastTime(later, run) <= last.now
      && Next(LastWorld(Opening(life), run), last.step, last.now, last.world)
      && Torn(LastWorld(Opening(life), run).pool.disk, last.world.pool.disk, left)
    case Aborted(configured, at, left) => from <= at && DuringStart(d, configured, left)
  }

  ghost predicate Lives(d: Disk, lives: seq<Life>, from: Time)
    decreases |lives|
  {
    lives == [] || (Lived(d, lives[0], from) && Lives(lives[0].left, lives[1..], EndsAt(lives[0])))
  }

  lemma RowsStayOk(d: Disk, now: Time, later: Time, proxies: map<ProxyId, Row>)
    requires RowsOk(d, now) && now <= later
    ensures RowsOk(d.(proxies := proxies), later)
  {
    assert forall c, id :: LiveOn(d.leases, later, c, id) ==> LiveOn(d.leases, now, c, id);
  }

  /** A start that is cut short, or fails, leaves good tables. */
  lemma StartLeavesGoodRows(d: Disk, configured: seq<Configured>, left: Disk, now: Time)
    requires RowsOk(d, now) && DuringStart(d, configured, left)
    ensures RowsOk(left, now)
  {
    var i: nat :| i <= |configured| && Erasure(SavedFirst(d, configured, i), left);
    var gone, dropped :| left == Erased(SavedFirst(d, configured, i), gone, dropped);
    assert forall c, id :: LiveOn(left.leases, now, c, id) ==> LiveOn(d.leases, now, c, id);
    assert forall c :: c in left.leases ==> TermAgrees(d.dynamics, d.leases[c]);
  }

  /** A life opens as a system that begins to serve, so that every result about such a system holds in it. */
  lemma OpeningIsFresh(d: Disk, life: Life, from: Time)
    requires RowsOk(d, from) && Lived(d, life, from) && life.Served?
    ensures Fresh(Opening(life), life.later)
  {
    var rows := Configure(d.proxies, life.configured);
    RowsStayOk(d, from, life.start, rows);
    RestoredIsSafe(d.(proxies := rows), life.start, life.later, life.first);
    TimePasses(life.first, life.start, life.later);
    hide Restored, RowsOk, LeasesOk, ConnsOk, DiskOk, OrderOk, QueuesOk, Next, Happens, FrontLedger.Exact;
    FrontLedger.NewIsExact(life.front, life.backoff);
    forall id ensures HasHolder(map[], life.first, id) {
      NoneChecked(d.(proxies := rows), life.start, life.later, life.first, id);
    }
  }

  /** Nothing is being checked when the process starts. */
  lemma NoneChecked(d: Disk, now: Time, later: Time, s: State, id: ProxyId)
    requires Restored(d, now, later, s)
    ensures CheckingFor(s, id).None?
  {
    hide OrderOk, RestoredLeases, Present;
    if id in s.proxies {
      assert BoundByLease(d, s.leases, id, s.proxies[id]);
    }
  }

  /** What holds whenever the life is cut short: every invariant, and isolation if the run is careful. */
  ghost predicate Well(life: Life) {
    life.Served? ==>
      && Fresh(Opening(life), life.later)
      && Sound(LastWorld(Opening(life), life.run), LastTime(life.later, life.run))
      && (AllCareful(Opening(life), life.run) ==> ConnsOk(LastWorld(Opening(life), life.run).pool, LastTime(life.later, life.run)))
  }

  lemma OneLife(d: Disk, life: Life, from: Time)
    requires RowsOk(d, from) && Lived(d, life, from)
    ensures Well(life) && RowsOk(life.left, EndsAt(life))
  {
    hide RowsOk, Sound, ConnsOk, AllCareful, Next, Happens, Restored, Torn, DuringStart;
    match life
    case Served(_, _, later, _, _, _, run, last, left) =>
      var w := LastWorld(Opening(life), run);
      OpeningIsFresh(d, life, from);
      RunKeepsSound(Opening(life), later, run);
      if AllCareful(Opening(life), run) {
        RunKeepsConns(Opening(life), later, run);
      }
      SoundLater(w, LastTime(later, run), last.now);
      TornRowsOk(w, last.step, last.now, last.world, left);
    case Aborted(configured, at, left) =>
      RowsStayOk(d, from, at, d.proxies);
      assert d.(proxies := d.proxies) == d;
      StartLeavesGoodRows(d, configured, left, at);
  }

  /**
   However often the process stops and starts again, also while it is starting, every life opens as a
   system that begins to serve; everything that holds in a run from an empty pool holds in it (leases
   exclusive, tables mirroring them, nobody stranded, tokens and verdicts sound, and connections isolated
   unless a busy proxy without a lease is made idle); and what the last stop leaves is good to start from.
   */
  lemma {:induction false} SafeAcrossRestarts(d: Disk, lives: seq<Life>, from: Time)
    requires RowsOk(d, from) && Lives(d, lives, from) && lives != []
    ensures var life := lives[|lives| - 1];
            Well(life) && RowsOk(life.left, EndsAt(life))
    decreases |lives|
  {
    hide RowsOk, Lived, Well;
    OneLife(d, lives[0], from);
    if |lives| > 1 {
      SafeAcrossRestarts(lives[0].left, lives[1..], EndsAt(lives[0]));
      assert lives[1..][|lives| - 2] == lives[|lives| - 1];
    }
  }
}
