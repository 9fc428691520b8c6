/**
 Everything at once: the front, the pool, any number of lease calls and health rounds, and every other
 operation, interleaved one critical section at a time.
 */
module World {
  import opened Common
  import opened Addresses
  import opened Front
  import opened FrontLedger
  import opened FrontTheorems
  import opened FrontPath
  import opened Evidence
  import opened Pool
  import opened PoolSafety
  import opened PoolLeases
  import opened PoolConnections
  import PoolRuns
  import opened PoolShape
  import opened LeaseCall
  import opened CallSafety
  import opened CallShape
  import opened Health

  // A health round: what its workers brought back, then what is left to deliver.
  datatype Round = Round(results: seq<Checked>, judged: bool, batch: Option<(Token, Token)>, verdicts: seq<Verdict>)

  datatype World = World(front: Ledger, pool: State, calls: map<nat, Call>, rounds: map<nat, Round>)

  datatype Step =
    | FrontStep(op: Op)
    | Outside(step: PoolRuns.Step)
    | Arrive(k: nat, c: Client, refresh: bool)
    | Move(k: nat, input: Input)
    | StartRound(r: nat)
    | Collect(r: nat, checked: Checked)
    | Judge(r: nat, skipped: bool)
    | PutBatch(r: nat)
    | Deliver(r: nat, failureThreshold: nat, successThreshold: nat)
    | DropRound(r: nat)

  /** The operations of the pool that are neither part of a lease call nor of a health round. */
  predicate IsOutside(step: PoolRuns.Step) {
    || step.Add? || step.Update? || step.Switch? || step.Delete? || step.Release? || step.GrantDynamic?
    || step.Queue? || step.Unqueue? || step.Pop? || step.Connect? || step.Disconnect? || step.FlushDelete?
  }

  const NEW_ROUND := Round([], false, None, [])

  function CollectInto(h: History, round: Round, checked: Checked): Round {
    if round.judged || !Truthful(h, checked.address, 0, checked.result) then round
    else round.(results := round.results + [checked])
  }

  ghost predicate ChosenBatch(results: seq<Checked>, skipped: bool, known: seq<Front.Evidence>, b: Option<(Token, Token)>) {
    && (b.Some? <==>
          && !skipped && (exists generation :: AllConfused(results, generation)) && TwoWitnesses(AsProbes(results))
          && forall i :: 0 <= i < |results| ==> !Cleared(known, results[i]))
    && (b.Some? ==> Extremes(results, b.value.0, b.value.1))
  }

  /** What `CheckRound` decides from the results and the front's newest evidence. */
  ghost predicate Judged(l: Ledger, before: Round, skipped: bool, after: Round) {
    var known := KnownEvidence(before.results, RecentEvidence(l.circuit));
    && after == before.(judged := true, batch := after.batch, verdicts := Decisions(known, AnyAmbiguous(before.results), before.results))
    && ChosenBatch(before.results, skipped, known, after.batch)
  }

  /** `w` becomes `next` by `step` at `now`. A step whose guard fails is no step. */
  ghost predicate Next(w: World, step: Step, now: Time, next: World) {
    match step
    case FrontStep(op) => !op.Batch? && next == w.(front := FrontLedger.Apply(w.front, op))
    case Outside(s) =>
      IsOutside(s) && PoolRuns.FreshName(w.pool, s) && next == w.(pool := PoolRuns.Apply(w.pool, s, now))
    case Arrive(k, c, refresh) =>
      k !in w.calls && next == w.(calls := w.calls[k := NewCall(w.pool, c, refresh)])
    case Move(k, input) =>
      && k in w.calls && input.now == now
      && var (front, pool, call) := Advance(w.front, w.pool, w.calls[k], input);
         next == w.(front := front, pool := pool, calls := w.calls[k := call])
    case StartRound(r) => r !in w.rounds && next == w.(rounds := w.rounds[r := NEW_ROUND])
    case Collect(r, checked) =>
      r in w.rounds && next == w.(rounds := w.rounds[r := CollectInto(w.front.history, w.rounds[r], checked)])
    case Judge(r, skipped) =>
      && r in w.rounds && !w.rounds[r].judged && r in next.rounds
      && Judged(w.front, w.rounds[r], skipped, next.rounds[r]) && next == w.(rounds := w.rounds[r := next.rounds[r]])
    case PutBatch(r) =>
      && r in w.rounds && w.rounds[r].batch.Some?
      && var (first, last) := w.rounds[r].batch.value;
         next == w.(front := FrontLedger.Apply(w.front, Batch(first, last, now)), rounds := w.rounds[r := w.rounds[r].(batch := None)])
    case Deliver(r, ft, st) =>
      && r in w.rounds && w.rounds[r].verdicts != []
      && var v := w.rounds[r].verdicts[0];
         next == w.(pool := RecordHealth(w.pool, v.proxyId, v.passed, ft, st, now),
                    rounds := w.rounds[r := w.rounds[r].(verdicts := w.rounds[r].verdicts[1..])])
    case DropRound(r) => r in w.rounds && next == w.(rounds := w.rounds - {r})
  }

  // ---- The invariant ----

  /** The call holds `id` for `c`. */
  predicate Holder(calls: map<nat, Call>, k: nat, id: ProxyId, c: Client) {
    k in calls && calls[k].client == c && id in Held(calls[k])
  }

  ghost predicate HasHolder(calls: map<nat, Call>, s: State, id: ProxyId) {
    CheckingFor(s, id).Some? ==> exists k :: Holder(calls, k, id, CheckingFor(s, id).value)
  }

  ghost predicate NoneStranded(calls: map<nat, Call>, s: State) {
    forall id :: HasHolder(calls, s, id)
  }

  ghost predicate CallsOk(h: History, calls: map<nat, Call>) {
    forall k :: k in calls ==> CallOk(h, calls[k])
  }

  /** The round's own probe of the proxy justifies the failure that the verdict holds against it. */
  ghost predicate FairAt(h: History, results: seq<Checked>, v: Verdict, i: nat) {
    && i < |results| && results[i].proxyId == v.proxyId
    && var r := results[i].result;
       && r.Failed?
       && (FailureScopeOf(r) == ExitScope || FailureScopeOf(r) == UnknownScope || IsExcused(h, AsProbe(results[i])))
  }

  ghost predicate Fair(h: History, results: seq<Checked>, v: Verdict) {
    !v.passed ==> exists i: nat :: FairAt(h, results, v, i)
  }

  ghost predicate RoundOk(h: History, round: Round) {
    && Honest(h, round.results) && (!round.judged ==> round.batch.None? && round.verdicts == [])
    && (forall v :: v in round.verdicts ==> Fair(h, round.results, v))
    && (round.batch.Some? ==> TwoWitnesses(AsProbes(round.results)) && Extremes(round.results, round.batch.value.0, round.batch.value.1))
  }

  ghost predicate RoundsOk(h: History, rounds: map<nat, Round>) {
    forall r :: r in rounds ==> RoundOk(h, rounds[r])
  }

  ghost predicate Sound(w: World, now: Time) {
    && Exact(w.front) && LeasesOk(w.pool, now) && ShapeOk(w.pool) && NoneStranded(w.calls, w.pool)
    && CallsOk(w.front.history, w.calls) && RoundsOk(w.front.history, w.rounds)
  }

  // ---- Each part is kept ----

  lemma HonestGrows(h: History, more: History, results: seq<Checked>)
    requires h <= more && Honest(h, results)
    ensures Honest(more, results)
  {
    assert forall i :: 0 <= i < |results| ==> Truthful(h, results[i].address, 0, results[i].result);
  }

  lemma FairGrows(h: History, more: History, results: seq<Checked>, v: Verdict)
    requires h <= more && Fair(h, results, v)
    ensures Fair(more, results, v)
  {
    if !v.passed {
      var i: nat :| FairAt(h, results, v, i);
      var token := AmbiguousFailureToken(results[i].result);
      HistoryGrows(h, more, TokenOr(token), Established, results[i].address, NO_EVIDENCE);
      assert FairAt(more, results, v, i);
    }
  }

  lemma HistoryKeepsAll(h: History, more: History, calls: map<nat, Call>, rounds: map<nat, Round>)
    requires h <= more && CallsOk(h, calls) && RoundsOk(h, rounds)
    ensures CallsOk(more, calls) && RoundsOk(more, rounds)
  {
    hide *;
    forall k | k in calls ensures CallOk(more, calls[k]) {
      assert CallOk(h, calls[k]) by { CallsOkAt(h, calls, k); }
      CallOkGrows(h, more, calls[k]);
    }
    forall r | r in rounds ensures RoundOk(more, rounds[r]) {
      RoundsOkAt(h, rounds, r);
      RoundGrows(h, more, rounds[r]);
    }
    AllOk(more, calls, rounds);
  }

  lemma CallsOkAt(h: History, calls: map<nat, Call>, k: nat)
    requires CallsOk(h, calls) && k in calls
    ensures CallOk(h, calls[k])
  {
  }

  lemma RoundsOkAt(h: History, rounds: map<nat, Round>, r: nat)
    requires RoundsOk(h, rounds) && r in rounds
    ensures RoundOk(h, rounds[r])
  {
  }

  lemma AllOk(h: History, calls: map<nat, Call>, rounds: map<nat, Round>)
    requires forall k :: k in calls ==> CallOk(h, calls[k])
    requires forall r :: r in rounds ==> RoundOk(h, rounds[r])
    ensures CallsOk(h, calls) && RoundsOk(h, rounds)
  {
  }

  lemma RoundGrows(h: History, more: History, round: Round)
    requires h <= more && RoundOk(h, round)
    ensures RoundOk(more, round)
  {
    hide Fair, Honest, TwoWitnesses, Extremes;
    HonestGrows(h, more, round.results);
    forall v | v in round.verdicts ensures Fair(more, round.results, v) {
      FairGrows(h, more, round.results, v);
    }
  }

  lemma OthersAreCalm(s: State, step: PoolRuns.Step, now: Time, id: ProxyId)
    requires IsOutside(step) && !step.Release?
    ensures var after := PoolRuns.Apply(s, step, now);
            && (CheckingFor(after, id).Some? ==> CheckingFor(after, id) == CheckingFor(s, id))
            && !Raised(s, after, id)
  {
    hide HasLive, Without, Sorted, FirstEligible, AddressTaken;
  }

  /** The rest of the pool never starts a check, and never counts a failure. */
  lemma OutsideIsCalm(s: State, step: PoolRuns.Step, now: Time, id: ProxyId)
    requires IsOutside(step)
    ensures var after := PoolRuns.Apply(s, step, now);
            && (CheckingFor(after, id).Some? ==> CheckingFor(after, id) == CheckingFor(s, id))
            && !Raised(s, after, id)
  {
    hide ReleaseLease, AddProxy, UpdateProxy, SetProxyDisabled, DeleteProxy, ActivateDynamic, EnqueuePending, Unqueued, NextQueued,
         AcquireConn, UnregisterConn, CheckingFor, Raised;
    if step.Release? {
      ReleaseChecks(s, step.c, now, id);
      ReleaseRaisesNone(s, step.c, now, id);
    } else {
      OthersAreCalm(s, step, now, id);
    }
  }

  lemma OutsideKeepsHolders(calls: map<nat, Call>, s: State, step: PoolRuns.Step, now: Time)
    requires NoneStranded(calls, s) && IsOutside(step)
    ensures NoneStranded(calls, PoolRuns.Apply(s, step, now))
  {
    hide PoolRuns.Apply, Holder, CheckingFor;
    var after := PoolRuns.Apply(s, step, now);
    forall id ensures HasHolder(calls, after, id) {
      OutsideIsCalm(s, step, now, id);
      assert HasHolder(calls, s, id);
    }
  }

  lemma HealthChecks(s: State, id: ProxyId, passed: bool, ft: nat, st: nat, now: Time, other: ProxyId)
    ensures var after := RecordHealth(s, id, passed, ft, st, now);
            && (CheckingFor(after, other).Some? ==> CheckingFor(after, other) == CheckingFor(s, other))
            && (Raised(s, after, other) ==> other == id && !passed)
  {
    hide HasLive;
  }

  lemma HealthKeepsHolders(calls: map<nat, Call>, s: State, id: ProxyId, passed: bool, ft: nat, st: nat, now: Time)
    requires NoneStranded(calls, s)
    ensures NoneStranded(calls, RecordHealth(s, id, passed, ft, st, now))
  {
    hide RecordHealth, Holder, CheckingFor;
    var after := RecordHealth(s, id, passed, ft, st, now);
    forall other ensures HasHolder(calls, after, other) {
      HealthChecks(s, id, passed, ft, st, now, other);
      assert HasHolder(calls, s, other);
    }
  }

  lemma MoveKeepsHolder(w: World, k: nat, input: Input, id: ProxyId)
    requires k in w.calls && HasHolder(w.calls, w.pool, id)
    ensures var (_, pool, call) := Advance(w.front, w.pool, w.calls[k], input);
            HasHolder(w.calls[k := call], pool, id)
  {
    var (_, pool, call) := Advance(w.front, w.pool, w.calls[k], input);
    var calls := w.calls[k := call];
    AdvanceHolds(w.front, w.pool, w.calls[k], input, id);
    SameClient(w.front, w.pool, w.calls[k], input);
    hide Advance, Held, CheckingFor;
    if CheckingFor(pool, id).Some? {
      if id in Held(call) && CheckingFor(pool, id) == Some(call.client) {
        assert Holder(calls, k, id, call.client);
      } else {
        var j :| Holder(w.calls, j, id, CheckingFor(w.pool, id).value);
        assert Holder(calls, j, id, CheckingFor(pool, id).value);
      }
    }
  }

  lemma ArrivalKeepsHolders(w: World, k: nat, call: Call)
    requires NoneStranded(w.calls, w.pool) && k !in w.calls
    ensures NoneStranded(w.calls[k := call], w.pool)
  {
    hide Held, CheckingFor;
    var calls := w.calls[k := call];
    forall id ensures HasHolder(calls, w.pool, id) {
      assert HasHolder(w.calls, w.pool, id);
      if CheckingFor(w.pool, id).Some? {
        var j :| Holder(w.calls, j, id, CheckingFor(w.pool, id).value);
        assert Holder(calls, j, id, CheckingFor(w.pool, id).value);
      }
    }
  }

  lemma JudgedIsOk(l: Ledger, before: Round, skipped: bool, after: Round)
    requires Exact(l) && RoundOk(l.history, before) && Judged(l, before, skipped, after)
    ensures RoundOk(l.history, after)
  {
    RecentIsWitnessed(l);
    var known := KnownEvidence(before.results, RecentEvidence(l.circuit));
    hide Summarises, StatusAgrees, AttemptsFit, Numbered, TwoWitnesses, Extremes, AllConfused, Fair, Honest, KnownEvidence, RecentEvidence;
    forall v | v in after.verdicts ensures Fair(l.history, before.results, v) {
      DecisionsAreOf(known, AnyAmbiguous(before.results), before.results, v);
      var i :| 0 <= i < |before.results| && Decision(known, AnyAmbiguous(before.results), before.results[i]) == Some(v);
      DecisionIsFair(l, before.results, RecentEvidence(l.circuit), i, v);
    }
  }

  lemma DecisionIsFair(l: Ledger, results: seq<Checked>, recent: Option<Front.Evidence>, i: nat, v: Verdict)
    requires Numbered(l.history) && Honest(l.history, results) && i < |results|
    requires recent.Some? ==> Witnessed(l.history, recent.value)
    requires Decision(KnownEvidence(results, recent), AnyAmbiguous(results), results[i]) == Some(v)
    ensures Fair(l.history, results, v)
  {
    if !v.passed {
      RoundBlamesFairly(l, results, recent, i);
      assert FairAt(l.history, results, v, i);
    }
  }

  lemma {:induction false} DecisionsAreOf(known: seq<Front.Evidence>, anyAmbiguous: bool, results: seq<Checked>, v: Verdict)
    requires v in Decisions(known, anyAmbiguous, results)
    ensures exists i :: 0 <= i < |results| && Decision(known, anyAmbiguous, results[i]) == Some(v)
  {
    hide Decision;
    var front := results[..|results| - 1];
    if v in Decisions(known, anyAmbiguous, front) {
      DecisionsAreOf(known, anyAmbiguous, front, v);
      var i :| 0 <= i < |front| && Decision(known, anyAmbiguous, front[i]) == Some(v);
      assert results[i] == front[i];
    } else {
      assert Decision(known, anyAmbiguous, results[|results| - 1]) == Some(v);
    }
  }

  lemma CollectIsOk(h: History, round: Round, checked: Checked)
    requires RoundOk(h, round)
    ensures RoundOk(h, CollectInto(h, round, checked))
  {
  }

  // ---- Every step of every interleaving ----

  lemma CallsChange(h: History, calls: map<nat, Call>, rounds: map<nat, Round>, k: nat, call: Call)
    requires CallsOk(h, calls) && CallOk(h, call)
    ensures CallsOk(h, calls[k := call])
  {
    hide CallOk;
  }

  lemma RoundsChange(h: History, rounds: map<nat, Round>, r: nat, round: Round)
    requires RoundsOk(h, rounds) && RoundOk(h, round)
    ensures RoundsOk(h, rounds[r := round]) && RoundsOk(h, rounds - {r})
  {
    hide RoundOk;
  }

  lemma MoveKeepsSound(w: World, k: nat, input: Input, next: World)
    requires Sound(w, input.now) && Next(w, Move(k, input), input.now, next)
    ensures Sound(next, input.now)
  {
    var call := w.calls[k];
    var (front, pool, moved) := Advance(w.front, w.pool, call, input);
    MoveFront(w.front, w.pool, call, input);
    CallsOkAt(w.front.history, w.calls, k);
    AdvanceOk(w.front, w.pool, call, input);
    AdvanceKeepsLeases(w.front, w.pool, call, input);
    AdvanceKeepsShape(w.front, w.pool, call, input);
    HistoryKeepsAll(w.front.history, front.history, w.calls, w.rounds);
    CallsChange(front.history, w.calls, w.rounds, k, moved);
    var calls := w.calls[k := moved];
    forall id ensures HasHolder(calls, pool, id) {
      MoveKeepsHolder(w, k, input, id);
    }
  }

  lemma MoveFront(l: Ledger, s: State, call: Call, input: Input)
    requires Exact(l)
    ensures var front := Advance(l, s, call, input).0;
            Exact(front) && l.history <= front.history
  {
    hide Exact, Reserve, Commit, Weigh, CrossCommit, Truthful, EvidenceFor, FirstCandidate, RestoreAll, BlameAll, Endpoints;
    ApplyKeepsExact(l, BatchOp(call, input.now));
    ApplyMonotone(l, BatchOp(call, input.now));
  }

  lemma FrontStepKeepsSound(w: World, op: Op, now: Time, rounds: map<nat, Round>, next: World)
    requires Sound(w, now) && next == w.(front := FrontLedger.Apply(w.front, op), rounds := rounds)
    requires RoundsOk(w.front.history, rounds)
    ensures Sound(next, now)
  {
    hide *;
    SoundParts(w, now);
    ApplyKeepsExact(w.front, op);
    ApplyMonotone(w.front, op);
    HistoryKeepsAll(w.front.history, next.front.history, w.calls, rounds);
    PartsSound(next, now);
  }

  lemma SoundParts(w: World, now: Time)
    requires Sound(w, now)
    ensures Exact(w.front) && LeasesOk(w.pool, now) && ShapeOk(w.pool) && NoneStranded(w.calls, w.pool)
    ensures CallsOk(w.front.history, w.calls) && RoundsOk(w.front.history, w.rounds)
  {
    hide Exact, LeasesOk, ShapeOk, NoneStranded, CallsOk, RoundsOk;
  }

  lemma PartsSound(w: World, now: Time)
    requires Exact(w.front) && LeasesOk(w.pool, now) && ShapeOk(w.pool) && NoneStranded(w.calls, w.pool)
    requires CallsOk(w.front.history, w.calls) && RoundsOk(w.front.history, w.rounds)
    ensures Sound(w, now)
  {
    hide Exact, LeasesOk, ShapeOk, NoneStranded, CallsOk, RoundsOk;
  }

  lemma RoundStepKeepsSound(w: World, step: Step, now: Time, next: World)
    requires Sound(w, now) && Next(w, step, now, next)
    requires step.StartRound? || step.Collect? || step.Judge? || step.PutBatch? || step.Deliver? || step.DropRound?
    ensures Sound(next, now)
  {
    hide Exact, LeasesOk, ShapeOk, NoneStranded, CallsOk, RoundsOk, RoundOk, FrontLedger.Apply, RecordHealth, CollectInto, Judged;
    var h := w.front.history;
    if step.r in w.rounds {
      RoundsOkAt(h, w.rounds, step.r);
    }
    match step
    case StartRound(r) =>
      assert RoundOk(h, NEW_ROUND) by { NewRoundOk(h); }
      RoundsChange(h, w.rounds, r, NEW_ROUND);
    case Collect(r, checked) =>
      CollectIsOk(h, w.rounds[r], checked);
      RoundsChange(h, w.rounds, r, CollectInto(h, w.rounds[r], checked));
    case Judge(r, skipped) =>
      JudgedIsOk(w.front, w.rounds[r], skipped, next.rounds[r]);
      RoundsChange(h, w.rounds, r, next.rounds[r]);
    case PutBatch(r) =>
      var (first, last) := w.rounds[r].batch.value;
      RoundShrinks(h, w.rounds[r]);
      RoundsChange(h, w.rounds, r, w.rounds[r].(batch := None));
      FrontStepKeepsSound(w, Batch(first, last, now), now, w.rounds[r := w.rounds[r].(batch := None)], next);
    case Deliver(r, ft, st) =>
      var v := w.rounds[r].verdicts[0];
      RoundShrinks(h, w.rounds[r]);
      RoundsChange(h, w.rounds, r, w.rounds[r].(verdicts := w.rounds[r].verdicts[1..]));
      HealthKeepsLeases(w.pool, v.proxyId, v.passed, ft, st, now);
      HealthKeepsShape(w.pool, v.proxyId, v.passed, ft, st, now);
      HealthKeepsHolders(w.calls, w.pool, v.proxyId, v.passed, ft, st, now);
    case DropRound(r) => RoundsChange(h, w.rounds, r, w.rounds[r]);
  }

  lemma HealthKeepsShape(s: State, id: ProxyId, passed: bool, ft: nat, st: nat, now: Time)
    requires ShapeOk(s)
    ensures var after := RecordHealth(s, id, passed, ft, st, now);
            ShapeOk(after) && after.pendingNew == s.pendingNew && after.pendingRefs == s.pendingRefs
  {
    hide Recovered, DiskOk, NoDuplicates;
    HealthKeepsDisk(s, id, passed, ft, st, now);
  }

  lemma NewRoundOk(h: History)
    ensures RoundOk(h, NEW_ROUND)
  {
  }

  lemma RoundShrinks(h: History, round: Round)
    requires RoundOk(h, round)
    ensures RoundOk(h, round.(batch := None))
    ensures round.verdicts != [] ==> RoundOk(h, round.(verdicts := round.verdicts[1..]))
  {
    hide Fair, Honest, TwoWitnesses, Extremes;
  }

  lemma NextKeepsSound(w: World, step: Step, now: Time, next: World)
    requires Sound(w, now) && Next(w, step, now, next)
    ensures Sound(next, now)
  {
    hide Exact, LeasesOk, ShapeOk, NoneStranded, CallsOk, RoundsOk, PoolRuns.Apply, FrontLedger.Apply, Advance, Judged;
    match step
    case FrontStep(op) => FrontStepKeepsSound(w, op, now, w.rounds, next);
    case Outside(s) =>
      PoolRuns.ApplyKeepsLeases(w.pool, s, now);
      ApplyKeepsShape(w.pool, s, now);
      OutsideKeepsHolders(w.calls, w.pool, s, now);
    case Arrive(k, c, refresh) =>
      ArrivalKeepsHolders(w, k, NewCall(w.pool, c, refresh));
      NewCallOk(w.front.history, w.pool, c, refresh);
      CallsChange(w.front.history, w.calls, w.rounds, k, NewCall(w.pool, c, refresh));
    case Move(k, input) => MoveKeepsSound(w, k, input, next);
    case _ => RoundStepKeepsSound(w, step, now, next);
  }

  lemma NewCallOk(h: History, s: State, c: Client, refresh: bool)
    ensures CallOk(h, NewCall(s, c, refresh))
  {
  }

  // ---- Whole runs ----

  datatype Moment = Moment(step: Step, now: Time, world: World)

  /** A run: each moment's world comes from the one before, and time does not run backwards. */
  ghost predicate Happens(w: World, from: Time, run: seq<Moment>)
    decreases |run|
  {
    run == [] ||
    (&& from <= run[0].now && Next(w, run[0].step, run[0].now, run[0].world)
     && Happens(run[0].world, run[0].now, run[1..]))
  }

  function LastWorld(w: World, run: seq<Moment>): World {
    if run == [] then w else run[|run| - 1].world
  }

  function LastTime(from: Time, run: seq<Moment>): Time {
    if run == [] then from else run[|run| - 1].now
  }

  function StartWorld(enabled: bool, backoff: nat): World {
    World(NewLedger(enabled, backoff), PoolRuns.EMPTY, map[], map[])
  }

  /** A system that begins to serve: sound, with nothing in flight. */
  ghost predicate Fresh(w: World, now: Time) {
    Sound(w, now) && ConnsOk(w.pool, now) && w.calls == map[] && w.rounds == map[]
  }

  lemma StartIsFresh(enabled: bool, backoff: nat, now: Time)
    ensures Fresh(StartWorld(enabled, backoff), now)
  {
    NewIsExact(enabled, backoff);
    hide Exact;
    assert ShapeOk(PoolRuns.EMPTY);
  }

  lemma SoundLater(w: World, now: Time, later: Time)
    requires Sound(w, now) && now <= later
    ensures Sound(w, later)
  {
    hide Exact, LeasesOk, ShapeOk, NoneStranded, CallsOk, RoundsOk;
    TimePasses(w.pool, now, later);
  }

  lemma {:induction false} RunKeepsSound(w: World, from: Time, run: seq<Moment>)
    requires Sound(w, from) && Happens(w, from, run)
    ensures Sound(LastWorld(w, run), LastTime(from, run))
    decreases |run|
  {
    hide Sound, Next;
    if run != [] {
      SoundLater(w, from, run[0].now);
      NextKeepsSound(w, run[0].step, run[0].now, run[0].world);
      RunKeepsSound(run[0].world, run[0].now, run[1..]);
    }
  }

  // ---- The main results, for every run of a system that begins to serve ----

  /** What justifies that `step` raises the failure count of `id`. */
  ghost predicate Justified(w: World, step: Step, id: ProxyId) {
    match step
    case Move(k, _) => k in w.calls && (FailedBeyondFront(w.calls[k], id) || FrontExcused(w.front.history, w.calls[k], id))
    case Deliver(r, _, _) =>
      && r in w.rounds && w.rounds[r].verdicts != []
      && w.rounds[r].verdicts[0].proxyId == id && !w.rounds[r].verdicts[0].passed
      && Fair(w.front.history, w.rounds[r].results, w.rounds[r].verdicts[0])
    case _ => false
  }

  lemma NextBlamesFairly(w: World, step: Step, now: Time, next: World, id: ProxyId)
    requires Sound(w, now) && Next(w, step, now, next) && Raised(w.pool, next.pool, id)
    ensures Justified(w, step, id)
  {
    hide Exact, LeasesOk, ShapeOk, NoneStranded, CallsOk, RoundsOk, PoolRuns.Apply, FrontLedger.Apply, Advance, Judged, RecordHealth,
         FailedBeyondFront, FrontExcused, Fair;
    match step
    case Outside(s) => OutsideIsCalm(w.pool, s, now, id);
    case Move(k, input) =>
      CallsOkAt(w.front.history, w.calls, k);
      AdvanceBlamesFairly(w.front, w.pool, w.calls[k], input, id);
    case Deliver(r, ft, st) =>
      RoundsOkAt(w.front.history, w.rounds, r);
      var v := w.rounds[r].verdicts[0];
      HealthChecks(w.pool, v.proxyId, v.passed, ft, st, now, id);
      assert v in w.rounds[r].verdicts;
    case _ =>
  }

  /**
   Attribution: whatever interleaves, a proxy's failure count rises only in a lease call or health
   round whose own probe of it failed beyond the front, or failed ambiguously while the history holds
   a later success of the same generation through another endpoint, without a shared failure between.
   */
  lemma ExitsAreBlamedFairly(start: World, from: Time, run: seq<Moment>, last: Moment, id: ProxyId)
    requires Fresh(start, from) && Happens(start, from, run)
    ensures var w := LastWorld(start, run);
            LastTime(from, run) <= last.now && Next(w, last.step, last.now, last.world) && Raised(w.pool, last.world.pool, id) ==>
              Justified(w, last.step, id)
  {
    hide Sound, Next, Justified, Raised, Happens;
    var w := LastWorld(start, run);
    RunKeepsSound(start, from, run);
    if LastTime(from, run) <= last.now && Next(w, last.step, last.now, last.world) && Raised(w.pool, last.world.pool, id) {
      SoundLater(w, LastTime(from, run), last.now);
      NextBlamesFairly(w, last.step, last.now, last.world, id);
    }
  }

  /**
   Either an unresolved attempt of the current generation fails on the front itself, or a batch is behind
   the step and two different endpoints failed within the all-ambiguous end of the history.
   */
  ghost predicate OpenedFairly(w: World, step: Step) {
    match step
    case FrontStep(op) => op.Fail? && op.id in w.front.open && w.front.open[op.id].generation == w.front.circuit.generation
    case Move(k, _) => k in w.calls && FrontSuspected(w.front, w.calls[k].probes)
    case PutBatch(r) => r in w.rounds && FrontSuspected(w.front, AsProbes(w.rounds[r].results))
    case _ => false
  }

  /**
   Two witnesses: in every run the circuit opens only by an attempt's own shared failure, or by a batch
   with two different endpoints inside the all-ambiguous end of the history.
   */
  lemma CircuitOpensFairly(start: World, from: Time, run: seq<Moment>, last: Moment)
    requires Fresh(start, from) && Happens(start, from, run)
    ensures var w := LastWorld(start, run);
            && LastTime(from, run) <= last.now && Next(w, last.step, last.now, last.world)
            && last.world.front.circuit.generation > w.front.circuit.generation ==>
              OpenedFairly(w, last.step)
  {
    var w := LastWorld(start, run);
    RunKeepsSound(start, from, run);
    hide Happens, Next, Sound, OpenedFairly;
    if LastTime(from, run) <= last.now && Next(w, last.step, last.now, last.world)
       && last.world.front.circuit.generation > w.front.circuit.generation {
      SoundLater(w, LastTime(from, run), last.now);
      NextOpensFairly(w, last.step, last.now, last.world);
    }
  }

  lemma NextOpensFairly(w: World, step: Step, now: Time, next: World)
    requires Sound(w, now) && Next(w, step, now, next) && next.front.circuit.generation > w.front.circuit.generation
    ensures OpenedFairly(w, step)
  {
    hide LeasesOk, ShapeOk, NoneStranded, CallsOk, RoundsOk, PoolRuns.Apply, Advance, Judged, RecordHealth, FrontSuspected,
         Numbered, Summarises, AttemptsFit, StatusAgrees, Extremes, TwoWitnesses;
    match step
    case Move(k, input) =>
      CallsOkAt(w.front.history, w.calls, k);
      BatchHasTwoWitnesses(w.front, w.pool, w.calls[k], input);
    case PutBatch(r) =>
      RoundsOkAt(w.front.history, w.rounds, r);
      var (first, last) := w.rounds[r].batch.value;
      RoundHasTwoWitnesses(w.front, w.rounds[r].results, first, last);
    case _ =>
  }

  lemma FinishedHoldsNothing(h: History, call: Call)
    requires CallOk(h, call) && call.phase.Finished?
    ensures Held(call) == {}
  {
    assert Ids([]) == {};
  }

  /**
   Nobody is stranded: in every run a proxy is being checked only for a call that still has to give it
   back, no unexpired lease is on it, and once all calls have finished none is being checked.
   */
  lemma NoProxyIsStranded(start: World, from: Time, run: seq<Moment>, id: ProxyId)
    requires Fresh(start, from) && Happens(start, from, run)
    ensures var w := LastWorld(start, run);
            id in w.pool.proxies && w.pool.proxies[id].status == ProxyChecking ==>
              && (exists k :: k in w.calls && !w.calls[k].phase.Finished? && id in Held(w.calls[k])
                              && w.pool.proxies[id].client == Some(w.calls[k].client))
              && NoneLive(w.pool.leases, LastTime(from, run), id)
  {
    var w := LastWorld(start, run);
    RunKeepsSound(start, from, run);
    hide Happens, CallOk, RoundsOk, Exact, Exclusive, NoneLive, Held;
    if id in w.pool.proxies && w.pool.proxies[id].status == ProxyChecking {
      assert LeaseOk(w.pool.leases, LastTime(from, run), id, w.pool.proxies[id]);
      assert HasHolder(w.calls, w.pool, id);
      var k :| Holder(w.calls, k, id, CheckingFor(w.pool, id).value);
      CallsOkAt(w.front.history, w.calls, k);
      if w.calls[k].phase.Finished? {
        FinishedHoldsNothing(w.front.history, w.calls[k]);
      }
    }
  }

  /** Exclusivity holds with lease calls and health rounds in flight, too. */
  lemma LeasesStayExclusive(start: World, from: Time, run: seq<Moment>, c: Client, d: Client, id: ProxyId)
    requires Fresh(start, from) && Happens(start, from, run)
    ensures var leases, now := LastWorld(start, run).pool.leases, LastTime(from, run);
            LiveOn(leases, now, c, id) && LiveOn(leases, now, d, id) ==> c == d
  {
    RunKeepsSound(start, from, run);
    hide Happens, CallOk, RoundsOk, Exact, NoneStranded;
  }

  // ---- Bookkeeping ----

  /**
   In every run the order lists exactly the proxies, each once, no client is queued twice in a queue, and
   the tables hold exactly the leases in memory, cut to the second, and each proxy's rows.
   */
  lemma TablesMirrorLeases(start: World, from: Time, run: seq<Moment>, c: Client, id: ProxyId)
    requires Fresh(start, from) && Happens(start, from, run)
    ensures var s := LastWorld(start, run).pool;
            && NoDuplicates(s.order) && (id in s.order <==> id in s.proxies)
            && NoDuplicates(s.pendingNew) && NoDuplicates(s.pendingRefs)
            && (c in s.disk.leases <==> c in s.leases) && (c in s.leases ==> s.disk.leases[c] == Stored(s.leases[c]))
            && (id in s.proxies ==> Saved(s.disk, id, s.proxies[id]))
  {
    RunKeepsSound(start, from, run);
    hide Happens, CallOk, RoundsOk, Exact, NoneStranded, NoDuplicates, Saved;
  }

  lemma NextKeepsFifo(w: World, step: Step, now: Time, next: World)
    requires Sound(w, now) && Next(w, step, now, next)
    ensures FifoStep(w.pool.pendingNew, next.pool.pendingNew) && FifoStep(w.pool.pendingRefs, next.pool.pendingRefs)
  {
    hide Exact, LeasesOk, ShapeOk, NoneStranded, CallsOk, RoundsOk, PoolRuns.Apply, FrontLedger.Apply, Advance, Judged, RecordHealth,
         FifoStep;
    UntouchedIsFifo(w.pool.pendingNew);
    UntouchedIsFifo(w.pool.pendingRefs);
    match step
    case Outside(s) => ApplyKeepsShape(w.pool, s, now);
    case Move(k, input) => AdvanceKeepsShape(w.front, w.pool, w.calls[k], input);
    case Deliver(r, ft, st) =>
      var v := w.rounds[r].verdicts[0];
      HealthKeepsShape(w.pool, v.proxyId, v.passed, ft, st, now);
    case _ =>
  }

  lemma UntouchedIsFifo(queue: seq<Client>)
    ensures FifoStep(queue, queue)
  {
    SubsequenceReflexive(queue);
    EnqueueIsFifo(queue, queue, 0);
  }

  /** In every run each step keeps the order of both queues and lets at most one client join, at the end. */
  lemma QueuesAreFifo(start: World, from: Time, run: seq<Moment>, last: Moment)
    requires Fresh(start, from) && Happens(start, from, run)
    ensures var w := LastWorld(start, run);
            LastTime(from, run) <= last.now && Next(w, last.step, last.now, last.world) ==>
              && FifoStep(w.pool.pendingNew, last.world.pool.pendingNew)
              && FifoStep(w.pool.pendingRefs, last.world.pool.pendingRefs)
  {
    hide Sound, Next, Happens, FifoStep;
    var w := LastWorld(start, run);
    RunKeepsSound(start, from, run);
    if LastTime(from, run) <= last.now && Next(w, last.step, last.now, last.world) {
      SoundLater(w, LastTime(from, run), last.now);
      NextKeepsFifo(w, last.step, last.now, last.world);
    }
  }

  // ---- Connections ----

  /** No busy proxy without a lease is made idle, and connections are unregistered where they were made. */
  ghost predicate Careful(w: World, step: Step, now: Time) {
    match step
    case Outside(s) => PoolRuns.Careful(w.pool, s, now)
    case Deliver(r, _, _) =>
      r in w.rounds && w.rounds[r].verdicts != [] && w.rounds[r].verdicts[0].passed ==>
        !RecoversBusy(w.pool, w.rounds[r].verdicts[0].proxyId, now)
    case _ => true
  }

  ghost predicate AllCareful(w: World, run: seq<Moment>)
    decreases |run|
  {
    run == [] || (Careful(w, run[0].step, run[0].now) && AllCareful(run[0].world, run[1..]))
  }

  lemma NextKeepsConns(w: World, step: Step, now: Time, next: World)
    requires Sound(w, now) && ConnsOk(w.pool, now) && Next(w, step, now, next) && Careful(w, step, now)
    ensures ConnsOk(next.pool, now)
  {
    hide Exact, LeasesOk, ConnsOk, ShapeOk, NoneStranded, CallsOk, RoundsOk, PoolRuns.Apply, FrontLedger.Apply, Advance, Judged,
         RecoversBusy, PoolRuns.Careful, RecordHealth;
    match step
    case Outside(s) => PoolRuns.ApplyKeepsConns(w.pool, s, now);
    case Move(k, input) => AdvanceKeepsConns(w.front, w.pool, w.calls[k], input);
    case Deliver(r, ft, st) =>
      var v := w.rounds[r].verdicts[0];
      HealthKeepsConns(w.pool, v.proxyId, v.passed, ft, st, now);
    case _ =>
  }

  lemma {:induction false} RunKeepsConns(w: World, from: Time, run: seq<Moment>)
    requires Sound(w, from) && ConnsOk(w.pool, from) && Happens(w, from, run) && AllCareful(w, run)
    ensures ConnsOk(LastWorld(w, run).pool, LastTime(from, run))
    decreases |run|
  {
    hide Sound, ConnsOk, Next, Careful;
    if run != [] {
      SoundLater(w, from, run[0].now);
      TimePasses(w.pool, from, run[0].now);
      NextKeepsSound(w, run[0].step, run[0].now, run[0].world);
      NextKeepsConns(w, run[0].step, run[0].now, run[0].world);
      RunKeepsConns(run[0].world, run[0].now, run[1..]);
    }
  }

  /**
   Conservation and isolation with lease calls and health rounds in flight: unless a busy proxy without a
   lease is made idle, a proxy's count is the number of its registered connections, and they all belong to one client.
   */
  lemma ConnectionsStayIsolated(start: World, from: Time, run: seq<Moment>, id: ProxyId)
    requires Fresh(start, from) && Happens(start, from, run) && AllCareful(start, run)
    ensures var s := LastWorld(start, run).pool;
            id in s.proxies ==>
              && s.proxies[id].activeConns == |On(s.via, id)|
              && (forall k, j :: k in On(s.via, id) && j in On(s.via, id) ==> k.0 == j.0)
              && (s.proxies[id].status in {ProxyIdle, ProxyChecking, ProxyDisabled} ==> On(s.via, id) == {})
  {
    RunKeepsConns(start, from, run);
    hide Happens, AllCareful, OwnerOk;
    var (s, now) := (LastWorld(start, run).pool, LastTime(from, run));
    if id in s.proxies {
      assert ConnOk(s.leases, s.via, now, id, s.proxies[id]);
      if s.proxies[id].status in {ProxyIdle, ProxyChecking, ProxyDisabled} {
        QuietStatus(s.leases, s.via, now, id, s.proxies[id]);
      }
    }
  }
}
