/**
 The per-client gate that serialises dynamic leases: created by the first caller, counted, and
 forgotten with the last. Gate objects are named by numbers that are never reused.
 */
module DynamicGates {
  import opened Common

  // Waiting for the token, holding it, or on the way out with only the reference left to drop.
  datatype Stage = Waiting | Holding | Leaving

  datatype Caller = Caller(client: Client, gate: nat, stage: Stage)

  datatype Gate = Gate(refs: int, taken: bool)

  // `callers` is the bookkeeping of the proof: who has registered and not yet dropped out.
  datatype Table = Table(gates: map<Client, nat>, objects: map<nat, Gate>, callers: map<nat, Caller>)

  datatype Step =
    | Arrive(id: nat, client: Client, unused: nat)
    | Acquire(id: nat)
    | Cancel(id: nat)
    | Unlock(id: nat)
    | DropRef(id: nat)

  const EMPTY := Table(map[], map[], map[])

  function AfterArrive(t: Table, id: nat, client: Client, unused: nat): Table {
    var g := if client in t.gates then t.gates[client] else unused;
    var was := if client in t.gates && g in t.objects then t.objects[g] else Gate(0, false);
    Table(t.gates[client := g], t.objects[g := was.(refs := was.refs + 1)],
          t.callers[id := Caller(client, g, Waiting)])
  }

  function AfterDropRef(t: Table, caller: Caller): Table
    requires caller.gate in t.objects
  {
    var gate := t.objects[caller.gate];
    var refs := gate.refs - 1;
    t.(objects := t.objects[caller.gate := gate.(refs := refs)],
       gates := if refs == 0 then t.gates - {caller.client} else t.gates)
  }

  predicate Enabled(t: Table, step: Step) {
    match step
    case Arrive(id, client, unused) => id !in t.callers && unused !in t.objects
    case Acquire(id) =>
      id in t.callers && t.callers[id].stage == Waiting
      && t.callers[id].gate in t.objects && !t.objects[t.callers[id].gate].taken
    case Cancel(id) => id in t.callers && t.callers[id].stage == Waiting
    case Unlock(id) => id in t.callers && t.callers[id].stage == Holding && t.callers[id].gate in t.objects
    case DropRef(id) => id in t.callers && t.callers[id].stage == Leaving && t.callers[id].gate in t.objects
  }

  function SetTaken(t: Table, id: nat, taken: bool, stage: Stage): Table
    requires id in t.callers && t.callers[id].gate in t.objects
  {
    var c := t.callers[id];
    t.(objects := t.objects[c.gate := t.objects[c.gate].(taken := taken)], callers := t.callers[id := c.(stage := stage)])
  }

  function Apply(t: Table, step: Step): Table {
    if !Enabled(t, step) then t
    else match step
         case Arrive(id, client, unused) => AfterArrive(t, id, client, unused)
         case Acquire(id) => SetTaken(t, id, true, Holding)
         case Cancel(id) => t.(callers := t.callers[id := t.callers[id].(stage := Leaving)])
         case Unlock(id) => SetTaken(t, id, false, Leaving)
         case DropRef(id) => AfterDropRef(t, t.callers[id]).(callers := t.callers - {id})
  }

  function Run(t: Table, steps: seq<Step>): Table
    decreases |steps|
  {
    if steps == [] then t else Run(Apply(t, steps[0]), steps[1..])
  }

  // ---- The invariant ----

  ghost function Registered(t: Table, g: nat): set<nat> {
    set id | id in t.callers && t.callers[id].gate == g
  }

  ghost function Holders(t: Table, g: nat): set<nat> {
    set id | id in t.callers && t.callers[id].gate == g && t.callers[id].stage == Holding
  }

  /** Every registered caller of a client shares the one gate that the map has for it. */
  ghost predicate Shared(t: Table) {
    && (forall id :: id in t.callers ==>
          t.callers[id].client in t.gates && t.gates[t.callers[id].client] == t.callers[id].gate)
    && (forall c :: c in t.gates ==> t.gates[c] in t.objects)
    && (forall c, d :: c in t.gates && d in t.gates && t.gates[c] == t.gates[d] ==> c == d)
  }

  /** References are registered callers, and the token is out exactly while one caller holds it. */
  ghost predicate Counted(t: Table, g: nat) {
    && (g in t.objects ==> t.objects[g].refs == |Registered(t, g)| && (t.objects[g].taken <==> Holders(t, g) != {}))
    && |Holders(t, g)| <= 1
  }

  /** A gate is in the map exactly while it has callers. */
  ghost predicate Needed(t: Table) {
    forall c :: c in t.gates ==> Registered(t, t.gates[c]) != {}
  }

  ghost predicate Sound(t: Table) {
    Shared(t) && Needed(t) && forall g :: Counted(t, g)
  }

  lemma EmptyIsSound()
    ensures Sound(EMPTY)
  {
  }

  /** What one changed caller does to the sets of callers. */
  lemma CallerChanged(t: Table, after: Table, id: nat)
    requires after.callers.Keys - {id} == t.callers.Keys - {id}
    requires forall i :: i in t.callers && i in after.callers && i != id ==> after.callers[i] == t.callers[i]
    ensures forall g :: Registered(after, g) - {id} == Registered(t, g) - {id}
    ensures forall g :: Holders(after, g) - {id} == Holders(t, g) - {id}
  {
    forall g
      ensures Registered(after, g) - {id} == Registered(t, g) - {id}
      ensures Holders(after, g) - {id} == Holders(t, g) - {id}
    {
      assert forall i :: i != id ==> (i in after.callers <==> i in after.callers.Keys - {id});
      assert forall i :: i != id ==> (i in t.callers <==> i in t.callers.Keys - {id});
    }
  }

  /** A caller that joins or leaves a gate moves its count by one; others are as before. */
  lemma CountsFollow(t: Table, after: Table, id: nat, g: nat)
    requires Counted(t, g)
    requires Registered(after, g) - {id} == Registered(t, g) - {id}
    requires Holders(after, g) - {id} == Holders(t, g) - {id}
    requires g in after.objects ==>
               var was := if g in t.objects then t.objects[g] else Gate(|Registered(t, g)|, Holders(t, g) != {});
               && after.objects[g].refs == was.refs
                    + (if id in Registered(after, g) then 1 else 0) - (if id in Registered(t, g) then 1 else 0)
               && (after.objects[g].taken <==> id in Holders(after, g) || (was.taken && id !in Holders(t, g)))
    requires id in Holders(after, g) ==> id in Holders(t, g) || Holders(t, g) == {}
    ensures Counted(after, g)
  {
    hide Registered, Holders;
    SizeMoves(Registered(t, g), Registered(after, g), id);
    AtMostOneStays(Holders(t, g), Holders(after, g), id);
  }

  lemma SizeMoves(s: set<nat>, s': set<nat>, id: nat)
    requires s' - {id} == s - {id}
    ensures |s'| == |s| + (if id in s' then 1 else 0) - (if id in s then 1 else 0)
  {
    assert s' == if id in s' then (s - {id}) + {id} else s - {id};
    assert s == if id in s then (s - {id}) + {id} else s - {id};
  }

  lemma AtMostOneStays(s: set<nat>, s': set<nat>, id: nat)
    requires |s| <= 1 && s' - {id} == s - {id}
    requires id in s' ==> id in s || s == {}
    ensures |s'| <= 1
    ensures s' != {} <==> id in s' || (s != {} && id !in s)
  {
    SizeMoves(s, s', id);
    if id in s {
      assert |s - {id}| == 0;
    }
  }

  lemma ArriveKeepsSound(t: Table, id: nat, client: Client, unused: nat)
    requires Sound(t) && Enabled(t, Arrive(id, client, unused))
    ensures Sound(AfterArrive(t, id, client, unused))
  {
    var after := AfterArrive(t, id, client, unused);
    var g := after.gates[client];
    CallerChanged(t, after, id);
    assert Registered(t, unused) == {} && Holders(t, unused) == {} && id in Registered(after, g);
    forall h ensures Counted(after, h) {
      assert Counted(t, h);
      CountsFollow(t, after, id, h);
    }
    assert forall h :: Registered(after, h) >= Registered(t, h);
  }

  lemma DropRefKeepsSound(t: Table, id: nat)
    requires Sound(t) && Enabled(t, DropRef(id))
    ensures Sound(Apply(t, DropRef(id)))
  {
    var after, g := Apply(t, DropRef(id)), t.callers[id].gate;
    CallerChanged(t, after, id);
    forall h ensures Counted(after, h) {
      assert Counted(t, h);
      CountsFollow(t, after, id, h);
    }
    assert Counted(after, g);
    assert forall h :: h != g ==> Registered(after, h) == Registered(t, h);
    assert Shared(after) by {
      forall i | i in after.callers ensures after.callers[i].client in after.gates {
        assert after.callers[i].client == t.callers[id].client ==> i in Registered(after, g);
      }
    }
  }

  lemma StageKeepsSound(t: Table, id: nat, step: Step)
    requires Sound(t) && Enabled(t, step) && step in {Acquire(id), Cancel(id), Unlock(id)}
    ensures Sound(Apply(t, step))
  {
    hide Counted, Registered, Holders;
    var after := Apply(t, step);
    forall h ensures Counted(after, h) && Registered(after, h) == Registered(t, h) {
      StageCounts(t, id, step, h);
    }
  }

  lemma StageCounts(t: Table, id: nat, step: Step, h: nat)
    requires Sound(t) && Enabled(t, step) && step in {Acquire(id), Cancel(id), Unlock(id)}
    ensures Counted(Apply(t, step), h) && Registered(Apply(t, step), h) == Registered(t, h)
  {
    var after := Apply(t, step);
    CallerChanged(t, after, id);
    assert Counted(t, h);
    assert id in Registered(after, h) <==> id in Registered(t, h);
    assert Registered(after, h) == Registered(t, h);
    CountsFollow(t, after, id, h);
  }

  lemma ApplyKeepsSound(t: Table, step: Step)
    requires Sound(t)
    ensures Sound(Apply(t, step))
  {
    if Enabled(t, step) {
      match step
      case Arrive(id, client, unused) => ArriveKeepsSound(t, id, client, unused);
      case DropRef(id) => DropRefKeepsSound(t, id);
      case Acquire(id) => StageKeepsSound(t, id, step);
      case Cancel(id) => StageKeepsSound(t, id, step);
      case Unlock(id) => StageKeepsSound(t, id, step);
    }
  }

  /** Over any interleaving of arrivals, acquisitions, cancellations and releases. */
  lemma {:induction false} RunKeepsSound(t: Table, steps: seq<Step>)
    requires Sound(t)
    ensures Sound(Run(t, steps))
    decreases |steps|
  {
    if steps != [] {
      ApplyKeepsSound(t, steps[0]);
      RunKeepsSound(Apply(t, steps[0]), steps[1..]);
    }
  }

  /** One gate shared by a client's callers, mutual exclusion, and no gate outlives its callers. */
  lemma OneHolderPerClient(steps: seq<Step>)
    ensures var t := Run(EMPTY, steps);
            && (forall i, j :: i in t.callers && j in t.callers ==>
                  (t.callers[i].client == t.callers[j].client <==> t.callers[i].gate == t.callers[j].gate))
            && (forall i :: i in t.callers ==> t.callers[i].client in t.gates && t.gates[t.callers[i].client] == t.callers[i].gate)
            && (forall i, j :: i in t.callers && j in t.callers
                  && t.callers[i].client == t.callers[j].client
                  && t.callers[i].stage == Holding && t.callers[j].stage == Holding
                  ==> i == j)
            && (forall c :: c in t.gates <==> exists i :: i in t.callers && t.callers[i].client == c)
  {
    EmptyIsSound();
    RunKeepsSound(EMPTY, steps);
    var t := Run(EMPTY, steps);
    forall i, j | i in t.callers && j in t.callers && t.callers[i].client == t.callers[j].client
                  && t.callers[i].stage == Holding && t.callers[j].stage == Holding
      ensures i == j
    {
      var h := Holders(t, t.callers[i].gate);
      assert i in h && j in h && Counted(t, t.callers[i].gate);
      assert |h - {i}| == 0;
    }
    forall c | c in t.gates ensures exists i :: i in t.callers && t.callers[i].client == c {
      var i :| i in Registered(t, t.gates[c]);
      assert t.gates[t.callers[i].client] == t.gates[c];
    }
  }

  // ---- The table as the code keeps it ----

  class GateTable {
    var gates: map<Client, nat>
    var objects: map<nat, Gate>
    ghost var callers: map<nat, Caller>

    ghost function View(): Table
      reads this
    {
      Table(gates, objects, callers)
    }

    constructor ()
      ensures View() == EMPTY
    {
      gates, objects, callers := map[], map[], map[];
    }

    /** Registers a caller; `unused` is the identity a new gate object would get. */
    method Register(client: Client, unused: nat, ghost id: nat) returns (gate: nat)
      requires Sound(View()) && Enabled(View(), Arrive(id, client, unused))
      modifies this
      ensures Sound(View()) && View() == Apply(old(View()), Arrive(id, client, unused))
      ensures id in callers && callers[id] == Caller(client, gate, Waiting)
    {
      assert client in gates ==> gates[client] in objects;
      hide Sound;
      ArriveKeepsSound(View(), id, client, unused);
      if client in gates {
        gate := gates[client];
      } else {
        gate := unused;
        objects := objects[gate := Gate(0, false)];
      }
      gates := gates[client := gate];
      objects := objects[gate := objects[gate].(refs := objects[gate].refs + 1)];
      callers := callers[id := Caller(client, gate, Waiting)];
      assert View().objects == AfterArrive(old(View()), id, client, unused).objects;
    }

    method TakeToken(gate: nat, ghost id: nat)
      requires Sound(View()) && Enabled(View(), Acquire(id)) && callers[id].gate == gate
      modifies this
      ensures Sound(View()) && View() == Apply(old(View()), Acquire(id))
    {
      hide Sound;
      StageKeepsSound(View(), id, Acquire(id));
      objects := objects[gate := objects[gate].(taken := true)];
      callers := callers[id := callers[id].(stage := Holding)];
    }

    method ReturnToken(gate: nat, ghost id: nat)
      requires Sound(View()) && Enabled(View(), Unlock(id)) && callers[id].gate == gate
      modifies this
      ensures Sound(View()) && View() == Apply(old(View()), Unlock(id))
    {
      hide Sound;
      StageKeepsSound(View(), id, Unlock(id));
      objects := objects[gate := objects[gate].(taken := false)];
      callers := callers[id := callers[id].(stage := Leaving)];
    }

    method ReleaseRef(client: Client, gate: nat, ghost id: nat)
      requires Sound(View()) && Enabled(View(), DropRef(id)) && callers[id].gate == gate && callers[id].client == client
      modifies this
      ensures Sound(View()) && View() == Apply(old(View()), DropRef(id))
    {
      hide Sound;
      DropRefKeepsSound(View(), id);
      objects := objects[gate := objects[gate].(refs := objects[gate].refs - 1)];
      if objects[gate].refs == 0 {
        gates := gates - {client};
      }
      callers := callers - {id};
    }
  }
}
