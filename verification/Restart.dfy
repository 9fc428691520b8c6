/**
 Starting from the tables on disk: which proxies and leases come back, and what is erased. The rows
 are listed in whatever order the database gives them.
 */
module Restart {
  import opened Common
  import opened Addresses
  import opened Pool
  import opened PoolSafety
  import opened PoolShape

  datatype Configured = Configured(id: ProxyId, address: Address)

  datatype Start = Started(state: State) | Conflict

  // ---- What should come back ----

  /** The proxy rows after the configured proxies were saved, which also enables them. */
  function Configure(rows: map<ProxyId, Row>, configured: seq<Configured>): map<ProxyId, Row> {
    if configured == [] then rows
    else
      var last := configured[|configured| - 1];
      Configure(rows, configured[..|configured| - 1])[last.id := Row(last.address, false)]
  }

  predicate Conflicts(front: Option<Address>, address: Address) {
    front.Some? && SameEndpoint(address, front.value)
  }

  /** The row is there, and the provider's term, if it has one, has not ended. */
  predicate RowKept(d: Disk, now: Time, id: ProxyId) {
    id in d.proxies && (id in d.dynamics ==> now < d.dynamics[id])
  }

  /** When a lease row ends: a dynamic proxy's term may cut it short. */
  function Term(d: Disk, l: Lease): Time {
    if l.proxyId in d.dynamics && d.dynamics[l.proxyId] < l.expiresAt then d.dynamics[l.proxyId] else l.expiresAt
  }

  predicate LeaseKept(d: Disk, now: Time, c: Client) {
    c in d.leases && RowKept(d, now, d.leases[c].proxyId) && now < Term(d, d.leases[c])
  }

  function RestoredLease(d: Disk, c: Client): Lease
    requires c in d.leases
  {
    d.leases[c].(expiresAt := Term(d, d.leases[c]))
  }

  function RestoredLeases(d: Disk, now: Time): Leases {
    map c | c in d.leases && LeaseKept(d, now, c) :: RestoredLease(d, c)
  }

  /** A proxy as its rows describe it, before any lease is attached. */
  function FromRow(d: Disk, id: ProxyId): Proxy
    requires id in d.proxies
  {
    Proxy(d.proxies[id].address, if d.proxies[id].disabled then ProxyDisabled else ProxyIdle, None, None, 0, 0, 0,
          d.proxies[id].disabled, if id in d.dynamics then ApiSource else PoolSource,
          if id in d.dynamics then d.dynamics[id] else 0)
  }

  /** `p` is bound to some lease on `id`, or as its rows say if there is none. */
  ghost predicate BoundByLease(d: Disk, leases: Leases, id: ProxyId, p: Proxy) {
    && id in d.proxies
    && if exists c :: c in leases && leases[c].proxyId == id
       then exists c :: BoundTo(d, leases, id, p, c)
       else p == FromRow(d, id)
  }

  ghost predicate BoundTo(d: Disk, leases: Leases, id: ProxyId, p: Proxy, c: Client) {
    && c in leases && leases[c].proxyId == id && id in d.proxies
    && p == FromRow(d, id).(status := ProxyActive, client := Some(c))
  }

  /** A dynamic proxy must also have an unexpired lease. */
  predicate Present(d: Disk, now: Time, later: Time, id: ProxyId) {
    RowKept(d, now, id) && (id in d.dynamics ==> HasLive(RestoredLeases(d, now), later, id))
  }

  /** The state that starting from `d` must produce, in memory and on disk. */
  ghost predicate Restored(d: Disk, now: Time, later: Time, s: State) {
    && s.leases == RestoredLeases(d, now)
    && s.proxies.Keys == (set id | id in d.proxies && Present(d, now, later, id))
    && (forall id :: id in s.proxies ==> BoundByLease(d, s.leases, id, s.proxies[id]))
    && OrderOk(s)
    && s.pendingNew == [] && s.pendingRefs == [] && s.via == map[]
    && s.disk.leases == (map c | c in s.leases :: d.leases[c])
    && s.disk.proxies == (map id | id in s.proxies :: d.proxies[id])
    && s.disk.dynamics == (map id | id in s.proxies && id in d.dynamics :: d.dynamics[id])
  }

  // ---- The tables while it starts ----

  /** The tables without some proxies' rows and some clients' leases. */
  function Erased(d: Disk, gone: set<ProxyId>, dropped: set<Client>): Disk {
    EraseProxy(d, gone).(leases := d.leases - dropped)
  }

  ghost predicate Erasure(d: Disk, left: Disk) {
    exists gone, dropped :: left == Erased(d, gone, dropped)
  }

  /** The first `i` configured proxies saved. */
  function SavedFirst(stored: Disk, configured: seq<Configured>, i: nat): Disk
    requires i <= |configured|
  {
    stored.(proxies := Configure(stored.proxies, configured[..i]))
  }

  /** What the tables can be at any moment of a start: some configured proxies saved, some rows erased. */
  ghost predicate DuringStart(stored: Disk, configured: seq<Configured>, left: Disk) {
    exists i: nat :: i <= |configured| && Erasure(SavedFirst(stored, configured, i), left)
  }

  // The calls that a start makes to the database.
  datatype DbCall = SaveProxyRow(id: ProxyId, row: Row) | DeleteProxyRows(id: ProxyId) | DeleteLeaseRow(c: Client)

  function Called(d: Disk, call: DbCall): Disk {
    match call
    case SaveProxyRow(id, row) => d.(proxies := d.proxies[id := row])
    case DeleteProxyRows(id) => EraseProxy(d, {id})
    case DeleteLeaseRow(c) => d.(leases := d.leases - {c})
  }

  /** The tables after some calls. */
  function After(d: Disk, calls: seq<DbCall>): Disk {
    if calls == [] then d else Called(After(d, calls[..|calls| - 1]), calls[|calls| - 1])
  }

  /** The calls lead from `d` to `disk`, and everything on the way only lacks rows. */
  ghost predicate Erases(d: Disk, calls: seq<DbCall>, disk: Disk) {
    After(d, calls) == disk && forall i :: 0 <= i <= |calls| ==> Erasure(d, After(d, calls[..i]))
  }

  lemma NothingErased(d: Disk)
    ensures Erasure(d, d)
  {
    assert d == Erased(d, {}, {});
  }

  lemma ErasesNothing(d: Disk)
    ensures Erases(d, [], d)
  {
    NothingErased(d);
  }

  lemma EraseMore(d: Disk, left: Disk, call: DbCall)
    requires Erasure(d, left) && !call.SaveProxyRow?
    ensures Erasure(d, Called(left, call))
  {
    var gone, dropped :| left == Erased(d, gone, dropped);
    if call.DeleteProxyRows? {
      assert Called(left, call) == Erased(d, gone + {call.id}, dropped);
    } else {
      assert Called(left, call) == Erased(d, gone, dropped + {call.c});
    }
  }

  lemma ErasesMore(d: Disk, calls: seq<DbCall>, disk: Disk, call: DbCall)
    requires Erases(d, calls, disk) && !call.SaveProxyRow?
    ensures Erases(d, calls + [call], Called(disk, call))
  {
    hide Erasure, Called;
    var more := calls + [call];
    assert more[..|calls|] == calls && calls[..|calls|] == calls && more[..|more|] == more;
    EraseMore(d, disk, call);
    forall i | 0 <= i <= |more| ensures Erasure(d, After(d, more[..i])) {
      if i <= |calls| {
        assert more[..i] == calls[..i];
      }
    }
  }

  // ---- The start itself ----

  /** Lists the keys of a table. */
  method List(keys: set<int>) returns (rows: seq<int>)
    ensures NoDuplicates(rows) && forall k :: k in rows <==> k in keys
  {
    rows := [];
    var rest := keys;
    while rest != {}
      invariant NoDuplicates(rows)
      invariant forall k :: k in keys <==> (k in rows || k in rest)
      invariant forall k :: k in rows ==> k !in rest
      decreases rest
    {
      SomeMember(rest);
      var k :| k in rest;
      rows := rows + [k];
      rest := rest - {k};
    }
  }

  /** Saves the configured proxies, unless one of them has the front's own address. */
  method SaveConfigured(front: Option<Address>, configured: seq<Configured>, rows: map<ProxyId, Row>)
    returns (table: map<ProxyId, Row>, conflict: bool, ghost saved: nat)
    ensures conflict <==> exists i :: 0 <= i < |configured| && Conflicts(front, configured[i].address)
    ensures saved <= |configured| && table == Configure(rows, configured[..saved])
    ensures !conflict ==> saved == |configured| && table == Configure(rows, configured)
  {
    table := rows;
    var i := 0;
    while i < |configured|
      invariant 0 <= i <= |configured|
      invariant table == Configure(rows, configured[..i])
      invariant forall j :: 0 <= j < i ==> !Conflicts(front, configured[j].address)
    {
      var p := configured[i];
      if Conflicts(front, p.address) {
        return table, true, i;
      }
      table := table[p.id := Row(p.address, false)];
      assert configured[..i + 1][..i] == configured[..i];
      i := i + 1;
    }
    assert configured[..i] == configured;
    return table, false, i;
  }

  /** Whatever the first `i` listed rows amount to. */
  ghost predicate Loaded(d: Disk, now: Time, seen: set<ProxyId>, proxies: map<ProxyId, Proxy>, disk: Disk) {
    && proxies == (map id | id in seen && RowKept(d, now, id) :: FromRow(d, id))
    && disk == EraseProxy(d, set id | id in seen && !RowKept(d, now, id))
  }

  lemma LoadedNothing(d: Disk, now: Time)
    ensures Loaded(d, now, {}, map[], d)
  {
  }

  lemma LoadedSkip(d: Disk, now: Time, seen: set<ProxyId>, id: ProxyId, proxies: map<ProxyId, Proxy>, disk: Disk)
    requires Loaded(d, now, seen, proxies, disk) && !RowKept(d, now, id)
    ensures Loaded(d, now, seen + {id}, proxies, EraseProxy(disk, {id}))
  {
  }

  lemma LoadedKeep(d: Disk, now: Time, seen: set<ProxyId>, id: ProxyId, proxies: map<ProxyId, Proxy>, disk: Disk)
    requires Loaded(d, now, seen, proxies, disk) && RowKept(d, now, id)
    ensures Loaded(d, now, seen + {id}, proxies[id := FromRow(d, id)], disk)
  {
  }

  lemma LoadedRest(d: Disk, now: Time, proxies: map<ProxyId, Proxy>, disk: Disk)
    requires Loaded(d, now, d.proxies.Keys, proxies, disk)
    ensures Loaded(d, now, d.proxies.Keys + d.dynamics.Keys, proxies, EraseProxy(disk, d.dynamics.Keys - d.proxies.Keys))
  {
  }

  lemma LoadedKeys(d: Disk, now: Time, seen: set<ProxyId>, proxies: map<ProxyId, Proxy>, disk: Disk)
    requires Loaded(d, now, seen, proxies, disk)
    ensures forall id :: id in proxies ==> id in seen
  {
  }

  lemma EmptyDistinct()
    ensures NoDuplicates<int>([])
  {
  }

  function Listed(rows: seq<int>, i: nat): set<int>
    requires i <= |rows|
  {
    set k | k in rows[..i]
  }

  lemma ListedAll(rows: seq<int>, keys: set<int>)
    requires forall k :: k in rows <==> k in keys
    ensures Listed(rows, |rows|) == keys
  {
    assert rows[..|rows|] == rows;
    assert forall k :: k in Listed(rows, |rows|) <==> k in keys;
  }

  /** One more row listed. */
  lemma ListedNext(rows: seq<int>, i: nat, seen: set<int>)
    requires NoDuplicates(rows) && i < |rows| && seen == Listed(rows, i)
    ensures rows[i] !in seen && seen + {rows[i]} == Listed(rows, i + 1)
  {
    assert rows[..i + 1] == rows[..i] + [rows[i]];
  }

  method LoadProxies(front: Option<Address>, d: Disk, now: Time)
    returns (proxies: map<ProxyId, Proxy>, order: seq<ProxyId>, disk: Disk, conflict: bool, ghost calls: seq<DbCall>)
    ensures Erases(d, calls, disk)
    ensures conflict <==> exists id :: id in d.proxies && Conflicts(front, d.proxies[id].address)
    ensures !conflict ==> Loaded(d, now, d.proxies.Keys + d.dynamics.Keys, proxies, disk)
    ensures !conflict ==> NoDuplicates(order) && forall id :: id in order <==> id in proxies
  {
    hide Loaded, NoDuplicates, Conflicts, Erases, EraseProxy;
    calls := [];
    ErasesNothing(d);
    var rows := List(d.proxies.Keys);
    var dynamicById := d.dynamics;
    proxies, order, disk := map[], [], d;
    LoadedNothing(d, now);
    EmptyDistinct();
    ghost var seen := {};
    var i := 0;
    while i < |rows|
      invariant 0 <= i <= |rows|
      invariant seen == Listed(rows, i)
      invariant Loaded(d, now, seen, proxies, disk)
      invariant dynamicById == d.dynamics - seen
      invariant NoDuplicates(order) && forall id :: id in order <==> id in proxies
      invariant forall id :: id in seen ==> !Conflicts(front, d.proxies[id].address)
      invariant Erases(d, calls, disk)
    {
      var id := rows[i];
      ListedNext(rows, i, seen);
      if Conflicts(front, d.proxies[id].address) {
        return proxies, order, disk, true, calls;
      }
      if id in dynamicById && dynamicById[id] <= now {
        LoadedSkip(d, now, seen, id, proxies, disk);
        ErasesMore(d, calls, disk, DeleteProxyRows(id));
        disk := EraseProxy(disk, {id});
        calls := calls + [DeleteProxyRows(id)];
      } else {
        LoadedKeys(d, now, seen, proxies, disk);
        LoadedKeep(d, now, seen, id, proxies, disk);
        AppendDistinct(order, id);
        proxies := proxies[id := Proxy(d.proxies[id].address, if d.proxies[id].disabled then ProxyDisabled else ProxyIdle,
                                       None, None, 0, 0, 0, d.proxies[id].disabled,
                                       if id in dynamicById then ApiSource else PoolSource,
                                       if id in dynamicById then dynamicById[id] else 0)];
        order := order + [id];
      }
      dynamicById := dynamicById - {id};
      seen := seen + {id};
      i := i + 1;
    }
    ListedAll(rows, d.proxies.Keys);
    LoadedRest(d, now, proxies, disk);
    disk, calls := EraseAll(d, disk, dynamicById.Keys, calls);
    conflict := false;
  }

  /** Erases the rows of every listed proxy, one call after the other. */
  method EraseAll(ghost d: Disk, stored: Disk, ids: set<ProxyId>, ghost before: seq<DbCall>) returns (disk: Disk, ghost calls: seq<DbCall>)
    requires Erases(d, before, stored)
    ensures disk == EraseProxy(stored, ids) && Erases(d, calls, disk)
  {
    hide Erases;
    disk, calls := stored, before;
    var rest := ids;
    ghost var gone := {};
    while rest != {}
      invariant gone == ids - rest && rest <= ids && disk == EraseProxy(stored, gone)
      invariant Erases(d, calls, disk)
      decreases rest
    {
      SomeMember(rest);
      var id :| id in rest;
      rest := rest - {id};
      ErasesMore(d, calls, disk, DeleteProxyRows(id));
      disk := EraseProxy(disk, {id});
      gone := gone + {id};
      calls := calls + [DeleteProxyRows(id)];
    }
  }

  /** The leases of the listed clients are settled: attached and kept, or erased. */
  ghost predicate LeasesLoaded(d: Disk, now: Time, seen: set<Client>, leases: Leases, table: Leases) {
    && leases == (map c | c in seen && LeaseKept(d, now, c) :: RestoredLease(d, c))
    && table == (map c | c in d.leases && (c !in seen || LeaseKept(d, now, c)) :: d.leases[c])
  }

  lemma LeasesLoadedNothing(d: Disk, now: Time)
    ensures LeasesLoaded(d, now, {}, map[], d.leases)
  {
  }

  lemma LeasesLoadedDrop(d: Disk, now: Time, seen: set<Client>, c: Client, leases: Leases, table: Leases)
    requires LeasesLoaded(d, now, seen, leases, table) && c in d.leases && !LeaseKept(d, now, c)
    ensures LeasesLoaded(d, now, seen + {c}, leases, table - {c})
  {
  }

  lemma LeasesLoadedKeep(d: Disk, now: Time, seen: set<Client>, c: Client, leases: Leases, table: Leases)
    requires LeasesLoaded(d, now, seen, leases, table) && c !in seen && LeaseKept(d, now, c)
    ensures LeasesLoaded(d, now, seen + {c}, leases[c := RestoredLease(d, c)], table) && c !in leases
  {
  }

  lemma LeasesLoadedAll(d: Disk, now: Time, leases: Leases, table: Leases)
    requires LeasesLoaded(d, now, d.leases.Keys, leases, table)
    ensures leases == RestoredLeases(d, now) && table == map c | c in leases :: d.leases[c]
  {
  }

  ghost predicate AllBound(d: Disk, leases: Leases, proxies: map<ProxyId, Proxy>) {
    forall id :: id in proxies ==> BoundByLease(d, leases, id, proxies[id])
  }

  /** One more lease; its proxy becomes its client's, whatever it was before. */
  lemma AttachOne(d: Disk, leases: Leases, proxies: map<ProxyId, Proxy>, c: Client, l: Lease, more: Leases)
    requires AllBound(d, leases, proxies) && l.proxyId in proxies && c !in leases && more == leases[c := l]
    ensures AllBound(d, more, proxies[l.proxyId := proxies[l.proxyId].(status := ProxyActive, client := Some(c))])
  {
    var after := proxies[l.proxyId := proxies[l.proxyId].(status := ProxyActive, client := Some(c))];
    assert BoundByLease(d, leases, l.proxyId, proxies[l.proxyId]);
    assert BoundTo(d, more, l.proxyId, after[l.proxyId], c);
    forall id | id in after && id != l.proxyId ensures BoundByLease(d, more, id, after[id]) {
      assert BoundByLease(d, leases, id, proxies[id]);
      if e :| e in leases && leases[e].proxyId == id {
        var b :| BoundTo(d, leases, id, proxies[id], b);
        assert e in more && more[e].proxyId == id;
        assert BoundTo(d, more, id, after[id], b);
      }
    }
  }

  method LoadLeases(d: Disk, now: Time, loaded: map<ProxyId, Proxy>, ghost disk: Disk, ghost before: seq<DbCall>)
    returns (proxies: map<ProxyId, Proxy>, leases: Leases, table: Leases, ghost calls: seq<DbCall>)
    requires disk.leases == d.leases && Erases(d, before, disk)
    requires loaded == map id | id in d.proxies.Keys + d.dynamics.Keys && RowKept(d, now, id) :: FromRow(d, id)
    ensures proxies.Keys == loaded.Keys
    ensures leases == RestoredLeases(d, now) && table == map c | c in leases :: d.leases[c]
    ensures AllBound(d, leases, proxies) && Erases(d, calls, disk.(leases := table))
  {
    hide NoDuplicates, LeasesLoaded, AllBound, RestoredLeases, Erases;
    calls := before;
    var clients := List(d.leases.Keys);
    proxies, leases, table := loaded, map[], d.leases;
    LeasesLoadedNothing(d, now);
    NothingAttached(d, proxies);
    ghost var seen := {};
    var i := 0;
    while i < |clients|
      invariant 0 <= i <= |clients|
      invariant seen == Listed(clients, i)
      invariant LeasesLoaded(d, now, seen, leases, table)
      invariant proxies.Keys == loaded.Keys && SameTerms(loaded, proxies)
      invariant AllBound(d, leases, proxies)
      invariant Erases(d, calls, disk.(leases := table))
    {
      var c := clients[i];
      var l := d.leases[c];
      ListedNext(clients, i, seen);
      i := i + 1;
      if l.proxyId !in proxies || l.expiresAt < now {
        LeasesLoadedDrop(d, now, seen, c, leases, table);
        ErasesMore(d, calls, disk.(leases := table), DeleteLeaseRow(c));
        table, seen := table - {c}, seen + {c};
        calls := calls + [DeleteLeaseRow(c)];
        continue;
      }
      var p := proxies[l.proxyId];
      assert SameTerm(loaded, proxies, l.proxyId);
      if p.source == ApiSource && p.providerExpiresAt < l.expiresAt {
        l := l.(expiresAt := p.providerExpiresAt);
      }
      if l.expiresAt <= now {
        LeasesLoadedDrop(d, now, seen, c, leases, table);
        ErasesMore(d, calls, disk.(leases := table), DeleteLeaseRow(c));
        table, seen := table - {c}, seen + {c};
        calls := calls + [DeleteLeaseRow(c)];
        continue;
      }
      LeasesLoadedKeep(d, now, seen, c, leases, table);
      AttachOne(d, leases, proxies, c, l, leases[c := l]);
      ghost var others := proxies;
      proxies := proxies[l.proxyId := p.(status := ProxyActive, client := Some(c))];
      assert SameTerms(loaded, proxies) by {
        assert forall id :: id in loaded && SameTerm(loaded, others, id) ==> SameTerm(loaded, proxies, id);
      }
      leases := leases[c := l];
      seen := seen + {c};
    }
    ListedAll(clients, d.leases.Keys);
    LeasesLoadedAll(d, now, leases, table);
  }

  predicate SameTerm(loaded: map<ProxyId, Proxy>, proxies: map<ProxyId, Proxy>, id: ProxyId)
    requires id in loaded
  {
    id in proxies && proxies[id].source == loaded[id].source && proxies[id].providerExpiresAt == loaded[id].providerExpiresAt
  }

  ghost predicate SameTerms(loaded: map<ProxyId, Proxy>, proxies: map<ProxyId, Proxy>) {
    forall id :: id in loaded ==> SameTerm(loaded, proxies, id)
  }

  lemma NothingAttached(d: Disk, proxies: map<ProxyId, Proxy>)
    requires forall id :: id in proxies ==> id in d.proxies && proxies[id] == FromRow(d, id)
    ensures AllBound(d, map[], proxies)
  {
  }

  /** Drops every dynamic proxy without an unexpired lease. */
  method PurgeDynamics(loaded: map<ProxyId, Proxy>, listed: seq<ProxyId>, leases: Leases, stored: Disk, later: Time,
                       ghost d: Disk, ghost before: seq<DbCall>)
    returns (proxies: map<ProxyId, Proxy>, order: seq<ProxyId>, disk: Disk, ghost calls: seq<DbCall>)
    requires Erases(d, before, stored)
    ensures Erases(d, calls, disk)
    requires NoDuplicates(listed) && forall id :: id in listed <==> id in loaded
    ensures var dropped := set id | id in loaded && loaded[id].source == ApiSource && !HasLive(leases, later, id);
            proxies == loaded - dropped && disk == EraseProxy(stored, dropped)
    ensures NoDuplicates(order) && forall id :: id in order <==> id in proxies
  {
    hide HasLive, Without, NoDuplicates, Erases;
    proxies, order, disk := loaded, listed, stored;
    calls := before;
    ghost var doomed := set id | id in loaded && loaded[id].source == ApiSource && !HasLive(leases, later, id);
    ghost var dropped := {};
    var i := 0;
    while i < |listed|
      invariant 0 <= i <= |listed|
      invariant dropped == set id | id in listed[..i] && id in doomed
      invariant proxies == loaded - dropped && disk == EraseProxy(stored, dropped)
      invariant NoDuplicates(order) && forall id :: id in order <==> id in proxies
      invariant Erases(d, calls, disk)
    {
      var id := listed[i];
      assert listed[..i + 1] == listed[..i] + [id];
      if id in proxies && proxies[id].source == ApiSource && !HasLive(leases, later, id) {
        WithoutKeepsDistinct(order, id);
        proxies := proxies - {id};
        order := Without(order, id);
        ErasesMore(d, calls, disk, DeleteProxyRows(id));
        disk := EraseProxy(disk, {id});
        calls := calls + [DeleteProxyRows(id)];
        dropped := dropped + {id};
      }
      i := i + 1;
    }
    assert listed[..i] == listed;
    assert dropped == doomed;
  }

  // ---- Every call of a start ----

  /** The calls that save the first `n` configured proxies. */
  function Saves(configured: seq<Configured>, n: nat): seq<DbCall>
    requires n <= |configured|
  {
    seq(n, i requires 0 <= i < n => SaveProxyRow(configured[i].id, Row(configured[i].address, false)))
  }

  lemma {:induction false} SavesLead(stored: Disk, configured: seq<Configured>, n: nat)
    requires n <= |configured|
    ensures After(stored, Saves(configured, n)) == SavedFirst(stored, configured, n)
  {
    if n > 0 {
      SavesLead(stored, configured, n - 1);
      assert Saves(configured, n)[..n - 1] == Saves(configured, n - 1);
      assert configured[..n][..n - 1] == configured[..n - 1];
    }
  }

  lemma {:induction false} CallsJoin(d: Disk, some: seq<DbCall>, more: seq<DbCall>)
    ensures After(d, some + more) == After(After(d, some), more)
  {
    if more == [] {
      assert some + more == some;
    } else {
      CallsJoin(d, some, more[..|more| - 1]);
      assert (some + more)[..|some + more| - 1] == some + more[..|more| - 1];
    }
  }

  lemma StartCalls(stored: Disk, configured: seq<Configured>, n: nat, deletions: seq<DbCall>, disk: Disk)
    requires n <= |configured| && Erases(SavedFirst(stored, configured, n), deletions, disk)
    ensures var calls := Saves(configured, n) + deletions;
            After(stored, calls) == disk && forall i :: 0 <= i <= |calls| ==> DuringStart(stored, configured, After(stored, calls[..i]))
  {
    hide Erasure, SavedFirst;
    var saves := Saves(configured, n);
    var calls := saves + deletions;
    SavesLead(stored, configured, n);
    CallsJoin(stored, saves, deletions);
    forall i | 0 <= i <= |calls| ensures DuringStart(stored, configured, After(stored, calls[..i])) {
      if i <= n {
        assert calls[..i] == Saves(configured, i);
        SavesLead(stored, configured, i);
        NothingErased(SavedFirst(stored, configured, i));
      } else {
        assert calls[..i] == saves + deletions[..i - n];
        CallsJoin(stored, saves, deletions[..i - n]);
      }
    }
  }

  /**
   Starts from the stored tables. It fails exactly if a configured or stored proxy has the front's
   address; otherwise memory and disk are both what `Restored` says. `calls` are its calls to the
   database, one by one, the last one leading to the tables that it leaves.
   */
  method New(front: Option<Address>, configured: seq<Configured>, stored: Disk, now: Time, later: Time)
    returns (start: Start, ghost calls: seq<DbCall>)
    requires now <= later
    ensures var d := stored.(proxies := Configure(stored.proxies, configured));
            && (start.Conflict? <==>
                  front.Some?
                  && ((exists i :: 0 <= i < |configured| && SameEndpoint(configured[i].address, front.value))
                      || exists id :: id in d.proxies && SameEndpoint(d.proxies[id].address, front.value)))
            && (start.Started? ==> Restored(d, now, later, start.state))
    ensures start.Started? ==> After(stored, calls) == start.state.disk && Saves(configured, |configured|) <= calls
    ensures forall i :: 0 <= i <= |calls| ==> DuringStart(stored, configured, After(stored, calls[..i]))
  {
    hide DuringStart, Restored, Erases, Saves, After;
    var table, conflict;
    ghost var saved;
    table, conflict, saved := SaveConfigured(front, configured, stored.proxies);
    var d := stored.(proxies := table);
    assert d == SavedFirst(stored, configured, saved);
    ghost var saves, deletions := Saves(configured, saved), [];
    calls := saves;
    if conflict {
      ErasesNothing(d);
      StartCalls(stored, configured, saved, [], d);
      assert saves + [] == saves;
      return Conflict, calls;
    }
    var loaded, listed, disk;
    loaded, listed, disk, conflict, deletions := LoadProxies(front, d, now);
    if conflict {
      StartCalls(stored, configured, saved, deletions, disk);
      return Conflict, saves + deletions;
    }
    var attached, leases, rows;
    attached, leases, rows, deletions := LoadLeases(d, now, loaded, disk, deletions);
    var proxies, order;
    proxies, order, disk, deletions := PurgeDynamics(attached, listed, leases, disk.(leases := rows), later, d, deletions);
    StartCalls(stored, configured, saved, deletions, disk);
    var s := State(proxies, order, leases, [], [], map[], disk);
    assert Restored(d, now, later, s) by { PurgedIsRestored(d, now, later, loaded, attached, s); }
    return Started(s), saves + deletions;
  }

  /** The dropped proxies are the dynamic ones without an unexpired lease. */
  lemma DroppedAreDynamic(d: Disk, later: Time, attached: map<ProxyId, Proxy>, leases: Leases, id: ProxyId)
    requires AllBound(d, leases, attached) && id in attached
    ensures attached[id].source == ApiSource <==> id in d.dynamics
  {
    assert BoundByLease(d, leases, id, attached[id]);
  }

  lemma PurgedMemory(d: Disk, now: Time, later: Time, attached: map<ProxyId, Proxy>, s: State, dropped: set<ProxyId>)
    requires forall id :: id in attached <==> id in d.proxies && RowKept(d, now, id)
    requires AllBound(d, s.leases, attached) && s.leases == RestoredLeases(d, now) && s.proxies == attached - dropped
    requires forall id :: id in dropped <==> id in attached && id in d.dynamics && !HasLive(s.leases, later, id)
    ensures s.proxies.Keys == set id | id in d.proxies && Present(d, now, later, id)
    ensures forall id :: id in s.proxies ==> BoundByLease(d, s.leases, id, s.proxies[id])
  {
    hide HasLive, RestoredLeases, BoundByLease, RowKept;
    assert forall id :: id in s.proxies <==> id in attached && id !in dropped;
    assert forall id :: id in s.proxies <==> id in d.proxies && Present(d, now, later, id);
    forall id | id in s.proxies ensures BoundByLease(d, s.leases, id, s.proxies[id]) {
      assert s.proxies[id] == attached[id];
    }
  }

  lemma PurgedDisk(d: Disk, now: Time, gone: set<ProxyId>, dropped: set<ProxyId>, kept: set<ProxyId>)
    requires gone == set id | id in d.proxies.Keys + d.dynamics.Keys && !RowKept(d, now, id)
    requires forall id :: id in kept <==> id in d.proxies && RowKept(d, now, id) && id !in dropped
    ensures var disk := EraseProxy(EraseProxy(d, gone), dropped);
            && disk.proxies == (map id | id in kept :: d.proxies[id])
            && disk.dynamics == map id | id in kept && id in d.dynamics :: d.dynamics[id]
  {
    hide RowKept;
    var disk := EraseProxy(EraseProxy(d, gone), dropped);
    RowsKeptAreThere(d, now);
    assert forall id :: id in disk.proxies <==> id in kept;
    assert forall id :: id in disk.dynamics <==> id in kept && id in d.dynamics;
  }

  lemma RowsKeptAreThere(d: Disk, now: Time)
    ensures forall id :: RowKept(d, now, id) ==> id in d.proxies
  {
  }

  lemma PurgedIsRestored(d: Disk, now: Time, later: Time, loaded: map<ProxyId, Proxy>, attached: map<ProxyId, Proxy>, s: State)
    requires loaded == map id | id in d.proxies.Keys + d.dynamics.Keys && RowKept(d, now, id) :: FromRow(d, id)
    requires attached.Keys == loaded.Keys && AllBound(d, s.leases, attached)
    requires s.leases == RestoredLeases(d, now) && OrderOk(s)
    requires var dropped := set id | id in attached && attached[id].source == ApiSource && !HasLive(s.leases, later, id);
             && s.proxies == attached - dropped
             && s.disk == EraseProxy(EraseProxy(d, set id | id in d.proxies.Keys + d.dynamics.Keys && !RowKept(d, now, id)), dropped)
                          .(leases := map c | c in s.leases :: d.leases[c])
    requires s.pendingNew == [] && s.pendingRefs == [] && s.via == map[]
    ensures Restored(d, now, later, s)
  {
    hide HasLive, OrderOk, RestoredLeases, BoundByLease, EraseProxy, Present;
    var dropped := set id | id in attached && attached[id].source == ApiSource && !HasLive(s.leases, later, id);
    var gone := set id | id in d.proxies.Keys + d.dynamics.Keys && !RowKept(d, now, id);
    forall id | id in attached ensures attached[id].source == ApiSource <==> id in d.dynamics {
      DroppedAreDynamic(d, later, attached, s.leases, id);
    }
    assert forall id :: id in attached <==> id in d.proxies && RowKept(d, now, id);
    PurgedMemory(d, now, later, attached, s, dropped);
    PurgedDisk(d, now, gone, dropped, s.proxies.Keys);
  }
}
