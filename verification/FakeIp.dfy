/** The FakeIP allocator: one made-up IPv4 address per domain name, reused after wrap-around. */
module FakeIp {
  import opened Common
  import opened Addresses

  const WORD := 0x1_0000_0000

  // A 32-bit value.
  type Word = w: int | 0 <= w < WORD

  function Wrap(x: int): Word {
    x % WORD
  }

  lemma WrapSmall(x: int)
    requires 0 <= x < WORD
    ensures Wrap(x) == x
  {
  }

  function TwoTo(n: nat): (p: nat)
    ensures p > 0
  {
    if n == 0 then 1 else 2 * TwoTo(n - 1)
  }

  lemma {:induction false} TwoToGrows(m: nat, n: nat)
    requires m <= n
    ensures TwoTo(m) <= TwoTo(n)
  {
    if m < n {
      TwoToGrows(m, n - 1);
    }
  }

  lemma {:induction false} TwoToAdds(a: nat, b: nat)
    ensures TwoTo(a) * TwoTo(b) == TwoTo(a + b)
  {
    if a > 0 {
      TwoToAdds(a - 1, b);
      assert TwoTo(a) == 2 * TwoTo(a - 1) && TwoTo(a + b) == 2 * TwoTo(a - 1 + b);
      assert TwoTo(a) * TwoTo(b) == 2 * (TwoTo(a - 1) * TwoTo(b));
    }
  }

  /** The remainder of `x` by `m`, by repeated subtraction. */
  function Rem(x: nat, m: nat): (r: nat)
    requires m > 0
    ensures r < m && r <= x
  {
    if x < m then x else Rem(x - m, m)
  }

  // A parsed CIDR: the address as written and the prefix length.
  datatype Cidr = Cidr(ip: Word, ones: nat)

  /** Addresses in the network, as a number. */
  function Span(c: Cidr): nat
    requires c.ones <= 32
  {
    TwoTo(32 - c.ones)
  }

  function Network(c: Cidr): nat
    requires c.ones <= 32
  {
    c.ip - Rem(c.ip, Span(c))
  }

  function Broadcast(c: Cidr): nat
    requires c.ones <= 32
  {
    Network(c) + Span(c) - 1
  }

  predicate Aligned(c: Cidr)
    requires c.ones <= 32
  {
    c.ip == Network(c)
  }

  lemma SpanBounds(c: Cidr)
    requires c.ones <= 30
    ensures 4 <= Span(c) <= WORD
    ensures c.ones >= 1 ==> 2 * Span(c) <= WORD
    ensures c.ones == 0 ==> Span(c) == WORD
  {
    assert TwoTo(2) == 4;
    TwoToGrows(2, 32 - c.ones);
    ThirtyTwoBits();
    if c.ones >= 1 {
      TwoToGrows(32 - c.ones, 31);
    }
  }

  lemma ThirtyTwoBits()
    ensures TwoTo(31) == 0x8000_0000 && TwoTo(32) == WORD
  {
    assert TwoTo(8) == 256;
    assert TwoTo(16) == 0x1_0000;
    assert TwoTo(24) == 0x100_0000;
    assert TwoTo(31) == 0x8000_0000;
  }

  /** Usable offsets: 1 up to the network's size less two. A /0 relies on 32-bit wrap-around. */
  function Slots(c: Cidr): (m: nat)
    requires c.ones <= 30
    ensures m >= 2
  {
    SpanBounds(c);
    Span(c) - 2
  }

  /** The address of the `i`-th name ever allocated. */
  function AddressOf(c: Cidr, i: nat): Word
    requires c.ones <= 30
  {
    SpanBounds(c);
    Wrap(c.ip + 1 + Rem(i, Slots(c)))
  }

  /** The last name, if any, that was allocated in the same slot as `i`. */
  predicate NewestInSlot(c: Cidr, order: seq<string>, i: nat)
    requires c.ones <= 30
  {
    i < |order| <= i + Slots(c)
  }

  // ---- Slots ----

  /** One more than a number is in the next slot, around the end. */
  lemma {:induction false} NextRemainder(n: nat, m: nat)
    requires m >= 2
    ensures Rem(n + 1, m) == if Rem(n, m) == m - 1 then 0 else Rem(n, m) + 1
  {
    if n >= m {
      NextRemainder(n - m, m);
    }
  }

  /** Numbers less than `m` apart have different remainders. */
  lemma {:induction false} RemainderTellsApart(i: nat, j: nat, m: nat)
    requires m >= 2 && i <= j < i + m && Rem(i, m) == Rem(j, m)
    ensures i == j
  {
    if i >= m {
      RemainderTellsApart(i - m, j - m, m);
    }
  }

  /** Advancing the cursor, wrapping to 1 at the end, moves on to the next position's slot. */
  lemma CursorAdvances(c: Cidr, n: nat)
    requires c.ones <= 30
    ensures var next, size := 1 + Rem(n, Slots(c)), Wrap(Span(c));
            && next < WORD
            && Wrap(c.ip + next) == AddressOf(c, n)
            && 1 + Rem(n + 1, Slots(c)) == if Wrap(next + 1) >= Wrap(size - 1) then 1 else Wrap(next + 1)
  {
    hide TwoTo, Rem;
    NextRemainder(n, Slots(c));
    SizeWraps(c);
  }

  /** One less than the 32-bit size is the end of the usable offsets, also for a /0. */
  lemma SizeWraps(c: Cidr)
    requires c.ones <= 30
    ensures Wrap(Wrap(Span(c)) - 1) == Slots(c) + 1
    ensures Slots(c) + 1 < WORD
  {
    SpanBounds(c);
  }

  lemma AddressesMeet(c: Cidr, i: nat, j: nat)
    requires c.ones <= 30
    ensures AddressOf(c, i) == AddressOf(c, j) <==> Rem(i, Slots(c)) == Rem(j, Slots(c))
  {
    SpanBounds(c);
  }

  /** Position `n` takes the slot of position `n - Slots(c)` and of no other recent one. */
  lemma SlotTakenFrom(c: Cidr, n: nat, i: nat)
    requires c.ones <= 30 && i < n <= i + Slots(c)
    ensures AddressOf(c, i) == AddressOf(c, n) <==> n == i + Slots(c)
  {
    AddressesMeet(c, i, n);
    if Rem(i, Slots(c)) == Rem(n, Slots(c)) && n < i + Slots(c) {
      RemainderTellsApart(i, n, Slots(c));
    }
  }

  /** The newest position in the slot of `i`. */
  function NewestAt(c: Cidr, count: nat, i: nat): (j: nat)
    requires c.ones <= 30 && i < count
    ensures i <= j < count <= j + Slots(c)
    ensures AddressOf(c, i) == AddressOf(c, j)
    decreases count - i
  {
    SpanBounds(c);
    if count <= i + Slots(c) then i
    else
      SlotTakenFrom(c, i + Slots(c), i);
      NewestAt(c, count, i + Slots(c))
  }

  /**
   `order` holds every distinct name in order of allocation. It is never read by the code, and
   determines all of the allocator's state.
   */
  class FakeIpStore {
    const cidr: Cidr
    const base: Word
    const size: Word
    var next: Word
    var nameToIp: map<string, Word>
    var ipToName: map<Word, string>
    ghost var order: seq<string>

    ghost predicate Valid()
      reads this
    {
      && cidr.ones <= 30 && base == cidr.ip && size == Wrap(Span(cidr))
      && next == 1 + Rem(|order|, Slots(cidr))
      && NoDuplicates(order)
      && (forall name :: name in nameToIp <==> name in order)
      && (forall i :: 0 <= i < |order| ==> nameToIp[order[i]] == AddressOf(cidr, i))
      && (forall i: nat :: NewestInSlot(cidr, order, i) ==> AddressOf(cidr, i) in ipToName && ipToName[AddressOf(cidr, i)] == order[i])
      && (forall ip :: ip in ipToName ==> exists i: nat :: NewestInSlot(cidr, order, i) && AddressOf(cidr, i) == ip)
    }

    constructor (cidr: Cidr)
      requires cidr.ones <= 30
      ensures Valid() && order == [] && this.cidr == cidr
    {
      SpanBounds(cidr);
      this.cidr, base, size := cidr, cidr.ip, Wrap(Span(cidr));
      next, nameToIp, ipToName, order := 1, map[], map[], [];
    }

    method Get(domain: string) returns (ip: Word)
      requires Valid()
      modifies this
      ensures Valid()
      ensures order == if Normalize(domain) in old(order) then old(order) else old(order) + [Normalize(domain)]
      ensures Normalize(domain) in nameToIp && ip == nameToIp[Normalize(domain)]
    {
      hide Normalize, TwoTo, Rem, NoDuplicates, Wrap, AddressOf, NewestInSlot;
      var name := Normalize(domain);
      if name in nameToIp {
        return nameToIp[name];
      }
      TakesOver(name, AddressOf(cidr, |order|));
      var offset := next;
      CursorAdvances(cidr, |order|);
      next := Wrap(next + 1);
      if next >= Wrap(size - 1) {
        next := 1;
      }
      ip := Wrap(base + offset);
      nameToIp := nameToIp[name := ip];
      ipToName := ipToName[ip := name];
      AppendDistinct(order, name);
      order := order + [name];
    }

    /** Recording a new name keeps the newest name of every slot on record. */
    lemma TakesOver(name: string, ip: Word)
      requires Valid() && name !in order && ip == AddressOf(cidr, |order|)
      ensures var longer, records := order + [name], ipToName[ip := name];
              && (forall i: nat :: NewestInSlot(cidr, longer, i) ==>
                  AddressOf(cidr, i) in records && records[AddressOf(cidr, i)] == longer[i])
              && (forall a :: a in records ==> exists i: nat :: NewestInSlot(cidr, longer, i) && AddressOf(cidr, i) == a)
    {
      var longer, records, n := order + [name], ipToName[ip := name], |order|;
      SpanBounds(cidr);
      forall i: nat | NewestInSlot(cidr, longer, i)
        ensures AddressOf(cidr, i) in records && records[AddressOf(cidr, i)] == longer[i]
      {
        if i < n {
          SlotTakenFrom(cidr, n, i);
          assert NewestInSlot(cidr, order, i);
        }
      }
      forall a | a in records ensures exists i: nat :: NewestInSlot(cidr, longer, i) && AddressOf(cidr, i) == a {
        if a == ip {
          assert NewestInSlot(cidr, longer, n);
        } else {
          var i: nat :| NewestInSlot(cidr, order, i) && AddressOf(cidr, i) == a;
          SlotTakenFrom(cidr, n, i);
          assert NewestInSlot(cidr, longer, i);
        }
      }
    }

    /** The name of an address inside the network. */
    function LookedUp(ip: Word): Option<string>
      requires cidr.ones <= 30
      reads this
    {
      if Network(cidr) <= ip <= Broadcast(cidr) && ip in ipToName then Some(ipToName[ip]) else None
    }

    method Lookup(ip: Word) returns (name: Option<string>)
      requires Valid()
      ensures name == LookedUp(ip)
    {
      if ip < Network(cidr) || ip > Broadcast(cidr) {
        return None;
      }
      return if ip in ipToName then Some(ipToName[ip]) else None;
    }
  }
  /** Nothing is allocated from a CIDR that is not IPv4, does not parse, or is smaller than a /30. */
  method NewFakeIpStore(parsed: Option<Cidr>) returns (store: FakeIpStore?)
    ensures store == null <==> parsed.None? || parsed.value.ones > 30
    ensures store != null ==> fresh(store) && store.Valid() && store.order == [] && store.cidr == parsed.value
  {
    if parsed.None? {
      return null;
    }
    if parsed.value.ones > 30 {
      return null;
    }
    store := new FakeIpStore(parsed.value);
  }

  // ---- What the allocator promises ----

  /** Every address ever handed out is strictly inside the network exactly when the CIDR is aligned. */
  lemma InsideIffAligned(c: Cidr)
    requires c.ones <= 30
    ensures Aligned(c) <==> forall i: nat :: Network(c) < AddressOf(c, i) < Broadcast(c)
  {
    if Aligned(c) {
      forall i: nat ensures Network(c) < AddressOf(c, i) < Broadcast(c) {
        AlignedStaysInside(c, i);
      }
    } else {
      var stray := StrayPosition(c);
      assert !(Network(c) < AddressOf(c, stray) < Broadcast(c));
    }
  }

  lemma AlignedStaysInside(c: Cidr, i: nat)
    requires c.ones <= 30 && Aligned(c)
    ensures AddressOf(c, i) == c.ip + 1 + Rem(i, Slots(c))
    ensures Network(c) < AddressOf(c, i) < Broadcast(c)
  {
    hide TwoTo, Rem, Wrap;
    NetworkFits(c);
    var offset := 1 + Rem(i, Slots(c));
    assert offset < Span(c) - 1;
    WrapSmall(c.ip + offset);
  }

  lemma NetworkFits(c: Cidr)
    requires c.ones <= 32
    ensures Broadcast(c) < WORD
    ensures 0 <= c.ip - Network(c) < Span(c)
    ensures Network(c) == 0 || Network(c) >= Span(c)
  {
    ThirtyTwoBits();
    TwoToAdds(c.ones, 32 - c.ones);
    RoomAbove(c.ip, Span(c), TwoTo(c.ones));
  }

  /** Rounding down to a multiple leaves room for one more multiple below the limit. */
  lemma {:induction false} RoomAbove(x: nat, m: nat, k: nat)
    requires m > 0 && x < k * m
    ensures x - Rem(x, m) + m <= k * m
    ensures x - Rem(x, m) == 0 || x - Rem(x, m) >= m
  {
    if x >= m {
      assert (k - 1) * m == k * m - m;
      assert k >= 1;
      RoomAbove(x - m, m, k - 1);
    } else {
      assert k >= 1;
      assert k * m >= m;
    }
  }

  /** A position whose address falls outside an unaligned network. */
  function StrayPosition(c: Cidr): (i: nat)
    requires c.ones <= 30 && !Aligned(c)
    ensures !(Network(c) < AddressOf(c, i) < Broadcast(c))
  {
    SpanBounds(c);
    NetworkFits(c);
    // A misaligned /0 still covers every address, so it is the numeric end of the network that is hit.
    var i: nat := if c.ones == 0 && c.ip >= 2 then WORD - 1 - c.ip else Slots(c) - 1;
    assert Rem(i, Slots(c)) == i;
    assert AddressOf(c, i) == Wrap(c.ip + 1 + i);
    i
  }

  /** Address to name to address is the identity, also after slots have been reused. */
  lemma AddressRoundTrip(s: FakeIpStore)
    requires s.Valid()
    ensures forall ip :: ip in s.ipToName ==> s.ipToName[ip] in s.nameToIp && s.nameToIp[s.ipToName[ip]] == ip
  {
    forall ip | ip in s.ipToName
      ensures s.ipToName[ip] in s.nameToIp && s.nameToIp[s.ipToName[ip]] == ip
    {
      var i: nat :| NewestInSlot(s.cidr, s.order, i) && AddressOf(s.cidr, i) == ip;
      assert s.ipToName[ip] == s.order[i];
    }
  }

  /** The slot of an allocated name belongs to it exactly while no later name took it. */
  lemma SlotOwner(s: FakeIpStore, i: nat)
    requires s.Valid() && i < |s.order|
    ensures var ip := s.nameToIp[s.order[i]];
            ip in s.ipToName && (s.ipToName[ip] == s.order[i] <==> |s.order| <= i + Slots(s.cidr))
  {
    var j := NewestAt(s.cidr, |s.order|, i);
    assert NewestInSlot(s.cidr, s.order, j);
    assert s.nameToIp[s.order[i]] == AddressOf(s.cidr, i);
    if |s.order| > i + Slots(s.cidr) {
      assert i < j;
    }
  }

  /**
   An allocated name is looked up from its address exactly while no later name took its slot and the
   address lies in the network, as it does on every aligned CIDR.
   */
  lemma NameRoundTripIffRecent(s: FakeIpStore, i: nat)
    requires s.Valid() && i < |s.order|
    ensures var ip := s.nameToIp[s.order[i]];
            && (s.LookedUp(ip) == Some(s.order[i])
                <==> |s.order| <= i + Slots(s.cidr) && Network(s.cidr) <= ip <= Broadcast(s.cidr))
            && (Aligned(s.cidr) ==> Network(s.cidr) < ip < Broadcast(s.cidr))
  {
    InsideIffAligned(s.cidr);
    SlotOwner(s, i);
    assert s.nameToIp[s.order[i]] == AddressOf(s.cidr, i);
  }

  /**
   Until every slot has been used once, different names have different addresses, and on an aligned CIDR
   each is looked up from its address.
   */
  lemma FirstNamesAreInjective(s: FakeIpStore, a: string, b: string)
    requires s.Valid()
    ensures |s.order| <= Slots(s.cidr) && a in s.nameToIp && b in s.nameToIp ==>
              && (s.nameToIp[a] == s.nameToIp[b] <==> a == b)
              && (Aligned(s.cidr) ==> s.LookedUp(s.nameToIp[a]) == Some(a))
  {
    if |s.order| <= Slots(s.cidr) && a in s.nameToIp && b in s.nameToIp {
      var i :| 0 <= i < |s.order| && s.order[i] == a;
      var j :| 0 <= j < |s.order| && s.order[j] == b;
      SlotOwner(s, i);
      SlotOwner(s, j);
      NameRoundTripIffRecent(s, i);
    }
  }
}
