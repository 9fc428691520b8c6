/** Types and sequence operations shared by every module. */
module Common {

  datatype Option<+T> = None | Some(value: T)

  // An instant, in nanoseconds since the Unix epoch.
  type Time = int

  // Clients, proxies and connections are only ever compared (proxy identifiers also sorted), so
  // numbers stand for their names.
  type Client = int
  type ProxyId = int
  type Connection = int

  ghost predicate NoDuplicates<T>(s: seq<T>) {
    forall i, j :: 0 <= i < j < |s| ==> s[i] != s[j]
  }

  lemma AppendDistinct<T>(s: seq<T>, x: T)
    requires NoDuplicates(s) && x !in s
    ensures NoDuplicates(s + [x])
  {
  }

  lemma SomeMember(s: set<int>)
    ensures s == {} || exists x :: x in s
  {
    assert (forall x :: x !in s) ==> s == {};
  }

  /** `s` without the occurrences of `x`, the rest in the same order. */
  function Without<T(==, !new)>(s: seq<T>, x: T): (r: seq<T>)
    ensures x !in r && |r| <= |s|
    ensures forall y :: y in r <==> y in s && y != x
    ensures x !in s ==> r == s
  {
    if s == [] then []
    else
      var front := Without(s[..|s| - 1], x);
      var last := s[|s| - 1];
      assert s == s[..|s| - 1] + [last];
      if last == x then front else front + [last]
  }

  lemma {:induction false} WithoutKeepsDistinct<T(!new)>(s: seq<T>, x: T)
    requires NoDuplicates(s)
    ensures NoDuplicates(Without(s, x))
  {
    if s != [] {
      var front := s[..|s| - 1];
      WithoutKeepsDistinct(front, x);
      assert s[|s| - 1] !in front;
      assert s[|s| - 1] !in Without(front, x);
    }
  }

  lemma {:induction false} WithoutShrinks<T(!new)>(s: seq<T>, x: T)
    requires x in s
    ensures |Without(s, x)| < |s|
  {
    var front := s[..|s| - 1];
    assert s == front + [s[|s| - 1]];
    if s[|s| - 1] != x {
      WithoutShrinks(front, x);
    }
  }

  lemma WithoutAppend<T(!new)>(s: seq<T>, last: T, x: T)
    ensures Without(s + [last], x) == if last == x then Without(s, x) else Without(s, x) + [last]
  {
    assert (s + [last])[..|s|] == s;
  }

  /** `sub` can be obtained from `whole` by deleting elements: relative order is kept. */
  ghost predicate Subsequence<T(!new)>(sub: seq<T>, whole: seq<T>)
    decreases |whole|
  {
    if sub == [] then true
    else if whole == [] then false
    else if Subsequence(sub, whole[..|whole| - 1]) then true
    else sub[|sub| - 1] == whole[|whole| - 1] && Subsequence(sub[..|sub| - 1], whole[..|whole| - 1])
  }

  lemma {:induction false} SubsequenceReflexive<T(!new)>(s: seq<T>)
    ensures Subsequence(s, s)
  {
    if s != [] {
      SubsequenceReflexive(s[..|s| - 1]);
    }
  }

  /** Filtering a queue keeps the relative order of what remains. */
  lemma {:induction false} WithoutKeepsOrder<T(!new)>(s: seq<T>, x: T)
    ensures Subsequence(Without(s, x), s)
  {
    if s != [] {
      WithoutKeepsOrder(s[..|s| - 1], x);
      var r := Without(s, x);
      if s[|s| - 1] != x {
        assert r[..|r| - 1] == Without(s[..|s| - 1], x);
      }
    }
  }

  /** Removing the head of a queue keeps the relative order of the rest. */
  lemma {:induction false} TailKeepsOrder<T(!new)>(s: seq<T>)
    requires s != []
    ensures Subsequence(s[1..], s)
  {
    if |s| > 1 {
      var front := s[..|s| - 1];
      TailKeepsOrder(front);
      assert s[1..][..|s| - 2] == front[1..];
    }
  }

  /** Drops every occurrence of `x` from the queue, in place; `kept` is its new length. */
  method RemoveInPlace(queue: array<int>, x: int) returns (kept: nat)
    modifies queue
    ensures kept <= queue.Length
    ensures queue[..kept] == Without(old(queue[..]), x)
  {
    kept := 0;
    ghost var was := queue[..];
    var i := 0;
    while i < queue.Length
      invariant kept <= i <= queue.Length
      invariant forall k :: i <= k < queue.Length ==> queue[k] == was[k]
      invariant queue[..kept] == Without(was[..i], x)
    {
      var y := queue[i];
      assert was[..i + 1][..i] == was[..i];
      if y != x {
        ghost var before := queue[..kept];
        queue[kept] := y;
        kept := kept + 1;
        assert queue[..kept] == before + [y];
      }
      i := i + 1;
    }
    assert was[..i] == was;
  }
}
