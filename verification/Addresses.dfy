/** Names and host:port addresses, compared the way `sameEndpoint` compares them. */
module Addresses {
  import opened Common

  function LowerChar(c: char): char {
    if 'A' <= c <= 'Z' then ((c as int) + 32) as char else c
  }

  function Lower(text: string): (r: string)
    ensures |r| == |text|
    ensures forall i :: 0 <= i < |text| ==> r[i] == LowerChar(text[i])
  {
    seq(|text|, i requires 0 <= i < |text| => LowerChar(text[i]))
  }

  /** Lower case, without one trailing dot. */
  function Normalize(text: string): string {
    var lower := Lower(text);
    if lower != "" && lower[|lower| - 1] == '.' then lower[..|lower| - 1] else lower
  }

  // The host part after splitting: an IP literal in canonical form, or a name as written.
  datatype Host = Ip(canonical: nat) | Name(text: string)

  // An address that could not be split into host and port, or one that could. The port is absent
  // when its text is not a number.
  datatype Address = Unsplittable(text: string) | HostPort(host: Host, port: Option<int>)

  function Canonical(host: Host): Host {
    match host
    case Ip(_) => host
    case Name(text) => Name(Normalize(text))
  }

  predicate SameEndpoint(left: Address, right: Address) {
    && left.HostPort? && right.HostPort?
    && left.port.Some? && right.port.Some?
    && Canonical(left.host) == Canonical(right.host)
    && left.port.value == right.port.value
  }

  predicate WellFormed(address: Address) {
    address.HostPort? && address.port.Some?
  }

  /** SameEndpoint is symmetric and transitive, and reflexive exactly on well-formed addresses. */
  lemma SameEndpointIsPartialEquivalence(a: Address, b: Address, c: Address)
    ensures SameEndpoint(a, b) <==> SameEndpoint(b, a)
    ensures SameEndpoint(a, b) && SameEndpoint(b, c) ==> SameEndpoint(a, c)
    ensures SameEndpoint(a, a) <==> WellFormed(a)
  {
  }

  // ---- Names ----

  /** Without its trailing dot, if it has one. */
  function Undotted(text: string): string {
    if text != "" && text[|text| - 1] == '.' then text[..|text| - 1] else text
  }

  /** The same character, or the same ASCII letter in the other case. */
  predicate SameLetter(c: char, d: char) {
    || c == d
    || ('A' <= c <= 'Z' && d as int == c as int + 32)
    || ('A' <= d <= 'Z' && c as int == d as int + 32)
  }

  /** Two names are taken for the same exactly if they differ in nothing but case and one trailing dot. */
  lemma NormalizedAlike(a: string, b: string)
    ensures Normalize(a) == Normalize(b) <==>
              && |Undotted(a)| == |Undotted(b)|
              && forall i :: 0 <= i < |Undotted(a)| ==> SameLetter(Undotted(a)[i], Undotted(b)[i])
  {
    NormalizedIsLower(a);
    NormalizedIsLower(b);
  }

  lemma NormalizedIsLower(text: string)
    ensures |Normalize(text)| == |Undotted(text)|
    ensures forall i :: 0 <= i < |Undotted(text)| ==> Normalize(text)[i] == LowerChar(Undotted(text)[i])
  {
  }

  /** Endpoints are the same exactly if both name host and port, with equal ports and hosts that are alike. */
  lemma SameEndpointMeaning(a: Address, b: Address)
    ensures SameEndpoint(a, b) <==>
              && WellFormed(a) && WellFormed(b) && a.port == b.port
              && match (a.host, b.host)
                 case (Ip(m), Ip(n)) => m == n
                 case (Name(s), Name(t)) => Normalize(s) == Normalize(t)
                 case _ => false
  {
  }
}
