/**
 The SOCKS5 client exchange over a byte stream, and the formats it uses: sections 3 to 6 of RFC 1928
 and section 2 of RFC 1929, the latter extended to zero-length fields, which the client can emit.
 */
module Socks {
  import opened Common

  newtype byte = b: int | 0 <= b < 256

  type Bytes = seq<byte>

  // ---- What is exchanged ----

  datatype TargetHost = V4(octets: Bytes) | V6(octets: Bytes) | Domain(name: Bytes)

  // A target as split and parsed by the caller.
  datatype Target = Target(host: TargetHost, port: nat)

  predicate ValidTarget(t: Target) {
    && t.port < 0x1_0000
    && match t.host
       case V4(octets) => |octets| == 4
       case V6(octets) => |octets| == 16
       case Domain(name) => name != []
  }

  predicate Encodable(t: Target) {
    ValidTarget(t) && (t.host.Domain? ==> |t.host.name| <= 255)
  }

  predicate ShortCredentials(username: Bytes, password: Bytes) {
    |username| <= 255 && |password| <= 255
  }

  predicate OffersPassword(username: Bytes, password: Bytes) {
    username != [] || password != []
  }

  // ---- Encoders ----

  function Greeting(username: Bytes, password: Bytes): Bytes {
    if OffersPassword(username, password) then [5, 2, 0, 2] else [5, 1, 0]
  }

  function Authentication(username: Bytes, password: Bytes): Bytes
    requires ShortCredentials(username, password)
  {
    [1, |username| as byte] + username + [|password| as byte] + password
  }

  function HostBytes(host: TargetHost): Bytes
    requires host.Domain? ==> |host.name| <= 255
  {
    match host
    case V4(octets) => [1] + octets
    case V6(octets) => [4] + octets
    case Domain(name) => [3, |name| as byte] + name
  }

  function ConnectRequest(t: Target): Bytes
    requires Encodable(t)
  {
    [5, 1, 0] + HostBytes(t.host) + [(t.port / 256) as byte, (t.port % 256) as byte]
  }

  // ---- Decoders, straight from the standards ----

  // Each reads one message off the front of a stream and gives the rest.
  datatype Parsed<T> = Parsed(value: T, rest: Bytes)

  /** VER NMETHODS METHODS */
  function DecodeGreeting(s: Bytes): Option<Parsed<Bytes>> {
    if |s| < 2 || s[0] != 5 || |s| < 2 + s[1] as nat then None
    else Some(Parsed(s[2..2 + s[1] as nat], s[2 + s[1] as nat..]))
  }

  /** A length byte, then that many bytes. */
  function DecodeField(s: Bytes): Option<Parsed<Bytes>> {
    if |s| < 1 || |s| < 1 + s[0] as nat then None
    else Some(Parsed(s[1..1 + s[0] as nat], s[1 + s[0] as nat..]))
  }

  /** VER ULEN UNAME PLEN PASSWD */
  function DecodeAuthentication(s: Bytes): Option<Parsed<(Bytes, Bytes)>> {
    if |s| < 1 || s[0] != 1 then None
    else match DecodeField(s[1..])
         case None => None
         case Some(Parsed(username, afterName)) =>
           match DecodeField(afterName)
           case None => None
           case Some(Parsed(password, rest)) => Some(Parsed((username, password), rest))
  }

  /** ATYP ADDR PORT, with a non-empty name. */
  function DecodeAddress(s: Bytes): Option<Parsed<Target>> {
    if |s| < 1 then None
    else if s[0] == 1 && |s| >= 7 then Some(Parsed(Target(V4(s[1..5]), Port(s[5], s[6])), s[7..]))
    else if s[0] == 4 && |s| >= 19 then Some(Parsed(Target(V6(s[1..17]), Port(s[17], s[18])), s[19..]))
    else if s[0] == 3 && |s| >= 2 && s[1] != 0 && |s| >= 4 + s[1] as nat then
      var n := s[1] as nat;
      Some(Parsed(Target(Domain(s[2..2 + n]), Port(s[2 + n], s[3 + n])), s[4 + n..]))
    else None
  }

  function Port(high: byte, low: byte): nat {
    high as nat * 256 + low as nat
  }

  /** VER CMD RSV and an address, for CMD CONNECT. */
  function DecodeRequest(s: Bytes): Option<Parsed<Target>> {
    if |s| < 3 || s[..3] != [5, 1, 0] then None else DecodeAddress(s[3..])
  }

  /** VER REP RSV and an address. */
  function DecodeReply(s: Bytes): Option<Parsed<(byte, Target)>> {
    if |s| < 3 || s[0] != 5 || s[2] != 0 then None
    else match DecodeAddress(s[3..])
         case None => None
         case Some(Parsed(bound, rest)) => Some(Parsed((s[1], bound), rest))
  }

  // ---- Decoding recovers what was encoded, whatever follows ----

  lemma GreetingRoundTrip(username: Bytes, password: Bytes, rest: Bytes)
    ensures DecodeGreeting(Greeting(username, password) + rest)
            == Some(Parsed(if OffersPassword(username, password) then [0, 2] else [0], rest))
  {
    var s := Greeting(username, password) + rest;
    var n := s[1] as nat;
    assert s[2..2 + n] == if OffersPassword(username, password) then [0, 2] else [0];
    assert s[2 + n..] == rest;
  }

  lemma FieldRoundTrip(field: Bytes, rest: Bytes)
    requires |field| <= 255
    ensures DecodeField([|field| as byte] + field + rest) == Some(Parsed(field, rest))
  {
    var s := [|field| as byte] + field + rest;
    assert s[1..1 + |field|] == field;
    assert s[1 + |field|..] == rest;
  }

  lemma AuthenticationRoundTrip(username: Bytes, password: Bytes, rest: Bytes)
    requires ShortCredentials(username, password)
    ensures DecodeAuthentication(Authentication(username, password) + rest)
            == Some(Parsed((username, password), rest))
  {
    var s := Authentication(username, password) + rest;
    var tail := [|password| as byte] + password + rest;
    assert s[1..] == [|username| as byte] + username + tail;
    FieldRoundTrip(username, tail);
    FieldRoundTrip(password, rest);
  }

  lemma AddressRoundTrip(t: Target, rest: Bytes)
    requires Encodable(t)
    ensures DecodeAddress(HostBytes(t.host) + [(t.port / 256) as byte, (t.port % 256) as byte] + rest) == Some(Parsed(t, rest))
  {
    var address := HostBytes(t.host) + [(t.port / 256) as byte, (t.port % 256) as byte] + rest;
    match t.host
    case V4(octets) =>
      assert address[1..5] == octets && address[7..] == rest;
    case V6(octets) =>
      assert address[1..17] == octets && address[19..] == rest;
    case Domain(name) =>
      assert address[2..2 + |name|] == name && address[4 + |name|..] == rest;
  }

  lemma RequestRoundTrip(t: Target, rest: Bytes)
    requires Encodable(t)
    ensures DecodeRequest(ConnectRequest(t) + rest) == Some(Parsed(t, rest))
  {
    hide DecodeAddress, HostBytes;
    AddressRoundTrip(t, rest);
    var s := ConnectRequest(t) + rest;
    var port := [(t.port / 256) as byte, (t.port % 256) as byte];
    assert s == [5, 1, 0] + (HostBytes(t.host) + port + rest);
    assert s[..3] == [5, 1, 0];
    assert s[3..] == HostBytes(t.host) + port + rest;
  }

  // Everything a client says up to its CONNECT.
  datatype Session = Session(methods: Bytes, credentials: Option<(Bytes, Bytes)>, target: Target)

  function DecodeSession(s: Bytes, authenticated: bool): Option<Session> {
    match DecodeGreeting(s)
    case None => None
    case Some(Parsed(methods, afterGreeting)) =>
      if authenticated then
        match DecodeAuthentication(afterGreeting)
        case None => None
        case Some(Parsed(credentials, afterAuth)) =>
          match DecodeRequest(afterAuth)
          case None => None
          case Some(Parsed(target, _)) => Some(Session(methods, Some(credentials), target))
      else
        match DecodeRequest(afterGreeting)
        case None => None
        case Some(Parsed(target, _)) => Some(Session(methods, None, target))
  }

  /** A peer reading the whole byte stream recovers credentials, address and port. */
  lemma SessionRoundTrip(username: Bytes, password: Bytes, authenticated: bool, t: Target)
    requires ShortCredentials(username, password) && Encodable(t)
    ensures var auth := if authenticated then Authentication(username, password) else [];
            DecodeSession(Greeting(username, password) + auth + ConnectRequest(t), authenticated)
            == Some(Session(if OffersPassword(username, password) then [0, 2] else [0],
                            if authenticated then Some((username, password)) else None, t))
  {
    hide DecodeGreeting, DecodeAuthentication, DecodeRequest, Greeting, Authentication, ConnectRequest;
    var auth := if authenticated then Authentication(username, password) else [];
    var request := ConnectRequest(t);
    assert Greeting(username, password) + auth + request == Greeting(username, password) + (auth + request);
    GreetingRoundTrip(username, password, auth + request);
    assert request == request + [];
    RequestRoundTrip(t, []);
    if authenticated {
      AuthenticationRoundTrip(username, password, request);
    } else {
      assert auth + request == request;
    }
  }

  // ---- The stream ----

  // What a Write call will do: take at most `part` bytes and say so, fail after taking some, or take
  // everything and claim more than it was given.
  datatype WriteStep = Accepts(part: nat) | Fails(part: nat) | Overreports

  function AtMost(limit: nat, n: nat): nat {
    if limit <= n then limit else n
  }

  // The peer's remaining bytes, what was sent to it, and the answers of the coming Write calls.
  datatype Stream = Stream(incoming: Bytes, sent: Bytes, writes: seq<WriteStep>)

  /** Repeated writes of what is left: bytes delivered, whether all went well, remaining answers. */
  function Transmit(writes: seq<WriteStep>, data: Bytes): (nat, bool, seq<WriteStep>)
    decreases |writes|
  {
    if data == [] then (0, true, writes)
    else if writes == [] then (|data|, true, [])
    else match writes[0]
         case Fails(part) => (AtMost(part, |data|), false, writes[1..])
         case Overreports => (|data|, false, writes[1..])
         case Accepts(part) =>
           var n := AtMost(part, |data|);
           if n == 0 then (0, false, writes[1..])
           else var (more, ok, rest) := Transmit(writes[1..], data[n..]); (n + more, ok, rest)
  }

  /** Delivery is complete on success and never more than the data. */
  lemma {:induction false} TransmitDelivers(writes: seq<WriteStep>, data: Bytes)
    ensures var (n, ok, _) := Transmit(writes, data); n <= |data| && (ok ==> n == |data|)
    decreases |writes|
  {
    if data != [] && writes != [] && writes[0].Accepts? && AtMost(writes[0].part, |data|) > 0 {
      TransmitDelivers(writes[1..], data[AtMost(writes[0].part, |data|)..]);
    }
  }

  /** Short writes alone never prevent delivery. */
  lemma {:induction false} ShortWritesDeliver(writes: seq<WriteStep>, data: Bytes)
    requires forall w :: w in writes ==> w.Accepts? && w.part > 0
    ensures Transmit(writes, data).0 == |data| && Transmit(writes, data).1
    decreases |writes|
  {
    if data != [] && writes != [] {
      assert writes[0] in writes;
      ShortWritesDeliver(writes[1..], data[AtMost(writes[0].part, |data|)..]);
    }
  }

  function Sent(s: Stream, data: Bytes): (Stream, bool) {
    TransmitDelivers(s.writes, data);
    var (n, ok, rest) := Transmit(s.writes, data);
    (s.(sent := s.sent + data[..n], writes := rest), ok)
  }

  lemma NothingSent(s: Stream)
    ensures Sent(s, []) == (s, true)
  {
    var nothing: Bytes := [];
    assert s.sent + nothing[..0] == s.sent;
  }

  /** One Write call peeled off. */
  lemma SentUnfolds(s: Stream, data: Bytes)
    requires data != []
    ensures s.writes == [] ==> Sent(s, data) == (s.(sent := s.sent + data), true)
    ensures s.writes != [] ==>
              var after := s.(writes := s.writes[1..]);
              match s.writes[0]
              case Fails(part) => Sent(s, data) == (after.(sent := s.sent + data[..AtMost(part, |data|)]), false)
              case Overreports => Sent(s, data) == (after.(sent := s.sent + data), false)
              case Accepts(part) =>
                var n := AtMost(part, |data|);
                if n == 0 then Sent(s, data) == (after.(sent := s.sent + data[..0]), false)
                else Sent(s, data) == Sent(after.(sent := s.sent + data[..n]), data[n..])
  {
    assert data[..|data|] == data;
    if s.writes != [] && s.writes[0].Accepts? && AtMost(s.writes[0].part, |data|) > 0 {
      var n := AtMost(s.writes[0].part, |data|);
      TransmitDelivers(s.writes[1..], data[n..]);
      var more := Transmit(s.writes[1..], data[n..]).0;
      assert s.sent + data[..n] + data[n..][..more] == s.sent + data[..n + more];
    }
  }

  /** What is sent is in order and complete: all of the data on success, a prefix of it otherwise. */
  lemma SentInOrder(s: Stream, data: Bytes)
    ensures var (after, ok) := Sent(s, data);
            && after.incoming == s.incoming
            && s.sent <= after.sent <= s.sent + data
            && (ok ==> after.sent == s.sent + data)
  {
    TransmitDelivers(s.writes, data);
    assert data[..|data|] == data;
  }

  /** Reading exactly `n` bytes; a stream that ends early is drained. */
  function Read(s: Stream, n: nat): (Stream, Option<Bytes>) {
    if |s.incoming| < n then (s.(incoming := []), None)
    else (s.(incoming := s.incoming[n..]), Some(s.incoming[..n]))
  }

  datatype Stage = HandshakeStage | AuthStage | ConnectStage

  // Whether a version-5 method reply was read, and how the handshake ended.
  datatype Handshake = Handshake(methodReply: bool, failed: Option<Stage>)

  class Wire {
    var incoming: Bytes
    var sent: Bytes
    var writes: seq<WriteStep>

    function View(): Stream
      reads this
    {
      Stream(incoming, sent, writes)
    }

    method Write(data: Bytes) returns (written: nat, failed: bool)
      requires data != []
      modifies this
      ensures incoming == old(incoming)
      ensures old(writes) == [] ==> written == |data| && !failed && writes == [] && sent == old(sent) + data
      ensures old(writes) != [] ==>
                && writes == old(writes)[1..]
                && match old(writes)[0]
                   case Accepts(part) => written == AtMost(part, |data|) && !failed && sent == old(sent) + data[..written]
                   case Fails(part) => failed && sent == old(sent) + data[..AtMost(part, |data|)]
                   case Overreports => written > |data| && !failed && sent == old(sent) + data
    {
      if writes == [] {
        sent := sent + data;
        return |data|, false;
      }
      var step := writes[0];
      writes := writes[1..];
      match step
      case Accepts(part) =>
        written, failed := AtMost(part, |data|), false;
        sent := sent + data[..written];
      case Fails(part) =>
        written, failed := 0, true;
        sent := sent + data[..AtMost(part, |data|)];
      case Overreports =>
        written, failed := |data| + 1, false;
        sent := sent + data;
    }

    /** Delivers all of `data` in order, or stops at the write that went wrong. */
    method WriteFull(data: Bytes) returns (ok: bool)
      modifies this
      ensures (View(), ok) == Sent(old(View()), data)
    {
      var left := data;
      while |left| > 0
        invariant Sent(View(), left) == Sent(old(View()), data)
        decreases |left|
      {
        ghost var before := View();
        var written, failed := Write(left);
        SentUnfolds(before, left);
        if failed {
          return false;
        }
        if written <= 0 {
          return false;
        }
        if written > |left| {
          return false;
        }
        left := left[written..];
        NothingSent(View());
      }
      NothingSent(View());
      return true;
    }

    method ReadFull(n: nat) returns (bytes: Option<Bytes>)
      modifies this
      ensures (View(), bytes) == Read(old(View()), n)
    {
      if |incoming| < n {
        incoming := [];
        return None;
      }
      bytes := Some(incoming[..n]);
      incoming := incoming[n..];
    }
  }
}
