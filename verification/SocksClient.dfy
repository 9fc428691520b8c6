/** The client side of one SOCKS5 exchange: greeting, optional authentication, CONNECT. */
module SocksClient {
  import opened Common
  import opened Socks

  // ---- Specification ----

  function Authenticated(s: Stream, username: Bytes, password: Bytes): (Stream, Option<Stage>)
    requires ShortCredentials(username, password)
  {
    var (written, ok) := Sent(s, Authentication(username, password));
    if !ok then (written, Some(AuthStage))
    else
      var (read, response) := Read(written, 2);
      (read, if response.Some? && response.value == [1, 0] then None else Some(AuthStage))
  }

  function Greeted(s: Stream, username: Bytes, password: Bytes): (Stream, Handshake) {
    if !ShortCredentials(username, password) then (s, Handshake(false, Some(AuthStage)))
    else
      var (written, ok) := Sent(s, Greeting(username, password));
      if !ok then (written, Handshake(false, Some(HandshakeStage)))
      else
        var (read, response) := Read(written, 2);
        if response.None? || response.value[0] != 5 then (read, Handshake(false, Some(HandshakeStage)))
        else if response.value[1] == 0 then (read, Handshake(true, None))
        else if response.value[1] == 2 && OffersPassword(username, password) then
          var (done, failed) := Authenticated(read, username, password);
          (done, Handshake(true, failed))
        else (read, Handshake(true, Some(AuthStage)))
  }

  /** Bytes of the bound address after the reply header, or a refusal. */
  function BoundLength(s: Stream, atyp: byte): (Stream, Option<nat>) {
    if atyp == 1 then (s, Some(4))
    else if atyp == 4 then (s, Some(16))
    else if atyp == 3 then
      var (read, length) := Read(s, 1);
      (read, if length.None? || length.value[0] == 0 then None else Some(length.value[0] as nat))
    else (s, None)
  }

  function ReplyRead(s: Stream): (Stream, bool) {
    var (read, header) := Read(s, 4);
    if header.None? || header.value[..3] != [5, 0, 0] then (read, false)
    else
      var (sized, length) := BoundLength(read, header.value[3]);
      if length.None? then (sized, false)
      else
        var (done, bound) := Read(sized, length.value + 2);
        (done, bound.Some?)
  }

  // A missing target is one that could not be split or whose port is no number.
  function Connected(s: Stream, target: Option<Target>): (Stream, bool)
    requires target.Some? ==> ValidTarget(target.value)
  {
    if target.None? || !Encodable(target.value) then (s, false)
    else
      var (written, ok) := Sent(s, ConnectRequest(target.value));
      if !ok then (written, false) else ReplyRead(written)
  }

  // ---- The client ----

  method Authenticate(wire: Wire, username: Bytes, password: Bytes) returns (failed: Option<Stage>)
    requires ShortCredentials(username, password)
    modifies wire
    ensures (wire.View(), failed) == Authenticated(old(wire.View()), username, password)
  {
    var request := [1, |username| as byte];
    request := request + username;
    request := request + [|password| as byte];
    request := request + password;
    var ok := wire.WriteFull(request);
    if !ok {
      return Some(AuthStage);
    }
    var response := wire.ReadFull(2);
    if response.None? {
      return Some(AuthStage);
    }
    if response.value[0] != 1 {
      return Some(AuthStage);
    }
    if response.value[1] != 0 {
      return Some(AuthStage);
    }
    assert response.value == [1, 0];
    return None;
  }

  method HandshakeWithMethodSelection(wire: Wire, username: Bytes, password: Bytes) returns (h: Handshake)
    modifies wire
    ensures (wire.View(), h) == Greeted(old(wire.View()), username, password)
  {
    if |username| > 255 || |password| > 255 {
      return Handshake(false, Some(AuthStage));
    }
    var methods := [0];
    if username != [] || password != [] {
      methods := methods + [2];
    }
    var request := [5, |methods| as byte] + methods;
    assert request == Greeting(username, password);
    var ok := wire.WriteFull(request);
    if !ok {
      return Handshake(false, Some(HandshakeStage));
    }
    var response := wire.ReadFull(2);
    if response.None? {
      return Handshake(false, Some(HandshakeStage));
    }
    if response.value[0] != 5 {
      return Handshake(false, Some(HandshakeStage));
    }
    if response.value[1] == 0 {
      return Handshake(true, None);
    } else if response.value[1] == 2 {
      if username == [] && password == [] {
        return Handshake(true, Some(AuthStage));
      }
      var failed := Authenticate(wire, username, password);
      return Handshake(true, failed);
    } else {
      return Handshake(true, Some(AuthStage));
    }
  }

  method Connect(wire: Wire, target: Option<Target>) returns (ok: bool)
    requires target.Some? ==> ValidTarget(target.value)
    modifies wire
    ensures (wire.View(), ok) == Connected(old(wire.View()), target)
  {
    if target.None? {
      return false;
    }
    var t := target.value;
    var request := [5, 1, 0];
    match t.host {
      case V4(octets) =>
        request := request + ([1] + octets);
      case V6(octets) =>
        request := request + ([4] + octets);
      case Domain(name) =>
        if |name| > 255 {
          return false;
        }
        request := request + ([3, |name| as byte] + name);
    }
    request := request + [(t.port / 256) as byte, (t.port % 256) as byte];
    assert request == ConnectRequest(t);
    var written := wire.WriteFull(request);
    if !written {
      return false;
    }
    ok := ReadReply(wire);
  }

  method ReadReply(wire: Wire) returns (ok: bool)
    modifies wire
    ensures (wire.View(), ok) == ReplyRead(old(wire.View()))
  {
    var header := wire.ReadFull(4);
    if header.None? {
      return false;
    }
    if header.value[0] != 5 {
      return false;
    }
    if header.value[2] != 0 {
      return false;
    }
    if header.value[1] != 0 {
      return false;
    }
    assert header.value[..3] == [5, 0, 0];
    var addressLength := 0;
    if header.value[3] == 1 {
      addressLength := 4;
    } else if header.value[3] == 3 {
      var length := wire.ReadFull(1);
      if length.None? {
        return false;
      }
      if length.value[0] == 0 {
        return false;
      }
      addressLength := length.value[0] as nat;
    } else if header.value[3] == 4 {
      addressLength := 16;
    } else {
      return false;
    }
    var bound := wire.ReadFull(addressLength + 2);
    return bound.Some?;
  }

  // ---- What the exchange means ----

  /** The method-selection callback runs exactly when a version-5 reply to the greeting was read. */
  lemma MethodReplyMeaning(s: Stream, username: Bytes, password: Bytes)
    ensures Greeted(s, username, password).1.methodReply
            <==> && ShortCredentials(username, password)
                 && Sent(s, Greeting(username, password)).1
                 && |s.incoming| >= 2 && s.incoming[0] == 5
  {
    SentInOrder(s, Greeting(username, password));
  }

  /**
   A handshake fails over the credentials exactly if they are too long to send, or the peer chose a method
   and then turned them down; before such a choice is read it fails as a handshake.
   */
  lemma FailingStageMeaning(s: Stream, username: Bytes, password: Bytes)
    ensures var h := Greeted(s, username, password).1;
            && (h.failed == Some(AuthStage) <==> !ShortCredentials(username, password) || (h.methodReply && h.failed.Some?))
            && (h.failed == Some(HandshakeStage) <==> ShortCredentials(username, password) && !h.methodReply)
            && h.failed != Some(ConnectStage)
  {
  }

  /** A successful handshake consumes exactly the peer's part of it and sends exactly ours. */
  lemma HandshakeConsumesItsOwn(s: Stream, username: Bytes, password: Bytes)
    requires Greeted(s, username, password).1.failed.None?
    ensures var after := Greeted(s, username, password).0;
            || (s.incoming == [5, 0] + after.incoming && after.sent == s.sent + Greeting(username, password))
            || (&& OffersPassword(username, password) && ShortCredentials(username, password)
                && s.incoming == [5, 2, 1, 0] + after.incoming
                && after.sent == s.sent + Greeting(username, password) + Authentication(username, password))
  {
    hide Sent, Greeting, Authentication;
    SentInOrder(s, Greeting(username, password));
    var (read, response) := Read(Sent(s, Greeting(username, password)).0, 2);
    assert s.incoming == response.value + read.incoming;
    assert response.value == [5, response.value[1]];
    if response.value[1] != 0 {
      SentInOrder(read, Authentication(username, password));
      var (done, answer) := Read(Sent(read, Authentication(username, password)).0, 2);
      assert read.incoming == answer.value + done.incoming;
      assert s.incoming == [5, 2] + ([1, 0] + done.incoming);
    }
  }

  /** A reply is accepted exactly when it decodes as a success, and then only its bytes are read. */
  lemma ReplyMeaning(s: Stream)
    ensures ReplyRead(s).1 <==> DecodeReply(s.incoming).Some? && DecodeReply(s.incoming).value.value.0 == 0
    ensures ReplyRead(s).1 ==> ReplyRead(s).0.incoming == DecodeReply(s.incoming).value.rest
  {
    var n := s.incoming;
    if |n| >= 4 {
      assert n[..4][..3] == [n[0], n[1], n[2]];
      assert n[3..][0] == n[3];
      AddressLength(n[3..], s.(incoming := n[4..]));
      assert n[4..] == n[3..][1..];
    }
  }

  /** Reading a bound address by its length agrees with decoding it. */
  lemma AddressLength(a: Bytes, s: Stream)
    requires a != [] && s.incoming == a[1..]
    ensures var (sized, length) := BoundLength(s, a[0]);
            && (DecodeAddress(a).Some? <==> length.Some? && |sized.incoming| >= length.value + 2)
            && (DecodeAddress(a).Some? ==> sized.incoming[length.value + 2..] == DecodeAddress(a).value.rest)
  {
    if a[0] == 3 && |a| >= 2 {
      assert s.incoming[..1][0] == a[1];
      assert s.incoming[1..] == a[2..];
    }
  }

  /** After CONNECT succeeds, the request was sent whole and the tunnel starts right after the reply. */
  lemma ConnectMeaning(s: Stream, target: Option<Target>)
    requires target.Some? ==> ValidTarget(target.value)
    ensures var (after, ok) := Connected(s, target);
            && (ok <==> && target.Some? && Encodable(target.value) && Sent(s, ConnectRequest(target.value)).1
                        && DecodeReply(s.incoming).Some? && DecodeReply(s.incoming).value.value.0 == 0)
            && (ok ==> && after.sent == s.sent + ConnectRequest(target.value)
                       && after.incoming == DecodeReply(s.incoming).value.rest)
  {
    hide Sent, ConnectRequest, DecodeReply;
    if target.Some? && Encodable(target.value) {
      SentInOrder(s, ConnectRequest(target.value));
      ReplyMeaning(Sent(s, ConnectRequest(target.value)).0);
    }
  }
}
