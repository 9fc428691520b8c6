/**
 A chained attempt on the wire: both SOCKS5 exchanges run over one connection, the exit's behind the
 front's. What the attempt reports to the circuit is read off the bytes that stand on it.
 */
module FrontWire {
  import opened Common
  import opened Front
  import opened Socks
  import opened SocksClient
  import opened FrontPath

  // What one side of the chain is given: the credentials, and whom it is asked to connect to.
  datatype Leg = Leg(username: Bytes, password: Bytes, target: Option<Target>)

  predicate ValidLeg(leg: Leg) {
    leg.target.Some? ==> ValidTarget(leg.target.value)
  }

  /** The connection after the front's part: its handshake, then its CONNECT to the exit. */
  function PastFront(s: Stream, front: Leg): (Stream, Handshake, bool)
    requires ValidLeg(front)
  {
    var (greeted, hello) := Greeted(s, front.username, front.password);
    if hello.failed.Some? then (greeted, hello, false)
    else
      var (reached, ok) := Connected(greeted, front.target);
      (reached, hello, ok)
  }

  /** `t` with the hops on the connection decided by its bytes; dialing and cancellation stay as they are. */
  function OnWire(t: Trip, s: Stream, front: Leg, exit: Leg, cancelled: bool): Trip
    requires ValidLeg(front) && ValidLeg(exit)
  {
    var (reached, hello, ok) := PastFront(s, front);
    var (greeted, exitHello) := Greeted(reached, exit.username, exit.password);
    t.(frontHello := hello,
       frontReach := if ok then Fine else Broken(cancelled),
       exitHello := exitHello,
       exitReach := if exitHello.failed.None? && Connected(greeted, exit.target).1 then Fine else Broken(cancelled))
  }

  lemma WireIsPlausible(t: Trip, s: Stream, front: Leg, exit: Leg, cancelled: bool)
    requires ValidLeg(front) && ValidLeg(exit)
    ensures PlausibleTrip(OnWire(t, s, front, exit, cancelled))
  {
  }

  /** What is left of the front's bytes once its method choice, and its verdict on the password, are read. */
  function PastHello(incoming: Bytes, offers: bool): Option<Bytes> {
    if |incoming| < 2 || incoming[0] != 5 then None
    else if incoming[1] == 0 then Some(incoming[2..])
    else if incoming[1] == 2 && offers && |incoming| >= 4 && incoming[2..4] == [1, 0] then Some(incoming[4..])
    else None
  }

  /** The bytes that the exit sent: what follows the front's accepting reply to CONNECT. */
  function FromExit(incoming: Bytes, offers: bool): Option<Bytes> {
    match PastHello(incoming, offers)
    case None => None
    case Some(rest) =>
      match DecodeReply(rest)
      case Some(Parsed((code, _), more)) => if code == 0 then Some(more) else None
      case None => None
  }

  lemma WholeWrites(s: Stream, data: Bytes)
    requires s.writes == []
    ensures Sent(s, data).1 && Sent(s, data).0.writes == [] && Sent(s, data).0.incoming == s.incoming
  {
  }

  /** When every write goes through, the handshake succeeds exactly on an acceptable prefix of the bytes. */
  lemma HelloMeaning(s: Stream, username: Bytes, password: Bytes)
    requires s.writes == []
    ensures var (after, hello) := Greeted(s, username, password);
            && after.writes == []
            && (hello.failed.None? <==>
                  ShortCredentials(username, password) && PastHello(s.incoming, OffersPassword(username, password)).Some?)
            && (hello.failed.None? ==> PastHello(s.incoming, OffersPassword(username, password)) == Some(after.incoming))
  {
    hide Sent, Greeting, Authentication;
    WholeWrites(s, Greeting(username, password));
    if ShortCredentials(username, password) && |s.incoming| >= 2 {
      var (read, response) := Read(Sent(s, Greeting(username, password)).0, 2);
      assert response.value[0] == s.incoming[0] && response.value[1] == s.incoming[1];
      WholeWrites(read, Authentication(username, password));
      if |s.incoming| >= 4 {
        assert read.incoming[..2] == s.incoming[2..4] && read.incoming[2..] == s.incoming[4..];
      }
    }
  }

  /** The front's part succeeds exactly if its bytes do, and leaves the exit's bytes standing. */
  lemma PastFrontMeaning(s: Stream, front: Leg)
    requires s.writes == [] && ValidLeg(front)
    ensures var (reached, hello, ok) := PastFront(s, front);
            var offers := OffersPassword(front.username, front.password);
            && reached.writes == []
            && (hello.failed.None? && ok <==>
                  && ShortCredentials(front.username, front.password)
                  && front.target.Some? && Encodable(front.target.value) && FromExit(s.incoming, offers).Some?)
            && (hello.failed.None? && ok ==> FromExit(s.incoming, offers) == Some(reached.incoming))
  {
    hide Greeted, DecodeReply, Sent, ConnectRequest, Connected, PastHello;
    HelloMeaning(s, front.username, front.password);
    var (greeted, hello) := Greeted(s, front.username, front.password);
    if hello.failed.None? {
      ConnectMeaning(greeted, front.target);
      ConnectedWrites(greeted, front.target);
      if front.target.Some? && Encodable(front.target.value) {
        WholeWrites(greeted, ConnectRequest(front.target.value));
      }
    }
  }

  lemma ConnectedWrites(s: Stream, target: Option<Target>)
    requires s.writes == [] && (target.Some? ==> ValidTarget(target.value))
    ensures Connected(s, target).0.writes == []
  {
    hide Sent, ConnectRequest;
    if target.Some? && Encodable(target.value) {
      WholeWrites(s, ConnectRequest(target.value));
    }
  }

  /**
   Over a connection that takes every write, an admitted attempt reports success to the circuit exactly if
   the front was reached and accepted us, and a version-5 reply of the exit stands behind its bytes.
   */
  lemma SuccessIffExitAnswered(t: Trip, s: Stream, front: Leg, exit: Leg, cancelled: bool)
    requires ValidLeg(front) && ValidLeg(exit) && t.attempt.Some? && s.writes == []
    ensures var answered := FromExit(s.incoming, OffersPassword(front.username, front.password));
            ChainedOutcome(OnWire(t, s, front, exit, cancelled)).0 == [ReportSuccess] <==>
              && t.dial.Fine? && t.bind.Fine?
              && ShortCredentials(front.username, front.password) && ShortCredentials(exit.username, exit.password)
              && front.target.Some? && Encodable(front.target.value)
              && answered.Some? && |answered.value| >= 2 && answered.value[0] == 5
  {
    hide Greeted, Connected, FromExit, Sent, Greeting, Encodable, ChainedOutcome, PastFront;
    WireIsPlausible(t, s, front, exit, cancelled);
    ResolvedExactlyOnce(OnWire(t, s, front, exit, cancelled));
    PastFrontMeaning(s, front);
    var (reached, hello, ok) := PastFront(s, front);
    FailedFrontNotReached(s, front);
    MethodReplyMeaning(reached, exit.username, exit.password);
    WholeWrites(reached, Greeting(exit.username, exit.password));
  }

  lemma FailedFrontNotReached(s: Stream, front: Leg)
    requires ValidLeg(front)
    ensures PastFront(s, front).1.failed.Some? ==> !PastFront(s, front).2
  {
  }
}
