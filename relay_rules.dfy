/**
 * The relay's decisions that do not depend on its mutable state, or depend on
 * it only through values passed in: the authentication handshake, the
 * port-range rule, the outcome of a registration request, the classification
 * of messages read on a control connection, and the check-and-delete on the
 * pending-connection map that claim and expiry share.
 */
module RelayRules {
  import opened Wrappers
  import opened Numerals
  import opened Protocol

  /** The key of a pending connection (the relay prints a nanosecond timestamp). */
  type ConnId = string
  /** A control or data connection accepted on the relay's control port. */
  type ConnHandle = nat
  /** A connection accepted on a tunnel's public listener. */
  type PublicConn = nat

  // ---------------------------------------------------------------- handshake

  datatype HandshakeResult = HandshakeResult(reply: Option<Message>, ok: bool)

  /** The `auth_resp` the relay writes; the failure carries the text "Invalid Token". */
  function AuthReply(success: bool): Message
  {
    Message(AuthResp, EncodeAuthResponse(AuthResponse(success, if success then "" else "Invalid Token")))
  }

  /**
   * The first message on a control connection must be an `auth` whose token is
   * the configured one. Anything else is rejected; only a well-formed `auth`
   * gets an answer. `writable` says whether writing the success reply works:
   * the handshake returns that write's error.
   */
  function Handshake(token: string, first: ReadResult, writable: bool): (h: HandshakeResult)
    ensures h.reply.Some? <==>
      first.Received? && first.msg.msgType == Auth && DecodeAuthRequest(first.msg.payload).Some?
    ensures h.ok <==>
      first.Received? && first.msg.msgType == Auth
      && DecodeAuthRequest(first.msg.payload) == Some(AuthRequest(token)) && writable
    ensures h.reply.Some? ==>
      var success := DecodeAuthRequest(first.msg.payload).value.token == token;
      h.reply.value.msgType == AuthResp
      && DecodeAuthResponse(h.reply.value.payload)
         == Some(AuthResponse(success, if success then "" else "Invalid Token"))
  {
    match first
    case Received(m) =>
      if m.msgType != Auth then HandshakeResult(None, false)
      else
        (match DecodeAuthRequest(m.payload)
         case None => HandshakeResult(None, false)
         case Some(req) =>
           if req.token != token then HandshakeResult(Some(AuthReply(false)), false)
           else HandshakeResult(Some(AuthReply(true)), writable))
    case _ => HandshakeResult(None, false)
  }

  // --------------------------------------------------------------- port range

  /** The inclusive bounds a `port_range` setting imposes, if it imposes any. */
  function RangeBounds(portRange: string): (b: Option<(Int64, Int64)>)
    ensures b.Some? <==> portRange != "" && Count(portRange, '-') == 1
  {
    if portRange == "" then None
    else
      var parts := Split(portRange, '-');
      if |parts| == 2 then Some((Atoi(parts[0]), Atoi(parts[1]))) else None
  }

  /** Whether the range check lets `port` through. */
  function PortAllowed(portRange: string, port: int): (ok: bool)
    ensures RangeBounds(portRange).None? ==> ok
    ensures RangeBounds(portRange).Some? ==>
      (ok <==> RangeBounds(portRange).value.0 <= port <= RangeBounds(portRange).value.1)
  {
    match RangeBounds(portRange)
    case None => true
    case Some((lo, hi)) => !(port < lo || port > hi)
  }

  /**
   * A setting with exactly one dash is enforced, with the two halves, each
   * read by Atoi, as its inclusive bounds.
   */
  lemma OneDashRangeIsBetweenHalves(a: string, b: string, port: int)
    requires '-' !in a && '-' !in b
    ensures RangeBounds(a + "-" + b) == Some((Atoi(a), Atoi(b)))
    ensures PortAllowed(a + "-" + b, port) <==> Atoi(a) <= port <= Atoi(b)
  {
    assert forall i | 0 <= i < |a| :: a[i] != '-';
    assert forall i | 0 <= i < |b| :: b[i] != '-';
    SplitAtOnlySeparator(a, b, '-');
    assert a + "-" + b == a + ['-'] + b;
  }

  /** A range written as two decimal numbers admits exactly the ports between them, both ends included. */
  lemma DecimalRangeIsInclusive(lo: nat, hi: nat, port: int)
    requires lo <= INT64_MAX && hi <= INT64_MAX
    ensures PortAllowed(NatToDecimal(lo) + "-" + NatToDecimal(hi), port) <==> lo <= port <= hi
  {
    var a, b := NatToDecimal(lo), NatToDecimal(hi);
    assert forall i | 0 <= i < |a| :: a[i] != '-';
    assert forall i | 0 <= i < |b| :: b[i] != '-';
    OneDashRangeIsBetweenHalves(a, b, port);
    AtoiReadsDecimal(lo);
    AtoiReadsDecimal(hi);
  }

  /** A range text without a dash imposes no check, however it reads. */
  lemma NoDashNoCheck(portRange: string, port: int)
    requires '-' !in portRange
    ensures PortAllowed(portRange, port)
  {
    CountAbsent(portRange, '-');
  }

  /**
   * A lower bound that is not a number (and too short to overflow first)
   * reads as 0: "abc-10" admits exactly 0..10.
   */
  lemma UnparseableBoundIsZero(a: string, b: string, port: int)
    requires '-' !in a && '-' !in b
    requires !WellFormedInt(a) && |a| <= 20
    ensures PortAllowed(a + "-" + b, port) <==> 0 <= port <= Atoi(b)
  {
    OneDashRangeIsBetweenHalves(a, b, port);
    MalformedShortNumberIsZero(a);
  }

  /** An upper bound that is not a number reads as 0: only ports from the lower bound up to 0 pass. */
  lemma UnparseableUpperBoundIsZero(a: string, b: string, port: int)
    requires '-' !in a && '-' !in b
    requires !WellFormedInt(b) && |b| <= 20
    ensures PortAllowed(a + "-" + b, port) <==> Atoi(a) <= port <= 0
  {
    OneDashRangeIsBetweenHalves(a, b, port);
    MalformedShortNumberIsZero(b);
  }

  // ------------------------------------------------------------- registration

  /**
   * How net.Listen(":port") fares against the ports already bound: a port
   * outside 0..65535 is refused, a bound port cannot be bound again, and
   * port 0 asks for an ephemeral one, which always succeeds.
   */
  predicate Bindable(bound: set<int>, port: int): (ok: bool)
    ensures !(0 <= port <= 65535) ==> !ok
    ensures port == 0 ==> ok
    ensures 0 < port <= 65535 ==> (ok <==> port !in bound)
  {
    0 <= port <= 65535 && (port == 0 || port !in bound)
  }

  datatype RegVerdict = OutOfRange | BindFailed | Registered

  /** The range check comes first; only a port that passes it is bound. */
  function Verdict(portRange: string, bound: set<int>, port: int): (v: RegVerdict)
    ensures v == OutOfRange <==> !PortAllowed(portRange, port)
    ensures v == BindFailed <==> PortAllowed(portRange, port) && !Bindable(bound, port)
    ensures v == Registered <==> PortAllowed(portRange, port) && Bindable(bound, port)
  {
    if !PortAllowed(portRange, port) then OutOfRange
    else if !Bindable(bound, port) then BindFailed
    else Registered
  }

  /** The text of the listen error (Linux's wording). */
  function BindError(port: int): string
  {
    if 0 <= port <= 65535 then "listen tcp :" + IntToDecimal(port) + ": bind: address already in use"
    else "listen tcp: address " + IntToDecimal(port) + ": invalid port"
  }

  /** The `reg_resp` written for a request with the given verdict. */
  function RegReply(portRange: string, req: RegTunnelRequest, v: RegVerdict): (m: Message)
    ensures m.msgType == RegResp
    ensures var r := DecodeRegTunnelResponse(m.payload);
      r.Some? && r.value.name == req.name && (r.value.success <==> v == Registered)
      && r.value.remotePort == (if v == OutOfRange then 0 else req.remotePort)
      && (r.value.error == "" <==> v == Registered)
  {
    var resp := match v
      case OutOfRange =>
        RegTunnelResponse(req.name, false, 0,
          "Port " + IntToDecimal(req.remotePort) + " is out of allowed range " + portRange)
      case BindFailed => RegTunnelResponse(req.name, false, req.remotePort, BindError(req.remotePort))
      case Registered => RegTunnelResponse(req.name, true, req.remotePort, "");
    Message(RegResp, EncodeRegTunnelResponse(resp))
  }

  // ------------------------------------------------------- control-loop steps

  /** Why a control connection's handler returned. */
  datatype ControlEnd =
    | HandshakeRejected
    | StreamEnded
    | ReadFailed
    | BadClaimPayload
    | DataMode(connId: ConnId, claimed: bool)

  /** What the control loop does with one read. */
  datatype ControlStep =
    | Register(req: RegTunnelRequest)
    | AnswerPing
    | Ignore
    | Claim(connId: ConnId)
    | Halt(end: ControlEnd)

  /** A step after which the control loop no longer reads. */
  predicate Exits(s: ControlStep) { s.Claim? || s.Halt? }

  function Classify(r: ReadResult): (s: ControlStep)
    ensures s.Register? <==>
      r.Received? && r.msg.msgType == RegTunnel && DecodeRegTunnelRequest(r.msg.payload).Some?
    ensures s.Register? ==> s.req == DecodeRegTunnelRequest(r.msg.payload).value
    ensures s.AnswerPing? <==> r.Received? && r.msg.msgType == Ping
    ensures s.Claim? <==>
      r.Received? && r.msg.msgType == ProxyData && DecodeProxyDataRequest(r.msg.payload).Some?
    ensures s.Claim? ==> s.connId == DecodeProxyDataRequest(r.msg.payload).value.connId
    ensures s.Ignore? <==>
      r.Received? && r.msg.msgType !in {Ping, ProxyData}
      && (r.msg.msgType == RegTunnel ==> DecodeRegTunnelRequest(r.msg.payload).None?)
    ensures s.Halt? ==> s.end == (if r.EndOfStream? then StreamEnded
                                  else if r.DecodeFailure? then ReadFailed else BadClaimPayload)
  {
    match r
    case EndOfStream => Halt(StreamEnded)
    case DecodeFailure => Halt(ReadFailed)
    case Received(m) =>
      match m.msgType
      case RegTunnel =>
        (match DecodeRegTunnelRequest(m.payload)
         case Some(req) => Register(req)
         case None => Ignore)
      case Ping => AnswerPing
      case ProxyData =>
        (match DecodeProxyDataRequest(m.payload)
         case Some(req) => Claim(req.connId)
         case None => Halt(BadClaimPayload))
      case _ => Ignore
  }

  /** Position of the first read after which the control loop stops, or the stream length. */
  function ExitIndex(rest: seq<ReadResult>): (k: nat)
    ensures k <= |rest|
    ensures forall j | 0 <= j < k :: !Exits(Classify(rest[j]))
    ensures k < |rest| ==> Exits(Classify(rest[k]))
  {
    if rest == [] then 0
    else if Exits(Classify(rest[0])) then 0
    else 1 + ExitIndex(rest[1..])
  }

  /** The step that ends the loop over `rest` (a stream that runs out ends cleanly). */
  function LoopExit(rest: seq<ReadResult>): (s: ControlStep)
    ensures Exits(s)
  {
    var k := ExitIndex(rest);
    if k < |rest| then Classify(rest[k]) else Halt(StreamEnded)
  }

  /** The types of the replies one step writes: one `reg_resp` per registration, one `pong` per ping. */
  function ReplyOf(s: ControlStep): seq<MessageType>
  {
    match s
    case Register(_) => [RegResp]
    case AnswerPing => [Pong]
    case _ => []
  }

  /** Reply types of a run of non-exiting steps, in read order. */
  function ReplyTypes(handled: seq<ReadResult>): seq<MessageType>
  {
    if handled == [] then [] else ReplyTypes(handled[..|handled| - 1]) + ReplyOf(Classify(handled[|handled| - 1]))
  }

  function TypesOf(ms: seq<Message>): (ts: seq<MessageType>)
    ensures |ts| == |ms| && forall i | 0 <= i < |ms| :: ts[i] == ms[i].msgType
  {
    if ms == [] then [] else TypesOf(ms[..|ms| - 1]) + [ms[|ms| - 1].msgType]
  }

  lemma {:induction false} TypesOfConcat(a: seq<Message>, b: seq<Message>)
    ensures TypesOf(a + b) == TypesOf(a) + TypesOf(b)
  {
  }

  /** A control stream of pings alone (whatever their payloads) is answered by exactly as many pongs. */
  lemma {:induction false} PingsGetOnePongEach(handled: seq<ReadResult>)
    requires forall j | 0 <= j < |handled| :: Classify(handled[j]).AnswerPing?
    ensures ReplyTypes(handled) == seq(|handled|, _ => Pong)
  {
    if handled != [] {
      PingsGetOnePongEach(handled[..|handled| - 1]);
    }
  }

  /** Messages of unknown type and malformed registrations write nothing. */
  lemma {:induction false} IgnoredStepsWriteNothing(handled: seq<ReadResult>)
    requires forall j | 0 <= j < |handled| :: Classify(handled[j]).Ignore?
    ensures ReplyTypes(handled) == []
    ensures ExitIndex(handled + [EndOfStream]) == |handled|
  {
    if handled != [] {
      IgnoredStepsWriteNothing(handled[..|handled| - 1]);
      assert (handled + [EndOfStream])[1..] == handled[1..] + [EndOfStream];
      IgnoredStepsWriteNothing(handled[1..]);
    }
  }

  // ------------------------------------------------------ pending connections

  /** A public connection waiting to be claimed, with the tunnel it arrived on (an arena index). */
  datatype PendingConn = PendingConn(conn: PublicConn, tunnel: nat)

  /**
   * The check-and-delete done under the pending-map lock, both by a claim and
   * by an expiry: the entry if present, and the map without it.
   */
  function TakePending(m: map<ConnId, PendingConn>, id: ConnId): (r: (Option<PendingConn>, map<ConnId, PendingConn>))
    ensures r.0.Some? <==> id in m
    ensures r.0.Some? ==> r.0.value == m[id]
    ensures id !in r.1 && r.1.Keys == m.Keys - {id}
    ensures forall k | k in r.1 :: r.1[k] == m[k]
  {
    if id in m then (Some(m[id]), m - {id}) else (None, m)
  }

  /** Single removal: of two check-and-deletes on one id, whichever runs second finds nothing and changes nothing. */
  lemma SecondTakeFindsNothing(m: map<ConnId, PendingConn>, id: ConnId)
    ensures var after := TakePending(m, id).1;
      TakePending(after, id) == (None, after)
  {
  }

  /** The ids in `m` that belong to tunnel `t`. */
  ghost function Held(m: map<ConnId, PendingConn>, t: nat): set<ConnId>
  {
    set id | id in m && m[id].tunnel == t
  }

  lemma HeldAfterInsert(m: map<ConnId, PendingConn>, id: ConnId, e: PendingConn, t: nat)
    requires id !in m
    ensures |Held(m[id := e], t)| == |Held(m, t)| + (if e.tunnel == t then 1 else 0)
  {
    if e.tunnel == t {
      assert Held(m[id := e], t) == Held(m, t) + {id};
    } else {
      assert Held(m[id := e], t) == Held(m, t);
    }
  }

  lemma HeldAfterRemove(m: map<ConnId, PendingConn>, id: ConnId, t: nat)
    requires id in m
    ensures |Held(m - {id}, t)| == |Held(m, t)| - (if m[id].tunnel == t then 1 else 0)
  {
    if m[id].tunnel == t {
      assert Held(m, t) == Held(m - {id}, t) + {id};
    } else {
      assert Held(m - {id}, t) == Held(m, t);
    }
  }
}
