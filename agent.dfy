/**
 * The agent: its control session against the relay (authenticate, register
 * every configured tunnel, then dispatch relay messages), the heartbeat, the
 * handler that opens a data connection for each `new_conn`, and the
 * dashboard operations. Sockets are abstracted: a `Link` says whether writes
 * succeed and lists what successive reads return.
 */
module Agent {
  import opened Wrappers
  import opened Numerals
  import opened Protocol
  import opened Config

  /** A connection the agent dialled to the relay. */
  type ConnHandle = nat

  /**
   * An established connection: whether each write in turn succeeds (writes
   * past the list fail, as on a closed connection), and what each read in
   * turn returns.
   */
  datatype Link = Link(writeOk: seq<bool>, inbound: seq<ReadResult>)

  /** Whether write number `w` (counting from 0) on the link succeeds. */
  predicate WriteSucceeds(link: Link, w: nat)
  {
    w < |link.writeOk| && link.writeOk[w]
  }

  function AuthMessage(token: string): Message
  {
    Message(Auth, EncodeAuthRequest(AuthRequest(token)))
  }

  function RegMessage(t: Tunnel): Message
  {
    Message(RegTunnel, EncodeRegTunnelRequest(RegTunnelRequest(t.name, t.protocol, t.remotePort)))
  }

  function ProxyDataMessage(connId: string): Message
  {
    Message(ProxyData, EncodeProxyDataRequest(ProxyDataRequest(connId)))
  }

  /** The registration requests for a list of tunnels, in list order. */
  function RegMessages(ts: seq<Tunnel>): (ms: seq<Message>)
    ensures |ms| == |ts| && forall i | 0 <= i < |ts| :: ms[i] == RegMessage(ts[i])
  {
    seq(|ts|, i requires 0 <= i < |ts| => RegMessage(ts[i]))
  }

  const WriteError := "write: broken pipe"

  /** The error a failed decode yields; a clean end of stream is io.EOF. */
  function ReadError(r: ReadResult): (e: string)
    requires !r.Received?
    ensures e != ""
  {
    if r.EndOfStream? then "EOF" else "invalid character in message stream"
  }

  // ------------------------------------------------ response classification

  /**
   * authenticate after its write: the reply must be an `auth_resp` whose
   * payload decodes and says success.
   */
  function CheckAuthResponse(writable: bool, r: ReadResult): (o: Outcome)
    ensures o.Pass? <==>
      && writable && r.Received? && r.msg.msgType == AuthResp
      && DecodeAuthResponse(r.msg.payload).Some? && DecodeAuthResponse(r.msg.payload).value.success
    ensures o.Fail? ==> o.error != ""
    ensures writable && r.Received? && r.msg.msgType == AuthResp && DecodeAuthResponse(r.msg.payload).Some?
            && !DecodeAuthResponse(r.msg.payload).value.success
            ==> o == Fail("auth failed: " + DecodeAuthResponse(r.msg.payload).value.error)
  {
    if !writable then Fail(WriteError)
    else match r
      case Received(m) =>
        if m.msgType != AuthResp then Fail("unexpected auth response type: " + Tag(m.msgType))
        else
          (match DecodeAuthResponse(m.payload)
           case None => Fail("invalid auth response payload")
           case Some(resp) => if !resp.success then Fail("auth failed: " + resp.error) else Pass)
      case _ => Fail(ReadError(r))
  }

  /** registerTunnel after its write: the reply must be a `reg_resp` whose payload decodes and says success. */
  function CheckRegResponse(writable: bool, r: ReadResult): (o: Outcome)
    ensures o.Pass? <==>
      && writable && r.Received? && r.msg.msgType == RegResp
      && DecodeRegTunnelResponse(r.msg.payload).Some? && DecodeRegTunnelResponse(r.msg.payload).value.success
    ensures o.Fail? ==> o.error != ""
    ensures writable && r.Received? && r.msg.msgType == RegResp && DecodeRegTunnelResponse(r.msg.payload).Some?
            && !DecodeRegTunnelResponse(r.msg.payload).value.success
            ==> o == Fail("registration failed: " + DecodeRegTunnelResponse(r.msg.payload).value.error)
  {
    if !writable then Fail(WriteError)
    else match r
      case Received(m) =>
        if m.msgType != RegResp then Fail("unexpected reg response type: " + Tag(m.msgType))
        else
          (match DecodeRegTunnelResponse(m.payload)
           case None => Fail("invalid reg response payload")
           case Some(resp) => if !resp.success then Fail("registration failed: " + resp.error) else Pass)
      case _ => Fail(ReadError(r))
  }

  /**
   * The first `n` registrations of a session: one outcome each, and the
   * position of the next read. Registration i is the link's write 1 + i (the
   * `auth` is write 0) and reads a reply only when that write succeeded. A
   * failed write sends nothing and leaves the read position where it was, so
   * the next registration reads its own reply.
   */
  function Registrations(link: Link, n: nat): (out: (seq<Outcome>, nat))
    ensures |out.0| == n
    ensures 1 <= out.1 <= 1 + n
    ensures n > 0 && !WriteSucceeds(link, n) ==> out.0[n - 1] == Fail(WriteError)
  {
    if n == 0 then ([], 1)
    else
      var before := Registrations(link, n - 1);
      var ok := WriteSucceeds(link, n);
      (before.0 + [CheckRegResponse(ok, ReadAt(link.inbound, before.1))], before.1 + (if ok then 1 else 0))
  }

  /** When every registration write succeeds, registration i reads reply 1 + i. */
  lemma {:induction false} RegistrationsAlignWhenWritesSucceed(link: Link, n: nat)
    requires forall w | 1 <= w <= n :: WriteSucceeds(link, w)
    ensures Registrations(link, n).1 == 1 + n
    ensures forall i | 0 <= i < n :: Registrations(link, n).0[i] == CheckRegResponse(true, ReadAt(link.inbound, 1 + i))
  {
    if n > 0 {
      RegistrationsAlignWhenWritesSucceed(link, n - 1);
    }
  }

  // ----------------------------------------------------------- read loop

  /** What the agent's read loop does with one read. */
  datatype AgentStep = Spawn(req: NewConnRequest) | Skip | Stop(error: string)

  function ClassifyRead(r: ReadResult): (s: AgentStep)
    ensures s.Spawn? <==> r.Received? && r.msg.msgType == NewConn && DecodeNewConnRequest(r.msg.payload).Some?
    ensures s.Spawn? ==> s.req == DecodeNewConnRequest(r.msg.payload).value
    ensures s.Stop? <==> !r.Received?
    ensures s.Stop? ==> s.error == ReadError(r)
  {
    match r
    case Received(m) =>
      if m.msgType == NewConn then
        (match DecodeNewConnRequest(m.payload)
         case Some(req) => Spawn(req)
         case None => Skip)
      else Skip
    case _ => Stop(ReadError(r))
  }

  /** Position of the first failed read, or the stream length. */
  function StopIndex(inbound: seq<ReadResult>): (k: nat)
    ensures k <= |inbound|
    ensures forall j | 0 <= j < k :: inbound[j].Received?
    ensures k < |inbound| ==> !inbound[k].Received?
  {
    if inbound == [] || !inbound[0].Received? then 0 else 1 + StopIndex(inbound[1..])
  }

  /** The `new_conn` requests found among successfully read messages, in order. */
  function Spawned(handled: seq<ReadResult>): seq<NewConnRequest>
  {
    if handled == [] then []
    else
      var last := ClassifyRead(handled[|handled| - 1]);
      Spawned(handled[..|handled| - 1]) + (if last.Spawn? then [last.req] else [])
  }

  /** Without a well-formed `new_conn` among them, messages (pongs, unknown types, bad payloads) start no handler. */
  lemma {:induction false} OnlyNewConnSpawns(handled: seq<ReadResult>)
    requires forall j | 0 <= j < |handled| :: !ClassifyRead(handled[j]).Spawn?
    ensures Spawned(handled) == []
  {
    if handled != [] {
      OnlyNewConnSpawns(handled[..|handled| - 1]);
    }
  }

  /** Every handler started belongs to some read, so there are never more handlers than reads. */
  lemma {:induction false} SpawnedAtMostOnePerRead(handled: seq<ReadResult>)
    ensures |Spawned(handled)| <= |handled|
  {
    if handled != [] {
      SpawnedAtMostOnePerRead(handled[..|handled| - 1]);
    }
  }

  /**
   * The read loop of Start: spawn a handler for each well-formed `new_conn`,
   * skip everything else, and return the first read error (EOF included).
   */
  method ReadLoop(inbound: seq<ReadResult>) returns (handlers: seq<NewConnRequest>, err: string)
    ensures handlers == Spawned(inbound[..StopIndex(inbound)])
    ensures StopIndex(inbound) < |inbound| ==> err == ReadError(inbound[StopIndex(inbound)])
    ensures StopIndex(inbound) == |inbound| ==> err == "EOF"
    ensures err != ""
  {
    handlers := [];
    var i := 0;
    while true
      invariant 0 <= i <= |inbound|
      invariant forall j | 0 <= j < i :: inbound[j].Received?
      invariant handlers == Spawned(inbound[..i])
      decreases |inbound| - i
    {
      var r := ReadAt(inbound, i);
      if !r.Received? {
        assert StopIndex(inbound) == i;
        err := ReadError(r);
        return;
      }
      assert inbound[..i + 1][..i] == inbound[..i];
      match ClassifyRead(r) {
        case Spawn(req) => handlers := handlers + [req];
        case Skip =>
      }
      i := i + 1;
    }
  }

  // ------------------------------------------------------ data connections

  /** The local address of the first configured tunnel with this name, or "" when there is none. */
  function LocalAddrOf(tunnels: seq<Tunnel>, name: string): (addr: string)
    ensures (forall i | 0 <= i < |tunnels| :: tunnels[i].name != name) ==> addr == ""
    ensures forall i | 0 <= i < |tunnels| && tunnels[i].name == name ::
      (forall j | 0 <= j < i :: tunnels[j].name != name) ==> addr == tunnels[i].localAddr
  {
    if tunnels == [] then ""
    else if tunnels[0].name == name then tunnels[0].localAddr
    else LocalAddrOf(tunnels[1..], name)
  }

  /** The steps of handleNewConn, in the order they are taken. */
  datatype DataStep =
    | DialLocal(localAddr: string)
    | DialServer(serverAddr: string)
    | WriteAuth(token: string)
    | ReadAuthReply
    | WriteProxyData(connId: string)
    | Bridge

  /** How each fallible step of a data connection fares. */
  datatype DataEnv = DataEnv(
    localDialOk: bool, serverDialOk: bool, authWriteOk: bool, reply: ReadResult, proxyWriteOk: bool)

  function DataPlan(localAddr: string, serverAddr: string, token: string, connId: string): seq<DataStep>
  {
    [DialLocal(localAddr), DialServer(serverAddr), WriteAuth(token), ReadAuthReply, WriteProxyData(connId), Bridge]
  }

  /**
   * What one control session on `link` yields under `cfg`: the error Start
   * returns, the messages written, one outcome per registration attempt and
   * the `new_conn` requests handed to handlers. A failed authentication ends
   * it at once; otherwise every configured tunnel is registered in order
   * (see `Registrations`), a failure does not stop the rest, and the read
   * loop starts at the first read no registration consumed.
   */
  ghost predicate SessionOutcome(cfg: ClientConfig, link: Link, err: string, sent: seq<Message>,
                                 registrations: seq<Outcome>, handlers: seq<NewConnRequest>)
  {
    var auth := CheckAuthResponse(WriteSucceeds(link, 0), ReadAt(link.inbound, 0));
    && err != ""
    && |sent| >= 1 && sent[0] == AuthMessage(cfg.token)
    && (auth.Fail? ==> err == auth.error && sent == [AuthMessage(cfg.token)] && registrations == [] && handlers == [])
    && (auth.Pass? ==>
          var regs := Registrations(link, |cfg.tunnels|);
          var rest := Drop(link.inbound, regs.1);
          && sent == [AuthMessage(cfg.token)] + RegMessages(cfg.tunnels)
          && registrations == regs.0
          && handlers == Spawned(rest[..StopIndex(rest)])
          && (StopIndex(rest) < |rest| ==> err == ReadError(rest[StopIndex(rest)])))
  }

  /** Snapshot of the agent for the dashboard. */
  datatype ClientStatus = ClientStatus(mode: string, serverAddr: string, connected: bool, tunnels: seq<Tunnel>)

  class Client {
    /** The configuration record shared with the dashboard, which edits its tunnel list. */
    var config: ClientConfig
    var controlConn: Option<ConnHandle>
    var connected: bool

    constructor (cfg: ClientConfig)
      ensures config == cfg && controlConn == None && !connected
    {
      config := cfg;
      controlConn := None;
      connected := false;
    }

    /** The first critical section of Start: publish the dialled control connection. */
    method Attach(conn: ConnHandle)
      modifies this`controlConn, this`connected
      ensures controlConn == Some(conn) && connected
    {
      controlConn := Some(conn);
      connected := true;
    }

    /** Start's deferred cleanup. */
    method Detach()
      modifies this`controlConn, this`connected
      ensures controlConn == None && !connected
    {
      controlConn := None;
      connected := false;
    }

    /**
     * Start after the dial: authenticate, register every configured tunnel in
     * order (a failure is logged and the next one is tried), then the read
     * loop. Returns the error Start returns, the messages written, one outcome
     * per registration attempt and the `new_conn` requests handed to handlers.
     */
    method RunSession(link: Link)
      returns (err: string, sent: seq<Message>, registrations: seq<Outcome>, handlers: seq<NewConnRequest>)
      ensures SessionOutcome(config, link, err, sent, registrations, handlers)
    {
      sent := [AuthMessage(config.token)];
      registrations := [];
      handlers := [];
      var auth := CheckAuthResponse(WriteSucceeds(link, 0), ReadAt(link.inbound, 0));
      if auth.Fail? {
        err := auth.error;
        return;
      }
      var tunnels := config.tunnels;
      var next := 1;
      for i := 0 to |tunnels|
        invariant sent == [AuthMessage(config.token)] + RegMessages(tunnels[..i])
        invariant (registrations, next) == Registrations(link, i)
      {
        assert RegMessages(tunnels[..i + 1]) == RegMessages(tunnels[..i]) + [RegMessage(tunnels[i])];
        sent := sent + [RegMessage(tunnels[i])];
        var ok := WriteSucceeds(link, 1 + i);
        registrations := registrations + [CheckRegResponse(ok, ReadAt(link.inbound, next))];
        if ok {
          next := next + 1;
        }
      }
      assert tunnels[..|tunnels|] == tunnels;
      handlers, err := ReadLoop(Drop(link.inbound, next));
    }

    /**
     * Start: dial, publish the connection, run the session, and on every
     * return after the dial clear both fields again. A failed dial touches nothing.
     */
    method Start(dial: Option<ConnHandle>, link: Link)
      returns (err: string, sent: seq<Message>, registrations: seq<Outcome>, handlers: seq<NewConnRequest>)
      modifies this`controlConn, this`connected
      ensures err != ""
      ensures dial.None? ==>
        && controlConn == old(controlConn) && connected == old(connected)
        && sent == [] && registrations == [] && handlers == []
      ensures dial.Some? ==> controlConn == None && !connected
                             && SessionOutcome(config, link, err, sent, registrations, handlers)
    {
      if dial.None? {
        err := "dial tcp " + config.serverAddr + ": connection refused";
        sent, registrations, handlers := [], [], [];
        return;
      }
      Attach(dial.value);
      err, sent, registrations, handlers := RunSession(link);
      Detach();
    }

    /** One heartbeat tick: stop when there is no control connection or the ping cannot be written. */
    method HeartbeatTick(writeOk: bool) returns (keepGoing: bool, sent: Option<Message>)
      ensures controlConn.None? ==> !keepGoing && sent == None
      ensures controlConn.Some? ==> sent == Some(Heartbeat(Ping)) && keepGoing == writeOk
    {
      var current := controlConn;
      if current.None? {
        return false, None;
      }
      sent := Some(Heartbeat(Ping));
      keepGoing := writeOk;
    }

    /** The lookup loop of handleNewConn over the live configuration. */
    method FindLocalAddr(name: string) returns (addr: string)
      ensures addr == LocalAddrOf(config.tunnels, name)
    {
      addr := "";
      var tunnels := config.tunnels;
      for i := 0 to |tunnels|
        invariant forall j | 0 <= j < i :: tunnels[j].name != name
      {
        if tunnels[i].name == name {
          addr := tunnels[i].localAddr;
          return;
        }
      }
    }

    /**
     * handleNewConn: look the tunnel up, then dial the local service, dial the
     * relay, write `auth`, read one reply (whatever it says), write
     * `proxy_data` for the same id, bridge. The first failure ends the
     * handler. Returns the steps attempted.
     */
    method HandleNewConn(req: NewConnRequest, env: DataEnv) returns (steps: seq<DataStep>)
      ensures var addr := LocalAddrOf(config.tunnels, req.tunnelName);
        && (addr == "" ==> steps == [])
        && (addr != "" ==>
              && 1 <= |steps| <= 6
              && steps == DataPlan(addr, config.serverAddr, config.token, req.connId)[..|steps|]
              && (|steps| == 6 <==>
                    env.localDialOk && env.serverDialOk && env.authWriteOk && env.reply.Received? && env.proxyWriteOk)
              && (|steps| < 6 ==> !(env.localDialOk && env.serverDialOk && env.authWriteOk && env.reply.Received?)
                                  || !env.proxyWriteOk)
              && (|steps| >= 2 ==> env.localDialOk)
              && (|steps| >= 3 ==> env.serverDialOk)
              && (|steps| >= 4 ==> env.authWriteOk)
              && (|steps| >= 5 ==> env.reply.Received?)
              && (|steps| == 1 ==> !env.localDialOk)
              && (|steps| == 2 ==> !env.serverDialOk)
              && (|steps| == 3 ==> !env.authWriteOk)
              && (|steps| == 4 ==> !env.reply.Received?)
              && (|steps| == 5 ==> !env.proxyWriteOk))
    {
      var addr := FindLocalAddr(req.tunnelName);
      steps := [];
      if addr == "" {
        return;
      }
      ghost var plan := DataPlan(addr, config.serverAddr, config.token, req.connId);
      steps := [DialLocal(addr)];
      if !env.localDialOk { return; }
      steps := steps + [DialServer(config.serverAddr)];
      if !env.serverDialOk { return; }
      steps := steps + [WriteAuth(config.token)];
      if !env.authWriteOk { return; }
      steps := steps + [ReadAuthReply];
      if !env.reply.Received? { return; }
      steps := steps + [WriteProxyData(req.connId)];
      if !env.proxyWriteOk { return; }
      steps := steps + [Bridge];
      assert steps == plan;
    }

    method GetStatus() returns (s: ClientStatus)
      ensures s == ClientStatus("client", config.serverAddr, connected, config.tunnels)
    {
      s := ClientStatus("client", config.serverAddr, connected, config.tunnels);
    }

    /**
     * AddTunnel: a duplicate name is an error; otherwise, with a live control
     * connection, register right away and report that outcome. The tunnel list
     * itself is left to the dashboard. Returns the messages written.
     */
    method AddTunnel(t: Tunnel, link: Link) returns (err: Outcome, sent: seq<Message>)
      ensures (exists i | 0 <= i < |config.tunnels| :: config.tunnels[i].name == t.name) ==>
        err == Fail("tunnel name " + t.name + " already exists") && sent == []
      ensures (forall i | 0 <= i < |config.tunnels| :: config.tunnels[i].name != t.name) ==>
        if connected && controlConn.Some? then
          sent == [RegMessage(t)] && err == CheckRegResponse(WriteSucceeds(link, 0), ReadAt(link.inbound, 0))
        else
          sent == [] && err == Pass
    {
      var tunnels := config.tunnels;
      for i := 0 to |tunnels|
        invariant forall j | 0 <= j < i :: tunnels[j].name != t.name
      {
        if tunnels[i].name == t.name {
          return Fail("tunnel name " + t.name + " already exists"), [];
        }
      }
      if connected && controlConn.Some? {
        sent := [RegMessage(t)];
        err := CheckRegResponse(WriteSucceeds(link, 0), ReadAt(link.inbound, 0));
      } else {
        sent := [];
        err := Pass;
      }
    }

    /** RemoveTunnel cannot deregister on the relay; it always succeeds. */
    method RemoveTunnel(name: string) returns (err: Outcome)
      ensures err == Pass
    {
      err := Pass;
    }
  }
}
