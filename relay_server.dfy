/**
 * The relay's shared state and the atomic sections that change it.
 *
 * Tunnels live in an arena (`arena`, indexed by position) because a pending
 * connection keeps pointing at the tunnel it arrived on even after a later
 * registration under the same name replaces the registry entry. The registry
 * (`tunnels`) maps a name to an arena index. A claimed connection moves from
 * `pending` to `bridges` for as long as its bridge runs. `closeLog` records
 * every close of a public connection, in order.
 */
module RelayServer {
  import opened Wrappers
  import opened Numerals
  import opened Protocol
  import opened Config
  import opened RelayRules

  /** A tunnel as the relay keeps it (the listener handle is represented by its port in `bound`). */
  datatype TunnelEntry = TunnelEntry(
    name: string, protocol: string, remotePort: Int64, controlConn: ConnHandle, activeConns: int)

  datatype TunnelStatus = TunnelStatus(name: string, protocol: string, remotePort: Int64, activeConns: int)

  datatype ServerStatus = ServerStatus(mode: string, controlPort: Int64, tunnelsCount: nat, tunnels: seq<TunnelStatus>)

  function StatusOf(t: TunnelEntry): TunnelStatus
  {
    TunnelStatus(t.name, t.protocol, t.remotePort, t.activeConns)
  }

  /** The names of a status list, in order. */
  function NamesOf(ts: seq<TunnelStatus>): (ns: seq<string>)
    ensures |ns| == |ts| && forall i | 0 <= i < |ts| :: ns[i] == ts[i].name
  {
    seq(|ts|, i requires 0 <= i < |ts| => ts[i].name)
  }

  predicate NoRepeats(s: seq<PublicConn>)
  {
    forall i, j | 0 <= i < j < |s| :: s[i] != s[j]
  }

  /** The `new_conn` notification for connection `id` of tunnel `name`. */
  function NewConnNotice(id: ConnId, name: string): Message
  {
    Message(NewConn, EncodeNewConnRequest(NewConnRequest(id, name)))
  }

  // ------------------------------------------------- invariants, on values

  /** Every registry entry names an arena slot of that name; non-ephemeral ports are bound and pairwise distinct. */
  ghost predicate RegistryOk(arena: seq<TunnelEntry>, tunnels: map<string, nat>, bound: set<int>)
  {
    && (forall n | n in tunnels :: tunnels[n] < |arena| && arena[tunnels[n]].name == n)
    && (forall i | 0 <= i < |arena| :: arena[i].remotePort != 0 ==> arena[i].remotePort in bound)
    && (forall i, j | 0 <= i < j < |arena| ::
          arena[i].remotePort != 0 ==> arena[i].remotePort != arena[j].remotePort)
  }

  /** Pending and bridged ids are disjoint and point into the arena. */
  ghost predicate EntriesOk(size: nat, pending: map<ConnId, PendingConn>, bridges: map<ConnId, PendingConn>)
  {
    && pending.Keys !! bridges.Keys
    && (forall id | id in pending :: pending[id].tunnel < size)
    && (forall id | id in bridges :: bridges[id].tunnel < size)
  }

  /** Counter conservation: a tunnel's count is its pending entries plus its live bridges. */
  ghost predicate CountsOk(arena: seq<TunnelEntry>, pending: map<ConnId, PendingConn>, bridges: map<ConnId, PendingConn>)
  {
    forall t | 0 <= t < |arena| :: arena[t].activeConns == |Held(pending, t)| + |Held(bridges, t)|
  }

  /**
   * No connection is closed twice, only accepted connections are closed, and
   * every live entry (pending or bridged) owns its own accepted, still open, connection.
   */
  ghost predicate ConnsOk(live: map<ConnId, PendingConn>, accepted: set<PublicConn>, closeLog: seq<PublicConn>)
  {
    && NoRepeats(closeLog)
    && (forall i | 0 <= i < |closeLog| :: closeLog[i] in accepted)
    && (forall id | id in live :: live[id].conn in accepted && live[id].conn !in closeLog)
    && (forall a, b | a in live && b in live && a != b :: live[a].conn != live[b].conn)
  }

  function Bump(arena: seq<TunnelEntry>, t: nat, delta: int): (r: seq<TunnelEntry>)
    requires t < |arena|
    ensures |r| == |arena| && r[t].activeConns == arena[t].activeConns + delta
    ensures forall u | 0 <= u < |arena| && u != t :: r[u] == arena[u]
    ensures r[t] == arena[t].(activeConns := arena[t].activeConns + delta)
  {
    arena[t := arena[t].(activeConns := arena[t].activeConns + delta)]
  }

  /** Parking a fresh id on tunnel `t` while counting it keeps the counters conserved. */
  lemma ParkKeepsCounts(arena: seq<TunnelEntry>, pending: map<ConnId, PendingConn>,
                        bridges: map<ConnId, PendingConn>, id: ConnId, e: PendingConn)
    requires CountsOk(arena, pending, bridges)
    requires e.tunnel < |arena| && id !in pending
    ensures CountsOk(Bump(arena, e.tunnel, 1), pending[id := e], bridges)
  {
    var arena' := Bump(arena, e.tunnel, 1);
    forall u | 0 <= u < |arena'|
      ensures arena'[u].activeConns == |Held(pending[id := e], u)| + |Held(bridges, u)|
    {
      HeldAfterInsert(pending, id, e, u);
    }
  }

  /** Dropping a pending id while uncounting it keeps the counters conserved. */
  lemma DropKeepsCounts(arena: seq<TunnelEntry>, pending: map<ConnId, PendingConn>,
                        bridges: map<ConnId, PendingConn>, id: ConnId)
    requires CountsOk(arena, pending, bridges)
    requires id in pending && pending[id].tunnel < |arena|
    ensures CountsOk(Bump(arena, pending[id].tunnel, -1), pending - {id}, bridges)
  {
    var arena' := Bump(arena, pending[id].tunnel, -1);
    forall u | 0 <= u < |arena'|
      ensures arena'[u].activeConns == |Held(pending - {id}, u)| + |Held(bridges, u)|
    {
      HeldAfterRemove(pending, id, u);
    }
  }

  /** Moving a pending id to the bridges leaves every counter as it is. */
  lemma ClaimKeepsCounts(arena: seq<TunnelEntry>, pending: map<ConnId, PendingConn>,
                         bridges: map<ConnId, PendingConn>, id: ConnId)
    requires CountsOk(arena, pending, bridges)
    requires id in pending && id !in bridges
    ensures CountsOk(arena, pending - {id}, bridges[id := pending[id]])
  {
    forall u | 0 <= u < |arena|
      ensures arena[u].activeConns == |Held(pending - {id}, u)| + |Held(bridges[id := pending[id]], u)|
    {
      HeldAfterRemove(pending, id, u);
      HeldAfterInsert(bridges, id, pending[id], u);
    }
  }

  /** Ending a bridge while uncounting it keeps the counters conserved. */
  lemma EndBridgeKeepsCounts(arena: seq<TunnelEntry>, pending: map<ConnId, PendingConn>,
                             bridges: map<ConnId, PendingConn>, id: ConnId)
    requires CountsOk(arena, pending, bridges)
    requires id in bridges && bridges[id].tunnel < |arena|
    ensures CountsOk(Bump(arena, bridges[id].tunnel, -1), pending, bridges - {id})
  {
    var arena' := Bump(arena, bridges[id].tunnel, -1);
    forall u | 0 <= u < |arena'|
      ensures arena'[u].activeConns == |Held(pending, u)| + |Held(bridges - {id}, u)|
    {
      HeldAfterRemove(bridges, id, u);
    }
  }

  /** A newly accepted connection under a fresh id keeps ownership exclusive. */
  lemma ParkKeepsConns(live: map<ConnId, PendingConn>, accepted: set<PublicConn>, closeLog: seq<PublicConn>,
                       id: ConnId, e: PendingConn)
    requires ConnsOk(live, accepted, closeLog)
    requires id !in live && e.conn !in accepted
    ensures ConnsOk(live[id := e], accepted + {e.conn}, closeLog)
  {
  }

  /** Closing the connection of a live entry as the entry goes away never closes a connection twice. */
  lemma CloseKeepsConns(live: map<ConnId, PendingConn>, accepted: set<PublicConn>, closeLog: seq<PublicConn>,
                        id: ConnId)
    requires ConnsOk(live, accepted, closeLog)
    requires id in live
    ensures ConnsOk(live - {id}, accepted, closeLog + [live[id].conn])
    ensures live[id].conn !in closeLog
  {
    var c := live[id].conn;
    var log := closeLog + [c];
    forall k | k in live - {id}
      ensures (live - {id})[k].conn !in log
    {
      assert live[k].conn != c;
    }
  }

  /** A newly bound tunnel appended to the arena keeps the registry invariant. */
  lemma RegisterKeepsRegistry(arena: seq<TunnelEntry>, tunnels: map<string, nat>, bound: set<int>, entry: TunnelEntry)
    requires RegistryOk(arena, tunnels, bound)
    requires Bindable(bound, entry.remotePort)
    ensures RegistryOk(arena + [entry], tunnels[entry.name := |arena|],
                       bound + (if entry.remotePort == 0 then {} else {entry.remotePort as int}))
  {
    var arena' := arena + [entry];
    forall i, j | 0 <= i < j < |arena'| && arena'[i].remotePort != 0
      ensures arena'[i].remotePort != arena'[j].remotePort
    {
      if j == |arena| {
        assert arena'[i].remotePort in bound;
      }
    }
  }

  /** A new tunnel with a zero count keeps the counters conserved: nothing refers to it yet. */
  lemma AppendKeepsCounts(arena: seq<TunnelEntry>, pending: map<ConnId, PendingConn>,
                          bridges: map<ConnId, PendingConn>, entry: TunnelEntry)
    requires EntriesOk(|arena|, pending, bridges) && CountsOk(arena, pending, bridges)
    requires entry.activeConns == 0
    ensures EntriesOk(|arena| + 1, pending, bridges) && CountsOk(arena + [entry], pending, bridges)
  {
    assert Held(pending, |arena|) == {} && Held(bridges, |arena|) == {};
  }

  /** The parts of the relay's state a registration changes. */
  datatype Registry = Registry(arena: seq<TunnelEntry>, tunnels: map<string, nat>, bound: set<int>)

  /**
   * One registration against `g` from control connection `conn`: the reply
   * and the registry after it. Only a registered tunnel is added, under its
   * name (an earlier tunnel of that name keeps its arena slot), and its port
   * becomes bound; every other name keeps its tunnel.
   */
  function RegisterStep(portRange: string, g: Registry, conn: ConnHandle, req: RegTunnelRequest): (out: (Registry, Message))
    ensures out.1 == RegReply(portRange, req, Verdict(portRange, g.bound, req.remotePort))
    ensures Verdict(portRange, g.bound, req.remotePort) != Registered ==> out.0 == g
    ensures Verdict(portRange, g.bound, req.remotePort) == Registered ==>
      && |out.0.arena| == |g.arena| + 1 && g.arena <= out.0.arena
      && out.0.tunnels.Keys == g.tunnels.Keys + {req.name}
      && out.0.tunnels[req.name] == |g.arena|
      && out.0.arena[|g.arena|] == TunnelEntry(req.name, req.protocol, req.remotePort, conn, 0)
      && (forall n | n in g.tunnels && n != req.name :: out.0.tunnels[n] == g.tunnels[n])
      && (req.remotePort != 0 ==> req.remotePort in out.0.bound)
      && g.bound <= out.0.bound
    ensures RegistryOk(g.arena, g.tunnels, g.bound) ==> RegistryOk(out.0.arena, out.0.tunnels, out.0.bound)
  {
    var v := Verdict(portRange, g.bound, req.remotePort);
    var reply := RegReply(portRange, req, v);
    if v != Registered then (g, reply)
    else
      var entry := TunnelEntry(req.name, req.protocol, req.remotePort, conn, 0);
      var g' := Registry(g.arena + [entry], g.tunnels[req.name := |g.arena|],
                         g.bound + (if req.remotePort == 0 then {} else {req.remotePort as int}));
      assert RegistryOk(g.arena, g.tunnels, g.bound) ==> RegistryOk(g'.arena, g'.tunnels, g'.bound) by {
        if RegistryOk(g.arena, g.tunnels, g.bound) {
          RegisterKeepsRegistry(g.arena, g.tunnels, g.bound, entry);
        }
      }
      (g', reply)
  }

  /** The effect of one read that does not end the control loop: the registry after it and the replies it writes. */
  function StepEffect(portRange: string, conn: ConnHandle, g: Registry, step: ControlStep): (out: (Registry, seq<Message>))
    ensures TypesOf(out.1) == ReplyOf(step)
    ensures !step.Register? ==> out.0 == g
    ensures g.arena <= out.0.arena && g.tunnels.Keys <= out.0.tunnels.Keys && g.bound <= out.0.bound
  {
    match step
    case Register(req) =>
      var r := RegisterStep(portRange, g, conn, req);
      (r.0, [r.1])
    case AnswerPing => (g, [Heartbeat(Pong)])
    case _ => (g, [])
  }

  /**
   * The control loop's effect over reads that do not end it: the registry
   * after them and the replies written, in order. The reply types are those
   * of the reads, and the registry only grows.
   */
  function AfterReads(portRange: string, conn: ConnHandle, g: Registry, handled: seq<ReadResult>): (out: (Registry, seq<Message>))
    ensures TypesOf(out.1) == ReplyTypes(handled)
    ensures g.arena <= out.0.arena && g.tunnels.Keys <= out.0.tunnels.Keys && g.bound <= out.0.bound
  {
    if handled == [] then (g, [])
    else
      var before := AfterReads(portRange, conn, g, handled[..|handled| - 1]);
      var e := StepEffect(portRange, conn, before.0, Classify(handled[|handled| - 1]));
      TypesOfConcat(before.1, e.1);
      (e.0, before.1 + e.1)
  }

  /** Handling one more read extends the fold by that read's effect. */
  lemma AfterReadsExtend(portRange: string, conn: ConnHandle, g: Registry, rest: seq<ReadResult>, k: nat)
    requires k < |rest|
    ensures var before := AfterReads(portRange, conn, g, rest[..k]);
      var e := StepEffect(portRange, conn, before.0, Classify(rest[k]));
      AfterReads(portRange, conn, g, rest[..k + 1]) == (e.0, before.1 + e.1)
  {
    assert rest[..k + 1][..k] == rest[..k];
    assert rest[..k + 1][k] == rest[k];
  }

  /** The loop of GetStatus over the registry (in Go's unspecified map order). */
  method ListTunnels(arena: seq<TunnelEntry>, tunnels: map<string, nat>) returns (out: seq<TunnelStatus>)
    requires forall n | n in tunnels :: tunnels[n] < |arena| && arena[tunnels[n]].name == n
    ensures |out| == |tunnels|
    ensures forall i | 0 <= i < |out| ::
      out[i].name in tunnels && out[i] == StatusOf(arena[tunnels[out[i].name]])
    ensures forall n | n in tunnels :: n in NamesOf(out)
  {
    out := [];
    var left := tunnels.Keys;
    ghost var order: seq<string> := [];
    while left != {}
      invariant left <= tunnels.Keys
      invariant |order| == |out|
      invariant forall i | 0 <= i < |order| ::
        order[i] in tunnels && order[i] !in left && out[i] == StatusOf(arena[tunnels[order[i]]])
      invariant forall n | n in tunnels && n !in left :: n in order
      invariant |out| + |left| == |tunnels.Keys|
      decreases |left|
    {
      var n :| n in left;
      out := out + [StatusOf(arena[tunnels[n]])];
      order := order + [n];
      left := left - {n};
    }
    assert NamesOf(out) == order;
  }

  class Server {
    const config: ServerConfig
    var arena: seq<TunnelEntry>
    var tunnels: map<string, nat>
    var pending: map<ConnId, PendingConn>
    var bridges: map<ConnId, PendingConn>
    var bound: set<int>
    var accepted: set<PublicConn>
    var closeLog: seq<PublicConn>

    /** The relay's invariant: the four value-level invariants over its fields. */
    ghost predicate Valid()
      reads this
    {
      && RegistryOk(arena, tunnels, bound)
      && EntriesOk(|arena|, pending, bridges)
      && CountsOk(arena, pending, bridges)
      && ConnsOk(pending + bridges, accepted, closeLog)
    }

    /** A relay with an empty registry; `inUse` are the ports already bound on the host (the control port among them). */
    constructor (cfg: ServerConfig, inUse: set<int>)
      ensures Valid()
      ensures config == cfg && bound == inUse
      ensures arena == [] && tunnels == map[] && pending == map[] && bridges == map[]
      ensures accepted == {} && closeLog == []
    {
      config := cfg;
      arena, tunnels := [], map[];
      pending, bridges := map[], map[];
      bound, accepted, closeLog := inUse, {}, [];
    }

    /**
     * handleRegisterTunnel: range check, bind, then store the tunnel under the
     * requested name (replacing any earlier entry of that name) and reply.
     */
    method HandleRegisterTunnel(conn: ConnHandle, req: RegTunnelRequest) returns (reply: Message)
      requires Valid()
      modifies this
      ensures Valid()
      ensures var v := Verdict(config.portRange, old(bound), req.remotePort);
        && reply == RegReply(config.portRange, req, v)
        && (v == Registered ==>
              && arena == old(arena) + [TunnelEntry(req.name, req.protocol, req.remotePort, conn, 0)]
              && tunnels == old(tunnels)[req.name := |old(arena)|]
              && bound == old(bound) + (if req.remotePort == 0 then {} else {req.remotePort as int}))
        && (v != Registered ==> arena == old(arena) && tunnels == old(tunnels) && bound == old(bound))
      ensures (Registry(arena, tunnels, bound), reply)
              == RegisterStep(config.portRange, old(Registry(arena, tunnels, bound)), conn, req)
      ensures pending == old(pending) && bridges == old(bridges)
      ensures accepted == old(accepted) && closeLog == old(closeLog)
    {
      var v := Verdict(config.portRange, bound, req.remotePort);
      reply := RegReply(config.portRange, req, v);
      if v != Registered {
        return;
      }
      var entry := TunnelEntry(req.name, req.protocol, req.remotePort, conn, 0);
      RegisterKeepsRegistry(arena, tunnels, bound, entry);
      AppendKeepsCounts(arena, pending, bridges, entry);
      arena, tunnels := arena + [entry], tunnels[req.name := |arena|];
      bound := bound + (if req.remotePort == 0 then {} else {req.remotePort as int});
    }

    /** Check-and-delete of a claimed id; a hit starts a bridge that owns the public connection. */
    method ClaimPending(id: ConnId) returns (claimed: bool)
      requires Valid()
      modifies this
      ensures Valid()
      ensures claimed == (id in old(pending))
      ensures pending == TakePending(old(pending), id).1
      ensures claimed ==> bridges == old(bridges)[id := old(pending)[id]]
      ensures !claimed ==> bridges == old(bridges)
      ensures arena == old(arena) && tunnels == old(tunnels) && bound == old(bound)
      ensures accepted == old(accepted) && closeLog == old(closeLog)
    {
      var taken := TakePending(pending, id);
      claimed := taken.0.Some?;
      if !claimed {
        return;
      }
      ClaimKeepsCounts(arena, pending, bridges, id);
      assert taken.1 + bridges[id := pending[id]] == pending + bridges;
      pending, bridges := taken.1, bridges[id := pending[id]];
    }

    /** The end of a bridge (the deferred function of handleProxyData): close the public connection, decrement once. */
    method FinishBridge(id: ConnId)
      requires Valid()
      requires id in bridges
      modifies this
      ensures Valid()
      ensures var e := old(bridges)[id];
        && closeLog == old(closeLog) + [e.conn]
        && e.conn !in old(closeLog)
        && bridges == old(bridges) - {id}
        && arena == Bump(old(arena), e.tunnel, -1)
      ensures pending == old(pending) && tunnels == old(tunnels) && bound == old(bound) && accepted == old(accepted)
    {
      var e := bridges[id];
      EndBridgeKeepsCounts(arena, pending, bridges, id);
      CloseKeepsConns(pending + bridges, accepted, closeLog, id);
      assert (pending + bridges) - {id} == pending + (bridges - {id});
      bridges := bridges - {id};
      closeLog := closeLog + [e.conn];
      arena := Bump(arena, e.tunnel, -1);
    }

    /** The expiry timer's body: if the id is still pending, close its connection, delete it and decrement once. */
    method Expire(id: ConnId) returns (fired: bool)
      requires Valid()
      modifies this
      ensures Valid()
      ensures fired == (id in old(pending))
      ensures pending == TakePending(old(pending), id).1
      ensures fired ==>
        var e := old(pending)[id];
        && closeLog == old(closeLog) + [e.conn]
        && e.conn !in old(closeLog)
        && arena == Bump(old(arena), e.tunnel, -1)
      ensures !fired ==> closeLog == old(closeLog) && arena == old(arena)
      ensures bridges == old(bridges) && tunnels == old(tunnels) && bound == old(bound) && accepted == old(accepted)
    {
      var taken := TakePending(pending, id);
      fired := taken.0.Some?;
      if !fired {
        return;
      }
      var e := taken.0.value;
      DropKeepsCounts(arena, pending, bridges, id);
      CloseKeepsConns(pending + bridges, accepted, closeLog, id);
      assert (pending + bridges) - {id} == taken.1 + bridges;
      closeLog := closeLog + [e.conn];
      pending := taken.1;
      arena := Bump(arena, e.tunnel, -1);
    }

    /**
     * handlePublicConnection up to arming the timer: count the connection,
     * park it under a fresh id, notify the owning control connection; if the
     * notification cannot be written, undo all three.
     */
    method AcceptPublic(t: nat, conn: PublicConn, id: ConnId, notifyOk: bool)
      returns (notice: Message, target: ConnHandle)
      requires Valid()
      requires t < |arena|
      requires id !in pending && id !in bridges
      requires conn !in accepted
      modifies this
      ensures Valid()
      ensures notice == NewConnNotice(id, old(arena)[t].name) && target == old(arena)[t].controlConn
      ensures accepted == old(accepted) + {conn}
      ensures notifyOk ==>
        && pending == old(pending)[id := PendingConn(conn, t)]
        && arena == Bump(old(arena), t, 1)
        && closeLog == old(closeLog)
      ensures !notifyOk ==>
        pending == old(pending) && arena == old(arena) && closeLog == old(closeLog) + [conn]
      ensures bridges == old(bridges) && tunnels == old(tunnels) && bound == old(bound)
    {
      Park(t, conn, id);
      notice := NewConnNotice(id, arena[t].name);
      target := arena[t].controlConn;
      if !notifyOk {
        Rollback(id);
        assert Bump(Bump(old(arena), t, 1), t, -1) == old(arena);
      }
    }

    /** Count the connection on its tunnel and park it under `id`. */
    method Park(t: nat, conn: PublicConn, id: ConnId)
      requires Valid()
      requires t < |arena|
      requires id !in pending && id !in bridges
      requires conn !in accepted
      modifies this
      ensures Valid()
      ensures accepted == old(accepted) + {conn}
      ensures pending == old(pending)[id := PendingConn(conn, t)]
      ensures arena == Bump(old(arena), t, 1)
      ensures closeLog == old(closeLog) && bridges == old(bridges) && tunnels == old(tunnels) && bound == old(bound)
    {
      var e := PendingConn(conn, t);
      ParkKeepsCounts(arena, pending, bridges, id, e);
      ParkKeepsConns(pending + bridges, accepted, closeLog, id, e);
      assert (pending + bridges)[id := e] == pending[id := e] + bridges;
      accepted := accepted + {conn};
      arena := Bump(arena, t, 1);
      pending := pending[id := e];
    }

    /** The rollback after a failed notification: delete the entry, close its connection, decrement. */
    method Rollback(id: ConnId)
      requires Valid()
      requires id in pending
      modifies this
      ensures Valid()
      ensures var e := old(pending)[id];
        && pending == old(pending) - {id}
        && closeLog == old(closeLog) + [e.conn]
        && arena == Bump(old(arena), e.tunnel, -1)
      ensures accepted == old(accepted) && bridges == old(bridges) && tunnels == old(tunnels) && bound == old(bound)
    {
      var e := pending[id];
      DropKeepsCounts(arena, pending, bridges, id);
      CloseKeepsConns(pending + bridges, accepted, closeLog, id);
      assert (pending + bridges) - {id} == (pending - {id}) + bridges;
      pending := pending - {id};
      closeLog := closeLog + [e.conn];
      arena := Bump(arena, e.tunnel, -1);
    }

    /**
     * handleControlConnection: the handshake on the first read, then one step
     * per read until a step ends the loop. `writable` is whether the success
     * reply of the handshake can be written; the control loop ignores the
     * write errors of its own replies. Returns the messages written, in order.
     */
    method ServeControl(conn: ConnHandle, inbound: seq<ReadResult>, writable: bool)
      returns (written: seq<Message>, ending: ControlEnd)
      requires Valid()
      modifies this
      ensures Valid()
      ensures var h := Handshake(config.token, ReadAt(inbound, 0), writable);
        && (!h.ok ==>
              && ending == HandshakeRejected
              && written == (if h.reply.Some? then [h.reply.value] else [])
              && arena == old(arena) && tunnels == old(tunnels) && bound == old(bound)
              && pending == old(pending) && bridges == old(bridges))
        && (h.ok ==>
              var rest := Drop(inbound, 1);
              var exit := LoopExit(rest);
              && |written| >= 1 && written[0] == h.reply.value
              && TypesOf(written[1..]) == ReplyTypes(rest[..ExitIndex(rest)])
              && (Registry(arena, tunnels, bound), written[1..])
                 == AfterReads(config.portRange, conn, old(Registry(arena, tunnels, bound)), rest[..ExitIndex(rest)])
              && (exit.Halt? ==> ending == exit.end && pending == old(pending) && bridges == old(bridges))
              && (exit.Claim? ==>
                    && ending == DataMode(exit.connId, exit.connId in old(pending))
                    && pending == TakePending(old(pending), exit.connId).1
                    && (exit.connId in old(pending) ==>
                          bridges == old(bridges)[exit.connId := old(pending)[exit.connId]])
                    && (exit.connId !in old(pending) ==> bridges == old(bridges))))
      ensures old(tunnels).Keys <= tunnels.Keys && old(arena) <= arena
      ensures accepted == old(accepted) && closeLog == old(closeLog)
    {
      var h := Handshake(config.token, ReadAt(inbound, 0), writable);
      written := if h.reply.Some? then [h.reply.value] else [];
      if !h.ok {
        ending := HandshakeRejected;
        return;
      }
      var rest := Drop(inbound, 1);
      var replies, k := ControlLoop(conn, rest);
      written := written + replies;
      assert written[1..] == replies;
      if k == |rest| {
        ending := StreamEnded;
        return;
      }
      match Classify(rest[k]) {
        case Claim(id) =>
          var claimed := ClaimPending(id);
          ending := DataMode(id, claimed);
        case Halt(e) =>
          ending := e;
      }
    }

    /**
     * The control loop proper: handle reads until one ends the loop. Returns
     * the replies written and the position of the read that ended it.
     */
    method ControlLoop(conn: ConnHandle, rest: seq<ReadResult>) returns (replies: seq<Message>, k: nat)
      requires Valid()
      modifies this
      ensures Valid()
      ensures k == ExitIndex(rest)
      ensures (Registry(arena, tunnels, bound), replies)
              == AfterReads(config.portRange, conn, old(Registry(arena, tunnels, bound)), rest[..k])
      ensures TypesOf(replies) == ReplyTypes(rest[..k])
      ensures pending == old(pending) && bridges == old(bridges)
      ensures accepted == old(accepted) && closeLog == old(closeLog)
      ensures old(tunnels).Keys <= tunnels.Keys && old(arena) <= arena
    {
      ghost var g0 := Registry(arena, tunnels, bound);
      replies := [];
      k := 0;
      while k < |rest| && !Exits(Classify(rest[k]))
        invariant 0 <= k <= ExitIndex(rest)
        invariant (Registry(arena, tunnels, bound), replies) == AfterReads(config.portRange, conn, g0, rest[..k])
        invariant Valid()
        invariant pending == old(pending) && bridges == old(bridges)
        invariant accepted == old(accepted) && closeLog == old(closeLog)
        decreases |rest| - k
      {
        ghost var before := Registry(arena, tunnels, bound);
        var out := Step(conn, Classify(rest[k]));
        AfterReadsExtend(config.portRange, conn, g0, rest, k);
        replies := replies + out;
        k := k + 1;
      }
      assert g0 == old(Registry(arena, tunnels, bound));
    }

    /** One read that does not end the loop: a registration or a ping; anything else writes nothing. */
    method Step(conn: ConnHandle, step: ControlStep) returns (out: seq<Message>)
      requires Valid()
      requires !Exits(step)
      modifies this
      ensures Valid()
      ensures TypesOf(out) == ReplyOf(step)
      ensures (Registry(arena, tunnels, bound), out) == StepEffect(config.portRange, conn, old(Registry(arena, tunnels, bound)), step)
      ensures step.Register? ==>
        out == [RegReply(config.portRange, step.req, Verdict(config.portRange, old(bound), step.req.remotePort))]
      ensures step.AnswerPing? ==> out == [Heartbeat(Pong)]
      ensures !step.Register? ==> arena == old(arena) && tunnels == old(tunnels) && bound == old(bound)
      ensures pending == old(pending) && bridges == old(bridges)
      ensures accepted == old(accepted) && closeLog == old(closeLog)
      ensures old(tunnels).Keys <= tunnels.Keys && old(arena) <= arena
    {
      match step {
        case Register(req) =>
          var r := HandleRegisterTunnel(conn, req);
          out := [r];
        case AnswerPing =>
          out := [Heartbeat(Pong)];
        case Ignore =>
          out := [];
      }
    }

    /** A claim and an expiry of the same id, in either order: exactly one of them takes the entry. */
    method ClaimRacesExpiry(id: ConnId, claimFirst: bool) returns (claimed: bool, expired: bool)
      requires Valid()
      modifies this
      ensures Valid()
      ensures !(claimed && expired)
      ensures claimed || expired <==> id in old(pending)
      ensures id in old(pending) ==> (claimed <==> claimFirst)
      ensures pending == TakePending(old(pending), id).1
      ensures bridges == if claimed then old(bridges)[id := old(pending)[id]] else old(bridges)
      ensures arena == if expired then Bump(old(arena), old(pending)[id].tunnel, -1) else old(arena)
      ensures closeLog == if expired then old(closeLog) + [old(pending)[id].conn] else old(closeLog)
      ensures tunnels == old(tunnels) && bound == old(bound) && accepted == old(accepted)
    {
      if claimFirst {
        claimed := ClaimPending(id);
        expired := Expire(id);
      } else {
        expired := Expire(id);
        claimed := ClaimPending(id);
      }
    }

    /** GetStatus: one entry per registry name, with that tunnel's current count. */
    method GetStatus() returns (s: ServerStatus)
      requires Valid()
      ensures s.mode == "server" && s.controlPort == config.controlPort
      ensures s.tunnelsCount == |s.tunnels| == |tunnels|
      ensures forall i | 0 <= i < |s.tunnels| ::
        s.tunnels[i].name in tunnels && s.tunnels[i] == StatusOf(arena[tunnels[s.tunnels[i].name]])
      ensures forall n | n in tunnels :: n in NamesOf(s.tunnels)
      ensures forall i | 0 <= i < |s.tunnels| :: s.tunnels[i].activeConns >= 0
    {
      var out := ListTunnels(arena, tunnels);
      s := ServerStatus("server", config.controlPort, |out|, out);
    }

    /** The relay's dashboard cannot add tunnels. */
    method AddTunnel(t: Tunnel) returns (err: Outcome)
      ensures err == Fail("server mode does not support adding tunnels manually")
    {
      err := Fail("server mode does not support adding tunnels manually");
    }

    /** The relay's dashboard cannot remove tunnels. */
    method RemoveTunnel(name: string) returns (err: Outcome)
      ensures err == Fail("server mode does not support removing tunnels manually")
    {
      err := Fail("server mode does not support removing tunnels manually");
    }
  }
}
