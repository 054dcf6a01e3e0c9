/**
 * The two ends against each other: what the agent writes, read by the
 * relay's rules, and what the relay writes back, read by the agent's checks.
 */
module Interop {
  import opened Wrappers
  import opened Protocol
  import opened Config
  import opened RelayRules
  import opened RelayServer
  import opened Agent

  /**
   * An agent's `auth` is answered by the relay, and the agent accepts the
   * answer exactly when the tokens agree; a mismatch surfaces as
   * "auth failed: Invalid Token".
   */
  lemma HandshakeAgreement(relayToken: string, agentToken: string)
    ensures var h := Handshake(relayToken, Received(AuthMessage(agentToken)), true);
      && h.reply.Some?
      && (h.ok <==> agentToken == relayToken)
      && (CheckAuthResponse(true, Received(h.reply.value)).Pass? <==> agentToken == relayToken)
      && (agentToken != relayToken ==>
            CheckAuthResponse(true, Received(h.reply.value)) == Fail("auth failed: Invalid Token"))
  {
    var first := Received(AuthMessage(agentToken));
    assert DecodeAuthRequest(first.msg.payload) == Some(AuthRequest(agentToken));
  }

  /**
   * The relay reads an agent's registration as the configured tunnel's name,
   * protocol and port, and the agent reports success exactly when the relay
   * registered it.
   */
  lemma RegistrationAgreement(portRange: string, bound: set<int>, t: Tunnel)
    ensures Classify(Received(RegMessage(t))) == Register(RegTunnelRequest(t.name, t.protocol, t.remotePort))
    ensures var v := Verdict(portRange, bound, t.remotePort);
      var reply := RegReply(portRange, RegTunnelRequest(t.name, t.protocol, t.remotePort), v);
      CheckRegResponse(true, Received(reply)).Pass? <==> PortAllowed(portRange, t.remotePort) && Bindable(bound, t.remotePort)
  {
    var req := RegTunnelRequest(t.name, t.protocol, t.remotePort);
    assert DecodeRegTunnelRequest(RegMessage(t).payload) == Some(req);
  }

  /** A relay `new_conn` notice starts an agent handler for the same connection id and tunnel. */
  lemma NoticeStartsHandler(id: ConnId, name: string)
    ensures ClassifyRead(Received(NewConnNotice(id, name))) == Spawn(NewConnRequest(id, name))
  {
    assert DecodeNewConnRequest(NewConnNotice(id, name).payload) == Some(NewConnRequest(id, name));
  }

  /**
   * The data connection's second message is read by the relay's control loop
   * as a claim on the very connection id the notice carried.
   */
  lemma ProxyDataClaims(id: ConnId)
    ensures Classify(Received(ProxyDataMessage(id))) == Claim(id)
  {
    assert DecodeProxyDataRequest(ProxyDataMessage(id).payload) == Some(ProxyDataRequest(id));
  }

  /** The agent's heartbeat is answered, and the relay's `pong` is ignored by the agent. */
  lemma HeartbeatAnswered()
    ensures Classify(Received(Heartbeat(Ping))) == AnswerPing
    ensures ReplyOf(AnswerPing) == [Pong]
    ensures ClassifyRead(Received(Heartbeat(Pong))) == Skip
  {
  }
}
