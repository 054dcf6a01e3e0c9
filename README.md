# openproxy core, modelled in Dafny

openproxy exposes services on a machine behind NAT through a public **relay**.
An **agent** keeps one control connection to the relay. Over it the agent
authenticates with a shared token and registers tunnels (a name, a protocol
tag, a remote port). For each registration the relay checks the port against
its `port_range` setting, binds a listener and records the tunnel under its
name. A public client that connects to that port is parked under a connection
id, and the relay sends the owning agent a `new_conn`. The agent dials the
local service, opens a second connection to the relay, authenticates again and
claims the id with `proxy_data`. The relay then bridges the two connections.
An unclaimed connection expires after ten seconds. Both ends offer a status
snapshot and add/remove operations to a dashboard.

The model has these modules:

- `Wrappers`: `Option` and a pass/fail `Outcome`.
- `Numerals`:
  - Go's `strings.Split` on a one-character separator;
  - `strconv.Atoi` with its error discarded. It scans left to right like
    `strconv.ParseUint`. A non-digit met before the value overflows reads as 0.
    A digit run that passes 2^64 − 1 before any non-digit saturates at the
    int64 bound of its sign, whatever follows it;
  - decimal printing, as done by the `%d` verb.
- `Protocol`:
  - the eight message types and the `{type, payload}` envelope;
  - the six payload records;
  - decoding that follows `json.Unmarshal`: a `null` payload gives zero
    values, a missing field gives a zero value, and a field of the wrong kind
    is an error;
  - encoding that follows `json.Marshal`, with `error` omitted when empty.
- `Config`: the configuration records both ends consume.
- `RelayRules`: the relay's pure decisions:
  - the handshake;
  - the port-range check and the bind verdict;
  - the registration reply;
  - how the control loop classifies each read;
  - the check-and-delete on the pending map.
- `RelayServer`: the relay's shared state as a class `Server`:
  - tunnels are kept in an arena. A replaced tunnel keeps its slot, because
    pending connections still point at it;
  - the name registry, the pending map, the running bridges, the bound ports;
  - a log of closed public connections.

  The invariant `Valid` says:
  - each tunnel's live count equals its pending entries plus its running
    bridges;
  - no public connection is closed twice;
  - pending and bridged ids are disjoint;
  - bound ports are distinct.

  Each locked section of `server.go` is a method that keeps `Valid`. The
  one exception is the pair of sections around the `new_conn` notice in
  `handlePublicConnection`: `AcceptPublic` runs that pair as one step (see
  "## Left out").
- `Agent`: the agent's pure checks, its read loop, and a class `Client`:
  - the session of `Start`;
  - the heartbeat tick;
  - `handleNewConn`;
  - the dashboard operations.
- `Interop`: lemmas that feed what one end writes to the other end's rules.

Sockets are abstracted:
- a read is a `ReadResult`: a message, a clean end of stream, or a decode
  error;
- a connection the agent uses is a `Link`: whether each write in turn
  succeeds, plus the successive reads;
- a data connection's fallible steps are a `DataEnv`.

Connection ids, public connection handles and the ports already bound on the
host are parameters.

## Model

| member | source | states |
|---|---|---|
| `Numerals.Split` | internal/server/server.go:185 | one more piece than there are separators; no piece contains the separator; joining the pieces with it gives back the input (so `""` gives `[""]`) |
| `Numerals.SplitAtOnlySeparator` | internal/server/server.go:185-186 | a text with exactly one dash splits into the text before it and the text after it |
| `Numerals.ScanPrefix` | internal/server/server.go:187-188 | the scan after k characters has parsed a value iff they are all digits with a value of at most 2^64 − 1, and that value is their decimal value; a non-digit met before any overflow makes it a syntax error; a digit prefix over 2^64 − 1 makes it a range error |
| `Numerals.Atoi` | internal/server/server.go:187-188 | empty text (after the sign) reads as 0; a non-digit met before any overflow reads as 0; a digit prefix over 2^64 − 1 reads as the int64 bound of the sign; a well-formed signed number reads as its signed value saturated to int64 |
| `Numerals.MalformedShortNumberIsZero` | internal/server/server.go:187-188 | a malformed number of at most 20 characters reads as 0 |
| `Numerals.OverflowBeforeGarbageSaturates` | internal/server/server.go:187-188 | 21 digits without a leading zero saturate at the bound of the sign, whatever follows them |
| `Numerals.NatToDecimal` | internal/server/server.go:193 | the printed text is all digits and reads back as the number |
| `Numerals.AtoiReadsDecimal` | internal/server/server.go:187-193 | Atoi inverts `%d` for every int64 |
| `Protocol.Tag` | internal/protocol/message.go:8-19 | a type is unrecognised iff its tag is none of the eight constants |
| `Protocol.TagDeterminesType` | internal/protocol/message.go:8-19 | distinct message types have distinct tags |
| `Protocol.DecodeAuthRequest` | internal/server/server.go:169-172 | an `auth` payload decodes iff it is `null` or an object whose `token` is missing, null or a string |
| `Protocol.DecodeAuthResponse` | internal/client/client.go:106-109 | decodes iff `null` or an object whose `success` is missing, null or a boolean and whose `error` is missing, null or a string |
| `Protocol.DecodeRegTunnelRequest` | internal/server/server.go:112-116 | decodes iff `null` or an object whose `name` and `protocol` fit a string and `remote_port` an int64 |
| `Protocol.DecodeRegTunnelResponse` | internal/client/client.go:139-142 | decodes iff `null` or an object whose four fields each fit their kind |
| `Protocol.DecodeNewConnRequest` | internal/client/client.go:78-82 | decodes iff `null` or an object whose `conn_id` and `tunnel_name` fit a string |
| `Protocol.DecodeProxyDataRequest` | internal/server/server.go:121-125 | decodes iff `null` or an object whose `conn_id` fits a string |
| `Protocol.EncodeAuthRequest` | internal/protocol/message.go:26-28 | the encoded `auth` payload is an object that decodes back to the same request |
| `Protocol.EncodeAuthResponse` | internal/protocol/message.go:30-33 | round trip, including the `omitempty` error field |
| `Protocol.EncodeRegTunnelRequest` | internal/protocol/message.go:35-39 | round trip of the registration request |
| `Protocol.EncodeRegTunnelResponse` | internal/protocol/message.go:41-46 | round trip of the registration reply, including the `omitempty` error field |
| `Protocol.EncodeNewConnRequest` | internal/protocol/message.go:48-51 | round trip of the `new_conn` payload |
| `Protocol.EncodeProxyDataRequest` | internal/protocol/message.go:53-55 | round trip of the `proxy_data` payload |
| `Protocol.Heartbeat` | internal/protocol/message.go:68-80 | a ping/pong written with a nil payload carries `null`, which decodes as an empty object |
| `Protocol.NullPayloadDecodesToZero` | internal/protocol/message.go:26-55 | a `null` payload decodes to the zero value of each of the six records instead of failing |
| `RelayRules.Handshake` | internal/server/server.go:158-180 | the relay replies iff the first read is an `auth` with a decodable payload; it accepts iff the token matches and the success reply is written; the reply says success iff the tokens match, with error "Invalid Token" otherwise |
| `RelayRules.RangeBounds` | internal/server/server.go:184-188 | a range is enforced iff the setting is non-empty and contains exactly one dash |
| `RelayRules.PortAllowed` | internal/server/server.go:184-199 | with no enforced range every port passes; otherwise exactly the ports between the two parsed bounds pass, both ends included |
| `RelayRules.OneDashRangeIsBetweenHalves` | internal/server/server.go:184-199 | a setting with one dash is enforced with bounds Atoi of the text before the dash and Atoi of the text after it, both ends included |
| `RelayRules.DecimalRangeIsInclusive` | internal/server/server.go:184-199 | the setting "lo-hi" admits exactly lo..hi |
| `RelayRules.NoDashNoCheck` | internal/server/server.go:184-186 | a setting without a dash admits every port |
| `RelayRules.UnparseableBoundIsZero` | internal/server/server.go:187-189 | a malformed lower bound of at most 20 characters reads as 0: exactly 0..Atoi(upper) passes ("abc-10" admits 0..10) |
| `RelayRules.UnparseableUpperBoundIsZero` | internal/server/server.go:188-189 | a malformed upper bound of at most 20 characters reads as 0: exactly Atoi(lower)..0 passes |
| `RelayRules.Bindable` | internal/server/server.go:202-203 | a port outside 0..65535 cannot be bound; port 0 always can; any other port can iff it is not bound already |
| `RelayRules.Verdict` | internal/server/server.go:184-216 | out of range iff the range check fails; bind failure iff the range passes but the port cannot be bound; registered iff both pass |
| `RelayRules.RegReply` | internal/server/server.go:189-229 | the reply is a `reg_resp` that decodes to the requested name, success iff registered, remote port 0 when out of range and the requested port otherwise, and an empty error iff registered |
| `RelayRules.Classify` | internal/server/server.go:110-128 | registration iff a `reg_tunnel` with a decodable payload; pong iff a `ping`; claim iff a `proxy_data` with a decodable payload; ignored iff any other message (a bad `reg_tunnel` included); an end of stream, a read error or a bad `proxy_data` stops the loop |
| `RelayRules.ExitIndex` | internal/server/server.go:101-128 | the loop handles every read before the first one that ends it, and only those |
| `RelayRules.LoopExit` | internal/server/server.go:101-128 | the loop always ends with a claim or a halt |
| `RelayRules.PingsGetOnePongEach` | internal/server/server.go:118-119 | a run of pings, whatever their payloads, is answered by exactly as many pongs |
| `RelayRules.IgnoredStepsWriteNothing` | internal/server/server.go:110-116 | unknown types and bad registrations write nothing and do not end the loop |
| `RelayRules.TakePending` | internal/server/server.go:133-138 | the entry is found iff the id is pending; afterwards the id is gone and every other entry is unchanged |
| `RelayRules.SecondTakeFindsNothing` | internal/server/server.go:279-282 | a second check-and-delete on the same id finds nothing and changes nothing |
| `RelayServer.ParkKeepsCounts` | internal/server/server.go:250-257 | counting a connection and parking it keeps count conservation |
| `RelayServer.DropKeepsCounts` | internal/server/server.go:267-271 | deleting a pending entry and decrementing its tunnel keeps count conservation |
| `RelayServer.ClaimKeepsCounts` | internal/server/server.go:133-145 | moving a claimed entry to the bridges leaves every count as it is |
| `RelayServer.EndBridgeKeepsCounts` | internal/server/server.go:147-150 | ending a bridge and decrementing once keeps count conservation |
| `RelayServer.CloseKeepsConns` | internal/server/server.go:278-287 | closing a live entry's connection as the entry goes away never closes a connection twice |
| `RelayServer.RegisterKeepsRegistry` | internal/server/server.go:202-227 | a newly bound tunnel keeps the registry consistent and bound ports distinct |
| `RelayServer.RegisterStep` | internal/server/server.go:182-229 | the reply is the verdict's; a refused registration changes nothing; a registered one adds exactly its name, pointing at a new arena slot holding the new tunnel with a zero count, keeps every other name's tunnel, binds its port, and keeps the registry invariant |
| `RelayServer.StepEffect` | internal/server/server.go:110-119 | the replies of one read have the types that read calls for; only a registration changes the registry, which only grows |
| `RelayServer.AfterReads` | internal/server/server.go:101-119 | over the reads a control loop handles, the replies have exactly the reply types of those reads, and the registry only grows |
| `RelayServer.ListTunnels` | internal/server/server.go:294-302 | one status row per registered name, each with that tunnel's name, protocol, port and current count |
| `RelayServer.Server.constructor` | internal/server/server.go:48-54 | empty registry, no pending connections; the invariant holds |
| `RelayServer.Server.HandleRegisterTunnel` | internal/server/server.go:182-234 | the reply and the new registry are those of `RegisterStep`: only a registered tunnel is appended and stored under its name (replacing an earlier one) and binds its port; pending connections and bridges are untouched; the invariant is kept |
| `RelayServer.Server.ClaimPending` | internal/server/server.go:132-145 | claimed iff the id was pending; a claimed entry leaves the pending map and becomes a running bridge; the invariant is kept |
| `RelayServer.Server.FinishBridge` | internal/server/server.go:147-150 | the public connection is closed (for the first time) and its tunnel's count drops by one |
| `RelayServer.Server.Expire` | internal/server/server.go:278-287 | fires iff the id is still pending; then it closes the connection once, deletes the entry and decrements once, otherwise it changes nothing |
| `RelayServer.Server.AcceptPublic` | internal/server/server.go:249-273 | the notice names the id and the tunnel and goes to its control connection; on success the connection is parked and counted; on a failed notification the entry is deleted, the connection closed and the count back where it was |
| `RelayServer.Server.Park` | internal/server/server.go:250-257 | increment, then park under the fresh id |
| `RelayServer.Server.Rollback` | internal/server/server.go:265-272 | delete, close, decrement |
| `RelayServer.Server.ServeControl` | internal/server/server.go:89-130 | a rejected handshake writes at most one reply (the failure reply, or a success reply whose write failed) and changes nothing; otherwise the success reply, then exactly the replies and the final registry `AfterReads` gives for the reads before the one that ends the loop; the session ends as that read says; a claim moves the entry to the bridges iff it was pending |
| `RelayServer.Server.ControlLoop` | internal/server/server.go:100-129 | stops at the first read that ends the loop; the replies written and the registry after it are exactly those of `AfterReads` over the handled reads |
| `RelayServer.Server.Step` | internal/server/server.go:110-119 | the replies and the new registry are those of `StepEffect`: a registration writes its verdict's reply and updates the registry as `RegisterStep` does, a ping writes a pong, anything else writes nothing and changes nothing |
| `RelayServer.Server.ClaimRacesExpiry` | internal/server/server.go:278-287 | a claim and an expiry of one id never both take the entry; when the id was pending, the one that runs first takes it; the id is gone afterwards; the bridges gain the entry iff the claim took it; the count drops by one and the connection is closed once iff the expiry took it, and otherwise neither changes |
| `RelayServer.Server.GetStatus` | internal/server/server.go:290-309 | mode "server", the control port, a tunnel count equal to the registry size, and one row per registered name with its current, non-negative count |
| `RelayServer.Server.AddTunnel` | internal/server/server.go:311-313 | always the "does not support adding" error |
| `RelayServer.Server.RemoveTunnel` | internal/server/server.go:315-317 | always the "does not support removing" error |
| `Agent.CheckAuthResponse` | internal/client/client.go:90-115 | passes iff the write succeeds and the reply is an `auth_resp` that decodes and says success; a refusal surfaces as "auth failed: " and the relay's error |
| `Agent.CheckRegResponse` | internal/client/client.go:117-150 | passes iff the write succeeds and the reply is a `reg_resp` that decodes and says success; a refusal surfaces as "registration failed: " and the relay's error |
| `Agent.Registrations` | internal/client/client.go:56-61 | one outcome per attempted registration; the read position starts after the `auth` reply and advances by at most one per registration; a registration whose write fails fails with the write error and reads nothing |
| `Agent.RegistrationsAlignWhenWritesSucceed` | internal/client/client.go:117-133 | when every registration write succeeds, registration i reads the reply at position 1 + i |
| `Agent.ClassifyRead` | internal/client/client.go:66-87 | a handler starts iff a `new_conn` decodes; any failed read stops the loop with its error; everything else is skipped |
| `Agent.StopIndex` | internal/client/client.go:67-74 | the loop handles every successful read before the first failed one |
| `Agent.OnlyNewConnSpawns` | internal/client/client.go:76-86 | pongs, unknown types and bad `new_conn` payloads start no handler |
| `Agent.SpawnedAtMostOnePerRead` | internal/client/client.go:76-86 | at most one handler per read |
| `Agent.ReadLoop` | internal/client/client.go:66-87 | the handlers started are those of the well-formed `new_conn`s before the first failed read; the error returned is that read's, and never empty |
| `Agent.LocalAddrOf` | internal/client/client.go:177-186 | the local address of the first tunnel with that name, or "" when there is none |
| `Agent.Client.constructor` | internal/client/client.go:23-25 | a new agent holds its configuration, no control connection, and is not connected |
| `Agent.Client.Attach` | internal/client/client.go:36-39 | control connection published and connected set |
| `Agent.Client.Detach` | internal/client/client.go:41-47 | both cleared |
| `Agent.Client.RunSession` | internal/client/client.go:49-88 | `auth` first. A refused authentication returns its error at once. Otherwise every configured tunnel is registered in order, as `Registrations` says, and a failed registration does not stop the rest. Then the read loop runs from the first read left unconsumed. The result is never success |
| `Agent.Client.Start` | internal/client/client.go:27-88 | a failed dial changes nothing and writes nothing; after a dial the session's results are returned and both fields are cleared again |
| `Agent.Client.HeartbeatTick` | internal/client/client.go:156-171 | no control connection: stop without writing; otherwise write a ping and go on iff the write succeeds |
| `Agent.Client.FindLocalAddr` | internal/client/client.go:177-186 | the loop with `break` finds the first match in the live configuration |
| `Agent.Client.HandleNewConn` | internal/client/client.go:175-232 | unknown tunnel: nothing; otherwise a prefix of dial local, dial relay, write `auth`, read a reply, write `proxy_data` with the same id, bridge. Each step is taken iff all before it succeeded, so the prefix ends exactly at the first failure. The bridge is reached iff every step succeeds and a reply of any content arrives |
| `Agent.Client.GetStatus` | internal/client/client.go:234-243 | mode "client", the relay address, the connected flag and the live tunnel list |
| `Agent.Client.AddTunnel` | internal/client/client.go:245-265 | a duplicate name fails with "tunnel name ... already exists" and writes nothing; otherwise it registers at once if connected, returning that outcome, and succeeds without writing if not connected |
| `Agent.Client.RemoveTunnel` | internal/client/client.go:267-271 | always succeeds |
| `Interop.HandshakeAgreement` | internal/server/server.go:158-180 | the relay answers an agent's `auth`; both ends accept iff the tokens agree, and a mismatch surfaces at the agent as "auth failed: Invalid Token" |
| `Interop.RegistrationAgreement` | internal/server/server.go:182-229 | the relay reads the agent's registration as the configured name, protocol and port; the agent reports success iff the port passes the range check and can be bound |
| `Interop.NoticeStartsHandler` | internal/server/server.go:260-265 | a relay notice starts an agent handler for the same id and tunnel |
| `Interop.ProxyDataClaims` | internal/client/client.go:223-227 | the data connection's `proxy_data` is read by the relay's loop as a claim on that id |
| `Interop.HeartbeatAnswered` | internal/server/server.go:118-119 | a ping is answered by a pong, which the agent ignores |

## Left out

- Socket I/O is not modelled: reads are a list of results, and writes either succeed or fail.
- The byte copying of a bridge is not modelled. Only the start and end of a bridge are modelled.
- Goroutines and locks are not modelled. Each critical section is one method, except the pair
  named in the next line. Interleavings are shown only for the claim/expiry race
  (`ClaimRacesExpiry`).
- `RelayServer.Server.AcceptPublic`: the source parks the entry in one locked section
  (internal/server/server.go:255-257) and writes the `new_conn` notice with no lock held. On a
  failed write it deletes the entry in a second section (server.go:267-269). Then it closes the
  public connection and decrements the count whether or not the entry was still there
  (server.go:270-271). A `proxy_data` claim for that id (server.go:133-145) that lands during the
  write is not modelled. `Rollback` requires the entry to be pending still. So the model does not
  capture the resulting double close and the live count that ends one too low once the bridge
  ends (server.go:147-150). `Valid` holds only because this window is left out.
- The 10-second timer is not modelled. `Expire` is its body, and when it fires is up to the caller.
- The heartbeat's ticker is not modelled. `HeartbeatTick` is one tick.
- JSON text is not modelled: bytes, whitespace, Go's case-insensitive field-name matching, and
  duplicate keys. A payload is abstracted to what decides whether unmarshalling succeeds.
- Both ends create a fresh `json.Decoder` for each phase. Bytes one decoder buffered beyond its
  message are lost to the next. The model treats the stream as consumed message by message.
- Connection ids come from the nanosecond clock in the source. Two accepts in the same nanosecond
  overwrite each other's pending entry. `AcceptPublic` requires a fresh id instead.
- Public connection handles, the agent's dialled handle and the ports already bound on the host
  are parameters.
- `RelayServer.Server.AcceptPublic`: the live counter is an `int64` updated atomically. The model
  uses an unbounded integer, so the (unreachable) wrap-around is not modelled.
- `RelayServer.Server.ServeControl`: the control loop ignores the write errors of its own replies
  (`reg_resp` and `pong`). The model therefore writes those replies unconditionally. The `new_conn`
  notice's write error is not ignored; `AcceptPublic` models it.
- The relay's control-port accept loop (`Start`) is not modelled, and neither are `Stop` and the
  per-tunnel accept loop. The per-tunnel accept loop ends only when its listener fails, and
  nothing closes that listener.
- `RelayRules.Bindable`: a port-0 registration binds a real ephemeral port chosen by the system.
  The model does not add that port to the bound set, and the tunnel reports port 0, as the
  source does.
- Closing a dead agent's tunnels is not modelled. When a control connection ends, the source
  leaves its tunnels registered and their listeners open. The model follows the code:
  `ServeControl` never removes a tunnel.
- The dashboard (`internal/web`), configuration loading and saving, and the command-line entry
  point are not part of this model.
- `Agent.Client.AddTunnel` is modelled as a single call. In the source it reads replies on the
  same control stream that the read loop of `Start` is decoding concurrently, so the two can
  steal each other's messages. The model does not capture this race.
- `Agent.Client.Start` gives the dial error an illustrative text.
- Error texts that come from Go's runtime or standard library are illustrative values.
  This covers `Agent.WriteError`, `Agent.ReadError`, `RelayRules.BindError`, and the
  "invalid auth response payload" and "invalid reg response payload" texts. The contracts state
  only that each is non-empty, or where it appears in a reply.
- The agent's supervisor, which reruns `Start` after a fixed back-off, is not modelled. `Agent.Client.Start`
  is one session.

### Behaviours of the source worth knowing

- `Stop` closes only the control listener. Closing the tunnels is left as a TODO
  (internal/server/server.go:86). When a control connection ends, `handleControlConnection` only
  closes that connection (internal/server/server.go:89-90). Its tunnels stay registered and their
  listeners stay open. The model likewise keeps them.
- The handshake replies only when the first message is an `auth` whose payload decodes
  (internal/server/server.go:161-172). A message of another type, or an undecodable payload, gets
  no reply. Only a wrong token gets the "Invalid Token" reply. `RelayRules.Handshake` states this.
- Connection ids are the nanosecond clock printed in decimal (internal/server/server.go:252),
  so two accepts in the same nanosecond get the same id. `AcceptPublic` requires a fresh id.
- A failed `new_conn` notice is undone outside the lock that parked the entry
  (internal/server/server.go:255-271). If the agent claims the id during the write, the public
  connection is closed twice and the live count is decremented twice.
