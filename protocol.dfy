/**
 * The wire catalogue shared by relay and agent: the eight message types, the
 * `{type, payload}` envelope, and one record per payload.
 *
 * The JSON text itself is not modelled. A payload is kept at the level of
 * detail that decides whether Go's json.Unmarshal into a payload record
 * succeeds: absent, the literal `null`, an object with typed field values,
 * or some other JSON value.
 */
module Protocol {
  import opened Wrappers
  import opened Numerals

  const KnownTags: set<string> :=
    {"auth", "auth_resp", "reg_tunnel", "reg_resp", "new_conn", "proxy_data", "ping", "pong"}

  /** A tag none of the eight constants has. */
  type UnknownTag = t: string | t !in KnownTags witness ""

  /** The eight tags; `Unrecognised` stands for any other tag a peer may send. */
  datatype MessageType =
    | Auth | AuthResp | RegTunnel | RegResp | NewConn | ProxyData | Ping | Pong
    | Unrecognised(tag: UnknownTag)

  /** The tag string carried in the envelope's `type` field; distinct types carry distinct tags. */
  function Tag(t: MessageType): (tag: string)
    ensures t.Unrecognised? <==> tag !in KnownTags
  {
    match t
    case Auth => "auth"
    case AuthResp => "auth_resp"
    case RegTunnel => "reg_tunnel"
    case RegResp => "reg_resp"
    case NewConn => "new_conn"
    case ProxyData => "proxy_data"
    case Ping => "ping"
    case Pong => "pong"
    case Unrecognised(tag) => tag
  }

  /** The envelope's tag determines the message type. */
  lemma TagDeterminesType(a: MessageType, b: MessageType)
    requires Tag(a) == Tag(b)
    ensures a == b
  {
  }

  /** A JSON value in a payload field; `JOther` is an array, object or non-integral number. */
  datatype JValue = JString(s: string) | JInt(i: int) | JBool(b: bool) | JNull | JOther

  /** The raw payload of an envelope. */
  datatype Payload = Absent | Null | Object(fields: map<string, JValue>) | NonObject

  datatype Message = Message(msgType: MessageType, payload: Payload)

  /** What one decode from a connection yields: a message, a clean end of stream, or any other error. */
  datatype ReadResult = Received(msg: Message) | EndOfStream | DecodeFailure

  /** The next read from a finite inbound stream; past its end the stream is closed. */
  function ReadAt(inbound: seq<ReadResult>, i: nat): ReadResult
  {
    if i < |inbound| then inbound[i] else EndOfStream
  }

  /** The part of a stream from position `i` on. */
  function Drop(inbound: seq<ReadResult>, i: nat): (rest: seq<ReadResult>)
    ensures |rest| == if i <= |inbound| then |inbound| - i else 0
    ensures forall k | 0 <= k < |rest| :: rest[k] == inbound[i + k]
  {
    if i <= |inbound| then inbound[i..] else []
  }

  datatype AuthRequest = AuthRequest(token: string)
  datatype AuthResponse = AuthResponse(success: bool, error: string)
  datatype RegTunnelRequest = RegTunnelRequest(name: string, protocol: string, remotePort: Int64)
  datatype RegTunnelResponse = RegTunnelResponse(name: string, success: bool, remotePort: Int64, error: string)
  datatype NewConnRequest = NewConnRequest(connId: string, tunnelName: string)
  datatype ProxyDataRequest = ProxyDataRequest(connId: string)

  /** The Go kind of a payload record's field. */
  datatype Kind = StringKind | IntKind | BoolKind

  /**
   * Whether json.Unmarshal accepts the field `key` for a Go field of kind
   * `kind`: a missing field or a JSON null leaves the zero value, a value of
   * the wrong JSON kind (or an integer outside int64) is an error.
   */
  predicate Fits(fields: map<string, JValue>, key: string, kind: Kind)
  {
    key !in fields || fields[key].JNull? ||
    match kind
    case StringKind => fields[key].JString?
    case BoolKind => fields[key].JBool?
    case IntKind => fields[key].JInt? && INT64_MIN <= fields[key].i <= INT64_MAX
  }

  // Field decoding with json.Unmarshal's rules.

  function StringField(fields: map<string, JValue>, key: string): Option<string>
  {
    if key !in fields then Some("")
    else match fields[key]
      case JString(s) => Some(s)
      case JNull => Some("")
      case _ => None
  }

  function IntField(fields: map<string, JValue>, key: string): Option<Int64>
  {
    if key !in fields then Some(0)
    else match fields[key]
      case JInt(i) => if INT64_MIN <= i <= INT64_MAX then Some(i) else None
      case JNull => Some(0)
      case _ => None
  }

  function BoolField(fields: map<string, JValue>, key: string): Option<bool>
  {
    if key !in fields then Some(false)
    else match fields[key]
      case JBool(b) => Some(b)
      case JNull => Some(false)
      case _ => None
  }

  /** The fields a record is decoded from: `null` decodes as an empty object; a missing payload or a non-object fails. */
  function ObjectFields(p: Payload): Option<map<string, JValue>>
  {
    match p
    case Null => Some(map[])
    case Object(fields) => Some(fields)
    case _ => None
  }

  function DecodeAuthRequest(p: Payload): (r: Option<AuthRequest>)
    ensures r.Some? <==> p.Null? || (p.Object? && Fits(p.fields, "token", StringKind))
  {
    match ObjectFields(p)
    case None => None
    case Some(f) =>
      match StringField(f, "token")
      case Some(token) => Some(AuthRequest(token))
      case None => None
  }

  function DecodeAuthResponse(p: Payload): (r: Option<AuthResponse>)
    ensures r.Some? <==>
      p.Null? || (p.Object? && Fits(p.fields, "success", BoolKind) && Fits(p.fields, "error", StringKind))
  {
    match ObjectFields(p)
    case None => None
    case Some(f) =>
      if BoolField(f, "success").Some? && StringField(f, "error").Some? then
        Some(AuthResponse(BoolField(f, "success").value, StringField(f, "error").value))
      else None
  }

  function DecodeRegTunnelRequest(p: Payload): (r: Option<RegTunnelRequest>)
    ensures r.Some? <==>
      p.Null? || (p.Object? && Fits(p.fields, "name", StringKind) && Fits(p.fields, "protocol", StringKind)
                  && Fits(p.fields, "remote_port", IntKind))
  {
    match ObjectFields(p)
    case None => None
    case Some(f) =>
      if StringField(f, "name").Some? && StringField(f, "protocol").Some? && IntField(f, "remote_port").Some? then
        Some(RegTunnelRequest(StringField(f, "name").value, StringField(f, "protocol").value,
                              IntField(f, "remote_port").value))
      else None
  }

  function DecodeRegTunnelResponse(p: Payload): (r: Option<RegTunnelResponse>)
    ensures r.Some? <==>
      p.Null? || (p.Object? && Fits(p.fields, "name", StringKind) && Fits(p.fields, "success", BoolKind)
                  && Fits(p.fields, "remote_port", IntKind) && Fits(p.fields, "error", StringKind))
  {
    match ObjectFields(p)
    case None => None
    case Some(f) =>
      if StringField(f, "name").Some? && BoolField(f, "success").Some?
         && IntField(f, "remote_port").Some? && StringField(f, "error").Some? then
        Some(RegTunnelResponse(StringField(f, "name").value, BoolField(f, "success").value,
                               IntField(f, "remote_port").value, StringField(f, "error").value))
      else None
  }

  function DecodeNewConnRequest(p: Payload): (r: Option<NewConnRequest>)
    ensures r.Some? <==>
      p.Null? || (p.Object? && Fits(p.fields, "conn_id", StringKind) && Fits(p.fields, "tunnel_name", StringKind))
  {
    match ObjectFields(p)
    case None => None
    case Some(f) =>
      if StringField(f, "conn_id").Some? && StringField(f, "tunnel_name").Some? then
        Some(NewConnRequest(StringField(f, "conn_id").value, StringField(f, "tunnel_name").value))
      else None
  }

  function DecodeProxyDataRequest(p: Payload): (r: Option<ProxyDataRequest>)
    ensures r.Some? <==> p.Null? || (p.Object? && Fits(p.fields, "conn_id", StringKind))
  {
    match ObjectFields(p)
    case None => None
    case Some(f) =>
      match StringField(f, "conn_id")
      case Some(id) => Some(ProxyDataRequest(id))
      case None => None
  }

  // Encoding, as json.Marshal writes the records; `error` fields are `omitempty`.

  function EncodeAuthRequest(r: AuthRequest): (p: Payload)
    ensures p.Object? && DecodeAuthRequest(p) == Some(r)
  {
    Object(map["token" := JString(r.token)])
  }

  function EncodeAuthResponse(r: AuthResponse): (p: Payload)
    ensures p.Object? && DecodeAuthResponse(p) == Some(r)
  {
    var base := map["success" := JBool(r.success)];
    Object(if r.error == "" then base else base["error" := JString(r.error)])
  }

  function EncodeRegTunnelRequest(r: RegTunnelRequest): (p: Payload)
    ensures p.Object? && DecodeRegTunnelRequest(p) == Some(r)
  {
    Object(map["name" := JString(r.name), "protocol" := JString(r.protocol), "remote_port" := JInt(r.remotePort)])
  }

  function EncodeRegTunnelResponse(r: RegTunnelResponse): (p: Payload)
    ensures p.Object? && DecodeRegTunnelResponse(p) == Some(r)
  {
    var base := map["name" := JString(r.name), "success" := JBool(r.success), "remote_port" := JInt(r.remotePort)];
    Object(if r.error == "" then base else base["error" := JString(r.error)])
  }

  function EncodeNewConnRequest(r: NewConnRequest): (p: Payload)
    ensures p.Object? && DecodeNewConnRequest(p) == Some(r)
  {
    Object(map["conn_id" := JString(r.connId), "tunnel_name" := JString(r.tunnelName)])
  }

  function EncodeProxyDataRequest(r: ProxyDataRequest): (p: Payload)
    ensures p.Object? && DecodeProxyDataRequest(p) == Some(r)
  {
    Object(map["conn_id" := JString(r.connId)])
  }

  /** A `ping` or `pong` is written with a nil payload, which json.Marshal renders as `null`. */
  function Heartbeat(t: MessageType): (m: Message)
    requires t == Ping || t == Pong
    ensures m.msgType == t && ObjectFields(m.payload) == Some(map[])
  {
    Message(t, Null)
  }

  /** The records of a null payload are all zero values: json.Unmarshal of `null` succeeds and sets nothing. */
  lemma NullPayloadDecodesToZero()
    ensures DecodeAuthRequest(Null) == Some(AuthRequest(""))
    ensures DecodeAuthResponse(Null) == Some(AuthResponse(false, ""))
    ensures DecodeRegTunnelRequest(Null) == Some(RegTunnelRequest("", "", 0))
    ensures DecodeRegTunnelResponse(Null) == Some(RegTunnelResponse("", false, 0, ""))
    ensures DecodeNewConnRequest(Null) == Some(NewConnRequest("", ""))
    ensures DecodeProxyDataRequest(Null) == Some(ProxyDataRequest(""))
  {
  }
}
