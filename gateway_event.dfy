/**
 * The gateway envelope `{op, d, s, t}`, its text-frame encoding, the Identify
 * builder (op 2) and the op-code/event-name dispatch that turns an envelope into
 * a typed gateway event.
 */
module GatewayEvent {
  import opened Wrappers
  import opened Numeric
  import opened JsonValue

  /** `RawGatewayEvent`: on the wire `op` (u32), `d`, `s` (u64) and `t`, each of the last three optional. */
  datatype RawGatewayEvent = RawGatewayEvent(
    opCode: U32,
    data: Option<Json>,
    sequence: Option<U64>,
    t: Option<string>)

  /** Close code `Normal` of the websocket protocol. */
  const NORMAL_CLOSE: nat := 1000

  /**
   * A websocket message. A text frame holds JSON text; here it is represented by
   * the JSON value that text denotes.
   */
  datatype WsMessage =
    | Text(payload: Json)
    | Binary(bytes: seq<bv8>)
    | Ping(pingData: seq<bv8>)
    | Pong(pongData: seq<bv8>)
    | Close(code: nat, reason: string)
    | Frame(raw: seq<bv8>)

  /** A serde deserialisation failure. */
  datatype CodecError = Malformed

  function OptStr(o: Option<string>): Json {
    match o
    case Some(s) => Str(s)
    case None => Null
  }

  /** serde's derived `Serialize`: always four members, `None` written as `null`. */
  function ToJson(e: RawGatewayEvent): (j: Json)
    ensures j.Object? && j.fields.Keys == {"op", "d", "s", "t"}
    ensures j.fields["op"] == Number(e.opCode)
  {
    var s := match e.sequence case Some(n) => Some(n as int) case None => None;
    Object(map["op" := Number(e.opCode), "d" := e.data.GetOr(Null), "s" := OptNumber(s), "t" := OptStr(e.t)])
  }

  /** An `Option<T>` member: a missing member and `null` are both `None`. */
  function OptionalMember(j: Json, key: string): (r: Option<Json>)
    ensures r.Some? <==> Get(j, key).Some? && Get(j, key).value != Null
  {
    match Get(j, key)
    case Some(Null) => None
    case Some(v) => Some(v)
    case None => None
  }

  /** serde's sequence form of the envelope lists the four fields in declaration order. */
  const ENVELOPE_FIELDS: nat := 4

  /**
   * A field of a struct in either of the forms serde reads: the member `key`
   * of the map form, or the element at `index` of the sequence form. `null`
   * reads as absent.
   */
  function Slot(j: Json, key: string, index: nat): (r: Option<Json>)
    ensures j.Object? ==> r == OptionalMember(j, key)
    ensures j.Array? ==> (r.Some? <==> index < |j.items| && j.items[index] != Null)
    ensures j.Array? && r.Some? ==> r.value == j.items[index]
  {
    if j.Object? then OptionalMember(j, key)
    else if j.Array? && index < |j.items| && j.items[index] != Null then Some(j.items[index])
    else None
  }

  /**
   * The JSON value holds an acceptable envelope: an object, or an array of
   * exactly four elements, in which `op` is a u32 and `s` and `t`, unless
   * absent or `null`, are a u64 and a string.
   */
  predicate IsEnvelope(j: Json) {
    && (j.Object? || (j.Array? && |j.items| == ENVELOPE_FIELDS))
    && Slot(j, "op", 0).Some? && Slot(j, "op", 0).value.Number?
    && 0 <= Slot(j, "op", 0).value.n < TWO_32
    && (Slot(j, "s", 2).Some? ==> AsU64(Slot(j, "s", 2).value).Some?)
    && (Slot(j, "t", 3).Some? ==> Slot(j, "t", 3).value.Str?)
  }

  /**
   * The fields of `j` hold the envelope `e`: `op` is its op code, and each of
   * `d`, `s` and `t` is absent or `null` exactly when the field is `None`, and
   * holds the field's value otherwise.
   */
  predicate Describes(j: Json, e: RawGatewayEvent) {
    && Slot(j, "op", 0) == Some(Number(e.opCode))
    && e.data == Slot(j, "d", 1)
    && (e.sequence.Some? <==> Slot(j, "s", 2).Some?)
    && (e.sequence.Some? ==> Slot(j, "s", 2) == Some(Number(e.sequence.value)))
    && (e.t.Some? <==> Slot(j, "t", 3).Some?)
    && (e.t.Some? ==> Slot(j, "t", 3) == Some(Str(e.t.value)))
  }

  /** A JSON value describes at most one envelope, so `Describes` pins the decoded fields. */
  lemma DescribesUnique(j: Json, e1: RawGatewayEvent, e2: RawGatewayEvent)
    requires Describes(j, e1) && Describes(j, e2)
    ensures e1 == e2
  {
  }

  /**
   * serde's derived `Deserialize`, reading the map form `{"op": .., "d": .., "s": ..,
   * "t": ..}` (other members are ignored) or the sequence form `[op, d, s, t]`:
   * `op` must be a u32; `d` is any value, `s` a u64 and `t` a string, each
   * absent or `null` for `None`.
   */
  function FromJson(j: Json): (r: Result<RawGatewayEvent, CodecError>)
    ensures r.Ok? <==> IsEnvelope(j)
    ensures r.Ok? ==> Describes(j, r.value)
  {
    if !(j.Object? || (j.Array? && |j.items| == ENVELOPE_FIELDS)) then Err(Malformed)
    else
      var op := Slot(j, "op", 0);
      var s := Slot(j, "s", 2);
      var t := Slot(j, "t", 3);
      if !(op.Some? && op.value.Number? && 0 <= op.value.n < TWO_32) then Err(Malformed)
      else if s.Some? && AsU64(s.value).None? then Err(Malformed)
      else if t.Some? && !t.value.Str? then Err(Malformed)
      else
        Ok(RawGatewayEvent(
          op.value.n,
          Slot(j, "d", 1),
          if s.Some? then AsU64(s.value) else None,
          if t.Some? then Some(t.value.s) else None))
  }

  /** The sequence form is read too: `[11, null, null, null]` is a bare op 11; a short array is rejected. */
  lemma SequenceForm()
    ensures FromJson(Array([Number(11), Null, Null, Null])) == Ok(RawGatewayEvent(11, None, None, None))
    ensures FromJson(Array([Number(0), Object(map[]), Number(7), Str("READY")]))
         == Ok(RawGatewayEvent(0, Some(Object(map[])), Some(7), Some("READY")))
    ensures FromJson(Array([Number(11), Null, Null])).Err?
  {
  }

  /** `From<RawGatewayEvent> for Message`: a text frame holding the envelope. */
  function ToMessage(e: RawGatewayEvent): (m: WsMessage)
    ensures m.Text? && m.payload.Object?
  {
    Text(ToJson(e))
  }

  /**
   * `From<Message> for RawGatewayEvent`: only a text frame whose JSON is an
   * envelope is accepted; anything else panics in the source.
   */
  function FromMessage(m: WsMessage): (e: RawGatewayEvent)
    requires m.Text? && FromJson(m.payload).Ok?
    ensures IsEnvelope(m.payload) && Describes(m.payload, e)
  {
    FromJson(m.payload).value
  }

  /** Encoding an envelope into a text frame and decoding it back preserves `op`, `d`, `s` and `t`. */
  lemma EnvelopeRoundTrip(e: RawGatewayEvent)
    requires e.data != Some(Null)
    ensures FromJson(ToJson(e)).Ok?
    ensures FromMessage(ToMessage(e)) == e
  {
    var j := ToJson(e);
    assert Get(j, "s") == Some(if e.sequence.Some? then Number(e.sequence.value) else Null);
    assert Get(j, "t") == Some(OptStr(e.t));
  }

  /** A `d` that is present but `null` comes back absent: serde reads `null` as `None`. */
  lemma NullDataBecomesAbsent(e: RawGatewayEvent)
    requires e.data == Some(Null)
    ensures FromJson(ToJson(e)) == Ok(e.(data := None))
  {
    EnvelopeRoundTrip(e.(data := None));
  }

  // ---------------------------------------------------------------- Identify (op 2)

  /** `IdentifyConnectionProperty`: operating system, library name and device. */
  datatype IdentifyConnectionProperty = IdentifyConnectionProperty(os: string, browser: string, device: string)

  const IDENTIFY_OP: U32 := 2

  /** The value of `Intents::empty()`. */
  const EMPTY_INTENTS: U64 := 0

  function PropertiesJson(p: IdentifyConnectionProperty): Json {
    Object(map["os" := Str(p.os), "browser" := Str(p.browser), "device" := Str(p.device)])
  }

  function OptBool(o: Option<bool>): Json {
    match o
    case Some(b) => Bool(b)
    case None => Null
  }

  /** The members every Identify payload has; `shard` is added only when a shard is given. */
  const IDENTIFY_KEYS: set<string> := {"token", "properties", "compress", "large_threshold", "presence", "intents"}

  /** What it means for `e` to be the Identify envelope for these arguments. */
  predicate IsIdentify(
    e: RawGatewayEvent, token: string, properties: IdentifyConnectionProperty, compress: Option<bool>,
    largeThreshold: Option<U8>, shard: Option<(U64, U64)>, presence: Option<Json>, intents: Option<U64>)
  {
    && e.opCode == IDENTIFY_OP && e.sequence == None && e.t == None
    && e.data.Some? && e.data.value.Object?
    && var m := e.data.value.fields;
    && m.Keys == IDENTIFY_KEYS + (if shard.Some? then {"shard"} else {})
    && m["token"] == Str(token)
    && m["properties"] == PropertiesJson(properties)
    && m["compress"] == OptBool(compress)
    && m["large_threshold"] == OptNumber(if largeThreshold.Some? then Some(largeThreshold.value as int) else None)
    && m["presence"] == presence.GetOr(Null)
    && m["intents"] == Number(intents.GetOr(EMPTY_INTENTS))
    && (shard.Some? ==> m["shard"] == Array([Number(shard.value.0), Number(shard.value.1)]))
  }

  /**
   * `RawGatewayEvent::new_identify`: builds the payload object, then adds the
   * `shard` pair when one is given.
   */
  method NewIdentify(
    token: string, properties: IdentifyConnectionProperty, compress: Option<bool>,
    largeThreshold: Option<U8>, shard: Option<(U64, U64)>, presence: Option<Json>, intents: Option<U64>)
    returns (e: RawGatewayEvent)
    ensures IsIdentify(e, token, properties, compress, largeThreshold, shard, presence, intents)
  {
    var lt := if largeThreshold.Some? then Some(largeThreshold.value as int) else None;
    var data := map[
      "token" := Str(token),
      "properties" := PropertiesJson(properties),
      "compress" := OptBool(compress),
      "large_threshold" := OptNumber(lt),
      "presence" := presence.GetOr(Null),
      "intents" := Number(intents.GetOr(EMPTY_INTENTS))];
    if shard.Some? {
      var (id, total) := shard.value;
      data := data["shard" := Array([Number(id), Number(total)])];
    }
    e := RawGatewayEvent(IDENTIFY_OP, Some(Object(data)), None, None);
  }

  /** The token a receiver reads from an Identify envelope. */
  function ReadToken(e: RawGatewayEvent): Option<string> {
    if e.data.Some? then
      match Get(e.data.value, "token")
      case Some(Str(s)) => Some(s)
      case _ => None
    else None
  }

  /** The intents bitmask a receiver reads from an Identify envelope. */
  function ReadIntents(e: RawGatewayEvent): Option<U64> {
    if e.data.Some? then
      match Get(e.data.value, "intents")
      case Some(v) => AsU64(v)
      case None => None
    else None
  }

  /** The shard pair a receiver reads from an Identify envelope. */
  function ReadShard(e: RawGatewayEvent): Option<(U64, U64)> {
    if e.data.Some? then
      match Get(e.data.value, "shard")
      case Some(Array(items)) =>
        if |items| == 2 && AsU64(items[0]).Some? && AsU64(items[1]).Some?
        then Some((AsU64(items[0]).value, AsU64(items[1]).value))
        else None
      case _ => None
    else None
  }

  /**
   * Sending an Identify envelope and reading the frame back gives the original
   * token, the intents (the empty set when none were given) and the shard pair,
   * which is present exactly when one was given.
   */
  lemma IdentifyRoundTrip(
    e: RawGatewayEvent, token: string, properties: IdentifyConnectionProperty, compress: Option<bool>,
    largeThreshold: Option<U8>, shard: Option<(U64, U64)>, presence: Option<Json>, intents: Option<U64>)
    requires IsIdentify(e, token, properties, compress, largeThreshold, shard, presence, intents)
    ensures FromJson(ToMessage(e).payload).Ok?
    ensures var back := FromMessage(ToMessage(e));
      && back == e
      && ReadToken(back) == Some(token)
      && ReadIntents(back) == Some(intents.GetOr(EMPTY_INTENTS))
      && ReadShard(back) == shard
  {
    EnvelopeRoundTrip(e);
    var m := e.data.value.fields;
    assert Get(e.data.value, "token") == Some(Str(token));
    assert Get(e.data.value, "intents") == Some(Number(intents.GetOr(EMPTY_INTENTS)));
    if shard.Some? {
      assert Get(e.data.value, "shard") == Some(Array([Number(shard.value.0), Number(shard.value.1)]));
    } else {
      assert "shard" !in m;
    }
  }

  // ---------------------------------------------------------------- typed events

  /** `HelloData` */
  datatype HelloData = HelloData(heartbeatInterval: U64)

  /** `MessageCreateData`: the guild id, if any, and the decoded message. */
  datatype MessageCreateData<Msg> = MessageCreateData(guildId: Option<string>, message: Msg)

  /** `GatewayEvent`, over the ready body and message types decoded by the entity decoders. */
  datatype GatewayEvent<Ready, Msg> =
    | Ready(ready: Ready)
    | Hello(hello: HelloData)
    | MessageCreate(create: MessageCreateData<Msg>)
    | HeartbeatAcknowledgement
    | Heartbeat

  datatype EventError =
    | UnrecognizedDataType  // op 0 with an unknown event name, or an envelope without data and an unknown op
    | UnknownOpCode         // an envelope with data and an op other than 0 and 10
    | DecodeFailed          // the entity decoder rejected the payload

  const DISPATCH_OP: U32 := 0
  const HEARTBEAT_OP: U32 := 1
  const HELLO_OP: U32 := 10
  const HEARTBEAT_ACK_OP: U32 := 11

  /** `guild_id` is either absent or a string (`as_string().unwrap()` panics otherwise). */
  predicate GuildIdReadable(d: Json) {
    Get(d, "guild_id").Some? ==> Get(d, "guild_id").value.Str?
  }

  /**
   * The envelopes for which `get_event_data` does not panic: a dispatch with data
   * names its event (`t` is unwrapped), a MESSAGE_CREATE's `guild_id` is a string
   * when present, and a Hello carries an unsigned 64-bit `heartbeat_interval`.
   */
  predicate EventDataDefined(e: RawGatewayEvent) {
    e.data.Some? ==>
      && (e.opCode == DISPATCH_OP ==> e.t.Some? && (e.t.value == "MESSAGE_CREATE" ==> GuildIdReadable(e.data.value)))
      && (e.opCode == HELLO_OP ==>
            Get(e.data.value, "heartbeat_interval").Some? && AsU64(Get(e.data.value, "heartbeat_interval").value).Some?)
  }

  function ReadGuildId(d: Json): (r: Option<string>)
    requires GuildIdReadable(d)
    ensures r.Some? <==> Get(d, "guild_id").Some?
    ensures r.Some? ==> Get(d, "guild_id").value == Str(r.value)
  {
    match Get(d, "guild_id")
    case Some(v) => Some(v.s)
    case None => None
  }

  /**
   * `RawGatewayEvent::get_event_data`, with the READY body and message decoders
   * (`ijson::from_value`) as parameters.
   */
  function GetEventData<Ready, Msg>(e: RawGatewayEvent, decodeReady: Json -> Option<Ready>, decodeMessage: Json -> Option<Msg>)
    : (r: Result<GatewayEvent<Ready, Msg>, EventError>)
    requires EventDataDefined(e)
    // which events come from which envelopes
    ensures r.Ok? && r.value.Heartbeat? <==> e.data.None? && e.opCode == HEARTBEAT_OP
    ensures r.Ok? && r.value.HeartbeatAcknowledgement? <==> e.data.None? && e.opCode == HEARTBEAT_ACK_OP
    ensures r.Ok? && r.value.Hello? <==> e.data.Some? && e.opCode == HELLO_OP
    ensures r.Ok? && r.value.Ready? <==>
      e.data.Some? && e.opCode == DISPATCH_OP && e.t == Some("READY") && decodeReady(e.data.value).Some?
    ensures r.Ok? && r.value.MessageCreate? <==>
      e.data.Some? && e.opCode == DISPATCH_OP && e.t == Some("MESSAGE_CREATE") && decodeMessage(e.data.value).Some?
    // what they carry
    ensures r.Ok? && r.value.Hello? ==>
      Get(e.data.value, "heartbeat_interval") == Some(Number(r.value.hello.heartbeatInterval))
    ensures r.Ok? && r.value.Ready? ==> decodeReady(e.data.value) == Some(r.value.ready)
    ensures r.Ok? && r.value.MessageCreate? ==>
      && decodeMessage(e.data.value) == Some(r.value.create.message)
      && (r.value.create.guildId.Some? <==> Get(e.data.value, "guild_id").Some?)
      && (r.value.create.guildId.Some? ==> Get(e.data.value, "guild_id").value == Str(r.value.create.guildId.value))
    // why it fails
    ensures r == Err(DecodeFailed) <==>
      (e.data.Some? && e.opCode == DISPATCH_OP &&
       ((e.t == Some("READY") && decodeReady(e.data.value).None?) ||
        (e.t == Some("MESSAGE_CREATE") && decodeMessage(e.data.value).None?)))
    ensures r == Err(UnknownOpCode) <==> e.data.Some? && e.opCode != DISPATCH_OP && e.opCode != HELLO_OP
  {
    match e.data
    case Some(d) =>
      if e.opCode == DISPATCH_OP then
        match e.t.value
        case "READY" =>
          (match decodeReady(d)
           case Some(body) => Ok(Ready(body))
           case None => Err(DecodeFailed))
        case "MESSAGE_CREATE" =>
          var guildId := ReadGuildId(d);
          (match decodeMessage(d)
           case Some(msg) => Ok(MessageCreate(MessageCreateData(guildId, msg)))
           case None => Err(DecodeFailed))
        case _ => Err(UnrecognizedDataType)
      else if e.opCode == HELLO_OP then
        Ok(Hello(HelloData(AsU64(Get(d, "heartbeat_interval").value).value)))
      else Err(UnknownOpCode)
    case None =>
      if e.opCode == HEARTBEAT_OP then Ok(Heartbeat)
      else if e.opCode == HEARTBEAT_ACK_OP then Ok(HeartbeatAcknowledgement)
      else Err(UnrecognizedDataType)
  }

  /** Without data, only op 1 and op 11 decode; op 0 and op 10 in particular are errors. */
  lemma NoDataOnlyHeartbeats<Ready, Msg>(e: RawGatewayEvent, dr: Json -> Option<Ready>, dm: Json -> Option<Msg>)
    requires e.data.None?
    ensures GetEventData(e, dr, dm).Ok? <==> e.opCode == HEARTBEAT_OP || e.opCode == HEARTBEAT_ACK_OP
    ensures e.opCode != HEARTBEAT_OP && e.opCode != HEARTBEAT_ACK_OP ==> GetEventData(e, dr, dm) == Err(UnrecognizedDataType)
  {
  }

  /** With data, op 1 and op 11 are rejected like every op other than 0 and 10. */
  lemma DataOnHeartbeatRejected<Ready, Msg>(e: RawGatewayEvent, dr: Json -> Option<Ready>, dm: Json -> Option<Msg>)
    requires e.data.Some? && (e.opCode == HEARTBEAT_OP || e.opCode == HEARTBEAT_ACK_OP)
    ensures GetEventData(e, dr, dm) == Err(UnknownOpCode)
  {
  }

  /** A dispatch whose name is neither READY nor MESSAGE_CREATE is an error: there is no generic fallback. */
  lemma UnknownDispatchRejected<Ready, Msg>(e: RawGatewayEvent, dr: Json -> Option<Ready>, dm: Json -> Option<Msg>)
    requires EventDataDefined(e) && e.data.Some? && e.opCode == DISPATCH_OP
    requires e.t != Some("READY") && e.t != Some("MESSAGE_CREATE")
    ensures GetEventData(e, dr, dm) == Err(UnrecognizedDataType)
  {
  }
}
