/**
 * The gateway connection object: an optional websocket stream plus the
 * `status` and `heartbeat_interval` fields. The websocket is represented by the
 * frames its read half will still deliver (`inbound`) and the log of frames
 * written to it (`outbound`); whether an individual write, close or connect
 * succeeds is an outcome of the network, passed in as a parameter.
 */
module GatewayCore {
  import opened Wrappers
  import opened Numeric
  import opened JsonValue
  import opened GatewayEvent

  datatype Status = Establishing | Established | Closed

  datatype GatewayError =
    | AlreadyDisconnected  // the stream has been taken
    | TransportError       // the websocket reported an I/O or protocol failure
    | ConnectError         // the connection could not be opened

  /** One item of the read half: a frame, or an error in its place. */
  datatype Incoming = Received(message: WsMessage) | Failed

  /** What `next` yields for one item of the read half. */
  function Deliver(i: Incoming): (r: Result<Option<WsMessage>, GatewayError>)
    ensures r.Ok? <==> i.Received?
    ensures r.Ok? ==> r.value == Some(i.message)
    ensures r.Err? ==> r.error == TransportError
  {
    match i
    case Received(m) => Ok(Some(m))
    case Failed => Err(TransportError)
  }

  /** The heartbeat envelope `core.rs` sends: op 11, no data, no sequence, no name. */
  const HEARTBEAT_ENVELOPE: RawGatewayEvent := RawGatewayEvent(HEARTBEAT_ACK_OP, None, None, None)

  /** The connection properties `authenticate` sends. */
  const CLIENT_PROPERTIES: IdentifyConnectionProperty := IdentifyConnectionProperty("linux", "rust", "rust")

  const AUTH_COMPRESS: Option<bool> := Some(false)
  const AUTH_LARGE_THRESHOLD: Option<U8> := Some(50)

  /** A text frame that decodes to the Identify envelope for these arguments. */
  predicate IsIdentifyFrame(
    m: WsMessage, token: string, properties: IdentifyConnectionProperty, compress: Option<bool>,
    largeThreshold: Option<U8>, shard: Option<(U64, U64)>, presence: Option<Json>, intents: Option<U64>)
  {
    m.Text? && FromJson(m.payload).Ok?
    && IsIdentify(FromMessage(m), token, properties, compress, largeThreshold, shard, presence, intents)
  }

  class Gateway {
    /** `stream.is_some()` */
    var connected: bool
    /** The frames (or errors) the stream's read half will still yield, in order. */
    var inbound: seq<Incoming>
    /** Every frame written to the stream, in order. */
    ghost var outbound: seq<WsMessage>
    var status: Status
    var heartbeatInterval: Option<U64>

    /** The freshly built gateway: stream present, `Establishing`, no heartbeat interval. */
    constructor Open(serverFrames: seq<Incoming>)
      ensures connected && inbound == serverFrames && outbound == []
      ensures status == Establishing && heartbeatInterval == None
    {
      connected := true;
      inbound := serverFrames;
      outbound := [];
      status := Establishing;
      heartbeatInterval := None;
    }

    /**
     * `Gateway::connect`: opening the websocket either fails, or yields a gateway
     * whose stream will deliver `serverFrames`.
     */
    static method Connect(endpoint: string, reachable: bool, serverFrames: seq<Incoming>)
      returns (r: Result<Gateway, GatewayError>)
      ensures r.Ok? <==> reachable
      ensures r.Err? ==> r.error == ConnectError
      ensures r.Ok? ==> fresh(r.value) && r.value.connected && r.value.inbound == serverFrames
      ensures r.Ok? ==> r.value.outbound == [] && r.value.status == Establishing && r.value.heartbeatInterval == None
    {
      if !reachable {
        return Err(ConnectError);
      }
      var g := new Gateway.Open(serverFrames);
      r := Ok(g);
    }

    /**
     * `Gateway::disconnect`: takes the stream, then sends a Normal close frame with
     * reason "Disconnected". The stream is gone afterwards even when closing fails.
     */
    method Disconnect(closeOk: bool) returns (r: Result<(), GatewayError>)
      modifies this
      ensures !connected
      ensures !old(connected) ==> r == Err(AlreadyDisconnected) && outbound == old(outbound)
      ensures old(connected) ==> r == (if closeOk then Ok(()) else Err(TransportError))
      ensures old(connected) && closeOk ==> outbound == old(outbound) + [Close(NORMAL_CLOSE, "Disconnected")]
      ensures old(connected) && !closeOk ==> outbound == old(outbound)
      ensures inbound == old(inbound) && status == old(status) && heartbeatInterval == old(heartbeatInterval)
    {
      if connected {
        connected := false;
        if closeOk {
          outbound := outbound + [Close(NORMAL_CLOSE, "Disconnected")];
          r := Ok(());
        } else {
          r := Err(TransportError);
        }
      } else {
        r := Err(AlreadyDisconnected);
      }
    }

    /**
     * `Gateway::next`: the next frame of the stream, `None` once it is exhausted,
     * the stream's error in place of a frame; fails when disconnected.
     */
    method Next() returns (r: Result<Option<WsMessage>, GatewayError>)
      modifies this`inbound
      ensures !connected ==> r == Err(AlreadyDisconnected) && inbound == old(inbound)
      ensures connected && old(inbound) == [] ==> r == Ok(None) && inbound == []
      ensures connected && old(inbound) != [] ==> r == Deliver(old(inbound)[0]) && inbound == old(inbound)[1..]
    {
      if !connected {
        return Err(AlreadyDisconnected);
      }
      if inbound == [] {
        r := Ok(None);
      } else {
        r := Deliver(inbound[0]);
        inbound := inbound[1..];
      }
    }

    /** `Gateway::send`: writes one frame; fails when disconnected or when the write fails. */
    method Send(message: WsMessage, writeOk: bool) returns (r: Result<(), GatewayError>)
      modifies this`outbound
      ensures !connected ==> r == Err(AlreadyDisconnected) && outbound == old(outbound)
      ensures connected ==> r == (if writeOk then Ok(()) else Err(TransportError))
      ensures connected && writeOk ==> outbound == old(outbound) + [message]
      ensures connected && !writeOk ==> outbound == old(outbound)
    {
      if !connected {
        return Err(AlreadyDisconnected);
      }
      if writeOk {
        outbound := outbound + [message];
        r := Ok(());
      } else {
        r := Err(TransportError);
      }
    }

    /** `Gateway::heartbeat`: sends exactly one op 11 envelope with no data and no sequence. */
    method Heartbeat(writeOk: bool) returns (r: Result<(), GatewayError>)
      modifies this`outbound
      ensures r.Ok? <==> connected && writeOk
      ensures !connected ==> r == Err(AlreadyDisconnected)
      ensures outbound == if r.Ok? then old(outbound) + [ToMessage(HEARTBEAT_ENVELOPE)] else old(outbound)
    {
      r := Send(ToMessage(HEARTBEAT_ENVELOPE), writeOk);
    }

    /**
     * `Gateway::authenticate`: sends exactly one Identify envelope with properties
     * linux/rust/rust, compress false, large threshold 50, no shard, no presence
     * and the given intents.
     */
    method Authenticate(token: string, intents: Option<U64>, writeOk: bool) returns (r: Result<(), GatewayError>)
      modifies this`outbound
      ensures r.Ok? <==> connected && writeOk
      ensures !connected ==> r == Err(AlreadyDisconnected)
      ensures r.Err? ==> outbound == old(outbound)
      ensures r.Ok? ==> |outbound| == |old(outbound)| + 1 && outbound[..|old(outbound)|] == old(outbound)
      ensures r.Ok? ==> IsIdentifyFrame(outbound[|old(outbound)|], token, CLIENT_PROPERTIES,
                                        AUTH_COMPRESS, AUTH_LARGE_THRESHOLD, None, None, intents)
    {
      var e := NewIdentify(token, CLIENT_PROPERTIES, AUTH_COMPRESS, AUTH_LARGE_THRESHOLD, None, None, intents);
      EnvelopeRoundTrip(e);
      r := Send(ToMessage(e), writeOk);
    }
  }

  /** A second `disconnect` always fails, whatever became of the first. */
  method DisconnectTwice(g: Gateway, firstCloseOk: bool, secondCloseOk: bool)
    returns (first: Result<(), GatewayError>, second: Result<(), GatewayError>)
    modifies g
    ensures first.Ok? ==> old(g.connected)
    ensures second == Err(AlreadyDisconnected)
    ensures !g.connected && g.status == old(g.status) && g.heartbeatInterval == old(g.heartbeatInterval)
  {
    first := g.Disconnect(firstCloseOk);
    second := g.Disconnect(secondCloseOk);
  }

  /**
   * After a disconnect, reading and writing both fail and change nothing: the
   * only frame ever written is the disconnect's own close frame.
   */
  method UseAfterDisconnect(g: Gateway, m: WsMessage, closeOk: bool, writeOk: bool)
    returns (received: Result<Option<WsMessage>, GatewayError>, sent: Result<(), GatewayError>)
    modifies g
    ensures received == Err(AlreadyDisconnected) && sent == Err(AlreadyDisconnected)
    ensures !g.connected && g.inbound == old(g.inbound)
    ensures g.outbound == old(g.outbound) + (if old(g.connected) && closeOk then [Close(NORMAL_CLOSE, "Disconnected")] else [])
    ensures g.status == old(g.status) && g.heartbeatInterval == old(g.heartbeatInterval)
  {
    var _ := g.Disconnect(closeOk);
    ghost var log := g.outbound;
    received := g.Next();
    sent := g.Send(m, writeOk);
    assert g.outbound == log;
  }
}
