/** The live-room session of src/live/mod.rs: `LiveManager` (at most one
    session, started and stopped through the REST client), the WebSocket URL
    suffix, the per-wake decisions of the connection loop, the dispatch of
    decoded frames and the splitting of event bodies into JSON messages. The
    sockets, timers and the task itself are outside the model; what the
    environment does is given as parameters. */
module Live {
  import opened Wrappers
  import opened Errors
  import opened Bytes
  import opened Text
  import opened Json
  import opened Packet
  import opened LiveClient
  import Sse

  // ---------------------------------------------------------------------------
  // Sessions and the manager

  /** `LiveSessionInfo`; `startedAt` is the clock reading taken at spawn time. */
  datatype LiveSessionInfo = LiveSessionInfo(
    gameId: string, roomId: int, anchorName: string, anchorOpenId: Option<string>, startedAt: int)

  /** A running session: its info, and what its connection task was started with. */
  datatype LiveSession = LiveSession(info: LiveSessionInfo, wsUrl: string, authBody: string)

  /** The info `LiveSession::spawn` records: room 0 and anchor "Unknown" when absent. */
  function SessionInfoOf(gameId: string, anchor: AnchorInfo, now: int): (info: LiveSessionInfo)
    ensures info.gameId == gameId && info.anchorOpenId == anchor.openId && info.startedAt == now
    ensures info.roomId == (if anchor.roomId.Some? then anchor.roomId.value else 0)
    ensures info.anchorName == (if anchor.uname.Some? then anchor.uname.value else "Unknown")
  {
    LiveSessionInfo(gameId, anchor.roomId.GetOr(0), anchor.uname.GetOr("Unknown"), anchor.openId, now)
  }

  const ALREADY_CONNECTED := "直播长链已连接，先执行 live stop"
  const EMPTY_WSS_LINK := "B站返回的 wss_link 为空"

  /** What `start` returns and which session is held afterwards, for the
      session held before. Spawning the connection task cannot fail. */
  function StartStep(held: Option<LiveSession>, client: BilibiliLiveClient, env: RequestEnv,
                     send: Transport<StartApiResponse>, now: int): (r: (AgentResult<LiveSessionInfo>, Option<LiveSession>))
    ensures held.Some? ==> r == (Err(Unsupported(ALREADY_CONNECTED)), held)
    ensures held.None? && client.config.idCode.None? ==> r == (Err(MissingConfig("live.bilibili.id_code")), None)
    ensures held.None? && r.0.Err? ==> r.1.None?
    ensures r.0.Ok? <==> held.None? && r.1.Some?
    ensures r.0.Ok? ==> r.1.value.info == r.0.value
    ensures r.0.Ok? ==>
      var reply := Start(client, client.config.idCode.value, env, send);
      && reply.Ok? && reply.value.websocketInfo.wssLink != []
      && r.1.value.wsUrl == reply.value.websocketInfo.wssLink[0]
      && r.1.value.authBody == reply.value.websocketInfo.authBody
      && r.0.value == SessionInfoOf(reply.value.gameInfo.gameId, reply.value.anchorInfo, now)
  {
    if held.Some? then (Err(Unsupported(ALREADY_CONNECTED)), held)
    else if client.config.idCode.None? then (Err(MissingConfig("live.bilibili.id_code")), None)
    else match Start(client, client.config.idCode.value, env, send)
      case Err(e) => (Err(e), None)
      case Ok(start) =>
        if start.websocketInfo.wssLink == [] then (Err(Other(EMPTY_WSS_LINK)), None)
        else
          var info := SessionInfoOf(start.gameInfo.gameId, start.anchorInfo, now);
          (Ok(info), Some(LiveSession(info, start.websocketInfo.wssLink[0], start.websocketInfo.authBody)))
  }

  /** What `stop` returns; the session is always gone afterwards, taken before
      the shutdown whose `end` call decides the result. */
  function StopResult(held: Option<LiveSession>, client: BilibiliLiveClient, env: RequestEnv,
                      send: Transport<EmptyApiResponse>): (r: AgentResult<Option<LiveSessionInfo>>)
    ensures held.None? ==> r == Ok(None)
    ensures held.Some? ==>
      match End(client, held.value.info.gameId, env, send)
      case Ok(_) => r == Ok(Some(held.value.info))
      case Err(e) => r == Err(e)
  {
    match held
    case None => Ok(None)
    case Some(session) =>
      match End(client, session.info.gameId, env, send)
      case Err(e) => Err(e)
      case Ok(_) => Ok(Some(session.info))
  }

  /** Starting while a session runs is refused and keeps that session; after a
      successful start, a second start is refused, and stopping hands back the
      info of the session that start reported. */
  lemma StartStopCycle(client: BilibiliLiveClient, env: RequestEnv, send: Transport<StartApiResponse>,
                       endSend: Transport<EmptyApiResponse>, now: int, later: int)
    requires StartStep(None, client, env, send, now).0.Ok?
    ensures var (r, held) := StartStep(None, client, env, send, now);
      && StartStep(held, client, env, send, later) == (Err(Unsupported(ALREADY_CONNECTED)), held)
      && (End(client, r.value.gameId, env, endSend).Ok? ==> StopResult(held, client, env, endSend) == Ok(Some(r.value)))
  {
  }

  class LiveManager {
    const client: BilibiliLiveClient
    /** Whether an event channel and a broadcaster were handed in. */
    const hasEventTx: bool
    const hasBroadcaster: bool
    var session: Option<LiveSession>

    /** `LiveManager::new`: no session yet. */
    constructor (config: Config.BilibiliLiveConfig, hasEventTx: bool, hasBroadcaster: bool)
      ensures client == NewClient(config) && session.None?
      ensures this.hasEventTx == hasEventTx && this.hasBroadcaster == hasBroadcaster
    {
      client := NewClient(config);
      this.hasEventTx := hasEventTx;
      this.hasBroadcaster := hasBroadcaster;
      session := None;
    }

    /** `start`. */
    method Start(env: RequestEnv, send: Transport<StartApiResponse>, now: int) returns (r: AgentResult<LiveSessionInfo>)
      modifies this
      ensures (r, session) == StartStep(old(session), client, env, send, now)
    {
      if session.Some? {
        return Err(Unsupported(ALREADY_CONNECTED));
      }
      if client.config.idCode.None? {
        return Err(MissingConfig("live.bilibili.id_code"));
      }
      var code := client.config.idCode.value;
      var start :- LiveClient.Start(client, code, env, send);
      if start.websocketInfo.wssLink == [] {
        return Err(Other(EMPTY_WSS_LINK));
      }
      var info := SessionInfoOf(start.gameInfo.gameId, start.anchorInfo, now);
      session := Some(LiveSession(info, start.websocketInfo.wssLink[0], start.websocketInfo.authBody));
      return Ok(info);
    }

    /** `stop`: take the session, then shut it down. */
    method Stop(env: RequestEnv, send: Transport<EmptyApiResponse>) returns (r: AgentResult<Option<LiveSessionInfo>>)
      modifies this
      ensures session.None?
      ensures r == StopResult(old(session), client, env, send)
    {
      var taken := session;
      session := None;
      if taken.None? {
        return Ok(None);
      }
      var info := taken.value.info;
      var ended := End(client, info.gameId, env, send);
      if ended.Err? {
        return Err(ended.error);
      }
      return Ok(Some(info));
    }

    /** `info`: the running session's info, None exactly when there is none. */
    function Info(): (r: Option<LiveSessionInfo>)
      reads this
      ensures r.Some? <==> session.Some?
      ensures r.Some? ==> r.value == session.value.info
    {
      if session.Some? then Some(session.value.info) else None
    }
  }

  // ---------------------------------------------------------------------------
  // The WebSocket URL

  /** The URL the connection loop subscribes to. */
  function SubscribeUrl(url: string): (r: string)
    ensures EndsWith(r, "/sub")
    ensures StartsWith(r, url)
    ensures EndsWith(url, "/sub") ==> r == url
    ensures !EndsWith(url, "/sub") && EndsWith(url, "/") ==> r == url + "sub"
    ensures !EndsWith(url, "/") ==> !EndsWith(url, "/sub") ==> r == url + "/sub"
  {
    if EndsWith(url, "/sub") then url
    else if EndsWith(url, "/") then
      assert (url + "sub")[|url| - 1..] == "/sub" by {
        assert url[|url| - 1..] == "/";
      }
      assert (url + "sub")[..|url|] == url;
      url + "sub"
    else
      assert (url + "/sub")[|url|..] == "/sub";
      assert (url + "/sub")[..|url|] == url;
      url + "/sub"
  }

  /** Subscribing an already subscribed URL changes nothing. */
  lemma SubscribeUrlIdempotent(url: string)
    ensures SubscribeUrl(SubscribeUrl(url)) == SubscribeUrl(url)
  {
  }

  /** The suffixing at the top of `run_live_loop`, by `push_str`. */
  method NormalizeWsUrl(url: string) returns (wsUrl: string)
    ensures wsUrl == SubscribeUrl(url)
  {
    wsUrl := url;
    if !EndsWith(wsUrl, "/sub") {
      if EndsWith(wsUrl, "/") {
        wsUrl := wsUrl + "sub";
      } else {
        wsUrl := wsUrl + "/sub";
      }
    }
  }

  // ---------------------------------------------------------------------------
  // Events

  /** A JSON message of the live stream: its `cmd` and `data` (JSON null when absent). */
  datatype LiveEvent = LiveEvent(cmd: string, data: Json)

  /** `serde_json::from_slice::<LiveMessage>`: None for a chunk that is not such a message. */
  type MessageParser = seq<byte> -> Option<LiveEvent>

  /** The event of one chunk: none for an empty or malformed chunk. */
  function ChunkEvents(chunk: seq<byte>, parse: MessageParser): seq<LiveEvent> {
    if chunk == [] then []
    else match parse(chunk)
      case None => []
      case Some(e) => [e]
  }

  /** The events of a run of chunks, in order. */
  function EventsOf(chunks: seq<seq<byte>>, parse: MessageParser): seq<LiveEvent> {
    if chunks == [] then []
    else EventsOf(chunks[..|chunks| - 1], parse) + ChunkEvents(chunks[|chunks| - 1], parse)
  }

  /** The events of a SEND_EVENT body: its zero-separated chunks, parsed. */
  function BodyEvents(body: seq<byte>, parse: MessageParser): seq<LiveEvent> {
    EventsOf(Split(body, [0]), parse)
  }

  /** `parse_events`: never an error; malformed chunks are skipped. */
  method ParseEvents(packet: BiliPacket, parse: MessageParser) returns (r: AgentResult<seq<LiveEvent>>)
    ensures r == Ok(BodyEvents(packet.body, parse))
  {
    var events: seq<LiveEvent> := [];
    var slices := Split(packet.body, [0]);
    var i := 0;
    while i < |slices|
      invariant 0 <= i <= |slices|
      invariant events == EventsOf(slices[..i], parse)
    {
      var chunk := slices[i];
      assert slices[..i + 1][..i] == slices[..i];
      i := i + 1;
      if chunk == [] {
        continue;
      }
      var message := parse(chunk);
      if message.Some? {
        events := events + [message.value];
      }
    }
    assert slices[..i] == slices;
    return Ok(events);
  }

  /** Chunks contribute independently: the events of two runs are the events
      of each, one after the other. */
  lemma {:induction false} EventsOfAppend(a: seq<seq<byte>>, b: seq<seq<byte>>, parse: MessageParser)
    ensures EventsOf(a + b, parse) == EventsOf(a, parse) + EventsOf(b, parse)
    decreases |b|
  {
    if b == [] {
      assert a + b == a;
    } else {
      var b' := b[..|b| - 1];
      assert (a + b)[..|a + b| - 1] == a + b';
      assert (a + b)[|a + b| - 1] == b[|b| - 1];
      EventsOfAppend(a, b', parse);
    }
  }

  /** A malformed or empty chunk can be dropped without changing any other event. */
  lemma BadChunkIsolated(before: seq<seq<byte>>, bad: seq<byte>, after: seq<seq<byte>>, parse: MessageParser)
    requires bad == [] || parse(bad).None?
    ensures EventsOf(before + [bad] + after, parse) == EventsOf(before + after, parse)
  {
    assert EventsOf([bad], parse) == [] by {
      assert [bad][..0] == [];
    }
    EventsOfAppend(before, [bad], parse);
    assert EventsOf(before + [bad], parse) == EventsOf(before, parse);
    EventsOfAppend(before + [bad], after, parse);
    EventsOfAppend(before, after, parse);
  }

  /** `e` is what some non-empty chunk parses to. */
  ghost predicate FromChunk(chunks: seq<seq<byte>>, e: LiveEvent, parse: MessageParser) {
    exists j :: 0 <= j < |chunks| && chunks[j] != [] && parse(chunks[j]) == Some(e)
  }

  /** Every event comes from a non-empty chunk that parsed to it. */
  lemma {:induction false} EventsComeFromChunks(chunks: seq<seq<byte>>, parse: MessageParser)
    ensures forall k :: 0 <= k < |EventsOf(chunks, parse)| ==> FromChunk(chunks, EventsOf(chunks, parse)[k], parse)
  {
    if chunks != [] {
      var init := chunks[..|chunks| - 1];
      EventsComeFromChunks(init, parse);
      var last := chunks[|chunks| - 1];
      var es := EventsOf(chunks, parse);
      assert es == EventsOf(init, parse) + ChunkEvents(last, parse);
      forall k | 0 <= k < |es|
        ensures FromChunk(chunks, es[k], parse)
      {
        if k < |EventsOf(init, parse)| {
          assert FromChunk(init, EventsOf(init, parse)[k], parse);
          var j :| 0 <= j < |init| && init[j] != [] && parse(init[j]) == Some(EventsOf(init, parse)[k]);
          assert chunks[j] == init[j] && es[k] == EventsOf(init, parse)[k];
        } else {
          assert last != [] && parse(last) == Some(es[k]);
          assert chunks[|chunks| - 1] == last;
        }
      }
    }
  }

  /** Documents without zero bytes, joined by zero bytes, yield their events in order. */
  lemma DocumentsJoinedByZero(docs: seq<seq<byte>>, parse: MessageParser)
    requires |docs| >= 1 && forall j :: 0 <= j < |docs| ==> 0 !in docs[j]
    ensures BodyEvents(Join(docs, [0]), parse) == EventsOf(docs, parse)
  {
    SplitJoinSingle(docs, 0);
  }

  // ---------------------------------------------------------------------------
  // Dispatch of decoded frames

  /** What handling a frame does: a `live.event` broadcast, or an offer of
      the event to the event channel (delivered or not, the handler goes on). */
  datatype LiveEffect = Broadcast(message: Json) | Deliver(event: LiveEvent)

  /** The broadcast payload of an event: `{"cmd": cmd, "data": data}`. */
  function EventPayload(e: LiveEvent): Json {
    JObject(map["cmd" := JString(e.cmd), "data" := e.data])
  }

  /** One event: broadcast first (with a broadcaster), then offered (with a channel). */
  function EventEffects(e: LiveEvent, broadcast: bool, deliver: bool): seq<LiveEffect> {
    (if broadcast then [Broadcast(Sse.EncodeMessage("live.event", EventPayload(e)))] else [])
    + (if deliver then [Deliver(e)] else [])
  }

  function EffectsOfEvents(events: seq<LiveEvent>, broadcast: bool, deliver: bool): seq<LiveEffect> {
    if events == [] then []
    else EffectsOfEvents(events[..|events| - 1], broadcast, deliver) + EventEffects(events[|events| - 1], broadcast, deliver)
  }

  /** Only SEND_EVENT frames do anything; auth and heartbeat replies and other
      operations are only logged. */
  function PacketEffects(packets: seq<BiliPacket>, parse: MessageParser, broadcast: bool, deliver: bool): seq<LiveEffect> {
    if packets == [] then []
    else
      var p := packets[|packets| - 1];
      PacketEffects(packets[..|packets| - 1], parse, broadcast, deliver)
      + (if p.operation == OP_SEND_EVENT then EffectsOfEvents(BodyEvents(p.body, parse), broadcast, deliver) else [])
  }

  /** The inner loop of `handle_packets` over one frame's events. */
  method DispatchEvents(events: seq<LiveEvent>, broadcast: bool, deliver: bool) returns (effects: seq<LiveEffect>)
    ensures effects == EffectsOfEvents(events, broadcast, deliver)
  {
    effects := [];
    for j := 0 to |events|
      invariant effects == EffectsOfEvents(events[..j], broadcast, deliver)
    {
      var event := events[j];
      assert events[..j + 1][..j] == events[..j];
      if broadcast {
        effects := effects + [Broadcast(Sse.EncodeMessage("live.event", EventPayload(event)))];
      }
      if deliver {
        effects := effects + [Deliver(event)];
      }
    }
    assert events[..|events|] == events;
  }

  /** `handle_packets`: a decoding error is returned before anything happens. */
  method HandlePackets(payload: seq<byte>, inflate: Inflater, depth: nat, parse: MessageParser, broadcast: bool, deliver: bool)
    returns (r: Result<seq<LiveEffect>, DecodeError>)
    ensures Decode(payload, inflate, depth).Err? ==> r == Err(Decode(payload, inflate, depth).error)
    ensures Decode(payload, inflate, depth).Ok? ==> r == Ok(PacketEffects(Decode(payload, inflate, depth).value, parse, broadcast, deliver))
  {
    var decoded := DecodePackets(payload, inflate, depth);
    if decoded.Err? {
      return Err(decoded.error);
    }
    var packets := decoded.value;
    var effects: seq<LiveEffect> := [];
    for i := 0 to |packets|
      invariant effects == PacketEffects(packets[..i], parse, broadcast, deliver)
    {
      var packet := packets[i];
      assert packets[..i + 1][..i] == packets[..i];
      if packet.operation == OP_SEND_EVENT {
        var parsed := ParseEvents(packet, parse);
        var more := DispatchEvents(parsed.value, broadcast, deliver);
        effects := effects + more;
      }
    }
    assert packets[..|packets|] == packets;
    return Ok(effects);
  }

  /** Frames other than SEND_EVENT produce nothing. */
  lemma {:induction false} OnlySendEventActs(packets: seq<BiliPacket>, parse: MessageParser, broadcast: bool, deliver: bool)
    requires forall i :: 0 <= i < |packets| ==> packets[i].operation != OP_SEND_EVENT
    ensures PacketEffects(packets, parse, broadcast, deliver) == []
  {
    if packets != [] {
      OnlySendEventActs(packets[..|packets| - 1], parse, broadcast, deliver);
    }
  }

  /** With both a broadcaster and a channel, each event is broadcast and then
      offered, event after event in order. */
  lemma {:induction false} BroadcastThenDeliver(events: seq<LiveEvent>)
    ensures |EffectsOfEvents(events, true, true)| == 2 * |events|
    ensures forall k :: 0 <= k < |events| ==>
      && EffectsOfEvents(events, true, true)[2 * k] == Broadcast(Sse.EncodeMessage("live.event", EventPayload(events[k])))
      && EffectsOfEvents(events, true, true)[2 * k + 1] == Deliver(events[k])
  {
    if events != [] {
      BroadcastThenDeliver(events[..|events| - 1]);
    }
  }

  // ---------------------------------------------------------------------------
  // Field access on an event

  /** The value at `path` inside the data, walked key by key. */
  method Walk(data: Json, path: seq<string>) returns (r: Option<Json>)
    ensures r == Lookup(data, path)
  {
    var current := data;
    for i := 0 to |path|
      invariant Lookup(data, path) == Lookup(current, path[i..])
    {
      assert path[i..][0] == path[i] && path[i..][1..] == path[i + 1..];
      var next := Get(current, path[i]);
      if next.None? {
        return None;
      }
      current := next.value;
    }
    return Some(current);
  }

  /** `LiveEvent::field_str`. */
  method FieldStr(event: LiveEvent, path: seq<string>) returns (r: Option<string>)
    ensures Lookup(event.data, path).None? ==> r.None?
    ensures Lookup(event.data, path).Some? ==> r == AsStr(Lookup(event.data, path).value)
  {
    var v := Walk(event.data, path);
    if v.None? {
      return None;
    }
    return AsStr(v.value);
  }

  /** `LiveEvent::field_i64`. */
  method FieldI64(event: LiveEvent, path: seq<string>) returns (r: Option<int>)
    ensures Lookup(event.data, path).None? ==> r.None?
    ensures Lookup(event.data, path).Some? ==> r == AsI64(Lookup(event.data, path).value)
  {
    var v := Walk(event.data, path);
    if v.None? {
      return None;
    }
    return AsI64(v.value);
  }

  /** `LiveEvent::field_bool`. */
  method FieldBool(event: LiveEvent, path: seq<string>) returns (r: Option<bool>)
    ensures Lookup(event.data, path).None? ==> r.None?
    ensures Lookup(event.data, path).Some? ==> r == AsBool(Lookup(event.data, path).value)
  {
    var v := Walk(event.data, path);
    if v.None? {
      return None;
    }
    return AsBool(v.value);
  }

  // ---------------------------------------------------------------------------
  // The connection loop, one wake-up at a time

  /** A frame read from the WebSocket. */
  datatype WsMessage = Binary(payload: seq<byte>) | Text(text: string) | Ping(data: seq<byte>) | Pong(data: seq<byte>) | Close | OtherFrame

  /** What woke the `select!`: the WS heartbeat timer (with whether its send
      succeeded), the REST heartbeat timer, the shutdown stream (whether it
      yielded a value), or the reader (None at the end of the stream). */
  datatype Wake =
    | WsHeartbeatTick(sendOk: bool)
    | ApiHeartbeatTick
    | ShutdownSignal(received: bool)
    | Incoming(message: Option<Result<WsMessage, string>>)

  /** What the loop does to the outside: frames written and REST heartbeats called. */
  datatype Outgoing = SendBinary(frame: seq<byte>) | SendPong(data: seq<byte>) | CallHeartbeat(gameId: string)

  /** How the loop ends: it breaks (and returns Ok), fails to connect or to
      send the auth frame, fails on a frame it cannot decode, or is still running. */
  datatype LoopOutcome = Exited | SetupFailed(error: AgentError) | DecodeFailed(decodeError: DecodeError) | Running

  datatype Trace = Trace(outcome: LoopOutcome, sent: seq<Outgoing>, effects: seq<LiveEffect>)

  /** The handling context of one session. */
  datatype LoopContext = LoopContext(gameId: string, inflate: Inflater, depth: nat, parse: MessageParser, broadcast: bool, deliver: bool)

  /** `sent` and `effects` happen before `t`. */
  function Before(sent: seq<Outgoing>, effects: seq<LiveEffect>, t: Trace): Trace {
    Trace(t.outcome, sent + t.sent, effects + t.effects)
  }

  /** The effects of one binary frame, as `handle_packets` computes them. */
  function FrameEffects(payload: seq<byte>, ctx: LoopContext): Result<seq<LiveEffect>, DecodeError> {
    match Decode(payload, ctx.inflate, ctx.depth)
    case Err(e) => Err(e)
    case Ok(ps) => Ok(PacketEffects(ps, ctx.parse, ctx.broadcast, ctx.deliver))
  }

  /** One wake-up of the loop: what it sends and does, and whether the loop
      goes on (outcome Running) or ends. A failed WS heartbeat, a shutdown
      signal, a Close frame, a read error and the end of the stream break the
      loop; a failed REST heartbeat or Pong is only logged; a frame that does
      not decode ends the task with that error. */
  function WakeStep(wake: Wake, ctx: LoopContext): (s: Trace)
    ensures wake.ApiHeartbeatTick? ==> s.outcome == Running
    ensures wake.WsHeartbeatTick? ==> s.sent == [SendBinary(Encoded(OP_HEARTBEAT, []))]
    ensures s.effects != [] ==> wake.Incoming? && s.outcome == Running
  {
    match wake
    case WsHeartbeatTick(sendOk) =>
      Trace(if sendOk then Running else Exited, [SendBinary(Encoded(OP_HEARTBEAT, []))], [])
    case ApiHeartbeatTick => Trace(Running, [CallHeartbeat(ctx.gameId)], [])
    case ShutdownSignal(received) => Trace(if received then Exited else Running, [], [])
    case Incoming(message) =>
      match message
      case None => Trace(Exited, [], [])
      case Some(Err(_)) => Trace(Exited, [], [])
      case Some(Ok(frame)) =>
        match frame
        case Binary(payload) =>
          (match FrameEffects(payload, ctx)
           case Err(e) => Trace(DecodeFailed(e), [], [])
           case Ok(effects) => Trace(Running, [], effects))
        case Ping(data) => Trace(Running, [SendPong(data)], [])
        case Close => Trace(Exited, [], [])
        case _ => Trace(Running, [], [])
  }

  /** The loop from these wake-ups on, until one of them ends it. */
  function RunFrom(wakes: seq<Wake>, ctx: LoopContext): Trace
    decreases |wakes|
  {
    if wakes == [] then Trace(Running, [], [])
    else
      var s := WakeStep(wakes[0], ctx);
      if s.outcome == Running then Before(s.sent, s.effects, RunFrom(wakes[1..], ctx)) else s
  }

  /** The body of the `select!` for one wake-up. */
  method HandleWake(wake: Wake, ctx: LoopContext) returns (s: Trace)
    ensures s == WakeStep(wake, ctx)
  {
    match wake {
      case WsHeartbeatTick(sendOk) =>
        var heartbeat := EncodePacket(OP_HEARTBEAT, []);
        return Trace(if sendOk then Running else Exited, [SendBinary(heartbeat)], []);
      case ApiHeartbeatTick =>
        return Trace(Running, [CallHeartbeat(ctx.gameId)], []);
      case ShutdownSignal(received) =>
        return Trace(if received then Exited else Running, [], []);
      case Incoming(message) =>
        if message.None? || message.value.Err? {
          return Trace(Exited, [], []);
        }
        match message.value.value {
          case Binary(payload) =>
            var handled := HandlePackets(payload, ctx.inflate, ctx.depth, ctx.parse, ctx.broadcast, ctx.deliver);
            if handled.Err? {
              return Trace(DecodeFailed(handled.error), [], []);
            }
            return Trace(Running, [], handled.value);
          case Ping(data) =>
            return Trace(Running, [SendPong(data)], []);
          case Close =>
            return Trace(Exited, [], []);
          case _ =>
            return Trace(Running, [], []);
        }
    }
  }

  const CONNECT_FAILED := "连接 B 站直播长链失败: "
  const AUTH_SEND_FAILED := "发送鉴权包失败: "

  /** `run_live_loop`: connect to the subscribed URL, send the auth frame,
      then handle wake-ups until the loop ends. `connect` and `sendAuth` are
      the socket operations (an error text on failure). */
  method RunLiveLoop(url: string, authBody: string, connect: string -> Option<string>, sendAuth: seq<byte> -> Option<string>,
                     wakes: seq<Wake>, ctx: LoopContext) returns (t: Trace)
    ensures connect(SubscribeUrl(url)).Some? ==> t == Trace(SetupFailed(Other(CONNECT_FAILED + connect(SubscribeUrl(url)).value)), [], [])
    ensures connect(SubscribeUrl(url)).None? && sendAuth(Encoded(OP_AUTH, Utf8(authBody))).Some? ==>
      t == Trace(SetupFailed(Other(AUTH_SEND_FAILED + sendAuth(Encoded(OP_AUTH, Utf8(authBody))).value)), [], [])
    ensures connect(SubscribeUrl(url)).None? && sendAuth(Encoded(OP_AUTH, Utf8(authBody))).None? ==>
      t == Before([SendBinary(Encoded(OP_AUTH, Utf8(authBody)))], [], RunFrom(wakes, ctx))
  {
    var wsUrl := NormalizeWsUrl(url);
    var connectError := connect(wsUrl);
    if connectError.Some? {
      return Trace(SetupFailed(Other(CONNECT_FAILED + connectError.value)), [], []);
    }
    var authPacket := EncodePacket(OP_AUTH, Utf8(authBody));
    var sendError := sendAuth(authPacket);
    if sendError.Some? {
      return Trace(SetupFailed(Other(AUTH_SEND_FAILED + sendError.value)), [], []);
    }
    var sent := [SendBinary(authPacket)];
    var effects: seq<LiveEffect> := [];
    var i := 0;
    while i < |wakes|
      invariant 0 <= i <= |wakes|
      invariant Before([SendBinary(authPacket)], [], RunFrom(wakes, ctx)) == Before(sent, effects, RunFrom(wakes[i..], ctx))
      decreases |wakes| - i
    {
      RunFromAt(wakes, i, ctx);
      var s := HandleWake(wakes[i], ctx);
      if s.outcome != Running {
        return Trace(s.outcome, sent + s.sent, effects + s.effects);
      }
      BeforeBefore(sent, effects, s.sent, s.effects, RunFrom(wakes[i + 1..], ctx));
      sent := sent + s.sent;
      effects := effects + s.effects;
      i := i + 1;
    }
    return Trace(Running, sent, effects);
  }

  /** The loop from the i-th wake-up on: that wake-up's step, then the rest if it keeps running. */
  lemma RunFromAt(wakes: seq<Wake>, i: nat, ctx: LoopContext)
    requires i < |wakes|
    ensures var s := WakeStep(wakes[i], ctx);
      RunFrom(wakes[i..], ctx) == if s.outcome == Running then Before(s.sent, s.effects, RunFrom(wakes[i + 1..], ctx)) else s
  {
    assert wakes[i..][0] == wakes[i] && wakes[i..][1..] == wakes[i + 1..];
  }

  /** Two prefixes in a row are one prefix. */
  lemma BeforeBefore(a: seq<Outgoing>, e: seq<LiveEffect>, b: seq<Outgoing>, f: seq<LiveEffect>, t: Trace)
    ensures Before(a, e, Before(b, f, t)) == Before(a + b, e + f, t)
  {
    assert a + (b + t.sent) == (a + b) + t.sent;
    assert e + (f + t.effects) == (e + f) + t.effects;
  }

  /** A failed WS heartbeat ends the loop, whatever would have come next. */
  lemma HeartbeatFailureEndsLoop(rest: seq<Wake>, ctx: LoopContext)
    ensures RunFrom([WsHeartbeatTick(false)] + rest, ctx) == Trace(Exited, [SendBinary(Encoded(OP_HEARTBEAT, []))], [])
  {
    assert ([WsHeartbeatTick(false)] + rest)[0] == WsHeartbeatTick(false);
  }

  /** REST heartbeats never end the loop, whether or not the call succeeds. */
  lemma ApiHeartbeatKeepsGoing(rest: seq<Wake>, ctx: LoopContext)
    ensures RunFrom([ApiHeartbeatTick] + rest, ctx).outcome == RunFrom(rest, ctx).outcome
  {
    assert ([ApiHeartbeatTick] + rest)[1..] == rest;
  }

  /** A frame that fails to decode ends the loop with that error. */
  lemma DecodeErrorEndsLoop(payload: seq<byte>, rest: seq<Wake>, ctx: LoopContext)
    requires Decode(payload, ctx.inflate, ctx.depth).Err?
    ensures RunFrom([Incoming(Some(Ok(Binary(payload))))] + rest, ctx).outcome == DecodeFailed(Decode(payload, ctx.inflate, ctx.depth).error)
  {
    assert ([Incoming(Some(Ok(Binary(payload))))] + rest)[0] == Incoming(Some(Ok(Binary(payload))));
  }
}
