/** The SSE side channel of src/sse.rs: query-string signature checks, the
    `{"event", "payload"}` envelope every broadcast uses, the client command
    messages and the decision of the command endpoint. The HTTP server, the
    event stream and the broadcast channel are outside the model. */
module Sse {
  import opened Wrappers
  import opened Bytes
  import opened Text
  import opened Json

  /** HMAC-SHA256 of a message under a key, as raw bytes. */
  type Hmac = (seq<byte>, seq<byte>) -> seq<byte>

  datatype SignatureAuth = SignatureAuth(accessKey: string, secretKey: string, maxAgeSeconds: nat)

  datatype AuthParams = AuthParams(accessKey: string, timestamp: int, nonce: string, signature: string)

  /** `i64::abs_diff`. */
  function AbsDiff(a: int, b: int): nat {
    if a >= b then a - b else b - a
  }

  /** The string the client signs: `access_key:timestamp:nonce`. */
  function Canonical(params: AuthParams): string {
    params.accessKey + ":" + IntToDecimal(params.timestamp) + ":" + params.nonce
  }

  /** `SignatureAuth::verify_params`. `clock` is the system time in seconds
      since the epoch, None when the clock reads before the epoch (then 0 is
      used, as the code does). The checks run in order: access key, age,
      hexadecimal decoding, then the MAC comparison. */
  function VerifyParams(auth: SignatureAuth, params: AuthParams, clock: Option<nat>, hmac: Hmac): (ok: bool)
    ensures ok <==>
      && params.accessKey == auth.accessKey
      && AbsDiff(clock.GetOr(0), params.timestamp) <= auth.maxAgeSeconds
      && HexDecode(params.signature).Some?
      && hmac(Utf8(auth.secretKey), Utf8(Canonical(params))) == HexDecode(params.signature).value
  {
    if params.accessKey != auth.accessKey then false
    else
      var now := clock.GetOr(0);
      if AbsDiff(now, params.timestamp) > auth.maxAgeSeconds then false
      else
        match HexDecode(params.signature)
        case None => false
        case Some(signatureBytes) => hmac(Utf8(auth.secretKey), Utf8(Canonical(params))) == signatureBytes
  }

  /** What a well-behaved client sends: lowercase hex of the MAC of the canonical string. */
  function ClientSignature(secretKey: string, accessKey: string, timestamp: int, nonce: string, hmac: Hmac): string {
    HexLower(hmac(Utf8(secretKey), Utf8(accessKey + ":" + IntToDecimal(timestamp) + ":" + nonce)))
  }

  /** A signature made with the shared secret passes while it is fresh, and
      fails once it is older than the allowed age. */
  lemma ClientSignatureVerifies(auth: SignatureAuth, timestamp: int, nonce: string, clock: Option<nat>, hmac: Hmac)
    ensures var params := AuthParams(auth.accessKey, timestamp, nonce, ClientSignature(auth.secretKey, auth.accessKey, timestamp, nonce, hmac));
      VerifyParams(auth, params, clock, hmac) <==> AbsDiff(clock.GetOr(0), timestamp) <= auth.maxAgeSeconds
  {
    HexRoundTrip(hmac(Utf8(auth.secretKey), Utf8(auth.accessKey + ":" + IntToDecimal(timestamp) + ":" + nonce)));
  }

  /** A signature of odd length is refused whatever else holds. */
  lemma OddSignatureRefused(auth: SignatureAuth, params: AuthParams, clock: Option<nat>, hmac: Hmac)
    requires |params.signature| % 2 == 1
    ensures !VerifyParams(auth, params, clock, hmac)
  {
    OddLengthIsNotHex(params.signature);
  }

  /** `encode_message` before serialisation: the object `{"event": e, "payload": p}`. */
  function EncodeMessage(event: string, payload: Json): (v: Json)
    ensures v.JObject? && v.fields.Keys == {"event", "payload"}
    ensures Get(v, "event") == Some(JString(event)) && Get(v, "payload") == Some(payload)
  {
    JObject(map["event" := JString(event), "payload" := payload])
  }

  /** The envelope is decodable: event name and payload come back out of it. */
  lemma EncodeMessageInjective(e1: string, p1: Json, e2: string, p2: Json)
    ensures EncodeMessage(e1, p1) == EncodeMessage(e2, p2) <==> e1 == e2 && p1 == p2
  {
    if EncodeMessage(e1, p1) == EncodeMessage(e2, p2) {
      assert Get(EncodeMessage(e1, p1), "event") == Get(EncodeMessage(e2, p2), "event");
      assert Get(EncodeMessage(e1, p1), "payload") == Get(EncodeMessage(e2, p2), "payload");
    }
  }

  /** The body of a POST /command, tagged by `action`. */
  datatype ClientMessage = CommandMessage(input: string) | LiveStartMessage | LiveStopMessage | LiveStatusMessage

  /** What the agent's command channel carries. */
  datatype AgentCommand = Command(input: string) | LiveStart | LiveStop | LiveStatus

  /** `From<ClientMessage> for AgentCommand`: variant for variant, the input kept. */
  function ToAgentCommand(m: ClientMessage): (c: AgentCommand)
    ensures c.Command? <==> m.CommandMessage?
    ensures c.Command? ==> c.input == m.input
  {
    match m
    case CommandMessage(input) => Command(input)
    case LiveStartMessage => LiveStart
    case LiveStopMessage => LiveStop
    case LiveStatusMessage => LiveStatus
  }

  /** The conversion loses nothing: different messages give different commands. */
  lemma ToAgentCommandInjective(m1: ClientMessage, m2: ClientMessage)
    ensures ToAgentCommand(m1) == ToAgentCommand(m2) ==> m1 == m2
  {
  }

  const UNAUTHORIZED: nat := 401
  const SERVICE_UNAVAILABLE: nat := 503

  /** What `command_handler` answers, and which command it hands on (if any). */
  datatype CommandReply = CommandReply(response: Result<Json, nat>, offered: Option<AgentCommand>)

  /** `command_handler`: 401 when the signature fails (nothing offered); the
      command is offered to the channel otherwise, and the answer is 503 when
      the channel is closed and `{"status": "accepted"}` when it took it. */
  function CommandHandler(auth: SignatureAuth, params: AuthParams, clock: Option<nat>, hmac: Hmac,
                          message: ClientMessage, channelOpen: bool): (r: CommandReply)
    ensures !VerifyParams(auth, params, clock, hmac) ==> r.response == Err(UNAUTHORIZED) && r.offered.None?
    ensures VerifyParams(auth, params, clock, hmac) ==> r.offered == Some(ToAgentCommand(message))
    ensures VerifyParams(auth, params, clock, hmac) && !channelOpen ==> r.response == Err(SERVICE_UNAVAILABLE)
    ensures r.response.Ok? <==> VerifyParams(auth, params, clock, hmac) && channelOpen
    ensures r.response.Ok? ==> Get(r.response.value, "status") == Some(JString("accepted"))
  {
    if !VerifyParams(auth, params, clock, hmac) then CommandReply(Err(UNAUTHORIZED), None)
    else
      var command := ToAgentCommand(message);
      if !channelOpen then CommandReply(Err(SERVICE_UNAVAILABLE), Some(command))
      else CommandReply(Ok(JObject(map["status" := JString("accepted")])), Some(command))
  }
}
