/** The Bilibili open-platform REST client of src/live/mod.rs
    (`BilibiliLiveClient`): the base URL, the signed request headers, and how
    the start, heartbeat and end calls treat the `code` of a reply. MD5,
    HMAC-SHA256, JSON serialisation, the clock, the nonce generator and the
    HTTP exchange are parameters. */
module LiveClient {
  import opened Wrappers
  import opened Errors
  import opened Bytes
  import opened Text
  import opened Json
  import opened Config

  const DEFAULT_BASE_URL := "https://live-open.biliapi.com"

  /** HTTP header name and value, in insertion order. */
  datatype Header = Header(name: string, value: string)

  /** What one signed request draws on: digest and MAC functions (raw bytes),
      the JSON serialiser, the clock reading and a fresh nonce. */
  datatype RequestEnv = RequestEnv(
    md5: seq<byte> -> seq<byte>,
    hmac: (seq<byte>, seq<byte>) -> seq<byte>,
    serialize: Json -> string,
    timestamp: int,
    nonce: string)

  /** One HTTP exchange: URL, headers and body in, the decoded reply (or the
      transport, status or decoding error) out. */
  type Transport<T> = (string, seq<Header>, string) -> AgentResult<T>

  datatype BilibiliLiveClient = BilibiliLiveClient(config: BilibiliLiveConfig, baseUrl: string)

  /** `BilibiliLiveClient::new`: the configured host, or the public endpoint. */
  function NewClient(config: BilibiliLiveConfig): (c: BilibiliLiveClient)
    ensures c.config == config
    ensures config.host.Some? ==> c.baseUrl == config.host.value
    ensures config.host.None? ==> c.baseUrl == DEFAULT_BASE_URL
  {
    BilibiliLiveClient(config, config.host.GetOr(DEFAULT_BASE_URL))
  }

  /** The six signed fields, one per line, in the order they are signed. */
  function SignedLines(accessKey: string, contentMd5: string, nonce: string, timestamp: int): seq<string> {
    [ "x-bili-accesskeyid:" + accessKey,
      "x-bili-content-md5:" + contentMd5,
      "x-bili-signature-method:HMAC-SHA256",
      "x-bili-signature-nonce:" + nonce,
      "x-bili-signature-version:1.0",
      "x-bili-timestamp:" + IntToDecimal(timestamp) ]
  }

  /** The `header_str` the MAC is computed over: the six fields, newline-separated. */
  function SignedString(accessKey: string, contentMd5: string, nonce: string, timestamp: int): string {
    Join(SignedLines(accessKey, contentMd5, nonce, timestamp), "\n")
  }

  /** When the key, the digest and the nonce hold no newline, splitting the
      signed string on newlines gives back the six fields. */
  lemma SignedStringLines(accessKey: string, contentMd5: string, nonce: string, timestamp: int)
    requires '\n' !in accessKey && '\n' !in contentMd5 && '\n' !in nonce
    ensures Split(SignedString(accessKey, contentMd5, nonce, timestamp), "\n") == SignedLines(accessKey, contentMd5, nonce, timestamp)
  {
    var lines := SignedLines(accessKey, contentMd5, nonce, timestamp);
    var digits := IntToDecimal(timestamp);
    assert forall k :: 0 <= k < |digits| ==> digits[k] != '\n';
    NoNewlineInConcat("x-bili-accesskeyid:", accessKey);
    NoNewlineInConcat("x-bili-content-md5:", contentMd5);
    NoNewlineInConcat("x-bili-signature-nonce:", nonce);
    NoNewlineInConcat("x-bili-timestamp:", digits);
    assert forall j :: 0 <= j < |lines| ==> '\n' !in lines[j];
    SplitJoinSingle(lines, '\n');
  }

  lemma NoNewlineInConcat(a: string, b: string)
    requires '\n' !in a && '\n' !in b
    ensures '\n' !in a + b
  {
  }

  /** `HeaderValue::from_str`: visible characters, space and tab; no other control character. */
  predicate ValidHeaderValue(s: string) {
    forall i :: 0 <= i < |s| ==> (s[i] >= ' ' && s[i] != '\U{7F}') || s[i] == '\t'
  }

  /** The error text of a rejected header value. */
  const INVALID_HEADER_VALUE := "failed to parse header value"

  /** `build_headers`: the content type headers, the body's MD5, the signing
      fields and the signature, inserted in the code's order. The nonce and the
      access key are checked as header values in that order; the digests and
      the timestamp always pass. */
  function BuildHeaders(config: BilibiliLiveConfig, body: string, env: RequestEnv): (r: AgentResult<seq<Header>>)
    ensures r.Err? <==> !ValidHeaderValue(env.nonce) || !ValidHeaderValue(config.accessKey)
    ensures r.Err? ==> r.error == Other(INVALID_HEADER_VALUE)
    ensures r.Ok? ==> forall i :: 0 <= i < |r.value| ==> ValidHeaderValue(r.value[i].value)
    ensures r.Ok? ==>
      var contentMd5 := HexLower(env.md5(Utf8(body)));
      var signature := HexLower(env.hmac(Utf8(config.accessSecret), Utf8(SignedString(config.accessKey, contentMd5, env.nonce, env.timestamp))));
      r.value == SignedHeaders(contentMd5, env.timestamp, env.nonce, config.accessKey, signature)
  {
    var contentMd5 := HexLower(env.md5(Utf8(body)));
    var headerStr := SignedString(config.accessKey, contentMd5, env.nonce, env.timestamp);
    var signature := HexLower(env.hmac(Utf8(config.accessSecret), Utf8(headerStr)));
    HexLowerDigits(env.md5(Utf8(body)));
    HexLowerDigits(env.hmac(Utf8(config.accessSecret), Utf8(headerStr)));
    // The digests are hexadecimal and the timestamp decimal: as header values
    // they always pass, so only the nonce and the access key can fail.
    var nonceValue :- HeaderValue(env.nonce);
    var keyValue :- HeaderValue(config.accessKey);
    SignedHeadersValid(contentMd5, env.timestamp, nonceValue, keyValue, signature);
    Ok(SignedHeaders(contentMd5, env.timestamp, nonceValue, keyValue, signature))
  }

  /** The request headers, in the order `build_headers` inserts them. */
  function SignedHeaders(contentMd5: string, timestamp: int, nonce: string, accessKey: string, signature: string): seq<Header> {
    [
      Header("accept", "application/json"),
      Header("content-type", "application/json"),
      Header("x-bili-content-md5", contentMd5),
      Header("x-bili-timestamp", IntToDecimal(timestamp)),
      Header("x-bili-signature-method", "HMAC-SHA256"),
      Header("x-bili-signature-nonce", nonce),
      Header("x-bili-signature-version", "1.0"),
      Header("x-bili-accesskeyid", accessKey),
      Header("authorization", signature)]
  }

  /** With valid digests, nonce and key, every header value is valid. */
  lemma SignedHeadersValid(contentMd5: string, timestamp: int, nonce: string, accessKey: string, signature: string)
    requires ValidHeaderValue(contentMd5) && ValidHeaderValue(signature)
    requires ValidHeaderValue(nonce) && ValidHeaderValue(accessKey)
    ensures var hs := SignedHeaders(contentMd5, timestamp, nonce, accessKey, signature);
      forall i :: 0 <= i < |hs| ==> ValidHeaderValue(hs[i].value)
  {
    var digits := IntToDecimal(timestamp);
    assert forall k :: 0 <= k < |digits| ==> digits[k] == '-' || '0' <= digits[k] <= '9';
  }

  /** `HeaderValue::from_str`. */
  function HeaderValue(s: string): (r: AgentResult<string>)
    ensures r.Ok? <==> ValidHeaderValue(s)
    ensures r.Ok? ==> r.value == s
    ensures r.Err? ==> r.error == Other(INVALID_HEADER_VALUE)
  {
    if ValidHeaderValue(s) then Ok(s) else Err(Other(INVALID_HEADER_VALUE))
  }

  /** The server can recompute the signature from the headers alone: the
      authorization header is the MAC of the signed string rebuilt from the
      other `x-bili-*` headers. */
  lemma SignatureFromHeaders(config: BilibiliLiveConfig, body: string, env: RequestEnv)
    requires BuildHeaders(config, body, env).Ok?
    ensures var h := BuildHeaders(config, body, env).value;
      h[8].value == HexLower(env.hmac(Utf8(config.accessSecret),
                                      Utf8(SignedString(h[7].value, h[2].value, h[5].value, env.timestamp))))
      && h[3].value == IntToDecimal(env.timestamp)
  {
  }

  /** `post`: headers are built first (their error returns before any request),
      then the request goes to the base URL followed by the path. */
  function Post<T>(client: BilibiliLiveClient, path: string, body: string, env: RequestEnv, send: Transport<T>): (r: AgentResult<T>)
    ensures BuildHeaders(client.config, body, env).Err? ==> r == Err(BuildHeaders(client.config, body, env).error)
    ensures BuildHeaders(client.config, body, env).Ok? ==> r == send(client.baseUrl + path, BuildHeaders(client.config, body, env).value, body)
  {
    var headers :- BuildHeaders(client.config, body, env);
    send(client.baseUrl + path, headers, body)
  }

  datatype GameInfo = GameInfo(gameId: string)
  datatype WebsocketInfo = WebsocketInfo(authBody: string, wssLink: seq<string>)
  datatype AnchorInfo = AnchorInfo(roomId: Option<int>, uname: Option<string>, openId: Option<string>)
  datatype StartResponse = StartResponse(gameInfo: GameInfo, websocketInfo: WebsocketInfo, anchorInfo: AnchorInfo)
  /** `code` and `message` default to 0 and "" when the reply omits them. */
  datatype StartApiResponse = StartApiResponse(code: int, message: string, data: StartResponse)
  datatype EmptyApiResponse = EmptyApiResponse(code: int, message: string)

  /** The body of the start call: the identity code and the app id. */
  function StartRequestJson(code: string, appId: int): (r: Json)
    ensures r.JObject? && r.fields.Keys == {"code", "app_id"}
    ensures Get(r, "code") == Some(JString(code)) && Get(r, "app_id") == Some(JNumber(appId))
  {
    JObject(map["code" := JString(code), "app_id" := JNumber(appId)])
  }

  /** The body of the heartbeat call: the game id alone. */
  function HeartbeatRequestJson(gameId: string): (r: Json)
    ensures r.JObject? && r.fields.Keys == {"game_id"}
    ensures Get(r, "game_id") == Some(JString(gameId))
  {
    JObject(map["game_id" := JString(gameId)])
  }

  /** The body of the end call: the app id and the game id. */
  function EndRequestJson(appId: int, gameId: string): (r: Json)
    ensures r.JObject? && r.fields.Keys == {"app_id", "game_id"}
    ensures Get(r, "app_id") == Some(JNumber(appId)) && Get(r, "game_id") == Some(JString(gameId))
  {
    JObject(map["app_id" := JNumber(appId), "game_id" := JString(gameId)])
  }

  /** The error of a start reply with a non-zero code. */
  function StartCodeError(code: int, message: string): AgentError {
    Other("B 站 start 接口返回错误: " + IntToDecimal(code) + " " + message)
  }

  /** `start`: POST /v2/app/start; a reply with a non-zero code is an error. */
  function Start(client: BilibiliLiveClient, code: string, env: RequestEnv, send: Transport<StartApiResponse>): (r: AgentResult<StartResponse>)
    ensures var reply := Post(client, "/v2/app/start", env.serialize(StartRequestJson(code, client.config.appId)), env, send);
      && (reply.Err? ==> r == Err(reply.error))
      && (reply.Ok? && reply.value.code != 0 ==> r == Err(StartCodeError(reply.value.code, reply.value.message)))
      && (r.Ok? <==> reply.Ok? && reply.value.code == 0)
      && (r.Ok? ==> r.value == reply.value.data)
  {
    var body := env.serialize(StartRequestJson(code, client.config.appId));
    var response :- Post(client, "/v2/app/start", body, env, send);
    if response.code != 0 then Err(StartCodeError(response.code, response.message)) else Ok(response.data)
  }

  /** `heartbeat`: POST /v2/app/heartbeat; a non-zero code is only logged. */
  function Heartbeat(client: BilibiliLiveClient, gameId: string, env: RequestEnv, send: Transport<EmptyApiResponse>): (r: AgentResult<Unit>)
    ensures var reply := Post(client, "/v2/app/heartbeat", env.serialize(HeartbeatRequestJson(gameId)), env, send);
      && (reply.Ok? ==> r == Ok(Unit))
      && (reply.Err? ==> r == Err(reply.error))
  {
    var body := env.serialize(HeartbeatRequestJson(gameId));
    var response :- Post(client, "/v2/app/heartbeat", body, env, send);
    Ok(Unit)
  }

  /** `end`: POST /v2/app/end; a non-zero code is only logged. */
  function End(client: BilibiliLiveClient, gameId: string, env: RequestEnv, send: Transport<EmptyApiResponse>): (r: AgentResult<Unit>)
    ensures var reply := Post(client, "/v2/app/end", env.serialize(EndRequestJson(client.config.appId, gameId)), env, send);
      && (reply.Ok? ==> r == Ok(Unit))
      && (reply.Err? ==> r == Err(reply.error))
  {
    var body := env.serialize(EndRequestJson(client.config.appId, gameId));
    var response :- Post(client, "/v2/app/end", body, env, send);
    Ok(Unit)
  }

  /** Whatever code the platform puts in a heartbeat or end reply, the call
      succeeds as long as the exchange itself did. */
  lemma ReplyCodeIgnored(client: BilibiliLiveClient, gameId: string, env: RequestEnv, code: int, message: string)
    requires ValidHeaderValue(env.nonce) && ValidHeaderValue(client.config.accessKey)
    ensures var send: Transport<EmptyApiResponse> := (url, headers, body) => Ok(EmptyApiResponse(code, message));
      Heartbeat(client, gameId, env, send) == Ok(Unit) && End(client, gameId, env, send) == Ok(Unit)
  {
  }

  /** A start reply is accepted exactly when its code is zero. */
  lemma StartCodeDecides(client: BilibiliLiveClient, code: string, env: RequestEnv, reply: StartApiResponse)
    requires ValidHeaderValue(env.nonce) && ValidHeaderValue(client.config.accessKey)
    ensures var send: Transport<StartApiResponse> := (url, headers, body) => Ok(reply);
      Start(client, code, env, send) == if reply.code == 0 then Ok(reply.data) else Err(StartCodeError(reply.code, reply.message))
  {
  }
}
