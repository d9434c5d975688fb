/** The shared message types of src/models/mod.rs: the WebSocket protocol
    messages, the authentication data a client sends, the record of an
    authenticated client, and the four danmaku intent labels. */
module Models {
  import opened Wrappers
  import opened Bytes

  /** The nanoseconds within a second. */
  type Nanos = n: nat | n < 1_000_000_000

  /** chrono's `DateTime<Utc>`: the whole seconds since the epoch, rounded
      down as `timestamp()` reports them, and the nanoseconds within that
      second, which `to_rfc3339()` writes out as a fraction. */
  datatype UtcTime = UtcTime(seconds: int, nanos: Nanos)

  /** The `auth_data` of an `auth` message. */
  datatype AuthData = AuthData(
    authType: string, userId: string, apiKey: string, timestamp: UtcTime,
    nonce: string, signature: string, userData: Option<string>)

  /** `AuthenticatedClient`, without the random id the code never reads. */
  datatype AuthenticatedClient = AuthenticatedClient(userId: string, authType: string, authenticatedAt: UtcTime)

  /** `WebSocketMessage`, tagged by `type` on the wire. */
  datatype WebSocketMessage =
    | Connected(message: string, authRequired: bool, authStatus: string)
    | Auth(authData: AuthData)
    | AuthSuccess(message: string, userId: string, authType: string)
    | AuthRequired(message: string)
    | Danmaku(content: string, userId: string, timestamp: UtcTime)
    | DanmakuResult(success: bool, originalDanmaku: string, intentType: string, textResponse: string,
                    hasAudio: bool, hasImage: bool, audioData: Option<string>, imageData: Option<string>)
    | Progress(stage: string, message: string, imagePrompt: Option<string>)
    | Ping
    | Pong
    | Error(message: string)

  /** What the danmaku workflow produces: the intent, the reply text, and
      optionally synthesised audio and an image URL. */
  datatype DanmakuProcessingResult = DanmakuProcessingResult(
    intentType: IntentType, textResponse: string, audioData: Option<seq<byte>>, imageUrl: Option<string>)

  /** The intent a danmaku is classified into. */
  datatype IntentType = Conversation | SingingRequest | DrawingRequest | OtherCommand

  const CONVERSATION_LABEL := "对话聊天"
  const SINGING_LABEL := "唱歌请求"
  const DRAWING_LABEL := "绘画请求"
  const OTHER_LABEL := "其他指令"

  /** `IntentType::as_str`: the Chinese label of each intent. */
  function AsStr(t: IntentType): (name: string)
    ensures name != []
  {
    match t
    case Conversation => CONVERSATION_LABEL
    case SingingRequest => SINGING_LABEL
    case DrawingRequest => DRAWING_LABEL
    case OtherCommand => OTHER_LABEL
  }

  /** `IntentType::from_str`: exact matching of the first three labels; any
      other string, however close, is `OtherCommand`. */
  function FromStr(s: string): (t: IntentType)
    ensures t == Conversation <==> s == CONVERSATION_LABEL
    ensures t == SingingRequest <==> s == SINGING_LABEL
    ensures t == DrawingRequest <==> s == DRAWING_LABEL
  {
    if s == CONVERSATION_LABEL then Conversation
    else if s == SINGING_LABEL then SingingRequest
    else if s == DRAWING_LABEL then DrawingRequest
    else OtherCommand
  }

  /** Every label reads back as its intent. */
  lemma FromStrAsStr(t: IntentType)
    ensures FromStr(AsStr(t)) == t
  {
  }

  /** No two intents share a label. */
  lemma LabelsDistinct(t1: IntentType, t2: IntentType)
    ensures AsStr(t1) == AsStr(t2) ==> t1 == t2
  {
    FromStrAsStr(t1);
    FromStrAsStr(t2);
  }

  /** A string is read as a given intent exactly when it is that intent's label,
      except that anything unrecognised falls to `OtherCommand`. */
  lemma FromStrExact(s: string, t: IntentType)
    requires t != OtherCommand
    ensures FromStr(s) == t <==> s == AsStr(t)
  {
  }

  /** No trimming: a label with a surrounding space is not recognised. */
  lemma PaddedLabelIsOther(t: IntentType)
    ensures FromStr(" " + AsStr(t)) == OtherCommand
  {
    var s := " " + AsStr(t);
    assert s[0] == ' ';
    assert CONVERSATION_LABEL[0] != ' ' && SINGING_LABEL[0] != ' ' && DRAWING_LABEL[0] != ' ';
  }
}
