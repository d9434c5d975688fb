/** The Zhipu GLM completion provider of src/providers/zhipu.rs: how rig
    chat messages become Zhipu request messages, how a reply's text and token
    usage are read back, and how one chunk of the streamed reply (server-sent
    event lines) is turned into a streaming item. The HTTP exchange and JSON
    decoding are parameters. */
module Zhipu {
  import opened Wrappers
  import opened Text
  import opened Config

  // ---------------------------------------------------------------------------
  // rig's chat messages

  /** A part of a user message: text, or anything else (image, audio, document, tool result). */
  datatype UserContent = UserText(text: string) | UserOther

  /** A part of an assistant message: text, or anything else (tool call, reasoning). */
  datatype AssistantContent = AssistantText(text: string) | AssistantOther

  /** `rig::completion::Message`. */
  datatype Message = User(userParts: seq<UserContent>) | Assistant(assistantParts: seq<AssistantContent>)

  /** `Message::user(text)`: a user message with one text part. */
  function UserMessage(text: string): Message {
    User([UserText(text)])
  }

  /** `Message::assistant(text)`. */
  function AssistantMessage(text: string): Message {
    Assistant([AssistantText(text)])
  }

  /** The texts of the text parts of a user message, in order. */
  function UserTexts(parts: seq<UserContent>): (r: seq<string>)
    ensures |r| <= |parts|
  {
    if parts == [] then []
    else (if parts[0].UserText? then [parts[0].text] else []) + UserTexts(parts[1..])
  }

  /** The texts of the text parts of an assistant message, in order. */
  function AssistantTexts(parts: seq<AssistantContent>): (r: seq<string>)
    ensures |r| <= |parts|
  {
    if parts == [] then []
    else (if parts[0].AssistantText? then [parts[0].text] else []) + AssistantTexts(parts[1..])
  }

  /** A message as Zhipu's API takes it. */
  datatype RequestMessage = RequestMessage(role: string, content: string)

  /** The text parts of a message joined by newlines, with its role; None when that text is empty. */
  function ConvertMessage(m: Message): (r: Option<RequestMessage>)
    ensures r.Some? ==> r.value.content != []
    ensures r.Some? ==> r.value.role == (if m.User? then "user" else "assistant")
    ensures r.Some? ==> r.value.content == Join(if m.User? then UserTexts(m.userParts) else AssistantTexts(m.assistantParts), "\n")
  {
    var text := match m
      case User(parts) => Join(UserTexts(parts), "\n")
      case Assistant(parts) => Join(AssistantTexts(parts), "\n");
    if text == [] then None
    else Some(RequestMessage(if m.User? then "user" else "assistant", text))
  }

  /** The `filter_map` over the chat history shared by `completion` and `stream`. */
  function ConvertMessages(history: seq<Message>): (r: seq<RequestMessage>)
    ensures |r| <= |history|
    ensures forall i :: 0 <= i < |r| ==> r[i].content != []
  {
    if history == [] then []
    else
      (match ConvertMessage(history[0]) case None => [] case Some(m) => [m])
      + ConvertMessages(history[1..])
  }

  /** Converting a history in two pieces converts each piece. */
  lemma {:induction false} ConvertMessagesAppend(a: seq<Message>, b: seq<Message>)
    ensures ConvertMessages(a + b) == ConvertMessages(a) + ConvertMessages(b)
  {
    if a == [] {
      assert a + b == b;
    } else {
      assert (a + b)[0] == a[0] && (a + b)[1..] == a[1..] + b;
      ConvertMessagesAppend(a[1..], b);
    }
  }

  /** A message whose text is empty, such as the user prompt "" a request
      builder appends, contributes nothing to the request. */
  lemma EmptyPromptDropped(history: seq<Message>)
    ensures ConvertMessages(history + [UserMessage("")]) == ConvertMessages(history)
  {
    ConvertMessagesAppend(history, [UserMessage("")]);
    assert UserTexts([UserText("")]) == [""];
    assert ConvertMessages([UserMessage("")]) == [];
  }

  /** A user message with a single non-empty text is passed on unchanged. */
  lemma SingleTextKept(text: string)
    requires text != []
    ensures ConvertMessages([UserMessage(text)]) == [RequestMessage("user", text)]
  {
    assert UserTexts([UserText(text)]) == [text];
    assert ConvertMessages([UserMessage(text)]) == [RequestMessage("user", text)] + ConvertMessages([]);
  }

  // ---------------------------------------------------------------------------
  // The model and its errors

  /** `rig::completion::CompletionError`, as far as this provider raises it. */
  datatype CompletionError = ProviderError(message: string) | RequestError(message: string)

  const PROVIDER_ERROR_HEADING := "ProviderError: "
  const REQUEST_ERROR_HEADING := "RequestError: "

  /** The `Display` text of an error: a heading naming the kind, then the
      message, so both can be read back. */
  function ErrorText(e: CompletionError): (r: string)
    ensures e.ProviderError? <==> StartsWith(r, PROVIDER_ERROR_HEADING)
    ensures e.RequestError? <==> StartsWith(r, REQUEST_ERROR_HEADING)
    ensures |r| == (if e.ProviderError? then |PROVIDER_ERROR_HEADING| else |REQUEST_ERROR_HEADING|) + |e.message|
    ensures EndsWith(r, e.message)
  {
    match e
    case ProviderError(m) =>
      var r := PROVIDER_ERROR_HEADING + m;
      assert r[0] != REQUEST_ERROR_HEADING[0];
      r
    case RequestError(m) =>
      var r := REQUEST_ERROR_HEADING + m;
      assert r[0] != PROVIDER_ERROR_HEADING[0];
      r
  }

  const PROVIDER_ERROR_DEBUG := "ProviderError(\""
  const REQUEST_ERROR_DEBUG := "RequestError(\""
  const DEBUG_CLOSE := "\")"

  /** The `Debug` text of an error, as `{:?}` prints it: the variant name,
      then the message quoted in parentheses (quotes inside the message are
      not escaped here). */
  function ErrorDebug(e: CompletionError): (r: string)
    ensures e.ProviderError? <==> StartsWith(r, PROVIDER_ERROR_DEBUG)
    ensures e.RequestError? <==> StartsWith(r, REQUEST_ERROR_DEBUG)
    ensures EndsWith(r, e.message + DEBUG_CLOSE)
    ensures |r| == (if e.ProviderError? then |PROVIDER_ERROR_DEBUG| else |REQUEST_ERROR_DEBUG|) + |e.message| + |DEBUG_CLOSE|
  {
    match e
    case ProviderError(m) =>
      var r := PROVIDER_ERROR_DEBUG + m + DEBUG_CLOSE;
      assert r[0] != REQUEST_ERROR_DEBUG[0];
      assert r[|r| - |m + DEBUG_CLOSE|..] == m + DEBUG_CLOSE;
      r
    case RequestError(m) =>
      var r := REQUEST_ERROR_DEBUG + m + DEBUG_CLOSE;
      assert r[0] != PROVIDER_ERROR_DEBUG[0];
      assert r[|r| - |m + DEBUG_CLOSE|..] == m + DEBUG_CLOSE;
      r
  }

  datatype ZhipuCompletionModel = ZhipuCompletionModel(apiKey: string, model: string, endpoint: string)

  /** `from_config`: the key and endpoint of the configuration, and the
      override model in preference to the configured chat model. Building the
      HTTP client is the one thing that can fail; `httpClientError` is the
      message of that failure, if any. */
  function FromConfig(config: ZhipuConfig, modelOverride: Option<string>, httpClientError: Option<string>): (r: Result<ZhipuCompletionModel, CompletionError>)
    ensures httpClientError.Some? <==> r.Err?
    ensures httpClientError.Some? ==> r == Err(ProviderError(httpClientError.value))
    ensures r.Ok? ==> r.value.apiKey == config.apiKey && r.value.endpoint == config.apiUrl
    ensures r.Ok? ==> r.value.model == if modelOverride.Some? then modelOverride.value else config.chatModel
  {
    if httpClientError.Some? then Err(ProviderError(httpClientError.value))
    else Ok(ZhipuCompletionModel(config.apiKey, modelOverride.GetOr(config.chatModel), config.apiUrl))
  }

  // ---------------------------------------------------------------------------
  // Replies

  datatype ZhipuUsage = ZhipuUsage(promptTokens: nat, completionTokens: nat, totalTokens: nat)
  datatype ZhipuMessageSegment = ZhipuMessageSegment(kind: Option<string>, text: Option<string>)
  /** `ZhipuMessageContent`: a plain string or a list of segments. */
  datatype ZhipuMessageContent = Text(text: string) | Segments(segments: seq<ZhipuMessageSegment>)
  datatype ZhipuMessage = ZhipuMessage(content: Option<ZhipuMessageContent>)
  datatype ZhipuChoice = ZhipuChoice(message: Option<ZhipuMessage>)
  datatype ZhipuChatResponse = ZhipuChatResponse(choices: seq<ZhipuChoice>, usage: Option<ZhipuUsage>)

  /** The texts the segments carry, in order; segments without text are skipped. */
  function SegmentTexts(segments: seq<ZhipuMessageSegment>): (r: seq<string>)
    ensures |r| <= |segments|
  {
    if segments == [] then []
    else (if segments[0].text.Some? then [segments[0].text.value] else []) + SegmentTexts(segments[1..])
  }

  /** `ZhipuMessageContent::extract_text`. */
  function ContentText(c: ZhipuMessageContent): (r: Option<string>)
    ensures c.Text? ==> r == Some(c.text)
    ensures c.Segments? ==> (r.None? <==> c.segments == [])
    ensures c.Segments? && r.Some? ==> r.value == Join(SegmentTexts(c.segments), "")
  {
    match c
    case Text(t) => Some(t)
    case Segments(segments) => if segments == [] then None else Some(Join(SegmentTexts(segments), ""))
  }

  /** `ZhipuMessage::extract_text`. */
  function MessageText(m: ZhipuMessage): Option<string> {
    if m.content.None? then None else ContentText(m.content.value)
  }

  /** The text of one choice: None without a message or a text. */
  function ChoiceText(c: ZhipuChoice): Option<string> {
    if c.message.None? then None else MessageText(c.message.value)
  }

  /** `ZhipuChatResponse::extract_text`: the first choice that yields text. */
  function ResponseText(r: ZhipuChatResponse): (t: Option<string>)
    ensures t.Some? <==> exists i :: 0 <= i < |r.choices| && ChoiceText(r.choices[i]).Some?
    ensures t.Some? ==> exists i :: (0 <= i < |r.choices| && ChoiceText(r.choices[i]) == t
      && forall j :: 0 <= j < i ==> ChoiceText(r.choices[j]).None?)
  {
    FirstText(r.choices, 0)
  }

  function FirstText(choices: seq<ZhipuChoice>, from: nat): (t: Option<string>)
    requires from <= |choices|
    ensures t.Some? <==> exists i :: from <= i < |choices| && ChoiceText(choices[i]).Some?
    ensures t.Some? ==> exists i :: (from <= i < |choices| && ChoiceText(choices[i]) == t
      && forall j :: from <= j < i ==> ChoiceText(choices[j]).None?)
    decreases |choices| - from
  {
    if from == |choices| then None
    else if ChoiceText(choices[from]).Some? then ChoiceText(choices[from])
    else FirstText(choices, from + 1)
  }

  /** `rig::completion::Usage`. */
  datatype Usage = Usage(inputTokens: nat, outputTokens: nat, totalTokens: nat)

  /** `token_usage`: the three counters carried over one to one. */
  function TokenUsage(r: ZhipuChatResponse): (u: Option<Usage>)
    ensures u.Some? <==> r.usage.Some?
    ensures u.Some? ==> (u.value.inputTokens == r.usage.value.promptTokens
      && u.value.outputTokens == r.usage.value.completionTokens
      && u.value.totalTokens == r.usage.value.totalTokens)
  {
    match r.usage
    case None => None
    case Some(z) => Some(Usage(z.promptTokens, z.completionTokens, z.totalTokens))
  }

  /** What `completion` returns: the reply text as the one choice, the raw
      reply, and its usage (zeros when it has none). */
  datatype CompletionResponse = CompletionResponse(choice: seq<AssistantContent>, rawResponse: ZhipuChatResponse, usage: Usage)

  /** The body sent to the endpoint; `stream` is set only by `stream`. */
  datatype ChatRequest = ChatRequest(model: string, messages: seq<RequestMessage>, stream: bool)

  /** The outcome of one POST: the transport's error text, an unsuccessful
      status with the body text, or a successful reply's body. */
  datatype HttpReply<T> = SendFailed(error: string) | Unsuccessful(status: string, text: string) | Delivered(body: T)

  /** A POST to the endpoint with the bearer key, given the endpoint, the key
      and the request. For `completion` the body is the decoded reply or the
      decoder's error text. */
  type Post<T> = (string, string, ChatRequest) -> HttpReply<T>

  const NO_VALID_MESSAGES := "No valid messages in request"
  const REQUEST_FAILED := "智谱 API 请求失败 ("
  const STREAM_REQUEST_FAILED := "智谱 API 流式请求失败 ("
  const DECODE_FAILED := "解析响应失败: "
  const EMPTY_REPLY := "智谱 API 返回结果为空"

  /** The error a failed POST becomes; `failed` is the prefix naming the kind of request. */
  function PostError<T>(reply: HttpReply<T>, failed: string): (e: CompletionError)
    requires !reply.Delivered?
    ensures e.ProviderError?
  {
    match reply
    case SendFailed(err) => ProviderError(err)
    case Unsuccessful(status, text) => ProviderError(failed + status + "): " + text)
  }

  /** `completion`: refuses a request whose history converts to nothing before
      anything is sent; a transport failure, an unsuccessful status and an
      undecodable body are provider errors; so is a reply without text. */
  function Completion(model: ZhipuCompletionModel, history: seq<Message>, post: Post<Result<ZhipuChatResponse, string>>)
    : (r: Result<CompletionResponse, CompletionError>)
    ensures ConvertMessages(history) == [] ==> r == Err(RequestError(NO_VALID_MESSAGES))
    ensures ConvertMessages(history) != [] ==>
      var reply := post(model.endpoint, model.apiKey, ChatRequest(model.model, ConvertMessages(history), false));
      && (!reply.Delivered? ==> r == Err(PostError(reply, REQUEST_FAILED)))
      && (reply.Delivered? && reply.body.Err? ==> r == Err(ProviderError(DECODE_FAILED + reply.body.error)))
      && (reply.Delivered? && reply.body.Ok? && ResponseText(reply.body.value).None? ==> r == Err(ProviderError(EMPTY_REPLY)))
      && (reply.Delivered? && reply.body.Ok? && ResponseText(reply.body.value).Some? ==> r.Ok?)
    ensures r.Ok? ==>
      var reply := post(model.endpoint, model.apiKey, ChatRequest(model.model, ConvertMessages(history), false));
      && reply.Delivered? && reply.body.Ok? && ResponseText(reply.body.value).Some?
      && r.value.choice == [AssistantText(ResponseText(reply.body.value).value)]
      && r.value.rawResponse == reply.body.value
      && r.value.usage == TokenUsage(reply.body.value).GetOr(Usage(0, 0, 0))
  {
    var messages := ConvertMessages(history);
    if messages == [] then Err(RequestError(NO_VALID_MESSAGES))
    else
      var reply := post(model.endpoint, model.apiKey, ChatRequest(model.model, messages, false));
      if !reply.Delivered? then Err(PostError(reply, REQUEST_FAILED))
      else if reply.body.Err? then Err(ProviderError(DECODE_FAILED + reply.body.error))
      else
        var response := reply.body.value;
        match ResponseText(response)
        case None => Err(ProviderError(EMPTY_REPLY))
        case Some(text) => Ok(CompletionResponse([AssistantText(text)], response, TokenUsage(response).GetOr(Usage(0, 0, 0))))
  }

  /** The texts of the text parts of a completion's choice, joined by
      newlines: what the callers read out of a reply. */
  function ChoiceJoined(r: CompletionResponse): string {
    Join(AssistantTexts(r.choice), "\n")
  }

  /** A successful completion reads back as exactly the reply's text. */
  lemma CompletionTextReadBack(model: ZhipuCompletionModel, history: seq<Message>, post: Post<Result<ZhipuChatResponse, string>>)
    requires Completion(model, history, post).Ok?
    ensures var reply := post(model.endpoint, model.apiKey, ChatRequest(model.model, ConvertMessages(history), false));
      ChoiceJoined(Completion(model, history, post).value) == ResponseText(reply.body.value).value
  {
    var t := ResponseText(post(model.endpoint, model.apiKey, ChatRequest(model.model, ConvertMessages(history), false)).body.value).value;
    assert AssistantTexts([AssistantText(t)]) == [t];
  }

  // ---------------------------------------------------------------------------
  // Streaming

  datatype ZhipuDelta = ZhipuDelta(content: Option<string>)
  datatype ZhipuStreamChoice = ZhipuStreamChoice(delta: Option<ZhipuDelta>, finishReason: Option<string>)
  datatype ZhipuStreamChunk = ZhipuStreamChunk(choices: seq<ZhipuStreamChoice>, usage: Option<ZhipuUsage>)

  /** `serde_json::from_str::<ZhipuStreamChunk>`: the chunk, or the parser's error text. */
  type ChunkParser = string -> Result<ZhipuStreamChunk, string>

  /** `RawStreamingChoice`: a text delta, or the final reply carrying only usage. */
  datatype StreamingChoice = Delta(text: string) | FinalResponse(response: ZhipuChatResponse)

  const STREAM_PARSE_FAILED := "解析智谱流式响应失败: "
  /** The error a chunk without anything to report becomes, and by which the
      stream recognises the chunks it drops. */
  const INVALID_CHUNK := "无效的 SSE 数据块"

  /** The first delta text of a chunk's first choice. */
  function FirstDelta(chunk: ZhipuStreamChunk): Option<string> {
    if chunk.choices != [] && chunk.choices[0].delta.Some? then chunk.choices[0].delta.value.content else None
  }

  /** Some choice of the chunk carries a finish reason. */
  predicate Finished(chunk: ZhipuStreamChunk) {
    exists i :: 0 <= i < |chunk.choices| && chunk.choices[i].finishReason.Some?
  }

  /** The payload of an SSE data line: after `data:`, trimmed; None for other lines. */
  function DataPayload(line: string): (r: Option<string>)
    ensures r.Some? <==> StartsWith(Trim(line), "data:")
  {
    var l := Trim(line);
    if StartsWith(l, "data:") then Some(Trim(l[5..])) else None
  }

  /** The data payloads of the lines, line by line. */
  function Payloads(lines: seq<string>): (r: seq<Option<string>>)
    ensures |r| == |lines|
  {
    seq(|lines|, k requires 0 <= k < |lines| => DataPayload(lines[k]))
  }

  /** A line the search passes over: not a data line, or the `[DONE]` marker. */
  predicate Skipped(payload: Option<string>) {
    payload.None? || payload.value == "[DONE]"
  }

  /** The `for line in text.lines()` search over the lines' payloads, from
      line `i` on: non-data lines and `[DONE]` are passed over; the first data
      line that parses decides (a delta's text, else a final reply when some
      choice has finished, else the search goes on); a line that does not
      parse is an error; running out of lines is the INVALID_CHUNK error. */
  function ScanPayloads(payloads: seq<Option<string>>, i: nat, parse: ChunkParser): (r: Result<StreamingChoice, CompletionError>)
    requires i <= |payloads|
    ensures r.Err? ==> r.error.ProviderError?
    decreases |payloads| - i
  {
    if i == |payloads| then Err(ProviderError(INVALID_CHUNK))
    else if Skipped(payloads[i]) then ScanPayloads(payloads, i + 1, parse)
    else match parse(payloads[i].value)
      case Err(e) => Err(ProviderError(STREAM_PARSE_FAILED + e))
      case Ok(chunk) =>
        if FirstDelta(chunk).Some? then Ok(Delta(FirstDelta(chunk).value))
        else if Finished(chunk) then Ok(FinalResponse(ZhipuChatResponse([], chunk.usage)))
        else ScanPayloads(payloads, i + 1, parse)
  }

  /** The outcome of one network chunk: its transport error, or the search
      over its lines. Lines are taken between newlines; a carriage return
      before a newline is whitespace and the trimming removes it. */
  function ChunkResult(chunk: Result<string, string>, parse: ChunkParser): (r: Result<StreamingChoice, CompletionError>)
    ensures chunk.Err? ==> r == Err(ProviderError(chunk.error))
    ensures r.Err? ==> r.error.ProviderError?
  {
    match chunk
    case Err(e) => Err(ProviderError(e))
    case Ok(text) => ScanPayloads(Payloads(Split(text, "\n")), 0, parse)
  }

  /** The stream's `filter_map`: an error whose text mentions INVALID_CHUNK is dropped. */
  predicate Dropped(r: Result<StreamingChoice, CompletionError>) {
    r.Err? && Contains(ErrorText(r.error), INVALID_CHUNK)
  }

  /** The items of the stream: the chunks' outcomes, without the dropped ones. */
  function StreamItems(chunks: seq<Result<string, string>>, parse: ChunkParser): (r: seq<Result<StreamingChoice, CompletionError>>)
    ensures |r| <= |chunks|
    ensures forall k :: 0 <= k < |r| ==> !Dropped(r[k])
  {
    if chunks == [] then []
    else
      var head := ChunkResult(chunks[0], parse);
      (if Dropped(head) then [] else [head]) + StreamItems(chunks[1..], parse)
  }

  /** `stream`: the same refusal of an empty history as `completion`; a
      successful request yields the items of the chunks of its body. */
  function Stream(model: ZhipuCompletionModel, history: seq<Message>, post: Post<seq<Result<string, string>>>, parse: ChunkParser)
    : (r: Result<seq<Result<StreamingChoice, CompletionError>>, CompletionError>)
    ensures ConvertMessages(history) == [] ==> r == Err(RequestError(NO_VALID_MESSAGES))
    ensures ConvertMessages(history) != [] ==>
      var reply := post(model.endpoint, model.apiKey, ChatRequest(model.model, ConvertMessages(history), true));
      && (!reply.Delivered? ==> r == Err(PostError(reply, STREAM_REQUEST_FAILED)))
      && (reply.Delivered? ==> r == Ok(StreamItems(reply.body, parse)))
  {
    var messages := ConvertMessages(history);
    if messages == [] then Err(RequestError(NO_VALID_MESSAGES))
    else
      var reply := post(model.endpoint, model.apiKey, ChatRequest(model.model, messages, true));
      if !reply.Delivered? then Err(PostError(reply, STREAM_REQUEST_FAILED))
      else Ok(StreamItems(reply.body, parse))
  }

  /** Lines before the first data line do not matter, and `[DONE]` is skipped. */
  lemma {:induction false} SkippedLinesIgnored(payloads: seq<Option<string>>, i: nat, j: nat, parse: ChunkParser)
    requires i <= j <= |payloads|
    requires forall k :: i <= k < j ==> Skipped(payloads[k])
    ensures ScanPayloads(payloads, i, parse) == ScanPayloads(payloads, j, parse)
    decreases j - i
  {
    if i < j {
      SkippedLinesIgnored(payloads, i + 1, j, parse);
    }
  }

  /** The first delta wins: a data line carrying a delta text decides the
      chunk, whatever follows it. */
  lemma FirstDeltaWins(payloads: seq<Option<string>>, j: nat, parse: ChunkParser, chunk: ZhipuStreamChunk)
    requires j < |payloads|
    requires forall k :: 0 <= k < j ==> Skipped(payloads[k])
    requires !Skipped(payloads[j])
    requires parse(payloads[j].value) == Ok(chunk) && FirstDelta(chunk).Some?
    ensures ScanPayloads(payloads, 0, parse) == Ok(Delta(FirstDelta(chunk).value))
  {
    SkippedLinesIgnored(payloads, 0, j, parse);
  }

  /** A data line that does not parse fails the chunk with the parser's message. */
  lemma MalformedDataFails(payloads: seq<Option<string>>, j: nat, parse: ChunkParser, e: string)
    requires j < |payloads|
    requires forall k :: 0 <= k < j ==> Skipped(payloads[k])
    requires !Skipped(payloads[j])
    requires parse(payloads[j].value) == Err(e)
    ensures ScanPayloads(payloads, 0, parse) == Err(ProviderError(STREAM_PARSE_FAILED + e))
  {
    SkippedLinesIgnored(payloads, 0, j, parse);
  }

  /** Lines holding no data beyond `[DONE]` give the INVALID_CHUNK error. */
  lemma NoDataLines(payloads: seq<Option<string>>, parse: ChunkParser)
    requires forall k :: 0 <= k < |payloads| ==> Skipped(payloads[k])
    ensures ScanPayloads(payloads, 0, parse) == Err(ProviderError(INVALID_CHUNK))
  {
    SkippedLinesIgnored(payloads, 0, |payloads|, parse);
  }

  /** The text of the INVALID_CHUNK error mentions INVALID_CHUNK. */
  lemma InvalidChunkIsDropped()
    ensures Dropped(Err(ProviderError(INVALID_CHUNK)))
  {
    var text := ErrorText(ProviderError(INVALID_CHUNK));
    assert text[15..15 + |INVALID_CHUNK|] == INVALID_CHUNK;
    assert OccursAt(text, INVALID_CHUNK, 15);
    ContainsIffOccurs(text, INVALID_CHUNK);
  }

  /** The INVALID_CHUNK error is dropped from the stream; so is any other
      error whose text happens to mention it. */
  lemma InvalidChunkDropped(chunk: Result<string, string>, rest: seq<Result<string, string>>, parse: ChunkParser)
    requires ChunkResult(chunk, parse) == Err(ProviderError(INVALID_CHUNK))
    ensures StreamItems([chunk] + rest, parse) == StreamItems(rest, parse)
  {
    InvalidChunkIsDropped();
    var chunks := [chunk] + rest;
    assert chunks[0] == chunk && chunks[1..] == rest;
  }

  /** A delta or final reply of a chunk always reaches the stream, in place. */
  lemma ItemKept(chunk: Result<string, string>, rest: seq<Result<string, string>>, parse: ChunkParser)
    requires ChunkResult(chunk, parse).Ok?
    ensures StreamItems([chunk] + rest, parse) == [ChunkResult(chunk, parse)] + StreamItems(rest, parse)
  {
    var chunks := [chunk] + rest;
    assert chunks[0] == chunk && chunks[1..] == rest;
  }
}
