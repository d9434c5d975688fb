/** The intent router of src/intent/classifier.rs: which capability an input
    asks for, decided by a language model when one is configured and by
    keyword matching otherwise. The model calls are parameters. */
module Intent {
  import opened Wrappers
  import Errors
  import opened Text
  import opened Json
  import opened Config
  import Zhipu

  datatype Intent = Conversation | ImageGeneration | MusicGeneration | VideoGeneration | Help | Unknown

  /** `as_prefix`, also the `Display` text. */
  function AsPrefix(i: Intent): (p: string)
    ensures 4 <= |p| <= 7
  {
    match i
    case Conversation => "chat"
    case ImageGeneration => "image"
    case MusicGeneration => "music"
    case VideoGeneration => "video"
    case Help => "help"
    case Unknown => "unknown"
  }

  /** The names are already trimmed and in lower case. */
  lemma PrefixNormal(i: Intent)
    ensures TrimLower(AsPrefix(i)) == AsPrefix(i)
  {
    var p := AsPrefix(i);
    assert !IsWhitespace(p[0]) && !IsWhitespace(p[|p| - 1]);
    TrimLowerFixed(p);
  }

  const CONVERSATION_ALIASES: seq<string> := ["conversation", "chat", "dialogue", "text"]
  const IMAGE_ALIASES: seq<string> := ["image_generation", "image", "drawing", "paint", "art"]
  const MUSIC_ALIASES: seq<string> := ["music_generation", "music", "song", "audio"]
  const VIDEO_ALIASES: seq<string> := ["video_generation", "video", "animation", "film"]
  const HELP_ALIASES: seq<string> := ["help", "support"]

  /** The intent a normalised name stands for: the first alias group holding it. */
  function FromName(v: string): (i: Intent)
    ensures i == Conversation <==> v in CONVERSATION_ALIASES
    ensures i == ImageGeneration ==> v in IMAGE_ALIASES
    ensures i == MusicGeneration ==> v in MUSIC_ALIASES
    ensures i == VideoGeneration ==> v in VIDEO_ALIASES
    ensures i == Help ==> v in HELP_ALIASES
    ensures i == Unknown <==> v !in CONVERSATION_ALIASES + IMAGE_ALIASES + MUSIC_ALIASES + VIDEO_ALIASES + HELP_ALIASES
  {
    if v in CONVERSATION_ALIASES then Conversation
    else if v in IMAGE_ALIASES then ImageGeneration
    else if v in MUSIC_ALIASES then MusicGeneration
    else if v in VIDEO_ALIASES then VideoGeneration
    else if v in HELP_ALIASES then Help
    else Unknown
  }

  /** `Intent::from_str`: the trimmed, lowercased name looked up among each
      intent's aliases; anything else is `Unknown`. */
  function FromStr(value: string): (i: Intent)
    ensures i == Conversation <==> TrimLower(value) in CONVERSATION_ALIASES
    ensures i == Unknown <==>
      TrimLower(value) !in CONVERSATION_ALIASES + IMAGE_ALIASES + MUSIC_ALIASES + VIDEO_ALIASES + HELP_ALIASES
  {
    FromName(TrimLower(value))
  }

  /** Every intent's own name reads back as that intent. */
  lemma FromStrAsPrefix(i: Intent)
    ensures FromStr(AsPrefix(i)) == i
  {
    PrefixNormal(i);
    PrefixIsAlias(i);
  }

  /** Each intent's name is among its own aliases and no earlier group's. */
  lemma PrefixIsAlias(i: Intent)
    ensures FromName(AsPrefix(i)) == i
  {
    match i
    case Conversation =>
    case ImageGeneration => assert AsPrefix(i) == IMAGE_ALIASES[1];
    case MusicGeneration => assert AsPrefix(i) == MUSIC_ALIASES[1];
    case VideoGeneration => assert AsPrefix(i) == VIDEO_ALIASES[1];
    case Help => assert AsPrefix(i) == HELP_ALIASES[0];
    case Unknown =>
  }

  /** The display names of the intents are pairwise different: each one
      reads back as its own intent. */
  lemma PrefixInjective(a: Intent, b: Intent)
    requires AsPrefix(a) == AsPrefix(b)
    ensures a == b
  {
    PrefixIsAlias(a);
    PrefixIsAlias(b);
  }

  /** Case and surrounding blanks do not matter to the lookup. */
  lemma FromStrNormalised(value: string)
    ensures FromStr(TrimLower(value)) == FromStr(value)
  {
    TrimLowerIdempotent(value);
  }

  // ---------------------------------------------------------------------------
  // Sanitising and parsing the model's answer

  const JSON_FENCE := "```json"
  const FENCE := "```"

  /** The answer with a surrounding Markdown code fence (```json or ```) and blanks removed. */
  function Sanitize(response: string): (r: string)
    ensures Trimmed(r)
    ensures !StartsWith(Trim(response), FENCE) ==> r == Trim(response)
  {
    var trimmed := Trim(response);
    JsonFenceIsFence(trimmed);
    if StartsWith(trimmed, JSON_FENCE) then StripJsonFence(trimmed)
    else if StartsWith(trimmed, FENCE) then StripFence(trimmed)
    else trimmed
  }

  /** A ```json fence is a ``` fence. */
  lemma JsonFenceIsFence(s: string)
    ensures StartsWith(s, JSON_FENCE) ==> StartsWith(s, FENCE)
  {
    if StartsWith(s, JSON_FENCE) {
      assert s[..3] == s[..7][..3];
    }
  }

  /** A JSON text as a model writes it: an object or an array, with no
      blank at its end and not itself ending in a fence. */
  predicate JsonBody(b: string) {
    b != [] && (b[0] == '{' || b[0] == '[') && !IsWhitespace(b[|b| - 1]) && !EndsWith(b, FENCE)
  }

  /** A string that starts with something other than a backtick does not start with a fence. */
  lemma NoFenceAhead(s: string, p: string)
    requires s != [] && s[0] != '`' && p != [] && p[0] == '`'
    ensures !StartsWith(s, p)
  {
    if |p| <= |s| {
      assert s[..|p|][0] == s[0];
    }
  }

  /** A string whose last character is not a backtick does not end with a fence. */
  lemma NoFenceBehind(s: string)
    requires s != [] && s[|s| - 1] != '`'
    ensures !EndsWith(s, FENCE)
  {
    if |FENCE| <= |s| {
      assert s[|s| - |FENCE|..][2] == s[|s| - 1];
    }
  }

  /** A JSON body followed by blanks does not end with a fence. */
  lemma BodyThenBlanks(b: string, w: string)
    requires JsonBody(b) && IsBlank(w)
    ensures !EndsWith(b + w, FENCE)
  {
    var s := b + w;
    if w != [] {
      assert s[|s| - 1] == w[|w| - 1];
      NoFenceBehind(s);
    } else {
      assert s == b;
    }
  }

  /** Text that does not end in a fence and does not start with a backtick
      does not end in a fence whatever is put in front of it. */
  lemma NoFenceBehindStart(w: string, s: string)
    requires !EndsWith(s, FENCE) && s != [] && s[0] != '`'
    ensures !EndsWith(w + s, FENCE)
  {
    var t := w + s;
    if |t| >= 3 {
      var tail := t[|t| - 3..|t|];
      if |s| >= 3 {
        var last := s[|s| - 3..|s|];
        assert forall k :: 0 <= k < 3 ==> tail[k] == last[k];
        assert tail == last;
      } else {
        assert tail[3 - |s|] == s[0];
      }
    }
  }

  /** Blanks then a JSON body, then the rest of a fenced answer, start with neither a backtick nor a `j`. */
  lemma BlanksThenBody(w: string, b: string, w2: string)
    requires IsBlank(w) && JsonBody(b)
    ensures var s := w + b + w2 + FENCE; s != [] && s[0] != '`' && s[0] != 'j'
  {
    var s := w + b + w2 + FENCE;
    if w != [] { assert s[0] == w[0]; } else { assert s[0] == b[0]; }
  }

  /** The ```json branch of Sanitize, on an answer already trimmed. */
  function StripJsonFence(trimmed: string): string {
    Trim(TrimEndMatches(Trim(TrimStartMatches(TrimStartMatches(trimmed, JSON_FENCE), "`")), FENCE))
  }

  /** The ``` branch of Sanitize, on an answer already trimmed. */
  function StripFence(trimmed: string): string {
    Trim(TrimEndMatches(TrimStartMatches(trimmed, FENCE), FENCE))
  }

  /** A JSON body fenced by ```json, with any blanks inside the fence, is recovered. */
  lemma SanitizeJsonFence(w1: string, b: string, w2: string)
    requires IsBlank(w1) && IsBlank(w2) && JsonBody(b)
    ensures Sanitize(JSON_FENCE + (w1 + b + w2 + FENCE)) == b
  {
    var response := JSON_FENCE + (w1 + b + w2 + FENCE);
    StripJsonFenceBody(w1, b, w2);
    TrimFenced(response);
    ConcatOccurs(JSON_FENCE, w1 + b + w2 + FENCE, []);
    assert JSON_FENCE + (w1 + b + w2 + FENCE) + [] == response;
  }

  /** Trimming an answer that starts and ends with a backtick changes nothing. */
  lemma TrimFenced(response: string)
    requires response != [] && response[0] == '`' && response[|response| - 1] == '`'
    ensures Trim(response) == response
  {
    TrimAround([], response, []);
    assert [] + response + [] == response;
  }

  /** Sanitize's ```json branch on a fenced JSON body. */
  lemma StripJsonFenceBody(w1: string, b: string, w2: string)
    requires IsBlank(w1) && IsBlank(w2) && JsonBody(b)
    ensures StripJsonFence(JSON_FENCE + (w1 + b + w2 + FENCE)) == b
    ensures var r := JSON_FENCE + (w1 + b + w2 + FENCE); r != [] && r[0] == '`' && r[|r| - 1] == '`'
  {
    OpeningStripped(w1, b, w2);
    InnerTrimmed(w1, b, w2);
    ClosingStripped(b, w2);
  }

  /** The opening ```json goes, and only it; no backtick follows it. */
  lemma OpeningStripped(w1: string, b: string, w2: string)
    requires IsBlank(w1) && JsonBody(b)
    ensures TrimStartMatches(TrimStartMatches(JSON_FENCE + (w1 + b + w2 + FENCE), JSON_FENCE), "`") == w1 + b + w2 + FENCE
  {
    var rest := w1 + b + w2 + FENCE;
    BlanksThenBody(w1, b, w2);
    NoFenceAhead(rest, JSON_FENCE);
    NoFenceAhead(rest, "`");
    StripPrefixOnce(JSON_FENCE, rest);
  }

  /** The blanks after the opening fence go. */
  lemma InnerTrimmed(w1: string, b: string, w2: string)
    requires IsBlank(w1) && JsonBody(b)
    ensures Trim(w1 + b + w2 + FENCE) == b + w2 + FENCE
  {
    var inner := b + w2 + FENCE;
    assert w1 + b + w2 + FENCE == w1 + inner + [];
    assert inner[0] == b[0];
    TrimAround(w1, inner, []);
  }

  /** The closing ``` and the blanks before it go. */
  lemma ClosingStripped(b: string, w2: string)
    requires IsBlank(w2) && JsonBody(b)
    ensures Trim(TrimEndMatches(b + w2 + FENCE, FENCE)) == b
  {
    BodyThenBlanks(b, w2);
    StripSuffixOnce(b + w2, FENCE);
    TrimAround([], b, w2);
    assert [] + b + w2 == b + w2;
  }

  /** A JSON body fenced by a bare ```, with any blanks inside the fence, is recovered. */
  lemma SanitizePlainFence(w1: string, b: string, w2: string)
    requires IsBlank(w1) && IsBlank(w2) && JsonBody(b)
    ensures Sanitize(FENCE + (w1 + b + w2 + FENCE)) == b
  {
    var rest := w1 + b + w2 + FENCE;
    var response := FENCE + rest;
    StripFenceBody(w1, b, w2);
    TrimFenced(response);
    ConcatOccurs(FENCE, rest, []);
    assert FENCE + rest + [] == response;
    BlanksThenBody(w1, b, w2);
    NotJsonFence(rest);
  }

  /** A bare fence followed by anything but a `j` is not a ```json fence. */
  lemma NotJsonFence(rest: string)
    requires rest != [] && rest[0] != 'j'
    ensures !StartsWith(FENCE + rest, JSON_FENCE)
  {
    assert (FENCE + rest)[3] == rest[0];
  }

  /** Sanitize's ``` branch on a fenced JSON body. */
  lemma StripFenceBody(w1: string, b: string, w2: string)
    requires IsBlank(w1) && IsBlank(w2) && JsonBody(b)
    ensures StripFence(FENCE + (w1 + b + w2 + FENCE)) == b
    ensures var r := FENCE + (w1 + b + w2 + FENCE); r != [] && r[0] == '`' && r[|r| - 1] == '`'
  {
    PlainOpeningStripped(w1, b, w2);
    PlainClosingStripped(w1, b, w2);
    TrimAround(w1, b, w2);
  }

  /** The opening ``` goes, and only it. */
  lemma PlainOpeningStripped(w1: string, b: string, w2: string)
    requires IsBlank(w1) && JsonBody(b)
    ensures TrimStartMatches(FENCE + (w1 + b + w2 + FENCE), FENCE) == w1 + b + w2 + FENCE
  {
    var rest := w1 + b + w2 + FENCE;
    BlanksThenBody(w1, b, w2);
    NoFenceAhead(rest, FENCE);
    StripPrefixOnce(FENCE, rest);
  }

  /** The closing ``` goes, and only it. */
  lemma PlainClosingStripped(w1: string, b: string, w2: string)
    requires IsBlank(w2) && JsonBody(b)
    ensures TrimEndMatches(w1 + b + w2 + FENCE, FENCE) == w1 + b + w2
  {
    var body := w1 + b + w2;
    BodyThenBlanks(b, w2);
    assert (b + w2)[0] == b[0];
    NoFenceBehindStart(w1, b + w2);
    assert body == w1 + (b + w2);
    StripSuffixOnce(body, FENCE);
  }

  /** An unfenced JSON body among blanks is recovered. */
  lemma SanitizeUnfenced(w1: string, b: string, w2: string)
    requires IsBlank(w1) && IsBlank(w2) && JsonBody(b)
    ensures Sanitize(w1 + b + w2) == b
  {
    TrimAround(w1, b, w2);
    NoFenceAhead(b, FENCE);
    NoFenceAhead(b, JSON_FENCE);
  }

  /** `serde_json::from_str::<IntentResponse>` on parsed JSON: an object whose
      `intent` is a string, or an array holding exactly that string. */
  function StructIntent(j: Json): (r: Option<string>)
    ensures r.Some? <==> (j.JObject? && "intent" in j.fields && j.fields["intent"].JString?)
                         || (j.JArray? && |j.items| == 1 && j.items[0].JString?)
  {
    match j
    case JObject(fields) => if "intent" in fields && fields["intent"].JString? then Some(fields["intent"].s) else None
    case JArray(items) => if |items| == 1 && items[0].JString? then Some(items[0].s) else None
    case _ => None
  }

  /** `value.get("intent").and_then(Value::as_str)`. */
  function ValueIntent(j: Json): Option<string> {
    match Get(j, "intent")
    case None => None
    case Some(v) => AsStr(v)
  }

  /** `parse_intent`: the sanitised answer read as the one-field struct, then
      as a free JSON value; the name found goes through `from_str`. `parse`
      is `serde_json`'s reading of a text as JSON. */
  function ParseIntent(response: string, parse: string -> Option<Json>): (r: Option<Intent>)
    ensures r.Some? <==> parse(Sanitize(response)).Some? && StructIntent(parse(Sanitize(response)).value).Some?
    ensures r.Some? ==> r.value == FromStr(StructIntent(parse(Sanitize(response)).value).value)
  {
    match parse(Sanitize(response))
    case None => None
    case Some(j) =>
      if StructIntent(j).Some? then Some(FromStr(StructIntent(j).value))
      else match ValueIntent(j)
        case Some(name) => Some(FromStr(name))
        case None => None
  }

  /** The free-value reading finds nothing the struct reading missed. */
  lemma ValueIntentSubsumed(j: Json)
    requires ValueIntent(j).Some?
    ensures StructIntent(j) == ValueIntent(j)
  {
  }

  /** A fenced `{"intent": name}` answer is read as `from_str(name)`. */
  lemma ParseFencedAnswer(w1: string, b: string, w2: string, parse: string -> Option<Json>, fields: map<string, Json>, name: string)
    requires IsBlank(w1) && IsBlank(w2) && JsonBody(b)
    requires parse(b) == Some(JObject(fields)) && "intent" in fields && fields["intent"] == JString(name)
    ensures ParseIntent(JSON_FENCE + (w1 + b + w2 + FENCE), parse) == Some(FromStr(name))
  {
    SanitizeJsonFence(w1, b, w2);
    ParseSanitized(JSON_FENCE + (w1 + b + w2 + FENCE), b, parse, fields, name);
  }

  /** An answer whose sanitised text is an object naming an intent is read as that intent. */
  lemma ParseSanitized(response: string, b: string, parse: string -> Option<Json>, fields: map<string, Json>, name: string)
    requires Sanitize(response) == b
    requires parse(b) == Some(JObject(fields)) && "intent" in fields && fields["intent"] == JString(name)
    ensures ParseIntent(response, parse) == Some(FromStr(name))
  {
    assert StructIntent(JObject(fields)) == Some(name);
    assert parse(Sanitize(response)) == Some(JObject(fields));
  }

  // ---------------------------------------------------------------------------
  // Keyword fallback

  const CHAT_KEYWORDS: seq<string> := ["聊", "chat", "问", "explain", "说", "help"]
  const IMAGE_KEYWORDS: seq<string> := ["画", "image", "绘", "图", "picture", "logo", "design"]
  const MUSIC_KEYWORDS: seq<string> := ["music", "旋律", "歌曲", "歌", "伴奏", "和弦", "曲"]
  const VIDEO_KEYWORDS: seq<string> := ["视频", "video", "动画", "片段", "mv", "剪辑"]

  /** Some keyword of the group occurs in `s`. */
  predicate Mentions(s: string, keywords: seq<string>) {
    exists k :: 0 <= k < |keywords| && Contains(s, keywords[k])
  }

  /** `fallback_intent`: the first keyword group, in the order chat, image,
      music, video, that the lowercased input mentions; conversation when none
      does. It never answers help or unknown. */
  function FallbackIntent(input: string): (i: Intent)
    ensures i != Help && i != Unknown
    ensures Mentions(ToLower(input), CHAT_KEYWORDS) ==> i == Conversation
    ensures i == ImageGeneration <==> !Mentions(ToLower(input), CHAT_KEYWORDS) && Mentions(ToLower(input), IMAGE_KEYWORDS)
    ensures i == MusicGeneration <==> !Mentions(ToLower(input), CHAT_KEYWORDS) && !Mentions(ToLower(input), IMAGE_KEYWORDS)
                                      && Mentions(ToLower(input), MUSIC_KEYWORDS)
    ensures i == VideoGeneration <==> !Mentions(ToLower(input), CHAT_KEYWORDS) && !Mentions(ToLower(input), IMAGE_KEYWORDS)
                                      && !Mentions(ToLower(input), MUSIC_KEYWORDS) && Mentions(ToLower(input), VIDEO_KEYWORDS)
  {
    var normalized := ToLower(input);
    if Mentions(normalized, CHAT_KEYWORDS) then Conversation
    else if Mentions(normalized, IMAGE_KEYWORDS) then ImageGeneration
    else if Mentions(normalized, MUSIC_KEYWORDS) then MusicGeneration
    else if Mentions(normalized, VIDEO_KEYWORDS) then VideoGeneration
    else Conversation
  }

  /** Asking for help in words is a conversation to the fallback, not the help intent. */
  lemma FallbackHelpWordIsConversation(input: string)
    requires Contains(ToLower(input), "help")
    ensures FallbackIntent(input) == Conversation
  {
    assert CHAT_KEYWORDS[5] == "help";
  }

  /** A drawing request that also says "说" (speak) is a conversation: chat words win. */
  lemma ChatWordsWin(input: string)
    requires Contains(ToLower(input), "说") && Contains(ToLower(input), "画")
    ensures FallbackIntent(input) == Conversation
  {
    assert CHAT_KEYWORDS[4] == "说";
  }

  // ---------------------------------------------------------------------------
  // The classifier

  const INTENT_ROUTER_SYSTEM_PROMPT := "你是一名严格的路由器，只回答 JSON，格式为 {\"intent\": \"...\"}。intent 必须是 conversation、image_generation、music_generation、video_generation 或 help 之一。"
  const PROMPT_HEAD := "请读取用户输入并判断其意图。只输出 JSON，形如 {\"intent\": \"...\"}，不输出额外内容。\n用户输入: ```"

  /** The model behind the router: an OpenAI agent of the given model with the
      router's system prompt, or a Zhipu model with it. */
  datatype IntentProvider =
    | OpenAiRouter(model: string)
    | ZhipuRouter(zhipu: Zhipu.ZhipuCompletionModel, systemPrompt: string)

  datatype IntentClassifier = IntentClassifier(provider: Option<IntentProvider>)

  const UNSUPPORTED_ROUTER := "未支持的意图路由提供方: "
  const ZHIPU_INIT_FAILED := "初始化智谱模型失败: "

  /** The provider names that switch the router off. */
  predicate Disabled(provider: string) {
    provider == "" || provider == "none" || provider == "disabled"
  }

  /** `IntentClassifier::new`: no route, or a switched-off one, means keyword
      matching only; "openai" needs a client and a configuration, "zhipu" a
      configuration and a model built from it (`zhipuHttpError` is the failure
      to build its HTTP client, if any); any other provider is refused. The
      route's model wins over the configured chat model. */
  function NewClassifier(route: Option<CapabilityRoute>, hasOpenAiClient: bool, openAiConfig: Option<OpenAiConfig>,
                         zhipuConfig: Option<ZhipuConfig>, zhipuHttpError: Option<string>): (r: Errors.AgentResult<IntentClassifier>)
    ensures route.None? ==> r == Ok(IntentClassifier(None))
    ensures route.Some? && Disabled(route.value.provider) ==> r == Ok(IntentClassifier(None))
    ensures route.Some? && route.value.provider == "openai" ==>
      && (!hasOpenAiClient ==> r == Err(Errors.MissingConfig("openai.api_key (意图路由)")))
      && (hasOpenAiClient && openAiConfig.None? ==> r == Err(Errors.MissingConfig("openai.chat_model (意图路由)")))
      && (hasOpenAiClient && openAiConfig.Some? ==>
            r == Ok(IntentClassifier(Some(OpenAiRouter(route.value.model.GetOr(openAiConfig.value.chatModel))))))
    ensures route.Some? && route.value.provider == "zhipu" ==>
      && (zhipuConfig.None? ==> r == Err(Errors.MissingConfig("zhipu.api_key (意图路由)")))
      && (zhipuConfig.Some? && zhipuHttpError.Some? ==> r.Err? && r.error.Other?)
      && (zhipuConfig.Some? && zhipuHttpError.None? ==>
            r == Ok(IntentClassifier(Some(ZhipuRouter(Zhipu.FromConfig(zhipuConfig.value, route.value.model, None).value, INTENT_ROUTER_SYSTEM_PROMPT)))))
    ensures route.Some? && !Disabled(route.value.provider) && route.value.provider != "openai" && route.value.provider != "zhipu" ==>
      r == Err(Errors.Unsupported(UNSUPPORTED_ROUTER + route.value.provider))
  {
    if route.None? then Ok(IntentClassifier(None))
    else
      var p := route.value.provider;
      if p == "openai" then
        if !hasOpenAiClient then Err(Errors.MissingConfig("openai.api_key (意图路由)"))
        else if openAiConfig.None? then Err(Errors.MissingConfig("openai.chat_model (意图路由)"))
        else Ok(IntentClassifier(Some(OpenAiRouter(route.value.model.GetOr(openAiConfig.value.chatModel)))))
      else if p == "zhipu" then
        if zhipuConfig.None? then Err(Errors.MissingConfig("zhipu.api_key (意图路由)"))
        else match Zhipu.FromConfig(zhipuConfig.value, route.value.model, zhipuHttpError)
          case Err(e) => Err(Errors.Other(ZHIPU_INIT_FAILED + Zhipu.ErrorDebug(e)))
          case Ok(model) => Ok(IntentClassifier(Some(ZhipuRouter(model, INTENT_ROUTER_SYSTEM_PROMPT))))
      else if Disabled(p) then Ok(IntentClassifier(None))
      else Err(Errors.Unsupported(UNSUPPORTED_ROUTER + p))
  }

  /** The question put to the model: a fixed instruction, then the trimmed input in a fence. */
  function RouterPrompt(input: string): (prompt: string)
    ensures OccursAt(prompt, Trim(input), |PROMPT_HEAD|)
    ensures EndsWith(prompt, FENCE)
  {
    ConcatOccurs(PROMPT_HEAD, Trim(input), FENCE);
    PROMPT_HEAD + Trim(input) + FENCE
  }

  /** An OpenAI agent prompted once: given the model, the system prompt and the
      user prompt, its answer or the error text. */
  type OpenAiAsk = (string, string, string) -> Result<string, string>

  /** The text of the model's answer to the router prompt; None when the call
      failed. The Zhipu request holds the prompt as its only message; the system
      prompt travels as the request's preamble, which the Zhipu provider does
      not read. */
  function RouterAnswer(provider: IntentProvider, input: string, ask: OpenAiAsk,
                        post: Zhipu.Post<Result<Zhipu.ZhipuChatResponse, string>>): (r: Option<string>)
    ensures provider.OpenAiRouter? ==>
      var reply := ask(provider.model, INTENT_ROUTER_SYSTEM_PROMPT, RouterPrompt(input));
      (r.Some? <==> reply.Ok?) && (r.Some? ==> r.value == reply.value)
    ensures provider.ZhipuRouter? ==>
      (r.Some? <==> Zhipu.Completion(provider.zhipu, [Zhipu.UserMessage(RouterPrompt(input))], post).Ok?)
  {
    var prompt := RouterPrompt(input);
    match provider
    case OpenAiRouter(model) =>
      (match ask(model, INTENT_ROUTER_SYSTEM_PROMPT, prompt)
       case Ok(answer) => Some(answer)
       case Err(_) => None)
    case ZhipuRouter(zhipu, _) =>
      match Zhipu.Completion(zhipu, [Zhipu.UserMessage(prompt)], post)
      case Ok(response) => Some(Zhipu.ChoiceJoined(response))
      case Err(_) => None
  }

  /** `classify`: a blank input is a request for help; otherwise the model's
      answer decides when it names an intent, and the keyword fallback decides
      when there is no model, the call fails or the answer names none. It
      never fails. */
  function Classify(c: IntentClassifier, input: string, ask: OpenAiAsk,
                    post: Zhipu.Post<Result<Zhipu.ZhipuChatResponse, string>>, parse: string -> Option<Json>): (r: Errors.AgentResult<Intent>)
    ensures r.Ok?
    ensures IsBlank(input) ==> r.value == Help
    ensures !IsBlank(input) && c.provider.None? ==> r.value == FallbackIntent(input)
    ensures !IsBlank(input) && c.provider.Some? ==>
      var answer := RouterAnswer(c.provider.value, input, ask, post);
      r.value == if answer.Some? && ParseIntent(answer.value, parse).Some? then ParseIntent(answer.value, parse).value
                 else FallbackIntent(input)
  {
    TrimEmptyIffBlank(input);
    if Trim(input) == [] then Ok(Help)
    else if c.provider.None? then Ok(FallbackIntent(input))
    else match RouterAnswer(c.provider.value, input, ask, post)
      case None => Ok(FallbackIntent(input))
      case Some(answer) =>
        match ParseIntent(answer, parse)
        case Some(intent) => Ok(intent)
        case None => Ok(FallbackIntent(input))
  }

  /** The router answers help only for a blank input or when the model's
      answer named help; `Unknown` only ever comes from the model. */
  lemma HelpAndUnknownComeFromModel(c: IntentClassifier, input: string, ask: OpenAiAsk,
                                    post: Zhipu.Post<Result<Zhipu.ZhipuChatResponse, string>>, parse: string -> Option<Json>)
    ensures Classify(c, input, ask, post, parse).value in {Help, Unknown} ==>
      IsBlank(input) || (c.provider.Some? && RouterAnswer(c.provider.value, input, ask, post).Some?
        && ParseIntent(RouterAnswer(c.provider.value, input, ask, post).value, parse) == Some(Classify(c, input, ask, post, parse).value))
    ensures Classify(c, input, ask, post, parse).value == Unknown ==> !IsBlank(input)
  {
  }

  /** A classifier built from a switched-off route classifies by keywords alone. */
  lemma DisabledRouteUsesKeywords(route: CapabilityRoute, hasOpenAiClient: bool, openAiConfig: Option<OpenAiConfig>,
                                  zhipuConfig: Option<ZhipuConfig>, zhipuHttpError: Option<string>,
                                  input: string, ask: OpenAiAsk, post: Zhipu.Post<Result<Zhipu.ZhipuChatResponse, string>>,
                                  parse: string -> Option<Json>)
    requires Disabled(route.provider) && !IsBlank(input)
    ensures var c := NewClassifier(Some(route), hasOpenAiClient, openAiConfig, zhipuConfig, zhipuHttpError);
      c.Ok? && Classify(c.value, input, ask, post, parse) == Ok(FallbackIntent(input))
  {
  }
}
