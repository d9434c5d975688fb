/** The agent controller of src/orchestrator.rs: which provider backs each
    capability, how a classified request is routed to a capability, which
    live-room events trigger a reply, and the events reported to the SSE
    subscribers. The model calls, the artifact files and the channels are
    parameters. */
module Orchestrator {
  import opened Wrappers
  import opened Text
  import opened Json
  import Errors
  import opened Config
  import Zhipu
  import I = Intent
  import Conversation
  import Live
  import LiveClient
  import Sse

  // ---------------------------------------------------------------------------
  // Outcomes and the events that report them

  /** `ExecutionOutcome`; an artifact's path is its lossy text form. */
  datatype ExecutionOutcome =
    | ConversationOutcome(response: string)
    | ArtifactOutcome(intent: I.Intent, path: string, description: string)
    | HelpOutcome(message: string)

  const CONVERSATION_EVENT := "agent.conversation"
  const ARTIFACT_EVENT := "agent.artifact"
  const HELP_EVENT := "agent.help"
  const ERROR_EVENT := "agent.error"

  /** `as_event_payload`: the event name telling the kind of outcome, and an
      object holding the outcome's fields. */
  function AsEventPayload(o: ExecutionOutcome): (r: (string, Json))
    ensures r.0 == CONVERSATION_EVENT <==> o.ConversationOutcome?
    ensures r.0 == ARTIFACT_EVENT <==> o.ArtifactOutcome?
    ensures r.0 == HELP_EVENT <==> o.HelpOutcome?
    ensures r.1.JObject?
    ensures o.ConversationOutcome? ==> Get(r.1, "response") == Some(JString(o.response))
    ensures o.ArtifactOutcome? ==>
      && Get(r.1, "intent") == Some(JString(I.AsPrefix(o.intent)))
      && Get(r.1, "path") == Some(JString(o.path))
      && Get(r.1, "description") == Some(JString(o.description))
    ensures o.HelpOutcome? ==> Get(r.1, "message") == Some(JString(o.message))
  {
    match o
    case ConversationOutcome(response) =>
      (CONVERSATION_EVENT, JObject(map["response" := JString(response)]))
    case ArtifactOutcome(intent, path, description) =>
      (ARTIFACT_EVENT, JObject(map["intent" := JString(I.AsPrefix(intent)), "path" := JString(path),
                                   "description" := JString(description)]))
    case HelpOutcome(message) =>
      (HELP_EVENT, JObject(map["message" := JString(message)]))
  }

  /** A subscriber can read the outcome back from its event: different
      outcomes give different events. */
  lemma EventPayloadInjective(a: ExecutionOutcome, b: ExecutionOutcome)
    requires AsEventPayload(a) == AsEventPayload(b)
    ensures a == b
  {
    var (ea, pa) := AsEventPayload(a);
    if a.ConversationOutcome? {
      assert Get(pa, "response") == Some(JString(b.response));
    } else if a.ArtifactOutcome? {
      assert Get(pa, "intent") == Some(JString(I.AsPrefix(b.intent)));
      assert Get(pa, "path") == Some(JString(b.path));
      assert Get(pa, "description") == Some(JString(b.description));
      I.PrefixInjective(a.intent, b.intent);
    } else {
      assert Get(pa, "message") == Some(JString(b.message));
    }
  }

  /** The payload once `attach_context` has run: an object gains "origin",
      and "context" when there is metadata; anything else is left alone. */
  function WithContext(payload: Json, origin: string, metadata: Option<Json>): (r: Json)
    ensures !payload.JObject? ==> r == payload
    ensures payload.JObject? ==>
      && r.JObject?
      && r.fields.Keys == payload.fields.Keys + {"origin"} + (if metadata.Some? then {"context"} else {})
      && Get(r, "origin") == Some(JString(origin))
      && Get(r, "context") == (if metadata.Some? then metadata else Get(payload, "context"))
      && forall k :: k in payload.fields && k != "origin" && k != "context" ==> r.fields[k] == payload.fields[k]
  {
    if !payload.JObject? then payload
    else
      var withOrigin := payload.fields["origin" := JString(origin)];
      JObject(if metadata.Some? then withOrigin["context" := metadata.value] else withOrigin)
  }

  /** `attach_context`, updating the payload's map in place. */
  method AttachContext(payload: Json, origin: string, metadata: Option<Json>) returns (r: Json)
    ensures r == WithContext(payload, origin, metadata)
  {
    r := payload;
    if r.JObject? {
      var fields := r.fields;
      fields := fields["origin" := JString(origin)];
      if metadata.Some? {
        fields := fields["context" := metadata.value];
      }
      r := JObject(fields);
    }
  }

  /** The context never hides what an outcome reports: every field of its
      payload keeps its value. */
  lemma ContextKeepsOutcome(o: ExecutionOutcome, origin: string, metadata: Option<Json>, key: string)
    requires key in AsEventPayload(o).1.fields
    ensures Get(WithContext(AsEventPayload(o).1, origin, metadata), key) == Get(AsEventPayload(o).1, key)
  {
    var p := AsEventPayload(o).1;
    assert key != "origin" && key != "context";
  }

  /** The payload of `broadcast_error`. */
  function ErrorPayload(origin: string, message: string): (r: Json)
    ensures Get(r, "origin") == Some(JString(origin)) && Get(r, "message") == Some(JString(message))
  {
    JObject(map["origin" := JString(origin), "message" := JString(message)])
  }

  // ---------------------------------------------------------------------------
  // Providers

  /** The generators the controller holds; their HTTP clients are left out. */
  datatype ImageGenerator = ImageGenerator(model: string)
  datatype MusicGenerator = MusicGenerator(model: string, voice: string)
  datatype VideoGenerator = VideoGenerator(endpoint: string, apiKey: Option<string>, format: string,
                                           maxDurationSeconds: Option<nat>)

  /** How the conversation agent is to be built: an OpenAI agent of the given
      model and preamble, or a Zhipu model from its configuration. */
  datatype ConversationPlan =
    | OpenAiPlan(model: string, preamble: string)
    | ZhipuPlan(config: ZhipuConfig, modelOverride: Option<string>)

  const CHAT_UNSUPPORTED := "未支持的对话提供方: "
  const IMAGE_UNSUPPORTED := "未支持的图像生成提供方: "
  const MUSIC_UNSUPPORTED := "未支持的音乐生成提供方: "
  const VIDEO_UNSUPPORTED := "未支持的视频生成提供方: "

  /** A route naming a provider that is neither switched off nor one of `known`. */
  predicate Refused(route: Option<CapabilityRoute>, known: set<string>) {
    route.Some? && !I.Disabled(route.value.provider) && route.value.provider !in known
  }

  /** The conversation provider chosen in `new`: "openai" needs the OpenAI
      section (which is also what creates the client), "zhipu" the Zhipu one;
      the route's model wins over the configured chat model. */
  function SelectConversation(route: Option<CapabilityRoute>, openai: Option<OpenAiConfig>, zhipu: Option<ZhipuConfig>)
    : (r: Errors.AgentResult<Option<ConversationPlan>>)
    ensures r == Ok(None) <==> route.None? || I.Disabled(route.value.provider)
    ensures r.Err? && r.error.Unsupported? <==> Refused(route, {"openai", "zhipu"})
    ensures Refused(route, {"openai", "zhipu"}) ==> r == Err(Errors.Unsupported(CHAT_UNSUPPORTED + route.value.provider))
    ensures route.Some? && route.value.provider == "openai" ==>
      r == if openai.None? then Err(Errors.MissingConfig("openai.api_key (聊天)"))
           else Ok(Some(OpenAiPlan(route.value.model.GetOr(openai.value.chatModel), openai.value.agentPreamble)))
    ensures route.Some? && route.value.provider == "zhipu" ==>
      r == if zhipu.None? then Err(Errors.MissingConfig("zhipu.api_key (聊天)"))
           else Ok(Some(ZhipuPlan(zhipu.value, route.value.model)))
  {
    if route.None? then Ok(None)
    else
      var p := route.value.provider;
      if p == "openai" then
        if openai.None? then Err(Errors.MissingConfig("openai.api_key (聊天)"))
        else Ok(Some(OpenAiPlan(route.value.model.GetOr(openai.value.chatModel), openai.value.agentPreamble)))
      else if p == "zhipu" then
        if zhipu.None? then Err(Errors.MissingConfig("zhipu.api_key (聊天)"))
        else Ok(Some(ZhipuPlan(zhipu.value, route.value.model)))
      else if I.Disabled(p) then Ok(None)
      else Err(Errors.Unsupported(CHAT_UNSUPPORTED + p))
  }

  /** The image provider: only "openai", with the route's model or the configured image model. */
  function SelectImage(route: Option<CapabilityRoute>, openai: Option<OpenAiConfig>)
    : (r: Errors.AgentResult<Option<ImageGenerator>>)
    ensures r == Ok(None) <==> route.None? || I.Disabled(route.value.provider)
    ensures r.Err? && r.error.Unsupported? <==> Refused(route, {"openai"})
    ensures Refused(route, {"openai"}) ==> r == Err(Errors.Unsupported(IMAGE_UNSUPPORTED + route.value.provider))
    ensures route.Some? && route.value.provider == "openai" ==>
      r == if openai.None? then Err(Errors.MissingConfig("openai.api_key (绘画生成)"))
           else Ok(Some(ImageGenerator(route.value.model.GetOr(openai.value.imageModel))))
  {
    if route.None? then Ok(None)
    else
      var p := route.value.provider;
      if p == "openai" then
        if openai.None? then Err(Errors.MissingConfig("openai.api_key (绘画生成)"))
        else Ok(Some(ImageGenerator(route.value.model.GetOr(openai.value.imageModel))))
      else if I.Disabled(p) then Ok(None)
      else Err(Errors.Unsupported(IMAGE_UNSUPPORTED + p))
  }

  /** The music provider: only "hyperbolic", with the route's model or the configured language. */
  function SelectMusic(route: Option<CapabilityRoute>, hyperbolic: Option<HyperbolicConfig>)
    : (r: Errors.AgentResult<Option<MusicGenerator>>)
    ensures r == Ok(None) <==> route.None? || I.Disabled(route.value.provider)
    ensures r.Err? && r.error.Unsupported? <==> Refused(route, {"hyperbolic"})
    ensures Refused(route, {"hyperbolic"}) ==> r == Err(Errors.Unsupported(MUSIC_UNSUPPORTED + route.value.provider))
    ensures route.Some? && route.value.provider == "hyperbolic" ==>
      r == if hyperbolic.None? then Err(Errors.MissingConfig("hyperbolic.api_key (音乐生成)"))
           else Ok(Some(MusicGenerator(route.value.model.GetOr(hyperbolic.value.language), hyperbolic.value.voice)))
  {
    if route.None? then Ok(None)
    else
      var p := route.value.provider;
      if p == "hyperbolic" then
        if hyperbolic.None? then Err(Errors.MissingConfig("hyperbolic.api_key (音乐生成)"))
        else Ok(Some(MusicGenerator(route.value.model.GetOr(hyperbolic.value.language), hyperbolic.value.voice)))
      else if I.Disabled(p) then Ok(None)
      else Err(Errors.Unsupported(MUSIC_UNSUPPORTED + p))
  }

  /** The video provider: only "custom"; the route's model overrides the output format. */
  function SelectVideo(route: Option<CapabilityRoute>, video: Option<VideoConfig>)
    : (r: Errors.AgentResult<Option<VideoGenerator>>)
    ensures r == Ok(None) <==> route.None? || I.Disabled(route.value.provider)
    ensures r.Err? && r.error.Unsupported? <==> Refused(route, {"custom"})
    ensures Refused(route, {"custom"}) ==> r == Err(Errors.Unsupported(VIDEO_UNSUPPORTED + route.value.provider))
    ensures route.Some? && route.value.provider == "custom" ==>
      r == if video.None? then Err(Errors.MissingConfig("video.endpoint (视频生成)"))
           else Ok(Some(VideoGenerator(video.value.endpoint, video.value.apiKey,
                                       route.value.model.GetOr(video.value.format), video.value.maxDurationSeconds)))
  {
    if route.None? then Ok(None)
    else
      var p := route.value.provider;
      if p == "custom" then
        if video.None? then Err(Errors.MissingConfig("video.endpoint (视频生成)"))
        else Ok(Some(VideoGenerator(video.value.endpoint, video.value.apiKey,
                                    route.value.model.GetOr(video.value.format), video.value.maxDurationSeconds)))
      else if I.Disabled(p) then Ok(None)
      else Err(Errors.Unsupported(VIDEO_UNSUPPORTED + p))
  }

  /** The parts of the controller `new` decides before building anything that
      holds state. */
  datatype Setup = Setup(classifier: I.IntentClassifier, conversation: Option<ConversationPlan>,
                         image: Option<ImageGenerator>, music: Option<MusicGenerator>, video: Option<VideoGenerator>)

  /** The steps of `new` in order, the first failure winning: the artifact
      directory (`writerError` is the failure to create it), the intent router,
      then the conversation, image, music and video providers. A Zhipu
      conversation model whose HTTP client cannot be built
      (`chatHttpError`) fails as a completion error. */
  function PlanController(openai: Option<OpenAiConfig>, hyperbolic: Option<HyperbolicConfig>, video: Option<VideoConfig>,
                          zhipu: Option<ZhipuConfig>, providers: CapabilityProviders, writerError: Option<Errors.AgentError>,
                          routerHttpError: Option<string>, chatHttpError: Option<string>): (r: Errors.AgentResult<Setup>)
    ensures writerError.Some? ==> r == Err(writerError.value)
    ensures r.Ok? ==>
      && I.NewClassifier(providers.intent, openai.Some?, openai, zhipu, routerHttpError).Ok?
      && SelectConversation(providers.conversation, openai, zhipu).Ok?
      && SelectImage(providers.image, openai).Ok?
      && SelectMusic(providers.music, hyperbolic).Ok?
      && SelectVideo(providers.video, video).Ok?
      && r.value.classifier == I.NewClassifier(providers.intent, openai.Some?, openai, zhipu, routerHttpError).value
      && r.value.conversation == SelectConversation(providers.conversation, openai, zhipu).value
      && r.value.image == SelectImage(providers.image, openai).value
      && r.value.music == SelectMusic(providers.music, hyperbolic).value
      && r.value.video == SelectVideo(providers.video, video).value
  {
    if writerError.Some? then Err(writerError.value)
    else
      var classifier :- I.NewClassifier(providers.intent, openai.Some?, openai, zhipu, routerHttpError);
      var conversation :- SelectConversation(providers.conversation, openai, zhipu);
      if conversation.Some? && conversation.value.ZhipuPlan? && chatHttpError.Some? then
        Err(Errors.Completion(Zhipu.ErrorText(Zhipu.ProviderError(chatHttpError.value))))
      else
        var image :- SelectImage(providers.image, openai);
        var music :- SelectMusic(providers.music, hyperbolic);
        var video :- SelectVideo(providers.video, video);
        Ok(Setup(classifier, conversation, image, music, video))
  }

  /** A controller is only built when every route is absent, switched off or
      names a provider its capability knows. */
  lemma PlanRefusesUnknownProviders(openai: Option<OpenAiConfig>, hyperbolic: Option<HyperbolicConfig>, video: Option<VideoConfig>,
                                    zhipu: Option<ZhipuConfig>, providers: CapabilityProviders, writerError: Option<Errors.AgentError>,
                                    routerHttpError: Option<string>, chatHttpError: Option<string>)
    requires PlanController(openai, hyperbolic, video, zhipu, providers, writerError, routerHttpError, chatHttpError).Ok?
    ensures !Refused(providers.intent, {"openai", "zhipu"})
    ensures !Refused(providers.conversation, {"openai", "zhipu"})
    ensures !Refused(providers.image, {"openai"})
    ensures !Refused(providers.music, {"hyperbolic"})
    ensures !Refused(providers.video, {"custom"})
  {
    var c := I.NewClassifier(providers.intent, openai.Some?, openai, zhipu, routerHttpError);
    assert c.Ok?;
  }

  /** With every capability switched off, building only fails on the artifact directory. */
  lemma AllDisabledBuilds(openai: Option<OpenAiConfig>, hyperbolic: Option<HyperbolicConfig>, video: Option<VideoConfig>,
                          zhipu: Option<ZhipuConfig>, routerHttpError: Option<string>, chatHttpError: Option<string>)
    ensures var providers := CapabilityProviders(None, None, None, None, None);
      PlanController(openai, hyperbolic, video, zhipu, providers, None, routerHttpError, chatHttpError)
        == Ok(Setup(I.IntentClassifier(None), None, None, None, None))
  {
  }

  // ---------------------------------------------------------------------------
  // Routing a request

  /** What a capability yields: its summary, written to disk by the artifact writer. */
  datatype Artifact = Artifact(summary: string)

  /** The services the controller calls out to: the router's model, the
      conversation models, the three generators and the artifact writer
      (which answers the path it wrote). */
  datatype Backends = Backends(
    ask: I.OpenAiAsk,
    routerPost: Zhipu.Post<Result<Zhipu.ZhipuChatResponse, string>>,
    parse: string -> Option<Json>,
    chat: Conversation.OpenAiChat,
    chatPost: Zhipu.Post<Result<Zhipu.ZhipuChatResponse, string>>,
    drawImage: (ImageGenerator, string) -> Errors.AgentResult<Artifact>,
    compose: (MusicGenerator, string) -> Errors.AgentResult<Artifact>,
    renderVideo: (VideoGenerator, string) -> Errors.AgentResult<Artifact>,
    persist: (I.Intent, Artifact) -> Errors.AgentResult<string>)

  /** A generated artifact persisted and reported. */
  function ArtifactResult(intent: I.Intent, generated: Errors.AgentResult<Artifact>,
                          persist: (I.Intent, Artifact) -> Errors.AgentResult<string>): (r: Errors.AgentResult<ExecutionOutcome>)
    ensures generated.Err? ==> r == Err(generated.error)
    ensures generated.Ok? && persist(intent, generated.value).Err? ==> r == Err(persist(intent, generated.value).error)
    ensures r.Ok? <==> generated.Ok? && persist(intent, generated.value).Ok?
    ensures r.Ok? ==> r.value == ArtifactOutcome(intent, persist(intent, generated.value).value, generated.value.summary)
  {
    var artifact :- generated;
    var path :- persist(intent, artifact);
    Ok(ArtifactOutcome(intent, path, artifact.summary))
  }

  const NO_CONVERSATION := "providers.conversation (聊天)"
  const NO_IMAGE := "providers.image (绘画生成)"
  const NO_MUSIC := "providers.music (音乐生成)"
  const NO_VIDEO := "providers.video (视频生成)"

  /** The routing of `handle` for a classified request: conversation and
      unknown requests go to the conversation agent (whose reply is `chat`,
      None when there is no agent), the generation intents to their
      generators, help to the help text. A capability that is not configured
      is a missing-configuration error. */
  function Respond(intent: I.Intent, chat: Option<Errors.AgentResult<string>>, image: Option<ImageGenerator>,
                   music: Option<MusicGenerator>, video: Option<VideoGenerator>, help: string, input: string,
                   b: Backends): (r: Errors.AgentResult<ExecutionOutcome>)
    ensures r.Ok? ==> (r.value.ConversationOutcome? <==> intent == I.Conversation || intent == I.Unknown)
    ensures r.Ok? ==> (r.value.HelpOutcome? <==> intent == I.Help)
    ensures r.Ok? && r.value.ArtifactOutcome? ==> r.value.intent == intent
    ensures intent == I.Help ==> r == Ok(HelpOutcome(help))
    ensures intent == I.Conversation || intent == I.Unknown ==>
      && (chat.None? ==> r == Err(Errors.MissingConfig(NO_CONVERSATION)))
      && (chat.Some? && chat.value.Ok? ==> r == Ok(ConversationOutcome(chat.value.value)))
      && (chat.Some? && chat.value.Err? ==> r == Err(chat.value.error))
    ensures intent == I.ImageGeneration ==>
      r == if image.None? then Err(Errors.MissingConfig(NO_IMAGE))
           else ArtifactResult(intent, b.drawImage(image.value, input), b.persist)
    ensures intent == I.MusicGeneration ==>
      r == if music.None? then Err(Errors.MissingConfig(NO_MUSIC))
           else ArtifactResult(intent, b.compose(music.value, input), b.persist)
    ensures intent == I.VideoGeneration ==>
      r == if video.None? then Err(Errors.MissingConfig(NO_VIDEO))
           else ArtifactResult(intent, b.renderVideo(video.value, input), b.persist)
  {
    match intent
    case Conversation | Unknown =>
      if chat.None? then Err(Errors.MissingConfig(NO_CONVERSATION))
      else
        var response :- chat.value;
        Ok(ConversationOutcome(response))
    case ImageGeneration =>
      if image.None? then Err(Errors.MissingConfig(NO_IMAGE))
      else ArtifactResult(intent, b.drawImage(image.value, input), b.persist)
    case MusicGeneration =>
      if music.None? then Err(Errors.MissingConfig(NO_MUSIC))
      else ArtifactResult(intent, b.compose(music.value, input), b.persist)
    case VideoGeneration =>
      if video.None? then Err(Errors.MissingConfig(NO_VIDEO))
      else ArtifactResult(intent, b.renderVideo(video.value, input), b.persist)
    case Help => Ok(HelpOutcome(help))
  }

  /** Outside a conversation turn the conversation agent's reply plays no part. */
  lemma RespondIgnoresChat(intent: I.Intent, chat: Option<Errors.AgentResult<string>>, image: Option<ImageGenerator>,
                           music: Option<MusicGenerator>, video: Option<VideoGenerator>, help: string, input: string,
                           b: Backends)
    requires intent != I.Conversation && intent != I.Unknown
    ensures Respond(intent, chat, image, music, video, help, input, b) == Respond(intent, None, image, music, video, help, input, b)
  {
  }

  // ---------------------------------------------------------------------------
  // The help text

  const ENABLED := "✅ 已启用"
  const PENDING := "⚠️ 待配置"

  /** The description of a capability in the help text. */
  function Description(intent: I.Intent): string {
    match intent
    case Conversation => "自由对话与问答"
    case ImageGeneration => "创建插画或设计草图 (OPENAI_API_KEY)"
    case MusicGeneration => "根据提示生成音乐 (HYPERBOLIC_API_KEY)"
    case VideoGeneration => "调用自定义视频服务生成短片 (VIDEO_API_ENDPOINT)"
    case Help | Unknown => "帮助信息"
  }

  /** The start of a capability's line, before its status. */
  function StatusFront(intent: I.Intent): string {
    "- " + Description(intent) + ": "
  }

  /** A capability's line: its description and whether it is enabled. */
  function StatusLine(intent: I.Intent, enabled: bool): string {
    StatusFront(intent) + (if enabled then ENABLED else PENDING)
  }

  /** One line per capability, in the order of the overview. */
  function StatusLines(overview: seq<(I.Intent, bool)>): (r: seq<string>)
    ensures |r| == |overview|
    ensures forall k :: 0 <= k < |overview| ==> r[k] == StatusLine(overview[k].0, overview[k].1)
  {
    if overview == [] then []
    else [StatusLine(overview[0].0, overview[0].1)] + StatusLines(overview[1..])
  }

  const HELP_HEAD: seq<string> := ["欢迎使用 Vutber Agent!", "", "我可以帮你处理以下任务:"]
  const HELP_SAMPLES: seq<string> := [
    "",
    "示例:",
    "- ‘帮我写一段旅行 vlog 脚本’",
    "- ‘把这段文案读出来：……’",
    "- ‘画一张赛博朋克风格的城市夜景’",
    "- ‘写一段轻快的 lofi 风格背景音乐’",
    "- ‘制作一个 10 秒的启动动画蓝图’"]
  const HELP_USAGE: seq<string> := [
    "",
    "通过 WebSocket 发送 JSON 消息即可与我交互。例如：",
    "- {\"action\":\"command\",\"input\":\"写一段旅行 vlog 脚本\"}",
    "- {\"action\":\"command\",\"input\":\"画一只赛博朋克猫娘\"}",
    "- {\"action\":\"command\",\"input\":\"把下面一段文字读出来……\"}"]
  const LIVE_HEADER := "直播相关命令："
  const HELP_LIVE: seq<string> := [
    "",
    LIVE_HEADER,
    "- {\"action\":\"live_start\"} — 使用配置的身份码启动监听",
    "- {\"action\":\"live_stop\"} — 停止监听",
    "- {\"action\":\"live_status\"} — 查询当前状态"]

  /** The lines of the help text: a greeting, the status of each capability,
      examples, and the live commands when a live room is configured. */
  function HelpLines(overview: seq<(I.Intent, bool)>, hasLive: bool): (r: seq<string>)
    ensures |r| == |HELP_HEAD| + |overview| + |HELP_SAMPLES| + |HELP_USAGE| + (if hasLive then |HELP_LIVE| else 0)
    ensures r[..|HELP_HEAD|] == HELP_HEAD
    ensures r[|HELP_HEAD|..|HELP_HEAD| + |overview|] == StatusLines(overview)
    ensures hasLive ==> r[|r| - |HELP_LIVE|..] == HELP_LIVE
    ensures !hasLive ==> r[|r| - |HELP_USAGE|..] == HELP_USAGE
  {
    HELP_HEAD + StatusLines(overview) + HelpTail(hasLive)
  }

  /** The lines after the capability statuses. */
  function HelpTail(hasLive: bool): seq<string> {
    HELP_SAMPLES + HELP_USAGE + (if hasLive then HELP_LIVE else [])
  }

  /** `help_message`: the lines joined with newlines, so the text opens with
      the greeting and closes with the live commands when a live room is
      configured, or with the usage examples otherwise. */
  function HelpMessage(overview: seq<(I.Intent, bool)>, hasLive: bool): (r: string)
    ensures StartsWith(r, HELP_HEAD[0] + "\n")
    ensures hasLive ==> EndsWith(r, "\n" + HELP_LIVE[|HELP_LIVE| - 1])
    ensures !hasLive ==> EndsWith(r, "\n" + HELP_USAGE[|HELP_USAGE| - 1])
  {
    var lines := HelpLines(overview, hasLive);
    JoinEnds(lines, "\n");
    assert lines[0] == lines[..|HELP_HEAD|][0];
    assert lines[|lines| - 1] == lines[|lines| - (if hasLive then |HELP_LIVE| else |HELP_USAGE|)..][(if hasLive then |HELP_LIVE| else |HELP_USAGE|) - 1];
    Join(lines, "\n")
  }

  /** A status line ends in the enabled mark exactly when the capability is enabled. */
  lemma StatusMark(front: string, enabled: bool)
    ensures var line := front + (if enabled then ENABLED else PENDING);
      StartsWith(line, front) && (EndsWith(line, ENABLED) <==> enabled)
  {
    var line := front + (if enabled then ENABLED else PENDING);
    assert line[..|front|] == front;
    if enabled {
      assert line[|front|..] == ENABLED;
    } else {
      assert line[|line| - 1] == PENDING[|PENDING| - 1] != ENABLED[|ENABLED| - 1];
    }
  }

  /** The status of each capability can be read off its line. */
  lemma StatusReadable(overview: seq<(I.Intent, bool)>, hasLive: bool, k: nat)
    requires k < |overview|
    ensures var line := HelpLines(overview, hasLive)[|HELP_HEAD| + k];
      && StartsWith(line, StatusFront(overview[k].0))
      && (EndsWith(line, ENABLED) <==> overview[k].1)
  {
    HelpStatusLine(overview, hasLive, k);
    StatusMark(StatusFront(overview[k].0), overview[k].1);
  }

  /** The status lines stand right after the greeting, in overview order. */
  lemma HelpStatusLine(overview: seq<(I.Intent, bool)>, hasLive: bool, k: nat)
    requires k < |overview|
    ensures HelpLines(overview, hasLive)[|HELP_HEAD| + k] == StatusLine(overview[k].0, overview[k].1)
  {
    AtMiddle(HELP_HEAD, StatusLines(overview), HelpTail(hasLive), k);
  }

  lemma AtMiddle<T>(a: seq<T>, b: seq<T>, c: seq<T>, k: nat)
    requires k < |b|
    ensures (a + b + c)[|a| + k] == b[k]
  {
  }

  /** `capabilities_overview` for the configured capabilities. */
  function Overview(conversation: bool, image: bool, music: bool, video: bool): (r: seq<(I.Intent, bool)>)
    ensures |r| == 4
    ensures forall k :: 0 <= k < 4 ==> r[k].0 != I.Help && r[k].0 != I.Unknown
    ensures forall j, k :: 0 <= j < k < 4 ==> r[j].0 != r[k].0
  {
    [(I.Conversation, conversation), (I.ImageGeneration, image), (I.MusicGeneration, music), (I.VideoGeneration, video)]
  }

  // ---------------------------------------------------------------------------
  // Live-room events

  const LIVE_DM := "LIVE_OPEN_PLATFORM_DM"
  const ANONYMOUS := "匿名用户"
  const LIVE_ORIGIN := "live"
  const LIVE_FAILED := "直播消息处理失败: "

  /** The sender and the trimmed message of a live event the controller acts
      on: a danmaku whose "msg" is a string that is not blank. The sender is
      the "uname" string when it is non-empty, else anonymous. */
  function LiveDanmaku(event: Live.LiveEvent): (r: Option<(string, string)>)
    ensures r.Some? <==>
      && event.cmd == LIVE_DM
      && Lookup(event.data, ["msg"]).Some? && AsStr(Lookup(event.data, ["msg"]).value).Some?
      && !IsBlank(AsStr(Lookup(event.data, ["msg"]).value).value)
    ensures r.Some? ==> r.value.1 == Trim(AsStr(Lookup(event.data, ["msg"]).value).value) && r.value.1 != []
    ensures r.Some? ==> r.value.0 != []
  {
    if event.cmd != LIVE_DM then None
    else
      var msg := Lookup(event.data, ["msg"]);
      if msg.None? || AsStr(msg.value).None? then None
      else
        var trimmed := Trim(AsStr(msg.value).value);
        TrimEmptyIffBlank(AsStr(msg.value).value);
        if trimmed == [] then None
        else
          var uname := Lookup(event.data, ["uname"]);
          var sender := if uname.Some? && AsStr(uname.value).Some? && AsStr(uname.value).value != []
                        then AsStr(uname.value).value else ANONYMOUS;
          Some((sender, trimmed))
  }

  /** The context attached to the report of a live message. */
  function LiveMetadata(sender: string, message: string): Json {
    JObject(map["sender" := JString(sender), "message" := JString(message)])
  }

  /** The event that reports the handling of a live message: the outcome's
      event with the live context, or an error event. */
  function LiveReport(sender: string, message: string, handled: Errors.AgentResult<ExecutionOutcome>): (r: Json)
    ensures handled.Ok? ==> Get(r, "event") == Some(JString(AsEventPayload(handled.value).0))
    ensures handled.Err? ==> Get(r, "event") == Some(JString(ERROR_EVENT))
  {
    match handled
    case Ok(o) =>
      var (event, payload) := AsEventPayload(o);
      Sse.EncodeMessage(event, WithContext(payload, LIVE_ORIGIN, Some(LiveMetadata(sender, message))))
    case Err(e) =>
      Sse.EncodeMessage(ERROR_EVENT, ErrorPayload(LIVE_ORIGIN, LIVE_FAILED + Errors.ErrorText(e)))
  }

  /** Only the danmaku command is acted on, whatever its content. */
  lemma OnlyDanmakuActedOn(event: Live.LiveEvent)
    requires event.cmd != LIVE_DM
    ensures LiveDanmaku(event).None?
  {
  }

  /** A live message surrounded by whitespace is handled as its trimmed text. */
  lemma LiveMessageTrimmed(data: map<string, Json>, w1: string, text: string, w2: string)
    requires IsBlank(w1) && IsBlank(w2) && text != []
    requires !IsWhitespace(text[0]) && !IsWhitespace(text[|text| - 1])
    requires "msg" in data && data["msg"] == JString(w1 + text + w2)
    ensures LiveDanmaku(Live.LiveEvent(LIVE_DM, JObject(data))).Some?
    ensures LiveDanmaku(Live.LiveEvent(LIVE_DM, JObject(data))).value.1 == text
  {
    var msg := w1 + text + w2;
    var event := Live.LiveEvent(LIVE_DM, JObject(data));
    assert Lookup(event.data, ["msg"]) == Some(JString(msg)) by {
      assert ["msg"][1..] == [];
    }
    assert AsStr(JString(msg)) == Some(msg);
    TrimAround(w1, text, w2);
    TrimEmptyIffBlank(msg);
    var r := LiveDanmaku(event);
    assert r.Some?;
    assert r.value.1 == Trim(msg);
  }

  // ---------------------------------------------------------------------------
  // The controller

  /** The receiving end of the live event channel (capacity 64). */
  datatype EventReceiver = EventReceiver(capacity: nat)

  const LIVE_CHANNEL_CAPACITY: nat := 64
  const NO_LIVE := "live.bilibili"

  /** The conversation history after handling `input` with result `r`: a
      conversation turn records the exchange and trims it to the limit;
      anything else leaves the history as it was. */
  function HistoryAfter(history: seq<Conversation.ConversationMessage>, input: string,
                        r: Errors.AgentResult<ExecutionOutcome>): (h: seq<Conversation.ConversationMessage>)
    ensures r.Ok? && r.value.ConversationOutcome? ==>
      h == Conversation.Recent(history + [Conversation.ConversationMessage(Conversation.User, input),
                                          Conversation.ConversationMessage(Conversation.Assistant, r.value.response)])
    ensures !(r.Ok? && r.value.ConversationOutcome?) ==> h == history
  {
    if r.Ok? && r.value.ConversationOutcome? then
      Conversation.Recent(history + [Conversation.ConversationMessage(Conversation.User, input),
                                     Conversation.ConversationMessage(Conversation.Assistant, r.value.response)])
    else history
  }

  class AgentController {
    const classifier: I.IntentClassifier
    const conversation: Option<Conversation.ConversationAgent>
    const image: Option<ImageGenerator>
    const music: Option<MusicGenerator>
    const video: Option<VideoGenerator>
    const live: Option<Live.LiveManager>
    var liveEventRx: Option<EventReceiver>
    /** Whether an SSE broadcaster was handed in. */
    const hasBroadcaster: bool
    /** The messages handed to the broadcaster, oldest first. */
    var broadcasts: seq<Json>

    /** The conversation agent, as a frame. */
    function Agent(): set<object> {
      if conversation.Some? then {conversation.value} else {}
    }

    /** The live manager, as a frame. */
    function Manager(): set<object> {
      if live.Some? then {live.value} else {}
    }

    predicate Valid()
      reads Agent()
    {
      conversation.Some? ==> conversation.value.Valid()
    }

    constructor (classifier: I.IntentClassifier, conversation: Option<Conversation.ConversationAgent>,
                 image: Option<ImageGenerator>, music: Option<MusicGenerator>, video: Option<VideoGenerator>,
                 live: Option<Live.LiveManager>, hasBroadcaster: bool)
      requires conversation.Some? ==> conversation.value.Valid()
      ensures this.classifier == classifier && this.conversation == conversation
      ensures this.image == image && this.music == music && this.video == video
      ensures this.live == live && this.hasBroadcaster == hasBroadcaster
      ensures liveEventRx == (if live.Some? then Some(EventReceiver(LIVE_CHANNEL_CAPACITY)) else None)
      ensures broadcasts == [] && Valid() && ListensOnlyWhenLive()
    {
      this.classifier := classifier;
      this.conversation := conversation;
      this.image := image;
      this.music := music;
      this.video := video;
      this.live := live;
      this.hasBroadcaster := hasBroadcaster;
      liveEventRx := if live.Some? then Some(EventReceiver(LIVE_CHANNEL_CAPACITY)) else None;
      broadcasts := [];
    }

    /** `capabilities_overview`: each capability enabled exactly when its provider is configured. */
    function CapabilitiesOverview(): (r: seq<(I.Intent, bool)>)
      reads this
      ensures r == Overview(conversation.Some?, image.Some?, music.Some?, video.Some?)
      ensures r[0] == (I.Conversation, conversation.Some?) && r[1] == (I.ImageGeneration, image.Some?)
      ensures r[2] == (I.MusicGeneration, music.Some?) && r[3] == (I.VideoGeneration, video.Some?)
    {
      Overview(conversation.Some?, image.Some?, music.Some?, video.Some?)
    }

    /** An event receiver exists only beside a live manager. */
    predicate ListensOnlyWhenLive()
      reads this
    {
      liveEventRx.Some? ==> live.Some?
    }

    /** `has_live_listener`: whether live events can still be received, which
        is never the case without a live manager. */
    function HasLiveListener(): (r: bool)
      reads this
      ensures r <==> liveEventRx.Some?
      ensures ListensOnlyWhenLive() && r ==> live.Some?
    {
      liveEventRx.Some?
    }

    /** `recv_live_event`, where `next` is what awaiting the channel yields
        (None once every sender is gone): without a receiver nothing is
        received; a closed channel drops the receiver for good. */
    method RecvLiveEvent(next: Option<Live.LiveEvent>) returns (r: Option<Live.LiveEvent>)
      modifies this`liveEventRx
      ensures old(liveEventRx).None? ==> r.None? && liveEventRx.None?
      ensures old(liveEventRx).Some? ==> r == next
      ensures old(liveEventRx).Some? && next.Some? ==> liveEventRx == old(liveEventRx)
      ensures next.None? ==> !HasLiveListener()
      ensures old(ListensOnlyWhenLive()) ==> ListensOnlyWhenLive()
    {
      if liveEventRx.None? {
        return None;
      }
      r := next;
      if r.None? {
        liveEventRx := None;
      }
    }

    /** `start_live`. */
    method StartLive(env: LiveClient.RequestEnv, send: LiveClient.Transport<LiveClient.StartApiResponse>, now: int)
      returns (r: Errors.AgentResult<Live.LiveSessionInfo>)
      modifies Manager()
      ensures live.None? ==> r == Err(Errors.MissingConfig(NO_LIVE))
      ensures live.Some? ==>
        (r, live.value.session) == Live.StartStep(old(live.value.session), live.value.client, env, send, now)
    {
      if live.None? {
        return Err(Errors.MissingConfig(NO_LIVE));
      }
      r := live.value.Start(env, send, now);
    }

    /** `stop_live`. */
    method StopLive(env: LiveClient.RequestEnv, send: LiveClient.Transport<LiveClient.EmptyApiResponse>)
      returns (r: Errors.AgentResult<Option<Live.LiveSessionInfo>>)
      modifies Manager()
      ensures live.None? ==> r == Err(Errors.MissingConfig(NO_LIVE))
      ensures live.Some? ==>
        && r == Live.StopResult(old(live.value.session), live.value.client, env, send)
        && live.value.session.None?
    {
      if live.None? {
        return Err(Errors.MissingConfig(NO_LIVE));
      }
      r := live.value.Stop(env, send);
    }

    /** `shutdown`: a configured live session is stopped, and a failure to
        stop it is the only failure. */
    method Shutdown(env: LiveClient.RequestEnv, send: LiveClient.Transport<LiveClient.EmptyApiResponse>)
      returns (r: Errors.AgentResult<Errors.Unit>)
      modifies Manager()
      ensures live.None? ==> r == Ok(Errors.Unit)
      ensures live.Some? ==>
        && (r.Ok? <==> Live.StopResult(old(live.value.session), live.value.client, env, send).Ok?)
        && (r.Err? ==> r.error == Live.StopResult(old(live.value.session), live.value.client, env, send).error)
        && live.value.session.None?
    {
      if live.Some? {
        var stopped := live.value.Stop(env, send);
        if stopped.Err? {
          return Err(stopped.error);
        }
      }
      r := Ok(Errors.Unit);
    }

    /** `live_status`. */
    function LiveStatus(): (r: Errors.AgentResult<Option<Live.LiveSessionInfo>>)
      reads this, Manager()
      ensures live.None? ==> r == Err(Errors.MissingConfig(NO_LIVE))
      ensures live.Some? ==> r.Ok? && (r.value.Some? <==> live.value.session.Some?)
    {
      if live.None? then Err(Errors.MissingConfig(NO_LIVE)) else Ok(live.value.Info())
    }

    /** `help_message`. */
    function HelpText(): string
      reads this
    {
      HelpMessage(CapabilitiesOverview(), live.Some?)
    }

    /** The intent a request is classified as. */
    function IntentOf(input: string, b: Backends): I.Intent
      reads this
    {
      I.Classify(classifier, input, b.ask, b.routerPost, b.parse).value
    }

    /** What `handle` answers in the current state. */
    function HandleResult(input: string, b: Backends): (r: Errors.AgentResult<ExecutionOutcome>)
      reads this, Agent()
    {
      var chat := if conversation.Some?
        then Some(Conversation.ChatReply(conversation.value.backend, conversation.value.history, input, b.chat, b.chatPost))
        else None;
      Respond(IntentOf(input, b), chat, image, music, video, HelpText(), input, b)
    }

    /** `handle`: the request is classified and routed; only a conversation
        turn changes the agent's history. */
    method Handle(input: string, b: Backends) returns (r: Errors.AgentResult<ExecutionOutcome>)
      requires Valid()
      modifies Agent()
      ensures Valid()
      ensures r == old(HandleResult(input, b))
      ensures conversation.Some? && r.Ok? && r.value.ConversationOutcome? ==>
        conversation.value.history == Conversation.Recent(old(conversation.value.history)
          + [Conversation.ConversationMessage(Conversation.User, input),
             Conversation.ConversationMessage(Conversation.Assistant, r.value.response)])
      ensures conversation.Some? && !(r.Ok? && r.value.ConversationOutcome?) ==>
        conversation.value.history == old(conversation.value.history)
      ensures conversation.Some? ==> conversation.value.history == HistoryAfter(old(conversation.value.history), input, r)
    {
      var intent := IntentOf(input, b);
      if intent == I.Conversation || intent == I.Unknown {
        if conversation.None? {
          return Err(Errors.MissingConfig(NO_CONVERSATION));
        }
        var reply := conversation.value.Chat(input, b.chat, b.chatPost);
        if reply.Err? {
          return Err(reply.error);
        }
        r := Ok(ConversationOutcome(reply.value));
      } else {
        if conversation.Some? {
          RespondIgnoresChat(intent, Some(Conversation.ChatReply(conversation.value.backend, conversation.value.history,
                                                                 input, b.chat, b.chatPost)),
                             image, music, video, HelpText(), input, b);
        }
        r := Respond(intent, None, image, music, video, HelpText(), input, b);
      }
    }

    /** `broadcast`: the envelope goes to the subscribers when there is a broadcaster. */
    method Broadcast(event: string, payload: Json)
      modifies this`broadcasts
      ensures broadcasts == old(broadcasts) + (if hasBroadcaster then [Sse.EncodeMessage(event, payload)] else [])
    {
      if hasBroadcaster {
        broadcasts := broadcasts + [Sse.EncodeMessage(event, payload)];
      }
    }

    /** `handle_live_event`: a danmaku with a non-blank message is handled as
        its trimmed text and the result (outcome or error) reported with the
        live context; every other event is ignored. It never fails. */
    method HandleLiveEvent(event: Live.LiveEvent, b: Backends) returns (r: Errors.AgentResult<Errors.Unit>)
      requires Valid()
      modifies this`broadcasts, Agent()
      ensures r.Ok? && Valid()
      ensures LiveDanmaku(event).None? ==>
        && broadcasts == old(broadcasts)
        && (conversation.Some? ==> conversation.value.history == old(conversation.value.history))
      ensures LiveDanmaku(event).Some? ==>
        var (sender, message) := LiveDanmaku(event).value;
        broadcasts == old(broadcasts)
          + (if hasBroadcaster then [LiveReport(sender, message, old(HandleResult(message, b)))] else [])
      ensures LiveDanmaku(event).Some? && conversation.Some? ==>
        var message := LiveDanmaku(event).value.1;
        conversation.value.history == HistoryAfter(old(conversation.value.history), message, old(HandleResult(message, b)))
    {
      var danmaku := LiveDanmaku(event);
      if danmaku.None? {
        return Ok(Errors.Unit);
      }
      var (sender, message) := danmaku.value;
      HandleDanmaku(sender, message, b);
      return Ok(Errors.Unit);
    }

    /** The handling of an accepted live message and its report. */
    method HandleDanmaku(sender: string, message: string, b: Backends)
      requires Valid()
      modifies this`broadcasts, Agent()
      ensures Valid()
      ensures broadcasts == old(broadcasts)
        + (if hasBroadcaster then [LiveReport(sender, message, old(HandleResult(message, b)))] else [])
      ensures conversation.Some? ==>
        conversation.value.history == HistoryAfter(old(conversation.value.history), message, old(HandleResult(message, b)))
    {
      var handled := Handle(message, b);
      ReportLive(sender, message, handled);
    }

    /** `broadcast_outcome` or `broadcast_error` for the handling of a live message. */
    method ReportLive(sender: string, message: string, handled: Errors.AgentResult<ExecutionOutcome>)
      modifies this`broadcasts
      ensures broadcasts == old(broadcasts) + (if hasBroadcaster then [LiveReport(sender, message, handled)] else [])
    {
      if handled.Ok? {
        var (name, payload) := AsEventPayload(handled.value);
        var withContext := AttachContext(payload, LIVE_ORIGIN, Some(LiveMetadata(sender, message)));
        Broadcast(name, withContext);
      } else {
        Broadcast(ERROR_EVENT, ErrorPayload(LIVE_ORIGIN, LIVE_FAILED + Errors.ErrorText(handled.error)));
      }
    }
  }

  /** `AgentController::new`: the plan's failures in order; on success the
      conversation agent is built from its plan, and a live manager with its
      event channel exists exactly when a live room is configured. */
  method NewController(openai: Option<OpenAiConfig>, hyperbolic: Option<HyperbolicConfig>, video: Option<VideoConfig>,
                       zhipu: Option<ZhipuConfig>, bilibiliLive: Option<BilibiliLiveConfig>, providers: CapabilityProviders,
                       hasBroadcaster: bool, writerError: Option<Errors.AgentError>,
                       routerHttpError: Option<string>, chatHttpError: Option<string>)
    returns (r: Errors.AgentResult<AgentController>)
    ensures var plan := PlanController(openai, hyperbolic, video, zhipu, providers, writerError, routerHttpError, chatHttpError);
      && (r.Err? <==> plan.Err?)
      && (r.Err? ==> r.error == plan.error)
      && (r.Ok? ==>
            && fresh(r.value) && r.value.Valid() && r.value.broadcasts == []
            && r.value.classifier == plan.value.classifier
            && r.value.image == plan.value.image && r.value.music == plan.value.music && r.value.video == plan.value.video
            && (r.value.conversation.Some? <==> plan.value.conversation.Some?)
            && (r.value.conversation.Some? ==> r.value.conversation.value.history == [])
            && (r.value.conversation.Some? ==>
                  r.value.conversation.value.backend == (if plan.value.conversation.value.OpenAiPlan? then Conversation.OpenAiBackend
                    else Conversation.ZhipuBackend(Zhipu.FromConfig(plan.value.conversation.value.config,
                      plan.value.conversation.value.modelOverride, None).value, plan.value.conversation.value.config.agentPreamble)))
            && (r.value.live.Some? <==> bilibiliLive.Some?)
            && (r.value.live.Some? ==>
                  && r.value.live.value.client == LiveClient.NewClient(bilibiliLive.value)
                  && r.value.live.value.hasEventTx && r.value.live.value.hasBroadcaster == hasBroadcaster)
            && r.value.ListensOnlyWhenLive()
            && (r.value.HasLiveListener() <==> bilibiliLive.Some?)
            && (r.value.live.Some? ==> r.value.live.value.session.None?)
            && r.value.hasBroadcaster == hasBroadcaster)
  {
    var plan := PlanController(openai, hyperbolic, video, zhipu, providers, writerError, routerHttpError, chatHttpError);
    if plan.Err? {
      return Err(plan.error);
    }
    var setup := plan.value;
    var agent: Option<Conversation.ConversationAgent> := None;
    if setup.conversation.Some? {
      if setup.conversation.value.OpenAiPlan? {
        var a := new Conversation.ConversationAgent.WithOpenAi();
        agent := Some(a);
      } else {
        var built := Conversation.WithZhipu(setup.conversation.value.config, setup.conversation.value.modelOverride, chatHttpError);
        assert built.Ok?;
        agent := Some(built.value);
      }
    }
    var manager: Option<Live.LiveManager> := None;
    if bilibiliLive.Some? {
      var m := new Live.LiveManager(bilibiliLive.value, true, hasBroadcaster);
      manager := Some(m);
    }
    var controller := new AgentController(setup.classifier, agent, setup.image, setup.music, setup.video, manager, hasBroadcaster);
    r := Ok(controller);
  }
}
