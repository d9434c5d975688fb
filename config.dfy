/** Configuration defaulting of src/config.rs: the file sections as read from
    TOML (every field optional) and their `into_domain` conversions, which
    require the key fields, fill in defaults and clamp intervals; and the
    capability routes with their fallbacks. Reading the file and the
    environment is outside the model. */
module Config {
  import opened Wrappers
  import opened Text

  const DEFAULT_PREAMBLE := "You are Vutber, a multi-modal creative AI who can chat, narrate, sing, paint and storyboard videos."
  const DEFAULT_ZHIPU_API_URL := "https://open.bigmodel.cn/api/paas/v4/chat/completions"
  /** `rig::providers::openai::DALL_E_3`. */
  const DALL_E_3 := "dall-e-3"
  const DEFAULT_BILIBILI_HEARTBEAT_SECONDS: nat := 20
  const MIN_BILIBILI_HEARTBEAT_SECONDS: nat := 5
  const DEFAULT_BIND_ADDR := "127.0.0.1:9000"
  const DEFAULT_SIGNATURE_TTL_SECONDS: nat := 300
  const MIN_SIGNATURE_TTL_SECONDS: nat := 30

  /** `u64::max`. */
  function Max(a: nat, b: nat): nat {
    if a >= b then a else b
  }

  datatype OpenAiConfig = OpenAiConfig(apiKey: string, baseUrl: Option<string>, chatModel: string, agentPreamble: string, imageModel: string)
  datatype HyperbolicConfig = HyperbolicConfig(apiKey: string, language: string, voice: string)
  datatype VideoConfig = VideoConfig(endpoint: string, apiKey: Option<string>, format: string, maxDurationSeconds: Option<nat>)
  datatype ZhipuConfig = ZhipuConfig(apiKey: string, chatModel: string, agentPreamble: string, apiUrl: string)
  datatype BilibiliLiveConfig = BilibiliLiveConfig(
    accessKey: string, accessSecret: string, appId: int,
    idCode: Option<string>, host: Option<string>, heartbeatIntervalSeconds: nat)

  /** A parsed `SocketAddr`; the parser itself is a parameter. */
  datatype SocketAddr = SocketAddr(text: string)
  datatype SseConfig = SseConfig(accessKey: string, secretKey: string, bindAddr: SocketAddr, signatureTtlSeconds: nat)

  /** Why the `[sse]` section is rejected. */
  datatype SseConfigError = MissingAccessKey | MissingSecretKey | BadBindAddr(text: string)

  datatype FileOpenAiConfig = FileOpenAiConfig(
    apiKey: Option<string>, baseUrl: Option<string>, chatModel: Option<string>,
    agentPreamble: Option<string>, imageModel: Option<string>)
  {
    /** No section without an API key; the models and preamble have defaults. */
    function IntoDomain(): (r: Option<OpenAiConfig>)
      ensures r.Some? <==> apiKey.Some?
      ensures r.Some? ==> r.value.apiKey == apiKey.value && r.value.baseUrl == baseUrl
      ensures r.Some? ==> r.value.chatModel == (if chatModel.Some? then chatModel.value else "gpt-4o-mini")
      ensures r.Some? ==> r.value.agentPreamble == (if agentPreamble.Some? then agentPreamble.value else DEFAULT_PREAMBLE)
      ensures r.Some? ==> r.value.imageModel == (if imageModel.Some? then imageModel.value else DALL_E_3)
    {
      var key :- apiKey;
      Some(OpenAiConfig(key, baseUrl, chatModel.GetOr("gpt-4o-mini"), agentPreamble.GetOr(DEFAULT_PREAMBLE), imageModel.GetOr(DALL_E_3)))
    }
  }

  datatype FileHyperbolicConfig = FileHyperbolicConfig(apiKey: Option<string>, language: Option<string>, voice: Option<string>)
  {
    function IntoDomain(): (r: Option<HyperbolicConfig>)
      ensures r.Some? <==> apiKey.Some?
      ensures r.Some? ==> r.value.apiKey == apiKey.value
      ensures r.Some? ==> r.value.language == (if language.Some? then language.value else "EN")
      ensures r.Some? ==> r.value.voice == (if voice.Some? then voice.value else "EN-US")
    {
      var key :- apiKey;
      Some(HyperbolicConfig(key, language.GetOr("EN"), voice.GetOr("EN-US")))
    }
  }

  datatype FileVideoConfig = FileVideoConfig(endpoint: Option<string>, apiKey: Option<string>, format: Option<string>, maxDurationSeconds: Option<nat>)
  {
    /** No section without an endpoint; the format defaults to mp4. */
    function IntoDomain(): (r: Option<VideoConfig>)
      ensures r.Some? <==> endpoint.Some?
      ensures r.Some? ==> r.value.endpoint == endpoint.value && r.value.apiKey == apiKey
      ensures r.Some? ==> r.value.format == (if format.Some? then format.value else "mp4")
      ensures r.Some? ==> r.value.maxDurationSeconds == maxDurationSeconds
    {
      var e :- endpoint;
      Some(VideoConfig(e, apiKey, format.GetOr("mp4"), maxDurationSeconds))
    }
  }

  datatype FileZhipuConfig = FileZhipuConfig(apiKey: Option<string>, chatModel: Option<string>, agentPreamble: Option<string>, apiUrl: Option<string>)
  {
    function IntoDomain(): (r: Option<ZhipuConfig>)
      ensures r.Some? <==> apiKey.Some?
      ensures r.Some? ==> r.value.apiKey == apiKey.value
      ensures r.Some? ==> r.value.chatModel == (if chatModel.Some? then chatModel.value else "glm-4-flash")
      ensures r.Some? ==> r.value.agentPreamble == (if agentPreamble.Some? then agentPreamble.value else DEFAULT_PREAMBLE)
      ensures r.Some? ==> r.value.apiUrl == (if apiUrl.Some? then apiUrl.value else DEFAULT_ZHIPU_API_URL)
    {
      var key :- apiKey;
      Some(ZhipuConfig(key, chatModel.GetOr("glm-4-flash"), agentPreamble.GetOr(DEFAULT_PREAMBLE), apiUrl.GetOr(DEFAULT_ZHIPU_API_URL)))
    }
  }

  datatype FileBilibiliLiveConfig = FileBilibiliLiveConfig(
    accessKey: Option<string>, accessSecret: Option<string>, appId: Option<int>,
    idCode: Option<string>, host: Option<string>, heartbeatIntervalSeconds: Option<nat>)
  {
    /** No section without key, secret and app id; the heartbeat interval
        defaults to 20 seconds and is never below 5. */
    function IntoDomain(): (r: Option<BilibiliLiveConfig>)
      ensures r.Some? <==> accessKey.Some? && accessSecret.Some? && appId.Some?
      ensures r.Some? ==> r.value.accessKey == accessKey.value && r.value.accessSecret == accessSecret.value
      ensures r.Some? ==> r.value.appId == appId.value && r.value.idCode == idCode && r.value.host == host
      ensures r.Some? ==> r.value.heartbeatIntervalSeconds >= MIN_BILIBILI_HEARTBEAT_SECONDS
      ensures r.Some? && heartbeatIntervalSeconds.None? ==> r.value.heartbeatIntervalSeconds == DEFAULT_BILIBILI_HEARTBEAT_SECONDS
      ensures r.Some? && heartbeatIntervalSeconds.Some? ==>
        r.value.heartbeatIntervalSeconds == if heartbeatIntervalSeconds.value < MIN_BILIBILI_HEARTBEAT_SECONDS
                                            then MIN_BILIBILI_HEARTBEAT_SECONDS else heartbeatIntervalSeconds.value
    {
      var key :- accessKey;
      var secret :- accessSecret;
      var app :- appId;
      var heartbeat := Max(heartbeatIntervalSeconds.GetOr(DEFAULT_BILIBILI_HEARTBEAT_SECONDS), MIN_BILIBILI_HEARTBEAT_SECONDS);
      Some(BilibiliLiveConfig(key, secret, app, idCode, host, heartbeat))
    }
  }

  datatype FileSseConfig = FileSseConfig(accessKey: Option<string>, secretKey: Option<string>, bindAddr: Option<string>, signatureTtlSeconds: Option<nat>)
  {
    /** Key and secret are required (checked in that order); the bind address
        defaults and must parse; the signature lifetime defaults to 300 s and is
        never below 30 s. */
    function IntoDomain(parseAddr: string -> Option<SocketAddr>): (r: Result<SseConfig, SseConfigError>)
      ensures accessKey.None? ==> r == Err(MissingAccessKey)
      ensures accessKey.Some? && secretKey.None? ==> r == Err(MissingSecretKey)
      ensures accessKey.Some? && secretKey.Some? ==>
        var text := if bindAddr.Some? then bindAddr.value else DEFAULT_BIND_ADDR;
        match parseAddr(text)
        case None => r == Err(BadBindAddr(text))
        case Some(addr) => r.Ok? && r.value.bindAddr == addr
      ensures r.Ok? ==> r.value.accessKey == accessKey.value && r.value.secretKey == secretKey.value
      ensures r.Ok? ==> r.value.signatureTtlSeconds >= MIN_SIGNATURE_TTL_SECONDS
      ensures r.Ok? && signatureTtlSeconds.None? ==> r.value.signatureTtlSeconds == DEFAULT_SIGNATURE_TTL_SECONDS
      ensures r.Ok? && signatureTtlSeconds.Some? ==>
        r.value.signatureTtlSeconds == if signatureTtlSeconds.value < MIN_SIGNATURE_TTL_SECONDS
                                       then MIN_SIGNATURE_TTL_SECONDS else signatureTtlSeconds.value
    {
      var key :- OkOr(accessKey, MissingAccessKey);
      var secret :- OkOr(secretKey, MissingSecretKey);
      var text := bindAddr.GetOr(DEFAULT_BIND_ADDR);
      var addr :- OkOr(parseAddr(text), BadBindAddr(text));
      var ttl := Max(signatureTtlSeconds.GetOr(DEFAULT_SIGNATURE_TTL_SECONDS), MIN_SIGNATURE_TTL_SECONDS);
      Ok(SseConfig(key, secret, addr, ttl))
    }
  }

  /** A capability's provider and optional model. */
  datatype CapabilityRoute = CapabilityRoute(provider: string, model: Option<string>)

  /** `CapabilityRoute::new`. */
  function NewRoute(provider: string, model: Option<string>): (r: CapabilityRoute)
    ensures r.provider == TrimLower(provider) && r.model == model
  {
    CapabilityRoute(TrimLower(provider), model)
  }

  datatype FileCapabilityRoute = FileCapabilityRoute(provider: Option<string>, model: Option<string>)
  {
    /** A route without a provider is no route. */
    function IntoDomain(): (r: Option<CapabilityRoute>)
      ensures r.Some? <==> provider.Some?
      ensures r.Some? ==> r.value == NewRoute(provider.value, model)
    {
      var p :- provider;
      Some(NewRoute(p, model))
    }
  }

  datatype FileCapabilityProviders = FileCapabilityProviders(
    intent: Option<FileCapabilityRoute>, conversation: Option<FileCapabilityRoute>,
    image: Option<FileCapabilityRoute>, music: Option<FileCapabilityRoute>, video: Option<FileCapabilityRoute>)

  datatype CapabilityProviders = CapabilityProviders(
    intent: Option<CapabilityRoute>, conversation: Option<CapabilityRoute>,
    image: Option<CapabilityRoute>, music: Option<CapabilityRoute>, video: Option<CapabilityRoute>)

  /** The route of the file section, when it names a provider. */
  function FileRoute(f: Option<FileCapabilityRoute>): Option<CapabilityRoute> {
    if f.Some? then f.value.IntoDomain() else None
  }

  /** `default_intent` and `default_conversation`: openai's chat model, else zhipu's. */
  function DefaultChatRoute(openai: Option<OpenAiConfig>, zhipu: Option<ZhipuConfig>): (r: Option<CapabilityRoute>)
    ensures r.Some? <==> openai.Some? || zhipu.Some?
    ensures openai.Some? ==> r == Some(CapabilityRoute("openai", Some(openai.value.chatModel)))
    ensures openai.None? && zhipu.Some? ==> r == Some(CapabilityRoute("zhipu", Some(zhipu.value.chatModel)))
  {
    NormalizeFixed("openai");
    NormalizeFixed("zhipu");
    if openai.Some? then Some(NewRoute("openai", Some(openai.value.chatModel)))
    else if zhipu.Some? then Some(NewRoute("zhipu", Some(zhipu.value.chatModel)))
    else None
  }

  /** `default_image`: only openai draws, with its image model. */
  function DefaultImageRoute(openai: Option<OpenAiConfig>): (r: Option<CapabilityRoute>)
    ensures r.Some? <==> openai.Some?
    ensures r.Some? ==> r.value == CapabilityRoute("openai", Some(openai.value.imageModel))
  {
    NormalizeFixed("openai");
    if openai.Some? then Some(NewRoute("openai", Some(openai.value.imageModel))) else None
  }

  /** `default_music`: only hyperbolic, with its language as the model. */
  function DefaultMusicRoute(hyperbolic: Option<HyperbolicConfig>): (r: Option<CapabilityRoute>)
    ensures r.Some? <==> hyperbolic.Some?
    ensures r.Some? ==> r.value == CapabilityRoute("hyperbolic", Some(hyperbolic.value.language))
  {
    NormalizeFixed("hyperbolic");
    if hyperbolic.Some? then Some(NewRoute("hyperbolic", Some(hyperbolic.value.language))) else None
  }

  /** `default_video`: the custom endpoint, with its format as the model. */
  function DefaultVideoRoute(video: Option<VideoConfig>): (r: Option<CapabilityRoute>)
    ensures r.Some? <==> video.Some?
    ensures r.Some? ==> r.value == CapabilityRoute("custom", Some(video.value.format))
  {
    NormalizeFixed("custom");
    if video.Some? then Some(NewRoute("custom", Some(video.value.format))) else None
  }

  /** The built-in provider names are already in normal form. */
  lemma NormalizeFixed(p: string)
    requires p in {"openai", "zhipu", "hyperbolic", "custom"}
    ensures TrimLower(p) == p
  {
    TrimLowerFixed(p);
  }

  /** A route from the file section, or else the default. */
  function Either(f: Option<FileCapabilityRoute>, default: Option<CapabilityRoute>): Option<CapabilityRoute> {
    var fr := FileRoute(f);
    if fr.Some? then fr else default
  }

  /** An explicit route with a provider wins; a missing or provider-less one
      leaves the default in place. */
  lemma FileRouteOrDefault(f: Option<FileCapabilityRoute>, default: Option<CapabilityRoute>)
    ensures f.Some? && f.value.provider.Some? ==> Either(f, default) == Some(NewRoute(f.value.provider.value, f.value.model))
    ensures (f.None? || f.value.provider.None?) ==> Either(f, default) == default
  {
  }

  /** `r` is the file's route when it names a provider, and the default otherwise. */
  predicate Chosen(f: Option<FileCapabilityRoute>, default: Option<CapabilityRoute>, r: Option<CapabilityRoute>) {
    if f.Some? && f.value.provider.Some? then r == Some(NewRoute(f.value.provider.value, f.value.model))
    else r == default
  }

  /** `CapabilityProviders::from_file`: each capability takes the file's
      route when it names a provider, else its default (openai before zhipu
      for intent and conversation). */
  function FromFile(file: Option<FileCapabilityProviders>, openai: Option<OpenAiConfig>, zhipu: Option<ZhipuConfig>,
                    hyperbolic: Option<HyperbolicConfig>, video: Option<VideoConfig>): (r: CapabilityProviders)
    ensures var f := file.GetOr(FileCapabilityProviders(None, None, None, None, None));
      && Chosen(f.intent, DefaultChatRoute(openai, zhipu), r.intent)
      && Chosen(f.conversation, DefaultChatRoute(openai, zhipu), r.conversation)
      && Chosen(f.image, DefaultImageRoute(openai), r.image)
      && Chosen(f.music, DefaultMusicRoute(hyperbolic), r.music)
      && Chosen(f.video, DefaultVideoRoute(video), r.video)
  {
    var f := file.GetOr(FileCapabilityProviders(None, None, None, None, None));
    FileRouteOrDefault(f.intent, DefaultChatRoute(openai, zhipu));
    FileRouteOrDefault(f.conversation, DefaultChatRoute(openai, zhipu));
    FileRouteOrDefault(f.image, DefaultImageRoute(openai));
    FileRouteOrDefault(f.music, DefaultMusicRoute(hyperbolic));
    FileRouteOrDefault(f.video, DefaultVideoRoute(video));
    CapabilityProviders(
      Either(f.intent, DefaultChatRoute(openai, zhipu)),
      Either(f.conversation, DefaultChatRoute(openai, zhipu)),
      Either(f.image, DefaultImageRoute(openai)),
      Either(f.music, DefaultMusicRoute(hyperbolic)),
      Either(f.video, DefaultVideoRoute(video)))
  }

  /** Without a providers section every capability takes its default: openai
      before zhipu for intent and conversation, and only openai, hyperbolic and
      the video endpoint for image, music and video. */
  lemma DefaultsWithoutFile(openai: Option<OpenAiConfig>, zhipu: Option<ZhipuConfig>,
                            hyperbolic: Option<HyperbolicConfig>, video: Option<VideoConfig>)
    ensures var p := FromFile(None, openai, zhipu, hyperbolic, video);
      && (openai.Some? ==>
            p.intent == Some(CapabilityRoute("openai", Some(openai.value.chatModel))) && p.conversation == p.intent)
      && (openai.None? && zhipu.Some? ==>
            p.intent == Some(CapabilityRoute("zhipu", Some(zhipu.value.chatModel))) && p.conversation == p.intent)
      && (openai.None? && zhipu.None? ==> p.intent.None? && p.conversation.None?)
      && (p.image.Some? <==> openai.Some?)
      && (p.music.Some? <==> hyperbolic.Some?)
      && (p.video.Some? <==> video.Some?)
  {
    var none := FileCapabilityProviders(None, None, None, None, None);
    FileRouteOrDefault(none.intent, DefaultChatRoute(openai, zhipu));
    FileRouteOrDefault(none.conversation, DefaultChatRoute(openai, zhipu));
    FileRouteOrDefault(none.image, DefaultImageRoute(openai));
    FileRouteOrDefault(none.music, DefaultMusicRoute(hyperbolic));
    FileRouteOrDefault(none.video, DefaultVideoRoute(video));
  }
}
