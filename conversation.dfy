/** The conversation capability of src/capabilities/conversation.rs: a chat
    agent that keeps the last 24 messages of its dialogue and answers through
    an OpenAI agent or a Zhipu model. The model calls are parameters. */
module Conversation {
  import opened Wrappers
  import Errors
  import opened Config
  import Zhipu

  /** MAX_HISTORY_MESSAGES. */
  const MAX_HISTORY := 24

  datatype ConversationRole = User | Assistant

  datatype ConversationMessage = ConversationMessage(role: ConversationRole, content: string)

  /** `to_openai`: the rig message with the same role and a single text. */
  function ToMessage(m: ConversationMessage): (r: Zhipu.Message)
    ensures r.User? <==> m.role == User
  {
    match m.role
    case User => Zhipu.UserMessage(m.content)
    case Assistant => Zhipu.AssistantMessage(m.content)
  }

  function ToMessages(h: seq<ConversationMessage>): (r: seq<Zhipu.Message>)
    ensures |r| == |h|
    ensures forall k :: 0 <= k < |h| ==> r[k] == ToMessage(h[k])
  {
    if h == [] then [] else [ToMessage(h[0])] + ToMessages(h[1..])
  }

  /** The history after `trim_history`: the most recent MAX_HISTORY messages. */
  function Recent(h: seq<ConversationMessage>): (r: seq<ConversationMessage>)
    ensures |r| == if |h| <= MAX_HISTORY then |h| else MAX_HISTORY
    ensures r == h[|h| - |r|..]
  {
    if |h| > MAX_HISTORY then h[|h| - MAX_HISTORY..] else h
  }

  /** A dialogue: user and assistant messages alternate, starting with the user. */
  predicate Alternating(h: seq<ConversationMessage>) {
    |h| % 2 == 0 && forall k :: 0 <= k < |h| ==> (h[k].role == User <==> k % 2 == 0)
  }

  /** Dropping an even number of messages from the front keeps a dialogue alternating. */
  lemma DropEvenAlternating(h: seq<ConversationMessage>, d: nat)
    requires Alternating(h) && d <= |h| && d % 2 == 0
    ensures Alternating(h[d..])
  {
    var r := h[d..];
    forall k | 0 <= k < |r|
      ensures r[k].role == User <==> k % 2 == 0
    {
      assert r[k] == h[d + k];
      assert (d + k) % 2 == k % 2;
    }
  }

  /** Trimming an alternating history keeps it alternating, since the limit is even. */
  lemma RecentAlternating(h: seq<ConversationMessage>)
    requires Alternating(h)
    ensures Alternating(Recent(h))
  {
    DropEvenAlternating(h, |h| - |Recent(h)|);
  }

  /** One exchange appended to an alternating history keeps it alternating. */
  lemma ExchangeAlternating(h: seq<ConversationMessage>, input: string, reply: string)
    requires Alternating(h)
    ensures Alternating(h + [ConversationMessage(User, input), ConversationMessage(Assistant, reply)])
  {
    var h2 := h + [ConversationMessage(User, input), ConversationMessage(Assistant, reply)];
    forall k | 0 <= k < |h2|
      ensures h2[k].role == User <==> k % 2 == 0
    {
      if k < |h| {
        assert h2[k] == h[k];
      }
    }
  }

  /** The backend: an OpenAI agent, or a Zhipu model with the configured preamble. */
  datatype ConversationBackend =
    | OpenAiBackend
    | ZhipuBackend(model: Zhipu.ZhipuCompletionModel, preamble: string)

  /** The OpenAI agent's `chat`: the reply to the input given the history, or the error text. */
  type OpenAiChat = (string, seq<Zhipu.Message>) -> Result<string, string>

  const ZHIPU_CALL_FAILED := "智谱AI调用失败: "

  /** The request the Zhipu backend sends: the preamble as a first user
      message when there is one, the history, the input, and the empty prompt
      the request builder appends. */
  function ZhipuRequest(preamble: string, history: seq<ConversationMessage>, input: string): (r: seq<Zhipu.Message>)
    ensures |r| == (if preamble == [] then 0 else 1) + |history| + 2
  {
    (if preamble == [] then [] else [Zhipu.UserMessage(preamble)])
      + ToMessages(history) + [Zhipu.UserMessage(input)] + [Zhipu.UserMessage("")]
  }

  /** The appended empty prompt reaches the provider as nothing. */
  lemma ZhipuRequestSent(preamble: string, history: seq<ConversationMessage>, input: string)
    ensures Zhipu.ConvertMessages(ZhipuRequest(preamble, history, input))
         == Zhipu.ConvertMessages((if preamble == [] then [] else [Zhipu.UserMessage(preamble)]) + ToMessages(history) + [Zhipu.UserMessage(input)])
  {
    Zhipu.EmptyPromptDropped((if preamble == [] then [] else [Zhipu.UserMessage(preamble)]) + ToMessages(history) + [Zhipu.UserMessage(input)]);
  }

  /** A non-empty input is always sent: the request is never refused as empty. */
  lemma InputIsSent(preamble: string, history: seq<ConversationMessage>, input: string)
    requires input != []
    ensures Zhipu.ConvertMessages(ZhipuRequest(preamble, history, input)) != []
  {
    var front := (if preamble == [] then [] else [Zhipu.UserMessage(preamble)]) + ToMessages(history);
    ZhipuRequestSent(preamble, history, input);
    Zhipu.ConvertMessagesAppend(front, [Zhipu.UserMessage(input)]);
    Zhipu.SingleTextKept(input);
  }

  /** The reply of one `chat` turn for the history before it: the OpenAI
      agent's answer (its failure is a prompt error), or the text of the Zhipu
      completion (its failure is reported as unsupported, with the error's text). */
  function ChatReply(backend: ConversationBackend, history: seq<ConversationMessage>, input: string,
                     openAiChat: OpenAiChat, post: Zhipu.Post<Result<Zhipu.ZhipuChatResponse, string>>): (r: Errors.AgentResult<string>)
    ensures backend.OpenAiBackend? ==>
      var reply := openAiChat(input, ToMessages(history));
      && (reply.Ok? ==> r == Ok(reply.value))
      && (reply.Err? ==> r == Err(Errors.Prompt(reply.error)))
    ensures backend.ZhipuBackend? ==>
      var reply := Zhipu.Completion(backend.model, ZhipuRequest(backend.preamble, history, input), post);
      && (reply.Ok? ==> r == Ok(Zhipu.ChoiceJoined(reply.value)))
      && (reply.Err? ==> r == Err(Errors.Unsupported(ZHIPU_CALL_FAILED + Zhipu.ErrorText(reply.error))))
  {
    match backend
    case OpenAiBackend =>
      (match openAiChat(input, ToMessages(history))
       case Ok(text) => Ok(text)
       case Err(e) => Err(Errors.Prompt(e)))
    case ZhipuBackend(model, preamble) =>
      match Zhipu.Completion(model, ZhipuRequest(preamble, history, input), post)
      case Ok(response) => Ok(Zhipu.ChoiceJoined(response))
      case Err(e) => Err(Errors.Unsupported(ZHIPU_CALL_FAILED + Zhipu.ErrorText(e)))
  }

  /** With a non-empty input, the Zhipu backend fails only as the provider did:
      its error text is never the "no valid messages" refusal. */
  lemma ZhipuNeverRefusesInput(model: Zhipu.ZhipuCompletionModel, preamble: string, history: seq<ConversationMessage>,
                               input: string, openAiChat: OpenAiChat, post: Zhipu.Post<Result<Zhipu.ZhipuChatResponse, string>>)
    requires input != []
    ensures var reply := Zhipu.Completion(model, ZhipuRequest(preamble, history, input), post);
      reply.Err? ==> reply.error.ProviderError?
  {
    InputIsSent(preamble, history, input);
  }

  class ConversationAgent {
    const backend: ConversationBackend
    var history: seq<ConversationMessage>

    /** The history is a dialogue within the limit. */
    predicate Valid()
      reads this
    {
      |history| <= MAX_HISTORY && Alternating(history)
    }

    /** `with_openai`: an empty history. */
    constructor WithOpenAi()
      ensures backend == OpenAiBackend && history == [] && Valid()
    {
      backend := OpenAiBackend;
      history := [];
    }

    /** The agent `with_zhipu` builds once the model exists: the configured preamble, an empty history. */
    constructor WithZhipuModel(model: Zhipu.ZhipuCompletionModel, config: ZhipuConfig)
      ensures backend == ZhipuBackend(model, config.agentPreamble) && history == [] && Valid()
    {
      backend := ZhipuBackend(model, config.agentPreamble);
      history := [];
    }

    /** `trim_history`: drops the oldest messages beyond the limit. */
    method TrimHistory()
      modifies this
      ensures history == Recent(old(history))
    {
      if |history| > MAX_HISTORY {
        var overflow := |history| - MAX_HISTORY;
        history := history[overflow..];
      }
    }

    /** `chat`: on success the exchange is recorded and the history trimmed;
        on failure the history is left as it was. */
    method Chat(input: string, openAiChat: OpenAiChat, post: Zhipu.Post<Result<Zhipu.ZhipuChatResponse, string>>)
      returns (r: Errors.AgentResult<string>)
      requires Valid()
      modifies this
      ensures Valid()
      ensures r == ChatReply(backend, old(history), input, openAiChat, post)
      ensures r.Err? ==> history == old(history)
      ensures r.Ok? ==> history == Recent(old(history) + [ConversationMessage(User, input), ConversationMessage(Assistant, r.value)])
    {
      var snapshot := history;
      r := ChatReply(backend, snapshot, input, openAiChat, post);
      if r.Err? {
        return;
      }
      var exchange := snapshot + [ConversationMessage(User, input), ConversationMessage(Assistant, r.value)];
      ExchangeAlternating(snapshot, input, r.value);
      RecentAlternating(exchange);
      history := exchange;
      TrimHistory();
    }
  }

  /** `with_zhipu`: builds the model from the configuration (the override
      model winning over the configured one); failing to build it is a
      completion error. */
  method WithZhipu(config: ZhipuConfig, modelOverride: Option<string>, httpClientError: Option<string>)
    returns (r: Errors.AgentResult<ConversationAgent>)
    ensures r.Err? <==> httpClientError.Some?
    ensures r.Err? ==> r.error == Errors.Completion(Zhipu.ErrorText(Zhipu.ProviderError(httpClientError.value)))
    ensures r.Ok? ==> (fresh(r.value) && r.value.history == [] && r.value.Valid()
      && r.value.backend == ZhipuBackend(Zhipu.FromConfig(config, modelOverride, None).value, config.agentPreamble))
  {
    var built := Zhipu.FromConfig(config, modelOverride, httpClientError);
    if built.Err? {
      r := Err(Errors.Completion(Zhipu.ErrorText(built.error)));
    } else {
      var agent := new ConversationAgent.WithZhipuModel(built.value, config);
      r := Ok(agent);
    }
  }
}
