# VtuberAgent core, modelled in Dafny

VtuberAgent is an agent server for virtual streamers. It reads the
danmaku (bullet comments) of a Bilibili live room through the Bilibili open
platform. It decides what each request asks for: chat, an image, music, a
video or help. It answers through language-model and generation providers,
and it reports results to WebSocket and SSE clients.

This project models the core of that server and proves properties of the model:

- `packet.dfy` models the live-room frame codec. It covers the 16-byte big-endian header, the frame-by-frame decoder and the flattening of zlib-compressed batches. Proofs cover the round trip, concatenation, the stop conditions and the absence of version-2 frames in the output.
- `live.dfy` models the live session manager (`LiveManager`). It also covers the WebSocket URL suffix, the splitting of event bodies, the dispatch of decoded frames and the decisions of the connection loop.
- `live_client.dfy` models the signed REST client of the open platform.
- `config.dfy` models configuration defaulting, clamping and capability routes.
- `intent.dfy` models the intent router: alias tables, fenced JSON answers and the keyword fallback.
- `models.dfy` holds the protocol messages and the danmaku intent labels.
- `conversation.dfy` models the conversation agent and its bounded history of 24 messages.
- `auth.dfy` models authentication of WebSocket clients by API key and by signature.
- `sse.dfy` models the SSE side channel: its signature check, its event envelope and its command endpoint.
- `services.dfy` models the client registry, with its move from unauthenticated to authenticated and its broadcast.
- `zhipu.dfy` models the Zhipu provider's message shaping, reply reading and stream chunk handling.
- `orchestrator.dfy` models the agent controller: provider selection, request routing, live danmaku handling and event reports.
- `agents.dfy` and `tools.dfy` model the small reply and prompt parsers.
- `wrappers.dfy`, `bytes.dfy`, `text.dfy` and `json.dfy` are shared support modules. They hold Option/Result and the error enum, fixed-width integers with UTF-8 and hex, the Rust `str` operations the code uses, and the part of a JSON value the code inspects.

Some code is imperative. `LiveManager`, `ConversationAgent`, `WebSocketManager` and `AgentController` hold state that the source updates in place. Each is a class whose methods are proved against specification functions. Operations that loop or run steps one after another outside these classes are methods proved against specification functions:
- the packet decoder's loop (`DecodePackets`, `DecodeFrame`, `DecodeCompressed`) and `EncodePacket`;
- the signing-string builder's sort (`SortByKey`, `CreateSignatureData`);
- the live event handling (`NormalizeWsUrl`, `ParseEvents`, `DispatchEvents`, `HandlePackets`, `HandleWake`, `RunLiveLoop`) and its JSON field walk (`Walk`, `FieldStr`, `FieldI64`, `FieldBool`);
- `AttachContext` and `NewController` in the orchestrator, and `WithZhipu`, which builds a conversation agent.

Everything else is functions and lemmas.

The string signed for the open-platform REST calls is made of the `x-bili-*` header fields. `LiveManager::start` refuses only a missing identity code; an empty one is passed on to the platform.

## Model

| member | source | states |
|---|---|---|
| Models.AsStr | src/models/mod.rs:94-101 | every intent has a non-empty Chinese label; the label reads back as that intent (Models.FromStrAsStr) and no other intent shares it (Models.LabelsDistinct) |
| Models.FromStr | src/models/mod.rs:103-110 | a string reads as Conversation, SingingRequest or DrawingRequest exactly when it equals that label; every other string is OtherCommand |
| Models.FromStrAsStr | src/models/mod.rs:94-110 | reading back the label of any of the four intents gives that intent |
| Models.LabelsDistinct | src/models/mod.rs:94-101 | two intents with the same label are the same intent |
| Models.FromStrExact | src/models/mod.rs:103-109 | for the three named intents, a string reads as the intent if and only if it is that intent's label |
| Models.PaddedLabelIsOther | src/models/mod.rs:103-109 | matching does not trim: a label preceded by a space reads as OtherCommand |
| Errors.ErrorText | src/errors.rs:5-36 | the display text of an error ends with the detail the error carries, after a non-empty heading |
| Errors.ErrorHeading | src/errors.rs:7-35 | every kind of error has a non-empty heading |
| Errors.HeadingsDistinguishKinds | src/errors.rs:7-35 | two errors with the same display text have the same heading and the same detail |
| Bytes.HexDecode | src/sse.rs:52-55 | a successful hexadecimal decoding uses exactly two characters per byte |
| Bytes.HexLower | src/live/mod.rs:971-976 | the lowercase hexadecimal text of a byte string is two characters per byte |
| Bytes.HexLowerDigits | src/live/mod.rs:971-976 | lowercase hexadecimal uses only `0`-`9` and `a`-`f` |
| Bytes.HexRoundTrip | src/sse.rs:52-55 | decoding the lowercase hexadecimal text of any bytes gives those bytes back |
| Bytes.OddLengthIsNotHex | src/sse.rs:52-55 | a text of odd length is never valid hexadecimal |
| Packet.EncodePacket | src/live/packet.rs:24-37 | the buffer holds the length field (the low 32 bits of 16 plus the body length), 16, version 1, the operation, sequence 1 and the body, and is 16 bytes longer than the body |
| Packet.EncodedLayout | src/live/packet.rs:24-37 | bytes 0-3 of an encoded frame read back as its length, 4-5 as 16, 6-7 as 1, 8-11 as the operation, 12-15 as 1, and the rest is the body |
| Packet.FrameFields | src/live/packet.rs:29-34 | every header field of a frame reads back big-endian from its offset, and the body and any following bytes sit right after the 16-byte header |
| Packet.Decode | src/live/packet.rs:39-101 | no packet yielded is still a compressed frame: every packet handed on can be emitted |
| Packet.DecodePackets | src/live/packet.rs:39-101 | the loop over `offset` returns exactly the decoding of the whole buffer, error or packets |
| Packet.DecodeFrame | src/live/packet.rs:43-97 | one pass of the loop: it stops only where decoding from `offset` yields nothing more, fails only with decoding's own error, and otherwise advances `offset` by at least one byte with the frame's packets in front of the rest |
| Packet.DecodeCompressed | src/live/packet.rs:79-85 | a compressed body gives the decoding of its inflated bytes one level deeper, or the inflate failure |
| Packet.StopStep | src/live/packet.rs:43-52 | decoding stops with Ok and emits nothing more at a tail shorter than 16 bytes, a zero length, or a length running past the buffer |
| Packet.PanicStep | src/live/packet.rs:75-77 | a header length greater than the frame length is the slicing failure |
| Packet.PlainFrameStep | src/live/packet.rs:75-97 | a complete frame of any version but 2 emits one packet with its header fields and the bytes from `offset + header_len` to `offset + packet_len`, then decoding continues after the frame |
| Packet.CompressedFrameStep | src/live/packet.rs:79-97 | a complete version-2 frame is replaced by the packets of its inflated body, ahead of the rest; an inflate failure or an inner error fails the whole decoding |
| Packet.DecodeShift | src/live/packet.rs:39-101 | decoding does not depend on bytes before the offset it starts from |
| Packet.DecodeSuffix | src/live/packet.rs:39-101 | two buffers that agree from their offsets on decode alike from those offsets |
| Packet.DecodeEncodedThen | src/live/packet.rs:24-101 | an encoded frame followed by any bytes decodes to the frame's packet in front of the decoding of those bytes |
| Packet.RoundTrip | src/live/packet.rs:24-101 | when 16 plus the body length fits in 32 bits, an encoded frame decodes to exactly one packet: its operation and body, version 1, sequence 1, header length 16 and length 16 plus the body length |
| Packet.TrailingBytesIgnored | src/live/packet.rs:43-52 | bytes after a frame that are too short, declare a zero length or run past the end are ignored |
| Packet.DecodeEncodeAll | src/live/packet.rs:39-101 | frames written back to back decode to their packets, in order |
| Packet.DecodePair | src/live/packet.rs:39-101 | two frames in a row decode to the first packet followed by the second |
| Packet.DecodeCompressedThen | src/live/packet.rs:79-95 | a compressed frame followed by any bytes decodes to the packets of its inflated body in front of the decoding of those bytes, or to the inflate or inner failure |
| Packet.DecodeCompressedBatch | src/live/packet.rs:79-95 | a compressed frame whose body inflates to encoded frames decodes to those frames' packets, flattened |
| Packet.HeaderPastPacketPanics | src/live/packet.rs:75-77 | a frame declaring a header longer than itself fails decoding with the slicing failure |
| Packet.DecodedPacketsEmittable | src/live/packet.rs:79-95 | no packet decoding emits has version 2; each has a non-zero length covering its header and a body of exactly the remaining bytes |
| Packet.MoreDepthSameResult | src/live/packet.rs:84 | a larger nesting allowance changes nothing unless the smaller one ran out |
| LiveClient.NewClient | src/live/mod.rs:871-885 | the client keeps its configuration; its base URL is the configured host, or `https://live-open.biliapi.com` when there is none |
| LiveClient.SignedStringLines | src/live/mod.rs:963-966 | the signed string is the six `x-bili-*` fields (access key, content MD5, `HMAC-SHA256`, nonce, `1.0`, timestamp) in that order, one per line: splitting it on newlines gives them back when the key, digest and nonce hold no newline |
| LiveClient.BuildHeaders | src/live/mod.rs:951-1008 | the headers are accept, content type, the lowercase hex MD5 of the body, the timestamp, the method, the nonce, the version, the access key and the lowercase hex HMAC-SHA256 of the signed string under the secret, in that order; building fails, with the header-value error, exactly when the nonce or the access key is not a valid header value |
| LiveClient.SignedHeadersValid | src/live/mod.rs:978-1005 | the digests and the decimal timestamp always pass as header values, so valid nonce and key make every header valid |
| LiveClient.HeaderValue | src/live/mod.rs:980-1004 | a header value is accepted unchanged exactly when it holds no control character other than tab |
| LiveClient.SignatureFromHeaders | src/live/mod.rs:956-1005 | the authorization header is the MAC of the signed string rebuilt from the access-key, MD5 and nonce headers and the timestamp header's value |
| LiveClient.StartRequestJson | src/live/mod.rs:847-850 | the start body is an object with exactly `code` and `app_id`, holding the identity code and the application id |
| LiveClient.HeartbeatRequestJson | src/live/mod.rs:853-855 | the heartbeat body is an object with exactly `game_id`, holding the session id |
| LiveClient.EndRequestJson | src/live/mod.rs:858-861 | the end body is an object with exactly `app_id` and `game_id`, holding the application id and the session id |
| LiveClient.Post | src/live/mod.rs:927-949 | a header failure returns before any request; otherwise the request goes to the base URL followed by the path, with the built headers and the body |
| LiveClient.Start | src/live/mod.rs:887-902 | start succeeds exactly when the exchange succeeds with code 0, and then returns the reply's data; a non-zero code is an error quoting the code and message |
| LiveClient.Heartbeat | src/live/mod.rs:904-913 | heartbeat fails only when the exchange fails |
| LiveClient.End | src/live/mod.rs:915-925 | end fails only when the exchange fails |
| LiveClient.ReplyCodeIgnored | src/live/mod.rs:909-912 | whatever code a heartbeat or end reply carries, the call returns Ok |
| LiveClient.StartCodeDecides | src/live/mod.rs:894-901 | a start reply is accepted if and only if its code is zero |
| Live.SessionInfoOf | src/live/mod.rs:169-179 | the session info keeps the game id, the anchor's open id and the clock reading; the room id defaults to 0 and the anchor name to "Unknown" |
| Live.StartStep | src/live/mod.rs:60-94 | a held session makes start fail with the already-connected error and stay held; a missing `id_code` is MissingConfig; start succeeds exactly when no session was held and one is held afterwards, which happens only when the REST start succeeded with a non-empty `wss_link`, and then the session uses the first link and the auth body and start returns its info; any failure leaves no session |
| Live.StopResult | src/live/mod.rs:96-104 | stop without a session returns Ok(None); with one it returns the session's info when the `end` call succeeds and that call's error otherwise |
| Live.StartStopCycle | src/live/mod.rs:60-104 | after a successful start, a second start is refused and keeps the session, and a stop whose `end` call succeeds returns the info start reported |
| Live.LiveManager.constructor | src/live/mod.rs:46-58 | a new manager holds no session and a client built from its configuration |
| Live.LiveManager.Start | src/live/mod.rs:60-94 | the result and the session held afterwards are those of StartStep for the session held before |
| Live.LiveManager.Stop | src/live/mod.rs:96-104 | the session is always gone afterwards, taken before shutdown, and the result is StopResult of the session held before |
| Live.LiveManager.Info | src/live/mod.rs:106-108 | info is None exactly when no session is held, and otherwise that session's info |
| Live.SubscribeUrl | src/live/mod.rs:209-215 | the result starts with the URL and ends in "/sub": a URL already ending in "/sub" is kept, one ending in "/" gets "sub", any other gets "/sub" |
| Live.SubscribeUrlIdempotent | src/live/mod.rs:209-215 | normalising a normalised URL changes nothing |
| Live.NormalizeWsUrl | src/live/mod.rs:209-215 | the in-place suffixing gives SubscribeUrl of the URL |
| Live.ParseEvents | src/live/mod.rs:371-389 | parsing always succeeds, with the events of the body's zero-separated chunks in order, skipping empty and malformed chunks |
| Live.EventsOfAppend | src/live/mod.rs:373-387 | the events of two runs of chunks are the events of the first followed by those of the second |
| Live.BadChunkIsolated | src/live/mod.rs:375-386 | removing an empty or malformed chunk leaves every other event, in order |
| Live.EventsComeFromChunks | src/live/mod.rs:378-382 | every event is what some non-empty chunk parsed to |
| Live.DocumentsJoinedByZero | src/live/mod.rs:373 | documents without zero bytes, joined by zero bytes, yield exactly their events in order |
| Live.DispatchEvents | src/live/mod.rs:337-351 | the effects of a frame's events are, event by event, the `live.event` broadcast of `{"cmd", "data"}` when there is a broadcaster, then the offer to the event channel when there is one |
| Live.HandlePackets | src/live/mod.rs:299-369 | a decoding error is returned with no effect; otherwise the effects are those of the SEND_EVENT packets' events, packet by packet |
| Live.OnlySendEventActs | src/live/mod.rs:307-365 | packets of any other operation produce no effect |
| Live.BroadcastThenDeliver | src/live/mod.rs:337-351 | with a broadcaster and a channel, event k is broadcast at position 2k and offered at position 2k+1 |
| Live.Walk | src/live/mod.rs:769-772 | walking the path key by key gives Lookup of the path, None as soon as a key is missing |
| Live.FieldStr | src/live/mod.rs:768-775 | a missing path gives None; otherwise the value's string, if it is one |
| Live.FieldI64 | src/live/mod.rs:777-783 | a missing path gives None; otherwise the value as a 64-bit integer, if it is one |
| Live.FieldBool | src/live/mod.rs:785-791 | a missing path gives None; otherwise the value's boolean, if it is one |
| Json.Get | src/live/mod.rs:771 | a key finds a value exactly when the value is an object holding that key, and then it is that field |
| Json.AsI64 | src/live/mod.rs:782 | an integer is read only when it lies within the signed 64-bit range |
| Json.LookupAppend | src/live/mod.rs:770-772 | walking a path in two legs is walking it at once |
| Json.LookupThroughScalar | src/live/mod.rs:770-772 | a non-empty path from a value that is not an object finds nothing |
| Live.WakeStep | src/live/mod.rs:241-294 | a REST heartbeat tick never ends the loop; a WS heartbeat tick always sends the empty heartbeat frame; only an incoming frame produces effects, and then the loop goes on |
| Live.HandleWake | src/live/mod.rs:242-293 | one wake-up of the `select!` does exactly WakeStep |
| Live.RunLiveLoop | src/live/mod.rs:200-297 | a connection failure or a failed auth send ends the task with that error before anything else; otherwise the auth frame of the auth body is sent to the subscribed URL, then the wake-ups are handled in order until one ends the loop |
| Live.RunFromAt | src/live/mod.rs:241-294 | the loop from the i-th wake-up is that wake-up's step, followed by the rest when it keeps running |
| Live.HeartbeatFailureEndsLoop | src/live/mod.rs:243-247 | a failed WS heartbeat send ends the loop after that frame, whatever comes next |
| Live.ApiHeartbeatKeepsGoing | src/live/mod.rs:249-253 | a REST heartbeat, failed or not, does not change how the loop ends |
| Live.DecodeErrorEndsLoop | src/live/mod.rs:265-267 | a binary frame that does not decode ends the loop with that decoding error |
| Config.FileOpenAiConfig.IntoDomain | src/config.rs:149-165 | the section yields a configuration exactly when it has an API key; the key and base URL are kept, and the chat model, preamble and image model default to "gpt-4o-mini", the default preamble and "dall-e-3" |
| Config.FileHyperbolicConfig.IntoDomain | src/config.rs:177-187 | the section yields a configuration exactly when it has an API key; language and voice default to "EN" and "EN-US" |
| Config.FileVideoConfig.IntoDomain | src/config.rs:201-212 | the section yields a configuration exactly when it has an endpoint; the key and duration limit are kept and the format defaults to "mp4" |
| Config.FileZhipuConfig.IntoDomain | src/config.rs:251-266 | the section yields a configuration exactly when it has an API key; model, preamble and URL default to "glm-4-flash", the default preamble and the Zhipu completions URL |
| Config.FileBilibiliLiveConfig.IntoDomain | src/config.rs:286-305 | the section yields a configuration exactly when key, secret and app id are all present; the heartbeat interval defaults to 20 s, a configured interval below 5 s becomes exactly 5 s and one of at least 5 s is kept |
| Config.FileSseConfig.IntoDomain | src/config.rs:327-352 | a missing access key is reported first, then a missing secret; the bind address defaults to 127.0.0.1:9000 and an address that does not parse is an error naming it; the signature lifetime defaults to 300 s, a configured lifetime below 30 s becomes exactly 30 s and one of at least 30 s is kept |
| Config.NewRoute | src/config.rs:436-444 | the provider name is trimmed and lower-cased and the model kept |
| Config.FileCapabilityRoute.IntoDomain | src/config.rs:468-473 | a route exists exactly when the section names a provider, and is then the normalised route |
| Config.DefaultChatRoute | src/config.rs:397-415 | intent and conversation default to openai's chat model when openai is configured, else to zhipu's, else to nothing |
| Config.DefaultImageRoute | src/config.rs:417-419 | images default to openai's image model, and only when openai is configured |
| Config.DefaultMusicRoute | src/config.rs:421-423 | music defaults to hyperbolic with its language as the model, and only when hyperbolic is configured |
| Config.DefaultVideoRoute | src/config.rs:425-427 | video defaults to the "custom" provider with the endpoint's format, and only when a video endpoint is configured |
| Config.FromFile | src/config.rs:363-395 | each of the five capabilities takes the file's route when it names a provider, and otherwise its default: the chat default for intent and conversation, the image, music and video defaults for the rest; a missing section leaves every default |
| Config.FileRouteOrDefault | src/config.rs:374-393 | an explicit route naming a provider wins; a missing or provider-less one leaves the default |
| Config.DefaultsWithoutFile | src/config.rs:364-395 | without a providers section every capability takes its default route |
| Intent.AsPrefix | src/intent/classifier.rs:29-38 | every intent has a name of four to seven characters; the name reads back as that intent (Intent.FromStrAsPrefix) because it is an alias of that intent and of no earlier group (Intent.PrefixIsAlias) |
| Intent.PrefixNormal | src/intent/classifier.rs:29-38 | the names are already trimmed and lower-case |
| Intent.FromStr | src/intent/classifier.rs:40-48 | after trimming and lower-casing, a value is Conversation exactly when it is a conversation alias and Unknown exactly when it is in no alias group |
| Intent.FromName | src/intent/classifier.rs:41-48 | a name maps to Conversation exactly when it is a conversation alias, to each other intent only from that intent's aliases, and to Unknown exactly when it is no alias at all |
| Intent.FromStrAsPrefix | src/intent/classifier.rs:28-49 | every intent's own name reads back as that intent |
| Intent.PrefixIsAlias | src/intent/classifier.rs:31-46 | each name is an alias of its own intent and of no earlier group |
| Intent.PrefixInjective | src/intent/classifier.rs:29-38 | two intents with the same display name are the same intent |
| Intent.FromStrNormalised | src/intent/classifier.rs:41 | case and surrounding blanks do not change the intent read |
| Intent.Sanitize | src/intent/classifier.rs:207-222 | the result has no surrounding blanks; an answer that does not open with a fence is only trimmed |
| Intent.SanitizeJsonFence | src/intent/classifier.rs:207-214 | a JSON body in a ```json fence, with blanks around it, is recovered exactly |
| Intent.SanitizePlainFence | src/intent/classifier.rs:215-219 | a JSON body in a bare ``` fence, with blanks around it, is recovered exactly |
| Intent.SanitizeUnfenced | src/intent/classifier.rs:207-222 | an unfenced JSON body among blanks is recovered exactly |
| Intent.StripJsonFenceBody | src/intent/classifier.rs:209-214 | the ```json branch strips the opening fence, the blanks, and the closing fence, and nothing of the body |
| Intent.OpeningStripped | src/intent/classifier.rs:210-211 | only the opening ```json goes, since no backtick follows it |
| Intent.InnerTrimmed | src/intent/classifier.rs:212 | the blanks after the opening fence go |
| Intent.ClosingStripped | src/intent/classifier.rs:213-214 | the closing fence and the blanks before it go |
| Intent.StripFenceBody | src/intent/classifier.rs:216-219 | the ``` branch strips both fences and the blanks, and nothing of the body |
| Intent.PlainOpeningStripped | src/intent/classifier.rs:217 | only the opening ``` goes |
| Intent.PlainClosingStripped | src/intent/classifier.rs:218 | only the closing ``` goes |
| Intent.StructIntent | src/intent/classifier.rs:58-61 | the typed reading succeeds exactly on an object whose "intent" is a string, or a one-element array holding a string |
| Intent.ParseIntent | src/intent/classifier.rs:206-235 | an intent is found exactly when the sanitised answer parses and its typed reading succeeds, and it is then that name read by from_str |
| Intent.ValueIntentSubsumed | src/intent/classifier.rs:228-232 | the untyped reading never finds a name the typed reading missed |
| Intent.ParseFencedAnswer | src/intent/classifier.rs:206-226 | a fenced `{"intent": name}` answer is read as from_str of the name |
| Intent.ParseSanitized | src/intent/classifier.rs:224-226 | an answer whose sanitised text is an object naming an intent is read as that intent |
| Intent.FallbackIntent | src/intent/classifier.rs:237-261 | the first keyword group, in the order chat, image, music, video, that the lower-cased input mentions decides, and conversation is the default; it never answers help or unknown |
| Intent.FallbackHelpWordIsConversation | src/intent/classifier.rs:240-243 | an input saying "help" is a conversation to the keyword fallback |
| Intent.ChatWordsWin | src/intent/classifier.rs:240-248 | an input with both "说" and "画" is a conversation |
| Intent.NewClassifier | src/intent/classifier.rs:82-127 | no route or a switched-off provider gives the keyword-only router; "openai" needs a client and then a configuration, each missing one its own MissingConfig, and the route's model wins over the chat model; "zhipu" needs a configuration and a model built from it; any other provider is Unsupported naming it |
| Intent.RouterAnswer | src/intent/classifier.rs:134-200 | there is an answer exactly when the provider call succeeds, and it is the reply's text; the OpenAI call carries the router's system prompt and the built prompt, the Zhipu request holds only the built prompt as one user message |
| Intent.RouterPrompt | src/intent/classifier.rs:135-138 | the prompt holds the trimmed input right after the fixed instruction and ends with a fence |
| Intent.Classify | src/intent/classifier.rs:129-204 | classification never fails; a blank input is Help; without a model, or when the call fails or the answer names no intent, the keyword fallback decides; otherwise the parsed answer does |
| Intent.HelpAndUnknownComeFromModel | src/intent/classifier.rs:129-204 | Help comes only from a blank input or the model's parsed answer, and Unknown only from the model |
| Intent.DisabledRouteUsesKeywords | src/intent/classifier.rs:129-203 | a classifier built from a switched-off route classifies any non-blank input by keywords alone |
| Conversation.ToMessage | src/capabilities/conversation.rs:64-69 | a stored message becomes a user message exactly when it was the user's |
| Conversation.ToMessages | src/capabilities/conversation.rs:104-126 | the history is converted message by message, in order |
| Conversation.Recent | src/capabilities/conversation.rs:92-97 | the kept history is the most recent messages, at most 24 of them, and all of them when there are no more than 24 |
| Conversation.DropEvenAlternating | src/capabilities/conversation.rs:92-97 | dropping an even number of the oldest messages keeps the dialogue alternating |
| Conversation.RecentAlternating | src/capabilities/conversation.rs:92-97 | trimming keeps a user-first alternating dialogue alternating, because the limit is even |
| Conversation.ExchangeAlternating | src/capabilities/conversation.rs:152-153 | appending one user message and one reply keeps the dialogue alternating |
| Conversation.ZhipuRequest | src/capabilities/conversation.rs:110-135 | the request holds one message per history entry plus the input, the empty prompt, and the preamble when it is not empty |
| Conversation.ZhipuRequestSent | src/capabilities/conversation.rs:132-135 | the empty prompt the builder appends reaches the provider as nothing |
| Conversation.InputIsSent | src/capabilities/conversation.rs:129-138 | with a non-empty input the provider always has a message to send |
| Conversation.ChatReply | src/capabilities/conversation.rs:102-150 | the OpenAI backend answers with the agent's reply to the input and the converted history, and its failure is a prompt error; the Zhipu backend answers with the completion's texts joined by newlines, and its failure is Unsupported carrying the error's text |
| Conversation.ZhipuNeverRefusesInput | src/capabilities/conversation.rs:129-139 | with a non-empty input the Zhipu backend fails only when the provider call itself fails |
| Conversation.ConversationAgent.WithOpenAi | src/capabilities/conversation.rs:73-78 | a new OpenAI agent has an empty history |
| Conversation.ConversationAgent.WithZhipuModel | src/capabilities/conversation.rs:83-89 | a new Zhipu agent keeps the model and the configured preamble and has an empty history |
| Conversation.ConversationAgent.TrimHistory | src/capabilities/conversation.rs:92-97 | the history becomes its most recent 24 messages |
| Conversation.ConversationAgent.Chat | src/capabilities/conversation.rs:99-157 | the reply is ChatReply for the history before the call; a failure leaves the history unchanged; a success appends the input and the reply and then trims; the history stays a dialogue within the limit |
| Conversation.WithZhipu | src/capabilities/conversation.rs:81-90 | building fails exactly when the model's HTTP client cannot be built, and then as a completion error; otherwise the new agent has the built model, the configured preamble and an empty history |
| Auth.AsI64 | src/auth/mod.rs:25 | the cast keeps every tolerance below 2^63 and turns larger ones into the negative number with the same bits |
| Auth.NewService | src/auth/mod.rs:21-27 | the service keeps the secret and the API keys, and a tolerance of 2^63 s or more becomes negative |
| Auth.Parts | src/auth/mod.rs:86-96 | the map holds four entries, five when there is user data |
| Auth.Ordered | src/auth/mod.rs:99-100 | the key-ordered entries are a rearrangement of the map's entries |
| Auth.Render | src/auth/mod.rs:102-105 | every entry becomes `key=value`, in order |
| Auth.OrderedSorted | src/auth/mod.rs:100 | the keys api_key, nonce, timestamp, user_data, user_id are in strictly increasing byte order |
| Auth.SigningStringSpelled | src/auth/mod.rs:85-109 | the signing string is the `key=value` entries for api_key, nonce, timestamp, user_data when present, and user_id, joined with "&" |
| Auth.SortedUnique | src/auth/mod.rs:99-100 | two sorted arrangements of the same entries are equal, so the sort's result does not depend on the map's order |
| Auth.PartsDistinct | src/auth/mod.rs:86-96 | the map's keys are distinct |
| Auth.SortByKey | src/auth/mod.rs:100 | the result is sorted by key and a permutation of the input |
| Auth.GenerateSignature | src/auth/mod.rs:111-120 | the signature is the base64 text of the HMAC-SHA256 of the UTF-8 signing string under the UTF-8 secret key |
| Auth.GenerateClientSignature | src/auth/mod.rs:122-143 | the result is the signature of the very message that carries it: its signing string is the one the server rebuilds from the fields and the RFC 3339 time |
| Auth.CreateSignatureData | src/auth/mod.rs:85-109 | whatever order the map yields its entries in, the result is the signing string |
| Auth.AuthenticateSignature | src/auth/mod.rs:37-69 | success exactly when the timestamp is within the tolerance of now, the API key is valid and the signature is the base64 HMAC of the signing string under the secret; a stale timestamp is reported before anything else; success names the user, "signature" and now; the window compares whole seconds, while the signing string carries the full RFC 3339 time with its fraction |
| Auth.AuthenticateApiKey | src/auth/mod.rs:71-83 | success exactly when the API key is valid, otherwise "Invalid API key"; success names the user, "api_key" and now |
| Auth.Authenticate | src/auth/mod.rs:29-35 | "signature" and "api_key" go to their checks, and any other type is refused as unsupported; a client accepted carries the request's user and type |
| Auth.ClientSignatureAccepted | src/auth/mod.rs:123-143 | a signature the client helper makes for valid fields is accepted whenever the whole seconds of its time are within the tolerance of now, whatever the fractions |
| Auth.HugeToleranceRejectsSignatures | src/auth/mod.rs:41-43 | with a tolerance of 2^63 s or more no signature is ever accepted |
| Sse.VerifyParams | src/sse.rs:36-66 | the parameters pass exactly when the access key matches, the timestamp is within the allowed age of the clock (0 when the clock reads before the epoch), the signature is hexadecimal and its bytes are the HMAC of `access_key:timestamp:nonce` under the secret |
| Sse.ClientSignatureVerifies | src/sse.rs:36-66 | a lower-case hex HMAC of the canonical string under the shared secret passes exactly while it is within the allowed age |
| Sse.OddSignatureRefused | src/sse.rs:52-55 | a signature of odd length is always refused |
| Sse.EncodeMessage | src/sse.rs:109-115 | the envelope is an object with exactly the keys "event" and "payload", holding the event name and the payload |
| Sse.EncodeMessageInjective | src/sse.rs:109-115 | two envelopes are equal exactly when their event names and payloads are |
| Sse.ToAgentCommand | src/sse.rs:94-103 | a command message becomes a command with the same input, and every other message a non-command |
| Sse.ToAgentCommandInjective | src/sse.rs:94-103 | different messages become different commands |
| Sse.CommandHandler | src/sse.rs:181-195 | a failed signature answers 401 and offers nothing; otherwise the command is offered, the answer is 503 when the channel is closed, and `{"status": "accepted"}` exactly when the channel took it |
| Tools.OptimizePrompt | src/tools/mod.rs:74-80 | the result starts with the fixed style opening, ends with the fixed style closing, and holds exactly the trimmed prompt between them |
| Tools.OptimizePromptSameIffTrimmed | src/tools/mod.rs:74-80 | two prompts give the same result exactly when they agree once trimmed |
| Tools.OptimizeTrimmed | src/tools/mod.rs:78 | trimming the prompt first changes nothing |
| Tools.FirstContained | src/tools/mod.rs:91-92 | the keyword found is the first in list order that the text contains, and None means the text contains none of them |
| Tools.CutAfter | src/tools/mod.rs:94-96 | the result is the trimmed text after the first occurrence of the keyword |
| Tools.ExtractWith | src/tools/mod.rs:84-102 | the result is always present: the text cut after the first keyword in list order that it contains, or the text unchanged when it contains none |
| Tools.ExtractImagePrompt | src/tools/mod.rs:84-102 | a drawing subject is always produced: the request cut after the first drawing keyword, in list order, that it contains, or the request itself |
| Tools.NoKeywordKeepsText | src/tools/mod.rs:101-102 | a text without any drawing keyword is returned as it is, untrimmed |
| Tools.KeywordFoundTrimmed | src/tools/mod.rs:91-97 | when some keyword occurs the result is trimmed |
| Tools.FirstKeywordShadows | src/tools/mod.rs:86-92 | a text with any of the keywords starting with "画" is cut after the first "画", since that keyword is tried first |
| Agents.AnalyzeIntent | src/agents/mod.rs:27-55 | any label other than OtherCommand is read only from a reply that is exactly that label once trimmed |
| Agents.PaddedAnswerRecognised | src/agents/mod.rs:52 | a label surrounded by blanks is still recognised as that label |
| Agents.UnknownAnswerIsOther | src/agents/mod.rs:52 | any reply other than the three labels, once trimmed, is OtherCommand |
| Agents.Assemble | src/agents/mod.rs:123-131 | with exactly two pieces the text is the first piece without the reply label, trimmed, and the prompt is trimmed; otherwise the reply is kept whole and the prompt is "Drawing based on: " and the request |
| Agents.MarkerOnce | src/agents/mod.rs:123-127 | a reply with the marker exactly once gives the text before it without the label, trimmed, and the trimmed text after it |
| Agents.MarkerAbsent | src/agents/mod.rs:128-131 | a reply without the marker is kept whole, with the fallback prompt |
| Agents.MarkerRepeated | src/agents/mod.rs:123-131 | a reply with the marker twice or more is also kept whole, with the fallback prompt |
| Zhipu.UserTexts | src/providers/zhipu.rs:92-101 | a user message yields at most one text per part, taken from its text parts |
| Zhipu.AssistantTexts | src/providers/zhipu.rs:111-120 | an assistant message yields at most one text per part, taken from its text parts |
| Zhipu.ConvertMessage | src/providers/zhipu.rs:91-129 | a converted message is never empty; its role is "user" or "assistant" after the message's kind, and its content is the text parts joined by newlines |
| Zhipu.ConvertMessages | src/providers/zhipu.rs:87-131 | the request has at most one message per history entry, none of them empty |
| Zhipu.ConvertMessagesAppend | src/providers/zhipu.rs:87-131 | converting a history in two pieces converts each piece in turn |
| Zhipu.EmptyPromptDropped | src/providers/zhipu.rs:102-103 | a user message with empty text, such as an empty prompt, contributes nothing |
| Zhipu.SingleTextKept | src/providers/zhipu.rs:93-108 | a user message with one non-empty text is passed on unchanged |
| Zhipu.FromConfig | src/providers/zhipu.rs:61-77 | building fails exactly when the HTTP client cannot be built, as a provider error; otherwise the key and endpoint come from the configuration and the override model wins over the chat model |
| Zhipu.SegmentTexts | src/providers/zhipu.rs:423-428 | at most one text per segment, from the segments that carry text |
| Zhipu.ContentText | src/providers/zhipu.rs:415-433 | plain content is its own text; segmented content has no text exactly when it has no segments, and otherwise is their texts concatenated |
| Zhipu.ResponseText | src/providers/zhipu.rs:363-369 | a reply has text exactly when some choice has text, and it is that of the first such choice |
| Zhipu.FirstText | src/providers/zhipu.rs:366-368 | from a given choice on, the text is that of the first choice that has one |
| Zhipu.TokenUsage | src/providers/zhipu.rs:371-379 | usage is present exactly when the reply carries it, with prompt, completion and total tokens carried over as input, output and total |
| Zhipu.PostError | src/providers/zhipu.rs:148-161 | a failed POST is always a provider error |
| Zhipu.Completion | src/providers/zhipu.rs:83-178 | a history that converts to nothing is refused before sending; a transport failure, an unsuccessful status, an undecodable body and a reply without text are provider errors; a delivered, decodable reply with text succeeds, and a success holds the reply's text as its only choice, the raw reply and its usage, zero when absent |
| Zhipu.CompletionTextReadBack | src/providers/zhipu.rs:168-177 | a successful completion's choice reads back as exactly the reply's text |
| Zhipu.DataPayload | src/providers/zhipu.rs:266-268 | a line has a payload exactly when, trimmed, it starts with "data:" |
| Zhipu.Payloads | src/providers/zhipu.rs:265-268 | one payload reading per line |
| Zhipu.ScanPayloads | src/providers/zhipu.rs:265-305 | every failure of the line search is a provider error |
| Zhipu.ChunkResult | src/providers/zhipu.rs:260-306 | a transport error of the chunk is passed on as a provider error, and every failure is a provider error |
| Zhipu.ErrorText | src/providers/zhipu.rs:307-313 | the text opens with the heading of its kind, so the kind can be read back from it, and ends with the whole message |
| Zhipu.ErrorDebug | src/intent/classifier.rs:109 | the `{:?}` text opens with the variant name and an opening quote, so the kind can be read back from it, and ends with the message and the closing quote and parenthesis |
| Zhipu.StreamItems | src/providers/zhipu.rs:307-313 | the stream has at most one item per chunk and none of them is the dropped invalid-chunk error |
| Zhipu.Stream | src/providers/zhipu.rs:180-316 | an empty converted history is refused before sending; a failed POST is a provider error; otherwise the stream is the items of the body's chunks |
| Zhipu.SkippedLinesIgnored | src/providers/zhipu.rs:265-271 | non-data lines and "[DONE]" lines do not change the outcome of the search |
| Zhipu.FirstDeltaWins | src/providers/zhipu.rs:274-282 | the first data line that parses to a chunk with a delta text decides the chunk, whatever follows it |
| Zhipu.MalformedDataFails | src/providers/zhipu.rs:294-299 | the first data line that does not parse fails the chunk with the parser's message |
| Zhipu.NoDataLines | src/providers/zhipu.rs:304-305 | a chunk with no data lines other than "[DONE]" gives the invalid-chunk error |
| Zhipu.InvalidChunkIsDropped | src/providers/zhipu.rs:305-310 | the invalid-chunk error is one the stream drops |
| Zhipu.InvalidChunkDropped | src/providers/zhipu.rs:307-313 | a chunk that yields the invalid-chunk error leaves no item in the stream |
| Zhipu.ItemKept | src/providers/zhipu.rs:307-309 | a delta or final reply of a chunk reaches the stream in its place |
| Services.ResultMessage | src/services/mod.rs:180-191 | the final message is a successful danmaku result for the original text, with the intent label and reply text, the audio flag set exactly when audio is present (then sent as base64), and the image flag and data from the image URL |
| Services.Deliveries | src/services/mod.rs:280-285 | a broadcast makes at most one delivery per client, each of the message and to an open channel |
| Services.FailedClientsExactly | src/services/mod.rs:280-288 | a client is among the failed ones exactly when it was sent to and its channel is closed |
| Services.DeliveriesReachLiveClients | src/services/mod.rs:280-285 | every authenticated client in the order whose channel is open receives the broadcast |
| Services.BroadcastReachesLiveClients | src/services/mod.rs:276-295 | a broadcast over all authenticated clients reaches every one whose channel is open |
| Services.WebSocketManager.DirectDelivery | src/services/mod.rs:237-256 | a direct send makes at most one delivery, of the message to an open channel, and none to an unknown connection |
| Services.WebSocketManager.constructor | src/services/mod.rs:27-39 | a new manager has no connections and has sent nothing |
| Services.WebSocketManager.IsAuthenticated | src/services/mod.rs:198-201 | a connection is authenticated exactly when it is in the authenticated map, and then, on a valid registry, it is not waiting |
| Services.WebSocketManager.AuthenticatedClientCount | src/services/mod.rs:297-300 | the number of authenticated connections, zero exactly when no connection is authenticated |
| Services.WebSocketManager.TotalClientCount | src/services/mod.rs:297-306 | the authenticated count plus the unauthenticated count, which on a valid registry is the number of distinct connections |
| Services.WebSocketManager.AddUnauthenticatedClient | src/services/mod.rs:41-59 | the connection is registered as unauthenticated with its channel and greeted when the channel is open; a new connection adds one to the total |
| Services.WebSocketManager.AuthenticateClient | src/services/mod.rs:61-98 | the outcome is the authentication service's; a success moves a waiting connection, with its channel, to the authenticated map and tells it so; a failure changes nothing; no connection is in both maps and the total is kept |
| Services.WebSocketManager.SendToClient | src/services/mod.rs:225-235 | the send succeeds exactly when the connection is authenticated and its channel is open, and only then is the message delivered |
| Services.WebSocketManager.SendToClientDirect | src/services/mod.rs:237-256 | the message goes through the authenticated channel when that send succeeds, otherwise through the unauthenticated one |
| Services.WebSocketManager.SendAuthRequired | src/services/mod.rs:203-223 | the auth-required notice is sent as a direct send |
| Services.WebSocketManager.ProcessDanmaku | src/services/mod.rs:132-196 | an unauthenticated connection is an error with nothing sent; otherwise the workflow runs for the connection's user, its error is returned with nothing sent, and its result is sent as the final message |
| Services.WebSocketManager.HandleMessage | src/services/mod.rs:100-130 | a failed authentication is answered with auth-required; a danmaku or ping from an unauthenticated connection is answered with auth-required and nothing else; a ping is answered with pong; a danmaku is processed; other messages change nothing; a successful authentication moves a waiting connection to the authenticated map with its channel and answers it with auth-success when the channel is live, and changes nothing for a connection that is not waiting; no connection is ever in both maps |
| Services.WebSocketManager.RemoveClient | src/services/mod.rs:258-274 | an authenticated connection is removed from that map only, any other from the unauthenticated map; the total drops by one when the connection was known |
| Services.WebSocketManager.RemoveFailed | src/services/mod.rs:289-293 | exactly the failed connections leave the authenticated map and the other entries are kept |
| Services.WebSocketManager.BroadcastToAuthenticated | src/services/mod.rs:276-295 | the message is delivered to every authenticated connection with an open channel, in the map's order, and exactly the connections whose send failed are dropped |
| Services.WebSocketManager.SendToAll | src/services/mod.rs:278-287 | the loop's deliveries and failures are those of the whole order |
| Orchestrator.AsEventPayload | src/orchestrator.rs:34-60 | the event name tells the outcome's kind (conversation, artifact, help) in both directions, and the payload is an object carrying each field of the outcome |
| Orchestrator.EventPayloadInjective | src/orchestrator.rs:34-60 | different outcomes give different events, so a subscriber can read the outcome back |
| Orchestrator.WithContext | src/orchestrator.rs:498-505 | an object payload gains "origin", and "context" exactly when metadata is given, with every other field unchanged; a non-object payload is left alone |
| Orchestrator.AttachContext | src/orchestrator.rs:498-505 | the in-place update yields exactly the payload described by WithContext |
| Orchestrator.ContextKeepsOutcome | src/orchestrator.rs:475-479 | attaching the context never changes a field the outcome reported |
| Orchestrator.ErrorPayload | src/orchestrator.rs:481-489 | the error event's payload carries the origin and the message |
| Orchestrator.SelectConversation | src/orchestrator.rs:115-148 | no route or a switched-off provider gives no agent; "openai" and "zhipu" need their configuration (else a missing-configuration error) and the route's model wins over the configured one; any other provider is refused as unsupported, and only then |
| Orchestrator.SelectImage | src/orchestrator.rs:150-172 | only "openai" is accepted, needing the OpenAI configuration, with the route's model over the configured image model; other providers are refused; absent or switched off gives no generator |
| Orchestrator.SelectMusic | src/orchestrator.rs:174-196 | only "hyperbolic" is accepted, needing its configuration, with the route's model over the configured language; other providers are refused; absent or switched off gives no generator |
| Orchestrator.SelectVideo | src/orchestrator.rs:198-216 | only "custom" is accepted, needing the video configuration, with the route's model overriding the output format; other providers are refused; absent or switched off gives no generator |
| Orchestrator.PlanController | src/orchestrator.rs:77-240 | a failure to create the artifact directory wins; a built controller had every step succeed and holds exactly the router and providers those steps chose |
| Orchestrator.PlanRefusesUnknownProviders | src/orchestrator.rs:77-240 | a controller is only built when no route names a provider its capability does not know |
| Orchestrator.AllDisabledBuilds | src/orchestrator.rs:77-240 | with every capability switched off the controller is built with keyword routing and no providers |
| Orchestrator.ArtifactResult | src/orchestrator.rs:366-381 | a generated artifact is persisted and reported with its intent, path and summary; a failure to generate or to persist is the result |
| Orchestrator.Respond | src/orchestrator.rs:353-418 | conversation and unknown requests go to the conversation agent, the generation intents to their generators, help to the help text; the outcome's kind matches the intent in both directions; an unconfigured capability is a missing-configuration error naming it |
| Orchestrator.RespondIgnoresChat | src/orchestrator.rs:353-418 | outside a conversation turn the conversation agent plays no part in the answer |
| Orchestrator.StatusLines | src/orchestrator.rs:434-448 | one line per capability, in overview order, each built from its description and status |
| Orchestrator.HelpMessage | src/orchestrator.rs:427-473 | the text opens with the greeting line and closes with the last live command when a live room is configured, or else with the last usage example |
| Orchestrator.HelpLines | src/orchestrator.rs:427-473 | the greeting, then exactly the status lines, then the examples and usage, with the live commands last exactly when a live room is configured |
| Orchestrator.StatusMark | src/orchestrator.rs:435-447 | a status line ends in the enabled mark exactly when the capability is enabled |
| Orchestrator.StatusReadable | src/orchestrator.rs:427-473 | each capability's status can be read back off its line of the help text |
| Orchestrator.HelpStatusLine | src/orchestrator.rs:428-448 | the k-th status line stands right after the greeting |
| Orchestrator.Overview | src/orchestrator.rs:242-249 | four entries, one per generating or chatting capability, none of them help or unknown, no capability twice |
| Orchestrator.LiveDanmaku | src/orchestrator.rs:297-312 | an event is acted on exactly when it is a danmaku whose "msg" is a non-blank string; the message is that string trimmed and the sender is never empty |
| Orchestrator.LiveReport | src/orchestrator.rs:321-345 | a handled live message is reported under its outcome's event, a failure under the error event |
| Orchestrator.OnlyDanmakuActedOn | src/orchestrator.rs:297-349 | every command other than the danmaku is ignored |
| Orchestrator.LiveMessageTrimmed | src/orchestrator.rs:299-307 | a live message surrounded by whitespace is handled as its trimmed text |
| Orchestrator.AgentController.constructor | src/orchestrator.rs:218-239 | the controller holds the given parts, has the live event receiver exactly when a live room is configured, and has broadcast nothing |
| Orchestrator.AgentController.CapabilitiesOverview | src/orchestrator.rs:242-249 | each capability is listed as enabled exactly when its provider is configured |
| Orchestrator.AgentController.HasLiveListener | src/orchestrator.rs:251-253 | true exactly while the event receiver exists, which is never without a live manager; the constructor and RecvLiveEvent keep that |
| Orchestrator.AgentController.RecvLiveEvent | src/orchestrator.rs:255-270 | without a receiver nothing is received; otherwise the channel's next event is returned, and a closed channel drops the receiver for good |
| Orchestrator.AgentController.StartLive | src/orchestrator.rs:272-278 | without a live room a missing-configuration error; otherwise the manager's start step, result and new session |
| Orchestrator.AgentController.StopLive | src/orchestrator.rs:280-286 | without a live room a missing-configuration error; otherwise the manager's stop result, leaving no session |
| Orchestrator.AgentController.Shutdown | src/orchestrator.rs:420-425 | a configured live session is stopped, leaving no session, and only a failure to stop it fails |
| Orchestrator.AgentController.LiveStatus | src/orchestrator.rs:288-294 | without a live room a missing-configuration error; otherwise a session exactly when one is running |
| Orchestrator.AgentController.Handle | src/orchestrator.rs:353-418 | the answer is the routing of the classified request; a successful conversation turn appends the exchange to the agent's bounded history, and nothing else changes it (Orchestrator.HistoryAfter) |
| Orchestrator.AgentController.Broadcast | src/orchestrator.rs:491-495 | the encoded envelope is appended to what subscribers receive exactly when a broadcaster exists |
| Orchestrator.AgentController.HandleLiveEvent | src/orchestrator.rs:296-351 | never fails and changes only the broadcasts and the agent's history; an ignored event changes neither; an accepted danmaku is handled as its trimmed message, exactly its report is broadcast, and the history is the one that handling leaves |
| Orchestrator.AgentController.HandleDanmaku | src/orchestrator.rs:321-345 | the message is handled, exactly one report of that handling is broadcast, and the agent's history records the exchange when the handling was a conversation turn and is otherwise unchanged |
| Orchestrator.AgentController.ReportLive | src/orchestrator.rs:321-345 | the outcome's event with the live context, or the error event, is broadcast once |
| Orchestrator.NewController | src/orchestrator.rs:77-240 | fails exactly as the plan does; otherwise a fresh controller holding the planned parts, a conversation agent with empty history exactly when planned, on the planned backend (the Zhipu model built with the route's model override and the configured preamble), and a live manager with no session, the client built from the live configuration and its event receiver exactly when a live room is configured |

## Left out

- zlib inflate, MD5, HMAC-SHA256, base64, uuid generation, JSON parsing and serialisation, and the RFC 3339 time format are parameters of the model. The model only fixes where their results are used.
- The clock and the random nonce are parameters (`now`, `nonce`).
- HTTP requests, WebSocket and SSE sockets, and the TCP listener are parameters: the reply or failure that each exchange yields is an input.
- Tokio tasks, `select!`, timers, `RwLock`s and channels are not modelled as concurrency. The live connection loop is a sequence of wake-ups, each one a given event. The registry's two maps are updated as one step. A channel's sender is open or closed as a given `Liveness`.
- Logging (`info!`, `warn!`) and `render_event`, which only logs an event, are not modelled.
- `decode_packets` recurses into inflated bodies without a bound. The model takes a `depth` fuel: a compressed frame met with no fuel left is the distinct error `NestingTooDeep`. It is proved that more fuel never changes any other result.
- `String::from_utf8_lossy` in the Zhipu stream is a parameter that turns the chunk bytes into text.
- `char::to_lowercase` is modelled for ASCII letters only. Other characters are left unchanged, so non-ASCII capitals in aliases and provider names are not folded.
- Rust `str` operations are modelled on characters rather than UTF-8 bytes. Byte offsets returned by `find` become character offsets. The resulting slices are the same.
- Duplicate keys in a JSON object and floating-point JSON numbers are not modelled: objects are maps and numbers are integers.
- `HashMap` iteration order in `broadcast_to_authenticated` is a parameter (`order`), a sequence listing the clients.
- The progress-forwarding task of `process_danmaku` is not modelled. The workflow's final result is an input, and only the final message is sent.
- Services.WebSocketManager.ProcessDanmaku: the progress messages forwarded while the workflow runs are not part of its contract.
- The image, speech and music HTTP clients of `src/tools/mod.rs`, and the generators behind the controller, are parameters (`Backends`).
- The artifact writer is a parameter. It answers the path it wrote or an error.
- The prompts given to the agents and models are constants the model does not inspect.
- `rig`'s agent builder is a parameter (`OpenAiChat`), including where it places the preamble and history.
- In the OpenAI branches of `AgentController::new`, the client is checked before the configuration section. The client exists exactly when that section does, so the second missing-configuration message is unreachable. The model checks once.
- `VideoGenerator::new` always succeeds in the code, and the model has no failure for it.
- HMAC-SHA256 accepts a key of any length, so the key setup failures handled in `src/auth/mod.rs`, `src/sse.rs` and `src/live/mod.rs` cannot happen. The model does not include them.
- The router configured with Zhipu sends its system prompt as the completion preamble, which the Zhipu provider does not send on. The model keeps this as written.
- Stopping a session signals the live task and awaits its `JoinHandle`. An error from the task is only logged, so the model keeps only the final `end` call.
- Orchestrator.HelpMessage: the help text is its lines joined by newlines. Its contract states the first and the last line; reading the status lines back from the joined text is not proved, and those properties are stated on the lines.
- Zhipu.ErrorDebug: quotes, backslashes and control characters inside the message are written as they are; `{:?}` escapes them.
- The WebSocket server, the workflows, memory and `main` are not part of this model.
