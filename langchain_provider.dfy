// LangChain4jModelProvider: the base of the LangChain4j-backed providers.
// It converts a request into the chat messages LangChain4j takes, guards the
// calls with the API-key and model checks, and wraps what the model returns
// (or the exception it throws) in an AIResponse. The LangChain4j models are
// not part of this model: what a call returns is a parameter, and so are the
// random response id and the clock.
module LangChainProvider {
  import opened Wrappers
  import opened JStrings
  import opened AIRequests

  const KeyMissing: string := "API密钥未配置"
  const ModelMissing: string := "模型未初始化"
  const GenerateFailedPrefix: string := "生成内容时出错: "
  const StreamKeyMissing: string := "错误：API密钥未配置"
  const StreamModelMissing: string := "错误：流式模型未初始化"
  const StreamErrorPrefix: string := "错误："

  /** The LangChain4j message kinds. */
  datatype ChatMessage = SystemMessage(text: string) | UserMessage(text: string) | AiMessage(text: string)

  /** The provider's final fields, and whether initModels built its two models. */
  datatype Provider = Provider(
    providerName: string,
    modelName: string,
    apiKey: Option<string>,
    apiEndpoint: Option<string>,
    hasChatModel: bool,
    hasStreamingModel: bool)

  // ------------------------------------------------------------ conversion

  /** The message a conversation entry becomes, chosen on its lower-cased role. */
  function ChatMessageOf(m: Message): (c: ChatMessage)
    ensures c.text == m.content
    ensures c.UserMessage? <==> ToLower(m.role) != "assistant" && ToLower(m.role) != "system"
  {
    var role := ToLower(m.role);
    if role == "user" then UserMessage(m.content)
    else if role == "assistant" then AiMessage(m.content)
    else if role == "system" then SystemMessage(m.content)
    else UserMessage(m.content)
  }

  /** The prompt is sent only when it is non-null and non-empty. */
  predicate HasPrompt(prompt: Option<string>) { prompt.Some? && prompt.value != [] }

  /** The list convertToLangChain4jMessages builds, one message at a time. */
  function Converted(prompt: Option<string>, ms: seq<Message>): seq<ChatMessage>
  {
    if ms == [] then (if HasPrompt(prompt) then [SystemMessage(prompt.value)] else [])
    else Converted(prompt, ms[..|ms| - 1]) + [ChatMessageOf(ms[|ms| - 1])]
  }

  /** The texts of some chat messages, in order. */
  function Texts(cs: seq<ChatMessage>): (r: seq<string>)
    ensures |r| == |cs|
    ensures forall i :: 0 <= i < |cs| ==> r[i] == cs[i].text
  {
    if cs == [] then [] else Texts(cs[..|cs| - 1]) + [cs[|cs| - 1].text]
  }

  /** convertToLangChain4jMessages. */
  method ConvertMessages(request: AIRequest) returns (r: seq<ChatMessage>)
    ensures r == Converted(request.prompt, request.messages)
    ensures |r| == |request.messages| + (if HasPrompt(request.prompt) then 1 else 0)
  {
    r := [];
    if request.prompt.Some? && request.prompt.value != [] {
      r := r + [SystemMessage(request.prompt.value)];
    }
    var i := 0;
    while i < |request.messages|
      invariant 0 <= i <= |request.messages|
      invariant r == Converted(request.prompt, request.messages[..i])
    {
      assert request.messages[..i + 1][..i] == request.messages[..i];
      r := r + [ChatMessageOf(request.messages[i])];
      i := i + 1;
    }
    assert request.messages[..i] == request.messages;
    ConvertedLength(request.prompt, request.messages);
  }

  /** One chat message per conversation entry, plus a leading one for a prompt. */
  lemma {:induction false} ConvertedLength(prompt: Option<string>, ms: seq<Message>)
    ensures |Converted(prompt, ms)| == |ms| + (if HasPrompt(prompt) then 1 else 0)
  {
    if ms != [] {
      ConvertedLength(prompt, ms[..|ms| - 1]);
    }
  }

  /** A present prompt comes first, as a system message; entry i follows at
      position i, or i + 1 after a prompt, in the kind its role chooses. */
  lemma {:induction false} ConvertedOrder(prompt: Option<string>, ms: seq<Message>)
    ensures |Converted(prompt, ms)| == |ms| + (if HasPrompt(prompt) then 1 else 0)
    ensures HasPrompt(prompt) ==> Converted(prompt, ms)[0] == SystemMessage(prompt.value)
    ensures forall i :: 0 <= i < |ms| ==>
      Converted(prompt, ms)[i + (if HasPrompt(prompt) then 1 else 0)] == ChatMessageOf(ms[i])
  {
    ConvertedLength(prompt, ms);
    if ms != [] {
      var init := ms[..|ms| - 1];
      ConvertedOrder(prompt, init);
      ConvertedLength(prompt, init);
      forall i | 0 <= i < |ms|
        ensures Converted(prompt, ms)[i + (if HasPrompt(prompt) then 1 else 0)] == ChatMessageOf(ms[i])
      {
        if i < |ms| - 1 {
          assert ms[i] == init[i];
        }
      }
    }
  }

  /** The conversion loses no text and keeps the order: the prompt, then every content. */
  lemma {:induction false} ConvertedTexts(prompt: Option<string>, ms: seq<Message>)
    ensures Texts(Converted(prompt, ms))
      == (if HasPrompt(prompt) then [prompt.value] else []) + Contents(ms)
  {
    if ms != [] {
      var init := ms[..|ms| - 1];
      var last := ChatMessageOf(ms[|ms| - 1]);
      ConvertedTexts(prompt, init);
      TextIsContent(ms[|ms| - 1]);
      TextsSnoc(Converted(prompt, init), last);
      assert Contents(ms) == Contents(init) + [ms[|ms| - 1].content];
    }
  }

  /** Texts of a list with one more message. */
  lemma TextsSnoc(cs: seq<ChatMessage>, c: ChatMessage)
    ensures Texts(cs + [c]) == Texts(cs) + [c.text]
  {
    assert (cs + [c])[..|cs|] == cs;
  }

  /** Whatever kind an entry becomes, its text is the entry's content. */
  lemma TextIsContent(m: Message)
    ensures ChatMessageOf(m).text == m.content
  {
  }

  /** Roles are matched ignoring case: an assistant role gives an AI message, a
      system role a system message, and every other role (unknown ones
      included) a user message; the text is always the content. */
  lemma RoleMapping(m: Message)
    ensures ChatMessageOf(m).text == m.content
    ensures ChatMessageOf(m).AiMessage? <==> EqualsIgnoreCase(m.role, "assistant")
    ensures ChatMessageOf(m).SystemMessage? <==> EqualsIgnoreCase(m.role, "system")
    ensures ChatMessageOf(m).UserMessage? <==>
      !EqualsIgnoreCase(m.role, "assistant") && !EqualsIgnoreCase(m.role, "system")
  {
    AssistantRole(m);
    SystemRole(m);
    TextIsContent(m);
    OneKind(ChatMessageOf(m));
  }

  /** Every chat message is of exactly one of the three kinds. */
  lemma OneKind(c: ChatMessage)
    ensures c.UserMessage? <==> !c.AiMessage? && !c.SystemMessage?
  {
  }

  lemma AssistantRole(m: Message)
    ensures ChatMessageOf(m).AiMessage? <==> EqualsIgnoreCase(m.role, "assistant")
  {
    AssistantIsLowerCase();
  }

  lemma SystemRole(m: Message)
    ensures ChatMessageOf(m).SystemMessage? <==> EqualsIgnoreCase(m.role, "system")
  {
    SystemIsLowerCase();
  }

  lemma AssistantIsLowerCase()
    ensures ToLower("assistant") == "assistant"
  {
    LowerCaseUnchanged("assistant");
  }

  lemma SystemIsLowerCase()
    ensures ToLower("system") == "system"
  {
    LowerCaseUnchanged("system");
  }

  lemma LowerCaseUnchanged(s: string)
    requires forall i :: 0 <= i < |s| ==> !('A' <= s[i] <= 'Z')
    ensures ToLower(s) == s
  {
  }

  // ------------------------------------------------------------ key and endpoint

  /** isApiKeyEmpty: the key is null or trims to nothing. */
  predicate IsApiKeyEmpty(apiKey: Option<string>) { apiKey.None? || TrimEmpty(apiKey.value) }

  /** getApiEndpoint. */
  function ApiEndpoint(apiEndpoint: Option<string>, defaultEndpoint: string): (r: string)
    ensures r == defaultEndpoint || (apiEndpoint.Some? && r == apiEndpoint.value)
  {
    if apiEndpoint.Some? && !TrimEmpty(apiEndpoint.value) then apiEndpoint.value else defaultEndpoint
  }

  /** An endpoint holding a char above U+0020 overrides the default; a null
      endpoint or one of spaces and control chars does not. */
  lemma EndpointOverrides(apiEndpoint: Option<string>, defaultEndpoint: string)
    ensures apiEndpoint.Some? && (exists i :: 0 <= i < |apiEndpoint.value| && !TrimmedChar(apiEndpoint.value[i]))
      ==> ApiEndpoint(apiEndpoint, defaultEndpoint) == apiEndpoint.value
    ensures (apiEndpoint.None? || forall i :: 0 <= i < |apiEndpoint.value| ==> TrimmedChar(apiEndpoint.value[i]))
      ==> ApiEndpoint(apiEndpoint, defaultEndpoint) == defaultEndpoint
  {
  }

  // ------------------------------------------------------------ responses

  /** createBaseResponse: a fresh id, the provider's model name, no token usage. */
  function BaseResponse(p: Provider, content: string, id: string, now: int): AIResponse
  {
    AIResponse(id, p.modelName, content, 0, 0, now, None, [])
  }

  /** createErrorResponse: the message as content, finishReason "error". */
  function ErrorResponse(p: Provider, message: string, id: string, now: int): AIResponse
  {
    BaseResponse(p, message, id, now).(finishReason := Some("error"))
  }

  /** What a call of the chat model did: returned a text, or threw with this message. */
  datatype ChatOutcome = Replied(text: string) | Threw(message: Option<string>)

  /** generateContent. */
  function GenerateContent(p: Provider, request: AIRequest, call: ChatOutcome, id: string, now: int): (r: AIResponse)
    ensures r.id == id && r.model == p.modelName && r.finishReason.Some?
    ensures r.finishReason == Some("stop") <==> !IsApiKeyEmpty(p.apiKey) && p.hasChatModel && call.Replied?
  {
    if IsApiKeyEmpty(p.apiKey) then ErrorResponse(p, KeyMissing, id, now)
    else if !p.hasChatModel then ErrorResponse(p, ModelMissing, id, now)
    else match call
      case Replied(text) => BaseResponse(p, text, id, now).(finishReason := Some("stop"))
      case Threw(message) => ErrorResponse(p, GenerateFailedPrefix + StringOf(message), id, now)
  }

  /** A response always carries the provider's model name and no token usage;
      it is an error response exactly when the key is empty, the model is
      missing or the call threw, and otherwise it holds the model's text with
      finishReason "stop". An empty key is reported before a missing model. */
  lemma GenerateContentOutcome(p: Provider, request: AIRequest, call: ChatOutcome, id: string, now: int)
    ensures GenerateContent(p, request, call, id, now).model == p.modelName
    ensures GenerateContent(p, request, call, id, now).promptTokens == 0
    ensures GenerateContent(p, request, call, id, now).completionTokens == 0
    ensures GenerateContent(p, request, call, id, now).finishReason == Some("error")
      <==> IsApiKeyEmpty(p.apiKey) || !p.hasChatModel || call.Threw?
    ensures GenerateContent(p, request, call, id, now).finishReason != Some("error")
      ==> (call.Replied? && GenerateContent(p, request, call, id, now).content == call.text
        && GenerateContent(p, request, call, id, now).finishReason == Some("stop"))
    ensures IsApiKeyEmpty(p.apiKey) ==> GenerateContent(p, request, call, id, now).content == KeyMissing
    ensures !IsApiKeyEmpty(p.apiKey) && !p.hasChatModel
      ==> GenerateContent(p, request, call, id, now).content == ModelMissing
  {
  }

  /** What the streaming model did: setting up the call threw, or it emitted
      some partial texts and then completed or failed with a message. */
  datatype StreamOutcome =
    | SetupThrew(message: Option<string>)
    | Streamed(parts: seq<string>, failure: Option<Option<string>>)

  /** generateContentStream, as the list of texts the Flux emits. */
  function GenerateContentStream(p: Provider, request: AIRequest, stream: StreamOutcome): (r: seq<string>)
    ensures |r| <= (if stream.Streamed? then |stream.parts| + 1 else 1)
    ensures forall i :: 0 <= i < |r| ==> StartsWith(r[i], StreamErrorPrefix) || (stream.Streamed? && r[i] in stream.parts)
  {
    if IsApiKeyEmpty(p.apiKey) then [StreamKeyMissing]
    else if !p.hasStreamingModel then [StreamModelMissing]
    else match stream
      case SetupThrew(message) => [StreamErrorPrefix + StringOf(message)]
      case Streamed(parts, None) => parts
      case Streamed(parts, Some(message)) => parts + [StreamErrorPrefix + StringOf(message)]
  }

  /** The stream never fails: a guard or an error becomes one final text
      starting with "错误："; partial texts are passed through in order before it. */
  lemma StreamOutcomeShape(p: Provider, request: AIRequest, stream: StreamOutcome)
    ensures var out := GenerateContentStream(p, request, stream);
      (IsApiKeyEmpty(p.apiKey) || !p.hasStreamingModel || stream.SetupThrew?)
        ==> |out| == 1 && StartsWith(out[0], StreamErrorPrefix)
    ensures var out := GenerateContentStream(p, request, stream);
      !IsApiKeyEmpty(p.apiKey) && p.hasStreamingModel && stream.Streamed? ==> (
        (stream.failure.None? ==> out == stream.parts)
        && (stream.failure.Some? ==>
              |out| == |stream.parts| + 1 && out[..|stream.parts|] == stream.parts
              && StartsWith(out[|stream.parts|], StreamErrorPrefix)))
  {
  }

  /** What the test chat in validateApiKey did: succeeded, or threw. */
  function ValidateApiKey(p: Provider, testSucceeded: bool): (valid: bool)
    ensures valid ==> !IsApiKeyEmpty(p.apiKey) && p.hasChatModel
  {
    !IsApiKeyEmpty(p.apiKey) && p.hasChatModel && testSucceeded
  }

  /** Validation reports false on every failure, never an error: it is true
      exactly when a non-empty key reached a built model and the test call passed. */
  lemma ValidationNeverFails(p: Provider, testSucceeded: bool)
    ensures ValidateApiKey(p, testSucceeded) <==> !IsApiKeyEmpty(p.apiKey) && p.hasChatModel && testSucceeded
    ensures p.apiKey.Some? && p.apiKey.value == "   " ==> !ValidateApiKey(p, testSucceeded)
  {
  }
}
