// NovelAIServiceImpl: how a request is enriched with novel context before it
// reaches a model provider (the query text, the formatting of retrieved
// segments, the inserted system message), the request for next-outline
// options, and the per-user cache of model providers. Retrieval, the knowledge
// base, the key encryptor and the provider factory are not part of this
// model: what they return is a parameter.
module NovelAI {
  import opened Wrappers
  import opened JStrings
  import opened AIRequests
  import opened PromptUtil

  const ContextIntro: string := "你是一位小说创作助手。以下是一些相关的上下文信息，可能对回答有帮助：\n\n"

  // ------------------------------------------------------------ query text

  /** The content of the last message whose role is exactly "user", or "". */
  function LastUserContent(ms: seq<Message>): (r: string)
    ensures r == "" || exists k :: 0 <= k < |ms| && ms[k].role == "user" && ms[k].content == r
  {
    if ms == [] then ""
    else if ms[|ms| - 1].role == "user" then ms[|ms| - 1].content
    else LastUserContent(ms[..|ms| - 1])
  }

  /** extractQueryTextFromRequest. */
  function ExtractQueryText(request: AIRequest): (r: string)
    ensures request.messages == [] ==> r == request.prompt.GetOr("")
    ensures request.messages != [] ==>
      r == "" || exists k :: 0 <= k < |request.messages|
                   && request.messages[k].role == "user" && request.messages[k].content == r
  {
    if request.messages != [] then LastUserContent(request.messages)
    else request.prompt.GetOr("")
  }

  /** With messages present, the query is the content of the last message
      whose role is exactly "user", and "" when no message has that role; the
      prompt is used only when there are no messages. */
  lemma {:induction false} LastUserContentIsLast(ms: seq<Message>, j: nat)
    requires j < |ms| && ms[j].role == "user"
    requires forall k :: j < k < |ms| ==> ms[k].role != "user"
    ensures LastUserContent(ms) == ms[j].content
  {
    if j < |ms| - 1 {
      LastUserContentIsLast(ms[..|ms| - 1], j);
    }
  }

  lemma {:induction false} NoUserMessageNoQuery(ms: seq<Message>)
    requires forall k :: 0 <= k < |ms| ==> ms[k].role != "user"
    ensures LastUserContent(ms) == ""
  {
    if ms != [] {
      NoUserMessageNoQuery(ms[..|ms| - 1]);
    }
  }

  lemma QueryText(request: AIRequest, j: nat)
    ensures j < |request.messages| && request.messages[j].role == "user"
      && (forall k :: j < k < |request.messages| ==> request.messages[k].role != "user")
      ==> ExtractQueryText(request) == request.messages[j].content
    ensures (forall k :: 0 <= k < |request.messages| ==> request.messages[k].role != "user")
      ==> ExtractQueryText(request) == (if request.messages == [] then request.prompt.GetOr("") else "")
  {
    if j < |request.messages| && request.messages[j].role == "user"
      && (forall k :: j < k < |request.messages| ==> request.messages[k].role != "user")
    {
      LastUserContentIsLast(request.messages, j);
    }
    if forall k :: 0 <= k < |request.messages| ==> request.messages[k].role != "user" {
      NoUserMessageNoQuery(request.messages);
    }
  }

  // ------------------------------------------------------------ retrieved context

  /** A retrieved text segment with the two metadata entries the formatter reads. */
  datatype Segment = Segment(text: string, title: Option<string>, sourceType: Option<string>)

  const SegmentLabel: string := "段落 #"
  const HeaderEnd: string := ":\n"
  const TitleLabel: string := "标题: "
  const TypeLabel: string := "类型: "
  const SceneType: string := "类型: 场景\n"
  const MetadataType: string := "类型: 小说元数据\n"
  const LineEnd: string := "\n"
  const BlockEnd: string := "\n\n"

  function SegmentHeader(i: nat): string { SegmentLabel + NatToString(i + 1) + HeaderEnd }

  function TitleLine(title: Option<string>): string
  {
    if title.Some? then TitleLabel + title.value + LineEnd else ""
  }

  function TypeLine(sourceType: Option<string>): string
  {
    if sourceType.None? then ""
    else if sourceType.value == "scene" then SceneType
    else if sourceType.value == "novel_metadata" then MetadataType
    else TypeLabel + sourceType.value + LineEnd
  }

  /** The block written for the segment at index i. */
  function Block(i: nat, s: Segment): string
  {
    SegmentHeader(i) + TitleLine(s.title) + TypeLine(s.sourceType) + s.text + BlockEnd
  }

  /** The blocks of all segments, in order. */
  function Formatted(segments: seq<Segment>): (r: string)
    ensures segments != [] ==> StartsWith(r, SegmentHeader(0))
  {
    if segments == [] then ""
    else
      var n := |segments| - 1;
      var block := Block(n, segments[n]);
      assert n == 0 ==> block[..|SegmentHeader(0)|] == SegmentHeader(0);
      Formatted(segments[..n]) + block
  }

  /** formatRetrievedContext: the StringBuilder loop. */
  method FormatRetrievedContext(segments: seq<Segment>) returns (r: string)
    ensures r == Formatted(segments)
  {
    r := "";
    var i := 0;
    while i < |segments|
      invariant 0 <= i <= |segments|
      invariant r == Formatted(segments[..i])
    {
      assert segments[..i + 1][..i] == segments[..i];
      r := AppendSegment(r, i, segments[i]);
      i := i + 1;
    }
    assert segments[..i] == segments;
  }

  /** One pass of the loop: the header, the metadata lines, the text. */
  method AppendSegment(builder: string, i: nat, segment: Segment) returns (r: string)
    ensures r == builder + Block(i, segment)
  {
    r := builder + SegmentLabel + NatToString(i + 1) + HeaderEnd;
    if segment.title.Some? {
      r := r + TitleLabel + segment.title.value + LineEnd;
    }
    var titled := r;
    assert titled == builder + SegmentHeader(i) + TitleLine(segment.title);
    if segment.sourceType.Some? {
      var sourceType := segment.sourceType.value;
      if sourceType == "scene" {
        r := r + SceneType;
      } else if sourceType == "novel_metadata" {
        r := r + MetadataType;
      } else {
        r := r + TypeLabel + sourceType + LineEnd;
        assert r == titled + (TypeLabel + sourceType + LineEnd);
      }
    }
    assert r == titled + TypeLine(segment.sourceType);
    var lines := SegmentHeader(i) + TitleLine(segment.title) + TypeLine(segment.sourceType);
    JoinAfter(builder, SegmentHeader(i), TitleLine(segment.title), TypeLine(segment.sourceType));
    r := r + segment.text + BlockEnd;
    JoinAfter(builder, lines, segment.text, BlockEnd);
  }

  lemma JoinAfter(a: string, b: string, c: string, d: string)
    ensures a + b + c + d == a + (b + c + d)
  {
  }

  /** Block i starts with "段落 #(i+1):\n" and ends with the segment's text and a
      blank line; a scene segment is labelled "类型: 场景" after its title line. */
  lemma BlockShape(i: nat, s: Segment)
    ensures StartsWith(Block(i, s), SegmentLabel + NatToString(i + 1) + HeaderEnd)
    ensures EndsWith(Block(i, s), s.text + BlockEnd)
    ensures s.sourceType == Some("scene") ==>
      OccursAt(Block(i, s), SceneType, |SegmentHeader(i)| + |TitleLine(s.title)|)
  {
    var b := Block(i, s);
    var h := SegmentHeader(i);
    var t := TitleLine(s.title);
    assert b == h + (t + TypeLine(s.sourceType) + s.text + BlockEnd);
    assert b[..|h|] == h;
    var tail := s.text + BlockEnd;
    assert b == (h + t + TypeLine(s.sourceType)) + tail;
    assert b[|b| - |tail|..] == tail;
    if s.sourceType == Some("scene") {
      var ty := SceneType;
      assert b == (h + t) + ty + tail;
      assert b[|h| + |t|..|h| + |t| + |ty|] == ty;
    }
  }

  /** The text of the first i segments, then block i, open the whole text. */
  lemma {:induction false} BlockInPlace(segments: seq<Segment>, i: nat)
    requires i < |segments|
    ensures StartsWith(Formatted(segments), Formatted(segments[..i]) + Block(i, segments[i]))
  {
    var n := |segments|;
    var init := segments[..n - 1];
    assert Formatted(segments) == Formatted(init) + Block(n - 1, segments[n - 1]);
    if i == n - 1 {
      assert init == segments[..i];
    } else {
      BlockInPlace(init, i);
      assert init[..i] == segments[..i] && init[i] == segments[i];
      PrefixOfAppend(Formatted(init), Block(n - 1, segments[n - 1]),
                     Formatted(segments[..i]) + Block(i, segments[i]));
    }
  }

  lemma PrefixOfAppend(a: string, b: string, p: string)
    requires StartsWith(a, p)
    ensures StartsWith(a + b, p)
  {
    assert (a + b)[..|p|] == a[..|p|];
  }

  /** Retrieved segments always give a non-empty context. */
  lemma FormattedNonEmpty(segments: seq<Segment>)
    requires segments != []
    ensures Formatted(segments) != ""
  {
    var n := |segments|;
    assert |Block(n - 1, segments[n - 1])| >= |SegmentHeader(n - 1)| > 0;
  }

  // ------------------------------------------------------------ enrichment

  /** The system message that carries some context. */
  function ContextMessage(context: string): Message { Message("system", ContextIntro + context) }

  /** The context message inserted at the head of the conversation (both
      branches of the source, the empty list and add(0, …), do the same). */
  function WithContextMessage(request: AIRequest, context: string): (r: AIRequest)
    ensures |r.messages| == |request.messages| + 1
    ensures r.messages[0] == ContextMessage(context) && r.messages[1..] == request.messages
    ensures r.(messages := request.messages) == request
  {
    request.(messages := [ContextMessage(context)] + request.messages)
  }

  /** RAG is on when metadata maps "enableRag" to a text equal to "true" ignoring case. */
  predicate RagEnabled(metadata: map<string, string>)
    ensures RagEnabled(metadata) ==> "enableRag" in metadata && |metadata["enableRag"]| == 4
    ensures "enableRag" in metadata && metadata["enableRag"] == "TRUE" ==> RagEnabled(metadata)
  {
    "enableRag" in metadata && EqualsIgnoreCase(metadata["enableRag"], "true")
  }

  /** What the content retriever did. */
  datatype RagOutcome = RagFailed | Retrieved(segments: seq<Segment>)

  /** What the knowledge service returned: an error, no value, or a context. */
  datatype KnowledgeOutcome = KnowledgeFailed | NoKnowledge | Knowledge(context: string)

  /** getNovelContextFromDatabase: a non-empty context is inserted, anything
      else leaves the request as it was. */
  function FromDatabase(request: AIRequest, knowledge: KnowledgeOutcome): (r: AIRequest)
    ensures knowledge.Knowledge? && knowledge.context != "" <==> GainedContext(request, r)
    ensures r.messages == request.messages ==> r == request
    ensures r.(messages := request.messages) == request
  {
    if knowledge.Knowledge? && knowledge.context != "" then WithContextMessage(request, knowledge.context)
    else request
  }

  /** enrichRequestWithContext. */
  function Enrich(request: AIRequest, rag: RagOutcome, knowledge: KnowledgeOutcome): (r: AIRequest)
    ensures r.messages == request.messages ==> r == request
    ensures !RagEnabled(request.metadata) ==> r.metadata == request.metadata
  {
    if request.novelId.None? || request.novelId.value == "" then request
    else if !RagEnabled(request.metadata) then FromDatabase(request, knowledge)
    else if ExtractQueryText(request) == "" then FromDatabase(request, knowledge)
    else match rag
      case RagFailed => FromDatabase(request, knowledge)
      case Retrieved(segments) =>
        if segments == [] then request
        else WithContextMessage(request, Formatted(segments)).(metadata := request.metadata["usedRag" := "true"])
  }

  /** The request gained one leading system message that opens with the context intro. */
  predicate GainedContext(request: AIRequest, r: AIRequest)
  {
    |r.messages| == |request.messages| + 1 && r.messages[1..] == request.messages
    && r.messages[0].role == "system" && StartsWith(r.messages[0].content, ContextIntro)
    && |r.messages[0].content| > |ContextIntro|
  }

  /** Enrichment changes at most the messages and the metadata: it leaves the
      request alone without a novel id, and otherwise either leaves it alone
      or inserts one non-empty context message at index 0; "usedRag" is set
      only on the retrieval path, and only together with a context message. */
  lemma EnrichOutcome(request: AIRequest, rag: RagOutcome, knowledge: KnowledgeOutcome)
    ensures var r := Enrich(request, rag, knowledge);
      r.(messages := request.messages, metadata := request.metadata) == request
    ensures var r := Enrich(request, rag, knowledge);
      r.messages == request.messages || GainedContext(request, r)
    ensures request.novelId.None? || request.novelId == Some("") ==> Enrich(request, rag, knowledge) == request
    ensures var r := Enrich(request, rag, knowledge);
      r.metadata != request.metadata ==>
        (RagEnabled(request.metadata) && rag.Retrieved? && GainedContext(request, r)
         && r.metadata == request.metadata["usedRag" := "true"])
  {
    var r := Enrich(request, rag, knowledge);
    if r.messages != request.messages {
      var c := r.messages[0].content;
      assert c[..|ContextIntro|] == ContextIntro;
      if rag.Retrieved? && rag.segments != [] && r.metadata != request.metadata {
        FormattedNonEmpty(rag.segments);
      }
    }
  }

  // ------------------------------------------------------------ next outlines

  const OutlineAdvisor: string := "你是一位专业的小说创作顾问，擅长为作者提供多样化的剧情发展选项。请确保每个选项都有明显的差异，提供真正不同的故事发展方向。"

  /** generateNextOutlines defaults: 3 options when none is given. */
  function OptionsCount(numberOfOptions: Option<int>): (n: int)
    ensures numberOfOptions.None? ==> n == 3
    ensures numberOfOptions.Some? ==> n == numberOfOptions.value
  {
    numberOfOptions.GetOr(3)
  }

  /** The text that replaces {{authorGuidance}}. */
  function GuidanceText(guidance: Option<string>): string
  {
    var g := guidance.GetOr("");
    if g == "" then "" else "作者引导：" + g
  }

  /** A missing or empty guidance leaves nothing; any other is the prefix then the guidance. */
  lemma GuidanceRendering(guidance: Option<string>)
    ensures GuidanceText(guidance) == "" <==> guidance.None? || guidance.value == ""
    ensures guidance.Some? && guidance.value != "" ==>
      StartsWith(GuidanceText(guidance), "作者引导：")
      && GuidanceText(guidance)[|"作者引导："|..] == guidance.value
  {
  }

  /** The outline prompt: every {{context}}, then every {{numberOfOptions}}, then
      every {{authorGuidance}} of the template replaced, in that order. */
  function OutlinePrompt(template: string, currentContext: string, numberOfOptions: Option<int>,
                         guidance: Option<string>): string
  {
    ReplaceAll(ReplaceAll(ReplaceAll(template, "{{context}}", currentContext),
                          "{{numberOfOptions}}", IntToString(OptionsCount(numberOfOptions))),
               "{{authorGuidance}}", GuidanceText(guidance))
  }

  /** createNextOutlinesGenerationRequest, given the prompt template. */
  function NextOutlinesRequest(template: string, novelId: Option<string>, currentContext: string,
                               numberOfOptions: Option<int>, guidance: Option<string>): (r: AIRequest)
    ensures r.temperature == Some(0.8) && r.maxTokens == Some(2000) && r.enableContext == Some(true)
    ensures r.novelId == novelId && |r.messages| == 2
    ensures r.messages[0] == Message("system", OutlineAdvisor)
    ensures r.messages[1] == Message("user", OutlinePrompt(template, currentContext, numberOfOptions, guidance))
  {
    var prompt := OutlinePrompt(template, currentContext, numberOfOptions, guidance);
    NewRequest.(novelId := novelId, enableContext := Some(true), temperature := Some(0.8), maxTokens := Some(2000),
                messages := [Message("system", OutlineAdvisor), Message("user", prompt)])
  }

  /** A template without placeholders is sent as it is, whatever the options. */
  lemma PlainTemplateSentAsIs(template: string, novelId: Option<string>, currentContext: string,
                              numberOfOptions: Option<int>, guidance: Option<string>)
    requires forall i :: 0 <= i < |template| ==> template[i] != '{'
    ensures NextOutlinesRequest(template, novelId, currentContext, numberOfOptions, guidance).messages[1].content == template
  {
    var n := IntToString(OptionsCount(numberOfOptions));
    NoBraceNoPlaceholder(template, "{{context}}");
    ReplaceAbsent(template, "{{context}}", currentContext);
    NoBraceNoPlaceholder(template, "{{numberOfOptions}}");
    ReplaceAbsent(template, "{{numberOfOptions}}", n);
    NoBraceNoPlaceholder(template, "{{authorGuidance}}");
    ReplaceAbsent(template, "{{authorGuidance}}", GuidanceText(guidance));
  }

  /** A template that is only the guidance placeholder is sent as the rendered
      guidance: empty without guidance, the prefixed guidance otherwise. */
  lemma GuidanceOnlyTemplate(novelId: Option<string>, currentContext: string,
                             numberOfOptions: Option<int>, guidance: Option<string>)
    ensures NextOutlinesRequest("{{authorGuidance}}", novelId, currentContext, numberOfOptions, guidance)
              .messages[1].content == GuidanceText(guidance)
  {
    var t := "{{authorGuidance}}";
    GuidancePlaceholderOnly(t);
    ReplaceAbsent(t, "{{context}}", currentContext);
    ReplaceAbsent(t, "{{numberOfOptions}}", IntToString(OptionsCount(numberOfOptions)));
    ReplaceWhole(t, GuidanceText(guidance));
  }

  /** The guidance placeholder holds neither of the other two. */
  lemma GuidancePlaceholderOnly(t: string)
    requires t == "{{authorGuidance}}"
    ensures forall i :: 0 <= i < |t| ==> !StartsWith(t[i..], "{{context}}") && !StartsWith(t[i..], "{{numberOfOptions}}")
  {
    forall i | 0 <= i < |t|
      ensures !StartsWith(t[i..], "{{context}}") && !StartsWith(t[i..], "{{numberOfOptions}}")
    {
      if i < 2 {
        assert |t[i..]| > 2 && t[i..][2] == t[i + 2] && t[i + 2] in "au";
      } else {
        assert t[i..][0] == t[i] && t[i] in "authorGuidance}";
      }
    }
  }

  /** Replacing a whole non-empty text by itself gives the replacement. */
  lemma ReplaceWhole(t: string, repl: string)
    requires t != []
    ensures ReplaceAll(t, t, repl) == repl
  {
    assert StartsWith(t, t);
    assert t[|t|..] == [];
  }

  lemma NoBraceNoPlaceholder(s: string, target: string)
    requires forall i :: 0 <= i < |s| ==> s[i] != '{'
    requires target != [] && target[0] == '{'
    ensures forall i :: 0 <= i < |s| ==> !StartsWith(s[i..], target)
  {
    forall i | 0 <= i < |s|
      ensures !StartsWith(s[i..], target)
    {
      assert s[i..][0] == s[i];
    }
  }

  // ------------------------------------------------------------ provider cache

  /** A user's model configuration, as getOrCreateAIModelProvider reads it. */
  datatype ModelConfig = ModelConfig(provider: Option<string>, modelName: Option<string>,
                                     apiKey: Option<string>, apiEndpoint: Option<string>)

  /** A provider made by the factory from these arguments. */
  datatype ProviderInstance = ProviderInstance(provider: string, model: string,
                                               apiKey: Option<string>, apiEndpoint: Option<string>)

  /** What createAIModelProvider did. */
  datatype CreateOutcome = Created | CreatedNull | CreateThrew

  const InvalidConfig: string := "无效的AI模型配置"
  const DecryptFailed: string := "创建AI模型提供商失败，无法解密API Key"
  const CreateNullPrefix: string := "无法创建AI模型提供商: "
  const CreateFailed: string := "创建AI模型提供商失败"
  const NoDefaultConfig: string := "用户没有配置默认AI模型或默认配置无效"
  const NoNamedConfigPrefix: string := "找不到指定的AI模型配置: "

  type Cache = map<string, map<string, ProviderInstance>>

  /** The cache key of a provider and model. */
  function CacheKey(provider: string, model: string): (k: string)
    ensures |k| == |provider| + 1 + |model| && k[|provider|] == ':'
    ensures k[..|provider|] == provider && k[|provider| + 1..] == model
  {
    provider + ":" + model
  }

  /** Provider names without a colon give distinct keys to distinct pairs,
      whatever colons the model names hold. */
  lemma CacheKeyInjective(p1: string, m1: string, p2: string, m2: string)
    requires ':' !in p1 && ':' !in p2
    requires CacheKey(p1, m1) == CacheKey(p2, m2)
    ensures p1 == p2 && m1 == m2
  {
    var k := CacheKey(p1, m1);
    assert k[|p1|] == ':' && CacheKey(p2, m2)[|p2|] == ':';
    if |p1| < |p2| {
      assert false;
    } else if |p2| < |p1| {
      assert false;
    }
    assert p1 == k[..|p1|] && p2 == CacheKey(p2, m2)[..|p2|];
    assert m1 == k[|p1| + 1..] && m2 == CacheKey(p2, m2)[|p2| + 1..];
  }

  /** The user's provider map, as computeIfAbsent yields it. */
  function UserMap(cache: Cache, userId: string): map<string, ProviderInstance>
  {
    if userId in cache then cache[userId] else map[]
  }

  /** getOrCreateAIModelProvider: its result and the cache after it. */
  function Fetched(cache: Cache, userId: string, config: ModelConfig,
                   decrypted: Option<string>, create: CreateOutcome): (r: (Result<ProviderInstance>, Cache))
    ensures r.0.Err? ==> r.1 - {userId} == cache - {userId} && UserMap(r.1, userId) == UserMap(cache, userId)
    ensures r.0.Err? && !ValidConfig(config) ==> r.1 == cache
  {
    if config.provider.None? || config.modelName.None? then (Err(Thrown(IllegalArgument, InvalidConfig)), cache)
    else
      var userMap := UserMap(cache, userId);
      var withUser := if userId in cache then cache else cache[userId := map[]];
      var key := CacheKey(config.provider.value, config.modelName.value);
      if key in userMap then (Ok(userMap[key]), withUser)
      else
        var encrypted := config.apiKey;
        var needsKey := encrypted.Some? && !IsBlank(encrypted.value);
        if needsKey && decrypted.None? then (Err(Exception(Runtime, Some(DecryptFailed), None, [])), withUser)
        else
          var plain := if needsKey then decrypted else None;
          var made := ProviderInstance(config.provider.value, config.modelName.value, plain, config.apiEndpoint);
          match create
          case Created => (Ok(made), withUser[userId := userMap[key := made]])
          case CreatedNull => (Err(Thrown(IllegalArgument, CreateNullPrefix + config.provider.value)), withUser)
          case CreateThrew => (Err(Exception(Runtime, Some(CreateFailed), None, [])), withUser)
  }

  predicate ValidConfig(config: ModelConfig) { config.provider.Some? && config.modelName.Some? }

  /** A config without provider or model is refused before the cache is touched;
      a cached provider is returned as it is, without decrypting or creating. */
  lemma InvalidConfigRefused(cache: Cache, userId: string, config: ModelConfig,
                             decrypted: Option<string>, create: CreateOutcome)
    requires !ValidConfig(config)
    ensures Fetched(cache, userId, config, decrypted, create) == (Err(Thrown(IllegalArgument, InvalidConfig)), cache)
  {
  }

  lemma HitReturnsCached(cache: Cache, userId: string, config: ModelConfig,
                         decrypted: Option<string>, create: CreateOutcome)
    requires ValidConfig(config) && userId in cache
    requires CacheKey(config.provider.value, config.modelName.value) in cache[userId]
    ensures Fetched(cache, userId, config, decrypted, create)
      == (Ok(cache[userId][CacheKey(config.provider.value, config.modelName.value)]), cache)
  {
  }

  /** Whatever it returns, a valid config leaves the user with an entry (maybe
      empty), and no other user's entry changes; a provider returned is the one
      cached under the config's key, so the next call returns it again. */
  lemma FetchedIsCached(cache: Cache, userId: string, config: ModelConfig,
                        decrypted: Option<string>, create: CreateOutcome)
    ensures var (r, after) := Fetched(cache, userId, config, decrypted, create);
      (ValidConfig(config) ==> userId in after)
      && after - {userId} == cache - {userId}
      && (r.Ok? ==> (ValidConfig(config) && userId in after
          && after[userId] == UserMap(cache, userId)[CacheKey(config.provider.value, config.modelName.value) := r.value]))
  {
  }

  lemma SecondFetchHits(cache: Cache, userId: string, config: ModelConfig,
                        decrypted: Option<string>, create: CreateOutcome,
                        decrypted': Option<string>, create': CreateOutcome)
    requires Fetched(cache, userId, config, decrypted, create).0.Ok?
    ensures var (r, after) := Fetched(cache, userId, config, decrypted, create);
      Fetched(after, userId, config, decrypted', create') == (r, after)
  {
    FetchedIsCached(cache, userId, config, decrypted, create);
  }

  /** A new provider gets the decrypted key only when the stored key is not
      blank; a blank or missing key is passed on as null. */
  lemma CreatedWithDecryptedKey(cache: Cache, userId: string, config: ModelConfig,
                                decrypted: Option<string>, create: CreateOutcome)
    requires ValidConfig(config) && CacheKey(config.provider.value, config.modelName.value) !in UserMap(cache, userId)
    requires Fetched(cache, userId, config, decrypted, create).0.Ok?
    ensures var p := Fetched(cache, userId, config, decrypted, create).0.value;
      p.provider == config.provider.value && p.model == config.modelName.value
      && p.apiEndpoint == config.apiEndpoint
      && (config.apiKey.Some? && !IsBlank(config.apiKey.value) ==> p.apiKey == decrypted && decrypted.Some?)
      && (config.apiKey.None? || IsBlank(config.apiKey.value) ==> p.apiKey.None?)
  {
  }

  /** The index of the first config with this model name. */
  function FirstWithModel(configs: seq<ModelConfig>, modelName: string): (r: Option<nat>)
    ensures r.Some? ==> r.value < |configs|
  {
    if configs == [] then None
    else if configs[0].modelName == Some(modelName) then Some(0)
    else match FirstWithModel(configs[1..], modelName)
      case None => None
      case Some(i) => Some(i + 1)
  }

  lemma {:induction false} FirstWithModelIsFirst(configs: seq<ModelConfig>, modelName: string)
    ensures var r := FirstWithModel(configs, modelName);
      (r.Some? ==> (configs[r.value].modelName == Some(modelName)
         && forall j :: 0 <= j < r.value ==> configs[j].modelName != Some(modelName)))
      && (r.None? ==> forall j :: 0 <= j < |configs| ==> configs[j].modelName != Some(modelName))
  {
    if configs != [] && configs[0].modelName != Some(modelName) {
      FirstWithModelIsFirst(configs[1..], modelName);
      forall j | 1 <= j < |configs| ensures configs[j] == configs[1..][j - 1] { }
    }
  }

  /** The config getAIModelProvider uses: the validated default when no model
      name is given, otherwise the first config with that model name. */
  function ChosenConfig(modelName: Option<string>, defaultConfig: Option<ModelConfig>,
                        configs: seq<ModelConfig>): (r: Result<ModelConfig>)
    ensures r.Err? ==> r.error.kind == IllegalArgument
    ensures r.Ok? && (modelName.None? || modelName.value == "") ==> defaultConfig == Some(r.value)
    ensures r.Err? && modelName.Some? && modelName.value != "" ==>
      forall c :: c in configs ==> c.modelName != modelName
  {
    if modelName.None? || modelName.value == "" then
      if defaultConfig.None? then Err(Thrown(IllegalArgument, NoDefaultConfig)) else Ok(defaultConfig.value)
    else
      FirstWithModelIsFirst(configs, modelName.value);
      match FirstWithModel(configs, modelName.value)
      case None => Err(Thrown(IllegalArgument, NoNamedConfigPrefix + modelName.value))
      case Some(i) => Ok(configs[i])
  }

  /** A named model never falls back to the default config, and a missing
      name never looks at the listed ones. */
  lemma ChosenConfigSource(modelName: Option<string>, defaultConfig: Option<ModelConfig>, configs: seq<ModelConfig>)
    ensures modelName.Some? && modelName.value != "" && ChosenConfig(modelName, defaultConfig, configs).Ok? ==>
      ChosenConfig(modelName, defaultConfig, configs).value in configs
      && ChosenConfig(modelName, defaultConfig, configs).value.modelName == modelName
    ensures (modelName.None? || modelName == Some("")) ==>
      ChosenConfig(modelName, defaultConfig, configs)
        == (if defaultConfig.None? then Err(Thrown(IllegalArgument, NoDefaultConfig)) else Ok(defaultConfig.value))
  {
    if modelName.Some? && modelName.value != "" {
      FirstWithModelIsFirst(configs, modelName.value);
    }
  }

  /** The userProviders map of the service. */
  class ProviderCache {
    var userProviders: Cache

    constructor ()
      ensures userProviders == map[]
    {
      userProviders := map[];
    }

    /** getOrCreateAIModelProvider. */
    method GetOrCreate(userId: string, config: ModelConfig, decrypted: Option<string>, create: CreateOutcome)
      returns (r: Result<ProviderInstance>)
      modifies this
      ensures (r, userProviders) == Fetched(old(userProviders), userId, config, decrypted, create)
    {
      if config.provider.None? || config.modelName.None? {
        return Err(Thrown(IllegalArgument, InvalidConfig));
      }
      if userId !in userProviders {
        userProviders := userProviders[userId := map[]];
      }
      var userMap := userProviders[userId];
      var key := config.provider.value + ":" + config.modelName.value;
      if key in userMap {
        return Ok(userMap[key]);
      }
      var plain: Option<string> := None;
      if config.apiKey.Some? && !IsBlank(config.apiKey.value) {
        if decrypted.None? {
          return Err(Exception(Runtime, Some(DecryptFailed), None, []));
        }
        plain := decrypted;
      }
      match create {
        case Created =>
          var made := ProviderInstance(config.provider.value, config.modelName.value, plain, config.apiEndpoint);
          userProviders := userProviders[userId := userMap[key := made]];
          r := Ok(made);
        case CreatedNull =>
          r := Err(Thrown(IllegalArgument, CreateNullPrefix + config.provider.value));
        case CreateThrew =>
          r := Err(Exception(Runtime, Some(CreateFailed), None, []));
      }
    }

    /** getAIModelProvider: choose the config, then get or create its provider. */
    method GetAIModelProvider(userId: string, modelName: Option<string>, defaultConfig: Option<ModelConfig>,
                              configs: seq<ModelConfig>, decrypted: Option<string>, create: CreateOutcome)
      returns (r: Result<ProviderInstance>)
      modifies this
      ensures ChosenConfig(modelName, defaultConfig, configs).Err? ==>
        r == Err(ChosenConfig(modelName, defaultConfig, configs).error) && userProviders == old(userProviders)
      ensures ChosenConfig(modelName, defaultConfig, configs).Ok? ==>
        (r, userProviders)
          == Fetched(old(userProviders), userId, ChosenConfig(modelName, defaultConfig, configs).value, decrypted, create)
    {
      var chosen := ChosenConfig(modelName, defaultConfig, configs);
      if chosen.Err? {
        return Err(chosen.error);
      }
      r := GetOrCreate(userId, chosen.value, decrypted, create);
    }

    /** clearUserProviderCache: only that user's entry goes. */
    method ClearUserProviderCache(userId: string)
      modifies this
      ensures userProviders == old(userProviders) - {userId}
      ensures userId !in userProviders
      ensures forall u :: u in old(userProviders) && u != userId ==> u in userProviders && userProviders[u] == old(userProviders)[u]
    {
      userProviders := userProviders - {userId};
    }

    /** clearAllProviderCache. */
    method ClearAllProviderCache()
      modifies this
      ensures userProviders == map[]
    {
      userProviders := map[];
    }

    /** setUseLangChain4j: the flag itself belongs to the AI service; the cache is emptied
        so that every provider is created again. */
    method SetUseLangChain4j(useLangChain4j: bool)
      modifies this
      ensures userProviders == map[]
    {
      ClearAllProviderCache();
    }
  }
}
