// AIServiceImpl: the fixed table of providers and their model names, the
// lookup of a model's provider, and the guards in front of the provider calls.
// The provider factory and the providers themselves are not part of this model:
// what they return is a parameter.
module AIService {
  import opened Wrappers
  import opened JStrings

  const ApiKeyRequired: string := "API密钥不能为空"
  const ModelNameRequired: string := "模型名称不能为空"
  const UnknownModelPrefix: string := "未知的或系统不支持的模型: "
  const ProviderNameRequired: string := "提供商名称不能为空"
  const UnsupportedProviderPrefix: string := "不支持的提供商: "
  const UnknownProviderPrefix: string := "未知的提供商: "
  const NoProviderPrefix: string := "无法为模型创建提供商: "

  /** A provider name with its model names. */
  type Group = (string, seq<string>)

  /** The model groups, in the order a default-sized HashMap holding these six
      keys iterates them (by bucket of String.hashCode: gemini 0, openai 1,
      anthropic 8, x-ai 10, then siliconflow and openrouter sharing bucket 11
      in insertion order). */
  const ModelGroups: seq<Group> := [
    ("gemini", GeminiModels), ("openai", OpenAIModels), ("anthropic", AnthropicModels),
    ("x-ai", XAIModels), ("siliconflow", SiliconFlowModels), ("openrouter", OpenRouterModels)
  ]

  const GeminiModels: seq<string> :=
    ["gemini-2.0-flash", "gemini-1.5-flash-latest", "gemini-1.5-pro-latest", "gemini-pro"]
  const OpenAIModels: seq<string> :=
    ["gpt-3.5-turbo", "gpt-4", "gpt-4-turbo", "google/gemini-2.5-pro-exp-03-25:free",
     "deepseek/deepseek-v3-base:free", "x-ai/grok-3-beta", "gpt-4o"]
  const AnthropicModels: seq<string> := ["claude-3-opus", "claude-3-sonnet", "claude-3-haiku"]
  const XAIModels: seq<string> :=
    ["x-ai/grok-3-beta", "x-ai/grok-3", "x-ai/grok-3-fast-beta", "x-ai/grok-3-mini-beta",
     "x-ai/grok-3-mini-fast-beta", "x-ai/grok-2-vision-1212"]
  const SiliconFlowModels: seq<string> :=
    ["deepseek-ai/DeepSeek-V3", "Qwen/Qwen2.5-32B-Instruct", "Qwen/Qwen1.5-110B-Chat",
     "google/gemma-2-9b-it", "meta-llama/Meta-Llama-3.1-70B-Instruct",
     "meta-llama/Meta-Llama-3.1-70B-Instruct"]
  const OpenRouterModels: seq<string> :=
    ["openai/gpt-3.5-turbo", "openai/gpt-4", "openai/gpt-4-turbo", "openai/gpt-4o",
     "anthropic/claude-3-opus", "anthropic/claude-3-sonnet", "anthropic/claude-3-haiku",
     "google/gemini-pro", "google/gemini-1.5-pro", "meta-llama/llama-3-70b-instruct",
     "meta-llama/llama-3-8b-instruct"]

  /** The provider is a key of the table. */
  predicate KnownProvider(key: string) { key in Providers(ModelGroups) }

  /** StringUtils.isNotBlank: present and not only whitespace. */
  predicate NotBlank(s: Option<string>) { s.Some? && !IsBlank(s.value) }

  /** Some model of the list equals the name, ignoring case. */
  predicate ListsIgnoringCase(models: seq<string>, name: string)
  {
    exists i :: 0 <= i < |models| && EqualsIgnoreCase(models[i], name)
  }

  /** The first group whose list names the model, ignoring case. */
  function FirstProvider(groups: seq<Group>, name: string): (r: Option<string>)
    ensures r.None? <==> forall k :: 0 <= k < |groups| ==> !ListsIgnoringCase(groups[k].1, name)
    ensures r.Some? ==> exists k :: 0 <= k < |groups| && groups[k].0 == r.value && ListsIgnoringCase(groups[k].1, name)
  {
    if groups == [] then None
    else if ListsIgnoringCase(groups[0].1, name) then Some(groups[0].0)
    else
      var rest := FirstProvider(groups[1..], name);
      assert forall k :: 1 <= k < |groups| ==> groups[k] == groups[1..][k - 1];
      rest
  }

  /** The first group wins: a provider earlier in the order that lists the
      model is returned even when a later one lists it too. */
  lemma FirstProviderIsEarliest(groups: seq<Group>, name: string, k: nat)
    requires k < |groups| && ListsIgnoringCase(groups[k].1, name)
    requires forall j :: 0 <= j < k ==> !ListsIgnoringCase(groups[j].1, name)
    ensures FirstProvider(groups, name) == Some(groups[k].0)
  {
    if k > 0 {
      FirstProviderIsEarliest(groups[1..], name, k - 1);
    }
  }

  /** With no match in the first group, a match in the second one wins. */
  lemma SecondGroupWins(groups: seq<Group>, name: string)
    requires |groups| >= 2 && !ListsIgnoringCase(groups[0].1, name) && ListsIgnoringCase(groups[1].1, name)
    ensures FirstProvider(groups, name) == Some(groups[1].0)
  {
    FirstProviderIsEarliest(groups, name, 1);
  }

  /** getProviderForModel: a blank name and an unknown model are
      IllegalArgumentExceptions; otherwise the first provider listing it. */
  function ProviderForModel(modelName: Option<string>): (r: Result<string>)
    ensures !NotBlank(modelName) ==> r == Err(Thrown(IllegalArgument, ModelNameRequired))
    ensures NotBlank(modelName) && r.Err? ==>
      r.error == Thrown(IllegalArgument, UnknownModelPrefix + modelName.value)
      && forall k :: 0 <= k < |ModelGroups| ==> !ListsIgnoringCase(ModelGroups[k].1, modelName.value)
    ensures r.Ok? ==>
      exists k :: 0 <= k < |ModelGroups| && ModelGroups[k].0 == r.value && ListsIgnoringCase(ModelGroups[k].1, modelName.value)
  {
    if !NotBlank(modelName) then Err(Thrown(IllegalArgument, ModelNameRequired))
    else
      var p := FirstProvider(ModelGroups, modelName.value);
      if p.Some? then Ok(p.value) else Err(Thrown(IllegalArgument, UnknownModelPrefix + modelName.value))
  }

  /** Two strings of different length, or with different first letters after
      lower-casing, are different ignoring case. */
  lemma NotSameIgnoringCase(a: string, b: string)
    requires |a| != |b| || (a != [] && b != [] && LowerChar(a[0]) != LowerChar(b[0]))
    ensures !EqualsIgnoreCase(a, b)
  {
    if |a| == |b| {
      assert ToLower(a)[0] != ToLower(b)[0];
    }
  }

  /** No gemini model has sixteen letters and starts with 'x'. */
  lemma GeminiOmits(name: string)
    requires |name| == 16 && name[0] == 'x'
    ensures !ListsIgnoringCase(GeminiModels, name)
  {
    forall i | 0 <= i < |GeminiModels| ensures !EqualsIgnoreCase(GeminiModels[i], name) {
      NotSameIgnoringCase(GeminiModels[i], name);
    }
  }

  /** "x-ai/grok-3-beta" is listed by both openai and x-ai; openai comes first
      in the map's order, so the lookup answers openai. */
  lemma GrokBetaResolvesToOpenAI(name: string)
    requires name == "x-ai/grok-3-beta"
    ensures ProviderForModel(Some(name)) == Ok("openai")
  {
    assert !IsWhitespace(name[0]);
    GeminiOmits(name);
    assert OpenAIModels[5] == name;
    assert ListsIgnoringCase(ModelGroups[1].1, name);
    assert ModelGroups[0].1 == GeminiModels;
    SecondGroupWins(ModelGroups, name);
  }

  /** getModelsForProvider: a blank name is an error, an unknown one gives no
      models, a known one (lower-cased) its list. */
  function ModelsForProvider(provider: Option<string>): (r: Result<seq<string>>)
    ensures !NotBlank(provider) ==> r == Err(Thrown(IllegalArgument, ProviderNameRequired))
    ensures NotBlank(provider) ==> r == Ok(GroupModels(ModelGroups, ToLower(provider.value)))
  {
    if !NotBlank(provider) then Err(Thrown(IllegalArgument, ProviderNameRequired))
    else Ok(GroupModels(ModelGroups, ToLower(provider.value)))
  }

  /** The models of the group with this key, or none. */
  function GroupModels(groups: seq<Group>, key: string): (r: seq<string>)
    ensures (forall k :: 0 <= k < |groups| ==> groups[k].0 != key) ==> r == []
    ensures forall k :: (0 <= k < |groups| && groups[k].0 == key
                         && forall j :: 0 <= j < k ==> groups[j].0 != key) ==> r == groups[k].1
  {
    if groups == [] then []
    else if groups[0].0 == key then groups[0].1
    else
      var rest := GroupModels(groups[1..], key);
      assert forall k :: 1 <= k < |groups| ==> groups[k] == groups[1..][k - 1];
      rest
  }

  /** The keys of the groups. */
  function Providers(groups: seq<Group>): (r: seq<string>)
    ensures |r| == |groups| && forall k :: 0 <= k < |groups| ==> r[k] == groups[k].0
  {
    if groups == [] then [] else [groups[0].0] + Providers(groups[1..])
  }

  /** getAvailableModels: every group's list, one after the other, repeats kept. */
  function AllModels(groups: seq<Group>): (r: seq<string>)
  {
    if groups == [] then [] else groups[0].1 + AllModels(groups[1..])
  }

  /** The concatenation has as many entries as the lists together, and holds
      exactly the models some group lists. */
  lemma {:induction false} AllModelsConcatenates(groups: seq<Group>, m: string)
    ensures |AllModels(groups)| == TotalModels(groups)
    ensures m in AllModels(groups) <==> exists k :: 0 <= k < |groups| && m in groups[k].1
  {
    if groups != [] {
      AllModelsConcatenates(groups[1..], m);
      if m in groups[0].1 {
        assert m in AllModels(groups);
      }
      if exists k :: 0 <= k < |groups| && m in groups[k].1 {
        var k :| 0 <= k < |groups| && m in groups[k].1;
        if k > 0 {
          assert groups[1..][k - 1] == groups[k];
        }
      }
    }
  }

  /** The number of entries over all lists. */
  function TotalModels(groups: seq<Group>): nat
  {
    if groups == [] then 0 else |groups[0].1| + TotalModels(groups[1..])
  }

  /** The available models keep repeated entries: "x-ai/grok-3-beta", listed
      by openai and by x-ai, appears twice. */
  lemma AvailableModelsKeepRepeats()
    ensures |AllModels(ModelGroups)| > 14 && AllModels(ModelGroups)[9] == AllModels(ModelGroups)[14] == "x-ai/grok-3-beta"
  {
    var t1 := AllModels(ModelGroups[1..]);
    var t2 := AllModels(ModelGroups[2..]);
    var t3 := AllModels(ModelGroups[3..]);
    assert ModelGroups[1..][1..] == ModelGroups[2..] && ModelGroups[2..][1..] == ModelGroups[3..];
    assert AllModels(ModelGroups) == GeminiModels + t1;
    assert t1 == OpenAIModels + t2;
    assert t2 == AnthropicModels + t3;
    assert t3 == XAIModels + AllModels(ModelGroups[3..][1..]);
    assert AllModels(ModelGroups)[9] == t1[5] == OpenAIModels[5];
    assert AllModels(ModelGroups)[14] == t1[10] == t2[3] == t3[0] == XAIModels[0];
  }

  /** getModelGroups: a copy of the table as a map from provider to models. */
  function ModelGroupMap(groups: seq<Group>): (r: map<string, seq<string>>)
    ensures forall key :: key in r <==> key in Providers(groups)
    ensures forall key :: key in r ==> r[key] == GroupModels(groups, key)
  {
    if groups == [] then map[] else ModelGroupMap(groups[1..])[groups[0].0 := groups[0].1]
  }

  /** The provider a content call goes to, or the error the guards raise: a
      blank key, the model lookup's error, or no provider from the factory. */
  function ContentProvider(modelName: Option<string>, apiKey: Option<string>, created: bool): (r: Result<string>)
    ensures !NotBlank(apiKey) ==> r == Err(Thrown(IllegalArgument, ApiKeyRequired))
    ensures NotBlank(apiKey) && ProviderForModel(modelName).Err? ==> r == ProviderForModel(modelName)
    ensures NotBlank(apiKey) && ProviderForModel(modelName).Ok? ==>
      r == (if created then ProviderForModel(modelName)
            else Err(Thrown(IllegalArgument, NoProviderPrefix + StringOf(modelName))))
  {
    if !NotBlank(apiKey) then Err(Thrown(IllegalArgument, ApiKeyRequired))
    else
      var p := ProviderForModel(modelName);
      if p.Err? then p
      else if !created then Err(Thrown(IllegalArgument, NoProviderPrefix + StringOf(modelName)))
      else p
  }

  /** validateApiKey: false for a blank key; an error for a provider missing
      from the table (looked up lower-cased) or one the factory cannot make;
      otherwise the provider's answer, false when it fails. */
  function ValidateApiKey(provider: string, modelName: string, apiKey: Option<string>, created: bool,
                          answer: Option<bool>): (r: Result<bool>)
    ensures !NotBlank(apiKey) ==> r == Ok(false)
    ensures NotBlank(apiKey) && !KnownProvider(ToLower(provider)) ==>
      r == Err(Thrown(IllegalArgument, UnsupportedProviderPrefix + provider))
    ensures NotBlank(apiKey) && KnownProvider(ToLower(provider)) && !created ==>
      r == Err(Thrown(IllegalArgument, "无法为模型 " + modelName + " 创建提供商实例进行验证"))
    ensures NotBlank(apiKey) && KnownProvider(ToLower(provider)) && created ==> r == Ok(answer.Some? && answer.value)
    ensures r == Ok(true) <==> NotBlank(apiKey) && KnownProvider(ToLower(provider)) && created && answer == Some(true)
    ensures r.Err? <==> NotBlank(apiKey) && (!KnownProvider(ToLower(provider)) || !created)
  {
    if !NotBlank(apiKey) then Ok(false)
    else if !KnownProvider(ToLower(provider)) then Err(Thrown(IllegalArgument, UnsupportedProviderPrefix + provider))
    else if !created then Err(Thrown(IllegalArgument, "无法为模型 " + modelName + " 创建提供商实例进行验证"))
    else Ok(answer.GetOr(false))
  }

  /** The guards of getModelInfosForProviderWithApiKey, in order; the lower-cased
      provider name when they pass. */
  function ListingWithKeyGuards(provider: Option<string>, apiKey: Option<string>): (r: Result<string>)
    ensures r.Ok? <==> NotBlank(provider) && NotBlank(apiKey) && KnownProvider(ToLower(provider.value))
    ensures r.Ok? ==> r.value == ToLower(provider.value)
    ensures !NotBlank(provider) ==> r == Err(Thrown(IllegalArgument, ProviderNameRequired))
  {
    if !NotBlank(provider) then Err(Thrown(IllegalArgument, ProviderNameRequired))
    else if !NotBlank(apiKey) then Err(Thrown(IllegalArgument, ApiKeyRequired))
    else if !KnownProvider(ToLower(provider.value)) then Err(Thrown(IllegalArgument, UnknownProviderPrefix + provider.value))
    else Ok(ToLower(provider.value))
  }

  /** A default model description (the price is left out). */
  datatype ModelInfo = ModelInfo(id: string, name: string, provider: string, description: string, maxTokens: int)

  /** getDefaultModelInfos: one basic description per listed model, in list
      order, for a lower-cased provider name. */
  function DefaultModelInfos(provider: string): (r: seq<ModelInfo>)
    ensures var models := GroupModels(ModelGroups, provider);
      |r| == |models|
      && forall i :: 0 <= i < |r| ==>
           r[i] == ModelInfo(models[i], models[i], provider, provider + "的" + models[i] + "模型", 8192)
  {
    var models := GroupModels(ModelGroups, provider);
    seq(|models|, i requires 0 <= i < |models| => ModelInfo(models[i], models[i], provider, provider + "的" + models[i] + "模型", 8192))
  }
}
