// PromptTemplateDto and PromptTemplateController: the camel-case wire names of
// the feature types, the DTO built from a template, and the controller's parsing
// of feature types and optimisation styles.
module PromptTemplateWeb {
  import opened Wrappers
  import opened PromptTemplates

  const InvalidFeaturePrefix: string := "无效的功能类型: "
  const InvalidStylePrefix: string := "无效的优化风格: "

  /** The optimisation styles the controller names. */
  datatype OptimizationStyle = PROFESSIONAL | CREATIVE | CONCISE
  {
    /** name(). */
    function Name(): (n: string)
      ensures n != []
    {
      match this
      case PROFESSIONAL => "PROFESSIONAL"
      case CREATIVE => "CREATIVE"
      case CONCISE => "CONCISE"
    }
  }

  /** PromptTemplateDto, without its times. */
  datatype PromptTemplateDto = PromptTemplateDto(id: string, name: string, content: string, featureType: string,
                                                 isPublic: bool, authorId: Option<string>,
                                                 sourceTemplateId: Option<string>, isVerified: bool,
                                                 isFavorite: bool)

  /** featureTypeToString: the two features by their camel-case names. Its
      fallback to the constant's name is reached by no constant of AIFeatureType. */
  function FeatureTypeToString(f: AIFeatureType): (s: string)
    ensures s != f.Name()
  {
    match f
    case SCENE_TO_SUMMARY => "sceneToSummary"
    case SUMMARY_TO_SCENE => "summaryToScene"
  }

  /** fromEntity: every field the DTO has, with the feature by its wire name. */
  function FromEntity(t: PromptTemplate): (d: PromptTemplateDto)
    ensures d.id == t.id && d.name == t.name && d.content == t.content
    ensures d.isPublic == t.isPublic && d.authorId == t.authorId && d.sourceTemplateId == t.sourceTemplateId
    ensures d.isVerified == t.isVerified && d.isFavorite == t.isFavorite
    ensures ConvertToAIFeatureType(Some(d.featureType)) == Ok(t.featureType)
  {
    FeatureTypeRoundTrip(t.featureType, FeatureTypeToString(t.featureType));
    PromptTemplateDto(t.id, t.name, t.content, FeatureTypeToString(t.featureType), t.isPublic, t.authorId,
                      t.sourceTemplateId, t.isVerified, t.isFavorite)
  }

  /** valueOf on AIFeatureType: the constant with exactly this name. */
  function FeatureByName(s: string): (r: Option<AIFeatureType>)
    ensures r.None? ==> forall f: AIFeatureType :: f.Name() != s
    ensures r.Some? ==> r.value.Name() == s
  {
    if s == "SCENE_TO_SUMMARY" then Some(SCENE_TO_SUMMARY)
    else if s == "SUMMARY_TO_SCENE" then Some(SUMMARY_TO_SCENE)
    else None
  }

  /** convertToAIFeatureType: the camel-case names, then the constant names;
      anything else, null included, is an IllegalArgumentException naming it. */
  function ConvertToAIFeatureType(s: Option<string>): (r: Result<AIFeatureType>)
    ensures r.Err? ==> r.error == Thrown(IllegalArgument, InvalidFeaturePrefix + (if s.Some? then s.value else "null"))
  {
    if s.None? then Err(Thrown(IllegalArgument, InvalidFeaturePrefix + "null"))
    else if s.value == "sceneToSummary" then Ok(SCENE_TO_SUMMARY)
    else if s.value == "summaryToScene" then Ok(SUMMARY_TO_SCENE)
    else
      var byName := FeatureByName(s.value);
      if byName.Some? then Ok(byName.value) else Err(Thrown(IllegalArgument, InvalidFeaturePrefix + s.value))
  }

  /** The controller's parse inverts featureTypeToString and also takes the
      constant's name; those are the only strings it accepts for a feature. */
  lemma FeatureTypeRoundTrip(f: AIFeatureType, s: string)
    ensures ConvertToAIFeatureType(Some(s)) == Ok(f) <==> s == FeatureTypeToString(f) || s == f.Name()
  {
  }

  /** The feature filter of the listing: applied only when a non-empty feature
      type is given, and then parsed. */
  function FeatureFilter(featureType: Option<string>): (r: Result<Option<AIFeatureType>>)
    ensures featureType.None? || featureType.value == [] ==> r == Ok(None)
    ensures featureType.Some? && featureType.value != [] ==>
      (r.Ok? <==> ConvertToAIFeatureType(featureType).Ok?)
      && (r.Ok? ==> r.value == Some(ConvertToAIFeatureType(featureType).value))
  {
    if featureType.None? || featureType.value == [] then Ok(None)
    else
      var f := ConvertToAIFeatureType(featureType);
      if f.Ok? then Ok(Some(f.value)) else Err(f.error)
  }

  /** What a listing returns: the templates the list type selects, restricted to
      the feature when a filter is given. */
  predicate ListedWithFilter(t: PromptTemplate, userId: string, listType: string, filter: Option<AIFeatureType>)
  {
    Listed(t, userId, listType) && (filter.None? || t.featureType == filter.value)
  }

  /** valueOf on OptimizationStyle. */
  function StyleByName(s: string): (r: Option<OptimizationStyle>)
    ensures r.None? ==> forall st: OptimizationStyle :: st.Name() != s
    ensures r.Some? ==> r.value.Name() == s
  {
    if s == "PROFESSIONAL" then Some(PROFESSIONAL)
    else if s == "CREATIVE" then Some(CREATIVE)
    else if s == "CONCISE" then Some(CONCISE)
    else None
  }

  /** The lower-case name the controller accepts for a style. */
  function StyleWord(st: OptimizationStyle): (w: string)
    ensures w != st.Name()
  {
    match st
    case PROFESSIONAL => "professional"
    case CREATIVE => "creative"
    case CONCISE => "concise"
  }

  /** convertToOptimizationStyle: the lower-case words, then the constant names;
      anything else, null included, is an IllegalArgumentException naming it. */
  function ConvertToOptimizationStyle(s: Option<string>): (r: Result<OptimizationStyle>)
    ensures r.Err? ==> r.error == Thrown(IllegalArgument, InvalidStylePrefix + (if s.Some? then s.value else "null"))
  {
    if s.None? then Err(Thrown(IllegalArgument, InvalidStylePrefix + "null"))
    else if s.value == "professional" then Ok(PROFESSIONAL)
    else if s.value == "creative" then Ok(CREATIVE)
    else if s.value == "concise" then Ok(CONCISE)
    else
      var byName := StyleByName(s.value);
      if byName.Some? then Ok(byName.value) else Err(Thrown(IllegalArgument, InvalidStylePrefix + s.value))
  }

  /** A style is accepted exactly by its lower-case word or its constant name. */
  lemma StyleParsing(st: OptimizationStyle, s: string)
    ensures ConvertToOptimizationStyle(Some(s)) == Ok(st) <==> s == StyleWord(st) || s == st.Name()
  {
  }
}
