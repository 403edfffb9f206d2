// PromptTemplateServiceImpl: prompt templates kept by id. Only a private
// template's author may update, delete, favourite or optimise it; only public
// templates may be copied, and a copy is private to the user who made it. The
// optimiser is a stand-in that prefixes the content. Ids the store draws and the
// clock's readings are parameters.
module PromptTemplates {
  import opened Wrappers
  import opened JStrings

  const NotFoundPrefix: string := "提示词模板不存在: "
  const UpdateDenied: string := "无权修改此模板"
  const DeleteDenied: string := "无权删除此模板"
  const CopyDenied: string := "只能复制公共模板"
  const FavoriteDenied: string := "无权收藏此模板"
  const OptimizeDenied: string := "无权优化此模板"
  const CopySuffix: string := " (复制)"
  const OptimizedPrefix: string := "优化后的内容: "

  /** AIFeatureType. */
  datatype AIFeatureType = SCENE_TO_SUMMARY | SUMMARY_TO_SCENE
  {
    /** name(). */
    function Name(): (n: string)
      ensures n != []
    {
      match this
      case SCENE_TO_SUMMARY => "SCENE_TO_SUMMARY"
      case SUMMARY_TO_SCENE => "SUMMARY_TO_SCENE"
    }
  }

  /** A prompt template as the service and its DTO read it; times are clock
      readings. */
  datatype PromptTemplate = PromptTemplate(id: string, name: string, content: string, featureType: AIFeatureType,
                                           isPublic: bool, authorId: Option<string>,
                                           sourceTemplateId: Option<string>, isVerified: bool, isFavorite: bool,
                                           createdAt: int, updatedAt: int)

  /** The owner check of update, delete, toggle and optimise: a private template
      whose author is the user. */
  predicate OwnedBy(t: PromptTemplate, userId: string)
  {
    !t.isPublic && t.authorId == Some(userId)
  }

  // ------------------------------------------------------------------ listing

  /** The criteria of getPromptTemplates for a list type already upper-cased:
      PUBLIC, PRIVATE (the user's own private ones), FAVORITE (those also marked
      favourite), and for ALL or anything else public or authored by the user. */
  predicate ListedAs(t: PromptTemplate, userId: string, kind: string)
  {
    if kind == "PUBLIC" then t.isPublic
    else if kind == "PRIVATE" then OwnedBy(t, userId)
    else if kind == "FAVORITE" then OwnedBy(t, userId) && t.isFavorite
    else t.isPublic || t.authorId == Some(userId)
  }

  /** getPromptTemplates compares the list type upper-cased. */
  predicate Listed(t: PromptTemplate, userId: string, listType: string)
  {
    ListedAs(t, userId, ToUpper(listType))
  }

  /** The listings nest: favourites are private templates of the user, and ALL
      lists what PUBLIC lists and whatever the user wrote, private or not. An
      unknown list type lists what ALL does. */
  lemma ListingsNest(t: PromptTemplate, userId: string, other: string)
    requires other !in {"PUBLIC", "PRIVATE", "FAVORITE"}
    ensures ListedAs(t, userId, "FAVORITE") ==> ListedAs(t, userId, "PRIVATE")
    ensures ListedAs(t, userId, "ALL") <==> ListedAs(t, userId, "PUBLIC") || t.authorId == Some(userId)
    ensures ListedAs(t, userId, "PRIVATE") ==> ListedAs(t, userId, "ALL")
    ensures ListedAs(t, userId, other) == ListedAs(t, userId, "ALL")
  {
  }

  // ---------------------------------------------------------------- optimise

  /** OptimizationSection. */
  datatype OptimizationSection = OptimizationSection(title: string, content: string, original: string,
                                                     sectionType: string)

  /** OptimizationStatistics, without its floating-point efficiency. */
  datatype OptimizationStatistics = OptimizationStatistics(originalTokens: int, optimizedTokens: int,
                                                           originalLength: int, optimizedLength: int)

  /** OptimizationResult. */
  datatype OptimizationResult = OptimizationResult(optimizedContent: string, sections: seq<OptimizationSection>,
                                                   statistics: OptimizationStatistics)

  /** The first fifty characters, or the whole text when it is shorter. */
  function Head50(s: string): (h: string)
    ensures |h| == if |s| < 50 then |s| else 50
    ensures h == s[..|h|]
  {
    s[..if |s| < 50 then |s| else 50]
  }

  /** The result the stand-in optimiser builds for an optimised text: one
      modified section with the heads of both texts, and the lengths with a
      quarter of each as its token estimate. */
  function ResultFor(content: string, optimized: string, title: string): (r: OptimizationResult)
    ensures r.optimizedContent == optimized && |r.sections| == 1
    ensures r.sections[0] == OptimizationSection(title, Head50(optimized), Head50(content), "modified")
    ensures r.statistics.originalLength == |content| && r.statistics.optimizedLength == |optimized|
    ensures r.statistics.originalTokens * 4 <= |content| < (r.statistics.originalTokens + 1) * 4
    ensures r.statistics.optimizedTokens * 4 <= |optimized| < (r.statistics.optimizedTokens + 1) * 4
  {
    OptimizationResult(optimized, [OptimizationSection(title, Head50(optimized), Head50(content), "modified")],
                       OptimizationStatistics(|content| / 4, |optimized| / 4, |content|, |optimized|))
  }

  /** optimizePrompt: the content behind the prefix "优化后的内容: "; a null content
      fails on its substring. */
  function OptimizePrompt(content: Option<string>): (r: Result<OptimizationResult>)
    ensures r.Err? <==> content.None?
    ensures r.Err? ==> r.error.kind == NullPointer
    ensures r.Ok? ==> (StartsWith(r.value.optimizedContent, OptimizedPrefix)
                       && r.value.optimizedContent[|OptimizedPrefix|..] == content.value
                       && |r.value.sections| == 1 && r.value.sections[0].title == "优化区块1")
  {
    if content.None? then Err(Exception(NullPointer, None, None, []))
    else Ok(ResultFor(content.value, OptimizedPrefix + content.value, "优化区块1"))
  }

  /** createProgressOptimizationResult at a progress given in percent: the
      content behind "优化完成 <p>%: ", in a section titled "进度 <p>%". */
  function ProgressResult(content: Option<string>, percent: nat): (r: Result<OptimizationResult>)
    ensures r.Err? <==> content.None?
    ensures r.Ok? ==> (EndsWith(r.value.optimizedContent, content.value)
                       && StartsWith(r.value.optimizedContent, "优化完成 " + NatToString(percent) + "%: "))
  {
    if content.None? then Err(Exception(NullPointer, None, None, []))
    else
      var optimized := "优化完成 " + NatToString(percent) + "%: " + content.value;
      Ok(ResultFor(content.value, optimized, "进度 " + NatToString(percent) + "%"))
  }

  /** optimizePromptStream: three results, at 30, 60 and 100 percent. */
  function OptimizePromptStream(content: Option<string>): (r: Result<seq<OptimizationResult>>)
    ensures r.Err? <==> content.None?
    ensures r.Ok? ==> |r.value| == 3 && r.value[2] == ProgressResult(content, 100).value
  {
    if content.None? then Err(Exception(NullPointer, None, None, []))
    else Ok([ProgressResult(content, 30).value, ProgressResult(content, 60).value, ProgressResult(content, 100).value])
  }

  // ------------------------------------------------------------------- records

  /** The template createPromptTemplate builds: private, authored by the user, not
      copied, not verified, not a favourite. */
  function NewTemplate(userId: string, name: string, content: string, featureType: AIFeatureType, id: string,
                       now: int): (t: PromptTemplate)
    ensures OwnedBy(t, userId) && t.sourceTemplateId.None? && !t.isVerified && !t.isFavorite
    ensures t.id == id && t.name == name && t.content == content && t.featureType == featureType
    ensures t.createdAt == now && t.updatedAt == now
  {
    PromptTemplate(id, name, content, featureType, false, Some(userId), None, false, false, now, now)
  }

  /** The update updatePromptTemplate applies: a name or content that is null or
      empty leaves the old one; the time is always set. */
  function Updated(t: PromptTemplate, name: Option<string>, content: Option<string>, now: int): (r: PromptTemplate)
    ensures r.name == (if name.Some? && name.value != [] then name.value else t.name)
    ensures r.content == (if content.Some? && content.value != [] then content.value else t.content)
    ensures r.updatedAt == now
    ensures r.(name := t.name, content := t.content, updatedAt := t.updatedAt) == t
  {
    t.(name := if name.Some? && name.value != [] then name.value else t.name,
       content := if content.Some? && content.value != [] then content.value else t.content,
       updatedAt := now)
  }

  /** The copy copyPublicTemplate builds: the name with " (复制)" appended, the
      same content and feature, private to the user, pointing at its source. */
  function CopyOf(t: PromptTemplate, userId: string, id: string, now: int): (c: PromptTemplate)
    ensures OwnedBy(c, userId) && c.sourceTemplateId == Some(t.id) && !c.isVerified && !c.isFavorite
    ensures c.name == t.name + CopySuffix && c.content == t.content && c.featureType == t.featureType
    ensures c.id == id && c.createdAt == now && c.updatedAt == now
  {
    NewTemplate(userId, t.name + CopySuffix, t.content, t.featureType, id, now).(sourceTemplateId := Some(t.id))
  }

  /** The update toggleTemplateFavorite applies. */
  function Toggled(t: PromptTemplate, now: int): (r: PromptTemplate)
    ensures r.isFavorite == !t.isFavorite && r.updatedAt == now
    ensures r.(isFavorite := t.isFavorite, updatedAt := t.updatedAt) == t
  {
    t.(isFavorite := !t.isFavorite, updatedAt := now)
  }

  /** Updates and toggles keep who owns a template; toggling twice restores the
      flag. */
  lemma EditsKeepOwnership(t: PromptTemplate, userId: string, name: Option<string>, content: Option<string>,
                           now: int, later: int)
    ensures OwnedBy(Updated(t, name, content, now), userId) == OwnedBy(t, userId)
    ensures OwnedBy(Toggled(t, now), userId) == OwnedBy(t, userId)
    ensures Toggled(Toggled(t, now), later) == t.(updatedAt := later)
  {
  }

  // ------------------------------------------------------------------- store

  /** The template repository with the service's operations on it. */
  class PromptTemplateStore {
    var templates: map<string, PromptTemplate>

    /** Every template is stored under its id. */
    ghost predicate Valid()
      reads this
    {
      forall k :: k in templates ==> templates[k].id == k
    }

    constructor ()
      ensures templates == map[] && Valid()
    {
      templates := map[];
    }

    /** getPromptTemplateById: the stored template, or an IllegalArgumentException. */
    function GetById(id: string): (r: Result<PromptTemplate>)
      reads this
      ensures r.Ok? <==> id in templates
      ensures r.Ok? ==> r.value == templates[id]
      ensures r.Err? ==> r.error == Thrown(IllegalArgument, NotFoundPrefix + id)
    {
      if id in templates then Ok(templates[id]) else Err(Thrown(IllegalArgument, NotFoundPrefix + id))
    }

    /** createPromptTemplate. */
    method Create(userId: string, name: string, content: string, featureType: AIFeatureType, id: string, now: int)
      returns (saved: PromptTemplate)
      requires Valid()
      modifies this
      ensures Valid()
      ensures saved == NewTemplate(userId, name, content, featureType, id, now)
      ensures templates == old(templates)[id := saved]
    {
      saved := NewTemplate(userId, name, content, featureType, id, now);
      templates := templates[id := saved];
    }

    /** updatePromptTemplate: an unknown id, then a template the user does not own,
        fail and change nothing; otherwise the update is applied and the stored
        template read back. */
    method Update(userId: string, id: string, name: Option<string>, content: Option<string>, now: int)
      returns (r: Result<PromptTemplate>)
      requires Valid()
      modifies this
      ensures Valid()
      ensures id !in old(templates) ==> r == Err(Thrown(IllegalArgument, NotFoundPrefix + id))
      ensures id in old(templates) && !OwnedBy(old(templates)[id], userId) ==>
        r == Err(Thrown(IllegalArgument, UpdateDenied))
      ensures r.Err? ==> templates == old(templates)
      ensures id in old(templates) && OwnedBy(old(templates)[id], userId) ==>
        r == Ok(Updated(old(templates)[id], name, content, now)) && templates == old(templates)[id := r.value]
    {
      var found := GetById(id);
      if found.Err? {
        return found;
      }
      if !OwnedBy(found.value, userId) {
        return Err(Thrown(IllegalArgument, UpdateDenied));
      }
      templates := templates[id := Updated(found.value, name, content, now)];
      r := GetById(id);
    }

    /** deletePromptTemplate: only the owner of a private template removes it. */
    method Delete(userId: string, id: string) returns (r: Result<()>)
      requires Valid()
      modifies this
      ensures Valid()
      ensures id !in old(templates) ==> r == Err(Thrown(IllegalArgument, NotFoundPrefix + id))
      ensures id in old(templates) && !OwnedBy(old(templates)[id], userId) ==>
        r == Err(Thrown(IllegalArgument, DeleteDenied))
      ensures r.Err? ==> templates == old(templates)
      ensures id in old(templates) && OwnedBy(old(templates)[id], userId) ==>
        r.Ok? && templates == old(templates) - {id}
    {
      var found := GetById(id);
      if found.Err? {
        return Err(found.error);
      }
      if !OwnedBy(found.value, userId) {
        return Err(Thrown(IllegalArgument, DeleteDenied));
      }
      templates := templates - {found.value.id};
      r := Ok(());
    }

    /** copyPublicTemplate: only a public template is copied, under a new id. */
    method Copy(userId: string, id: string, newId: string, now: int) returns (r: Result<PromptTemplate>)
      requires Valid()
      modifies this
      ensures Valid()
      ensures id !in old(templates) ==> r == Err(Thrown(IllegalArgument, NotFoundPrefix + id))
      ensures id in old(templates) && !old(templates)[id].isPublic ==> r == Err(Thrown(IllegalArgument, CopyDenied))
      ensures r.Err? ==> templates == old(templates)
      ensures id in old(templates) && old(templates)[id].isPublic ==>
        r == Ok(CopyOf(old(templates)[id], userId, newId, now)) && templates == old(templates)[newId := r.value]
    {
      var found := GetById(id);
      if found.Err? {
        return found;
      }
      if !found.value.isPublic {
        return Err(Thrown(IllegalArgument, CopyDenied));
      }
      var copy := CopyOf(found.value, userId, newId, now);
      templates := templates[newId := copy];
      r := Ok(copy);
    }

    /** toggleTemplateFavorite: only the owner flips the flag. */
    method ToggleFavorite(userId: string, id: string, now: int) returns (r: Result<PromptTemplate>)
      requires Valid()
      modifies this
      ensures Valid()
      ensures id !in old(templates) ==> r == Err(Thrown(IllegalArgument, NotFoundPrefix + id))
      ensures id in old(templates) && !OwnedBy(old(templates)[id], userId) ==>
        r == Err(Thrown(IllegalArgument, FavoriteDenied))
      ensures r.Err? ==> templates == old(templates)
      ensures id in old(templates) && OwnedBy(old(templates)[id], userId) ==>
        r == Ok(Toggled(old(templates)[id], now)) && templates == old(templates)[id := r.value]
    {
      var found := GetById(id);
      if found.Err? {
        return found;
      }
      if !OwnedBy(found.value, userId) {
        return Err(Thrown(IllegalArgument, FavoriteDenied));
      }
      templates := templates[id := Toggled(found.value, now)];
      r := GetById(id);
    }

    /** optimizePromptTemplate: for the owner, the optimised content replaces the
        template's content. */
    method Optimize(userId: string, id: string, content: Option<string>, now: int)
      returns (r: Result<OptimizationResult>)
      requires Valid()
      modifies this
      ensures Valid()
      ensures id !in old(templates) ==> r == Err(Thrown(IllegalArgument, NotFoundPrefix + id))
      ensures id in old(templates) && !OwnedBy(old(templates)[id], userId) ==>
        r == Err(Thrown(IllegalArgument, OptimizeDenied))
      ensures r.Err? ==> templates == old(templates)
      ensures id in old(templates) && OwnedBy(old(templates)[id], userId) ==>
        r == OptimizePrompt(content)
        && (r.Ok? ==> templates == old(templates)[id := old(templates)[id].(content := r.value.optimizedContent,
                                                                          updatedAt := now)])
    {
      var found := GetById(id);
      if found.Err? {
        return Err(found.error);
      }
      if !OwnedBy(found.value, userId) {
        return Err(Thrown(IllegalArgument, OptimizeDenied));
      }
      r := OptimizePrompt(content);
      if r.Ok? {
        templates := templates[id := found.value.(content := r.value.optimizedContent, updatedAt := now)];
      }
    }

    /** optimizePromptTemplateStream: for the owner, every streamed result is saved
        into the template in turn, so the last one's content stays. */
    method OptimizeStream(userId: string, id: string, content: Option<string>, now: int)
      returns (r: Result<seq<OptimizationResult>>)
      requires Valid()
      modifies this
      ensures Valid()
      ensures id !in old(templates) ==> r == Err(Thrown(IllegalArgument, NotFoundPrefix + id))
      ensures id in old(templates) && !OwnedBy(old(templates)[id], userId) ==>
        r == Err(Thrown(IllegalArgument, OptimizeDenied))
      ensures r.Err? ==> templates == old(templates)
      ensures id in old(templates) && OwnedBy(old(templates)[id], userId) ==>
        r == OptimizePromptStream(content)
        && (r.Ok? ==> templates == old(templates)[id := old(templates)[id].(
                        content := ProgressResult(content, 100).value.optimizedContent, updatedAt := now)])
    {
      var found := GetById(id);
      if found.Err? {
        return Err(found.error);
      }
      if !OwnedBy(found.value, userId) {
        return Err(Thrown(IllegalArgument, OptimizeDenied));
      }
      r := OptimizePromptStream(content);
      if r.Err? {
        return;
      }
      var template := found.value;
      for i := 0 to |r.value|
        invariant Valid() && template.id == id
        invariant i == 0 ==> templates == old(templates) && template == found.value
        invariant i > 0 ==> template == found.value.(content := r.value[i - 1].optimizedContent, updatedAt := now)
        invariant i > 0 ==> templates == old(templates)[id := template]
      {
        template := template.(content := r.value[i].optimizedContent, updatedAt := now);
        templates := templates[id := template];
      }
    }
  }
}
