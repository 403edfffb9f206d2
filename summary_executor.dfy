// GenerateSummaryTaskExecutable: summarise one scene with the AI and write the
// summary back under optimistic locking. The store write is a compare-and-set on
// the scene's version; when it loses a race the task re-reads the scene and tries
// once more at the latest version. What another writer does to the scene while
// the AI call runs, the AI's answer, the rate limiter's verdict and the store's
// failures are parameters.
module SummaryExecution {
  import opened Wrappers
  import opened JStrings
  import opened NovelModel
  import opened SceneService

  const TaskType: string := "GENERATE_SUMMARY"
  const KeyPrefix: string := "ai_provider_"
  const EmptyContentMessage: string := "场景内容为空，无法生成摘要"
  const PermitDeniedMessage: string := "获取AI服务限流许可失败，请稍后重试"
  const NoSummaryMessage: string := "AI服务未返回有效摘要"
  const EmptySummaryMessage: string := "AI服务返回空摘要"
  /** The message of the corrected write's failure; the code as written has none. */
  const RetryFailedMessage: string := "场景摘要更新失败"

  /** GenerateSummaryParameters. */
  datatype SummaryParameters = SummaryParameters(sceneId: string, useAIEnhancement: bool)

  /** GenerateSummaryResult, without its clock readings. */
  datatype SummaryResult = SummaryResult(sceneId: string, summary: string)

  // ------------------------------------------------------------ rate limit key

  /** getRateLimitKey. modelName is what getFirstValidatedConfiguration gives:
      None for no configuration, Some(None) for one whose model name is null (the
      mapper's null result is an error), Some(Some(n)) for a model named n. */
  function RateLimitKey(useAIEnhancement: bool, modelName: Option<Option<string>>): (r: Result<string>)
    ensures r.Err? <==> useAIEnhancement && modelName == Some(None)
    ensures r.Err? ==> r.error.kind == NullPointer
    ensures r.Ok? ==> StartsWith(r.value, KeyPrefix)
  {
    if !useAIEnhancement then Ok(KeyPrefix + "default")
    else if modelName.None? then Ok(KeyPrefix + "default_model")
    else if modelName.value.None? then Err(Exception(NullPointer, None, None, []))
    else Ok(KeyPrefix + modelName.value.value)
  }

  /** The name a key is kept under: the key without its prefix. */
  function KeyedName(key: string): (n: string)
    requires StartsWith(key, KeyPrefix)
    ensures KeyPrefix + n == key
  {
    key[|KeyPrefix|..]
  }

  /** Two enhanced calls share a permit pool exactly when their models have the
      same name; a model named "default" shares the pool of the calls without AI
      enhancement, and one named "default_model" that of users with no validated
      configuration. */
  lemma RateLimitKeysSeparateModels(a: string, b: string)
    ensures RateLimitKey(true, Some(Some(a))) == RateLimitKey(true, Some(Some(b))) <==> a == b
    ensures RateLimitKey(true, Some(Some("default"))) == RateLimitKey(false, Some(Some(b)))
    ensures RateLimitKey(true, Some(Some("default_model"))) == RateLimitKey(true, None)
  {
    if RateLimitKey(true, Some(Some(a))) == RateLimitKey(true, Some(Some(b))) {
      assert KeyedName(KeyPrefix + a) == a;
      assert KeyedName(KeyPrefix + b) == b;
    }
  }

  // ------------------------------------------------------- the atomic update

  /** The update's effect on a matched scene: the summary is set and the
      version goes up by one. */
  function SummaryWritten(s: Scene, summary: string): (r: Scene)
    ensures r.summary == Some(summary) && r.version == s.version + 1
    ensures r.id == s.id && r.novelId == s.novelId && r.chapterId == s.chapterId && r.title == s.title
    ensures r.content == s.content && r.sequence == s.sequence
    ensures r.createdAt == s.createdAt && r.updatedAt == s.updatedAt
  {
    s.(summary := Some(summary), version := s.version + 1)
  }

  /** updateSceneSummaryAtomic on the store's scenes: the update matches the
      scene with this id and the expected version; a store error (an optimistic
      locking failure or any other) is a false result like a miss. */
  function CompareAndSet(scenes: map<string, Scene>, id: string, expected: int, summary: string, fails: bool)
    : (r: (map<string, Scene>, bool))
    ensures r.1 <==> !fails && id in scenes && scenes[id].version == expected
    ensures r.1 ==> r.0 == scenes[id := SummaryWritten(scenes[id], summary)]
    ensures !r.1 ==> r.0 == scenes
  {
    if !fails && id in scenes && scenes[id].version == expected then
      (scenes[id := SummaryWritten(scenes[id], summary)], true)
    else (scenes, false)
  }

  /** Optimistic locking: once a write at a version has applied, a second write
      expecting that version misses and changes nothing, whatever it carries. */
  lemma SecondWriteAtSameVersionMisses(scenes: map<string, Scene>, id: string, v: int, s1: string, s2: string,
                                       fails: bool)
    requires CompareAndSet(scenes, id, v, s1, false).1
    ensures var after := CompareAndSet(scenes, id, v, s1, false).0;
      !CompareAndSet(after, id, v, s2, fails).1 && CompareAndSet(after, id, v, s2, fails).0 == after
  {
    var after := CompareAndSet(scenes, id, v, s1, false).0;
    assert after[id].version == v + 1;
  }

  /** The write keeps every stored scene well stored. */
  lemma CompareAndSetKeepsWellStored(scenes: map<string, Scene>, id: string, expected: int, summary: string,
                                     fails: bool)
    requires forall k :: k in scenes ==> WellStored(k, scenes[k])
    ensures var m := CompareAndSet(scenes, id, expected, summary, fails).0;
      forall k :: k in m ==> WellStored(k, m[k])
  {
  }

  /** updateSceneSummaryAtomic on the scene repository. */
  method UpdateSceneSummaryAtomic(repo: SceneRepository, id: string, expected: int, summary: string, fails: bool)
    returns (updated: bool)
    requires repo.Valid()
    modifies repo
    ensures repo.Valid()
    ensures (repo.scenes, updated) == CompareAndSet(old(repo.scenes), id, expected, summary, fails)
  {
    CompareAndSetKeepsWellStored(repo.scenes, id, expected, summary, fails);
    if !fails && id in repo.scenes && repo.scenes[id].version == expected {
      repo.scenes := repo.scenes[id := SummaryWritten(repo.scenes[id], summary)];
      updated := true;
    } else {
      updated := false;
    }
  }

  // ----------------------------------------------------- writing the summary

  /** The write and its retry as written: the first write expects the version read
      before the AI call; when it misses, the scene is read again (a missing scene
      is the service's not-found error) and written at its latest version, and the
      result reports the summary whether or not that retry applied. */
  function StoreSummaryAsWritten(scenes: map<string, Scene>, id: string, readVersion: int, summary: string,
                                 firstFails: bool, retryFails: bool): (r: (map<string, Scene>, Result<SummaryResult>))
    ensures r.1.Ok? ==> r.1.value == SummaryResult(id, summary)
    ensures r.1.Err? <==> id !in scenes
  {
    var (first, updated) := CompareAndSet(scenes, id, readVersion, summary, firstFails);
    if updated then (first, Ok(SummaryResult(id, summary)))
    else if id !in scenes then (scenes, Err(Thrown(ResourceNotFound, NotFoundPrefix + id)))
    else
      var (second, _) := CompareAndSet(scenes, id, scenes[id].version, summary, retryFails);
      (second, Ok(SummaryResult(id, summary)))
  }

  /** As written, a retry that fails too still reports the summary as written: the
      scene was edited during the AI call and the store then failed the retry, and
      the stored scene keeps the other writer's summary. */
  lemma RetryFailureReportedAsStored()
    ensures var edited := Scene(Some("s"), None, None, None, Some("text"), Some("theirs"), Some(0), 2, Some(0), None);
      var r := StoreSummaryAsWritten(map["s" := edited], "s", 1, "ours", false, true);
      r.1 == Ok(SummaryResult("s", "ours")) && r.0["s"].summary == Some("theirs")
  {
  }

  /** The write and its retry, reporting success only when one of the two writes
      applied: a retry that misses is a failure the task can be retried on. */
  function StoreSummary(scenes: map<string, Scene>, id: string, readVersion: int, summary: string,
                        firstFails: bool, retryFails: bool): (r: (map<string, Scene>, Result<SummaryResult>))
    ensures r.1.Ok? ==> r.1.value == SummaryResult(id, summary)
  {
    var (first, updated) := CompareAndSet(scenes, id, readVersion, summary, firstFails);
    if updated then (first, Ok(SummaryResult(id, summary)))
    else if id !in scenes then (scenes, Err(Thrown(ResourceNotFound, NotFoundPrefix + id)))
    else
      var (second, retried) := CompareAndSet(scenes, id, scenes[id].version, summary, retryFails);
      if retried then (second, Ok(SummaryResult(id, summary)))
      else (second, Err(Thrown(Runtime, RetryFailedMessage)))
  }

  /** The corrected write reports success exactly when it changed the store, and
      then the scene holds the summary at a version past the one read and nothing
      else changed. It differs from the code as written only on a failed retry,
      which the code as written reports as a success although the store is as it
      was. */
  lemma StoredSummaryIsReported(scenes: map<string, Scene>, id: string, readVersion: int, summary: string,
                                firstFails: bool, retryFails: bool)
    requires id in scenes ==> scenes[id].version >= readVersion
    ensures var r := StoreSummary(scenes, id, readVersion, summary, firstFails, retryFails);
      && (r.1.Ok? <==> r.0 != scenes)
      && (r.1.Ok? ==> id in r.0 && r.0[id].summary == Some(summary) && r.0[id].version > readVersion
                      && r.0 == scenes[id := r.0[id]])
    ensures var r := StoreSummary(scenes, id, readVersion, summary, firstFails, retryFails);
      var w := StoreSummaryAsWritten(scenes, id, readVersion, summary, firstFails, retryFails);
      r.0 == w.0 && (r.1 != w.1 ==> r.1 == Err(Thrown(Runtime, RetryFailedMessage)) && w.1.Ok? && w.0 == scenes)
  {
    var r := StoreSummary(scenes, id, readVersion, summary, firstFails, retryFails);
    if r.1.Ok? {
      assert id in scenes && r.0[id].version == scenes[id].version + 1;
    }
  }

  // ----------------------------------------------------------------- execute

  /** What another writer does to the scene while the AI call runs: nothing
      (None), a deletion (Some(None)) or a save of a new state (Some(Some(s)). */
  function Interleaved(scenes: map<string, Scene>, id: string, edit: Option<Option<Scene>>): (m: map<string, Scene>)
    ensures edit.None? ==> m == scenes
    ensures edit == Some(None) ==> id !in m && forall k :: k in m <==> k in scenes && k != id
    ensures edit.Some? && edit.value.Some? ==> m == scenes[id := edit.value.value]
  {
    if edit.None? then scenes
    else if edit.value.None? then scenes - {id}
    else scenes[id := edit.value.value]
  }

  /** A run of the task: the key a permit was acquired under (released when the
      run ends), and the result. */
  datatype SummaryRun = SummaryRun(permitKey: Option<string>, result: Result<SummaryResult>)

  /** execute. The scene is read first (a missing one is the scene service's
      not-found error) and blank content fails before any permit or AI call. The
      rate limit key is derived, a permit is asked for under it, and the AI's
      summary must be present and not blank; then the summary is written as
      StoreSummaryAsWritten says, on the store as the other writer left it. */
  method Execute(repo: SceneRepository, params: SummaryParameters, modelName: Option<Option<string>>,
                 permit: bool, response: Option<Option<string>>, edit: Option<Option<Scene>>,
                 firstFails: bool, retryFails: bool)
    returns (run: SummaryRun)
    requires repo.Valid()
    requires edit.Some? && edit.value.Some? ==> WellStored(params.sceneId, edit.value.value)
    modifies repo
    ensures repo.Valid()
    ensures params.sceneId !in old(repo.scenes) ==>
      run == SummaryRun(None, Err(Thrown(ResourceNotFound, NotFoundPrefix + params.sceneId)))
      && repo.scenes == old(repo.scenes)
    ensures params.sceneId in old(repo.scenes) ==>
      var content := old(repo.scenes)[params.sceneId].content;
      var key := RateLimitKey(params.useAIEnhancement, modelName);
      && (content.None? || TrimEmpty(content.value) ==>
            run == SummaryRun(None, Err(Thrown(IllegalArgument, EmptyContentMessage)))
            && repo.scenes == old(repo.scenes))
      && (content.Some? && !TrimEmpty(content.value) && key.Err? ==>
            run == SummaryRun(None, Err(key.error)) && repo.scenes == old(repo.scenes))
      && (content.Some? && !TrimEmpty(content.value) && key.Ok? && !permit ==>
            run == SummaryRun(None, Err(Thrown(Runtime, PermitDeniedMessage))) && repo.scenes == old(repo.scenes))
      && (content.Some? && !TrimEmpty(content.value) && key.Ok? && permit ==> run.permitKey == Some(key.value))
    ensures params.sceneId in old(repo.scenes) && run.permitKey.Some? ==>
      && (response.None? ==>
            run.result == Err(Thrown(Runtime, NoSummaryMessage)) && repo.scenes == old(repo.scenes))
      && (response.Some? && (response.value.None? || TrimEmpty(response.value.value)) ==>
            run.result == Err(Thrown(Runtime, EmptySummaryMessage)) && repo.scenes == old(repo.scenes))
      && (response.Some? && response.value.Some? && !TrimEmpty(response.value.value) ==>
            (repo.scenes, run.result) ==
              StoreSummaryAsWritten(Interleaved(old(repo.scenes), params.sceneId, edit), params.sceneId,
                           old(repo.scenes)[params.sceneId].version, response.value.value, firstFails, retryFails))
  {
    var id := params.sceneId;
    var found := repo.FindSceneById(id);
    if found.Err? {
      return SummaryRun(None, Err(found.error));
    }
    var actualVersion := found.value.version;
    var content := found.value.content;
    if content.None? || TrimEmpty(content.value) {
      return SummaryRun(None, Err(Thrown(IllegalArgument, EmptyContentMessage)));
    }
    var key := RateLimitKey(params.useAIEnhancement, modelName);
    if key.Err? {
      return SummaryRun(None, Err(key.error));
    }
    if !permit {
      return SummaryRun(None, Err(Thrown(Runtime, PermitDeniedMessage)));
    }
    var result := WriteGenerated(repo, id, actualVersion, response, edit, firstFails, retryFails);
    run := SummaryRun(Some(key.value), result);
  }

  /** The part of execute that runs under the permit: the AI's answer is checked
      and the summary written; the retried write's outcome is not looked at, so
      the summary is reported even when the retry missed (see
      RetryFailureReportedAsStored). */
  method WriteGenerated(repo: SceneRepository, id: string, actualVersion: int, response: Option<Option<string>>,
                        edit: Option<Option<Scene>>, firstFails: bool, retryFails: bool)
    returns (r: Result<SummaryResult>)
    requires repo.Valid()
    requires edit.Some? && edit.value.Some? ==> WellStored(id, edit.value.value)
    modifies repo
    ensures repo.Valid()
    ensures response.None? ==> r == Err(Thrown(Runtime, NoSummaryMessage)) && repo.scenes == old(repo.scenes)
    ensures response.Some? && (response.value.None? || TrimEmpty(response.value.value)) ==>
      r == Err(Thrown(Runtime, EmptySummaryMessage)) && repo.scenes == old(repo.scenes)
    ensures response.Some? && response.value.Some? && !TrimEmpty(response.value.value) ==>
      (repo.scenes, r) ==
        StoreSummaryAsWritten(Interleaved(old(repo.scenes), id, edit), id, actualVersion, response.value.value,
                     firstFails, retryFails)
  {
    if response.None? {
      return Err(Thrown(Runtime, NoSummaryMessage));
    }
    if response.value.None? || TrimEmpty(response.value.value) {
      return Err(Thrown(Runtime, EmptySummaryMessage));
    }
    var summary := response.value.value;
    repo.scenes := Interleaved(repo.scenes, id, edit);
    var updated := UpdateSceneSummaryAtomic(repo, id, actualVersion, summary, firstFails);
    if updated {
      return Ok(SummaryResult(id, summary));
    }
    var latest := repo.FindSceneById(id);
    if latest.Err? {
      return Err(latest.error);
    }
    var _ := UpdateSceneSummaryAtomic(repo, id, latest.value.version, summary, retryFails);
    r := Ok(SummaryResult(id, summary));
  }
}
