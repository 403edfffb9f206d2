// SceneServiceImpl: creating, updating and upserting scenes over the scene
// repository. The store is a map from id to scene; the clock's reading and the
// ids the store generates are parameters.
module SceneService {
  import opened Wrappers
  import opened NovelModel

  const NotFoundPrefix: string := "场景不存在: "

  /** The setters createScene applies before saving: both times are now, the
      version is 1 and a missing sequence becomes 0. */
  function WithCreateDefaults(s: Scene, now: int): (r: Scene)
    ensures r.version == 1 && r.createdAt == Some(now) && r.updatedAt == Some(now)
    ensures s.sequence.None? ==> r.sequence == Some(0)
    ensures s.sequence.Some? ==> r.sequence == s.sequence
    ensures r.id == s.id && r.novelId == s.novelId && r.chapterId == s.chapterId
    ensures r.title == s.title && r.content == s.content && r.summary == s.summary
  {
    s.(createdAt := Some(now), updatedAt := Some(now), version := 1,
       sequence := if s.sequence.None? then Some(0) else s.sequence)
  }

  /** The setters updateScene applies to the incoming scene: it takes the stored
      scene's id and creation time, the next version and the time now, and takes
      the stored novel, chapter and sequence wherever it has none. */
  function WithUpdate(existing: Scene, s: Scene, now: int): (r: Scene)
    ensures r.id == existing.id && r.createdAt == existing.createdAt
    ensures r.version == existing.version + 1 && r.updatedAt == Some(now)
    ensures r.novelId == (if s.novelId.Some? then s.novelId else existing.novelId)
    ensures r.chapterId == (if s.chapterId.Some? then s.chapterId else existing.chapterId)
    ensures r.sequence == (if s.sequence.Some? then s.sequence else existing.sequence)
    ensures r.title == s.title && r.content == s.content && r.summary == s.summary
  {
    s.(id := existing.id, createdAt := existing.createdAt, version := existing.version + 1,
       updatedAt := Some(now),
       novelId := if s.novelId.None? then existing.novelId else s.novelId,
       chapterId := if s.chapterId.None? then existing.chapterId else s.chapterId,
       sequence := if s.sequence.None? then existing.sequence else s.sequence)
  }

  /** The key save stores a scene under: its own id, or the one the store generates. */
  function KeyOf(s: Scene, generated: string): string
  {
    if s.id.Some? then s.id.value else generated
  }

  /** A scene as the service leaves it in the store: stored under its id, with a
      version of at least 1, a sequence and a creation time. */
  predicate WellStored(key: string, s: Scene)
  {
    s.id == Some(key) && s.version >= 1 && s.sequence.Some? && s.createdAt.Some?
  }

  /** Updating a well-stored scene leaves it well stored, one version on. */
  lemma UpdateKeepsWellStored(key: string, existing: Scene, s: Scene, now: int)
    requires WellStored(key, existing)
    ensures WellStored(key, WithUpdate(existing, s, now))
    ensures WithUpdate(existing, s, now).version > existing.version
  {
  }

  /** An update that names every field leaves nothing of the stored scene but its
      identity, creation time and version. */
  lemma FullUpdateReplacesContent(existing: Scene, s: Scene, now: int)
    requires s.novelId.Some? && s.chapterId.Some? && s.sequence.Some?
    ensures WithUpdate(existing, s, now) ==
      s.(id := existing.id, createdAt := existing.createdAt, version := existing.version + 1, updatedAt := Some(now))
  {
  }

  /** Updating with the stored scene itself changes only the version and the update time. */
  lemma SelfUpdateBumpsVersionOnly(existing: Scene, now: int)
    ensures WithUpdate(existing, existing, now) == existing.(version := existing.version + 1, updatedAt := Some(now))
  {
  }

  /** The scene upsertScene saves, as written: the scene passed to switchIfEmpty is
      built before the lookup runs, so createScene's setters have already been
      applied to the incoming scene when an existing scene is updated with it. */
  function UpsertedAsWritten(stored: map<string, Scene>, s: Scene, now: int): (r: Scene)
    ensures r.sequence.Some? && r.updatedAt == Some(now)
    ensures s.id.Some? && s.id.value != [] && s.id.value in stored ==>
      r.version == stored[s.id.value].version + 1 && r.sequence == Some(s.sequence.GetOr(0))
    ensures s.id.None? || s.id.value == [] || s.id.value !in stored ==> r.version == 1
  {
    if s.id.None? || s.id.value == [] || s.id.value !in stored then WithCreateDefaults(s, now)
    else WithUpdate(stored[s.id.value], WithCreateDefaults(s, now), now)
  }

  /** A stored scene at sequence 5, upserted without a sequence, ends at sequence 0
      instead of keeping 5. */
  lemma UpsertLosesStoredSequence()
    ensures var stored := Scene(Some("s1"), None, None, None, None, None, Some(5), 3, Some(1), Some(1));
      var incoming := stored.(sequence := None);
      UpsertedAsWritten(map["s1" := stored], incoming, 2).sequence == Some(0)
      && WithUpdate(stored, incoming, 2).sequence == Some(5)
  {
  }

  /** The scene upsertScene is meant to save: a new scene with the create defaults,
      an existing one updated as updateScene would. */
  function Upserted(stored: map<string, Scene>, s: Scene, now: int): (r: Scene)
    ensures r.updatedAt == Some(now)
    ensures s.id.Some? && s.id.value != [] && s.id.value in stored ==>
      r.id == stored[s.id.value].id && r.version == stored[s.id.value].version + 1
      && r.sequence == (if s.sequence.Some? then s.sequence else stored[s.id.value].sequence)
    ensures s.id.None? || s.id.value == [] || s.id.value !in stored ==> r.version == 1 && r.sequence.Some?
  {
    if s.id.None? || s.id.value == [] || s.id.value !in stored then WithCreateDefaults(s, now)
    else WithUpdate(stored[s.id.value], s, now)
  }

  /** Upserting a scene that is stored is the update of that scene, so every field
      the incoming scene leaves out keeps its stored value. */
  lemma UpsertOfStoredIsUpdate(stored: map<string, Scene>, s: Scene, now: int)
    requires s.id.Some? && s.id.value != [] && s.id.value in stored
    ensures Upserted(stored, s, now) == WithUpdate(stored[s.id.value], s, now)
    ensures s.sequence.None? ==> Upserted(stored, s, now).sequence == stored[s.id.value].sequence
  {
  }

  /** Upserting a scene without an id, with an empty one or with an unknown one
      creates it. */
  lemma UpsertOfNewIsCreate(stored: map<string, Scene>, s: Scene, now: int)
    requires s.id.None? || s.id.value == [] || s.id.value !in stored
    ensures Upserted(stored, s, now).version == 1
    ensures Upserted(stored, s, now) == WithCreateDefaults(s, now)
  {
  }

  /** The store after saving a run of scenes one after another. */
  function SaveAll(stored: map<string, Scene>, saved: seq<Scene>): map<string, Scene>
    requires forall i :: 0 <= i < |saved| ==> saved[i].id.Some?
    decreases |saved|
  {
    if saved == [] then stored
    else
      var n := |saved| - 1;
      SaveAll(stored, saved[..n])[saved[n].id.value := saved[n]]
  }

  /** The scene repository, with the scenes it holds by id. */
  class SceneRepository {
    var scenes: map<string, Scene>

    /** Every scene is well stored under its key. */
    ghost predicate Valid()
      reads this
    {
      forall k :: k in scenes ==> WellStored(k, scenes[k])
    }

    constructor ()
      ensures scenes == map[] && Valid()
    {
      scenes := map[];
    }

    /** findSceneById: the stored scene, or a ResourceNotFoundException. */
    function FindSceneById(id: string): (r: Result<Scene>)
      reads this
      ensures r.Ok? <==> id in scenes
      ensures r.Ok? ==> r.value == scenes[id]
      ensures r.Err? ==> r.error == Thrown(ResourceNotFound, NotFoundPrefix + id)
    {
      if id in scenes then Ok(scenes[id]) else Err(Thrown(ResourceNotFound, NotFoundPrefix + id))
    }

    /** createScene: the create defaults, then save under the scene's id or a
        generated one. */
    method CreateScene(scene: Scene, now: int, generated: string) returns (saved: Scene)
      requires Valid()
      modifies this
      ensures Valid()
      ensures saved == WithCreateDefaults(scene, now).(id := Some(KeyOf(scene, generated)))
      ensures scenes == old(scenes)[KeyOf(scene, generated) := saved]
    {
      var key := KeyOf(scene, generated);
      saved := WithCreateDefaults(scene, now).(id := Some(key));
      scenes := scenes[key := saved];
    }

    /** createScenes: the same defaults on every scene at one time now, then saveAll;
        generated holds the id the store gives the i-th scene when it has none. */
    method CreateScenes(list: seq<Scene>, now: int, generated: seq<string>) returns (saved: seq<Scene>)
      requires Valid() && |generated| == |list|
      modifies this
      ensures Valid()
      ensures |saved| == |list|
      ensures forall i :: 0 <= i < |list| ==>
        saved[i] == WithCreateDefaults(list[i], now).(id := Some(KeyOf(list[i], generated[i])))
      ensures scenes == SaveAll(old(scenes), saved)
    {
      saved := [];
      for i := 0 to |list|
        invariant Valid()
        invariant |saved| == i
        invariant forall j :: 0 <= j < i ==>
          saved[j] == WithCreateDefaults(list[j], now).(id := Some(KeyOf(list[j], generated[j])))
        invariant scenes == SaveAll(old(scenes), saved)
      {
        var s := WithCreateDefaults(list[i], now).(id := Some(KeyOf(list[i], generated[i])));
        assert (saved + [s])[..i] == saved;
        saved := saved + [s];
        scenes := scenes[s.id.value := s];
      }
    }

    /** updateScene: a ResourceNotFoundException for an unknown id; otherwise the
        update setters against the stored scene, then save. */
    method UpdateScene(id: string, scene: Scene, now: int) returns (r: Result<Scene>)
      requires Valid()
      modifies this
      ensures Valid()
      ensures id !in old(scenes) ==> r == Err(Thrown(ResourceNotFound, NotFoundPrefix + id)) && scenes == old(scenes)
      ensures id in old(scenes) ==>
        r == Ok(WithUpdate(old(scenes)[id], scene, now)) && scenes == old(scenes)[id := r.value]
    {
      var found := FindSceneById(id);
      if found.Err? {
        return Err(found.error);
      }
      var existing := found.value;
      var s := WithUpdate(existing, scene, now);
      UpdateKeepsWellStored(id, existing, scene, now);
      scenes := scenes[s.id.value := s];
      r := Ok(s);
    }

    /** upsertScene: create a scene with no or an empty id, update a stored one,
        create one whose id is not stored. As written, the creation handed to
        switchIfEmpty is built first, so a stored scene is updated with the
        incoming scene after the create defaults (see UpsertLosesStoredSequence). */
    method UpsertScene(scene: Scene, now: int, generated: string) returns (saved: Scene)
      requires Valid()
      modifies this
      ensures Valid()
      ensures saved == UpsertedAsWritten(old(scenes), scene, now).(id := Some(KeyOf(scene, generated)))
      ensures scenes == old(scenes)[KeyOf(scene, generated) := saved]
    {
      if scene.id.None? || scene.id.value == [] {
        saved := CreateScene(scene, now, generated);
        return;
      }
      var found := FindSceneById(scene.id.value);
      if found.Ok? {
        var r := UpdateScene(found.value.id.value, WithCreateDefaults(scene, now), now);
        saved := r.value;
      } else {
        saved := CreateScene(scene, now, generated);
      }
    }
  }
}
