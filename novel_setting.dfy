// NovelSettingServiceImpl: setting items of a novel (characters, places, ...)
// with relationships between them, setting groups that collect item ids, the
// acceptance of AI suggestions, and the score that orders retrieved items.
// Ids drawn by UUID.randomUUID() and clock readings are parameters.
module NovelSettings {
  import opened Wrappers

  const DefaultPriority: int := 3
  const UserSource: string := "USER"
  const SceneSuggestion: string := "AI_SCENE_SUGGESTION"
  const GeneralSuggestion: string := "AI_GENERAL_SUGGESTION"
  const Accepted: string := "ACCEPTED"
  const Rejected: string := "REJECTED"
  const Suggested: string := "SUGGESTED"

  const ItemResource: string := "设定条目"
  const RelatedResource: string := "关联的设定条目"
  const RelationshipResource: string := "设定条目关系"
  const GroupResource: string := "设定组"
  const GroupItemResource: string := "设定组中的设定条目"
  const AcceptDenied: string := "只能接受AI生成的设定条目"
  const RejectDenied: string := "只能拒绝AI生成的设定条目"
  const OtherNovelRelation: string := "只能与同一小说的设定条目建立关系"
  const DuplicateRelation: string := "已存在与该设定条目的关系"
  const OtherNovelGroupItem: string := "只能添加同一小说的设定条目到设定组"

  /** A relationship from one item to another, of a named type. */
  datatype SettingRelationship = SettingRelationship(targetItemId: string, relType: string)

  /** NovelSettingItem, with the fields the service reads or writes; null
      fields are None. */
  datatype NovelSettingItem = NovelSettingItem(
    id: Option<string>, novelId: string, userId: string, name: string, settingType: string,
    description: string, priority: Option<int>, generatedBy: Option<string>, status: Option<string>,
    relationships: Option<seq<SettingRelationship>>, sceneIds: Option<seq<string>>,
    createdAt: Option<int>, updatedAt: Option<int>)

  /** SettingGroup: a named list of item ids of one novel. */
  datatype SettingGroup = SettingGroup(
    id: Option<string>, novelId: string, userId: string, name: string, itemIds: Option<seq<string>>,
    activeContext: bool, createdAt: Option<int>, updatedAt: Option<int>)

  /** The two exceptions the service raises: ResourceNotFoundException built
      from a resource name and an id, and IllegalArgumentException with a
      message. */
  datatype SettingError = NotFound(resource: string, id: string) | Illegal(message: string)

  /** A value or the exception that replaced it. */
  datatype Outcome<T> = Done(value: T) | Failed(error: SettingError)

  // ---------------------------------------------------------------- items

  /** The defaults createSettingItem fills in around the drawn id and the time. */
  function CreatedItem(item: NovelSettingItem, newId: string, now: int): (r: NovelSettingItem)
    ensures r.id == Some(newId) && r.createdAt == Some(now) && r.updatedAt == Some(now)
    ensures r.priority == Some(if item.priority.Some? then item.priority.value else 3)
    ensures r.generatedBy == Some(if item.generatedBy.Some? then item.generatedBy.value else "USER")
    ensures r.relationships == Some(if item.relationships.Some? then item.relationships.value else [])
    ensures r.(id := item.id, createdAt := item.createdAt, updatedAt := item.updatedAt, priority := item.priority,
               generatedBy := item.generatedBy, relationships := item.relationships) == item
  {
    item.(id := Some(newId), createdAt := Some(now), updatedAt := Some(now),
          priority := Some(item.priority.GetOr(DefaultPriority)),
          generatedBy := Some(item.generatedBy.GetOr(UserSource)),
          relationships := Some(item.relationships.GetOr([])))
  }

  /** updateSettingItem: the new item, with id, novel, user and creation time of
      the stored one. */
  function UpdatedItem(existing: NovelSettingItem, item: NovelSettingItem, now: int): (r: NovelSettingItem)
    ensures r.id == existing.id && r.novelId == existing.novelId && r.userId == existing.userId
    ensures r.createdAt == existing.createdAt && r.updatedAt == Some(now)
    ensures r.(id := item.id, novelId := item.novelId, userId := item.userId, createdAt := item.createdAt,
               updatedAt := item.updatedAt) == item
  {
    item.(id := existing.id, novelId := existing.novelId, userId := existing.userId,
          createdAt := existing.createdAt, updatedAt := Some(now))
  }

  /** Only items generated as AI scene or general suggestions can be accepted
      or rejected. */
  predicate IsSuggestion(item: NovelSettingItem)
  {
    item.generatedBy == Some(SceneSuggestion) || item.generatedBy == Some(GeneralSuggestion)
  }

  /** accept and reject: an IllegalArgumentException for an item that is not a
      suggestion; otherwise the item with the new status and time. */
  function Reviewed(item: NovelSettingItem, status: string, denied: string, now: int): (r: Outcome<NovelSettingItem>)
    ensures r.Done? <==> IsSuggestion(item)
    ensures r.Done? ==> r.value.status == Some(status) && r.value.updatedAt == Some(now)
                        && r.value.(status := item.status, updatedAt := item.updatedAt) == item
    ensures r.Failed? ==> r.error == Illegal(denied)
  {
    if IsSuggestion(item) then Done(item.(status := Some(status), updatedAt := Some(now)))
    else Failed(Illegal(denied))
  }

  // -------------------------------------------------------- relationships

  /** Some relationship of the list points at the target. */
  predicate RelatesTo(rels: seq<SettingRelationship>, target: string)
  {
    exists k :: 0 <= k < |rels| && rels[k].targetItemId == target
  }

  /** addSettingRelationship on a found item and found target: the target must
      be of the same novel and not yet related; then the relationship is
      appended. */
  function WithRelationship(item: NovelSettingItem, related: NovelSettingItem, rel: SettingRelationship,
                            now: int): (r: Outcome<NovelSettingItem>)
  {
    if related.novelId != item.novelId then Failed(Illegal(OtherNovelRelation))
    else
      var rels := item.relationships.GetOr([]);
      if RelatesTo(rels, rel.targetItemId) then Failed(Illegal(DuplicateRelation))
      else Done(item.(relationships := Some(rels + [rel]), updatedAt := Some(now)))
  }

  /** Whether removeSettingRelationship drops the relationship: its target
      matches, and so does its type when a non-empty type is given. */
  predicate Dropped(r: SettingRelationship, target: string, relType: Option<string>)
  {
    r.targetItemId == target && (relType.None? || relType.value == [] || r.relType == relType.value)
  }

  /** The relationships kept by removeSettingRelationship's filter. */
  function Kept(rels: seq<SettingRelationship>, target: string, relType: Option<string>): (r: seq<SettingRelationship>)
    ensures |r| <= |rels|
    ensures forall k :: 0 <= k < |r| ==> !Dropped(r[k], target, relType)
    ensures forall k :: 0 <= k < |rels| && !Dropped(rels[k], target, relType) ==> rels[k] in r
    ensures forall x :: x in r ==> x in rels
  {
    if rels == [] then []
    else
      var rest := Kept(rels[1..], target, relType);
      if Dropped(rels[0], target, relType) then rest else [rels[0]] + rest
  }

  /** The filter keeps everything exactly when nothing matches. */
  lemma {:induction false} KeptAllIffNoneDropped(rels: seq<SettingRelationship>, target: string, relType: Option<string>)
    ensures |Kept(rels, target, relType)| == |rels| <==> forall k :: 0 <= k < |rels| ==> !Dropped(rels[k], target, relType)
    ensures (forall k :: 0 <= k < |rels| ==> !Dropped(rels[k], target, relType)) ==> Kept(rels, target, relType) == rels
  {
    if rels != [] {
      var rest := rels[1..];
      KeptAllIffNoneDropped(rest, target, relType);
      assert rels == [rels[0]] + rest;
      if Dropped(rels[0], target, relType) {
        assert Kept(rels, target, relType) == Kept(rest, target, relType);
      } else {
        assert Kept(rels, target, relType) == [rels[0]] + Kept(rest, target, relType);
        assert forall k :: 1 <= k < |rels| ==> rels[k] == rest[k - 1];
        assert (forall k :: 0 <= k < |rels| ==> !Dropped(rels[k], target, relType))
           <==> (forall k :: 0 <= k < |rest| ==> !Dropped(rest[k], target, relType));
      }
    }
  }

  /** removeSettingRelationship on a found item: a ResourceNotFoundException
      when the item has no relationships or none is dropped; otherwise the item
      with the kept ones and the new time. */
  function WithoutRelationship(item: NovelSettingItem, target: string, relType: Option<string>,
                               now: int): (r: Outcome<NovelSettingItem>)
    ensures r.Failed? ==> r.error == NotFound(RelationshipResource, target)
    ensures r.Done? ==> item.relationships.Some?
                        && r.value.relationships == Some(Kept(item.relationships.value, target, relType))
                        && r.value.updatedAt == Some(now)
                        && r.value.(relationships := item.relationships, updatedAt := item.updatedAt) == item
  {
    if item.relationships.None? || item.relationships.value == [] then Failed(NotFound(RelationshipResource, target))
    else
      var kept := Kept(item.relationships.value, target, relType);
      if |kept| == |item.relationships.value| then Failed(NotFound(RelationshipResource, target))
      else Done(item.(relationships := Some(kept), updatedAt := Some(now)))
  }

  /** Removal succeeds exactly when some relationship matches. */
  lemma RemovalNeedsAMatch(item: NovelSettingItem, target: string, relType: Option<string>, now: int)
    ensures WithoutRelationship(item, target, relType, now).Done? <==>
      item.relationships.Some?
      && exists k :: 0 <= k < |item.relationships.value| && Dropped(item.relationships.value[k], target, relType)
  {
    if item.relationships.Some? {
      KeptAllIffNoneDropped(item.relationships.value, target, relType);
    }
  }

  /** Removing by target what was just added gives back the relationships the
      item had (an absent list becomes an empty one). */
  lemma RemoveUndoesAdd(item: NovelSettingItem, related: NovelSettingItem, rel: SettingRelationship,
                        now: int, later: int)
    requires WithRelationship(item, related, rel, now).Done?
    ensures var added := WithRelationship(item, related, rel, now).value;
      WithoutRelationship(added, rel.targetItemId, None, later).Done?
      && WithoutRelationship(added, rel.targetItemId, None, later).value.relationships
         == Some(item.relationships.GetOr([]))
  {
    var rels := item.relationships.GetOr([]);
    var all := rels + [rel];
    var added := WithRelationship(item, related, rel, now).value;
    assert added.relationships == Some(all);
    assert !RelatesTo(rels, rel.targetItemId);
    assert forall k :: 0 <= k < |rels| ==> !Dropped(rels[k], rel.targetItemId, None);
    KeptAllIffNoneDropped(rels, rel.targetItemId, None);
    KeptOfSnoc(rels, rel, rel.targetItemId, None);
    assert Kept(all, rel.targetItemId, None) == rels;
  }

  /** The filter of a list with one more element at the end. */
  lemma {:induction false} KeptOfSnoc(rels: seq<SettingRelationship>, x: SettingRelationship, target: string,
                                      relType: Option<string>)
    ensures Kept(rels + [x], target, relType)
            == Kept(rels, target, relType) + (if Dropped(x, target, relType) then [] else [x])
  {
    if rels == [] {
      assert rels + [x] == [x];
    } else {
      assert (rels + [x])[1..] == rels[1..] + [x];
      KeptOfSnoc(rels[1..], x, target, relType);
    }
  }

  // --------------------------------------------------------------- groups

  /** The defaults of createSettingGroup: drawn id, time, an empty list for an
      absent one, and never active. */
  function CreatedGroup(group: SettingGroup, newId: string, now: int): (r: SettingGroup)
    ensures r.id == Some(newId) && r.createdAt == Some(now) && r.updatedAt == Some(now) && !r.activeContext
    ensures r.itemIds == Some(if group.itemIds.Some? then group.itemIds.value else [])
    ensures r.(id := group.id, createdAt := group.createdAt, updatedAt := group.updatedAt,
               activeContext := group.activeContext, itemIds := group.itemIds) == group
  {
    group.(id := Some(newId), createdAt := Some(now), updatedAt := Some(now),
           itemIds := Some(group.itemIds.GetOr([])), activeContext := false)
  }

  /** updateSettingGroup: the new group with id, novel, user and creation time of
      the stored one. */
  function UpdatedGroup(existing: SettingGroup, group: SettingGroup, now: int): (r: SettingGroup)
    ensures r.id == existing.id && r.novelId == existing.novelId && r.userId == existing.userId
    ensures r.createdAt == existing.createdAt && r.updatedAt == Some(now)
    ensures r.(id := group.id, novelId := group.novelId, userId := group.userId, createdAt := group.createdAt,
               updatedAt := group.updatedAt) == group
  {
    group.(id := existing.id, novelId := existing.novelId, userId := existing.userId,
           createdAt := existing.createdAt, updatedAt := Some(now))
  }

  /** The group as addItemToGroup returns it for a found group and item: an
      item of another novel is refused; one already listed leaves the group as
      it is; otherwise the id is appended. */
  function WithGroupItem(group: SettingGroup, item: NovelSettingItem, itemId: string, now: int): (r: Outcome<SettingGroup>)
    ensures r.Failed? <==> item.novelId != group.novelId
    ensures r.Failed? ==> r.error == Illegal(OtherNovelGroupItem)
    ensures r.Done? ==> r.value.itemIds.Some? && itemId in r.value.itemIds.value
  {
    if item.novelId != group.novelId then Failed(Illegal(OtherNovelGroupItem))
    else
      var ids := group.itemIds.GetOr([]);
      if itemId in ids then Done(group.(itemIds := Some(ids)))
      else Done(group.(itemIds := Some(ids + [itemId]), updatedAt := Some(now)))
  }

  /** The group's id list exists and holds the item. */
  predicate ListsItem(group: SettingGroup, itemId: string)
  {
    group.itemIds.Some? && itemId in group.itemIds.value
  }

  /** Adding an item that is already in the group again changes nothing. */
  lemma AddItemIdempotent(group: SettingGroup, item: NovelSettingItem, itemId: string, now: int, later: int)
    requires WithGroupItem(group, item, itemId, now).Done?
    ensures var once := WithGroupItem(group, item, itemId, now).value;
      WithGroupItem(once, item, itemId, later) == Done(once)
  {
  }

  /** The list without the first occurrence of x, as List.remove(Object). */
  function RemoveFirst(ids: seq<string>, x: string): (r: seq<string>)
    ensures x in ids ==> |r| == |ids| - 1
    ensures x !in ids ==> r == ids
    ensures multiset(r) == multiset(ids) - multiset{x}
  {
    if ids == [] then []
    else
      assert ids == [ids[0]] + ids[1..];
      if ids[0] == x then ids[1..] else [ids[0]] + RemoveFirst(ids[1..], x)
  }

  /** In a list without repetitions, removal takes x out entirely. */
  lemma RemoveFirstOfDistinct(ids: seq<string>, x: string)
    requires forall i, j :: 0 <= i < j < |ids| ==> ids[i] != ids[j]
    ensures x !in RemoveFirst(ids, x)
  {
    DistinctCountsOnce(ids, x);
    assert multiset(RemoveFirst(ids, x))[x] == 0;
  }

  /** An element of a list without repetitions occurs at most once. */
  lemma {:induction false} DistinctCountsOnce(ids: seq<string>, x: string)
    requires forall i, j :: 0 <= i < j < |ids| ==> ids[i] != ids[j]
    ensures multiset(ids)[x] <= 1
  {
    if ids != [] {
      assert ids == [ids[0]] + ids[1..];
      DistinctCountsOnce(ids[1..], x);
      if ids[0] == x {
        assert x !in ids[1..];
      }
    }
  }

  /** Removing an id just appended to a list that lacked it gives the list back. */
  lemma {:induction false} RemoveUndoesAppend(ids: seq<string>, x: string)
    requires x !in ids
    ensures RemoveFirst(ids + [x], x) == ids
  {
    if ids != [] {
      assert (ids + [x])[1..] == ids[1..] + [x];
      RemoveUndoesAppend(ids[1..], x);
    }
  }

  /** removeItemFromGroup on a found group: a ResourceNotFoundException when the
      id is not listed; otherwise its first occurrence goes. */
  function WithoutGroupItem(group: SettingGroup, itemId: string, now: int): (r: Outcome<SettingGroup>)
    ensures r.Done? <==> group.itemIds.Some? && itemId in group.itemIds.value
    ensures r.Failed? ==> r.error == NotFound(GroupItemResource, itemId)
    ensures r.Done? ==> r.value.itemIds == Some(RemoveFirst(group.itemIds.value, itemId))
                        && r.value.updatedAt == Some(now)
                        && r.value.(itemIds := group.itemIds, updatedAt := group.updatedAt) == group
  {
    if group.itemIds.None? || itemId !in group.itemIds.value then Failed(NotFound(GroupItemResource, itemId))
    else Done(group.(itemIds := Some(RemoveFirst(group.itemIds.value, itemId)), updatedAt := Some(now)))
  }

  /** What deleteSettingItem does to a group: a group of the item's novel that
      lists the id loses its first occurrence (the time is not touched). */
  function GroupAfterItemDeleted(group: SettingGroup, novelId: string, itemId: string): (r: SettingGroup)
    ensures r.itemIds.Some? <==> group.itemIds.Some?
    ensures group.novelId != novelId || group.itemIds.None? ==> r == group
    ensures group.novelId == novelId && group.itemIds.Some? ==>
      r == group.(itemIds := Some(RemoveFirst(group.itemIds.value, itemId)))
  {
    if group.novelId == novelId && group.itemIds.Some? && itemId in group.itemIds.value
    then group.(itemIds := Some(RemoveFirst(group.itemIds.value, itemId)))
    else group
  }

  // -------------------------------------------------------------- scoring

  /** calculateItemScore in tenths: 2 per step of priority below 6, 5 for an
      item of the current scene, 3 for a user's item, 2 for an accepted and 1
      for a suggested AI suggestion. Group membership adds nothing. */
  function Score(item: NovelSettingItem, sceneId: Option<string>): (s: int)
    ensures var p := if item.priority.Some? then 2 * (6 - item.priority.value) else 0;
      p <= s <= p + 8
    ensures item.generatedBy == Some(UserSource) ==> s >= (if item.priority.Some? then 2 * (6 - item.priority.value) else 0) + 3
  {
    (if item.priority.Some? then 2 * (6 - item.priority.value) else 0)
    + (if sceneId.Some? && item.sceneIds.Some? && sceneId.value in item.sceneIds.value then 5 else 0)
    + (if item.generatedBy == Some(UserSource) then 3
       else if IsSuggestion(item) then
         (if item.status == Some(Accepted) then 2 else if item.status == Some(Suggested) then 1 else 0)
       else 0)
  }

  /** Ordering contributions: a user's item outscores the same item as an AI
      suggestion, and being in the current scene adds exactly half a point. */
  lemma ScoreContributions(item: NovelSettingItem, sceneId: string)
    requires item.sceneIds.Some? && sceneId in item.sceneIds.value
    ensures Score(item, Some(sceneId)) == Score(item, None) + 5
    ensures Score(item.(generatedBy := Some(UserSource)), None) > Score(item.(generatedBy := Some(SceneSuggestion)), None)
  {
  }

  /** The score of an item as a key, for the ranking below. */
  function ScoreKey(sceneId: Option<string>): NovelSettingItem -> int
  {
    item => Score(item, sceneId)
  }

  /** Keys never increase along the list. */
  predicate Descending<T>(items: seq<T>, key: T -> int)
  {
    forall i, j :: 0 <= i < j < |items| ==> key(items[i]) >= key(items[j])
  }

  /** The elements with key v, in list order. */
  function WithScore<T>(items: seq<T>, key: T -> int, v: int): (r: seq<T>)
  {
    if items == [] then []
    else (if key(items[0]) == v then [items[0]] else []) + WithScore(items[1..], key, v)
  }

  /** x placed before the first element whose key does not exceed its own. */
  function Insert<T>(x: T, sorted: seq<T>, key: T -> int): (r: seq<T>)
  {
    if sorted == [] || key(sorted[0]) <= key(x) then [x] + sorted
    else [sorted[0]] + Insert(x, sorted[1..], key)
  }

  /** reorderResults: a stable sort by descending key (the item score). */
  function Reorder<T>(items: seq<T>, key: T -> int): (r: seq<T>)
    ensures |r| == |items| && multiset(r) == multiset(items)
  {
    if items == [] then []
    else
      InsertPermutes(items[0], Reorder(items[1..], key), key);
      assert items == [items[0]] + items[1..];
      Insert(items[0], Reorder(items[1..], key), key)
  }

  /** An upper bound of x and of the list bounds the list after insertion. */
  lemma {:induction false} InsertBound<T>(x: T, sorted: seq<T>, key: T -> int, t: int)
    requires key(x) <= t
    requires forall k :: 0 <= k < |sorted| ==> key(sorted[k]) <= t
    ensures forall k :: 0 <= k < |Insert(x, sorted, key)| ==> key(Insert(x, sorted, key)[k]) <= t
  {
    if sorted != [] && key(sorted[0]) > key(x) {
      InsertBound(x, sorted[1..], key, t);
    }
  }

  /** One insertion adds exactly x. */
  lemma {:induction false} InsertPermutes<T>(x: T, sorted: seq<T>, key: T -> int)
    ensures multiset(Insert(x, sorted, key)) == multiset(sorted) + multiset{x}
    ensures |Insert(x, sorted, key)| == |sorted| + 1
  {
    if sorted != [] && key(sorted[0]) > key(x) {
      InsertPermutes(x, sorted[1..], key);
      assert sorted == [sorted[0]] + sorted[1..];
    }
  }

  /** One insertion into a descending list keeps it descending and adds exactly x. */
  lemma {:induction false} InsertKeepsDescending<T>(x: T, sorted: seq<T>, key: T -> int)
    requires Descending(sorted, key)
    ensures Descending(Insert(x, sorted, key), key)
    ensures multiset(Insert(x, sorted, key)) == multiset(sorted) + multiset{x}
    ensures |Insert(x, sorted, key)| == |sorted| + 1
  {
    InsertPermutes(x, sorted, key);
    var r := Insert(x, sorted, key);
    if sorted == [] || key(sorted[0]) <= key(x) {
      assert r == [x] + sorted;
    } else {
      var rest := Insert(x, sorted[1..], key);
      InsertKeepsDescending(x, sorted[1..], key);
      InsertBound(x, sorted[1..], key, key(sorted[0]));
      assert r == [sorted[0]] + rest;
    }
  }

  /** The elements of a key keep their order through one insertion. */
  lemma {:induction false} InsertKeepsTies<T>(x: T, sorted: seq<T>, key: T -> int, v: int)
    ensures WithScore(Insert(x, sorted, key), key, v)
            == (if key(x) == v then [x] else []) + WithScore(sorted, key, v)
  {
    var r := Insert(x, sorted, key);
    if sorted == [] || key(sorted[0]) <= key(x) {
      assert r == [x] + sorted && r[1..] == sorted;
    } else {
      var rest := Insert(x, sorted[1..], key);
      assert r == [sorted[0]] + rest && r[1..] == rest;
      InsertKeepsTies(x, sorted[1..], key, v);
      var head := if key(sorted[0]) == v then [sorted[0]] else [];
      var mine := if key(x) == v then [x] else [];
      assert head == [] || mine == [];
      calc {
        WithScore(r, key, v);
        head + WithScore(rest, key, v);
        head + (mine + WithScore(sorted[1..], key, v));
        mine + (head + WithScore(sorted[1..], key, v));
        mine + WithScore(sorted, key, v);
      }
    }
  }

  /** reorderResults orders by descending key, is a permutation, and keeps the
      input order among equal keys. */
  lemma {:induction false} ReorderSortsStably<T>(items: seq<T>, key: T -> int, v: int)
    ensures Descending(Reorder(items, key), key)
    ensures multiset(Reorder(items, key)) == multiset(items)
    ensures WithScore(Reorder(items, key), key, v) == WithScore(items, key, v)
  {
    if items != [] {
      ReorderSortsStably(items[1..], key, v);
      InsertKeepsDescending(items[0], Reorder(items[1..], key), key);
      InsertKeepsTies(items[0], Reorder(items[1..], key), key, v);
      assert items == [items[0]] + items[1..];
    }
  }

  /** findRelevantSettings after retrieval: no query vector or no items gives
      nothing; otherwise the first topK of the items reordered by score. */
  function TopRelevant(hasQueryVector: bool, found: seq<NovelSettingItem>, sceneId: Option<string>, topK: nat)
    : (r: seq<NovelSettingItem>)
    ensures |r| <= topK && |r| <= |found| && multiset(r) <= multiset(found)
    ensures !hasQueryVector ==> r == []
  {
    if !hasQueryVector || found == [] then []
    else
      var ranked := Reorder(found, ScoreKey(sceneId));
      var n := if topK < |ranked| then topK else |ranked|;
      assert ranked == ranked[..n] + ranked[n..];
      ranked[..n]
  }

  /** Cutting a descending list leaves nothing in the tail that outranks the head. */
  lemma PrefixOutscoresTail<T>(s: seq<T>, key: T -> int, n: nat, x: T, y: T)
    requires Descending(s, key) && n <= |s|
    requires x in s[n..] && y in s[..n]
    ensures key(y) >= key(x)
  {
    var j :| 0 <= j < |s[n..]| && s[n..][j] == x;
    var i :| 0 <= i < n && s[..n][i] == y;
    assert s[i] == y && s[n + j] == x;
  }

  /** The first n of a descending permutation of found: n of the found
      elements, descending, none of them outranked by a found element left out. */
  lemma TopFacts<T>(ranked: seq<T>, found: seq<T>, key: T -> int, n: nat, x: T, y: T)
    requires multiset(ranked) == multiset(found) && Descending(ranked, key) && n <= |ranked|
    ensures |ranked| == |found| && multiset(ranked[..n]) <= multiset(found) && Descending(ranked[..n], key)
    ensures x in found && x !in ranked[..n] && y in ranked[..n] ==> key(y) >= key(x)
  {
    assert |ranked| == |multiset(ranked)| == |found|;
    assert ranked == ranked[..n] + ranked[n..];
    assert multiset(ranked) == multiset(ranked[..n]) + multiset(ranked[n..]);
    if x in found && x !in ranked[..n] && y in ranked[..n] {
      assert x in multiset(ranked);
      assert x in ranked[n..];
      PrefixOutscoresTail(ranked, key, n, x, y);
    }
  }

  /** The result holds min(topK, found) of the found items in descending score
      order, each scoring at least as well as any found item left out. */
  lemma TopRelevantAreTheBest(found: seq<NovelSettingItem>, sceneId: Option<string>, topK: nat, x: NovelSettingItem,
                              y: NovelSettingItem)
    ensures var r := TopRelevant(true, found, sceneId, topK);
      |r| == (if topK < |found| then topK else |found|) && multiset(r) <= multiset(found)
      && forall i, j :: 0 <= i < j < |r| ==> Score(r[i], sceneId) >= Score(r[j], sceneId)
    ensures x in found && x !in TopRelevant(true, found, sceneId, topK) && y in TopRelevant(true, found, sceneId, topK)
            ==> Score(y, sceneId) >= Score(x, sceneId)
  {
    var key := ScoreKey(sceneId);
    if found != [] {
      var ranked := Reorder(found, key);
      ReorderSortsStably(found, key, 0);
      var n := if topK < |ranked| then topK else |ranked|;
      TopFacts(ranked, found, key, n, x, y);
      var r := ranked[..n];
      forall i, j | 0 <= i < j < |r| ensures Score(r[i], sceneId) >= Score(r[j], sceneId) {
        assert key(r[i]) >= key(r[j]);
      }
    }
  }

  // ---------------------------------------------------------------- store

  /** The setting item and setting group repositories with the service's
      operations on them. */
  class SettingStore {
    var items: map<string, NovelSettingItem>
    var groups: map<string, SettingGroup>

    /** Items and groups are stored under their ids. */
    ghost predicate Valid()
      reads this
    {
      (forall k :: k in items ==> items[k].id == Some(k))
      && (forall k :: k in groups ==> groups[k].id == Some(k))
    }

    constructor ()
      ensures items == map[] && groups == map[] && Valid()
    {
      items := map[];
      groups := map[];
    }

    /** getSettingItemById. */
    function ItemById(id: string): (r: Outcome<NovelSettingItem>)
      reads this
      ensures r.Done? <==> id in items
      ensures r.Done? ==> r.value == items[id]
      ensures r.Failed? ==> r.error == NotFound(ItemResource, id)
    {
      if id in items then Done(items[id]) else Failed(NotFound(ItemResource, id))
    }

    /** getSettingGroupById. */
    function GroupById(id: string): (r: Outcome<SettingGroup>)
      reads this
      ensures r.Done? <==> id in groups
      ensures r.Done? ==> r.value == groups[id]
      ensures r.Failed? ==> r.error == NotFound(GroupResource, id)
    {
      if id in groups then Done(groups[id]) else Failed(NotFound(GroupResource, id))
    }

    /** createSettingItem. */
    method CreateSettingItem(item: NovelSettingItem, newId: string, now: int) returns (saved: NovelSettingItem)
      requires Valid()
      modifies this
      ensures Valid()
      ensures saved == CreatedItem(item, newId, now)
      ensures items == old(items)[newId := saved] && groups == old(groups)
    {
      saved := CreatedItem(item, newId, now);
      items := items[newId := saved];
    }

    /** updateSettingItem. */
    method UpdateSettingItem(id: string, item: NovelSettingItem, now: int) returns (r: Outcome<NovelSettingItem>)
      requires Valid()
      modifies this
      ensures Valid()
      ensures id !in old(items) ==> r == Failed(NotFound(ItemResource, id)) && items == old(items)
      ensures id in old(items) ==>
        r == Done(UpdatedItem(old(items)[id], item, now)) && items == old(items)[id := r.value]
      ensures groups == old(groups)
    {
      var found := ItemById(id);
      if found.Failed? {
        return Failed(found.error);
      }
      var saved := UpdatedItem(found.value, item, now);
      items := items[id := saved];
      r := Done(saved);
    }

    /** deleteSettingItem: the id leaves the groups of the item's novel, then
        the item goes. */
    method DeleteSettingItem(id: string) returns (r: Outcome<()>)
      requires Valid()
      modifies this
      ensures Valid()
      ensures id !in old(items) ==> r == Failed(NotFound(ItemResource, id)) && items == old(items) && groups == old(groups)
      ensures id in old(items) ==>
        r == Done(()) && items == old(items) - {id}
        && groups == map k | k in old(groups) :: GroupAfterItemDeleted(old(groups)[k], old(items)[id].novelId, id)
    {
      var found := ItemById(id);
      if found.Failed? {
        return Failed(found.error);
      }
      var novelId := found.value.novelId;
      groups := map k | k in groups :: GroupAfterItemDeleted(groups[k], novelId, id);
      items := items - {id};
      r := Done(());
    }

    /** acceptSuggestedSettingItem. */
    method AcceptSuggestedSettingItem(id: string, now: int) returns (r: Outcome<NovelSettingItem>)
      requires Valid()
      modifies this
      ensures Valid()
      ensures id !in old(items) ==> r == Failed(NotFound(ItemResource, id)) && items == old(items)
      ensures id in old(items) ==>
        r == Reviewed(old(items)[id], Accepted, AcceptDenied, now)
        && items == (if r.Done? then old(items)[id := r.value] else old(items))
      ensures groups == old(groups)
    {
      r := Review(id, Accepted, AcceptDenied, now);
    }

    /** rejectSuggestedSettingItem. */
    method RejectSuggestedSettingItem(id: string, now: int) returns (r: Outcome<NovelSettingItem>)
      requires Valid()
      modifies this
      ensures Valid()
      ensures id !in old(items) ==> r == Failed(NotFound(ItemResource, id)) && items == old(items)
      ensures id in old(items) ==>
        r == Reviewed(old(items)[id], Rejected, RejectDenied, now)
        && items == (if r.Done? then old(items)[id := r.value] else old(items))
      ensures groups == old(groups)
    {
      r := Review(id, Rejected, RejectDenied, now);
    }

    /** The steps accept and reject share. */
    method Review(id: string, status: string, denied: string, now: int) returns (r: Outcome<NovelSettingItem>)
      requires Valid()
      modifies this
      ensures Valid()
      ensures id !in old(items) ==> r == Failed(NotFound(ItemResource, id)) && items == old(items)
      ensures id in old(items) ==>
        r == Reviewed(old(items)[id], status, denied, now)
        && items == (if r.Done? then old(items)[id := r.value] else old(items))
      ensures groups == old(groups)
    {
      var found := ItemById(id);
      if found.Failed? {
        return Failed(found.error);
      }
      r := Reviewed(found.value, status, denied, now);
      if r.Done? {
        items := items[id := r.value];
      }
    }

    /** addSettingRelationship: the item, then the target, must exist. */
    method AddSettingRelationship(id: string, rel: SettingRelationship, now: int) returns (r: Outcome<NovelSettingItem>)
      requires Valid()
      modifies this
      ensures Valid()
      ensures id !in old(items) ==> r == Failed(NotFound(ItemResource, id))
      ensures id in old(items) && rel.targetItemId !in old(items) ==> r == Failed(NotFound(RelatedResource, rel.targetItemId))
      ensures id in old(items) && rel.targetItemId in old(items) ==>
        r == WithRelationship(old(items)[id], old(items)[rel.targetItemId], rel, now)
      ensures items == (if r.Done? then old(items)[id := r.value] else old(items))
      ensures groups == old(groups)
    {
      var found := ItemById(id);
      if found.Failed? {
        return Failed(found.error);
      }
      if rel.targetItemId !in items {
        return Failed(NotFound(RelatedResource, rel.targetItemId));
      }
      r := WithRelationship(found.value, items[rel.targetItemId], rel, now);
      if r.Done? {
        items := items[id := r.value];
      }
    }

    /** removeSettingRelationship. */
    method RemoveSettingRelationship(id: string, target: string, relType: Option<string>, now: int) returns (r: Outcome<()>)
      requires Valid()
      modifies this
      ensures Valid()
      ensures id !in old(items) ==> r == Failed(NotFound(ItemResource, id)) && items == old(items)
      ensures id in old(items) ==>
        var w := WithoutRelationship(old(items)[id], target, relType, now);
        (w.Failed? ==> r == Failed(w.error) && items == old(items))
        && (w.Done? ==> r == Done(()) && items == old(items)[id := w.value])
      ensures groups == old(groups)
    {
      var found := ItemById(id);
      if found.Failed? {
        return Failed(found.error);
      }
      var w := WithoutRelationship(found.value, target, relType, now);
      if w.Failed? {
        return Failed(w.error);
      }
      items := items[id := w.value];
      r := Done(());
    }

    /** createSettingGroup. */
    method CreateSettingGroup(group: SettingGroup, newId: string, now: int) returns (saved: SettingGroup)
      requires Valid()
      modifies this
      ensures Valid()
      ensures saved == CreatedGroup(group, newId, now)
      ensures groups == old(groups)[newId := saved] && items == old(items)
    {
      saved := CreatedGroup(group, newId, now);
      groups := groups[newId := saved];
    }

    /** updateSettingGroup. */
    method UpdateSettingGroup(id: string, group: SettingGroup, now: int) returns (r: Outcome<SettingGroup>)
      requires Valid()
      modifies this
      ensures Valid()
      ensures id !in old(groups) ==> r == Failed(NotFound(GroupResource, id)) && groups == old(groups)
      ensures id in old(groups) ==>
        r == Done(UpdatedGroup(old(groups)[id], group, now)) && groups == old(groups)[id := r.value]
      ensures items == old(items)
    {
      var found := GroupById(id);
      if found.Failed? {
        return Failed(found.error);
      }
      var saved := UpdatedGroup(found.value, group, now);
      groups := groups[id := saved];
      r := Done(saved);
    }

    /** deleteSettingGroup: deleteById, which is silent for an unknown id. */
    method DeleteSettingGroup(id: string)
      requires Valid()
      modifies this
      ensures Valid()
      ensures groups == old(groups) - {id} && items == old(items)
    {
      groups := groups - {id};
    }

    /** addItemToGroup: the group, then the item, must exist; a listed item is
        returned without a save. */
    method AddItemToGroup(groupId: string, itemId: string, now: int) returns (r: Outcome<SettingGroup>)
      requires Valid()
      modifies this
      ensures Valid()
      ensures groupId !in old(groups) ==> r == Failed(NotFound(GroupResource, groupId))
      ensures groupId in old(groups) && itemId !in old(items) ==> r == Failed(NotFound(ItemResource, itemId))
      ensures groupId in old(groups) && itemId in old(items) ==>
        r == WithGroupItem(old(groups)[groupId], old(items)[itemId], itemId, now)
      ensures r.Done? && !ListsItem(old(groups)[groupId], itemId) ==> groups == old(groups)[groupId := r.value]
      ensures r.Done? && ListsItem(old(groups)[groupId], itemId) ==> groups == old(groups)
      ensures r.Failed? ==> groups == old(groups)
      ensures items == old(items)
    {
      var group := GroupById(groupId);
      if group.Failed? {
        return Failed(group.error);
      }
      var item := ItemById(itemId);
      if item.Failed? {
        return Failed(item.error);
      }
      r := WithGroupItem(group.value, item.value, itemId, now);
      if r.Done? && !ListsItem(group.value, itemId) {
        groups := groups[groupId := r.value];
      }
    }

    /** removeItemFromGroup. */
    method RemoveItemFromGroup(groupId: string, itemId: string, now: int) returns (r: Outcome<()>)
      requires Valid()
      modifies this
      ensures Valid()
      ensures groupId !in old(groups) ==> r == Failed(NotFound(GroupResource, groupId)) && groups == old(groups)
      ensures groupId in old(groups) ==>
        var w := WithoutGroupItem(old(groups)[groupId], itemId, now);
        (w.Failed? ==> r == Failed(w.error) && groups == old(groups))
        && (w.Done? ==> r == Done(()) && groups == old(groups)[groupId := w.value])
      ensures items == old(items)
    {
      var found := GroupById(groupId);
      if found.Failed? {
        return Failed(found.error);
      }
      var w := WithoutGroupItem(found.value, itemId, now);
      if w.Failed? {
        return Failed(w.error);
      }
      groups := groups[groupId := w.value];
      r := Done(());
    }

    /** setGroupActiveContext. */
    method SetGroupActiveContext(groupId: string, active: bool, now: int) returns (r: Outcome<SettingGroup>)
      requires Valid()
      modifies this
      ensures Valid()
      ensures groupId !in old(groups) ==> r == Failed(NotFound(GroupResource, groupId)) && groups == old(groups)
      ensures groupId in old(groups) ==>
        r == Done(old(groups)[groupId].(activeContext := active, updatedAt := Some(now)))
        && groups == old(groups)[groupId := r.value]
      ensures items == old(items)
    {
      var found := GroupById(groupId);
      if found.Failed? {
        return Failed(found.error);
      }
      var saved := found.value.(activeContext := active, updatedAt := Some(now));
      groups := groups[groupId := saved];
      r := Done(saved);
    }
  }
}
