// AIChatServiceImpl: chat sessions and their messages. A session is created
// with a chosen model configuration, updated from a map of changes, and fed
// messages either in one exchange or as a stream of chunks; the request sent
// to the model carries the recent history. The two Mongo repositories are the
// fields of ChatStore; the configuration service, the key encryptor and the
// model are not part of this model: what they return is a parameter.
module AIChat {
  import opened Wrappers
  import opened JStrings
  import opened AIRequests
  import AIService

  /** A value of one of the untyped metadata maps. */
  datatype MetaValue =
    | DoubleValue(d: real)
    | IntValue(i: int)
    | TextValue(s: string)
    | BoolValue(b: bool)
    | MapValue(entries: map<string, MetaValue>)

  /** The class of a metadata value as the document mapper reads it back. */
  function MetaClass(v: MetaValue): string
  {
    match v
    case DoubleValue(_) => DoubleClass
    case IntValue(_) => IntegerClass
    case TextValue(_) => "java.lang.String"
    case BoolValue(_) => "java.lang.Boolean"
    case MapValue(_) => "java.util.LinkedHashMap"
  }

  const DoubleClass: string := "java.lang.Double"
  const IntegerClass: string := "java.lang.Integer"

  /** The ClassCastException of a metadata value cast to the target class. */
  function CastFailure(v: MetaValue, target: string): Exception
  {
    Thrown(ClassCast, CastMessage(MetaClass(v), target))
  }

  /** A chat session (the fields the service reads and writes). */
  datatype ChatSession = ChatSession(
    sessionId: string,
    userId: string,
    novelId: Option<string>,
    selectedModelConfigId: string,
    metadata: map<string, MetaValue>,
    status: string,
    title: Option<string>,
    messageCount: int,
    createdAt: int,
    updatedAt: int,
    lastMessageAt: Option<int>)

  /** A chat message; stream chunks carry no id and no user. */
  datatype ChatMessage = ChatMessage(
    id: Option<string>,
    sessionId: string,
    userId: Option<string>,
    role: string,
    content: string,
    modelName: string,
    status: string,
    messageType: string,
    parentMessageId: Option<string>,
    tokenCount: int,
    createdAt: int)

  /** A user's model configuration, as the service reads it. */
  datatype ChatConfig = ChatConfig(id: string, provider: string, modelName: string, isValidated: bool)

  const Active: string := "ACTIVE"
  const FailedStatus: string := "FAILED"
  const InvalidModelPrefix: string := "指定的模型名称无效: "
  const NoModelConfigured: string := "您还没有配置任何可用的AI模型。请先在设置中添加并验证模型API Key。"
  const SessionMissingPrefix: string := "会话不存在或无权访问: "
  const ConfigMissingPrefix: string := "无法找到或访问会话关联的模型配置: "
  const ConfigNotValidated: string := "当前会话使用的模型配置无效或未验证。"
  const KeyUnreadable: string := "处理请求失败，无法访问模型凭证。"
  const ReplyFailedPrefix: string := "获取AI响应失败: "

  function NamedModelMissing(modelName: string): string
  {
    "您选择的模型 '" + modelName + "' 未配置或未验证，请先在模型设置中配置。"
  }

  function ConfigUpdateRefused(configId: string): string
  {
    "无法更新到指定的模型配置 '" + configId + "'，请确保配置存在且已验证。"
  }

  // ------------------------------------------------------------ session creation

  /** The configuration id a new session gets: for a named model, the validated
      configuration of that model (its name must be one the provider table
      knows); otherwise the validated default, else the first validated one. */
  function ConfigForSession(modelName: Option<string>, namedConfigId: Option<string>,
                            defaultConfigId: Option<string>, firstConfigId: Option<string>): Result<string>
  {
    if AIService.NotBlank(modelName) then
      if AIService.ProviderForModel(modelName).Err? then Err(Thrown(IllegalArgument, InvalidModelPrefix + modelName.value))
      else if namedConfigId.None? then Err(Thrown(Runtime, NamedModelMissing(modelName.value)))
      else Ok(namedConfigId.value)
    else if defaultConfigId.Some? then Ok(defaultConfigId.value)
    else if firstConfigId.Some? then Ok(firstConfigId.value)
    else Err(Thrown(Runtime, NoModelConfigured))
  }

  /** A named model never falls back to the default or first configuration,
      and an unnamed one prefers the default to the first. */
  lemma NamedModelNeverFallsBack(modelName: Option<string>, namedConfigId: Option<string>,
                                 defaultConfigId: Option<string>, firstConfigId: Option<string>)
    ensures var r := ConfigForSession(modelName, namedConfigId, defaultConfigId, firstConfigId);
      AIService.NotBlank(modelName) && r.Ok? ==> r.value == namedConfigId.value
    ensures var r := ConfigForSession(modelName, namedConfigId, defaultConfigId, firstConfigId);
      !AIService.NotBlank(modelName) && defaultConfigId.Some? ==> r == Ok(defaultConfigId.value)
    ensures var r := ConfigForSession(modelName, namedConfigId, defaultConfigId, firstConfigId);
      !AIService.NotBlank(modelName) ==> (r.Err? <==> defaultConfigId.None? && firstConfigId.None?)
    ensures var r := ConfigForSession(modelName, namedConfigId, defaultConfigId, firstConfigId);
      AIService.NotBlank(modelName) && r.Ok? ==> AIService.ProviderForModel(modelName).Ok?
  {
  }

  /** The session createSessionInternal saves. */
  function NewSession(sessionId: string, userId: string, novelId: Option<string>, configId: string,
                      metadata: map<string, MetaValue>, now: int): ChatSession
  {
    ChatSession(sessionId, userId, novelId, configId, metadata, Active, None, 0, now, now, None)
  }

  // ------------------------------------------------------------ session update

  predicate HasText(updates: map<string, MetaValue>, key: string) { key in updates && updates[key].TextValue? }

  predicate HasMap(updates: map<string, MetaValue>, key: string) { key in updates && updates[key].MapValue? }

  /** The config id the updates ask to switch to, if it differs from the current one. */
  predicate WantsConfig(session: ChatSession, updates: map<string, MetaValue>)
  {
    HasText(updates, "selectedModelConfigId") && updates["selectedModelConfigId"].s != session.selectedModelConfigId
  }

  /** The updates of updateSession applied to the session, with whether it needs saving. */
  function Applied(session: ChatSession, updates: map<string, MetaValue>, newConfig: Option<ChatConfig>, now: int)
    : Result<(ChatSession, bool)>
  {
    var s := session.(
      title := if HasText(updates, "title") then Some(updates["title"].s) else session.title,
      status := if HasText(updates, "status") then updates["status"].s else session.status,
      metadata := if HasMap(updates, "metadata") then updates["metadata"].entries else session.metadata);
    var changed := HasText(updates, "title") || HasText(updates, "status") || HasMap(updates, "metadata");
    if WantsConfig(session, updates) then
      var id := updates["selectedModelConfigId"].s;
      if newConfig.None? || !newConfig.value.isValidated then Err(Thrown(Runtime, ConfigUpdateRefused(id)))
      else Ok((s.(selectedModelConfigId := id, updatedAt := now), true))
    else Ok((s, changed))
  }

  /** Updates holding none of the four keys in the expected type change
      nothing and ask for no save; a switch to a missing or unvalidated
      configuration is refused; a switch to a validated one is applied. */
  lemma UpdateRules(session: ChatSession, updates: map<string, MetaValue>, newConfig: Option<ChatConfig>, now: int)
    ensures (!HasText(updates, "title") && !HasText(updates, "status") && !HasMap(updates, "metadata")
             && !WantsConfig(session, updates)) ==> Applied(session, updates, newConfig, now) == Ok((session, false))
    ensures WantsConfig(session, updates) ==>
      (Applied(session, updates, newConfig, now).Err? <==> newConfig.None? || !newConfig.value.isValidated)
    ensures WantsConfig(session, updates) && Applied(session, updates, newConfig, now).Ok? ==>
      (Applied(session, updates, newConfig, now).value.0.selectedModelConfigId == updates["selectedModelConfigId"].s
       && Applied(session, updates, newConfig, now).value.1)
    ensures Applied(session, updates, newConfig, now).Ok? ==>
      (Applied(session, updates, newConfig, now).value.0.sessionId == session.sessionId
       && Applied(session, updates, newConfig, now).value.0.userId == session.userId
       && Applied(session, updates, newConfig, now).value.0.messageCount == session.messageCount)
  {
  }

  // ------------------------------------------------------------ request building

  /** getRecentMessages after the query: drop the excluded message, keep at
      most `limit`, then order by ascending creation time. */
  function RecentMessages(fetched: seq<ChatMessage>, excludeId: string, limit: nat): seq<ChatMessage>
  {
    var kept := Excluding(fetched, excludeId);
    SortByTime(kept[..if limit < |kept| then limit else |kept|])
  }

  /** The messages other than the excluded one, in order. */
  function Excluding(ms: seq<ChatMessage>, excludeId: string): (r: seq<ChatMessage>)
    ensures forall k :: 0 <= k < |r| ==> r[k].id != Some(excludeId) && r[k] in ms
    ensures forall m :: m in ms && m.id != Some(excludeId) ==> m in r
    ensures multiset(r) <= multiset(ms)
  {
    if ms == [] then []
    else
      assert ms == [ms[0]] + ms[1..];
      (if ms[0].id != Some(excludeId) then [ms[0]] else []) + Excluding(ms[1..], excludeId)
  }

  /** Creation times never decrease along the list. */
  predicate Ascending(ms: seq<ChatMessage>)
  {
    forall i, j :: 0 <= i < j < |ms| ==> ms[i].createdAt <= ms[j].createdAt
  }

  /** m placed before the first message not created earlier than it. */
  function InsertByTime(m: ChatMessage, sorted: seq<ChatMessage>): seq<ChatMessage>
  {
    if sorted == [] || m.createdAt <= sorted[0].createdAt then [m] + sorted
    else [sorted[0]] + InsertByTime(m, sorted[1..])
  }

  /** The sort of the collected list by creation time. */
  function SortByTime(ms: seq<ChatMessage>): seq<ChatMessage>
  {
    if ms == [] then [] else InsertByTime(ms[0], SortByTime(ms[1..]))
  }

  /** A lower bound of m and of the list bounds the list after insertion. */
  lemma {:induction false} InsertByTimeBound(m: ChatMessage, sorted: seq<ChatMessage>, t: int)
    requires t <= m.createdAt
    requires forall k :: 0 <= k < |sorted| ==> t <= sorted[k].createdAt
    ensures forall k :: 0 <= k < |InsertByTime(m, sorted)| ==> t <= InsertByTime(m, sorted)[k].createdAt
  {
    if sorted != [] && m.createdAt > sorted[0].createdAt {
      InsertByTimeBound(m, sorted[1..], t);
    }
  }

  /** Insertion adds m to the list's contents and nothing else. */
  lemma {:induction false} InsertByTimeContents(m: ChatMessage, sorted: seq<ChatMessage>)
    ensures multiset(InsertByTime(m, sorted)) == multiset(sorted) + multiset{m}
    ensures |InsertByTime(m, sorted)| == |sorted| + 1
  {
    if sorted != [] && m.createdAt > sorted[0].createdAt {
      InsertByTimeContents(m, sorted[1..]);
      assert sorted == [sorted[0]] + sorted[1..];
    }
  }

  /** Insertion into an ascending list keeps it ascending. */
  lemma {:induction false} InsertByTimeAscending(m: ChatMessage, sorted: seq<ChatMessage>)
    requires Ascending(sorted)
    ensures Ascending(InsertByTime(m, sorted))
  {
    InsertByTimeContents(m, sorted);
    var r := InsertByTime(m, sorted);
    if sorted != [] && m.createdAt > sorted[0].createdAt {
      var rest := InsertByTime(m, sorted[1..]);
      InsertByTimeAscending(m, sorted[1..]);
      InsertByTimeBound(m, sorted[1..], sorted[0].createdAt);
      assert r == [sorted[0]] + rest;
      forall i, j | 0 <= i < j < |r| ensures r[i].createdAt <= r[j].createdAt {
        if i > 0 {
          assert r[i] == rest[i - 1] && r[j] == rest[j - 1];
        } else {
          assert r[j] == rest[j - 1];
        }
      }
    } else {
      assert r == [m] + sorted;
      forall i, j | 0 <= i < j < |r| ensures r[i].createdAt <= r[j].createdAt {
        if i > 0 {
          assert r[i] == sorted[i - 1] && r[j] == sorted[j - 1];
        } else {
          assert r[j] == sorted[j - 1];
          assert sorted[0].createdAt <= sorted[j - 1].createdAt;
        }
      }
    }
  }

  lemma {:induction false} SortByTimeSorts(ms: seq<ChatMessage>)
    ensures Ascending(SortByTime(ms))
    ensures multiset(SortByTime(ms)) == multiset(ms)
  {
    if ms != [] {
      SortByTimeSorts(ms[1..]);
      InsertByTimeAscending(ms[0], SortByTime(ms[1..]));
      InsertByTimeContents(ms[0], SortByTime(ms[1..]));
      assert ms == [ms[0]] + ms[1..];
    }
  }

  /** The history holds at most `limit` messages, never the excluded one, all
      among those fetched, in ascending creation time: exactly the first
      `limit` fetched messages other than the excluded one, reordered. */
  lemma RecentHistory(fetched: seq<ChatMessage>, excludeId: string, limit: nat)
    ensures var r := RecentMessages(fetched, excludeId, limit);
      |r| <= limit && Ascending(r) && multiset(r) <= multiset(fetched)
      && (forall k :: 0 <= k < |r| ==> r[k].id != Some(excludeId))
    ensures var kept := Excluding(fetched, excludeId);
      multiset(RecentMessages(fetched, excludeId, limit)) == multiset(kept[..if limit < |kept| then limit else |kept|])
  {
    var kept := Excluding(fetched, excludeId);
    var taken := kept[..if limit < |kept| then limit else |kept|];
    SortByTimeSorts(taken);
    var r := SortByTime(taken);
    assert |r| == |multiset(r)| == |taken|;
    PrefixOfKept(fetched, kept, |taken|);
    NoneExcluded(r, taken, excludeId);
  }

  /** A prefix of the kept messages is a sub-multiset of those fetched. */
  lemma PrefixOfKept(fetched: seq<ChatMessage>, kept: seq<ChatMessage>, n: nat)
    requires n <= |kept| && multiset(kept) <= multiset(fetched)
    ensures multiset(kept[..n]) <= multiset(fetched)
  {
    assert kept == kept[..n] + kept[n..];
  }

  /** A permutation of messages none of which is the excluded one holds none either. */
  lemma NoneExcluded(r: seq<ChatMessage>, taken: seq<ChatMessage>, excludeId: string)
    requires multiset(r) == multiset(taken)
    requires forall k :: 0 <= k < |taken| ==> taken[k].id != Some(excludeId)
    ensures forall k :: 0 <= k < |r| ==> r[k].id != Some(excludeId)
  {
    forall k | 0 <= k < |r| ensures r[k].id != Some(excludeId) {
      assert r[k] in multiset(taken);
      var j :| 0 <= j < |taken| && taken[j] == r[k];
    }
  }

  /** The number of earlier messages sent with a new one. */
  const HistoryLimit: nat := 20

  /** buildAIRequest: the recent history drawn from `fetched` without the new
      message (getRecentMessages), then the new user message; temperature and
      maxTokens come from the session metadata, 0.7 and 1024 by default, and a
      value of another type fails the cast. */
  function BuildAIRequest(session: ChatSession, modelName: string, newContent: string, userMessageId: string,
                          fetched: seq<ChatMessage>): Result<AIRequest>
  {
    var params := session.metadata;
    if "temperature" in params && !params["temperature"].DoubleValue? then
      Err(CastFailure(params["temperature"], DoubleClass))
    else if "maxTokens" in params && !params["maxTokens"].IntValue? then
      Err(CastFailure(params["maxTokens"], IntegerClass))
    else
      var history := RecentMessages(fetched, userMessageId, HistoryLimit);
      var temperature := if "temperature" in params then params["temperature"].d else 0.7;
      var maxTokens := if "maxTokens" in params then params["maxTokens"].i else 1024;
      var messages := seq(|history|, k requires 0 <= k < |history| => Message(history[k].role, history[k].content))
                      + [Message("user", newContent)];
      Ok(NewRequest.(userId := Some(session.userId), model := Some(modelName), messages := messages,
                     temperature := Some(temperature), maxTokens := Some(maxTokens)))
  }

  /** The request carries the history's roles and contents in order, then the
      new content as a user message; without the two metadata keys it uses
      temperature 0.7 and 1024 tokens. */
  lemma RequestFromHistory(session: ChatSession, modelName: string, newContent: string, userMessageId: string,
                           fetched: seq<ChatMessage>)
    ensures var r := BuildAIRequest(session, modelName, newContent, userMessageId, fetched);
      var history := RecentMessages(fetched, userMessageId, HistoryLimit);
      r.Ok? ==> (|r.value.messages| == |history| + 1
        && r.value.messages[|history|] == Message("user", newContent)
        && (forall k :: 0 <= k < |history| ==>
              r.value.messages[k].role == history[k].role && r.value.messages[k].content == history[k].content)
        && r.value.model == Some(modelName) && r.value.userId == Some(session.userId))
    ensures var r := BuildAIRequest(session, modelName, newContent, userMessageId, fetched);
      "temperature" !in session.metadata && "maxTokens" !in session.metadata ==>
        r.Ok? && r.value.temperature == Some(0.7) && r.value.maxTokens == Some(1024)
    ensures BuildAIRequest(session, modelName, newContent, userMessageId, fetched).Err? <==>
      (("temperature" in session.metadata && !session.metadata["temperature"].DoubleValue?)
       || ("maxTokens" in session.metadata && !session.metadata["maxTokens"].IntValue?))
    ensures var r := BuildAIRequest(session, modelName, newContent, userMessageId, fetched);
      "temperature" in session.metadata && !session.metadata["temperature"].DoubleValue? ==>
        r == Err(Thrown(ClassCast, CastMessage(MetaClass(session.metadata["temperature"]), DoubleClass)))
    ensures var r := BuildAIRequest(session, modelName, newContent, userMessageId, fetched);
      ("temperature" !in session.metadata || session.metadata["temperature"].DoubleValue?)
      && "maxTokens" in session.metadata && !session.metadata["maxTokens"].IntValue? ==>
        r == Err(Thrown(ClassCast, CastMessage(MetaClass(session.metadata["maxTokens"]), IntegerClass)))
  {
  }

  /** An integer temperature in the session metadata: the reply fails with the
      prefix followed by the JVM's message for the Integer-to-Double cast. */
  lemma IntegerTemperatureReported(session: ChatSession, modelName: string, newContent: string,
                                   userMessageId: string, fetched: seq<ChatMessage>)
    requires session.metadata == map["temperature" := IntValue(1)]
    ensures var r := BuildAIRequest(session, modelName, newContent, userMessageId, fetched);
      r.Err? && r.error.kind == ClassCast
      && ReplyFailedPrefix + StringOf(r.error.message)
         == ReplyFailedPrefix + CastMessage("java.lang.Integer", "java.lang.Double")
  {
  }

  // ------------------------------------------------------------ messages

  function UserChatMessage(id: string, session: ChatSession, userId: string, content: string,
                           modelName: string, now: int): ChatMessage
  {
    ChatMessage(Some(id), session.sessionId, Some(userId), "user", content, modelName, "SENT", "TEXT", None, 0, now)
  }

  function AssistantChatMessage(id: string, session: ChatSession, userId: string, content: string, modelName: string,
                                parentId: string, tokenCount: int, now: int): ChatMessage
  {
    ChatMessage(Some(id), session.sessionId, Some(userId), "assistant", content, modelName, "DELIVERED", "TEXT",
                Some(parentId), tokenCount, now)
  }

  function ChunkMessage(sessionId: string, chunk: string, modelName: string, now: int): ChatMessage
  {
    ChatMessage(None, sessionId, None, "assistant", chunk, modelName, "STREAMING", "STREAM_CHUNK", None, 0, now)
  }

  /** The text of a stream: its chunks joined in order. */
  function Joined(chunks: seq<string>): string
  {
    if chunks == [] then "" else Joined(chunks[..|chunks| - 1]) + chunks[|chunks| - 1]
  }

  /** A stream whose chunks are all empty has no text, so no reply is stored for it. */
  lemma {:induction false} EmptyChunksNoText(chunks: seq<string>)
    requires forall k :: 0 <= k < |chunks| ==> chunks[k] == ""
    ensures Joined(chunks) == ""
  {
    if chunks != [] {
      EmptyChunksNoText(chunks[..|chunks| - 1]);
    }
  }

  /** The chunks passed on one by one as stream messages, and joined. */
  method Relay(sessionId: string, chunks: seq<string>, modelName: string, now: int)
    returns (full: string, emitted: seq<ChatMessage>)
    ensures full == Joined(chunks)
    ensures |emitted| == |chunks|
    ensures forall k :: 0 <= k < |chunks| ==> emitted[k] == ChunkMessage(sessionId, chunks[k], modelName, now)
  {
    full := "";
    emitted := [];
    var i := 0;
    while i < |chunks|
      invariant 0 <= i <= |chunks|
      invariant full == Joined(chunks[..i])
      invariant |emitted| == i
      invariant forall k :: 0 <= k < i ==> emitted[k] == ChunkMessage(sessionId, chunks[k], modelName, now)
    {
      assert chunks[..i + 1][..i] == chunks[..i];
      full := full + chunks[i];
      emitted := emitted + [ChunkMessage(sessionId, chunks[i], modelName, now)];
      i := i + 1;
    }
    assert chunks[..i] == chunks;
  }

  /** What the model call did. */
  datatype AIReply = AIFailed(message: Option<string>) | AIReplied(content: string, tokenCount: int)

  // ------------------------------------------------------------ deletion

  /** The messages that do not belong to a session, in order. */
  function WithoutSession(ms: seq<ChatMessage>, sessionId: string): (r: seq<ChatMessage>)
    ensures forall k :: 0 <= k < |r| ==> r[k].sessionId != sessionId && r[k] in ms
    ensures forall m :: m in ms && m.sessionId != sessionId ==> m in r
  {
    if ms == [] then []
    else
      assert ms == [ms[0]] + ms[1..];
      (if ms[0].sessionId != sessionId then [ms[0]] else []) + WithoutSession(ms[1..], sessionId)
  }

  predicate Owns(sessions: map<string, ChatSession>, userId: string, sessionId: string)
  {
    sessionId in sessions && sessions[sessionId].userId == userId
  }

  /** deleteSession as written: every message of the session id goes, whoever
      asks; the session itself goes only for its owner. */
  function DeleteSessionAsWritten(sessions: map<string, ChatSession>, messages: seq<ChatMessage>,
                                  userId: string, sessionId: string): (map<string, ChatSession>, seq<ChatMessage>)
  {
    (if Owns(sessions, userId, sessionId) then sessions - {sessionId} else sessions,
     WithoutSession(messages, sessionId))
  }

  /** A user who does not own a session still erases its messages. */
  lemma StrangerErasesMessages()
    ensures var s := ChatSession("s1", "alice", None, "c1", map[], Active, None, 1, 0, 0, None);
      var m := ChatMessage(Some("m1"), "s1", Some("alice"), "user", "hi", "gpt-4", "SENT", "TEXT", None, 0, 0);
      var (sessions, messages) := DeleteSessionAsWritten(map["s1" := s], [m], "bob", "s1");
      sessions == map["s1" := s] && messages == []
  {
    var m := ChatMessage(Some("m1"), "s1", Some("alice"), "user", "hi", "gpt-4", "SENT", "TEXT", None, 0, 0);
    assert WithoutSession([m], "s1") == [] + WithoutSession([], "s1");
  }

  /** deleteSession corrected: the messages go only together with a session the user owns. */
  function DeleteSession(sessions: map<string, ChatSession>, messages: seq<ChatMessage>,
                         userId: string, sessionId: string): (map<string, ChatSession>, seq<ChatMessage>)
  {
    if Owns(sessions, userId, sessionId) then (sessions - {sessionId}, WithoutSession(messages, sessionId))
    else (sessions, messages)
  }

  /** A stranger changes nothing; the owner loses exactly that session and its
      messages, every other message staying in place. */
  lemma DeleteSessionRespectsOwnership(sessions: map<string, ChatSession>, messages: seq<ChatMessage>,
                                       userId: string, sessionId: string)
    ensures !Owns(sessions, userId, sessionId) ==> DeleteSession(sessions, messages, userId, sessionId) == (sessions, messages)
    ensures Owns(sessions, userId, sessionId) ==>
      (var (after, kept) := DeleteSession(sessions, messages, userId, sessionId);
       sessionId !in after && after == sessions - {sessionId}
       && (forall m :: m in kept <==> m in messages && m.sessionId != sessionId))
  {
  }

  // ------------------------------------------------------------ the store

  class ChatStore {
    var sessions: map<string, ChatSession>
    var messages: seq<ChatMessage>

    /** Sessions are stored under their own id. */
    predicate Valid()
      reads this
    {
      forall id :: id in sessions ==> sessions[id].sessionId == id
    }

    constructor ()
      ensures Valid() && sessions == map[] && messages == []
    {
      sessions := map[];
      messages := [];
    }

    /** findByUserIdAndSessionId. */
    function FindSession(userId: string, sessionId: string): (r: Option<ChatSession>)
      reads this
      ensures r.Some? <==> Owns(sessions, userId, sessionId)
      ensures r.Some? ==> r.value == sessions[sessionId]
    {
      if Owns(sessions, userId, sessionId) then Some(sessions[sessionId]) else None
    }

    /** createSession and createSessionInternal. */
    method CreateSession(userId: string, novelId: Option<string>, modelName: Option<string>,
                         metadata: map<string, MetaValue>, namedConfigId: Option<string>,
                         defaultConfigId: Option<string>, firstConfigId: Option<string>,
                         sessionId: string, now: int)
      returns (r: Result<ChatSession>)
      requires Valid()
      modifies this
      ensures Valid() && messages == old(messages)
      ensures var chosen := ConfigForSession(modelName, namedConfigId, defaultConfigId, firstConfigId);
        (chosen.Err? ==> r == Err(chosen.error) && sessions == old(sessions))
        && (chosen.Ok? ==> (r == Ok(NewSession(sessionId, userId, novelId, chosen.value, metadata, now))
                             && sessions == old(sessions)[sessionId := r.value]))
      ensures r.Ok? ==> r.value.status == Active && r.value.messageCount == 0 && r.value.userId == userId
    {
      var chosen := ConfigForSession(modelName, namedConfigId, defaultConfigId, firstConfigId);
      if chosen.Err? {
        return Err(chosen.error);
      }
      var session := NewSession(sessionId, userId, novelId, chosen.value, metadata, now);
      sessions := sessions[session.sessionId := session];
      r := Ok(session);
    }

    /** updateSession: nothing for an unknown session; the refused config
        switch is an error; otherwise the updated session is saved (with a new
        updatedAt) only when something changed and its status is not FAILED. */
    method UpdateSession(userId: string, sessionId: string, updates: map<string, MetaValue>,
                         newConfig: Option<ChatConfig>, now: int)
      returns (r: Result<Option<ChatSession>>)
      requires Valid()
      modifies this
      ensures Valid() && messages == old(messages)
      ensures !Owns(old(sessions), userId, sessionId) ==> r == Ok(None) && sessions == old(sessions)
      ensures Owns(old(sessions), userId, sessionId) ==>
        (var applied := Applied(old(sessions)[sessionId], updates, newConfig, now);
         (applied.Err? ==> r == Err(applied.error) && sessions == old(sessions))
         && (applied.Ok? && applied.value.1 && applied.value.0.status != FailedStatus ==>
               r == Ok(Some(applied.value.0.(updatedAt := now)))
               && sessions == old(sessions)[sessionId := applied.value.0.(updatedAt := now)])
         && (applied.Ok? && !(applied.value.1 && applied.value.0.status != FailedStatus) ==>
               r == Ok(Some(applied.value.0)) && sessions == old(sessions)))
    {
      var found := FindSession(userId, sessionId);
      if found.None? {
        return Ok(None);
      }
      var applied := Applied(found.value, updates, newConfig, now);
      if applied.Err? {
        return Err(applied.error);
      }
      var (updated, needsSave) := applied.value;
      if needsSave && updated.status != FailedStatus {
        updated := updated.(updatedAt := now);
        sessions := sessions[updated.sessionId := updated];
      }
      r := Ok(Some(updated));
    }

    /** sendMessage: `fetched` is the session's newest-first message query that
        the request history is built from; a failure to build the request is
        reported like any other failure after the configuration is found. */
    method SendMessage(userId: string, sessionId: string, content: string, config: Option<ChatConfig>,
                       keyDecrypted: bool, fetched: seq<ChatMessage>, reply: AIReply,
                       userMessageId: string, aiMessageId: string, now: int)
      returns (r: Result<ChatMessage>)
      requires Valid()
      modifies this
      ensures Valid()
      ensures !Owns(old(sessions), userId, sessionId) ==>
        r == Err(Thrown(Runtime, SessionMissingPrefix + sessionId)) && unchanged(this)
      ensures Owns(old(sessions), userId, sessionId) && (config.None? || !config.value.isValidated) ==>
        r.Err? && unchanged(this)
      ensures Owns(old(sessions), userId, sessionId) && config.Some? && config.value.isValidated ==>
        (var session := old(sessions)[sessionId];
         var asked := UserChatMessage(userMessageId, session, userId, content, config.value.modelName, now);
         var request := BuildAIRequest(session.(messageCount := session.messageCount + 1), config.value.modelName,
                                       content, userMessageId, fetched);
         (!keyDecrypted || request.Err? || reply.AIFailed? ==>
            r.Err? && messages == old(messages) + [asked] && sessions == old(sessions))
         && (keyDecrypted && request.Err? ==>
              r == Err(Thrown(Runtime, ReplyFailedPrefix + StringOf(request.error.message))))
         && (keyDecrypted && request.Ok? && reply.AIReplied? ==>
              r == Ok(AssistantChatMessage(aiMessageId, session, userId, reply.content, config.value.modelName,
                                           userMessageId, reply.tokenCount, now))
              && messages == old(messages) + [asked, r.value]
              && sessions == old(sessions)[sessionId := session.(messageCount := session.messageCount + 2,
                                                                   lastMessageAt := Some(now))]))
    {
      var found := FindSession(userId, sessionId);
      if found.None? {
        return Err(Thrown(Runtime, SessionMissingPrefix + sessionId));
      }
      var session := found.value;
      if config.None? {
        return Err(Thrown(Runtime, ReplyFailedPrefix + ConfigMissingPrefix + session.selectedModelConfigId));
      }
      if !config.value.isValidated {
        return Err(Thrown(Runtime, ReplyFailedPrefix + ConfigNotValidated));
      }
      var modelName := config.value.modelName;
      var asked := UserChatMessage(userMessageId, session, userId, content, modelName, now);
      messages := messages + [asked];
      session := session.(messageCount := session.messageCount + 1);
      if !keyDecrypted {
        return Err(Thrown(Runtime, ReplyFailedPrefix + KeyUnreadable));
      }
      var request := BuildAIRequest(session, modelName, content, userMessageId, fetched);
      if request.Err? {
        return Err(Thrown(Runtime, ReplyFailedPrefix + StringOf(request.error.message)));
      }
      match reply {
        case AIFailed(message) =>
          r := Err(Thrown(Runtime, ReplyFailedPrefix + StringOf(message)));
        case AIReplied(text, tokenCount) =>
          var answer := AssistantChatMessage(aiMessageId, session, userId, text, modelName, userMessageId, tokenCount, now);
          messages := messages + [answer];
          session := session.(lastMessageAt := Some(now), messageCount := session.messageCount + 1);
          sessions := sessions[session.sessionId := session];
          r := Ok(answer);
      }
    }

    /** streamMessage: the chunks are passed on as they come and joined; a
        stream that ends with text stores the reply and counts both messages,
        one without text stores no reply but still counts the user message, and
        a stream that fails stores nothing more. A request that cannot be built
        from `fetched` ends the stream with that exception, unwrapped. */
    method StreamMessage(userId: string, sessionId: string, content: string, config: Option<ChatConfig>,
                         keyDecrypted: bool, fetched: seq<ChatMessage>, chunks: seq<string>, streamError: Option<Exception>,
                         userMessageId: string, aiMessageId: string, now: int)
      returns (emitted: seq<ChatMessage>, error: Option<Exception>)
      requires Valid()
      modifies this
      ensures Valid()
      ensures !Owns(old(sessions), userId, sessionId) || config.None? || !config.value.isValidated ==>
        emitted == [] && error.Some? && unchanged(this)
      ensures Owns(old(sessions), userId, sessionId) && config.Some? && config.value.isValidated ==>
        (var session := old(sessions)[sessionId];
         var modelName := config.value.modelName;
         var asked := UserChatMessage(userMessageId, session, userId, content, modelName, now);
         var full := Joined(chunks);
         var counted := session.(messageCount := session.messageCount + 1);
         var request := BuildAIRequest(counted, modelName, content, userMessageId, fetched);
         (!keyDecrypted ==> emitted == [] && error.Some? && messages == old(messages) + [asked] && sessions == old(sessions))
         && (keyDecrypted && request.Err? ==>
              emitted == [] && error == Some(request.error) && messages == old(messages) + [asked]
              && sessions == old(sessions))
         && (keyDecrypted && request.Ok? ==>
              |emitted| >= |chunks|
              && (forall k :: 0 <= k < |chunks| ==> emitted[k] == ChunkMessage(sessionId, chunks[k], modelName, now)))
         && (keyDecrypted && request.Ok? && streamError.Some? ==>
              error == streamError && |emitted| == |chunks| && messages == old(messages) + [asked]
              && sessions == old(sessions))
         && (keyDecrypted && request.Ok? && streamError.None? && IsBlank(full) ==>
              error.None? && |emitted| == |chunks| && messages == old(messages) + [asked]
              && sessions == old(sessions)[sessionId := counted.(lastMessageAt := Some(now))])
         && (keyDecrypted && request.Ok? && streamError.None? && !IsBlank(full) ==>
              (var answer := AssistantChatMessage(aiMessageId, session, userId, full, modelName, userMessageId, 0, now);
               error.None? && emitted == emitted[..|chunks|] + [answer] && messages == old(messages) + [asked, answer]
               && sessions == old(sessions)[sessionId := counted.(messageCount := counted.messageCount + 1,
                                                                    lastMessageAt := Some(now))])))
    {
      var found := FindSession(userId, sessionId);
      if found.None? {
        return [], Some(Thrown(Runtime, SessionMissingPrefix + sessionId));
      }
      var session := found.value;
      ghost var original := session;
      assert original == old(sessions)[sessionId] && original.sessionId == sessionId;
      if config.None? {
        return [], Some(Thrown(Runtime, ConfigMissingPrefix + session.selectedModelConfigId));
      }
      if !config.value.isValidated {
        return [], Some(Thrown(Runtime, ConfigNotValidated));
      }
      var modelName := config.value.modelName;
      var asked := UserChatMessage(userMessageId, session, userId, content, modelName, now);
      messages := messages + [asked];
      session := session.(messageCount := session.messageCount + 1);
      if !keyDecrypted {
        return [], Some(Thrown(Runtime, KeyUnreadable));
      }
      var request := BuildAIRequest(session, modelName, content, userMessageId, fetched);
      if request.Err? {
        return [], Some(request.error);
      }
      assert AssistantChatMessage(aiMessageId, session, userId, Joined(chunks), modelName, userMessageId, 0, now)
          == AssistantChatMessage(aiMessageId, original, userId, Joined(chunks), modelName, userMessageId, 0, now);
      emitted, error := FinishStream(session, userId, modelName, chunks, streamError, userMessageId, aiMessageId, now);
    }

    /** The end of streamMessage once the request is built: the chunks are
        relayed; a stream that fails changes nothing more, and one that
        completes stamps the session and, when its text is not blank, stores
        the reply and counts it. */
    method FinishStream(session: ChatSession, userId: string, modelName: string, chunks: seq<string>,
                        streamError: Option<Exception>, userMessageId: string, aiMessageId: string, now: int)
      returns (emitted: seq<ChatMessage>, error: Option<Exception>)
      requires Valid()
      modifies this
      ensures Valid()
      ensures |emitted| >= |chunks|
      ensures forall k :: 0 <= k < |chunks| ==> emitted[k] == ChunkMessage(session.sessionId, chunks[k], modelName, now)
      ensures streamError.Some? ==> error == streamError && |emitted| == |chunks| && unchanged(this)
      ensures streamError.None? && IsBlank(Joined(chunks)) ==>
        error.None? && |emitted| == |chunks| && messages == old(messages)
        && sessions == old(sessions)[session.sessionId := session.(lastMessageAt := Some(now))]
      ensures streamError.None? && !IsBlank(Joined(chunks)) ==>
        (var answer := AssistantChatMessage(aiMessageId, session, userId, Joined(chunks), modelName,
                                            userMessageId, 0, now);
         error.None? && emitted == emitted[..|chunks|] + [answer] && messages == old(messages) + [answer]
         && sessions == old(sessions)[session.sessionId := session.(messageCount := session.messageCount + 1,
                                                                    lastMessageAt := Some(now))])
    {
      var builder;
      builder, emitted := Relay(session.sessionId, chunks, modelName, now);
      if streamError.Some? {
        return emitted, streamError;
      }
      error := None;
      if !IsBlank(builder) {
        var answer := AssistantChatMessage(aiMessageId, session, userId, builder, modelName, userMessageId, 0, now);
        messages := messages + [answer];
        var stamped := session.(lastMessageAt := Some(now), messageCount := session.messageCount + 1);
        sessions := sessions[stamped.sessionId := stamped];
        emitted := emitted + [answer];
      } else {
        var stamped := session.(lastMessageAt := Some(now));
        sessions := sessions[stamped.sessionId := stamped];
      }
    }

    /** deleteSession as written: the session's messages are deleted first,
        whoever asks, and then the session itself if the user owns it (see
        StrangerErasesMessages). */
    method DeleteChatSession(userId: string, sessionId: string)
      requires Valid()
      modifies this
      ensures Valid()
      ensures (sessions, messages) == DeleteSessionAsWritten(old(sessions), old(messages), userId, sessionId)
    {
      messages := WithoutSession(messages, sessionId);
      if Owns(sessions, userId, sessionId) {
        sessions := sessions - {sessionId};
      }
    }
  }
}
