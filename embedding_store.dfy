// ChromaEmbeddingStoreAdapter: the embedding store over the vector store. Every
// vector is brought to 384 dimensions (zero-padded or truncated) before it is
// stored or searched with; a failure is wrapped twice (once by the retry
// wrapper, once by the operation) and counted against the operation with the
// time it happened. The vector store's answers, after its retries, and the clock
// are parameters.
module EmbeddingStore {
  import opened Wrappers
  import opened JStrings

  /** EXPECTED_DIMENSION. */
  const ExpectedDimension: nat := 384
  /** ERROR_THRESHOLD_MS. */
  const ErrorThresholdMs: int := 1000
  const SizeMismatchMessage: string := "嵌入向量和文本段落数量不匹配"

  /** An embedding's vector; None stands for a null array. Components are
      copied, never computed with, so they are kept exact. */
  type Vector = seq<real>

  /** A text segment: its text and its metadata. */
  datatype TextSegment = TextSegment(text: string, metadata: Option<map<string, string>>)

  /** VectorStore.VectorData: the content, the vector and the metadata stored. */
  datatype VectorData = VectorData(content: string, vector: Option<Vector>, metadata: map<string, string>)

  // ---------------------------------------------------------------- dimension

  /** n zero components. */
  function Zeros(n: nat): (z: Vector)
    ensures |z| == n && forall i :: 0 <= i < n ==> z[i] == 0.0
  {
    if n == 0 then [] else Zeros(n - 1) + [0.0]
  }

  /** What adjustVectorDimension yields: 384 components, the original's prefix
      and zeros after it. */
  function Adjusted(v: Vector): (r: Vector)
    ensures |r| == ExpectedDimension
    ensures forall i :: 0 <= i < |r| ==> r[i] == if i < |v| then v[i] else 0.0
  {
    if |v| < ExpectedDimension then v + Zeros(ExpectedDimension - |v|) else v[..ExpectedDimension]
  }

  /** adjustVectorDimension: a fresh 384-component array, zero-filled, with the
      original's first components copied in. */
  method AdjustVectorDimension(original: array<real>) returns (adjusted: array<real>)
    ensures fresh(adjusted)
    ensures adjusted[..] == Adjusted(original[..])
  {
    adjusted := new real[ExpectedDimension](_ => 0.0);
    var n := if original.Length < ExpectedDimension then original.Length else ExpectedDimension;
    for i := 0 to n
      invariant forall k :: 0 <= k < i ==> adjusted[k] == original[k]
      invariant forall k :: i <= k < ExpectedDimension ==> adjusted[k] == 0.0
    {
      adjusted[i] := original[i];
    }
  }

  /** validateAndAdjustEmbeddingDimension: a null or empty vector gives null, one
      of 384 components is kept as it is, any other is adjusted. */
  function ValidateAndAdjust(v: Option<Vector>): (r: Option<Vector>)
    ensures r.None? <==> v.None? || v.value == []
    ensures r.Some? ==> |r.value| == ExpectedDimension
    ensures r.Some? ==> forall i :: 0 <= i < ExpectedDimension ==>
      r.value[i] == if i < |v.value| then v.value[i] else 0.0
  {
    if v.None? || v.value == [] then None
    else if |v.value| == ExpectedDimension then v
    else Some(Adjusted(v.value))
  }

  /** Adjusting is idempotent, and a vector of the expected size is unchanged. */
  lemma ValidateAndAdjustIdempotent(v: Option<Vector>)
    ensures ValidateAndAdjust(ValidateAndAdjust(v)) == ValidateAndAdjust(v)
    ensures v.Some? && |v.value| == ExpectedDimension ==> ValidateAndAdjust(v) == v
  {
  }

  /** Two vectors that agree on their first 384 components and are both at
      least that long adjust to the same vector: truncation forgets the rest. */
  lemma TruncationForgetsTail(v: Vector, w: Vector)
    requires |v| >= ExpectedDimension && |w| >= ExpectedDimension
    requires v[..ExpectedDimension] == w[..ExpectedDimension]
    ensures ValidateAndAdjust(Some(v)) == ValidateAndAdjust(Some(w))
  {
    var a, b := ValidateAndAdjust(Some(v)).value, ValidateAndAdjust(Some(w)).value;
    forall i | 0 <= i < ExpectedDimension ensures a[i] == b[i] {
      assert v[i] == v[..ExpectedDimension][i] && w[i] == w[..ExpectedDimension][i];
    }
    assert a == b;
  }

  // --------------------------------------------------------------- failures

  /** The exception an operation ends with when the store's answer is the error
      e: withRetry wraps it as "<operation> 操作失败: <message>", and the operation
      wraps that behind its own prefix. */
  function StoreFailure(operation: string, prefix: string, e: Exception): (x: Exception)
    ensures x.kind == VectorStore && x.cause.Some? && x.cause.value.cause == Some(e)
    ensures x.message == Some(prefix + operation + " 操作失败: " + StringOf(e.message))
  {
    var inner := Exception(VectorStore, Some(operation + " 操作失败: " + StringOf(e.message)), Some(e), []);
    assert prefix + (operation + " 操作失败: " + StringOf(e.message)) == prefix + operation + " 操作失败: " + StringOf(e.message);
    Exception(VectorStore, Some(prefix + StringOf(inner.message)), Some(inner), [])
  }

  /** The element list addAll(embeddings, segments) sends: one entry per pair
      whose vector survives validation, with the segment's text and metadata. */
  function SegmentBatch(embeddings: seq<Option<Vector>>, segments: seq<TextSegment>): (b: seq<VectorData>)
    requires |embeddings| == |segments|
    ensures |b| <= |embeddings|
    ensures forall k :: 0 <= k < |b| ==> b[k].vector.Some? && |b[k].vector.value| == ExpectedDimension
  {
    if embeddings == [] then []
    else
      var n := |embeddings| - 1;
      var init := SegmentBatch(embeddings[..n], segments[..n]);
      var adjusted := ValidateAndAdjust(embeddings[n]);
      if adjusted.None? then init
      else init + [VectorData(segments[n].text, adjusted,
                              if segments[n].metadata.Some? then segments[n].metadata.value else map[])]
  }

  /** The batch holds exactly the pairs whose vector is neither null nor empty. */
  lemma {:induction false} SegmentBatchSkipsOnlyMissing(embeddings: seq<Option<Vector>>, segments: seq<TextSegment>)
    requires |embeddings| == |segments|
    ensures |SegmentBatch(embeddings, segments)| ==
      |set k | 0 <= k < |embeddings| && embeddings[k].Some? && embeddings[k].value != []|
    decreases |embeddings|
  {
    if embeddings != [] {
      var n := |embeddings| - 1;
      SegmentBatchSkipsOnlyMissing(embeddings[..n], segments[..n]);
      var before := set k | 0 <= k < n && embeddings[..n][k].Some? && embeddings[..n][k].value != [];
      var all := set k | 0 <= k < |embeddings| && embeddings[k].Some? && embeddings[k].value != [];
      if embeddings[n].Some? && embeddings[n].value != [] {
        assert all == before + {n};
      } else {
        assert all == before;
      }
    }
  }

  /** The adapter and the error bookkeeping it keeps per operation name. */
  class EmbeddingStoreAdapter {
    var errorCount: map<string, int>
    var lastErrorTime: map<string, int>

    constructor ()
      ensures errorCount == map[] && lastErrorTime == map[]
    {
      errorCount := map[];
      lastErrorTime := map[];
    }

    /** isInErrorCooldown: the operation failed less than a second ago. Like
        resetErrorCount and getErrorCount below, it is a private helper that none
        of the adapter's operations calls. */
    predicate IsInErrorCooldown(operation: string, now: int)
      reads this
    {
      operation in lastErrorTime && now - lastErrorTime[operation] < ErrorThresholdMs
    }

    /** incrementErrorCount then recordErrorTime: the count starts from zero for
        an operation never seen, and the operation enters its cooldown. */
    method RecordFailure(operation: string, now: int)
      modifies this
      ensures errorCount == old(errorCount)[operation := CountOf(old(errorCount), operation) + 1]
      ensures lastErrorTime == old(lastErrorTime)[operation := now]
      ensures IsInErrorCooldown(operation, now) && !IsInErrorCooldown(operation, now + ErrorThresholdMs)
    {
      errorCount := errorCount[operation := CountOf(errorCount, operation) + 1];
      lastErrorTime := lastErrorTime[operation := now];
    }

    /** resetErrorCount. */
    method ResetErrorCount(operation: string)
      modifies this
      ensures errorCount == old(errorCount)[operation := 0] && lastErrorTime == old(lastErrorTime)
    {
      errorCount := errorCount[operation := 0];
    }

    /** getErrorCount: the count, recording a zero for an operation never seen. */
    method GetErrorCount(operation: string) returns (n: int)
      modifies this
      ensures n == CountOf(old(errorCount), operation)
      ensures errorCount == old(errorCount)[operation := n] && lastErrorTime == old(lastErrorTime)
    {
      n := CountOf(errorCount, operation);
      errorCount := errorCount[operation := n];
    }

    /** The catch block every operation shares: a failed answer is counted and
        wrapped, a good one passes through. */
    method Guard<T>(operation: string, prefix: string, outcome: Result<T>, now: int) returns (r: Result<T>)
      modifies this
      ensures outcome.Ok? ==> r == outcome && errorCount == old(errorCount) && lastErrorTime == old(lastErrorTime)
      ensures outcome.Err? ==>
        r == Err(StoreFailure(operation, prefix, outcome.error))
        && errorCount == old(errorCount)[operation := CountOf(old(errorCount), operation) + 1]
        && lastErrorTime == old(lastErrorTime)[operation := now]
    {
      if outcome.Ok? {
        return outcome;
      }
      RecordFailure(operation, now);
      r := Err(StoreFailure(operation, prefix, outcome.error));
    }

    /** add(embedding): stores the adjusted vector with no content and no
        metadata; the store gives the id. */
    method Add(embedding: Option<Vector>, outcome: Result<string>, now: int)
      returns (sent: VectorData, r: Result<string>)
      modifies this
      ensures sent == VectorData("", ValidateAndAdjust(embedding), map[])
      ensures outcome.Ok? ==> r == outcome && errorCount == old(errorCount) && lastErrorTime == old(lastErrorTime)
      ensures outcome.Err? ==> (r == Err(StoreFailure("add", "添加嵌入向量失败: ", outcome.error))
                                && errorCount == old(errorCount)["add" := CountOf(old(errorCount), "add") + 1]
                                && lastErrorTime == old(lastErrorTime)["add" := now])
    {
      sent := VectorData("", ValidateAndAdjust(embedding), map[]);
      r := Guard("add", "添加嵌入向量失败: ", outcome, now);
    }

    /** add(id, embedding): the id, or a drawn UUID when the id is null or empty,
        is handed to storeVector in its content position; the store draws the
        record's own id. */
    method AddWithId(id: Option<string>, embedding: Option<Vector>, generated: string, outcome: Result<()>, now: int)
      returns (sent: VectorData, r: Result<()>)
      modifies this
      ensures sent.vector == ValidateAndAdjust(embedding) && sent.metadata == map[]
      ensures sent.content == if id.None? || id.value == [] then generated else id.value
      ensures outcome.Ok? ==> r == outcome && errorCount == old(errorCount) && lastErrorTime == old(lastErrorTime)
      ensures outcome.Err? ==> (r == Err(StoreFailure("add", "添加带ID的嵌入向量失败: ", outcome.error))
                                && errorCount == old(errorCount)["add" := CountOf(old(errorCount), "add") + 1]
                                && lastErrorTime == old(lastErrorTime)["add" := now])
    {
      var embeddingId := if id.None? || id.value == [] then generated else id.value;
      sent := VectorData(embeddingId, ValidateAndAdjust(embedding), map[]);
      r := Guard("add", "添加带ID的嵌入向量失败: ", outcome, now);
    }

    /** add(embedding, segment): the segment's text is the content and its
        metadata is copied. */
    method AddWithSegment(embedding: Option<Vector>, segment: TextSegment, outcome: Result<string>, now: int)
      returns (sent: VectorData, r: Result<string>)
      modifies this
      ensures sent.vector == ValidateAndAdjust(embedding) && sent.content == segment.text
      ensures sent.metadata == if segment.metadata.Some? then segment.metadata.value else map[]
      ensures outcome.Ok? ==> r == outcome && errorCount == old(errorCount) && lastErrorTime == old(lastErrorTime)
      ensures outcome.Err? ==> (r == Err(StoreFailure("add", "添加嵌入向量和文本段落失败: ", outcome.error))
                                && errorCount == old(errorCount)["add" := CountOf(old(errorCount), "add") + 1]
                                && lastErrorTime == old(lastErrorTime)["add" := now])
    {
      var metadata := if segment.metadata.Some? then segment.metadata.value else map[];
      sent := VectorData(segment.text, ValidateAndAdjust(embedding), metadata);
      r := Guard("add", "添加嵌入向量和文本段落失败: ", outcome, now);
    }

    /** addAll(embeddings): one element per embedding, null vectors included. */
    method AddAll(embeddings: seq<Option<Vector>>, outcome: Result<seq<string>>, now: int)
      returns (sent: seq<VectorData>, r: Result<seq<string>>)
      modifies this
      ensures |sent| == |embeddings|
      ensures forall k :: 0 <= k < |sent| ==> sent[k] == VectorData("", ValidateAndAdjust(embeddings[k]), map[])
      ensures outcome.Ok? ==> r == outcome && errorCount == old(errorCount) && lastErrorTime == old(lastErrorTime)
      ensures outcome.Err? ==> (r == Err(StoreFailure("addAll", "批量添加嵌入向量失败: ", outcome.error))
                                && errorCount == old(errorCount)["addAll" := CountOf(old(errorCount), "addAll") + 1]
                                && lastErrorTime == old(lastErrorTime)["addAll" := now])
    {
      sent := [];
      for i := 0 to |embeddings|
        invariant |sent| == i
        invariant forall k :: 0 <= k < i ==> sent[k] == VectorData("", ValidateAndAdjust(embeddings[k]), map[])
      {
        sent := sent + [VectorData("", ValidateAndAdjust(embeddings[i]), map[])];
      }
      r := Guard("addAll", "批量添加嵌入向量失败: ", outcome, now);
    }

    /** addAll(embeddings, segments): lists of different sizes fail before the
        store is reached; otherwise the pairs whose vector survives validation are
        sent, the others skipped. */
    method AddAllWithSegments(embeddings: seq<Option<Vector>>, segments: seq<TextSegment>,
                              outcome: Result<seq<string>>, now: int)
      returns (sent: Option<seq<VectorData>>, r: Result<seq<string>>)
      modifies this
      ensures sent.Some? <==> |embeddings| == |segments|
      ensures sent.Some? ==> sent.value == SegmentBatch(embeddings, segments)
      ensures |embeddings| != |segments| ==>
        var mismatch := Thrown(VectorStore, SizeMismatchMessage);
        r == Err(Exception(VectorStore, Some("批量添加嵌入向量和文本段落失败: " + SizeMismatchMessage), Some(mismatch), []))
      ensures |embeddings| == |segments| && outcome.Ok? ==>
        r == outcome && errorCount == old(errorCount) && lastErrorTime == old(lastErrorTime)
      ensures |embeddings| == |segments| && outcome.Err? ==>
        r == Err(StoreFailure("addAll", "批量添加嵌入向量和文本段落失败: ", outcome.error))
      ensures r.Err? ==> (errorCount == old(errorCount)["addAll" := CountOf(old(errorCount), "addAll") + 1]
                          && lastErrorTime == old(lastErrorTime)["addAll" := now])
    {
      if |embeddings| != |segments| {
        var mismatch := Thrown(VectorStore, SizeMismatchMessage);
        RecordFailure("addAll", now);
        sent := None;
        r := Err(Exception(VectorStore, Some("批量添加嵌入向量和文本段落失败: " + SizeMismatchMessage), Some(mismatch), []));
        return;
      }
      var batch: seq<VectorData> := [];
      for i := 0 to |embeddings|
        invariant batch == SegmentBatch(embeddings[..i], segments[..i])
      {
        assert embeddings[..i + 1][..i] == embeddings[..i] && segments[..i + 1][..i] == segments[..i];
        var adjusted := ValidateAndAdjust(embeddings[i]);
        if adjusted.None? {
          continue;
        }
        var metadata := if segments[i].metadata.Some? then segments[i].metadata.value else map[];
        batch := batch + [VectorData(segments[i].text, adjusted, metadata)];
      }
      assert embeddings[..|embeddings|] == embeddings && segments[..|segments|] == segments;
      sent := Some(batch);
      r := Guard("addAll", "批量添加嵌入向量和文本段落失败: ", outcome, now);
    }

    /** findRelevant(query, maxResults), with or without a metadata filter: the
        adjusted query vector is searched with; a filter that is null or empty is
        no filter. The matches are the store's. */
    method FindRelevant<M>(query: Option<Vector>, filter: Option<Option<map<string, string>>>,
                           outcome: Result<seq<M>>, now: int)
      returns (sentQuery: Option<Vector>, sentFilter: Option<map<string, string>>, r: Result<seq<M>>)
      modifies this
      ensures sentQuery == ValidateAndAdjust(query)
      ensures sentFilter.Some? <==> filter.Some? && filter.value.Some? && filter.value.value != map[]
      ensures sentFilter.Some? ==> sentFilter.value == filter.value.value
      ensures outcome.Ok? ==> r == outcome && errorCount == old(errorCount) && lastErrorTime == old(lastErrorTime)
      ensures outcome.Err? ==>
        r == Err(StoreFailure("findRelevant", if filter.None? then "查找相关文本段落失败: "
                                              else "查找相关文本段落（带过滤条件）失败: ", outcome.error))
        && errorCount == old(errorCount)["findRelevant" := CountOf(old(errorCount), "findRelevant") + 1]
        && lastErrorTime == old(lastErrorTime)["findRelevant" := now]
    {
      sentQuery := ValidateAndAdjust(query);
      sentFilter := if filter.Some? && filter.value.Some? && filter.value.value != map[] then filter.value else None;
      var prefix := if filter.None? then "查找相关文本段落失败: " else "查找相关文本段落（带过滤条件）失败: ";
      r := Guard("findRelevant", prefix, outcome, now);
    }
  }

  /** The count of an operation, zero when it was never seen. */
  function CountOf(counts: map<string, int>, operation: string): (n: int)
    ensures operation !in counts ==> n == 0
    ensures operation in counts ==> n == counts[operation]
  {
    if operation in counts then counts[operation] else 0
  }

  /** Failures only ever raise a count that starts at zero: after k failures of
      an operation never seen, its count is k. */
  lemma {:induction false} CountsFailures(counts: map<string, int>, operation: string, k: nat)
    requires operation !in counts
    ensures CountOf(Failed(counts, operation, k), operation) == k
  {
    if k > 0 {
      CountsFailures(counts, operation, k - 1);
    }
  }

  /** The counts after k failures of one operation. */
  function Failed(counts: map<string, int>, operation: string, k: nat): (c: map<string, int>)
    ensures forall o :: o != operation ==> CountOf(c, o) == CountOf(counts, o)
  {
    if k == 0 then counts
    else
      var before := Failed(counts, operation, k - 1);
      before[operation := CountOf(before, operation) + 1]
  }
}
