/** `backend/services/qdrant.py`: the chunk vectors of every document in
    one Qdrant collection. The client calls are parameters; `uuid4()` and
    `utcnow()` are too, as the `i`-th value they hand out. */
module Qdrant {
  import opened Wrappers
  import opened Text
  import opened Seqs
  import opened Embedding

  /** `QDRANT_COLLECTION_NAME`'s default. */
  const CollectionName := "documents"
  /** The collection is created for 384-dimensional vectors under cosine distance. */
  const VectorSize: nat := 384
  const UpsertBatchSize: nat := 100
  /** The `limit` both scrolls ask for. */
  const ScrollLimit: nat := 10000

  /** The payload stored with each chunk vector. */
  datatype Payload = Payload(documentId: string, userId: string, documentName: string,
                             chunkText: string, chunkIndex: nat, createdAt: string)

  /** `PointStruct`. The vector is whatever the embedding gave; the client's
      check that it is a list of numbers is not modelled. */
  datatype Point = Point(id: string, vector: Json, payload: Payload)

  /** A `MatchValue` condition's value: one string, or the list of ids the
      search passes in its place. `MatchValue` takes a single value, so the
      list is a value the Qdrant client can be expected to refuse; the model
      does not check it and leaves the answer to the search oracle. */
  datatype MatchValue = MatchOne(value: string) | MatchList(values: seq<string>)

  /** `FieldCondition`. */
  datatype Condition = Condition(key: string, matches: MatchValue)

  /** A search answer: the point's id, its score and its payload. */
  datatype ScoredPoint = ScoredPoint(id: string, score: real, payload: Payload)

  /** One formatted search result. */
  datatype Hit = Hit(id: string, score: real, documentId: string, documentName: string, text: string, chunkIndex: nat)

  /** A scrolled point as the cleanup sees it: its id and its payload's
      `created_at`, which may be missing. */
  datatype StoredPoint = StoredPoint(id: string, createdAt: Option<string>)

  function Min(a: nat, b: nat): nat {
    if a <= b then a else b
  }

  /** What `ensure_collection_exists` returns or raises: `collections`
      answers the listing of the collection names, `create` the creation of
      the collection, which is asked for only when it is missing. */
  function EnsureOutcome(collections: Result<seq<string>>, create: Outcome): (o: Outcome)
    ensures collections.Failure? ==> o == Fail("Failed to ensure collection exists: " + collections.error)
    ensures collections.Success? && CollectionName in collections.value ==> o == Pass
    ensures collections.Success? && CollectionName !in collections.value ==>
      o == (if create.Pass? then Pass else Fail("Failed to ensure collection exists: " + create.error))
  {
    match collections
    case Failure(e) => Fail("Failed to ensure collection exists: " + e)
    case Success(names) =>
      if CollectionName in names then Pass
      else match create
        case Pass => Pass
        case Fail(e) => Fail("Failed to ensure collection exists: " + e)
  }

  /** `ensure_collection_exists`; `created` says whether the creation was asked for. */
  method EnsureCollectionExists(collections: Result<seq<string>>, create: Outcome) returns (o: Outcome, created: bool)
    ensures created <==> collections.Success? && CollectionName !in collections.value
    ensures o == EnsureOutcome(collections, create)
  {
    if collections.Failure? {
      return Fail("Failed to ensure collection exists: " + collections.error), false;
    }
    created := CollectionName !in collections.value;
    o := Pass;
    if created && create.Fail? {
      o := Fail("Failed to ensure collection exists: " + create.error);
    }
  }

  /** The first `n` points `store_document_chunks` builds, in
      `enumerate(zip(chunks, embeddings))` order. */
  function PointsUpTo(documentId: string, userId: string, documentName: string, chunks: seq<string>,
                      embeddings: seq<Json>, uuids: nat -> string, clock: nat -> string, n: nat): (points: seq<Point>)
    requires n <= |chunks| && n <= |embeddings|
    ensures |points| == n
    ensures forall i :: 0 <= i < n ==>
      && points[i].id == uuids(i)
      && points[i].vector == embeddings[i]
      && points[i].payload == Payload(documentId, userId, documentName, chunks[i], i, clock(i))
    decreases n
  {
    if n == 0 then []
    else PointsUpTo(documentId, userId, documentName, chunks, embeddings, uuids, clock, n - 1) +
         [Point(uuids(n - 1), embeddings[n - 1], Payload(documentId, userId, documentName, chunks[n - 1], n - 1, clock(n - 1)))]
  }

  /** All the points: one per chunk that has an embedding. */
  function ZipPoints(documentId: string, userId: string, documentName: string, chunks: seq<string>,
                     embeddings: seq<Json>, uuids: nat -> string, clock: nat -> string): seq<Point>
  {
    PointsUpTo(documentId, userId, documentName, chunks, embeddings, uuids, clock, Min(|chunks|, |embeddings|))
  }

  /** The point-building loop. */
  method BuildPoints(documentId: string, userId: string, documentName: string, chunks: seq<string>,
                     embeddings: seq<Json>, uuids: nat -> string, clock: nat -> string) returns (points: seq<Point>)
    ensures points == ZipPoints(documentId, userId, documentName, chunks, embeddings, uuids, clock)
  {
    points := [];
    var n := Min(|chunks|, |embeddings|);
    for i := 0 to n
      invariant points == PointsUpTo(documentId, userId, documentName, chunks, embeddings, uuids, clock, i)
    {
      var point := Point(uuids(i), embeddings[i], Payload(documentId, userId, documentName, chunks[i], i, clock(i)));
      points := points + [point];
    }
  }

  /** Point `i` holds chunk `i`, embedding `i` and `chunk_index = i`, and
      every point is tagged with the document, its owner and its name; there
      are as many points as the shorter of the two lists. */
  lemma PointsPairChunksWithEmbeddings(documentId: string, userId: string, documentName: string, chunks: seq<string>,
                                       embeddings: seq<Json>, uuids: nat -> string, clock: nat -> string)
    ensures var points := ZipPoints(documentId, userId, documentName, chunks, embeddings, uuids, clock);
      && |points| == (if |chunks| <= |embeddings| then |chunks| else |embeddings|)
      && (forall i :: 0 <= i < |points| ==>
            points[i].payload.chunkIndex == i && points[i].payload.chunkText == chunks[i] && points[i].vector == embeddings[i])
      && (forall i :: 0 <= i < |points| ==>
            points[i].payload.documentId == documentId && points[i].payload.userId == userId &&
            points[i].payload.documentName == documentName)
  {
  }

  /** The upserts of the batches in order, up to the first that fails. */
  function UpsertOutcome(batches: seq<seq<Point>>, upsert: seq<Point> -> Outcome): Outcome
    decreases |batches|
  {
    if |batches| == 0 then Pass
    else match upsert(batches[0])
      case Fail(e) => Fail(e)
      case Pass => UpsertOutcome(batches[1..], upsert)
  }

  /** The upserts succeed exactly when every batch's upsert does; otherwise
      the outcome is the first failing batch's. */
  lemma {:induction false} UpsertStopsAtFirstFailure(batches: seq<seq<Point>>, upsert: seq<Point> -> Outcome)
    ensures UpsertOutcome(batches, upsert).Pass? <==> forall k :: 0 <= k < |batches| ==> upsert(batches[k]).Pass?
    ensures UpsertOutcome(batches, upsert).Fail? ==>
      exists k :: 0 <= k < |batches| && upsert(batches[k]) == UpsertOutcome(batches, upsert) &&
                  forall j :: 0 <= j < k ==> upsert(batches[j]).Pass?
    decreases |batches|
  {
    if |batches| > 0 {
      var rest := batches[1..];
      UpsertStopsAtFirstFailure(rest, upsert);
      assert forall k :: 1 <= k < |batches| ==> batches[k] == rest[k - 1];
      var o := UpsertOutcome(batches, upsert);
      if upsert(batches[0]).Pass? && o.Fail? {
        var k :| 0 <= k < |rest| && upsert(rest[k]) == o && forall j :: 0 <= j < k ==> upsert(rest[j]).Pass?;
        assert upsert(batches[k + 1]) == o;
        forall j | 0 <= j < k + 1 ensures upsert(batches[j]).Pass? {
          if j > 0 { assert batches[j] == rest[j - 1]; }
        }
      }
    }
  }

  /** The batches from offset `i`: the one starting there, then the rest;
      the upserts from there fail at that batch or go on with the rest. */
  lemma UpsertUnfold(points: seq<Point>, i: nat, upsert: seq<Point> -> Outcome)
    requires i < |points|
    ensures var stop := if i + UpsertBatchSize <= |points| then i + UpsertBatchSize else |points|;
      var rest := BatchesFrom(points, UpsertBatchSize, i + UpsertBatchSize);
      && BatchesFrom(points, UpsertBatchSize, i) == [points[i..stop]] + rest
      && UpsertOutcome(BatchesFrom(points, UpsertBatchSize, i), upsert) ==
         (if upsert(points[i..stop]).Fail? then upsert(points[i..stop]) else UpsertOutcome(rest, upsert))
  {
    var stop := if i + UpsertBatchSize <= |points| then i + UpsertBatchSize else |points|;
    var rest := BatchesFrom(points, UpsertBatchSize, i + UpsertBatchSize);
    assert ([points[i..stop]] + rest)[1..] == rest;
  }

  /** What `store_document_chunks` returns or raises: the number of points,
      once the collection exists and every batch of 100 points is upserted;
      any failure becomes "Failed to store document chunks: ...". */
  function StoreResult(documentId: string, userId: string, documentName: string, chunks: seq<string>,
                       embeddings: seq<Json>, collections: Result<seq<string>>, create: Outcome,
                       uuids: nat -> string, clock: nat -> string, upsert: seq<Point> -> Outcome): Result<nat>
  {
    var points := ZipPoints(documentId, userId, documentName, chunks, embeddings, uuids, clock);
    match EnsureOutcome(collections, create)
    case Fail(e) => Failure("Failed to store document chunks: " + e)
    case Pass =>
      match UpsertOutcome(Batches(points, UpsertBatchSize), upsert)
      case Fail(e) => Failure("Failed to store document chunks: " + e)
      case Pass => Success(|points|)
  }

  /** A stored document yields exactly one point per chunk that has an
      embedding. */
  lemma StoredCountIsPointCount(documentId: string, userId: string, documentName: string, chunks: seq<string>,
                                embeddings: seq<Json>, collections: Result<seq<string>>, create: Outcome,
                                uuids: nat -> string, clock: nat -> string, upsert: seq<Point> -> Outcome)
    requires StoreResult(documentId, userId, documentName, chunks, embeddings, collections, create, uuids, clock, upsert).Success?
    ensures StoreResult(documentId, userId, documentName, chunks, embeddings, collections, create, uuids, clock, upsert).value ==
      (if |chunks| <= |embeddings| then |chunks| else |embeddings|)
  {
  }

  /** Sending the batch at offset `i` keeps the batches sent a prefix of all
      of them, followed by those still to send. */
  lemma UpsertAdvance(upserted: seq<seq<Point>>, points: seq<Point>, i: nat)
    requires i < |points|
    requires upserted + BatchesFrom(points, UpsertBatchSize, i) == Batches(points, UpsertBatchSize)
    ensures var stop := if i + UpsertBatchSize <= |points| then i + UpsertBatchSize else |points|;
      && (upserted + [points[i..stop]]) + BatchesFrom(points, UpsertBatchSize, i + UpsertBatchSize) == Batches(points, UpsertBatchSize)
      && upserted + [points[i..stop]] <= Batches(points, UpsertBatchSize)
  {
    var stop := if i + UpsertBatchSize <= |points| then i + UpsertBatchSize else |points|;
    assert BatchesFrom(points, UpsertBatchSize, i) == [points[i..stop]] + BatchesFrom(points, UpsertBatchSize, i + UpsertBatchSize);
  }

  /** The batch loop of `store_document_chunks`: `upserted` lists the
      batches sent, in order: a prefix of all the batches of 100, ending at
      the first that fails. */
  method UpsertInBatches(points: seq<Point>, upsert: seq<Point> -> Outcome) returns (o: Outcome, upserted: seq<seq<Point>>)
    ensures o == UpsertOutcome(Batches(points, UpsertBatchSize), upsert)
    ensures upserted <= Batches(points, UpsertBatchSize)
    ensures o.Pass? ==> upserted == Batches(points, UpsertBatchSize)
    ensures forall k :: 0 <= k < |upserted| - 1 ==> upsert(upserted[k]).Pass?
  {
    upserted := [];
    var i: nat := 0;
    while i < |points|
      invariant upserted + BatchesFrom(points, UpsertBatchSize, i) == Batches(points, UpsertBatchSize)
      invariant UpsertOutcome(BatchesFrom(points, UpsertBatchSize, i), upsert) == UpsertOutcome(Batches(points, UpsertBatchSize), upsert)
      invariant forall k :: 0 <= k < |upserted| ==> upsert(upserted[k]).Pass?
      decreases |points| - i
    {
      var stop := if i + UpsertBatchSize <= |points| then i + UpsertBatchSize else |points|;
      var batch := points[i..stop];
      UpsertUnfold(points, i, upsert);
      UpsertAdvance(upserted, points, i);
      upserted := upserted + [batch];
      if upsert(batch).Fail? {
        return upsert(batch), upserted;
      }
      i := i + UpsertBatchSize;
    }
    assert BatchesFrom(points, UpsertBatchSize, i) == [];
    o := Pass;
  }

  /** `store_document_chunks`: make sure the collection exists, build the
      points, and upsert them in batches of 100; `upserted` lists the
      batches sent. */
  method StoreDocumentChunks(documentId: string, userId: string, documentName: string, chunks: seq<string>,
                             embeddings: seq<Json>, collections: Result<seq<string>>, create: Outcome,
                             uuids: nat -> string, clock: nat -> string, upsert: seq<Point> -> Outcome)
    returns (r: Result<nat>, upserted: seq<seq<Point>>)
    ensures r == StoreResult(documentId, userId, documentName, chunks, embeddings, collections, create, uuids, clock, upsert)
    ensures EnsureOutcome(collections, create).Fail? ==> upserted == []
    ensures upserted <= Batches(ZipPoints(documentId, userId, documentName, chunks, embeddings, uuids, clock), UpsertBatchSize)
    ensures r.Success? ==> upserted == Batches(ZipPoints(documentId, userId, documentName, chunks, embeddings, uuids, clock), UpsertBatchSize)
    ensures forall k :: 0 <= k < |upserted| - 1 ==> upsert(upserted[k]).Pass?
  {
    var ensured, _ := EnsureCollectionExists(collections, create);
    if ensured.Fail? {
      return Failure("Failed to store document chunks: " + ensured.error), [];
    }
    var points := BuildPoints(documentId, userId, documentName, chunks, embeddings, uuids, clock);
    var o;
    o, upserted := UpsertInBatches(points, upsert);
    if o.Fail? {
      return Failure("Failed to store document chunks: " + o.error), upserted;
    }
    r := Success(|points|);
  }

  /** The upserted batches hold every point once, in order, at most 100 at
      a time. */
  lemma UpsertsCoverPoints(points: seq<Point>)
    ensures Flatten(Batches(points, UpsertBatchSize)) == points
    ensures forall k :: 0 <= k < |Batches(points, UpsertBatchSize)| ==> 0 < |Batches(points, UpsertBatchSize)[k]| <= UpsertBatchSize
  {
    BatchesCover(points, UpsertBatchSize, 0);
    BatchSizes(points, UpsertBatchSize, 0);
  }

  /** The `filter_conditions` of `search_similar_chunks`: the caller's
      `user_id` always, then the `document_id` condition when ids are given
      and the list is non-empty. */
  function SearchConditions(userId: string, documentIds: Option<seq<string>>): (must: seq<Condition>)
    ensures |must| == (if documentIds.Some? && |documentIds.value| > 0 then 2 else 1)
    ensures must[0] == Condition("user_id", MatchOne(userId))
    ensures |must| == 2 ==> must[1] == Condition("document_id", MatchList(documentIds.value))
  {
    [Condition("user_id", MatchOne(userId))] +
      (if documentIds.Some? && |documentIds.value| > 0 then [Condition("document_id", MatchList(documentIds.value))] else [])
  }

  /** The list of conditions, appended to when there are ids. */
  method SearchFilter(userId: string, documentIds: Option<seq<string>>) returns (must: seq<Condition>)
    ensures must == SearchConditions(userId, documentIds)
  {
    must := [Condition("user_id", MatchOne(userId))];
    if documentIds.Some? && |documentIds.value| > 0 {
      must := must + [Condition("document_id", MatchList(documentIds.value))];
    }
  }

  /** One answer as a result record: its id, score and payload fields. */
  function HitOf(p: ScoredPoint): Hit {
    Hit(p.id, p.score, p.payload.documentId, p.payload.documentName, p.payload.chunkText, p.payload.chunkIndex)
  }

  /** The formatted answers: one result per answer, in the answers' order. */
  function FormatHits(found: seq<ScoredPoint>): (hits: seq<Hit>)
    ensures |hits| == |found|
    ensures forall k :: 0 <= k < |found| ==> hits[k] == HitOf(found[k])
    decreases |found|
  {
    if |found| == 0 then [] else FormatHits(found[..|found| - 1]) + [HitOf(found[|found| - 1])]
  }

  /** What `search_similar_chunks` returns or raises: `search` answers the
      query for the vector, the conditions and the limit. */
  function SearchResults(queryEmbedding: Json, userId: string, documentIds: Option<seq<string>>, limit: int,
                         search: (Json, seq<Condition>, int) -> Result<seq<ScoredPoint>>): Result<seq<Hit>>
  {
    match search(queryEmbedding, SearchConditions(userId, documentIds), limit)
    case Failure(e) => Failure("Failed to search similar chunks: " + e)
    case Success(found) => Success(FormatHits(found))
  }

  /** `search_similar_chunks`. */
  method SearchSimilarChunks(queryEmbedding: Json, userId: string, documentIds: Option<seq<string>>, limit: int,
                             search: (Json, seq<Condition>, int) -> Result<seq<ScoredPoint>>)
    returns (r: Result<seq<Hit>>)
    ensures r == SearchResults(queryEmbedding, userId, documentIds, limit, search)
  {
    var must := SearchFilter(userId, documentIds);
    var answer := search(queryEmbedding, must, limit);
    if answer.Failure? {
      return Failure("Failed to search similar chunks: " + answer.error);
    }
    var found := answer.value;
    var results: seq<Hit> := [];
    for i := 0 to |found|
      invariant results == FormatHits(found[..i])
    {
      assert found[..i + 1][..i] == found[..i];
      results := results + [HitOf(found[i])];
    }
    assert found[..|found|] == found;
    r := Success(results);
  }

  /** The conditions selecting one document's points of one user. */
  function DocumentConditions(documentId: string, userId: string): seq<Condition> {
    [Condition("document_id", MatchOne(documentId)), Condition("user_id", MatchOne(userId))]
  }

  /** What `delete_document_vectors` returns or raises: the number of
      matching points, once they are deleted. */
  function VectorsDeleted(documentId: string, userId: string,
                          scroll: (seq<Condition>, nat) -> Result<seq<string>>, delete: seq<string> -> Outcome): Result<nat>
  {
    match scroll(DocumentConditions(documentId, userId), ScrollLimit)
    case Failure(e) => Failure("Failed to delete document vectors: " + e)
    case Success(ids) =>
      if |ids| == 0 then Success(0)
      else match delete(ids)
        case Fail(e) => Failure("Failed to delete document vectors: " + e)
        case Pass => Success(|ids|)
  }

  /** `delete_document_vectors`: `scroll` answers the listing of the ids of
      the points matching the filter, up to the limit; `delete` answers the
      deletion of ids. `deleted` is the list the deletion was asked for, if
      it was asked for at all: only when some point matched. */
  method DeleteDocumentVectors(documentId: string, userId: string,
                               scroll: (seq<Condition>, nat) -> Result<seq<string>>, delete: seq<string> -> Outcome)
    returns (r: Result<nat>, deleted: Option<seq<string>>)
    ensures r == VectorsDeleted(documentId, userId, scroll, delete)
    ensures var listed := scroll(DocumentConditions(documentId, userId), ScrollLimit);
      && (listed.Failure? ==> r == Failure("Failed to delete document vectors: " + listed.error) && deleted == None)
      && (listed.Success? ==>
            && (deleted.Some? <==> |listed.value| > 0)
            && (deleted.Some? ==> deleted.value == listed.value)
            && (r.Success? <==> deleted.None? || delete(listed.value).Pass?)
            && (r.Success? ==> r.value == |listed.value|)
            && (r.Failure? ==> r.error == "Failed to delete document vectors: " + delete(listed.value).error))
  {
    var filter := [Condition("document_id", MatchOne(documentId)), Condition("user_id", MatchOne(userId))];
    var listed := scroll(filter, ScrollLimit);
    if listed.Failure? {
      return Failure("Failed to delete document vectors: " + listed.error), None;
    }
    var ids := listed.value;
    deleted := None;
    if |ids| > 0 {
      deleted := Some(ids);
      var o := delete(ids);
      if o.Fail? {
        return Failure("Failed to delete document vectors: " + o.error), deleted;
      }
    }
    r := Success(|ids|);
  }

  /** `created_at and created_at < cutoff_date`, on ISO-8601 strings. */
  predicate IsOld(p: StoredPoint, cutoff: string) {
    p.createdAt.Some? && p.createdAt.value != "" && LexLess(p.createdAt.value, cutoff)
  }

  /** The ids of the old points, in scroll order. */
  function OldIds(points: seq<StoredPoint>, cutoff: string): seq<string>
    decreases |points|
  {
    if |points| == 0 then []
    else OldIds(points[..|points| - 1], cutoff) +
         (if IsOld(points[|points| - 1], cutoff) then [points[|points| - 1].id] else [])
  }

  /** An id is selected exactly when it belongs to an old point, and no more
      ids are selected than there are points. */
  lemma {:induction false} OldIdsAreExactlyTheOld(points: seq<StoredPoint>, cutoff: string)
    ensures |OldIds(points, cutoff)| <= |points|
    ensures forall id :: id in OldIds(points, cutoff) <==>
      exists k :: 0 <= k < |points| && points[k].id == id && IsOld(points[k], cutoff)
    decreases |points|
  {
    if |points| > 0 {
      var front := points[..|points| - 1];
      var last := points[|points| - 1];
      OldIdsAreExactlyTheOld(front, cutoff);
      forall id
        ensures id in OldIds(points, cutoff) <==> exists k :: 0 <= k < |points| && points[k].id == id && IsOld(points[k], cutoff)
      {
        if id in OldIds(front, cutoff) {
          var k :| 0 <= k < |front| && front[k].id == id && IsOld(front[k], cutoff);
          assert points[k] == front[k];
        }
        if exists k :: 0 <= k < |points| && points[k].id == id && IsOld(points[k], cutoff) {
          var k :| 0 <= k < |points| && points[k].id == id && IsOld(points[k], cutoff);
          if k < |front| {
            assert front[k] == points[k];
          }
        }
      }
    }
  }

  /** `delete_old_vectors`: `scroll` answers the listing of all points with
      their payloads, up to the limit; `cutoff` is the ISO timestamp
      `days_old` days before now. The old points' ids are deleted if there
      are any, and their number is returned. */
  method DeleteOldVectors(cutoff: string, scroll: nat -> Result<seq<StoredPoint>>, delete: seq<string> -> Outcome)
    returns (r: Result<nat>, deleted: Option<seq<string>>)
    ensures scroll(ScrollLimit).Failure? ==>
      r == Failure("Failed to delete old vectors: " + scroll(ScrollLimit).error) && deleted == None
    ensures scroll(ScrollLimit).Success? ==>
      var aged := OldIds(scroll(ScrollLimit).value, cutoff);
      && (deleted.Some? <==> |aged| > 0)
      && (deleted.Some? ==> deleted.value == aged)
      && (r.Success? <==> deleted.None? || delete(aged).Pass?)
      && (r.Success? ==> r.value == |aged|)
      && (r.Failure? ==> r.error == "Failed to delete old vectors: " + delete(aged).error)
  {
    var listed := scroll(ScrollLimit);
    if listed.Failure? {
      return Failure("Failed to delete old vectors: " + listed.error), None;
    }
    var points := listed.value;
    var oldIds: seq<string> := [];
    for i := 0 to |points|
      invariant oldIds == OldIds(points[..i], cutoff)
    {
      assert points[..i + 1][..i] == points[..i];
      var point := points[i];
      if point.createdAt.Some? && point.createdAt.value != "" && LexLess(point.createdAt.value, cutoff) {
        oldIds := oldIds + [point.id];
      }
    }
    assert points[..|points|] == points;
    deleted := None;
    if |oldIds| > 0 {
      deleted := Some(oldIds);
      var o := delete(oldIds);
      if o.Fail? {
        return Failure("Failed to delete old vectors: " + o.error), deleted;
      }
    }
    r := Success(|oldIds|);
  }
}
