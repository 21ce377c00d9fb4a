/** `backend/routes/documents.py`: listing the caller's documents, deleting
    several at once, and the per-user statistics. The database, storage and
    vector-store calls are the helpers of `Supabase` and `Qdrant`, whose
    own service calls are parameters. */
module Documents {
  import opened Wrappers
  import opened Text
  import opened Seqs
  import opened Records
  import opened Auth
  import opened Supabase
  import opened Qdrant

  // ---------------------------------------------------------------- listing

  /** One entry of the listing: the eight fields the route copies from a row. */
  datatype DocumentItem = DocumentItem(
    id: string,
    name: string,
    fileType: string,
    fileSize: int,
    status: string,
    errorMessage: Option<string>,
    createdAt: string,
    updatedAt: string)

  /** `DocumentListResponse`. */
  datatype DocumentList = DocumentList(documents: seq<DocumentItem>, totalCount: nat)

  /** The dictionary built for one row; `doc.get("error_message")` is None
      when the column is absent. */
  function Item(doc: DocRecord): DocumentItem {
    DocumentItem(doc.id, doc.name, doc.fileType, doc.fileSize, doc.status, doc.errorMessage, doc.createdAt, doc.updatedAt)
  }

  /** `[doc for doc in documents if doc["status"] == status_filter]`, applied
      only when the filter is a non-empty string. With a filter, exactly the
      documents with that status are kept, each as often as it occurs and
      in the original order; without one, nothing is dropped. */
  function FilterByStatus(docs: seq<DocRecord>, statusFilter: Option<string>): (r: seq<DocRecord>)
    ensures !Given(statusFilter) ==> r == docs
    ensures Given(statusFilter) ==> forall k :: 0 <= k < |r| ==> r[k].status == statusFilter.value
    ensures Given(statusFilter) ==>
      forall d: DocRecord :: multiset(r)[d] == if d.status == statusFilter.value then multiset(docs)[d] else 0
    ensures IsSubsequence(r, docs)
  {
    if Given(statusFilter) then Filter((d: DocRecord) => d.status == statusFilter.value, docs)
    else
      SubsequenceOfItself(docs);
      docs
  }

  /** `documents[offset:offset + limit]`. */
  function Page(docs: seq<DocRecord>, limit: int, offset: int): seq<DocRecord> {
    PySlice(docs, offset, offset + limit)
  }

  /** The page is a contiguous run of the filtered documents, of at most
      `limit` of them; from an offset inside the list it starts there. */
  lemma PageIsWindow(docs: seq<DocRecord>, limit: int, offset: int)
    ensures exists a, b :: 0 <= a <= b <= |docs| && Page(docs, limit, offset) == docs[a..b]
    ensures limit >= 0 ==> |Page(docs, limit, offset)| <= limit
    ensures 0 <= offset <= |docs| && limit >= 0 ==>
      Page(docs, limit, offset) == docs[offset..if offset + limit <= |docs| then offset + limit else |docs|]
  {
    PySliceWindow(docs, offset, limit);
  }

  /** The formatting loop: one item per row of the page, in page order. */
  method FormatPage(page: seq<DocRecord>) returns (formatted: seq<DocumentItem>)
    ensures |formatted| == |page|
    ensures forall k :: 0 <= k < |page| ==> formatted[k] == Item(page[k])
  {
    formatted := [];
    for i := 0 to |page|
      invariant |formatted| == i
      invariant forall k :: 0 <= k < i ==> formatted[k] == Item(page[k])
    {
      formatted := formatted + [Item(page[i])];
    }
  }

  /** `get_documents`: `query` answers the select of the caller's rows. The
      count is taken after filtering and before paging; the message counts
      the page. */
  method GetDocuments(query: Result<Option<seq<DocRecord>>>, statusFilter: Option<string>, limit: int, offset: int)
    returns (response: ApiResponse<DocumentList>)
    ensures query.Failure? ==>
      response == Err("Failed to retrieve documents", "Failed to get user documents: " + query.error)
    ensures query.Success? ==>
      var filtered := FilterByStatus(RowsOrEmpty(query.value), statusFilter);
      var page := Page(filtered, limit, offset);
      && response.success && response.error.None? && response.data.Some?
      && response.message == "Retrieved " + NatToString(|page|) + " documents"
      && response.data.value.totalCount == |filtered|
      && |response.data.value.documents| == |page|
      && forall k :: 0 <= k < |page| ==> response.data.value.documents[k] == Item(page[k])
  {
    var documents := GetUserDocuments(query);
    if documents.Failure? {
      return Err("Failed to retrieve documents", documents.error);
    }
    var filtered := FilterByStatus(documents.value, statusFilter);
    var totalCount := |filtered|;
    var page := Page(filtered, limit, offset);
    var formatted := FormatPage(page);
    response := Ok("Retrieved " + NatToString(|formatted|) + " documents", DocumentList(formatted, totalCount));
  }

  // ------------------------------------------------------------ bulk delete

  /** The services one deletion talks to: the metadata select for an id and
      a user, the vector scroll and delete, the storage bucket, and the
      metadata delete. */
  datatype DeleteServices = DeleteServices(
    metadata: (string, string) -> Result<seq<DocRecord>>,
    scroll: (seq<Condition>, nat) -> Result<seq<string>>,
    deleteVectors: seq<string> -> Outcome,
    bucket: string -> Outcome,
    table: (string, string) -> Outcome)

  datatype DeletedDoc = DeletedDoc(id: string, name: string)
  datatype FailedDoc = FailedDoc(id: string, error: string)

  /** What happens to one requested id, and how many vectors its vector
      delete reported (0 when it failed or was not reached). */
  datatype Fate =
    | Removed(doc: DeletedDoc, vectors: nat)
    | Kept(failure: FailedDoc, vectors: nat)

  const NoIdsDetail := "No document IDs provided"
  const NotOwnerDetail := "You don't have permission to delete one or more specified documents"
  const NotFoundError := "Document not found"

  /** The body of the loop for one id: look the document up, delete its
      vectors and its file (failures ignored), then its row. */
  function FateOf(s: DeleteServices, userId: string, id: string): Fate {
    match GetDocumentMetadata(s.metadata(id, userId))
    case Failure(e) => Kept(FailedDoc(id, e), 0)
    case Success(None) => Kept(FailedDoc(id, NotFoundError), 0)
    case Success(Some(doc)) =>
      var vectors := match VectorsDeleted(id, userId, s.scroll, s.deleteVectors)
                     case Success(n) => n
                     case Failure(_) => 0;
      match DeleteDocumentMetadata(id, userId, s.table)
      case Fail(e) => Kept(FailedDoc(id, e), vectors)
      case Pass => Removed(DeletedDoc(id, doc.name), vectors)
  }

  /** The calls the loop makes for one id. */
  function FateSteps(s: DeleteServices, userId: string, id: string): seq<Effect> {
    [MetadataQuery(id)] +
      match GetDocumentMetadata(s.metadata(id, userId))
      case Success(Some(doc)) => [VectorsDelete(id), FileDelete(doc.filePath), MetadataDelete(id, userId)]
      case _ => []
  }

  /** `deleted_docs` after the loop over `ids`. */
  function DeletedDocs(s: DeleteServices, userId: string, ids: seq<string>): seq<DeletedDoc>
    decreases |ids|
  {
    if |ids| == 0 then []
    else
      var fate := FateOf(s, userId, ids[|ids| - 1]);
      DeletedDocs(s, userId, ids[..|ids| - 1]) + (if fate.Removed? then [fate.doc] else [])
  }

  /** `failed_docs` after the loop over `ids`. */
  function FailedDocs(s: DeleteServices, userId: string, ids: seq<string>): seq<FailedDoc>
    decreases |ids|
  {
    if |ids| == 0 then []
    else
      var fate := FateOf(s, userId, ids[|ids| - 1]);
      FailedDocs(s, userId, ids[..|ids| - 1]) + (if fate.Kept? then [fate.failure] else [])
  }

  /** `total_vectors_deleted` after the loop over `ids`. */
  function VectorTotal(s: DeleteServices, userId: string, ids: seq<string>): nat
    decreases |ids|
  {
    if |ids| == 0 then 0
    else VectorTotal(s, userId, ids[..|ids| - 1]) + FateOf(s, userId, ids[|ids| - 1]).vectors
  }

  /** The calls of the loop over `ids`. */
  function DeleteSteps(s: DeleteServices, userId: string, ids: seq<string>): seq<Effect>
    decreases |ids|
  {
    if |ids| == 0 then []
    else DeleteSteps(s, userId, ids[..|ids| - 1]) + FateSteps(s, userId, ids[|ids| - 1])
  }

  function DeletedIds(ds: seq<DeletedDoc>): (ids: seq<string>)
    ensures |ids| == |ds| && forall k :: 0 <= k < |ds| ==> ids[k] == ds[k].id
  {
    seq(|ds|, k requires 0 <= k < |ds| => ds[k].id)
  }

  function FailedIds(fs: seq<FailedDoc>): (ids: seq<string>)
    ensures |ids| == |fs| && forall k :: 0 <= k < |fs| ==> ids[k] == fs[k].id
  {
    seq(|fs|, k requires 0 <= k < |fs| => fs[k].id)
  }

  /** Whether the loop deletes the document with this id. */
  function IsRemoved(s: DeleteServices, userId: string): string -> bool {
    id => FateOf(s, userId, id).Removed?
  }

  function IsKept(s: DeleteServices, userId: string): string -> bool {
    id => FateOf(s, userId, id).Kept?
  }

  /** A fate records the id it is for. */
  lemma FateKeepsId(s: DeleteServices, userId: string, id: string)
    ensures FateOf(s, userId, id).Removed? ==> FateOf(s, userId, id).doc.id == id
    ensures FateOf(s, userId, id).Kept? ==> FateOf(s, userId, id).failure.id == id
  {
  }

  /** One more id extends the deleted ids as the filter extends. */
  lemma DeletedStep(d: seq<DeletedDoc>, front: seq<string>, id: string, fate: Fate, keep: string -> bool)
    requires DeletedIds(d) == Filter(keep, front)
    requires keep(id) == fate.Removed?
    requires fate.Removed? ==> fate.doc.id == id
    ensures DeletedIds(d + (if fate.Removed? then [fate.doc] else [])) == Filter(keep, front + [id])
  {
    FilterSnoc(keep, front, id);
    if fate.Removed? {
      assert DeletedIds(d + [fate.doc]) == DeletedIds(d) + [id];
    }
  }

  /** One more id extends the failed ids as the filter extends. */
  lemma FailedStep(f: seq<FailedDoc>, front: seq<string>, id: string, fate: Fate, keep: string -> bool)
    requires FailedIds(f) == Filter(keep, front)
    requires keep(id) == fate.Kept?
    requires fate.Kept? ==> fate.failure.id == id
    ensures FailedIds(f + (if fate.Kept? then [fate.failure] else [])) == Filter(keep, front + [id])
  {
    FilterSnoc(keep, front, id);
    if fate.Kept? {
      assert FailedIds(f + [fate.failure]) == FailedIds(f) + [id];
    }
  }

  /** The deleted ids are exactly the requested ids whose document is
      deleted, in request order. */
  lemma {:induction false} DeletedAreTheRemoved(s: DeleteServices, userId: string, ids: seq<string>)
    ensures DeletedIds(DeletedDocs(s, userId, ids)) == Filter(IsRemoved(s, userId), ids)
    decreases |ids|
  {
    if |ids| > 0 {
      var front := ids[..|ids| - 1];
      var id := ids[|ids| - 1];
      assert ids == front + [id];
      DeletedAreTheRemoved(s, userId, front);
      FateKeepsId(s, userId, id);
      var fate := FateOf(s, userId, id);
      assert IsRemoved(s, userId)(id) == fate.Removed?;
      DeletedStep(DeletedDocs(s, userId, front), front, id, fate, IsRemoved(s, userId));
    }
  }

  /** The failed ids are exactly the requested ids whose document is not
      deleted, in request order. */
  lemma {:induction false} FailedAreTheKept(s: DeleteServices, userId: string, ids: seq<string>)
    ensures FailedIds(FailedDocs(s, userId, ids)) == Filter(IsKept(s, userId), ids)
    decreases |ids|
  {
    if |ids| > 0 {
      var front := ids[..|ids| - 1];
      var id := ids[|ids| - 1];
      assert ids == front + [id];
      FailedAreTheKept(s, userId, front);
      FateKeepsId(s, userId, id);
      var fate := FateOf(s, userId, id);
      assert IsKept(s, userId)(id) == fate.Kept?;
      FailedStep(FailedDocs(s, userId, front), front, id, fate, IsKept(s, userId));
    }
  }

  lemma {:induction false} ListsShareTheRequest(s: DeleteServices, userId: string, ids: seq<string>)
    ensures |DeletedDocs(s, userId, ids)| + |FailedDocs(s, userId, ids)| == |ids|
    decreases |ids|
  {
    if |ids| > 0 {
      ListsShareTheRequest(s, userId, ids[..|ids| - 1]);
    }
  }

  /** Each requested id lands in exactly one of the two lists: the deleted
      ids are those whose document is deleted, the failed ids the others,
      both in request order, and together they are the request. */
  lemma EveryIdLandsOnce(s: DeleteServices, userId: string, ids: seq<string>)
    ensures var deleted := DeletedIds(DeletedDocs(s, userId, ids));
      var failed := FailedIds(FailedDocs(s, userId, ids));
      && deleted == Filter(IsRemoved(s, userId), ids)
      && failed == Filter(IsKept(s, userId), ids)
      && |deleted| + |failed| == |ids|
      && multiset(deleted) + multiset(failed) == multiset(ids)
  {
    DeletedAreTheRemoved(s, userId, ids);
    FailedAreTheKept(s, userId, ids);
    ListsShareTheRequest(s, userId, ids);
    var deleted := DeletedIds(DeletedDocs(s, userId, ids));
    var failed := FailedIds(FailedDocs(s, userId, ids));
    forall x ensures (multiset(deleted) + multiset(failed))[x] == multiset(ids)[x] {
      assert IsRemoved(s, userId)(x) != IsKept(s, userId)(x);
    }
  }

  /** Only a failed lookup, a missing row or a failed row delete puts an id
      among the failures, with that failure's message. */
  lemma FailureCauses(s: DeleteServices, userId: string, id: string)
    ensures var lookup := s.metadata(id, userId);
      FateOf(s, userId, id).Kept? <==>
        lookup.Failure? || |lookup.value| == 0 || s.table(id, userId).Fail?
    ensures var lookup := s.metadata(id, userId);
      FateOf(s, userId, id).Kept? ==>
        FateOf(s, userId, id).failure.error ==
          if lookup.Failure? then "Failed to get document metadata: " + lookup.error
          else if |lookup.value| == 0 then NotFoundError
          else "Failed to delete document metadata: " + s.table(id, userId).error
    ensures FateOf(s, userId, id).Removed? ==> FateOf(s, userId, id).doc.name == s.metadata(id, userId).value[0].name
  {
  }

  /** Vector and file deletions cannot move a document to the failures:
      whatever the vector store and the bucket answer, the two lists are the
      same. */
  lemma {:induction false} VectorAndFileFailuresAreIgnored(s: DeleteServices, userId: string, ids: seq<string>,
                                                          scroll: (seq<Condition>, nat) -> Result<seq<string>>,
                                                          deleteVectors: seq<string> -> Outcome, bucket: string -> Outcome)
    ensures var t := s.(scroll := scroll, deleteVectors := deleteVectors, bucket := bucket);
      DeletedDocs(t, userId, ids) == DeletedDocs(s, userId, ids) && FailedDocs(t, userId, ids) == FailedDocs(s, userId, ids)
    decreases |ids|
  {
    if |ids| > 0 {
      VectorAndFileFailuresAreIgnored(s, userId, ids[..|ids| - 1], scroll, deleteVectors, bucket);
    }
  }

  /** One more id extends each list by its fate. */
  lemma DeleteLoopStep(s: DeleteServices, userId: string, ids: seq<string>, i: nat)
    requires i < |ids|
    ensures var fate := FateOf(s, userId, ids[i]);
      && DeletedDocs(s, userId, ids[..i + 1]) == DeletedDocs(s, userId, ids[..i]) + (if fate.Removed? then [fate.doc] else [])
      && FailedDocs(s, userId, ids[..i + 1]) == FailedDocs(s, userId, ids[..i]) + (if fate.Kept? then [fate.failure] else [])
      && VectorTotal(s, userId, ids[..i + 1]) == VectorTotal(s, userId, ids[..i]) + fate.vectors
      && DeleteSteps(s, userId, ids[..i + 1]) == DeleteSteps(s, userId, ids[..i]) + FateSteps(s, userId, ids[i])
  {
    assert ids[..i + 1][..i] == ids[..i];
  }

  /** `result_message`. */
  function DeleteMessage(deleted: nat, failed: nat): string {
    "Successfully deleted " + NatToString(deleted) + " documents" +
      (if failed > 0 then ", failed to delete " + NatToString(failed) + " documents" else "")
  }

  /** The `data` of the bulk-delete response. */
  datatype BulkDelete = BulkDelete(deletedDocuments: seq<DeletedDoc>, failedDocuments: seq<FailedDoc>,
                                   totalVectorsDeleted: nat)

  /** The `try` block for one id. */
  method DeleteOne(s: DeleteServices, userId: string, id: string) returns (fate: Fate, steps: seq<Effect>)
    ensures fate == FateOf(s, userId, id)
    ensures steps == FateSteps(s, userId, id)
  {
    steps := [MetadataQuery(id)];
    var document := GetDocumentMetadata(s.metadata(id, userId));
    if document.Failure? {
      return Kept(FailedDoc(id, document.error), 0), steps;
    }
    if document.value.None? {
      return Kept(FailedDoc(id, NotFoundError), 0), steps;
    }
    var doc := document.value.value;
    var vectors := 0;
    var counted, _ := DeleteDocumentVectors(id, userId, s.scroll, s.deleteVectors);
    if counted.Success? {
      vectors := counted.value;
    }
    var _ := DeleteFileFromStorage(doc.filePath, s.bucket);
    var dropped := DeleteDocumentMetadata(id, userId, s.table);
    steps := steps + [VectorsDelete(id), FileDelete(doc.filePath), MetadataDelete(id, userId)];
    if dropped.Fail? {
      return Kept(FailedDoc(id, dropped.error), vectors), steps;
    }
    fate := Removed(DeletedDoc(id, doc.name), vectors);
  }

  /** `delete_multiple_documents`: `ownerRows` answers the ownership select
      for all the ids. An empty request is refused before anything is asked;
      a request for documents the caller does not all own is refused after
      the ownership select; otherwise every id is tried in turn. The route
      succeeds when at least one document was deleted. */
  method DeleteMultipleDocuments(userId: string, documentIds: seq<string>, ownerRows: Result<seq<string>>,
                                 s: DeleteServices)
    returns (r: Route<BulkDelete>, trace: seq<Effect>)
    ensures |documentIds| == 0 ==> r == Raised(HttpError(BadRequest, NoIdsDetail, [])) && trace == []
    ensures |documentIds| > 0 && !VerifyUserOwnsDocuments(userId, documentIds, ownerRows) ==>
      && r == Raised(HttpError(Forbidden, NotOwnerDetail, []))
      && trace == [OwnershipQuery(documentIds)]
    ensures |documentIds| > 0 && VerifyUserOwnsDocuments(userId, documentIds, ownerRows) ==>
      var deleted := DeletedDocs(s, userId, documentIds);
      var failed := FailedDocs(s, userId, documentIds);
      && r.Responded?
      && (r.response.success <==> |deleted| > 0)
      && r.response == ApiResponse(|deleted| > 0, DeleteMessage(|deleted|, |failed|),
                                   Some(BulkDelete(deleted, failed, VectorTotal(s, userId, documentIds))), None)
      && trace == [OwnershipQuery(documentIds)] + DeleteSteps(s, userId, documentIds)
  {
    if |documentIds| == 0 {
      return Raised(HttpError(BadRequest, NoIdsDetail, [])), [];
    }
    trace := [OwnershipQuery(documentIds)];
    if !VerifyUserOwnsDocuments(userId, documentIds, ownerRows) {
      return Raised(HttpError(Forbidden, NotOwnerDetail, [])), trace;
    }
    var deleted: seq<DeletedDoc> := [];
    var failed: seq<FailedDoc> := [];
    var total: nat := 0;
    for i := 0 to |documentIds|
      invariant deleted == DeletedDocs(s, userId, documentIds[..i])
      invariant failed == FailedDocs(s, userId, documentIds[..i])
      invariant total == VectorTotal(s, userId, documentIds[..i])
      invariant trace == [OwnershipQuery(documentIds)] + DeleteSteps(s, userId, documentIds[..i])
    {
      var id := documentIds[i];
      DeleteLoopStep(s, userId, documentIds, i);
      var fate, steps := DeleteOne(s, userId, id);
      trace := trace + steps;
      total := total + fate.vectors;
      if fate.Removed? {
        deleted := deleted + [fate.doc];
      } else {
        failed := failed + [fate.failure];
      }
    }
    assert documentIds[..|documentIds|] == documentIds;
    var message := DeleteMessage(|deleted|, |failed|);
    r := Responded(ApiResponse(|deleted| > 0, message, Some(BulkDelete(deleted, failed, total)), None));
  }

  // ------------------------------------------------------------- statistics

  /** The statistics dictionary, without `total_size_mb`. */
  datatype DocumentStats = DocumentStats(
    totalDocuments: nat,
    statusBreakdown: map<string, nat>,
    totalSizeBytes: int,
    fileTypeBreakdown: map<string, nat>,
    completedDocuments: nat,
    processingDocuments: nat,
    errorDocuments: nat)

  function Statuses(docs: seq<DocRecord>): (labels: seq<string>)
    ensures |labels| == |docs| && forall k :: 0 <= k < |docs| ==> labels[k] == docs[k].status
  {
    seq(|docs|, k requires 0 <= k < |docs| => docs[k].status)
  }

  function FileTypes(docs: seq<DocRecord>): (labels: seq<string>)
    ensures |labels| == |docs| && forall k :: 0 <= k < |docs| ==> labels[k] == docs[k].fileType
  {
    seq(|docs|, k requires 0 <= k < |docs| => docs[k].fileType)
  }

  /** `counts.get(key, 0)`. */
  function Get(counts: map<string, nat>, key: string): nat {
    if key in counts then counts[key] else 0
  }

  /** The dictionary built by `counts[x] = counts.get(x, 0) + 1` over the
      labels: it holds exactly the labels that occur, each with the number
      of its occurrences. */
  function Tally(labels: seq<string>): map<string, nat>
    decreases |labels|
  {
    if |labels| == 0 then map[]
    else
      var counts := Tally(labels[..|labels| - 1]);
      counts[labels[|labels| - 1] := Get(counts, labels[|labels| - 1]) + 1]
  }

  lemma TallySnoc(labels: seq<string>, x: string)
    ensures Tally(labels + [x]) == Tally(labels)[x := Get(Tally(labels), x) + 1]
  {
    assert (labels + [x])[..|labels|] == labels;
  }

  /** The tally holds exactly the labels that occur, each with the number of
      its occurrences. */
  lemma {:induction false} TallyCounts(labels: seq<string>)
    ensures forall x :: x in Tally(labels) <==> x in labels
    ensures forall x :: Get(Tally(labels), x) == multiset(labels)[x]
    decreases |labels|
  {
    if |labels| > 0 {
      var front := labels[..|labels| - 1];
      assert labels == front + [labels[|labels| - 1]];
      TallyCounts(front);
    }
  }

  /** The keys of `Tally(labels)` in a dictionary's iteration order, which is
      the order in which each label first occurs. */
  function FirstSeen(labels: seq<string>): (keys: seq<string>)
    ensures forall x :: x in keys <==> x in labels
    ensures forall i, j :: 0 <= i < j < |keys| ==> keys[i] != keys[j]
    decreases |labels|
  {
    if |labels| == 0 then []
    else
      var front := labels[..|labels| - 1];
      var x := labels[|labels| - 1];
      assert labels == front + [x];
      var keys := FirstSeen(front);
      if x in keys then keys else keys + [x]
  }

  /** `sum(counts[k] for k in keys)`. */
  function SumOver(counts: map<string, nat>, keys: seq<string>): nat
    decreases |keys|
  {
    if |keys| == 0 then 0 else SumOver(counts, keys[..|keys| - 1]) + Get(counts, keys[|keys| - 1])
  }

  /** Changing a count the keys do not name leaves their sum alone. */
  lemma {:induction false} SumOverOther(counts: map<string, nat>, keys: seq<string>, x: string, v: nat)
    requires x !in keys
    ensures SumOver(counts[x := v], keys) == SumOver(counts, keys)
    decreases |keys|
  {
    if |keys| > 0 {
      SumOverOther(counts, keys[..|keys| - 1], x, v);
    }
  }

  /** Adding one to a count that the keys name once adds one to their sum. */
  lemma {:induction false} SumOverBump(counts: map<string, nat>, keys: seq<string>, x: string)
    requires x in counts
    requires forall i, j :: 0 <= i < j < |keys| ==> keys[i] != keys[j]
    requires x in keys
    ensures SumOver(counts[x := counts[x] + 1], keys) == SumOver(counts, keys) + 1
    decreases |keys|
  {
    var front := keys[..|keys| - 1];
    if keys[|keys| - 1] == x {
      assert x !in front;
      SumOverOther(counts, front, x, counts[x] + 1);
    } else {
      assert x in front;
      SumOverBump(counts, front, x);
    }
  }

  /** Counting one more label: bumping its count, and adding it to the keys
      when it is new, adds one to the sum. */
  lemma SumOverSnoc(counts: map<string, nat>, keys: seq<string>, x: string)
    requires forall i, j :: 0 <= i < j < |keys| ==> keys[i] != keys[j]
    requires x in counts <==> x in keys
    ensures SumOver(counts[x := Get(counts, x) + 1], if x in keys then keys else keys + [x]) ==
            SumOver(counts, keys) + 1
  {
    if x in keys {
      SumOverBump(counts, keys, x);
    } else {
      SumOverOther(counts, keys, x, 1);
      assert (keys + [x])[..|keys|] == keys;
    }
  }

  /** The counts of a tally add up to the number of labels. */
  lemma {:induction false} TallySumsToCount(labels: seq<string>)
    ensures SumOver(Tally(labels), FirstSeen(labels)) == |labels|
    decreases |labels|
  {
    if |labels| > 0 {
      var front := labels[..|labels| - 1];
      var x := labels[|labels| - 1];
      TallySumsToCount(front);
      TallyCounts(front);
      SumOverSnoc(Tally(front), FirstSeen(front), x);
    }
  }

  /** `total_size += doc["file_size"]` over the documents. */
  function TotalSize(docs: seq<DocRecord>): int
    decreases |docs|
  {
    if |docs| == 0 then 0 else TotalSize(docs[..|docs| - 1]) + docs[|docs| - 1].fileSize
  }

  /** One more document extends both label lists and the size total. */
  lemma StatsSnoc(docs: seq<DocRecord>, i: nat)
    requires i < |docs|
    ensures Tally(Statuses(docs[..i + 1])) == Tally(Statuses(docs[..i]))[docs[i].status := Get(Tally(Statuses(docs[..i])), docs[i].status) + 1]
    ensures Tally(FileTypes(docs[..i + 1])) == Tally(FileTypes(docs[..i]))[docs[i].fileType := Get(Tally(FileTypes(docs[..i])), docs[i].fileType) + 1]
    ensures TotalSize(docs[..i + 1]) == TotalSize(docs[..i]) + docs[i].fileSize
  {
    assert docs[..i + 1][..i] == docs[..i];
    assert Statuses(docs[..i + 1]) == Statuses(docs[..i]) + [docs[i].status];
    assert FileTypes(docs[..i + 1]) == FileTypes(docs[..i]) + [docs[i].fileType];
    TallySnoc(Statuses(docs[..i]), docs[i].status);
    TallySnoc(FileTypes(docs[..i]), docs[i].fileType);
  }

  /** The statistics of the documents. */
  function StatsOf(docs: seq<DocRecord>): DocumentStats {
    var byStatus := Tally(Statuses(docs));
    DocumentStats(|docs|, byStatus, TotalSize(docs), Tally(FileTypes(docs)),
                  Get(byStatus, "completed"), Get(byStatus, "processing"), Get(byStatus, "error"))
  }

  /** Both breakdowns add up to the number of documents, and the three
      status counts are the numbers of documents with that status, 0 when
      there is none. */
  lemma StatsAreConsistent(docs: seq<DocRecord>)
    ensures var stats := StatsOf(docs);
      && SumOver(stats.statusBreakdown, FirstSeen(Statuses(docs))) == stats.totalDocuments
      && SumOver(stats.fileTypeBreakdown, FirstSeen(FileTypes(docs))) == stats.totalDocuments
      && stats.completedDocuments == multiset(Statuses(docs))["completed"]
      && stats.processingDocuments == multiset(Statuses(docs))["processing"]
      && stats.errorDocuments == multiset(Statuses(docs))["error"]
      && ("completed" !in Statuses(docs) ==> stats.completedDocuments == 0)
  {
    TallySumsToCount(Statuses(docs));
    TallySumsToCount(FileTypes(docs));
    TallyCounts(Statuses(docs));
  }

  /** `get_document_stats`: `query` answers the select of the caller's rows;
      one pass over them fills both dictionaries and the size total. */
  method GetDocumentStats(query: Result<Option<seq<DocRecord>>>) returns (response: ApiResponse<DocumentStats>)
    ensures query.Failure? ==>
      response == Err("Failed to retrieve document statistics", "Failed to get user documents: " + query.error)
    ensures query.Success? ==>
      response == Ok("Document statistics retrieved successfully", StatsOf(RowsOrEmpty(query.value)))
  {
    var documents := GetUserDocuments(query);
    if documents.Failure? {
      return Err("Failed to retrieve document statistics", documents.error);
    }
    var docs := documents.value;
    var statusCounts: map<string, nat> := map[];
    var totalSize := 0;
    var fileTypeCounts: map<string, nat> := map[];
    for i := 0 to |docs|
      invariant statusCounts == Tally(Statuses(docs[..i]))
      invariant fileTypeCounts == Tally(FileTypes(docs[..i]))
      invariant totalSize == TotalSize(docs[..i])
    {
      var doc := docs[i];
      StatsSnoc(docs, i);
      statusCounts := statusCounts[doc.status := Get(statusCounts, doc.status) + 1];
      totalSize := totalSize + doc.fileSize;
      fileTypeCounts := fileTypeCounts[doc.fileType := Get(fileTypeCounts, doc.fileType) + 1];
    }
    assert docs[..|docs|] == docs;
    var stats := DocumentStats(|docs|, statusCounts, totalSize, fileTypeCounts,
                               Get(statusCounts, "completed"), Get(statusCounts, "processing"), Get(statusCounts, "error"));
    response := Ok("Document statistics retrieved successfully", stats);
  }
}
