/** `backend/services/supabase.py`: the database and storage helpers. Each
    table or bucket call is a parameter that answers with data or raises;
    what the helper makes of that answer is modelled exactly. */
module Supabase {
  import opened Wrappers
  import opened Records
  import opened Seqs

  /** `get_document_metadata`: `query` is the answer to selecting the rows
      with the document's id and the caller's user id. */
  function GetDocumentMetadata(query: Result<seq<DocRecord>>): (r: Result<Option<DocRecord>>)
    ensures r.Failure? <==> query.Failure?
    ensures r.Failure? ==> r.error == "Failed to get document metadata: " + query.error
    ensures r.Success? ==> (r.value.None? <==> |query.value| == 0)
    ensures r.Success? && r.value.Some? ==> r.value.value == query.value[0]
  {
    match query
    case Failure(e) => Failure("Failed to get document metadata: " + e)
    case Success(rows) => if |rows| > 0 then Success(Some(rows[0])) else Success(None)
  }

  /** `response.data or []`: a missing data field reads as no rows. */
  function RowsOrEmpty(data: Option<seq<DocRecord>>): (rows: seq<DocRecord>)
    ensures data.None? ==> rows == []
    ensures data.Some? ==> rows == data.value
  {
    match data
    case None => []
    case Some(rows) => rows
  }

  /** `get_user_documents`: the caller's rows, newest first as the query
      orders them, or [] when the query yields no data. */
  function GetUserDocuments(query: Result<Option<seq<DocRecord>>>): (r: Result<seq<DocRecord>>)
    ensures r.Failure? <==> query.Failure?
    ensures r.Failure? ==> r.error == "Failed to get user documents: " + query.error
    ensures r.Success? ==> r.value == RowsOrEmpty(query.value)
  {
    match query
    case Failure(e) => Failure("Failed to get user documents: " + e)
    case Success(data) => Success(RowsOrEmpty(data))
  }

  /** `get_document_by_ids`. */
  function GetDocumentByIds(query: Result<Option<seq<DocRecord>>>): (r: Result<seq<DocRecord>>)
    ensures r.Failure? <==> query.Failure?
    ensures r.Failure? ==> r.error == "Failed to get documents by IDs: " + query.error
    ensures r.Success? ==> r.value == RowsOrEmpty(query.value)
  {
    match query
    case Failure(e) => Failure("Failed to get documents by IDs: " + e)
    case Success(data) => Success(RowsOrEmpty(data))
  }

  /** Python truthiness of an optional string. */
  predicate Given(s: Option<string>) {
    s.Some? && s.value != ""
  }

  /** The record `update_document_status` sends. It always holds `status`
      and `updated_at` (the clock reading `now`), and holds `error_message`
      only when a non-empty message is given. */
  function StatusRecord(status: string, now: string, errorMessage: Option<string>): (update: map<string, string>)
    ensures update.Keys == {"status", "updated_at"} + (if Given(errorMessage) then {"error_message"} else {})
    ensures update["status"] == status && update["updated_at"] == now
    ensures "error_message" in update ==> update["error_message"] == errorMessage.value
  {
    map["status" := status, "updated_at" := now] +
      (if Given(errorMessage) then map["error_message" := errorMessage.value] else map[])
  }

  /** The `update_data` dictionary, extended with the message when there is one. */
  method BuildStatusUpdate(status: string, now: string, errorMessage: Option<string>)
    returns (update: map<string, string>)
    ensures update == StatusRecord(status, now, errorMessage)
  {
    update := map["status" := status, "updated_at" := now];
    if Given(errorMessage) {
      update := update["error_message" := errorMessage.value];
    }
  }

  /** What `update_document_status` returns or raises: `table` answers the
      update of the row with the given id by the record. */
  function StatusOutcome(documentId: string, status: string, errorMessage: Option<string>, now: string,
                         table: (string, map<string, string>) -> Outcome): (o: Outcome)
    ensures o.Pass? <==> table(documentId, StatusRecord(status, now, errorMessage)).Pass?
    ensures o.Fail? ==> o.error == "Failed to update document status: " + table(documentId, StatusRecord(status, now, errorMessage)).error
  {
    match table(documentId, StatusRecord(status, now, errorMessage))
    case Pass => Pass
    case Fail(e) => Fail("Failed to update document status: " + e)
  }

  /** `update_document_status`; `sent` is the record the table receives. */
  method UpdateDocumentStatus(documentId: string, status: string, errorMessage: Option<string>, now: string,
                              table: (string, map<string, string>) -> Outcome)
    returns (o: Outcome, sent: map<string, string>)
    ensures sent == StatusRecord(status, now, errorMessage)
    ensures o == StatusOutcome(documentId, status, errorMessage, now, table)
  {
    sent := BuildStatusUpdate(status, now, errorMessage);
    var answer := table(documentId, sent);
    if answer.Fail? {
      o := Fail("Failed to update document status: " + answer.error);
    } else {
      o := Pass;
    }
  }

  /** `delete_document_metadata`: `table` answers the delete of the row with
      that id and user id. */
  function DeleteDocumentMetadata(documentId: string, userId: string, table: (string, string) -> Outcome): (o: Outcome)
    ensures o.Pass? <==> table(documentId, userId).Pass?
    ensures o.Fail? ==> o.error == "Failed to delete document metadata: " + table(documentId, userId).error
  {
    match table(documentId, userId)
    case Pass => Pass
    case Fail(e) => Fail("Failed to delete document metadata: " + e)
  }

  /** `delete_file_from_storage`: `bucket` answers the removal of that path. */
  function DeleteFileFromStorage(path: string, bucket: string -> Outcome): (o: Outcome)
    ensures o.Pass? <==> bucket(path).Pass?
    ensures o.Fail? ==> o.error == "Failed to delete file from storage: " + bucket(path).error
  {
    match bucket(path)
    case Pass => Pass
    case Fail(e) => Fail("Failed to delete file from storage: " + e)
  }

  /** `download_file_from_storage`: `signedUrl` is the `signedURL` field of
      the signed-URL answer ("" when it is missing), `content` the number of
      bytes fetched from it, and `tempPath` the name of the temporary file the
      bytes are written to. A missing URL and an empty download are errors. */
  function DownloadFileFromStorage(signedUrl: Result<string>, content: Result<nat>, tempPath: string): (r: Result<string>)
    ensures r.Success? <==> signedUrl.Success? && signedUrl.value != "" && content.Success? && content.value > 0
    ensures r.Success? ==> r.value == tempPath
    ensures signedUrl == Success("") ==> r == Failure("Failed to download file from storage: Failed to create signed URL")
    ensures signedUrl.Success? && signedUrl.value != "" && content == Success(0) ==>
      r == Failure("Failed to download file from storage: Downloaded file is empty")
  {
    if signedUrl.Failure? then Failure("Failed to download file from storage: " + signedUrl.error)
    else if signedUrl.value == "" then Failure("Failed to download file from storage: Failed to create signed URL")
    else if content.Failure? then Failure("Failed to download file from storage: " + content.error)
    else if content.value == 0 then Failure("Failed to download file from storage: Downloaded file is empty")
    else Success(tempPath)
  }

  /** Whether the cleanup removes `doc`: both its deletes succeed. */
  predicate CleanupRemoves(doc: DocRecord, bucket: string -> Outcome, table: (string, string) -> Outcome) {
    DeleteFileFromStorage(doc.filePath, bucket).Pass? && DeleteDocumentMetadata(doc.id, doc.userId, table).Pass?
  }

  /** How many of `docs` the cleanup removes. */
  function CountRemoved(docs: seq<DocRecord>, bucket: string -> Outcome, table: (string, string) -> Outcome): nat
    decreases |docs|
  {
    if |docs| == 0 then 0
    else CountRemoved(docs[..|docs| - 1], bucket, table) + (if CleanupRemoves(docs[|docs| - 1], bucket, table) then 1 else 0)
  }

  /** The calls the cleanup makes for one document: the storage delete, and
      the metadata delete only if the storage delete succeeded. */
  function CleanupSteps(doc: DocRecord, bucket: string -> Outcome): seq<Effect> {
    [FileDelete(doc.filePath)] + (if bucket(doc.filePath).Pass? then [MetadataDelete(doc.id, doc.userId)] else [])
  }

  function CleanupTrace(docs: seq<DocRecord>, bucket: string -> Outcome): seq<Effect>
    decreases |docs|
  {
    if |docs| == 0 then []
    else CleanupTrace(docs[..|docs| - 1], bucket) + CleanupSteps(docs[|docs| - 1], bucket)
  }

  /** `cleanup_old_documents`: `query` answers the select of the documents
      created before the cutoff. Each one is deleted from storage, then from
      the table; a failure skips to the next document. The count is of the
      documents whose two deletes both succeeded. */
  method CleanupOldDocuments(query: Result<Option<seq<DocRecord>>>, bucket: string -> Outcome,
                             table: (string, string) -> Outcome)
    returns (r: Result<nat>, trace: seq<Effect>)
    ensures query.Failure? ==> r == Failure("Failed to cleanup old documents: " + query.error) && trace == []
    ensures query.Success? ==> r.Success?
    ensures query.Success? ==>
      var aged := RowsOrEmpty(query.value);
      && r.value == CountRemoved(aged, bucket, table)
      && r.value <= |aged|
      && trace == CleanupTrace(aged, bucket)
  {
    if query.Failure? {
      return Failure("Failed to cleanup old documents: " + query.error), [];
    }
    var aged := RowsOrEmpty(query.value);
    var deleted := 0;
    trace := [];
    for i := 0 to |aged|
      invariant deleted == CountRemoved(aged[..i], bucket, table) <= i
      invariant trace == CleanupTrace(aged[..i], bucket)
    {
      var doc := aged[i];
      assert aged[..i + 1] == aged[..i] + [doc];
      assert aged[..i + 1][..i] == aged[..i];
      var removed := DeleteFileFromStorage(doc.filePath, bucket);
      trace := trace + [FileDelete(doc.filePath)];
      if removed.Pass? {
        trace := trace + [MetadataDelete(doc.id, doc.userId)];
        var dropped := DeleteDocumentMetadata(doc.id, doc.userId, table);
        if dropped.Pass? {
          deleted := deleted + 1;
        }
      }
    }
    assert aged[..|aged|] == aged;
    r := Success(deleted);
  }

  /** Every metadata delete in `t` is the row delete of one of `docs` and
      comes straight after the storage delete of that same document's file,
      which succeeded. */
  predicate StorageFirst(t: seq<Effect>, docs: seq<DocRecord>, bucket: string -> Outcome) {
    forall p :: 0 <= p < |t| && t[p].MetadataDelete? ==>
      p > 0 && exists k :: 0 <= k < |docs| && StorageThenRow(t, p, docs[k], bucket)
  }

  /** Positions `p - 1` and `p` of `t` are the storage delete and the row
      delete of `doc`, and the storage delete succeeded. */
  predicate StorageThenRow(t: seq<Effect>, p: nat, doc: DocRecord, bucket: string -> Outcome)
    requires 0 < p < |t|
  {
    && t[p - 1] == FileDelete(doc.filePath)
    && t[p] == MetadataDelete(doc.id, doc.userId)
    && bucket(doc.filePath).Pass?
  }

  /** In the cleanup's calls, every metadata delete is that of a document
      whose own storage delete came straight before it and succeeded, so a
      document whose file could not be removed has no row delete of its own. */
  lemma {:induction false} CleanupDeletesStorageFirst(docs: seq<DocRecord>, bucket: string -> Outcome)
    ensures StorageFirst(CleanupTrace(docs, bucket), docs, bucket)
    decreases |docs|
  {
    if |docs| > 0 {
      var last := docs[|docs| - 1];
      var before := docs[..|docs| - 1];
      var front := CleanupTrace(before, bucket);
      var steps := CleanupSteps(last, bucket);
      CleanupDeletesStorageFirst(before, bucket);
      var t := front + steps;
      assert CleanupTrace(docs, bucket) == t;
      forall p | 0 <= p < |t| && t[p].MetadataDelete?
        ensures p > 0 && exists k :: 0 <= k < |docs| && StorageThenRow(t, p, docs[k], bucket)
      {
        if p < |front| {
          assert t[p] == front[p];
          assert p > 0 && exists k :: 0 <= k < |before| && StorageThenRow(front, p, before[k], bucket);
          var k :| 0 <= k < |before| && StorageThenRow(front, p, before[k], bucket);
          assert t[p - 1] == front[p - 1];
          assert before[k] == docs[k];
          assert StorageThenRow(t, p, docs[k], bucket);
        } else {
          assert t[p] == steps[p - |front|];
          assert p == |front| + 1 && t[p - 1] == steps[0];
          assert StorageThenRow(t, p, docs[|docs| - 1], bucket);
        }
      }
    }
  }

  /** `part` occurs in `t` as the slice starting at `i`. */
  predicate OccursAt(t: seq<Effect>, part: seq<Effect>, i: nat) {
    i + |part| <= |t| && t[i..i + |part|] == part
  }

  /** Every old document gets its own steps, in one piece: the storage
      delete of its file, then its row delete exactly when that succeeded. */
  lemma {:induction false} CleanupVisitsEveryDocument(docs: seq<DocRecord>, bucket: string -> Outcome, k: nat)
    requires k < |docs|
    ensures exists i: nat :: OccursAt(CleanupTrace(docs, bucket), CleanupSteps(docs[k], bucket), i)
    decreases |docs|
  {
    var before := docs[..|docs| - 1];
    var front := CleanupTrace(before, bucket);
    var steps := CleanupSteps(docs[k], bucket);
    var t := front + CleanupSteps(docs[|docs| - 1], bucket);
    assert CleanupTrace(docs, bucket) == t;
    if k == |docs| - 1 {
      assert t[|front|..|front| + |steps|] == steps;
      assert OccursAt(t, steps, |front|);
    } else {
      assert before[k] == docs[k];
      CleanupVisitsEveryDocument(before, bucket, k);
      var i: nat :| OccursAt(front, steps, i);
      assert t[i..i + |steps|] == front[i..i + |steps|];
      assert OccursAt(t, steps, i);
    }
  }
}
