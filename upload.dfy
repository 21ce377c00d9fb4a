/** `backend/routes/upload.py`: processing an uploaded document, which
    moves its record through `processing` to `completed` or `error`, and
    reprocessing a stored one. Every service the pipeline calls answers
    through a parameter of `Services`; the calls are recorded, in order, as
    `Effect`s. */
module Upload {
  import opened Wrappers
  import opened Text
  import opened Records
  import opened Auth
  import opened Supabase
  import opened Chunking
  import opened Embedding
  import opened Qdrant

  /** The answers of the services the pipeline uses. */
  datatype Services = Services(
    owners: string -> Result<seq<string>>,                  // `user_id` of the rows with an id
    metadata: (string, string) -> Result<seq<DocRecord>>,   // rows with an id and a user id
    table: (string, map<string, string>) -> Outcome,        // the status update of a row
    now: string,                                            // `datetime.utcnow().isoformat()`
    signedUrl: string -> Result<string>,                    // signed URL for a storage path
    content: string -> Result<nat>,                         // bytes fetched for a storage path
    tempPath: string,                                       // name of the temporary file
    tempPresent: bool,                                      // `os.path.exists(temp_file_path)` in `finally`
    reader: string -> FileReader,                           // what the parsers read from a file
    split: string -> seq<string>,                           // the character splitter
    hf: string -> HfReply,                                  // the embedding API
    collections: Result<seq<string>>,                       // Qdrant collection names
    create: Outcome,                                        // collection creation
    uuids: nat -> string,                                   // `uuid4()`, by point index
    clock: nat -> string,                                   // `datetime.utcnow()`, by point index
    upsert: seq<Point> -> Outcome)                          // one upsert batch

  /** `DocumentUploadResponse`. */
  datatype UploadData = UploadData(documentId: string, status: string, message: string)

  /** What the inner `try` block yields: the number of points stored and of
      chunks made, or the exception's text, and the calls it made. */
  datatype Attempt = Attempt(result: Result<(nat, nat)>, steps: seq<Effect>)

  datatype Run = Run(route: Route<UploadData>, trace: seq<Effect>)

  const NoAccessDetail := "You don't have permission to access this document"
  const NotFoundDetail := "Document not found"
  const NoChunks := "No text chunks could be extracted from the document"
  const Mismatch := "Mismatch between number of chunks and embeddings"
  const ProcessFailed := "Failed to process document"
  const ReprocessFailed := "Failed to reprocess document"
  const EmbeddingBatchSize: nat := 10
  const StoredHead := "Document processed successfully. "
  const StoredTail := " chunks stored."
  const ChunksHead := "Successfully processed "

  /** The response message on success. */
  function StoredMessage(stored: nat): string {
    StoredHead + NatToString(stored) + StoredTail
  }

  /** The `message` of `DocumentUploadResponse` on success. */
  function ChunksMessage(chunks: nat): string {
    ChunksHead + NatToString(chunks) + " chunks"
  }

  /** The inner `try` block on the downloaded file `temp`: chunk, embed,
      store, and mark the record `completed`. */
  function ProcessingAttempt(sv: Services, userId: string, documentId: string, meta: DocRecord, temp: string): (a: Attempt)
    ensures a.result.Success? ==> |a.steps| > 0 && a.steps[|a.steps| - 1] == StatusWrite(documentId, "completed", None)
  {
    var kind := Lower(meta.fileType);
    var chunked := [ExtractAndChunk(temp, kind)];
    match Processed(kind, sv.reader(temp), sv.split)
    case Failure(e) => Attempt(Failure(e), chunked)
    case Success(chunks) =>
      if |chunks| == 0 then Attempt(Failure(NoChunks), chunked)
      else
        var embedded := chunked + [Embed(chunks)];
        match Embeddings(sv.hf, chunks)
        case Failure(e) => Attempt(Failure(e), embedded)
        case Success(embeddings) =>
          if |embeddings| != |chunks| then Attempt(Failure(Mismatch), embedded)
          else
            var stored := embedded + [StoreChunks(documentId, |chunks|)];
            match StoreResult(documentId, userId, meta.name, chunks, embeddings, sv.collections, sv.create,
                              sv.uuids, sv.clock, sv.upsert)
            case Failure(e) => Attempt(Failure(e), stored)
            case Success(count) =>
              var completed := stored + [StatusWrite(documentId, "completed", None)];
              match StatusOutcome(documentId, "completed", None, sv.now, sv.table)
              case Fail(e) => Attempt(Failure(e), completed)
              case Pass => Attempt(Success((count, |chunks|)), completed)
  }

  /** The `except Exception` handler: an attempt to mark the record `error`
      with the exception's text, whose own failure is ignored, and the error
      response carrying that text. */
  function Failed(documentId: string, e: string, trace: seq<Effect>): Run {
    Run(Responded(Err(ProcessFailed, e)), trace + [StatusWrite(documentId, "error", Some(e))])
  }

  /** After the download: the attempt on the temporary file, the `finally`
      that removes the file if it is still there, and the response. */
  function Concluded(sv: Services, documentId: string, fetched: seq<Effect>, temp: string, attempt: Attempt): Run {
    var cleaned := fetched + attempt.steps + (if sv.tempPresent then [RemoveTemp(temp)] else []);
    match attempt.result
    case Failure(e) => Failed(documentId, e, cleaned)
    case Success(counts) =>
      Run(Responded(Ok(StoredMessage(counts.0),
                       UploadData(documentId, "completed", ChunksMessage(counts.1)))),
          cleaned)
  }

  /** Once the row `meta` is found: mark it `processing`, download the file,
      and go on with the attempt. */
  function Started(sv: Services, userId: string, documentId: string, filePath: string, meta: DocRecord,
                   looked: seq<Effect>): Run {
    var marked := looked + [StatusWrite(documentId, "processing", None)];
    match StatusOutcome(documentId, "processing", None, sv.now, sv.table)
    case Fail(e) => Failed(documentId, e, marked)
    case Pass =>
      var fetched := marked + [Download(filePath)];
      match DownloadFileFromStorage(sv.signedUrl(filePath), sv.content(filePath), sv.tempPath)
      case Failure(e) => Failed(documentId, e, fetched)
      case Success(temp) => Concluded(sv, documentId, fetched, temp, ProcessingAttempt(sv, userId, documentId, meta, temp))
  }

  /** `upload_document` for the document `documentId` of `userId`, whose
      file is at `filePath` in storage. */
  function UploadRun(sv: Services, userId: string, documentId: string, filePath: string): Run {
    var asked := [OwnershipQuery([documentId])];
    if !VerifyUserOwnsDocument(userId, sv.owners(documentId)) then
      Run(Raised(HttpError(Forbidden, NoAccessDetail, [])), asked)
    else
      var looked := asked + [MetadataQuery(documentId)];
      match GetDocumentMetadata(sv.metadata(documentId, userId))
      case Failure(e) => Failed(documentId, e, looked)
      case Success(None) => Run(Raised(HttpError(NotFound, NotFoundDetail, [])), looked)
      case Success(Some(meta)) => Started(sv, userId, documentId, filePath, meta, looked)
  }

  /** The inner `try` block: chunk, embed, store and mark `completed`. Its
      `finally` is part of `Conclude`. */
  method ProcessDownloaded(sv: Services, userId: string, documentId: string, meta: DocRecord, temp: string)
    returns (attempt: Attempt)
    ensures attempt == ProcessingAttempt(sv, userId, documentId, meta, temp)
  {
    var kind := Lower(meta.fileType);
    var steps := [ExtractAndChunk(temp, kind)];
    var processed := ProcessDocument(kind, sv.reader(temp), sv.split);
    if processed.Failure? {
      return Attempt(Failure(processed.error), steps);
    }
    var chunks := processed.value;
    if |chunks| == 0 {
      return Attempt(Failure(NoChunks), steps);
    }
    steps := steps + [Embed(chunks)];
    var embedded, _ := GetBatchEmbeddings(sv.hf, chunks, EmbeddingBatchSize);
    if embedded.Failure? {
      return Attempt(Failure(embedded.error), steps);
    }
    var embeddings := embedded.value;
    if |embeddings| != |chunks| {
      return Attempt(Failure(Mismatch), steps);
    }
    steps := steps + [StoreChunks(documentId, |chunks|)];
    var stored, _ := StoreDocumentChunks(documentId, userId, meta.name, chunks, embeddings, sv.collections, sv.create,
                                         sv.uuids, sv.clock, sv.upsert);
    if stored.Failure? {
      return Attempt(Failure(stored.error), steps);
    }
    steps := steps + [StatusWrite(documentId, "completed", None)];
    var completed, _ := UpdateDocumentStatus(documentId, "completed", None, sv.now, sv.table);
    if completed.Fail? {
      return Attempt(Failure(completed.error), steps);
    }
    attempt := Attempt(Success((stored.value, |chunks|)), steps);
  }

  /** The `except Exception` handler. */
  method RecordFailure(sv: Services, documentId: string, e: string, trace: seq<Effect>) returns (run: Run)
    ensures run == Failed(documentId, e, trace)
  {
    var _, _ := UpdateDocumentStatus(documentId, "error", Some(e), sv.now, sv.table);
    run := Run(Responded(Err(ProcessFailed, e)), trace + [StatusWrite(documentId, "error", Some(e))]);
  }

  /** The steps after the download: the inner `try` block, its `finally`
      removing a present temporary file, then the response or the handler. */
  method Conclude(sv: Services, userId: string, documentId: string, meta: DocRecord, fetched: seq<Effect>, temp: string)
    returns (run: Run)
    ensures run == Concluded(sv, documentId, fetched, temp, ProcessingAttempt(sv, userId, documentId, meta, temp))
  {
    var attempt := ProcessDownloaded(sv, userId, documentId, meta, temp);
    var trace := fetched + attempt.steps;
    if sv.tempPresent {
      trace := trace + [RemoveTemp(temp)];
    }
    if attempt.result.Failure? {
      run := RecordFailure(sv, documentId, attempt.result.error, trace);
      return;
    }
    var counts := attempt.result.value;
    run := Run(Responded(Ok(StoredMessage(counts.0),
                            UploadData(documentId, "completed", ChunksMessage(counts.1)))),
               trace);
  }

  /** `upload_document`. */
  method UploadDocument(sv: Services, userId: string, documentId: string, filePath: string) returns (run: Run)
    ensures run == UploadRun(sv, userId, documentId, filePath)
  {
    var trace := [OwnershipQuery([documentId])];
    if !VerifyUserOwnsDocument(userId, sv.owners(documentId)) {
      return Run(Raised(HttpError(Forbidden, NoAccessDetail, [])), trace);
    }
    trace := trace + [MetadataQuery(documentId)];
    var found := GetDocumentMetadata(sv.metadata(documentId, userId));
    if found.Failure? {
      run := RecordFailure(sv, documentId, found.error, trace);
      return;
    }
    if found.value.None? {
      return Run(Raised(HttpError(NotFound, NotFoundDetail, [])), trace);
    }
    var meta := found.value.value;
    trace := trace + [StatusWrite(documentId, "processing", None)];
    var marked, _ := UpdateDocumentStatus(documentId, "processing", None, sv.now, sv.table);
    if marked.Fail? {
      run := RecordFailure(sv, documentId, marked.error, trace);
      return;
    }
    trace := trace + [Download(filePath)];
    var downloaded := DownloadFileFromStorage(sv.signedUrl(filePath), sv.content(filePath), sv.tempPath);
    if downloaded.Failure? {
      run := RecordFailure(sv, documentId, downloaded.error, trace);
      return;
    }
    run := Conclude(sv, userId, documentId, meta, trace, downloaded.value);
  }

  /** `reprocess_document`: the same two checks, then `upload_document` on
      the storage path recorded in the row. */
  function ReprocessRun(sv: Services, userId: string, documentId: string): Run {
    var asked := [OwnershipQuery([documentId])];
    if !VerifyUserOwnsDocument(userId, sv.owners(documentId)) then
      Run(Raised(HttpError(Forbidden, NoAccessDetail, [])), asked)
    else
      var looked := asked + [MetadataQuery(documentId)];
      match GetDocumentMetadata(sv.metadata(documentId, userId))
      case Failure(e) => Run(Responded(Err(ReprocessFailed, e)), looked)
      case Success(None) => Run(Raised(HttpError(NotFound, NotFoundDetail, [])), looked)
      case Success(Some(meta)) =>
        var inner := UploadRun(sv, userId, documentId, meta.filePath);
        Run(inner.route, looked + inner.trace)
  }

  /** `reprocess_document`. */
  method ReprocessDocument(sv: Services, userId: string, documentId: string) returns (run: Run)
    ensures run == ReprocessRun(sv, userId, documentId)
    ensures VerifyUserOwnsDocument(userId, sv.owners(documentId)) &&
            GetDocumentMetadata(sv.metadata(documentId, userId)).Success? &&
            GetDocumentMetadata(sv.metadata(documentId, userId)).value.Some? ==>
      var inner := UploadRun(sv, userId, documentId, GetDocumentMetadata(sv.metadata(documentId, userId)).value.value.filePath);
      run.route == inner.route && run.trace == [OwnershipQuery([documentId]), MetadataQuery(documentId)] + inner.trace
  {
    var trace := [OwnershipQuery([documentId])];
    if !VerifyUserOwnsDocument(userId, sv.owners(documentId)) {
      return Run(Raised(HttpError(Forbidden, NoAccessDetail, [])), trace);
    }
    trace := trace + [MetadataQuery(documentId)];
    var found := GetDocumentMetadata(sv.metadata(documentId, userId));
    if found.Failure? {
      return Run(Responded(Err(ReprocessFailed, found.error)), trace);
    }
    if found.value.None? {
      return Run(Raised(HttpError(NotFound, NotFoundDetail, [])), trace);
    }
    var inner := UploadDocument(sv, userId, documentId, found.value.value.filePath);
    run := Run(inner.route, trace + inner.trace);
  }

  // ------------------------------------------------------------- properties

  predicate WritesNoStatus(trace: seq<Effect>) {
    forall k :: 0 <= k < |trace| ==> !trace[k].StatusWrite?
  }

  /** The status named by the last status write of the trace, if any. */
  function LastStatus(trace: seq<Effect>): Option<string>
    decreases |trace|
  {
    if |trace| == 0 then None
    else if trace[|trace| - 1].StatusWrite? then Some(trace[|trace| - 1].status)
    else LastStatus(trace[..|trace| - 1])
  }

  lemma LastStatusOfSnoc(trace: seq<Effect>, e: Effect)
    ensures LastStatus(trace + [e]) == if e.StatusWrite? then Some(e.status) else LastStatus(trace)
  {
    assert (trace + [e])[..|trace|] == trace;
  }

  /** A response reports success exactly when the record was last marked
      `completed`, echoing the document with status "completed"; any other
      response carries the error last written to the record. */
  predicate EndsCompletedOrError(run: Run, documentId: string) {
    run.route.Responded? ==>
      var response := run.route.response;
      && (response.success ==>
            && LastStatus(run.trace) == Some("completed")
            && response.data.Some? && response.data.value.documentId == documentId
            && response.data.value.status == "completed")
      && (!response.success ==>
            && response.message == ProcessFailed && response.error.Some?
            && |run.trace| > 0
            && run.trace[|run.trace| - 1] == StatusWrite(documentId, "error", response.error)
            && LastStatus(run.trace) == Some("error"))
  }

  /** The trace ends with the removal of the temporary file, or with it and
      the error write after it. */
  predicate EndsWithRemoval(trace: seq<Effect>, temp: string) {
    |trace| > 0 &&
    (trace[|trace| - 1] == RemoveTemp(temp) ||
     (|trace| >= 2 && trace[|trace| - 2] == RemoveTemp(temp) && trace[|trace| - 1].StatusWrite? &&
      trace[|trace| - 1].status == "error"))
  }

  lemma FailedEnds(documentId: string, e: string, trace: seq<Effect>)
    ensures EndsCompletedOrError(Failed(documentId, e, trace), documentId)
    ensures Failed(documentId, e, trace).trace[..|trace|] == trace
  {
    LastStatusOfSnoc(trace, StatusWrite(documentId, "error", Some(e)));
  }

  /** The stage after the download keeps the calls made before it, ends in
      `completed` or `error`, and removes the file when it is there. */
  lemma ConcludedEnds(sv: Services, documentId: string, fetched: seq<Effect>, temp: string, attempt: Attempt)
    requires attempt.result.Success? ==>
      |attempt.steps| > 0 && attempt.steps[|attempt.steps| - 1] == StatusWrite(documentId, "completed", None)
    ensures var run := Concluded(sv, documentId, fetched, temp, attempt);
      && run.route.Responded?
      && |run.trace| >= |fetched| && run.trace[..|fetched|] == fetched
      && EndsCompletedOrError(run, documentId)
      && (sv.tempPresent ==> EndsWithRemoval(run.trace, temp))
  {
    var done := fetched + attempt.steps;
    var cleaned := done + (if sv.tempPresent then [RemoveTemp(temp)] else []);
    assert cleaned[..|fetched|] == fetched;
    if attempt.result.Failure? {
      FailedEnds(documentId, attempt.result.error, cleaned);
    } else {
      assert done == done[..|done| - 1] + [StatusWrite(documentId, "completed", None)];
      LastStatusOfSnoc(done[..|done| - 1], StatusWrite(documentId, "completed", None));
      if sv.tempPresent {
        LastStatusOfSnoc(done, RemoveTemp(temp));
      }
    }
  }

  /** Once the row is found, the stage marks it `processing` before anything
      else, and ends in `completed` or `error`. */
  lemma StartedEnds(sv: Services, userId: string, documentId: string, filePath: string, meta: DocRecord,
                    looked: seq<Effect>)
    ensures var run := Started(sv, userId, documentId, filePath, meta, looked);
      && run.route.Responded?
      && |run.trace| > |looked| && run.trace[..|looked| + 1] == looked + [StatusWrite(documentId, "processing", None)]
      && EndsCompletedOrError(run, documentId)
  {
    var marked := looked + [StatusWrite(documentId, "processing", None)];
    var fetched := marked + [Download(filePath)];
    if StatusOutcome(documentId, "processing", None, sv.now, sv.table).Fail? {
      FailedEnds(documentId, StatusOutcome(documentId, "processing", None, sv.now, sv.table).error, marked);
    } else if DownloadFileFromStorage(sv.signedUrl(filePath), sv.content(filePath), sv.tempPath).Failure? {
      FailedEnds(documentId, DownloadFileFromStorage(sv.signedUrl(filePath), sv.content(filePath), sv.tempPath).error, fetched);
      assert fetched[..|marked|] == marked;
    } else {
      var temp := sv.tempPath;
      ConcludedEnds(sv, documentId, fetched, temp, ProcessingAttempt(sv, userId, documentId, meta, temp));
      assert fetched[..|marked|] == marked;
    }
  }

  /** The route raises exactly when the caller does not own the document or
      its row is missing, and then it has written no status. */
  lemma RaisesOnlyAtTheChecks(sv: Services, userId: string, documentId: string, filePath: string)
    ensures var run := UploadRun(sv, userId, documentId, filePath);
      && (run.route.Raised? <==>
            !VerifyUserOwnsDocument(userId, sv.owners(documentId)) ||
            sv.metadata(documentId, userId) == Success([]))
      && (!VerifyUserOwnsDocument(userId, sv.owners(documentId)) ==>
            run.route.exception == HttpError(Forbidden, NoAccessDetail, []))
      && (VerifyUserOwnsDocument(userId, sv.owners(documentId)) && sv.metadata(documentId, userId) == Success([]) ==>
            run.route.exception == HttpError(NotFound, NotFoundDetail, []))
      && (run.route.Raised? ==> WritesNoStatus(run.trace))
  {
    var meta := GetDocumentMetadata(sv.metadata(documentId, userId));
    if VerifyUserOwnsDocument(userId, sv.owners(documentId)) && meta.Success? && meta.value.Some? {
      StartedEnds(sv, userId, documentId, filePath, meta.value.value, [OwnershipQuery([documentId])] + [MetadataQuery(documentId)]);
    }
  }

  /** The first status the trace writes is `processing`, third after the
      ownership and row queries, and no download or chunking precedes it. */
  predicate ProcessingFirst(t: seq<Effect>, documentId: string) {
    && |t| >= 3 && t[2] == StatusWrite(documentId, "processing", None)
    && (forall k :: 0 <= k < 2 ==> !t[k].StatusWrite?)
    && (forall k :: 0 <= k < |t| && (t[k].Download? || t[k].ExtractAndChunk?) ==> k > 2)
  }

  lemma ProcessingFirstOfPrefix(t: seq<Effect>, documentId: string)
    requires |t| >= 3
    requires t[..3] == [OwnershipQuery([documentId]), MetadataQuery(documentId), StatusWrite(documentId, "processing", None)]
    ensures ProcessingFirst(t, documentId)
  {
    forall k | 0 <= k < 3 ensures t[k] == t[..3][k] { }
  }

  /** Once the row is found, the first status written is `processing`, and
      it is written before the file is downloaded or chunked. */
  lemma ProcessingComesFirst(sv: Services, userId: string, documentId: string, filePath: string)
    requires VerifyUserOwnsDocument(userId, sv.owners(documentId))
    requires GetDocumentMetadata(sv.metadata(documentId, userId)).Success?
    requires GetDocumentMetadata(sv.metadata(documentId, userId)).value.Some?
    ensures ProcessingFirst(UploadRun(sv, userId, documentId, filePath).trace, documentId)
  {
    var looked := [OwnershipQuery([documentId])] + [MetadataQuery(documentId)];
    var meta := GetDocumentMetadata(sv.metadata(documentId, userId)).value.value;
    StartedEnds(sv, userId, documentId, filePath, meta, looked);
    ProcessingFirstOfPrefix(UploadRun(sv, userId, documentId, filePath).trace, documentId);
  }

  /** Every response ends with the record marked `completed` (on success) or
      `error` (carrying the response's error). */
  lemma UploadEndsCompletedOrError(sv: Services, userId: string, documentId: string, filePath: string)
    ensures EndsCompletedOrError(UploadRun(sv, userId, documentId, filePath), documentId)
  {
    var looked := [OwnershipQuery([documentId])] + [MetadataQuery(documentId)];
    var meta := GetDocumentMetadata(sv.metadata(documentId, userId));
    if VerifyUserOwnsDocument(userId, sv.owners(documentId)) {
      if meta.Failure? {
        FailedEnds(documentId, meta.error, looked);
      } else if meta.value.Some? {
        StartedEnds(sv, userId, documentId, filePath, meta.value.value, looked);
      }
    }
  }

  /** Once the file is downloaded and still there, it is removed after
      the chunking, embedding, storing and `completed` write, and nothing
      but the error write follows. */
  lemma TempFileIsRemoved(sv: Services, userId: string, documentId: string, filePath: string)
    requires VerifyUserOwnsDocument(userId, sv.owners(documentId))
    requires GetDocumentMetadata(sv.metadata(documentId, userId)).Success?
    requires GetDocumentMetadata(sv.metadata(documentId, userId)).value.Some?
    requires StatusOutcome(documentId, "processing", None, sv.now, sv.table).Pass?
    requires DownloadFileFromStorage(sv.signedUrl(filePath), sv.content(filePath), sv.tempPath).Success?
    requires sv.tempPresent
    ensures EndsWithRemoval(UploadRun(sv, userId, documentId, filePath).trace, sv.tempPath)
  {
    var meta := GetDocumentMetadata(sv.metadata(documentId, userId)).value.value;
    var fetched := [OwnershipQuery([documentId]), MetadataQuery(documentId), StatusWrite(documentId, "processing", None),
                    Download(filePath)];
    ConcludedEnds(sv, documentId, fetched, sv.tempPath, ProcessingAttempt(sv, userId, documentId, meta, sv.tempPath));
  }

  /** The attempt does not read the answer to the error write. */
  lemma AttemptIgnoresErrorWrite(sv: Services, userId: string, documentId: string, meta: DocRecord, temp: string,
                                 table: (string, map<string, string>) -> Outcome)
    requires table(documentId, StatusRecord("completed", sv.now, None)) ==
             sv.table(documentId, StatusRecord("completed", sv.now, None))
    ensures ProcessingAttempt(sv.(table := table), userId, documentId, meta, temp) ==
            ProcessingAttempt(sv, userId, documentId, meta, temp)
  {
    var other := sv.(table := table);
    match Processed(Lower(meta.fileType), sv.reader(temp), sv.split)
    case Failure(_) =>
    case Success(chunks) =>
      match Embeddings(sv.hf, chunks)
      case Failure(_) =>
      case Success(embeddings) =>
        var stored := StoreResult(documentId, userId, meta.name, chunks, embeddings,
                                  sv.collections, sv.create, sv.uuids, sv.clock, sv.upsert);
        if |chunks| > 0 && |embeddings| == |chunks| && stored.Success? {
          assert StatusOutcome(documentId, "completed", None, other.now, other.table) ==
                 StatusOutcome(documentId, "completed", None, sv.now, sv.table);
        }
  }

  /** The answer to the error write does not matter: with any other answer
      to it, the route returns the same and makes the same calls. */
  lemma ErrorWriteFailureIsSwallowed(sv: Services, userId: string, documentId: string, filePath: string,
                                     table: (string, map<string, string>) -> Outcome)
    requires table(documentId, StatusRecord("processing", sv.now, None)) ==
             sv.table(documentId, StatusRecord("processing", sv.now, None))
    requires table(documentId, StatusRecord("completed", sv.now, None)) ==
             sv.table(documentId, StatusRecord("completed", sv.now, None))
    ensures UploadRun(sv.(table := table), userId, documentId, filePath) == UploadRun(sv, userId, documentId, filePath)
  {
    var meta := GetDocumentMetadata(sv.metadata(documentId, userId));
    if meta.Success? && meta.value.Some? {
      AttemptIgnoresErrorWrite(sv, userId, documentId, meta.value.value, sv.tempPath, table);
    }
  }

  /** The two checks that would fail inside the attempt cannot: chunking
      never succeeds without chunks, and a successful embedding has one
      vector per chunk. So a failed attempt is the chunking's, the
      embedding's, the store's or the `completed` status write's failure,
      with that stage's message. */
  lemma AttemptChecksNeverFire(sv: Services, userId: string, documentId: string, meta: DocRecord, temp: string)
    ensures var attempt := ProcessingAttempt(sv, userId, documentId, meta, temp);
      attempt.result.Failure? ==>
        var chunks := Processed(Lower(meta.fileType), sv.reader(temp), sv.split);
        || (chunks.Failure? && attempt.result.error == chunks.error)
        || (chunks.Success? && Embeddings(sv.hf, chunks.value).Failure? &&
            attempt.result.error == Embeddings(sv.hf, chunks.value).error)
        || (chunks.Success? && Embeddings(sv.hf, chunks.value).Success? &&
            var stored := StoreResult(documentId, userId, meta.name, chunks.value, Embeddings(sv.hf, chunks.value).value,
                                      sv.collections, sv.create, sv.uuids, sv.clock, sv.upsert);
            || (stored.Failure? && attempt.result.error == stored.error)
            || (stored.Success? && StatusOutcome(documentId, "completed", None, sv.now, sv.table).Fail? &&
                attempt.result.error == StatusOutcome(documentId, "completed", None, sv.now, sv.table).error))
  {
    var kind := Lower(meta.fileType);
    ProcessedContract(ExtractedText(kind, sv.reader(temp)), sv.split);
    match Processed(kind, sv.reader(temp), sv.split)
    case Failure(_) =>
    case Success(chunks) =>
      assert |chunks| > 0;
      match Embeddings(sv.hf, chunks)
      case Failure(_) =>
      case Success(embeddings) =>
        OneEmbeddingPerText(sv.hf, chunks);
        assert |embeddings| == |chunks|;
        var stored := StoreResult(documentId, userId, meta.name, chunks, embeddings,
                                  sv.collections, sv.create, sv.uuids, sv.clock, sv.upsert);
        if stored.Failure? {
          assert ProcessingAttempt(sv, userId, documentId, meta, temp).result == Failure(stored.error);
        }
  }
}
