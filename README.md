# DocChat backend: a verified model of its decision logic

DocChat is a FastAPI backend for chatting with your own documents.
- A user uploads PDF, DOCX or TXT files to Supabase storage.
- The backend extracts the text, splits it into chunks, embeds every chunk with a Hugging Face model, and stores the vectors in Qdrant.
- To answer a question, it searches the nearest chunks of the user's documents and asks Gemini to answer from them.
- Routes list, count and delete the documents, and a scheduled job removes old documents and vectors.

Most of the code is glue around those four services. This project models the layer of deterministic decisions between the calls, and proves what those decisions guarantee.

Every external call is an oracle:
- a value of `Result<T>` (`Success(v)` or `Failure(message)`) or `Outcome` (`Pass` or `Fail(message)`);
- or a function from the call's arguments to such a value.

Examples are the database select, update and delete, the storage remove, the vector upsert, scroll, search and delete, the embedding request and the Gemini call. A Python exception is a `Failure` carrying `str(e)`, with each wrapper's message prefix written out. The one exception to this is the embedding request, whose retry decorator replaces the message (see "## Left out"). An `HTTPException` is `Raised(HttpError(code, detail, headers))` in a `Route`.

The routes also return the calls they make, in order, as a `seq<Effect>`. That list lets the model state call order ("the record is marked processing before the download") and calls that never happen ("a 403 writes no status").

Module per source file:
- `Auth`: `backend/utils/auth.py`.
- `Chunking`: `backend/utils/chunking.py`.
- `Embedding`: `backend/services/embedding.py`.
- `Qdrant`: `backend/services/qdrant.py`.
- `Supabase`: `backend/services/supabase.py`.
- `Inference`: `backend/services/inference.py`.
- `Documents`: `backend/routes/documents.py`.
- `Upload`: `backend/routes/upload.py`.
- `Ask`: `backend/routes/ask.py`.

Shared helpers:
- `Wrappers`: `Option`, `Result`, `Outcome`.
- `Text`: Python's `strip`, `lower`, `split`, `join`, slicing with `...`, and integer formatting.
- `Seqs`: filter, Python slicing, batching.
- `Records`: the database row, the API response, the HTTP error and the `Effect` calls.

Form:
- Where the source loops and appends, the model is a method with a loop. Examples are the formatting, bulk-delete and counting loops, the embedding loops, point building and upsert batches, the cleanup loop, the text accumulation and the source list.
- Each such method is proved equal to a specification function.
- The comprehensions, guards and string building are functions.
- The properties are lemmas about those functions.

## Model

| member | source | states |
|---|---|---|
| Auth.GetCurrentUser | backend/utils/auth.py:25-50 | the caller is authenticated exactly when the auth service answers with a user, and is that user's id; every other answer, error included, is the 401 with the `WWW-Authenticate: Bearer` header |
| Auth.AllOwnedBy | backend/utils/auth.py:79 | true exactly when every returned row's `user_id` is the caller |
| Auth.VerifyUserOwnsDocument | backend/utils/auth.py:53-66 | true exactly when the query succeeded, returned a row, and the first row's `user_id` is the caller; no row or a failed query gives false |
| Auth.VerifyUserOwnsDocuments | backend/utils/auth.py:69-82 | true only when the query succeeded with as many rows as ids; in that case true exactly when every row belongs to the caller; a failed query gives false |
| Auth.SingleAndBulkChecksAgree | backend/utils/auth.py:53-82 | for one id, the bulk check and the single check give the same answer |
| Auth.OwnershipIsExclusive | backend/utils/auth.py:76-79 | two callers that both pass the bulk check for the same non-empty ids are the same caller |
| Auth.EmptyListIsOwned | backend/utils/auth.py:76-79 | an empty id list with no rows passes the bulk check |
| Chunking.LineTerminatedIsJoin | backend/utils/chunking.py:44-45 | the text built by `text += part + "\n"` is the parts joined by newlines, with a final newline |
| Chunking.LinesRoundTrip | backend/utils/chunking.py:44-45 | splitting that text at newlines gives back the parts and a final empty piece, when no part holds a newline |
| Chunking.TerminateLines | backend/utils/chunking.py:42-47 | the accumulation loop yields each part followed by a newline, in order |
| Chunking.ExtractTextFromPdf | backend/utils/chunking.py:37-47 | the page texts each followed by a newline; a parser failure passes through |
| Chunking.ExtractTextFromDocx | backend/utils/chunking.py:50-58 | the paragraph texts each followed by a newline; a parser failure passes through |
| Chunking.ExtractTextFromFile | backend/utils/chunking.py:15-34 | equals the dispatch on the lower-cased file type |
| Chunking.UnsupportedTypesFail | backend/utils/chunking.py:22-32 | a type other than pdf/docx/txt in any letter case fails with "Error extracting text from T file: Unsupported file type: T"; any success implies a supported type |
| Chunking.DispatchByLowered | backend/utils/chunking.py:22-28 | two types that lower-case alike succeed together and then give the same text, for all types and files |
| Chunking.ChunkTextKeepsLongChunks | backend/utils/chunking.py:67-83 | the kept chunks are exactly the splitter's chunks whose stripped length exceeds 50, as a subsequence in splitter order |
| Chunking.ProcessedContract | backend/utils/chunking.py:86-102 | extraction failures pass through; whitespace-only or empty text fails with "No text could be extracted from the document"; a success is never empty and is the chunks `chunk_text` keeps, each longer than 50 once stripped |
| Chunking.ProcessDocument | backend/utils/chunking.py:86-102 | equals the specification function `Processed` |
| Chunking.ShortChunksFail | backend/utils/chunking.py:96-100 | text that is not all whitespace, whose splitter chunks are all at most 50 long once stripped, fails with "No valid chunks could be created from the document" |
| Embedding.Normalise | backend/services/embedding.py:140-148 | succeeds exactly on a non-empty list; a list starting with a number is used whole; a nested list gives its first element, or `[]` when that is falsy; anything else fails with "Unexpected response format: …" |
| Embedding.EmbeddingOf | backend/services/embedding.py:127-167 | one reply's embedding: success only for status 200 with a decodable body of that shape. The handler at lines 164-165 wraps every other failure of the `try` as "Embedding generation failed: …": a 503 is "Embedding generation failed: Model is loading, retrying...", any other status is "Embedding generation failed: HF API error: <code> - <text>", and an undecodable body or an unexpected format gets the same prefix. Only a transport error keeps the bare "Request failed: …". These are the texts one attempt raises; after three failed attempts the program's callers see `tenacity`'s `RetryError` text instead |
| Embedding.EmbeddingsAppend | backend/services/embedding.py:127-162 | embedding `a + b` equals embedding `a`, then `b`, and concatenating; the first failure wins |
| Embedding.OneEmbeddingPerText | backend/services/embedding.py:127-162 | on success there is one embedding per text, and embedding `k` is the embedding of text `k` |
| Embedding.FailsAtFirstBadReply | backend/services/embedding.py:127-167 | the call fails exactly when some text's reply yields no embedding, and then with the first such reply's error |
| Embedding.GetEmbeddings | backend/services/embedding.py:115-167 | equals `Embeddings`; an empty list sends nothing; the texts sent are a prefix of the input, all of it on success, and they stop at the first failing text |
| Embedding.GetSingleEmbedding | backend/services/embedding.py:170-175 | the embedding of the one text's reply |
| Embedding.PacedShape | backend/services/embedding.py:184-191 | batch `k` is step `2k`, and a pause lies between two batches and never after the last |
| Embedding.EmbedInBatches | backend/services/embedding.py:184-193 | equals `Embeddings`; the steps are a prefix of the paced batches, all of them on success, and end at the failing batch |
| Embedding.GetBatchEmbeddings | backend/services/embedding.py:178-193 | a zero batch size is the `range()` error; a negative size gives `[]` with no calls; a positive size gives the in-order concatenation of the per-batch results |
| Embedding.BatchesPartitionTexts | backend/services/embedding.py:184-187 | the batches are consecutive slices covering the texts in order, all of size `batch_size` except a shorter last one, so there are ceil(n/batch_size) of them |
| Qdrant.EnsureOutcome | backend/services/qdrant.py:23-41 | the collection is created only when it is missing; a failure is wrapped as "Failed to ensure collection exists: …" |
| Qdrant.EnsureCollectionExists | backend/services/qdrant.py:23-41 | asks for creation exactly when the collection is missing, and returns `EnsureOutcome` |
| Qdrant.PointsUpTo | backend/services/qdrant.py:58-71 | point `i` holds chunk `i`, embedding `i`, `chunk_index = i`, and the given document id, user id and document name |
| Qdrant.BuildPoints | backend/services/qdrant.py:58-73 | the point loop builds `ZipPoints` |
| Qdrant.PointsPairChunksWithEmbeddings | backend/services/qdrant.py:58-71 | there are min(chunks, embeddings) points, paired by position, each carrying the document's ids and name |
| Qdrant.UpsertStopsAtFirstFailure | backend/services/qdrant.py:76-82 | the upserts succeed exactly when every batch's upsert does; otherwise they stop with the first failing batch's error |
| Qdrant.UpsertInBatches | backend/services/qdrant.py:76-82 | equals `UpsertOutcome` over the batches of 100; the batches sent are a prefix of all of them, all on success, and only the last sent may fail |
| Qdrant.StoreDocumentChunks | backend/services/qdrant.py:44-87 | equals `StoreResult`; nothing is upserted when the collection check fails; on success every batch of the built points is upserted |
| Qdrant.StoredCountIsPointCount | backend/services/qdrant.py:84 | a success returns the number of points built |
| Qdrant.UpsertsCoverPoints | backend/services/qdrant.py:76-82 | the upsert batches cover every point once, in order, with at most 100 per batch |
| Qdrant.SearchConditions | backend/services/qdrant.py:101-111 | the filter always holds the `user_id` condition, and also the `document_id` condition exactly when ids are given and non-empty |
| Qdrant.SearchFilter | backend/services/qdrant.py:101-111 | the conditional appends build `SearchConditions` |
| Qdrant.FormatHits | backend/services/qdrant.py:121-134 | one result per answer, in answer order, copying id, score and payload fields |
| Qdrant.SearchSimilarChunks | backend/services/qdrant.py:90-137 | equals the search under those conditions, formatted, with "Failed to search similar chunks: …" on failure |
| Qdrant.DeleteDocumentVectors | backend/services/qdrant.py:140-173 | returns the number of matched ids, and deletes only when there are some, selecting that document's points for that user |
| Qdrant.OldIdsAreExactlyTheOld | backend/services/qdrant.py:209-213 | an id is selected exactly when its point has a `created_at` that compares lexicographically below the cutoff |
| Qdrant.DeleteOldVectors | backend/services/qdrant.py:192-224 | returns the number of old ids, deletes only when there are some, and wraps failures as "Failed to delete old vectors: …" |
| Supabase.GetDocumentMetadata | backend/services/supabase.py:18-30 | the first row, or None when there are none; a failed query is "Failed to get document metadata: …" |
| Supabase.RowsOrEmpty | backend/services/supabase.py:40 | missing data reads as no rows |
| Supabase.GetUserDocuments | backend/services/supabase.py:33-43 | the rows, or `[]` when there is no data; a failure is wrapped |
| Supabase.GetDocumentByIds | backend/services/supabase.py:165-175 | the rows, or `[]` when there is no data; a failure is wrapped |
| Supabase.StatusRecord | backend/services/supabase.py:51-57 | the update always holds `status` and `updated_at`, and holds `error_message` exactly when a non-empty message is given |
| Supabase.BuildStatusUpdate | backend/services/supabase.py:51-57 | the dictionary building yields `StatusRecord` |
| Supabase.StatusOutcome | backend/services/supabase.py:46-62 | passes exactly when the table accepts that record; a failure is "Failed to update document status: …" |
| Supabase.UpdateDocumentStatus | backend/services/supabase.py:46-62 | sends `StatusRecord` and returns `StatusOutcome` |
| Supabase.DeleteDocumentMetadata | backend/services/supabase.py:65-73 | passes exactly when the delete does; a failure is wrapped |
| Supabase.DeleteFileFromStorage | backend/services/supabase.py:120-129 | passes exactly when the removal does; a failure is wrapped |
| Supabase.DownloadFileFromStorage | backend/services/supabase.py:76-117 | succeeds exactly with a non-empty signed URL and a non-empty body, giving the temporary path; an empty URL and an empty file fail with their messages |
| Supabase.CleanupOldDocuments | backend/services/supabase.py:132-162 | the count is the number of old documents whose two deletes both succeed, at most their number; the calls follow the loop; a failed select is "Failed to cleanup old documents: …" |
| Supabase.CleanupDeletesStorageFirst | backend/services/supabase.py:148-151 | every metadata delete is the row delete of one of the old documents and comes straight after the storage delete of that same document's file, which succeeded |
| Supabase.CleanupVisitsEveryDocument | backend/services/supabase.py:146-151 | every old document gets its own steps in one piece: the storage delete of its file, then its row delete exactly when that storage delete succeeded |
| Inference.ContextEntries | backend/services/inference.py:19-22 | one "Source: name\nContent: text" entry per chunk, by position |
| Inference.ContextInChunkOrder | backend/services/inference.py:19-22 | the context is the entries joined by blank lines in chunk order |
| Inference.GenerateAnswer | backend/services/inference.py:13-41 | fails exactly when Gemini does, wrapped as "Failed to generate answer: …"; otherwise Gemini's text processed by `Reply` |
| Inference.AnswerIsStrippedOrFallback | backend/services/inference.py:35-38 | an empty text gives the fixed fallback answer, any other the stripped text |
| Inference.SummaryPromptLeaksComment | backend/services/inference.py:49-53 | the prompt as written differs from the intended one on every input: it carries the code comment after the excerpt |
| Inference.GenerateDocumentSummary | backend/services/inference.py:44-63 | with the intended prompt, fails exactly when Gemini does; otherwise the stripped text or "Summary could not be generated." |
| Inference.SummaryReadsOnlyPrefix | backend/services/inference.py:51 | texts that agree on their first 3000 characters get the same summary |
| Inference.StripAll | backend/services/inference.py:80 | each piece stripped, by position |
| Inference.ExtractKeywords | backend/services/inference.py:66-86 | at most 10 comma-free keywords: the stripped answer split at commas, each piece stripped; `[]` for a failure or an empty answer, never a raise |
| Inference.KeywordsReadOnlyPrefix | backend/services/inference.py:73 | texts that agree on their first 2000 characters get the same keywords |
| Documents.FilterByStatus | backend/routes/documents.py:27-28 | with no filter, all rows; with a filter, every kept row has that status, and every row with it is kept as often as it occurs (multiset), in order |
| Documents.PageIsWindow | backend/routes/documents.py:32 | the page is a contiguous run of the filtered rows, at most `limit` long, and is `rows[offset:offset+limit]` for an in-range offset |
| Documents.FormatPage | backend/routes/documents.py:35-46 | one eight-field item per row of the page, in page order, `error_message` None when absent |
| Documents.GetDocuments | backend/routes/documents.py:12-62 | a failed select gives the "Failed to retrieve documents" failure; otherwise `total_count` is the filtered count before paging, and the items are the formatted page, with "Retrieved N documents" |
| Documents.DeletedAreTheRemoved | backend/routes/documents.py:192-222 | the deleted ids are exactly the requested ids whose document is found and whose row delete succeeds, in request order |
| Documents.FailedAreTheKept | backend/routes/documents.py:192-222 | the failed ids are exactly the other requested ids, in request order |
| Documents.ListsShareTheRequest | backend/routes/documents.py:192-222 | the two list lengths add up to the number of requested ids |
| Documents.EveryIdLandsOnce | backend/routes/documents.py:192-222 | each requested id lands in exactly one list: the two filters split the request, and the multisets add up to the request's |
| Documents.FailureCauses | backend/routes/documents.py:196-220 | an id fails only by a failed lookup (its message), a missing row ("Document not found") or a failed row delete (its message); a deleted entry carries the row's name |
| Documents.VectorAndFileFailuresAreIgnored | backend/routes/documents.py:203-214 | any other answers from the vector and file deletes leave both lists unchanged |
| Documents.DeleteLoopStep | backend/routes/documents.py:192-222 | one more id extends the list its fate names, and the vector total by its count |
| Documents.DeleteOne | backend/routes/documents.py:194-222 | the loop body's fate and calls |
| Documents.DeleteMultipleDocuments | backend/routes/documents.py:166-245 | an empty list raises 400 with no call; unowned ids raise 403 after only the ownership select; otherwise the lists, the vector total, the message and `success` (at least one deleted) come from the loop, whose calls follow the select |
| Documents.TallyCounts | backend/routes/documents.py:264-270 | the counting dictionary holds exactly the labels that occur, each with its number of occurrences |
| Documents.FirstSeen | backend/routes/documents.py:264-270 | the dictionary's keys in insertion order: exactly the labels, without repeats |
| Documents.TallySumsToCount | backend/routes/documents.py:264-270 | the dictionary's values add up to the number of labels |
| Documents.StatsAreConsistent | backend/routes/documents.py:259-285 | both breakdowns add up to `total_documents`; the completed, processing and error counts are the multiset counts, 0 when absent; the size is the sum of `file_size` |
| Documents.GetDocumentStats | backend/routes/documents.py:248-298 | a failed select gives the "Failed to retrieve document statistics" failure; otherwise the statistics of the rows |
| Upload.ProcessingAttempt | backend/routes/upload.py:45-79 | a successful attempt ends by marking the record `completed` |
| Upload.ProcessDownloaded | backend/routes/upload.py:45-79 | the inner `try` block: chunk, embed, store and mark `completed`, equal to `ProcessingAttempt` |
| Upload.RecordFailure | backend/routes/upload.py:88-99 | the handler's write of `error` and its failure response |
| Upload.Conclude | backend/routes/upload.py:45-99 | the stages after the download, equal to `Concluded`: the attempt, then the `finally` that removes a present temporary file, then the response or the handler |
| Upload.UploadDocument | backend/routes/upload.py:15-99 | equals `UploadRun` |
| Upload.ReprocessDocument | backend/routes/upload.py:102-142 | equals `ReprocessRun`: the same two checks, with a failed lookup giving "Failed to reprocess document"; for an owned document whose row is found, the route is the upload of the `file_path` stored in that row, after the two selects |
| Upload.FailedEnds | backend/routes/upload.py:88-99 | the handler keeps the calls before it and ends with the write of `error` carrying the exception text |
| Upload.ConcludedEnds | backend/routes/upload.py:45-99 | after the download the route responds, keeps the earlier calls, ends `completed` or `error`, and removes a present temporary file |
| Upload.StartedEnds | backend/routes/upload.py:39-99 | once the row is found, `processing` is written next, and the route responds ending `completed` or `error` |
| Upload.RaisesOnlyAtTheChecks | backend/routes/upload.py:25-37 | the route raises exactly at the failed ownership check (403) or the missing row (404), and then writes no status |
| Upload.ProcessingFirstOfPrefix | backend/routes/upload.py:25-43 | a trace that starts with the two checks and the `processing` write writes that status first, before any download or chunking |
| Upload.ProcessingComesFirst | backend/routes/upload.py:39-43 | once the row is found, `processing` is the first status written, before the download and the chunking |
| Upload.UploadEndsCompletedOrError | backend/routes/upload.py:69-99 | a success response has the record last marked `completed` and echoes the id with status "completed"; a failure response carries the error and ends with the write of `error` |
| Upload.TempFileIsRemoved | backend/routes/upload.py:81-84 | once downloaded and present, the temporary file is removed on success and on failure |
| Upload.AttemptIgnoresErrorWrite | backend/routes/upload.py:45-79 | the attempt does not depend on how the table answers the error write |
| Upload.ErrorWriteFailureIsSwallowed | backend/routes/upload.py:88-99 | any answer to the error write gives the same route and calls |
| Upload.AttemptChecksNeverFire | backend/routes/upload.py:50-57 | the empty-chunks and count-mismatch exceptions cannot happen: a failed attempt carries the message of the chunking's failure, the embedding's, the store's or the `completed` status write's, whichever stage failed first |
| Ask.Names | backend/routes/ask.py:43 | the names of the documents, by position |
| Ask.IncompleteAreTheNotReady | backend/routes/ask.py:41 | the incomplete documents are exactly the fetched ones not `completed` (multiset, in order), and there are some exactly when one fetched document is not completed |
| Ask.PrepareContext | backend/routes/ask.py:75-89 | one context entry and one source per hit, in hit order; a text of at most 500 characters is kept whole, a longer one becomes its first 500 plus "...", so never over 503 |
| Ask.CheckDocuments | backend/routes/ask.py:24-47 | the ownership, existence and readiness checks, equal to `Checked` |
| Ask.SaveChat | backend/routes/ask.py:102-126 | the session is created with the question cut to 50 characters plus "..." when longer; the question and then the answer are saved, each only if the step before succeeded |
| Ask.Answer | backend/routes/ask.py:49-131 | the steps after the checks, equal to `Answered` |
| Ask.AskQuestion | backend/routes/ask.py:14-141 | equals `AskRun` |
| Ask.AskQuickQuestion | backend/routes/ask.py:144-167 | the question over all documents (empty ids), which always ends in a response |
| Ask.ForbiddenBeforeLookup | backend/routes/ask.py:24-28 | unowned non-empty ids raise 403 after the ownership select and before any other call |
| Ask.SelectedDocumentsMustBeReady | backend/routes/ask.py:31-47 | a count mismatch raises 404; any document not completed raises 400 naming exactly the incomplete ones, joined by ", "; otherwise the route goes on |
| Ask.EmptyEmbeddingFails | backend/routes/ask.py:52-53 | a falsy embedding gives the failure response "Failed to generate embedding for the question", not an exception |
| Ask.NoHitsGiveFixedAnswer | backend/routes/ask.py:56-72 | no hits from the search (limit 5, the caller's selected documents) gives success with the fixed answer and no sources, without asking Gemini |
| Ask.SourcesFollowHits | backend/routes/ask.py:78-112 | an answered question has one source per hit in hit order, Gemini's answer, and the question echoed |
| Ask.ChatDoesNotChangeResponse | backend/routes/ask.py:102-126 | any answers from the chat tables leave the route unchanged |

## Left out

- I/O. The Supabase tables and storage, the signed-URL download with `requests`, the Qdrant client, the Hugging Face HTTP request and Gemini's `generate_content` are oracles. The temporary file's existence, UUIDs and the clock are parameters: one `now` per request, one UUID per point, and the cleanup cutoff (`days_old` days before now) given as an ISO timestamp.
- Each oracle answers by its arguments alone. The model does not capture state that a service keeps between two calls of one request.
- The `tenacity` retries and the `asyncio.sleep` pauses. The model makes one attempt per call of `get_embeddings`. An oracle answers by its arguments alone, so three attempts end the way one does. The pause between batches appears only as a `Pause` step.
- `Embedding.EmbeddingOf`: its failure texts ("Embedding generation failed: …", "Request failed: …") are those of one attempt. `@retry` at `backend/services/embedding.py:114` has no `reraise=True`, so after the third failed attempt it raises `RetryError` instead. Every caller then carries that text, not the attempt's: `get_single_embedding`, `get_batch_embeddings`, the status write and response of the upload, and the response of `ask_question`. The model carries the attempt's text in those places. The `RetryError` text holds the address of a Python object, so it cannot be written out.
- `Qdrant.BuildPoints`: the client library's type check on `PointStruct(vector=…)` is not modelled. `Embedding.Normalise`, following `backend/services/embedding.py:142-146`, passes any truthy first item through. A 200 reply `["a"]` therefore gives the vector `"a"`, and `[["a"]]` gives `["a"]`. `backend/services/qdrant.py:58-73` builds every point before the first upsert, so the real client can be expected to refuse such a vector there. That call would then end in "Failed to store document chunks: …" with no upsert sent, and the upload would mark the record `error`. The model hands the point to the unconstrained upsert oracle instead. It therefore admits upserts the program does not send, and a `completed` upload whose vectors are not lists of numbers.
- `Qdrant.SearchConditions`: the client library's validation of `MatchValue` is not modelled. `backend/services/qdrant.py:108` passes the list of ids to `MatchValue(value=…)`, which takes a single bool, int or string. The list form would be `MatchAny`. `MatchList` stands for that value, which the real client can be expected to refuse when it builds the filter, and the search oracle is left unconstrained. If the client does refuse it, every `ask_question` with selected documents ends in the search failure "Failed to search similar chunks: …". For non-empty ids, `Ask.NoHitsGiveFixedAnswer` and `Ask.SourcesFollowHits` then describe runs the program does not reach.
- `calculate_similarity`, `find_most_similar` and the commented-out code in `backend/services/embedding.py`: floating point and numpy.
- `total_size_mb`: floating-point rounding. The statistics keep `total_size_bytes`.
- Search scores are carried as `real` and never computed.
- `RecursiveCharacterTextSplitter`, PyPDF2 and python-docx are oracles. These are the splitter's chunks and the page or paragraph texts. The JWT check inside `auth.get_user` is modelled as the auth service's answer.
- `Text.Lower`: lowers ASCII letters only. This is exact for the comparison with "pdf", "docx" and "txt". It is not exact for text built from the lowered type: the message "Error extracting text from … file: …" differs for a type with non-ASCII letters. `backend/utils/chunking.py:32` builds that message from the type that `backend/routes/upload.py:47` lower-cases. For "PDFÉ" the program says "pdfé" and the model says "pdfÉ".
- `Text.Strip`: uses the whitespace set of Python's `str.isspace`, written out.
- `get_document` and `delete_document`, the single-document routes in `backend/routes/documents.py`, are not modelled. The bulk delete covers the same steps per id.
- `get_collection_info` in `backend/services/qdrant.py` is not modelled. It only reports the client's figures.
- `Documents.DeleteMultipleDocuments`: the outer "Failed to delete documents" handler is not modelled. Every call inside the loop is guarded, so nothing reaches it.
- Reading a missing field of a row (a `KeyError`) is not modelled. Rows are records with every field present.
- `print` calls have no effect on any result and are left out.
- Route matching. FastAPI matches `/documents/{document_id}` before `/documents/stats`, so the statistics route is shadowed. `Documents.GetDocumentStats` models the handler as written.
- `backend/main.py` (app wiring, scheduler, health check), `backend/app.py`, `backend/create_indexes.py`, `backend/test_main.py` and the pydantic models. The models serve only as datatype shapes.
- The frontend, including its client-side upload-session recovery, is not modelled.
- `Ask.AskQuickQuestion`: its own "Failed to answer quick question" handler is not modelled. The model proves `ask_question` always responds, so nothing reaches that handler.

## Findings

| source | as written | input that shows it | evidently intended | confidence | as-written member | corrected member |
|---|---|---|---|---|---|---|
| backend/services/inference.py:49-53 | the comment `# Limit input to avoid token limits` sits inside the triple-quoted prompt, so it is sent to Gemini after the text excerpt | any text and `max_length`; for example "abc" with 200 gives a prompt holding "abc  # Limit input to avoid token limits" | the prompt holds the instruction, the first 3000 characters and "Summary:" only | not executed | Inference.SummaryPromptLeaksComment | Inference.GenerateDocumentSummary |
