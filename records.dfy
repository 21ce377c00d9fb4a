/** The records the backend passes around: a row of the `documents` table,
    the JSON envelope every route returns, the HTTP errors routes raise, and
    the calls the backend makes to the services around it. */
module Records {
  import opened Wrappers

  /** A row of the `documents` table (`DocumentMetadata`). `error_message`
      is the one column that may be absent. */
  datatype DocRecord = DocRecord(
    id: string,
    userId: string,
    name: string,
    filePath: string,
    fileType: string,
    fileSize: int,
    status: string,
    errorMessage: Option<string>,
    createdAt: string,
    updatedAt: string)

  /** `APIResponse`. */
  datatype ApiResponse<T> = ApiResponse(success: bool, message: string, data: Option<T>, error: Option<string>)

  /** FastAPI's `HTTPException`. */
  datatype HttpError = HttpError(statusCode: nat, detail: string, headers: seq<(string, string)>)

  /** What a route handler does: return a response, or let an `HTTPException` out. */
  datatype Route<T> = Responded(response: ApiResponse<T>) | Raised(exception: HttpError)

  const BadRequest: nat := 400
  const Unauthorized: nat := 401
  const Forbidden: nat := 403
  const NotFound: nat := 404

  function Ok<T>(message: string, data: T): ApiResponse<T> {
    ApiResponse(true, message, Some(data), None)
  }

  function Err<T>(message: string, error: string): ApiResponse<T> {
    ApiResponse(false, message, None, Some(error))
  }

  /** One call from the backend into a service it does not own, in the order
      the backend issues them. */
  datatype Effect =
    | OwnershipQuery(ids: seq<string>)                      // `documents` select of `user_id`
    | MetadataQuery(documentId: string)                     // `get_document_metadata`
    | DocumentsByIdsQuery(ids: seq<string>)                 // `get_document_by_ids`
    | StatusWrite(documentId: string, status: string, errorMessage: Option<string>)  // `update_document_status`
    | Download(storagePath: string)                         // `download_file_from_storage`
    | ExtractAndChunk(tempPath: string, fileType: string)   // `process_document`
    | Embed(texts: seq<string>)                             // `get_batch_embeddings` / `get_single_embedding`
    | StoreChunks(documentId: string, count: nat)           // `store_document_chunks`
    | RemoveTemp(tempPath: string)                          // `os.unlink`
    | VectorsDelete(documentId: string)                     // `delete_document_vectors`
    | FileDelete(storagePath: string)                       // `delete_file_from_storage`
    | MetadataDelete(documentId: string, userId: string)    // `delete_document_metadata`
    | Search(userId: string, documentIds: seq<string>, limit: nat)  // `search_similar_chunks`
    | Generate(question: string)                            // `generate_answer`
    | CreateSession(title: string)                          // `create_chat_session`
    | SaveMessage(role: string)                             // `save_message`

}
