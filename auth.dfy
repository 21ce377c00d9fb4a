/** `backend/utils/auth.py`: who the caller is, and whether the caller owns
    the documents a request names. The token check and the table query are
    services; their answers are parameters. */
module Auth {
  import opened Wrappers
  import opened Records

  /** The 401 every authentication failure becomes, with its Bearer challenge. */
  const InvalidCredentials: HttpError :=
    HttpError(Unauthorized, "Invalid authentication credentials", [("WWW-Authenticate", "Bearer")])

  datatype Caller = Authenticated(userId: string) | Denied(error: HttpError)

  /** `get_current_user`: `reply` is what the auth service answers for the
      token: a user id, no user, or an exception. Only an answer naming a
      user lets the request through; everything else is the same 401. */
  function GetCurrentUser(reply: Result<Option<string>>): (c: Caller)
    ensures c.Authenticated? <==> reply.Success? && reply.value.Some?
    ensures c.Authenticated? ==> c.userId == reply.value.value
    ensures c.Denied? ==> c.error == InvalidCredentials
  {
    match reply
    case Failure(_) => Denied(InvalidCredentials)
    case Success(None) => Denied(InvalidCredentials)
    case Success(Some(id)) => Authenticated(id)
  }

  /** `all(doc["user_id"] == user_id for doc in rows)`. */
  function AllOwnedBy(owners: seq<string>, userId: string): (all: bool)
    ensures all <==> forall k :: 0 <= k < |owners| ==> owners[k] == userId
    decreases |owners|
  {
    if |owners| == 0 then true
    else owners[0] == userId && AllOwnedBy(owners[1..], userId)
  }

  /** `verify_user_owns_document`: `rows` is the `user_id` column of the rows
      whose id is the document's, or the exception the query raised. No row
      or a failed query means "not owned"; otherwise the first row decides. */
  function VerifyUserOwnsDocument(userId: string, rows: Result<seq<string>>): (owns: bool)
    ensures owns <==> rows.Success? && |rows.value| > 0 && rows.value[0] == userId
  {
    match rows
    case Failure(_) => false
    case Success(owners) => if |owners| == 0 then false else owners[0] == userId
  }

  /** `verify_user_owns_documents`: `rows` is the `user_id` column of the rows
      whose id is among `documentIds`. A failed query, or a row count that
      differs from the number of ids asked for, means "not owned"; otherwise
      every row must belong to the caller. */
  function VerifyUserOwnsDocuments(userId: string, documentIds: seq<string>, rows: Result<seq<string>>): (owns: bool)
    ensures owns ==> rows.Success? && |rows.value| == |documentIds|
    ensures rows.Success? && |rows.value| == |documentIds| ==>
      (owns <==> forall k :: 0 <= k < |rows.value| ==> rows.value[k] == userId)
  {
    match rows
    case Failure(_) => false
    case Success(owners) => if |owners| != |documentIds| then false else AllOwnedBy(owners, userId)
  }

  /** For one id, whose query yields at most one row, both checks agree. */
  lemma SingleAndBulkChecksAgree(userId: string, documentId: string, rows: Result<seq<string>>)
    requires rows.Success? ==> |rows.value| <= 1
    ensures VerifyUserOwnsDocuments(userId, [documentId], rows) == VerifyUserOwnsDocument(userId, rows)
  {
  }

  /** Two different callers never both own the same non-empty set of documents. */
  lemma OwnershipIsExclusive(u1: string, u2: string, documentIds: seq<string>, rows: Result<seq<string>>)
    requires |documentIds| > 0
    requires VerifyUserOwnsDocuments(u1, documentIds, rows)
    requires VerifyUserOwnsDocuments(u2, documentIds, rows)
    ensures u1 == u2
  {
    assert rows.value[0] == u1;
  }

  /** An empty id list whose query returns no rows passes the bulk check:
      `all` of nothing is true. Every caller of the bulk check therefore
      tests for an empty list first. */
  lemma EmptyListIsOwned(userId: string)
    ensures VerifyUserOwnsDocuments(userId, [], Success([]))
  {
  }
}
