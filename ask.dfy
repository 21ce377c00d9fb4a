/** `backend/routes/ask.py`: answering a question from the caller's
    documents. The checks on the selected documents come first; then the
    question is embedded, the nearest chunks are searched, Gemini answers
    from them, and the exchange is saved as a chat, which may fail without
    effect on the answer. */
module Ask {
  import opened Wrappers
  import opened Text
  import opened Seqs
  import opened Records
  import opened Auth
  import opened Supabase
  import opened Embedding
  import opened Qdrant
  import opened Inference

  /** The answers of the services the route uses. */
  datatype AskServices = AskServices(
    ownerRows: Result<seq<string>>,                          // ownership select for the requested ids
    documents: Result<Option<seq<DocRecord>>>,               // `get_document_by_ids` select
    hf: string -> HfReply,                                   // the embedding API
    search: (Json, seq<Condition>, int) -> Result<seq<ScoredPoint>>,  // the vector search
    llm: string -> Result<string>,                           // Gemini
    sessions: (string, string) -> Result<string>,            // `create_chat_session` for a user and a title
    messages: (string, string) -> Outcome)                   // `save_message` for a session and a role

  /** `SourceChunk`. */
  datatype SourceChunk = SourceChunk(documentId: string, documentName: string, chunkText: string, score: real)

  /** `QuestionResponse`. */
  datatype QuestionResponse = QuestionResponse(answer: string, sources: seq<SourceChunk>, question: string)

  datatype Asked = Asked(route: Route<QuestionResponse>, trace: seq<Effect>)

  const SearchLimit: nat := 5
  const SourceTextLimit: nat := 500
  const TitleLimit: nat := 50
  const NoAccessDetail := "You don't have permission to access one or more specified documents"
  const MissingDetail := "One or more documents not found"
  const NotReadyHead := "The following documents are not ready: "
  const NoEmbedding := "Failed to generate embedding for the question"
  const NoInfoMessage := "No relevant information found"
  const NoInfoAnswer := "I couldn't find relevant information in the specified documents to answer your question."
  const AnsweredMessage := "Question answered successfully"
  const AskFailed := "Failed to answer question"
  const QuickFailed := "Failed to answer quick question"

  // ----------------------------------------------------- document checks

  predicate NotReady(doc: DocRecord) {
    doc.status != "completed"
  }

  /** `[doc for doc in documents if doc["status"] != "completed"]`. */
  function Incomplete(docs: seq<DocRecord>): seq<DocRecord> {
    Filter(NotReady, docs)
  }

  /** `[doc["name"] for doc in incomplete_docs]`. */
  function Names(docs: seq<DocRecord>): (names: seq<string>)
    ensures |names| == |docs| && forall k :: 0 <= k < |docs| ==> names[k] == docs[k].name
  {
    seq(|docs|, k requires 0 <= k < |docs| => docs[k].name)
  }

  /** The incomplete documents are exactly the fetched ones whose status is
      not "completed", in fetched order; there are some exactly when one of
      the fetched documents is not completed. */
  lemma IncompleteAreTheNotReady(docs: seq<DocRecord>)
    ensures forall k :: 0 <= k < |Incomplete(docs)| ==> Incomplete(docs)[k].status != "completed"
    ensures forall d :: multiset(Incomplete(docs))[d] == if d.status != "completed" then multiset(docs)[d] else 0
    ensures IsSubsequence(Incomplete(docs), docs)
    ensures |Incomplete(docs)| > 0 <==> exists k :: 0 <= k < |docs| && docs[k].status != "completed"
  {
    if exists k :: 0 <= k < |docs| && docs[k].status != "completed" {
      var k :| 0 <= k < |docs| && docs[k].status != "completed";
      FilterKeepsPassing(NotReady, docs, k);
    }
  }

  /** The checks of the selected documents, when there are any: ownership,
      then that every one was found and is completed. `None` lets the route
      go on; otherwise the route ends with the given route and calls. */
  function Checked(sv: AskServices, userId: string, ids: seq<string>): Option<Asked> {
    if |ids| == 0 then None
    else if !VerifyUserOwnsDocuments(userId, ids, sv.ownerRows) then
      Some(Asked(Raised(HttpError(Forbidden, NoAccessDetail, [])), [OwnershipQuery(ids)]))
    else
      var asked := [OwnershipQuery(ids), DocumentsByIdsQuery(ids)];
      match GetDocumentByIds(sv.documents)
      case Failure(e) => Some(Asked(Responded(Err(AskFailed, e)), asked))
      case Success(docs) =>
        if |docs| != |ids| then Some(Asked(Raised(HttpError(NotFound, MissingDetail, [])), asked))
        else if |Incomplete(docs)| > 0 then
          Some(Asked(Raised(HttpError(BadRequest, NotReadyHead + Join(Names(Incomplete(docs)), ", "), [])), asked))
        else None
  }

  /** The calls of checks that let the route go on. */
  function CheckSteps(ids: seq<string>): seq<Effect> {
    if |ids| == 0 then [] else [OwnershipQuery(ids), DocumentsByIdsQuery(ids)]
  }

  // ----------------------------------------------------- answer assembly

  /** The context entry for one hit. */
  function ContextOf(hit: Hit): ContextChunk {
    ContextChunk(hit.documentName, hit.text)
  }

  /** The source for one hit: its text cut to 500 characters plus "...". */
  function SourceOf(hit: Hit): SourceChunk {
    SourceChunk(hit.documentId, hit.documentName, Truncate(hit.text, SourceTextLimit), hit.score)
  }

  function Contexts(hits: seq<Hit>): seq<ContextChunk> {
    seq(|hits|, k requires 0 <= k < |hits| => ContextOf(hits[k]))
  }

  function Sources(hits: seq<Hit>): seq<SourceChunk> {
    seq(|hits|, k requires 0 <= k < |hits| => SourceOf(hits[k]))
  }

  /** The loop over the hits: one context entry and one source per hit, in
      hit order; every source text is the hit's text when that has at most
      500 characters, and otherwise its first 500 followed by "...". */
  method PrepareContext(hits: seq<Hit>) returns (context: seq<ContextChunk>, sources: seq<SourceChunk>)
    ensures |context| == |hits| && |sources| == |hits|
    ensures forall k :: 0 <= k < |hits| ==>
      && context[k] == ContextChunk(hits[k].documentName, hits[k].text)
      && sources[k].documentId == hits[k].documentId && sources[k].documentName == hits[k].documentName
      && sources[k].score == hits[k].score
      && (|hits[k].text| <= SourceTextLimit ==> sources[k].chunkText == hits[k].text)
      && (|hits[k].text| > SourceTextLimit ==>
            sources[k].chunkText == hits[k].text[..SourceTextLimit] + "...")
      && |sources[k].chunkText| <= SourceTextLimit + 3
    ensures context == Contexts(hits) && sources == Sources(hits)
  {
    context := [];
    sources := [];
    for i := 0 to |hits|
      invariant |context| == i && |sources| == i
      invariant forall k :: 0 <= k < i ==> context[k] == ContextOf(hits[k]) && sources[k] == SourceOf(hits[k])
    {
      context := context + [ContextOf(hits[i])];
      sources := sources + [SourceOf(hits[i])];
    }
    forall k | 0 <= k < |hits| && |hits[k].text| > SourceTextLimit
      ensures sources[k].chunkText == hits[k].text[..SourceTextLimit] + "..."
    {
      var t := sources[k].chunkText;
      assert t == t[..SourceTextLimit] + t[SourceTextLimit..];
    }
  }

  /** The calls that save the exchange: the session, then the question, then
      the answer, each only if the one before it succeeded. */
  function ChatSteps(sv: AskServices, userId: string, question: string): seq<Effect> {
    var title := Truncate(question, TitleLimit);
    [CreateSession(title)] +
      match sv.sessions(userId, title)
      case Failure(_) => []
      case Success(session) =>
        [SaveMessage("user")] + (if sv.messages(session, "user").Pass? then [SaveMessage("assistant")] else [])
  }

  /** Everything after the checks. */
  function Answered(sv: AskServices, userId: string, question: string, ids: seq<string>, checked: seq<Effect>): Asked {
    var embedded := checked + [Embed([question])];
    match EmbeddingOf(sv.hf(question))
    case Failure(e) => Asked(Responded(Err(AskFailed, e)), embedded)
    case Success(embedding) =>
      if !Truthy(embedding) then Asked(Responded(Err(AskFailed, NoEmbedding)), embedded)
      else
        var searched := embedded + [Search(userId, ids, SearchLimit)];
        match SearchResults(embedding, userId, Some(ids), SearchLimit, sv.search)
        case Failure(e) => Asked(Responded(Err(AskFailed, e)), searched)
        case Success(hits) =>
          if |hits| == 0 then
            Asked(Responded(Ok(NoInfoMessage, QuestionResponse(NoInfoAnswer, [], question))), searched)
          else
            var generated := searched + [Generate(question)];
            match GenerateAnswer(question, Contexts(hits), sv.llm)
            case Failure(e) => Asked(Responded(Err(AskFailed, e)), generated)
            case Success(answer) =>
              Asked(Responded(Ok(AnsweredMessage, QuestionResponse(answer, Sources(hits), question))),
                    generated + ChatSteps(sv, userId, question))
  }

  /** `ask_question` for `question` over the documents `ids` of `userId`. */
  function AskRun(sv: AskServices, userId: string, question: string, ids: seq<string>): Asked {
    match Checked(sv, userId, ids)
    case Some(stopped) => stopped
    case None => Answered(sv, userId, question, ids, CheckSteps(ids))
  }

  // ------------------------------------------------------------- methods

  /** The checks of the selected documents. */
  method CheckDocuments(sv: AskServices, userId: string, ids: seq<string>) returns (stopped: Option<Asked>)
    ensures stopped == Checked(sv, userId, ids)
  {
    if |ids| == 0 {
      return None;
    }
    if !VerifyUserOwnsDocuments(userId, ids, sv.ownerRows) {
      return Some(Asked(Raised(HttpError(Forbidden, NoAccessDetail, [])), [OwnershipQuery(ids)]));
    }
    var trace := [OwnershipQuery(ids), DocumentsByIdsQuery(ids)];
    var documents := GetDocumentByIds(sv.documents);
    if documents.Failure? {
      return Some(Asked(Responded(Err(AskFailed, documents.error)), trace));
    }
    var docs := documents.value;
    if |docs| != |ids| {
      return Some(Asked(Raised(HttpError(NotFound, MissingDetail, [])), trace));
    }
    var incomplete := Incomplete(docs);
    if |incomplete| > 0 {
      var names := Names(incomplete);
      return Some(Asked(Raised(HttpError(BadRequest, NotReadyHead + Join(names, ", "), [])), trace));
    }
    stopped := None;
  }

  /** The `try` block that saves the chat; its failures are printed and
      otherwise ignored. */
  method SaveChat(sv: AskServices, userId: string, question: string) returns (steps: seq<Effect>)
    ensures steps == ChatSteps(sv, userId, question)
    ensures 1 <= |steps| <= 3 && steps[0].CreateSession?
    ensures |question| <= TitleLimit ==> steps[0].title == question
    ensures |question| > TitleLimit ==> steps[0].title == question[..TitleLimit] + "..."
    ensures |steps| == 3 <==>
      (sv.sessions(userId, Truncate(question, TitleLimit)).Success? &&
       sv.messages(sv.sessions(userId, Truncate(question, TitleLimit)).value, "user").Pass?)
  {
    var title := Truncate(question, TitleLimit);
    steps := [CreateSession(title)];
    var session := sv.sessions(userId, title);
    if session.Failure? {
      return;
    }
    steps := steps + [SaveMessage("user")];
    var saved := sv.messages(session.value, "user");
    if saved.Fail? {
      return;
    }
    steps := steps + [SaveMessage("assistant")];
  }

  /** Everything after the checks. */
  method Answer(sv: AskServices, userId: string, question: string, ids: seq<string>, checked: seq<Effect>)
    returns (asked: Asked)
    ensures asked == Answered(sv, userId, question, ids, checked)
  {
    var trace := checked + [Embed([question])];
    var embedding := GetSingleEmbedding(sv.hf, question);
    if embedding.Failure? {
      return Asked(Responded(Err(AskFailed, embedding.error)), trace);
    }
    if !Truthy(embedding.value) {
      return Asked(Responded(Err(AskFailed, NoEmbedding)), trace);
    }
    trace := trace + [Search(userId, ids, SearchLimit)];
    var found := SearchSimilarChunks(embedding.value, userId, Some(ids), SearchLimit, sv.search);
    if found.Failure? {
      return Asked(Responded(Err(AskFailed, found.error)), trace);
    }
    var hits := found.value;
    if |hits| == 0 {
      return Asked(Responded(Ok(NoInfoMessage, QuestionResponse(NoInfoAnswer, [], question))), trace);
    }
    var context, sources := PrepareContext(hits);
    trace := trace + [Generate(question)];
    var answer := GenerateAnswer(question, context, sv.llm);
    if answer.Failure? {
      return Asked(Responded(Err(AskFailed, answer.error)), trace);
    }
    var saved := SaveChat(sv, userId, question);
    asked := Asked(Responded(Ok(AnsweredMessage, QuestionResponse(answer.value, sources, question))), trace + saved);
  }

  /** `ask_question`. */
  method AskQuestion(sv: AskServices, userId: string, question: string, ids: seq<string>) returns (asked: Asked)
    ensures asked == AskRun(sv, userId, question, ids)
  {
    var stopped := CheckDocuments(sv, userId, ids);
    if stopped.Some? {
      return stopped.value;
    }
    asked := Answer(sv, userId, question, ids, CheckSteps(ids));
  }

  /** `ask_quick_question`: the question over all the caller's documents,
      which `ask_question` answers without raising. Its own handler, for an
      exception out of `ask_question`, is then never reached. */
  method AskQuickQuestion(sv: AskServices, userId: string, question: string) returns (asked: Asked)
    ensures asked == AskRun(sv, userId, question, [])
    ensures asked.route.Responded?
  {
    asked := AskQuestion(sv, userId, question, []);
    QuickNeverRaises(sv, userId, question);
  }

  // ---------------------------------------------------------- properties

  /** Everything after the checks ends in a response, never in an exception. */
  lemma AnsweredResponds(sv: AskServices, userId: string, question: string, ids: seq<string>, checked: seq<Effect>)
    ensures Answered(sv, userId, question, ids, checked).route.Responded?
  {
  }

  lemma QuickNeverRaises(sv: AskServices, userId: string, question: string)
    ensures AskRun(sv, userId, question, []).route.Responded?
    ensures AskRun(sv, userId, question, []) == Answered(sv, userId, question, [], [])
  {
    AnsweredResponds(sv, userId, question, [], []);
  }

  /** With documents selected that the caller does not all own, the route
      raises 403 after the ownership select and before any other call. */
  lemma ForbiddenBeforeLookup(sv: AskServices, userId: string, question: string, ids: seq<string>)
    requires |ids| > 0 && !VerifyUserOwnsDocuments(userId, ids, sv.ownerRows)
    ensures AskRun(sv, userId, question, ids) ==
      Asked(Raised(HttpError(Forbidden, NoAccessDetail, [])), [OwnershipQuery(ids)])
  {
  }

  /** The selected documents must all be found, or the route raises 404, and
      must all be completed, or it raises 400 naming exactly the documents
      that are not, in fetched order. */
  lemma SelectedDocumentsMustBeReady(sv: AskServices, userId: string, question: string, ids: seq<string>)
    requires |ids| > 0 && VerifyUserOwnsDocuments(userId, ids, sv.ownerRows)
    requires GetDocumentByIds(sv.documents).Success?
    ensures var docs := GetDocumentByIds(sv.documents).value;
      var route := AskRun(sv, userId, question, ids).route;
      && (|docs| != |ids| ==> route == Raised(HttpError(NotFound, MissingDetail, [])))
      && (|docs| == |ids| && (exists k :: 0 <= k < |docs| && docs[k].status != "completed") ==>
            route == Raised(HttpError(BadRequest, NotReadyHead + Join(Names(Incomplete(docs)), ", "), [])))
      && (|docs| == |ids| && (forall k :: 0 <= k < |docs| ==> docs[k].status == "completed") ==>
            AskRun(sv, userId, question, ids) == Answered(sv, userId, question, ids, CheckSteps(ids)))
  {
    IncompleteAreTheNotReady(GetDocumentByIds(sv.documents).value);
  }

  /** A reply that decodes to a falsy embedding (an empty list) gives a
      failure response, not an exception. */
  lemma EmptyEmbeddingFails(sv: AskServices, userId: string, question: string, ids: seq<string>, checked: seq<Effect>)
    requires EmbeddingOf(sv.hf(question)).Success? && !Truthy(EmbeddingOf(sv.hf(question)).value)
    ensures Answered(sv, userId, question, ids, checked) ==
      Asked(Responded(Err(AskFailed, NoEmbedding)), checked + [Embed([question])])
  {
  }

  /** The search asks for at most five hits of the caller, restricted to the
      selected documents when there are some; when it finds none, the route
      succeeds with the fixed answer and no sources, without asking Gemini. */
  lemma NoHitsGiveFixedAnswer(sv: AskServices, userId: string, question: string, ids: seq<string>, checked: seq<Effect>)
    requires EmbeddingOf(sv.hf(question)).Success? && Truthy(EmbeddingOf(sv.hf(question)).value)
    requires SearchResults(EmbeddingOf(sv.hf(question)).value, userId, Some(ids), SearchLimit, sv.search) == Success([])
    ensures Answered(sv, userId, question, ids, checked) ==
      Asked(Responded(Ok(NoInfoMessage, QuestionResponse(NoInfoAnswer, [], question))),
            checked + [Embed([question]), Search(userId, ids, SearchLimit)])
  {
    assert checked + [Embed([question])] + [Search(userId, ids, SearchLimit)] ==
           checked + [Embed([question]), Search(userId, ids, SearchLimit)];
  }

  /** An answered question has one source per hit, in hit order, and Gemini
      sees one context entry per hit, in the same order. */
  lemma SourcesFollowHits(sv: AskServices, userId: string, question: string, ids: seq<string>, checked: seq<Effect>)
    requires EmbeddingOf(sv.hf(question)).Success? && Truthy(EmbeddingOf(sv.hf(question)).value)
    requires SearchResults(EmbeddingOf(sv.hf(question)).value, userId, Some(ids), SearchLimit, sv.search).Success?
    ensures var hits := SearchResults(EmbeddingOf(sv.hf(question)).value, userId, Some(ids), SearchLimit, sv.search).value;
      var route := Answered(sv, userId, question, ids, checked).route;
      route.response.success && |hits| > 0 ==>
        && route.response.data.Some?
        && |route.response.data.value.sources| == |hits|
        && (forall k :: 0 <= k < |hits| ==> route.response.data.value.sources[k] == SourceOf(hits[k]))
        && route.response.data.value.question == question
        && GenerateAnswer(question, Contexts(hits), sv.llm).Success?
        && route.response.data.value.answer == GenerateAnswer(question, Contexts(hits), sv.llm).value
  {
  }

  /** Saving the chat cannot change the response: with any other answers
      from the chat tables the route returns the same. */
  lemma ChatDoesNotChangeResponse(sv: AskServices, userId: string, question: string, ids: seq<string>,
                                  sessions: (string, string) -> Result<string>, messages: (string, string) -> Outcome)
    ensures AskRun(sv.(sessions := sessions, messages := messages), userId, question, ids).route ==
            AskRun(sv, userId, question, ids).route
  {
  }
}
