/** `backend/services/inference.py`: the prompts sent to Gemini and what is
    made of its answers. `generate_content(prompt).text` is a parameter,
    `llm`, from the prompt to the text or the exception it raises. */
module Inference {
  import opened Wrappers
  import opened Text

  /** The part of a search hit the answer prompt uses. */
  datatype ContextChunk = ContextChunk(documentName: string, text: string)

  const NoAnswer := "I couldn't generate an answer based on the provided context."
  const NoSummary := "Summary could not be generated."
  const SummaryInputLimit: nat := 3000
  const KeywordsInputLimit: nat := 2000
  const MaxKeywords: nat := 10

  /** One chunk's entry in the context. */
  function ContextEntry(c: ContextChunk): string {
    "Source: " + c.documentName + "\nContent: " + c.text
  }

  /** The entries, one per chunk, by position. */
  function ContextEntries(chunks: seq<ContextChunk>): (entries: seq<string>)
    ensures |entries| == |chunks|
    ensures forall k :: 0 <= k < |chunks| ==> entries[k] == ContextEntry(chunks[k])
  {
    seq(|chunks|, k requires 0 <= k < |chunks| => ContextEntry(chunks[k]))
  }

  /** The context block: the entries joined by blank lines. */
  function ContextText(chunks: seq<ContextChunk>): string {
    Join(ContextEntries(chunks), "\n\n")
  }

  /** The context is built in chunk order: no chunks give an empty context,
      one chunk gives its entry, and one chunk more appends a blank line and
      its entry at the end. */
  lemma ContextInChunkOrder(chunks: seq<ContextChunk>, c: ContextChunk)
    ensures ContextText([]) == ""
    ensures ContextText([c]) == ContextEntry(c)
    ensures |chunks| > 0 ==> ContextText(chunks + [c]) == ContextText(chunks) + "\n\n" + ContextEntry(c)
  {
    assert ContextEntries([c]) == [ContextEntry(c)];
    if |chunks| > 0 {
      assert ContextEntries(chunks + [c]) == ContextEntries(chunks) + [ContextEntry(c)];
      JoinSnoc(ContextEntries(chunks), ContextEntry(c), "\n\n");
    }
  }

  const AnswerInstruction :=
    "Based on the provided context, please answer the question. If the answer cannot be found in the context, " +
    "please say so. Be specific and cite relevant information from the sources when possible."

  function AnswerPrompt(question: string, chunks: seq<ContextChunk>): string {
    "Context:\n" + ContextText(chunks) + "\n\nQuestion: " + question + "\n\n" + AnswerInstruction
  }

  /** What `llm`'s text for a prompt becomes: the stripped text, or the
      fallback when the text is empty. */
  function Reply(raw: string, fallback: string): string {
    if raw != "" then Strip(raw) else fallback
  }

  /** `generate_answer`: Gemini's answer to the prompt for the question and
      the chunks, stripped, or the fixed fallback when the answer is empty;
      a failed call becomes "Failed to generate answer: ...". */
  function GenerateAnswer(question: string, chunks: seq<ContextChunk>, llm: string -> Result<string>): (r: Result<string>)
    ensures r.Failure? <==> llm(AnswerPrompt(question, chunks)).Failure?
    ensures r.Failure? ==> r.error == "Failed to generate answer: " + llm(AnswerPrompt(question, chunks)).error
    ensures r.Success? ==> r.value == Reply(llm(AnswerPrompt(question, chunks)).value, NoAnswer)
  {
    match llm(AnswerPrompt(question, chunks))
    case Failure(e) => Failure("Failed to generate answer: " + e)
    case Success(raw) => Success(Reply(raw, NoAnswer))
  }

  /** The answer is the fallback exactly when Gemini's text is empty;
      otherwise it is that text without its surrounding whitespace, so it
      neither starts nor ends with whitespace. */
  lemma AnswerIsStrippedOrFallback(question: string, chunks: seq<ContextChunk>, llm: string -> Result<string>)
    requires llm(AnswerPrompt(question, chunks)).Success?
    ensures var raw := llm(AnswerPrompt(question, chunks)).value;
      var a := GenerateAnswer(question, chunks, llm).value;
      && (raw == "" ==> a == NoAnswer)
      && (raw != "" ==> a == Strip(raw) && (a == "" || (!IsSpace(a[0]) && !IsSpace(a[|a| - 1]))))
      && (AllSpace(raw) && raw != "" ==> a == "")
  {
    var raw := llm(AnswerPrompt(question, chunks)).value;
    StripHasNoOuterSpace(raw);
    StripEmptyIffAllSpace(raw);
  }

  /** The summary prompt up to the text excerpt: the instruction with the
      word limit, then the first 3000 characters. */
  function SummaryHead(text: string, maxLength: int): string {
    "Please provide a concise summary of the following text in no more than " + IntToString(maxLength) +
    " words:\n\n" + Prefix(text, SummaryInputLimit)
  }

  const LeakedComment := "  # Limit input to avoid token limits"
  const SummaryCue := "\n\nSummary:"

  /** The summary prompt as the source builds it: the comment meant for the
      code sits inside the string, so it is sent to the model. */
  function SummaryPromptAsWritten(text: string, maxLength: int): string {
    SummaryHead(text, maxLength) + LeakedComment + SummaryCue
  }

  /** The summary prompt as intended: the instruction, the first 3000
      characters and the cue. */
  function SummaryPrompt(text: string, maxLength: int): string {
    SummaryHead(text, maxLength) + SummaryCue
  }

  /** The as-written prompt differs from the intended one for every input:
      it carries the code comment right after the text excerpt. */
  lemma SummaryPromptLeaksComment(text: string, maxLength: int)
    ensures var head := SummaryHead(text, maxLength);
      && SummaryPromptAsWritten(text, maxLength) == head + LeakedComment + SummaryCue
      && SummaryPrompt(text, maxLength) == head + SummaryCue
      && SummaryPromptAsWritten(text, maxLength) != SummaryPrompt(text, maxLength)
  {
    assert |SummaryPromptAsWritten(text, maxLength)| > |SummaryPrompt(text, maxLength)|;
  }

  /** `generate_document_summary`, with the intended prompt. */
  function GenerateDocumentSummary(text: string, maxLength: int, llm: string -> Result<string>): (r: Result<string>)
    ensures r.Failure? <==> llm(SummaryPrompt(text, maxLength)).Failure?
    ensures r.Failure? ==> r.error == "Failed to generate summary: " + llm(SummaryPrompt(text, maxLength)).error
    ensures r.Success? ==> r.value == Reply(llm(SummaryPrompt(text, maxLength)).value, NoSummary)
  {
    match llm(SummaryPrompt(text, maxLength))
    case Failure(e) => Failure("Failed to generate summary: " + e)
    case Success(raw) => Success(Reply(raw, NoSummary))
  }

  /** Only the first 3000 characters of the text reach the model: texts
      that agree on them get the same summary. */
  lemma SummaryReadsOnlyPrefix(t1: string, t2: string, maxLength: int, llm: string -> Result<string>)
    requires |t1| >= SummaryInputLimit && |t2| >= SummaryInputLimit
    requires t1[..SummaryInputLimit] == t2[..SummaryInputLimit]
    ensures GenerateDocumentSummary(t1, maxLength, llm) == GenerateDocumentSummary(t2, maxLength, llm)
  {
    assert Prefix(t1, SummaryInputLimit) == Prefix(t2, SummaryInputLimit);
  }

  const KeywordsInstruction :=
    "Extract 5-10 key topics or keywords from the following text. Return them as a comma-separated list:\n\n"

  function KeywordsPrompt(text: string): string {
    KeywordsInstruction + Prefix(text, KeywordsInputLimit) + "\n\nKeywords:"
  }

  /** `[kw.strip() for kw in pieces]`. */
  function StripAll(pieces: seq<string>): (r: seq<string>)
    ensures |r| == |pieces|
    ensures forall k :: 0 <= k < |pieces| ==> r[k] == Strip(pieces[k])
  {
    seq(|pieces|, k requires 0 <= k < |pieces| => Strip(pieces[k]))
  }

  lemma StrippedPiecesHaveNoComma(pieces: seq<string>)
    requires forall k :: 0 <= k < |pieces| ==> ',' !in pieces[k]
    ensures forall k :: 0 <= k < |pieces| ==> ',' !in StripAll(pieces)[k]
  {
    forall k | 0 <= k < |pieces| ensures ',' !in StripAll(pieces)[k] {
      StripAddsNothing(pieces[k], ',');
    }
  }

  /** `extract_keywords`: the stripped answer split at commas, each piece
      stripped, at most ten of them. A failed call or an empty answer gives
      no keywords; the function never fails. */
  function ExtractKeywords(text: string, llm: string -> Result<string>): (keywords: seq<string>)
    ensures |keywords| <= MaxKeywords
    ensures llm(KeywordsPrompt(text)).Failure? || llm(KeywordsPrompt(text)) == Success("") ==> keywords == []
    ensures llm(KeywordsPrompt(text)).Success? && llm(KeywordsPrompt(text)).value != "" ==>
      var pieces := Split(Strip(llm(KeywordsPrompt(text)).value), ',');
      && |keywords| == (if |pieces| <= MaxKeywords then |pieces| else MaxKeywords)
      && |keywords| >= 1
      && forall k :: 0 <= k < |keywords| ==> keywords[k] == Strip(pieces[k])
    ensures forall k :: 0 <= k < |keywords| ==> ',' !in keywords[k]
  {
    match llm(KeywordsPrompt(text))
    case Failure(_) => []
    case Success(raw) =>
      if raw == "" then []
      else
        var pieces := Split(Strip(raw), ',');
        var all := StripAll(pieces);
        StrippedPiecesHaveNoComma(pieces);
        if |all| <= MaxKeywords then all else all[..MaxKeywords]
  }

  /** Only the first 2000 characters of the text reach the model: texts
      that agree on them get the same keywords. */
  lemma KeywordsReadOnlyPrefix(t1: string, t2: string, llm: string -> Result<string>)
    requires |t1| >= KeywordsInputLimit && |t2| >= KeywordsInputLimit
    requires t1[..KeywordsInputLimit] == t2[..KeywordsInputLimit]
    ensures ExtractKeywords(t1, llm) == ExtractKeywords(t2, llm)
  {
    assert Prefix(t1, KeywordsInputLimit) == Prefix(t2, KeywordsInputLimit);
  }
}
