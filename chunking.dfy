/** `backend/utils/chunking.py`: turning a downloaded file into the text
    chunks that get embedded. The PDF and DOCX parsers, the file system and
    the recursive character splitter are outside the model: what they yield
    is a parameter. */
module Chunking {
  import opened Wrappers
  import opened Text
  import opened Seqs

  /** What the parsers yield for the downloaded file, or the exception each
      raises: the text of every PDF page, of every DOCX paragraph, and the
      whole content read as a TXT file. */
  datatype FileReader = FileReader(pdfPages: Result<seq<string>>, docxParagraphs: Result<seq<string>>, txtText: Result<string>)

  /** A splitter chunk is kept only when its stripped text is longer than this. */
  const MinChunkLength: nat := 50

  /** The text built by `text += part + "\n"` over all parts. */
  function LineTerminated(parts: seq<string>): string
    decreases |parts|
  {
    if |parts| == 0 then "" else parts[0] + "\n" + LineTerminated(parts[1..])
  }

  lemma {:induction false} LineTerminatedSnoc(parts: seq<string>, x: string)
    ensures LineTerminated(parts + [x]) == LineTerminated(parts) + x + "\n"
    decreases |parts|
  {
    if |parts| == 0 {
      assert parts + [x] == [x];
    } else {
      assert (parts + [x])[1..] == parts[1..] + [x];
      LineTerminatedSnoc(parts[1..], x);
    }
  }

  /** Each part followed by a newline is the parts joined by newlines with an
      empty string after the last: the parts are the lines of the text. */
  lemma {:induction false} LineTerminatedIsJoin(parts: seq<string>)
    ensures LineTerminated(parts) == Join(parts + [""], "\n")
    decreases |parts|
  {
    if |parts| > 0 {
      LineTerminatedIsJoin(parts[1..]);
      assert (parts + [""])[1..] == parts[1..] + [""];
    }
  }

  /** Splitting the concatenated text at its newlines gives the parts back,
      followed by the empty piece after the last newline, provided no part
      holds a newline of its own. */
  lemma LinesRoundTrip(parts: seq<string>)
    requires forall k :: 0 <= k < |parts| ==> '\n' !in parts[k]
    ensures Split(LineTerminated(parts), '\n') == parts + [""]
  {
    LineTerminatedIsJoin(parts);
    var pieces := parts + [""];
    forall k | 0 <= k < |pieces|
      ensures '\n' !in pieces[k]
    {
      if k < |parts| {
        assert pieces[k] == parts[k];
      }
    }
    SplitJoin(pieces, '\n');
  }

  /** The `for ...: text += part + "\n"` loop of `extract_text_from_pdf` and
      `extract_text_from_docx`. */
  method TerminateLines(parts: seq<string>) returns (text: string)
    ensures text == LineTerminated(parts)
  {
    text := "";
    for i := 0 to |parts|
      invariant text == LineTerminated(parts[..i])
    {
      assert parts[..i + 1] == parts[..i] + [parts[i]];
      LineTerminatedSnoc(parts[..i], parts[i]);
      text := text + parts[i] + "\n";
    }
    assert parts[..|parts|] == parts;
  }

  /** `extract_text_from_pdf`: each page's text followed by a newline. */
  method ExtractTextFromPdf(pages: Result<seq<string>>) returns (r: Result<string>)
    ensures pages.Failure? ==> r == Failure(pages.error)
    ensures pages.Success? ==> r == Success(LineTerminated(pages.value))
  {
    if pages.Failure? {
      return Failure(pages.error);
    }
    var text := TerminateLines(pages.value);
    r := Success(text);
  }

  /** `extract_text_from_docx`: each paragraph's text followed by a newline. */
  method ExtractTextFromDocx(paragraphs: Result<seq<string>>) returns (r: Result<string>)
    ensures paragraphs.Failure? ==> r == Failure(paragraphs.error)
    ensures paragraphs.Success? ==> r == Success(LineTerminated(paragraphs.value))
  {
    if paragraphs.Failure? {
      return Failure(paragraphs.error);
    }
    var text := TerminateLines(paragraphs.value);
    r := Success(text);
  }

  /** The kinds of file the dispatch knows, compared after lower-casing. */
  predicate Supported(fileType: string) {
    Lower(fileType) in {"pdf", "docx", "txt"}
  }

  /** What `extract_text_from_file` yields: the text for the kind of file, or
      "Error extracting text from <type> file: <reason>", where the reason is
      the parser's exception or "Unsupported file type: <type>". */
  function ExtractedText(fileType: string, reader: FileReader): Result<string> {
    var kind := Lower(fileType);
    var raw :=
      if kind == "pdf" then (match reader.pdfPages case Success(p) => Success(LineTerminated(p)) case Failure(e) => Failure(e))
      else if kind == "docx" then (match reader.docxParagraphs case Success(p) => Success(LineTerminated(p)) case Failure(e) => Failure(e))
      else if kind == "txt" then reader.txtText
      else Failure("Unsupported file type: " + fileType);
    match raw
    case Success(t) => Success(t)
    case Failure(e) => Failure("Error extracting text from " + fileType + " file: " + e)
  }

  /** `extract_text_from_file`. */
  method ExtractTextFromFile(fileType: string, reader: FileReader) returns (r: Result<string>)
    ensures r == ExtractedText(fileType, reader)
  {
    var kind := Lower(fileType);
    var raw: Result<string>;
    if kind == "pdf" {
      raw := ExtractTextFromPdf(reader.pdfPages);
    } else if kind == "docx" {
      raw := ExtractTextFromDocx(reader.docxParagraphs);
    } else if kind == "txt" {
      raw := reader.txtText;
    } else {
      raw := Failure("Unsupported file type: " + fileType);
    }
    if raw.Failure? {
      r := Failure("Error extracting text from " + fileType + " file: " + raw.error);
    } else {
      r := raw;
    }
  }

  /** Only PDF, DOCX and TXT files (in any letter case) yield text; every
      other type fails with the unsupported-type message, whatever the file
      holds. */
  lemma UnsupportedTypesFail(fileType: string, reader: FileReader)
    ensures !Supported(fileType) ==>
      ExtractedText(fileType, reader) ==
        Failure("Error extracting text from " + fileType + " file: Unsupported file type: " + fileType)
    ensures ExtractedText(fileType, reader).Success? ==> Supported(fileType)
  {
    var kind := Lower(fileType);
    if !Supported(fileType) {
      assert kind != "pdf" && kind != "docx" && kind != "txt";
      var head := "Error extracting text from " + fileType;
      assert " file: " + "Unsupported file type: " == " file: Unsupported file type: ";
      assert head + " file: " + ("Unsupported file type: " + fileType) ==
             head + " file: Unsupported file type: " + fileType;
    }
  }

  /** The letter case of the type does not matter to the dispatch: two
      types that lower-case alike reach the same parser, so they succeed
      together and then give the same text. */
  lemma DispatchByLowered(t1: string, t2: string, reader: FileReader)
    requires Lower(t1) == Lower(t2)
    ensures ExtractedText(t1, reader).Success? <==> ExtractedText(t2, reader).Success?
    ensures ExtractedText(t1, reader).Success? ==> ExtractedText(t1, reader) == ExtractedText(t2, reader)
  {
  }

  predicate LongEnough(chunk: string) {
    |Strip(chunk)| > MinChunkLength
  }

  /** `chunk_text`: the splitter's chunks (`split` applied to the text)
      whose stripped length exceeds 50. */
  function ChunkText(text: string, split: string -> seq<string>): seq<string> {
    Filter(LongEnough, split(text))
  }

  /** Of the splitter's chunks, exactly those whose stripped length exceeds
      50 are kept, each as often as the splitter gave it, in the splitter's
      order. */
  lemma ChunkTextKeepsLongChunks(text: string, split: string -> seq<string>)
    ensures var chunks := ChunkText(text, split);
      && (forall k :: 0 <= k < |chunks| ==> |Strip(chunks[k])| > MinChunkLength)
      && (forall c :: multiset(chunks)[c] == if |Strip(c)| > MinChunkLength then multiset(split(text))[c] else 0)
      && IsSubsequence(chunks, split(text))
  {
  }

  /** The checks `process_document` makes on the extracted text: it must
      hold something besides whitespace, and at least one of its chunks must
      be kept. The two checks raise `ValueError`s. */
  function ProcessedText(extracted: Result<string>, split: string -> seq<string>): Result<seq<string>> {
    match extracted
    case Failure(e) => Failure(e)
    case Success(text) =>
      if Strip(text) == "" then Failure("No text could be extracted from the document")
      else if ChunkText(text, split) == [] then Failure("No valid chunks could be created from the document")
      else Success(ChunkText(text, split))
  }

  /** What `process_document` returns or raises: the checked chunks of the
      text extracted from the file. */
  function Processed(fileType: string, reader: FileReader, split: string -> seq<string>): Result<seq<string>> {
    ProcessedText(ExtractedText(fileType, reader), split)
  }

  /** Extraction failures pass through; text that is only whitespace fails
      with the first message; a success is a non-empty list of the chunks
      `chunk_text` keeps, each longer than 50 once stripped. */
  lemma ProcessedContract(extracted: Result<string>, split: string -> seq<string>)
    ensures var r := ProcessedText(extracted, split);
      && (extracted.Failure? ==> r == Failure(extracted.error))
      && (extracted.Success? && AllSpace(extracted.value) ==> r == Failure("No text could be extracted from the document"))
      && (r.Success? ==> |r.value| > 0 && r.value == ChunkText(extracted.value, split))
      && (r.Success? ==> forall k :: 0 <= k < |r.value| ==> LongEnough(r.value[k]))
  {
    match extracted
    case Failure(_) =>
    case Success(text) =>
      StripEmptyIffAllSpace(text);
      var chunks := ChunkText(text, split);
      assert forall k :: 0 <= k < |chunks| ==> LongEnough(chunks[k]);
  }

  /** `process_document`. */
  method ProcessDocument(fileType: string, reader: FileReader, split: string -> seq<string>)
    returns (r: Result<seq<string>>)
    ensures r == Processed(fileType, reader, split)
  {
    var extracted := ExtractTextFromFile(fileType, reader);
    if extracted.Failure? {
      return Failure(extracted.error);
    }
    var text := extracted.value;
    if Strip(text) == "" {
      return Failure("No text could be extracted from the document");
    }
    var chunks := ChunkText(text, split);
    if chunks == [] {
      return Failure("No valid chunks could be created from the document");
    }
    r := Success(chunks);
  }

  /** Text that is there, but yields no chunk long enough, fails with the
      second message. */
  lemma ShortChunksFail(text: string, split: string -> seq<string>)
    requires !AllSpace(text)
    requires forall k :: 0 <= k < |split(text)| ==> |Strip(split(text)[k])| <= MinChunkLength
    ensures ProcessedText(Success(text), split) == Failure("No valid chunks could be created from the document")
  {
    FilterEmptyIffNonePass(LongEnough, split(text));
    StripEmptyIffAllSpace(text);
  }
}
