/**
 * The API routes of backend/main.py: POST /ingest (raw text), POST /ingest/file
 * (PDF or UTF-8 text upload) and POST /query, over one RAGEngine.
 *
 * What the routes take from the environment is passed in: the generated doc id
 * (uuid4), the clock reading (time.time()), the elapsed time reported by /query,
 * and, for a PDF upload, the text pypdf extracts from each page (or the message
 * of what it raised).
 */
module Api {
  import opened Wrappers
  import opened Text
  import Utf8
  import opened RagCore

  /** An HTTPException: status code and detail. */
  datatype HttpError = HttpError(status: nat, detail: string)

  /** The validated body of POST /ingest; `title` is None when the client sent null. */
  datatype IngestRequest = IngestRequest(text: string, title: Option<string>)

  datatype QueryRequest = QueryRequest(query: string)

  datatype IngestResponse = IngestResponse(status: string, message: string, docId: string)

  datatype QueryResponse = QueryResponse(answer: string, citations: seq<SearchResult>, timing: Float, costEstimate: Option<string>)

  /** An uploaded file: its name and content type as the client sent them (either may be missing), and its bytes. */
  datatype Upload = Upload(filename: Option<string>, contentType: Option<string>, content: seq<Utf8.byte>)

  /** What escapes the body of ingest_file: an HTTPException it raised itself, or any other exception. */
  datatype Raised = Http(http: HttpError) | Other(error: Error)

  const PdfContentType := "application/pdf"
  const EncodingNotSupported := HttpError(400, "File encoding not supported. Please upload a UTF-8 text file or PDF.")
  const EmptyText := HttpError(400, "Extracted text is empty.")
  const NoFilename := AttributeError("'NoneType' object has no attribute 'lower'")
  const NoInformationAnswer := "I couldn't find any relevant information in the uploaded documents."
  const CostEstimate := "Depends on provider"

  /** The title of an IngestRequest: what the client sent, or "Untitled" when the field is absent. */
  function RequestTitle(field: Option<Option<string>>): Option<string>
  {
    match field
    case None => Some("Untitled")
    case Some(t) => t
  }

  /** An optional string as a metadata value: None stays None. */
  function OptionalText(s: Option<string>): Value
  {
    if s.Some? then Str(s.value) else Null
  }

  /** The metadata dict of POST /ingest. */
  function TextMetadata(docId: string, title: Option<string>, now: Float): Metadata
  {
    map["doc_id" := Str(docId), "title" := OptionalText(title), "source" := Str("text_input"), "timestamp" := Num(now)]
  }

  /** The metadata dict of POST /ingest/file. */
  function FileMetadata(docId: string, filename: Option<string>, now: Float): Metadata
  {
    map["doc_id" := Str(docId), "title" := OptionalText(filename), "source" := Str("file_upload"), "timestamp" := Num(now)]
  }

  /** `except Exception as e: raise HTTPException(status_code=500, detail=str(e))`. */
  function InternalError(e: Error): HttpError
  {
    HttpError(500, Message(e))
  }

  /** The two handlers of ingest_file: an HTTPException is re-raised as it is, anything else becomes a 500. */
  function FileRouteError(r: Raised): HttpError
  {
    match r
    case Http(h) => h
    case Other(e) => InternalError(e)
  }

  // ---------------------------------------------------------------- file text extraction

  /** The file-type test of ingest_file; the filename is only lowered when the content type is not PDF. */
  function IsPdf(upload: Upload): Result<bool, Error>
  {
    if upload.contentType == Some(PdfContentType) then Ok(true)
    else if upload.filename.None? then Err(NoFilename)
    else Ok(EndsWith(Lower(upload.filename.value), ".pdf"))
  }

  /** Lowering gives the lower-case letter `lower` exactly from that letter or its capital `upper`. */
  lemma LowerCharIs(c: char, lower: char, upper: char)
    requires 'a' <= lower <= 'z' && upper as int == lower as int - ('a' as int - 'A' as int)
    ensures LowerChar(c) == lower <==> c == lower || c == upper
  {
  }

  lemma EndsWithPdf(l: string)
    ensures EndsWith(l, ".pdf") <==>
      |l| >= 4 && l[|l| - 4] == '.' && l[|l| - 3] == 'p' && l[|l| - 2] == 'd' && l[|l| - 1] == 'f'
  {
    if |l| >= 4 {
      var t := l[|l| - 4..];
      assert t[0] == l[|l| - 4] && t[1] == l[|l| - 3] && t[2] == l[|l| - 2] && t[3] == l[|l| - 1];
    }
  }

  /** A filename passes the lowered ".pdf" test exactly when its last four characters are '.', p, d, f in either case. */
  lemma PdfByName(name: string)
    ensures EndsWith(Lower(name), ".pdf") <==>
      && |name| >= 4
      && name[|name| - 4] == '.'
      && (name[|name| - 3] == 'p' || name[|name| - 3] == 'P')
      && (name[|name| - 2] == 'd' || name[|name| - 2] == 'D')
      && (name[|name| - 1] == 'f' || name[|name| - 1] == 'F')
  {
    var l := Lower(name);
    EndsWithPdf(l);
    var n := |name|;
    if n >= 4 {
      assert l[n - 4] == LowerChar(name[n - 4]) && l[n - 3] == LowerChar(name[n - 3]);
      assert l[n - 2] == LowerChar(name[n - 2]) && l[n - 1] == LowerChar(name[n - 1]);
      assert LowerChar(name[n - 4]) == '.' <==> name[n - 4] == '.';
      LowerCharIs(name[n - 3], 'p', 'P');
      LowerCharIs(name[n - 2], 'd', 'D');
      LowerCharIs(name[n - 1], 'f', 'F');
    }
  }

  /**
   * The PDF branch is taken exactly when the content type is "application/pdf" or the filename ends in
   * ".pdf" in any mix of case; a missing filename with another content type raises AttributeError.
   */
  lemma PdfDetection(upload: Upload)
    ensures IsPdf(upload) == Ok(true) <==>
      || upload.contentType == Some("application/pdf")
      || (&& upload.filename.Some?
          && var name := upload.filename.value;
          && |name| >= 4
          && name[|name| - 4] == '.'
          && (name[|name| - 3] == 'p' || name[|name| - 3] == 'P')
          && (name[|name| - 2] == 'd' || name[|name| - 2] == 'D')
          && (name[|name| - 1] == 'f' || name[|name| - 1] == 'F'))
    ensures IsPdf(upload).Err? <==> upload.contentType != Some("application/pdf") && upload.filename.None?
  {
    if upload.filename.Some? {
      PdfByName(upload.filename.value);
    }
  }

  /** Each page's text followed by a newline. */
  function PageLines(pages: seq<string>): seq<string>
  {
    seq(|pages|, i requires 0 <= i < |pages| => pages[i] + "\n")
  }

  /** The text of a PDF: its pages' texts in order, each followed by "\n". */
  function PagesText(pages: seq<string>): string
  {
    Concat(PageLines(pages))
  }

  /** The page loop of ingest_file. */
  method ExtractPdfText(pages: seq<string>) returns (text: string)
    ensures text == PagesText(pages)
  {
    text := "";
    for i := 0 to |pages|
      invariant text == Concat(PageLines(pages)[..i])
    {
      assert PageLines(pages)[..i + 1][..i] == PageLines(pages)[..i];
      text := text + pages[i] + "\n";
    }
    assert PageLines(pages)[..|pages|] == PageLines(pages);
  }

  /** A PDF's text is blank exactly when every page's text is. */
  lemma {:induction false} PagesTextBlank(pages: seq<string>)
    ensures AllSpace(PagesText(pages)) <==> forall i :: 0 <= i < |pages| ==> AllSpace(pages[i])
    decreases |pages|
  {
    if pages != [] {
      var n := |pages|;
      var init := pages[..n - 1];
      assert PageLines(pages) == PageLines(init) + [pages[n - 1] + "\n"];
      ConcatAppend(PageLines(init), [pages[n - 1] + "\n"]);
      assert Concat([pages[n - 1] + "\n"]) == pages[n - 1] + "\n" by {
        assert [pages[n - 1] + "\n"][..0] == [];
      }
      PagesTextBlank(init);
      AllSpaceAppend(PagesText(init), pages[n - 1] + "\n");
      AllSpaceAppend(pages[n - 1], "\n");
      assert IsSpace('\n');
      assert (forall i :: 0 <= i < n ==> AllSpace(pages[i])) <==>
        (forall i :: 0 <= i < n - 1 ==> AllSpace(init[i])) && AllSpace(pages[n - 1]);
    }
  }

  /** The text ingest_file goes on to ingest, or what it raised on the way. */
  function ExtractedText(upload: Upload, pdf: Result<seq<string>, string>): Result<string, Raised>
  {
    match IsPdf(upload)
    case Err(e) => Err(Other(e))
    case Ok(isPdf) =>
      var text :=
        if isPdf then
          match pdf
          case Err(m) => Err(HttpError(400, "Error reading PDF: " + m))
          case Ok(pages) => Ok(PagesText(pages))
        else
          match Utf8.Decode(upload.content)
          case None => Err(EncodingNotSupported)
          case Some(t) => Ok(t);
      RejectBlank(text)
  }

  /** The `if not text.strip()` check, after extraction. */
  function RejectBlank(text: Result<string, HttpError>): Result<string, Raised>
  {
    match text
    case Err(h) => Err(Http(h))
    case Ok(t) => if Strip(t) == "" then Err(Http(EmptyText)) else Ok(t)
  }

  /** Text that is ingested is never empty or whitespace only. */
  lemma ExtractedTextNotBlank(upload: Upload, pdf: Result<seq<string>, string>)
    requires ExtractedText(upload, pdf).Ok?
    ensures !AllSpace(ExtractedText(upload, pdf).value)
  {
    var t := ExtractedText(upload, pdf).value;
    assert Strip(t) != "";
    StripEmptyIffAllSpace(t);
  }

  /** A non-PDF upload is rejected with 400 exactly when its bytes are not UTF-8, or decode to blank text. */
  lemma TextUploadRejections(upload: Upload, pdf: Result<seq<string>, string>)
    requires IsPdf(upload) == Ok(false)
    ensures Utf8.Decode(upload.content).None? ==> ExtractedText(upload, pdf) == Err(Http(EncodingNotSupported))
    ensures Utf8.Decode(upload.content).Some? ==>
      (ExtractedText(upload, pdf) == Err(Http(EmptyText)) <==> AllSpace(Utf8.Decode(upload.content).value))
    ensures ExtractedText(upload, pdf).Ok? <==>
      Utf8.Decode(upload.content).Some? && !AllSpace(Utf8.Decode(upload.content).value)
  {
    if Utf8.Decode(upload.content).Some? {
      StripEmptyIffAllSpace(Utf8.Decode(upload.content).value);
    }
  }

  /** A PDF upload whose pages were read is rejected with 400 exactly when every page's text is blank. */
  lemma PdfUploadRejections(upload: Upload, pages: seq<string>)
    requires IsPdf(upload) == Ok(true)
    ensures ExtractedText(upload, Ok(pages)) == Err(Http(EmptyText)) <==> forall i :: 0 <= i < |pages| ==> AllSpace(pages[i])
    ensures ExtractedText(upload, Ok(pages)).Ok? ==> ExtractedText(upload, Ok(pages)).value == PagesText(pages)
  {
    PagesTextBlank(pages);
    StripEmptyIffAllSpace(PagesText(pages));
  }

  // ---------------------------------------------------------------- route outcomes

  /** What POST /ingest returns or raises. */
  function TextIngestOutcome(engine: RAGEngine, request: IngestRequest, docId: string, now: Float, svc: Services)
    : Result<IngestResponse, HttpError>
  {
    match engine.IngestOutcome(request.text, TextMetadata(docId, request.title, now), svc)
    case Err(e) => Err(InternalError(e))
    case Ok(records) => Ok(IngestResponse("success", "Ingested " + NatToString(|records|) + " chunks.", docId))
  }

  /** What POST /ingest/file returns or raises. */
  function FileIngestOutcome(engine: RAGEngine, upload: Upload, pdf: Result<seq<string>, string>, docId: string,
                             now: Float, svc: Services): Result<IngestResponse, HttpError>
  {
    match ExtractedText(upload, pdf)
    case Err(r) => Err(FileRouteError(r))
    case Ok(text) =>
      match engine.IngestOutcome(text, FileMetadata(docId, upload.filename, now), svc)
      case Err(e) => Err(FileRouteError(Other(e)))
      case Ok(records) =>
        Ok(IngestResponse("success",
          "Ingested " + NatToString(|records|) + " chunks from " + Show(OptionalText(upload.filename)) + ".", docId))
  }

  /** What POST /query returns or raises. */
  function QueryOutcome(engine: RAGEngine, request: QueryRequest, elapsed: Float, svc: Services)
    : Result<QueryResponse, HttpError>
  {
    match engine.SearchOutcome(request.query, DefaultTopK, svc)
    case Err(e) => Err(InternalError(e))
    case Ok(context) =>
      if context == [] then Ok(QueryResponse(NoInformationAnswer, [], elapsed, None))
      else match engine.AnswerOutcome(request.query, context, svc)
        case Err(e) => Err(InternalError(e))
        case Ok(result) => Ok(QueryResponse(result.answer, result.citations, elapsed, Some(CostEstimate)))
  }

  /** Every record of a text ingestion carries the request's metadata, its own text and index, and the id doc_id_i. */
  lemma TextIngestRecords(engine: RAGEngine, request: IngestRequest, docId: string, now: Float, svc: Services)
    requires engine.IngestOutcome(request.text, TextMetadata(docId, request.title, now), svc).Ok?
    ensures var records := engine.IngestOutcome(request.text, TextMetadata(docId, request.title, now), svc).value;
      && TextIngestOutcome(engine, request, docId, now, svc) ==
           Ok(IngestResponse("success", "Ingested " + NatToString(|records|) + " chunks.", docId))
      && forall i :: 0 <= i < |records| ==>
        && records[i].id == docId + "_" + NatToString(i)
        && records[i].metadata == map["doc_id" := Str(docId), "title" := OptionalText(request.title),
             "source" := Str("text_input"), "timestamp" := Num(now), "text" := records[i].metadata["text"],
             "chunk_index" := Int(i)]
  {
  }

  /** A text ingested without a title has every record titled "Untitled", tagged "text_input". */
  lemma UntitledByDefault(engine: RAGEngine, text: string, docId: string, now: Float, svc: Services)
    requires engine.IngestOutcome(text, TextMetadata(docId, RequestTitle(None), now), svc).Ok?
    ensures var records := engine.IngestOutcome(text, TextMetadata(docId, RequestTitle(None), now), svc).value;
      forall i :: 0 <= i < |records| ==>
        records[i].metadata["title"] == Str("Untitled") && records[i].metadata["source"] == Str("text_input")
  {
  }

  /** Every record of a file ingestion is titled with the filename and tagged "file_upload". */
  lemma FileIngestRecords(engine: RAGEngine, text: string, docId: string, filename: Option<string>, now: Float, svc: Services)
    requires engine.IngestOutcome(text, FileMetadata(docId, filename, now), svc).Ok?
    ensures var records := engine.IngestOutcome(text, FileMetadata(docId, filename, now), svc).value;
      forall i :: 0 <= i < |records| ==>
        && records[i].id == docId + "_" + NatToString(i)
        && records[i].metadata == map["doc_id" := Str(docId), "title" := OptionalText(filename),
             "source" := Str("file_upload"), "timestamp" := Num(now), "text" := records[i].metadata["text"],
             "chunk_index" := Int(i)]
  {
  }

  /** POST /ingest turns every exception into a 500 whose detail is str(e). */
  lemma TextIngestErrors(engine: RAGEngine, request: IngestRequest, docId: string, now: Float, svc: Services)
    requires engine.IngestOutcome(request.text, TextMetadata(docId, request.title, now), svc).Err?
    ensures TextIngestOutcome(engine, request, docId, now, svc) ==
      Err(HttpError(500, Message(engine.IngestOutcome(request.text, TextMetadata(docId, request.title, now), svc).error)))
  {
  }

  /** POST /ingest/file passes its own 400s through unchanged, and turns anything else into a 500 with str(e). */
  lemma FileIngestErrors(engine: RAGEngine, upload: Upload, pdf: Result<seq<string>, string>, docId: string,
                         now: Float, svc: Services)
    ensures ExtractedText(upload, pdf).Err? && ExtractedText(upload, pdf).error.Http? ==>
      FileIngestOutcome(engine, upload, pdf, docId, now, svc) == Err(ExtractedText(upload, pdf).error.http)
    ensures ExtractedText(upload, pdf).Err? && ExtractedText(upload, pdf).error.Other? ==>
      FileIngestOutcome(engine, upload, pdf, docId, now, svc) ==
        Err(HttpError(500, Message(ExtractedText(upload, pdf).error.error)))
    ensures (ExtractedText(upload, pdf).Ok? &&
             engine.IngestOutcome(ExtractedText(upload, pdf).value, FileMetadata(docId, upload.filename, now), svc).Err?) ==>
      FileIngestOutcome(engine, upload, pdf, docId, now, svc).Err? &&
      FileIngestOutcome(engine, upload, pdf, docId, now, svc).error.status == 500
    ensures FileIngestOutcome(engine, upload, pdf, docId, now, svc).Err? ==>
      FileIngestOutcome(engine, upload, pdf, docId, now, svc).error.status in {400, 500}
  {
  }

  /** An empty search gives the fixed answer with no citations, and the chat model is never consulted. */
  lemma QueryEmptyContext(engine: RAGEngine, request: QueryRequest, elapsed: Float, svc: Services,
                          generate: Prompt -> Result<string, string>)
    requires engine.SearchOutcome(request.query, DefaultTopK, svc) == Ok([])
    ensures QueryOutcome(engine, request, elapsed, svc) == Ok(QueryResponse(NoInformationAnswer, [], elapsed, None))
    ensures QueryOutcome(engine, request, elapsed, svc.(generate := generate)) == QueryOutcome(engine, request, elapsed, svc)
  {
    assert engine.SearchOutcome(request.query, DefaultTopK, svc.(generate := generate))
        == engine.SearchOutcome(request.query, DefaultTopK, svc);
  }

  /** A successful answer cites exactly the search results it was built from; any failure is a 500. */
  lemma QueryCitations(engine: RAGEngine, request: QueryRequest, elapsed: Float, svc: Services)
    ensures QueryOutcome(engine, request, elapsed, svc).Ok? ==>
      engine.SearchOutcome(request.query, DefaultTopK, svc).Ok? &&
      QueryOutcome(engine, request, elapsed, svc).value.citations == engine.SearchOutcome(request.query, DefaultTopK, svc).value
    ensures QueryOutcome(engine, request, elapsed, svc).Err? ==> QueryOutcome(engine, request, elapsed, svc).error.status == 500
  {
  }

  // ---------------------------------------------------------------- the route handlers

  /** POST /ingest. */
  method IngestText(engine: RAGEngine, request: IngestRequest, docId: string, now: Float, svc: Services)
    returns (r: Result<IngestResponse, HttpError>)
    modifies engine
    ensures r == TextIngestOutcome(engine, request, docId, now, svc)
    ensures match engine.IngestOutcome(request.text, TextMetadata(docId, request.title, now), svc)
      case Ok(records) => engine.upserts == old(engine.upserts) + Batches(records)
      case Err(_) => engine.upserts == old(engine.upserts)
  {
    var metadata := TextMetadata(docId, request.title, now);
    var chunkCount := engine.IngestDocument(request.text, metadata, svc);
    if chunkCount.Err? {
      return Err(InternalError(chunkCount.error));
    }
    return Ok(IngestResponse("success", "Ingested " + NatToString(chunkCount.value) + " chunks.", docId));
  }

  /** POST /ingest/file; when no text is extracted, nothing is sent to the index. */
  method IngestFile(engine: RAGEngine, upload: Upload, pdf: Result<seq<string>, string>, docId: string,
                    now: Float, svc: Services)
    returns (r: Result<IngestResponse, HttpError>)
    modifies engine
    ensures r == FileIngestOutcome(engine, upload, pdf, docId, now, svc)
    ensures ExtractedText(upload, pdf).Err? ==> engine.upserts == old(engine.upserts)
    ensures ExtractedText(upload, pdf).Ok? ==>
      match engine.IngestOutcome(ExtractedText(upload, pdf).value, FileMetadata(docId, upload.filename, now), svc)
      case Ok(records) => engine.upserts == old(engine.upserts) + Batches(records)
      case Err(_) => engine.upserts == old(engine.upserts)
  {
    var isPdf := IsPdf(upload);
    if isPdf.Err? {
      return Err(FileRouteError(Other(isPdf.error)));
    }
    var text: string;
    if isPdf.value {
      if pdf.Err? {
        return Err(FileRouteError(Http(HttpError(400, "Error reading PDF: " + pdf.error))));
      }
      text := ExtractPdfText(pdf.value);
    } else {
      var decoded := Utf8.Decode(upload.content);
      if decoded.None? {
        return Err(FileRouteError(Http(EncodingNotSupported)));
      }
      text := decoded.value;
    }
    if Strip(text) == "" {
      return Err(FileRouteError(Http(EmptyText)));
    }
    var metadata := FileMetadata(docId, upload.filename, now);
    var chunkCount := engine.IngestDocument(text, metadata, svc);
    if chunkCount.Err? {
      return Err(FileRouteError(Other(chunkCount.error)));
    }
    return Ok(IngestResponse("success",
      "Ingested " + NatToString(chunkCount.value) + " chunks from " + Show(OptionalText(upload.filename)) + ".", docId));
  }

  /** POST /query. */
  method QueryRag(engine: RAGEngine, request: QueryRequest, elapsed: Float, svc: Services)
    returns (r: Result<QueryResponse, HttpError>)
    ensures r == QueryOutcome(engine, request, elapsed, svc)
  {
    var context := engine.Search(request.query, DefaultTopK, svc);
    if context.Err? {
      return Err(InternalError(context.error));
    }
    if context.value == [] {
      return Ok(QueryResponse(NoInformationAnswer, [], elapsed, None));
    }
    var result := engine.GenerateAnswer(request.query, context.value, svc);
    if result.Err? {
      return Err(InternalError(result.error));
    }
    return Ok(QueryResponse(result.value.answer, result.value.citations, elapsed, Some(CostEstimate)));
  }
}
