# minirag: a Dafny model of the RAG service's own logic

minirag is a retrieval-augmented-generation service. Text or an uploaded file is split into chunks. The chunks
are embedded (OpenAI or Gemini) and upserted into a Pinecone index. A query is embedded and matched against the
index. The matches are optionally reranked (Cohere), and the best ones are handed to a chat model as numbered
sources. The chat model's answer comes back together with those sources as citations.

Nearly all the work is done by those services. This project models what the repository's own code does
between the calls, in two modules that follow its two backend files:

- `RagCore` (`rag_core.dfy`) models `RAGEngine` in `backend/rag_core.py`:
  - provider and embedding-dimension selection;
  - building the ingestion records;
  - batching the upserts;
  - reshaping search results, with and without a reranker;
  - assembling the numbered context and the answer.

  Configuration set by `__init__` is held in `const` fields. The one piece of state that changes is
  `upserts`, the log of upsert requests sent to the index.
- `Api` (`api.dfy`) models the routes of `backend/main.py`:
  - `POST /ingest`, `POST /ingest/file` and `POST /query`;
  - the PDF/text dispatch and the page loop;
  - the UTF-8 decode and the blank-text check;
  - the metadata dicts;
  - the empty-context short cut;
  - the mapping of exceptions to HTTP status codes.

Three supporting modules hold the Python behaviour these depend on:

- `Wrappers` has Option and Result.
- `Text` has `str()` of an int, concatenation, `str.strip()` with Python's whitespace set, `lower`, and `endswith`.
- `Utf8` has the strict codec behind `bytes.decode("utf-8")`, proved to be the inverse of the encoder in both directions.

Every third-party call is a field of `RagCore.Services`. Each is an uninterpreted function that returns a value
or raises with a message (`Err`), so the properties hold whatever those services answer. The fields are:

- the text splitter;
- the document and query embedders;
- the index query;
- the reranker;
- the chat model.

Values taken from the environment are parameters:

- the environment variables;
- the uuid4 document id;
- `time.time()` and the elapsed time;
- the page texts pypdf extracts.

Floats (embeddings, scores, timestamps) are carried as opaque values (`RagCore.Float`).

## Model

| member | source | states |
|---|---|---|
| `RagCore.RAGEngine.constructor` | backend/rag_core.py:17-51 | provider is OpenAI exactly when the OpenAI key is set and non-empty, else Gemini; OpenAI gets model text-embedding-3-small and dimension 1536, Gemini with a key gets models/text-embedding-004 and 768, Gemini without a key leaves both unset; Pinecone and Cohere clients exist exactly when their keys are non-empty; the index name defaults to mini-rag-index; nothing upserted yet |
| `Text.NatToStringInjective` | backend/rag_core.py:126 | different chunk indices are written as different decimal strings |
| `RagCore.RecordIdsDistinct` | backend/rag_core.py:125-126 | the ids `{doc_id}_{i}` of two different chunk indices differ |
| `RagCore.RecordsIdsUnique` | backend/rag_core.py:124-136 | the records of one ingestion have pairwise distinct ids |
| `RagCore.RecordsShape` | backend/rag_core.py:124-136 | there are min(#chunks, #embeddings) records (zip); record i carries embedding i, and its metadata is the document metadata with `text` = chunk i and `chunk_index` = i and every other key unchanged (metadata maps are values, so the caller's dict is never changed) |
| `RagCore.BuildRecords` | backend/rag_core.py:124-136 | the record-building loop yields exactly those records, in order |
| `RagCore.BatchesCover` | backend/rag_core.py:139-142 | the upsert batches, concatenated in order, are exactly the record list |
| `RagCore.BatchesShape` | backend/rag_core.py:139-142 | ceil(n/100) batches, none when n = 0; batch j is records[100j : 100j+100]; every batch holds 1 to 100 records, all but the last exactly 100 |
| `RagCore.RAGEngine.UpsertInBatches` | backend/rag_core.py:139-142 | the loop sends exactly those batches, in order, to the index |
| `RagCore.RAGEngine.IngestDocument` | backend/rag_core.py:117-144 | without a Pinecone client, raises ValueError and sends nothing; if the embedder raises (or Gemini has no model set while there are chunks), nothing is sent; otherwise the records are upserted in batches and their number is returned |
| `RagCore.ReshapeEmpty` | backend/rag_core.py:158-162 | no match gives an empty result, the same whether or not a reranker exists, whatever it would answer |
| `RagCore.SearchNoMatches` | backend/rag_core.py:146-162 | when the index query returns no match, search returns [] whatever the reranker would answer |
| `RagCore.ReshapeMissingText` | backend/rag_core.py:158-159 | a match without `text` in its metadata raises KeyError('text') |
| `RagCore.ReshapeWithoutReranker` | backend/rag_core.py:184-193 | without a reranker, the first min(5, n) matches in index order, each with its vector score, its text and its metadata |
| `RagCore.ReshapeWithReranker` | backend/rag_core.py:164-182 | the reranker is asked (rerank-english-v3.0, top 5) about the matches' texts; the result follows its hits in order, score from the hit, text and metadata from matches[hit.index]; a hit past the end raises IndexError; a reranker failure propagates |
| `RagCore.RAGEngine.Search` | backend/rag_core.py:146-193 | the search method (ValueError without Pinecone, query embedding, index query, the two reshaping loops) returns exactly the specified outcome |
| `RagCore.ContextBlockAt` | backend/rag_core.py:199-202 | chunk k's block `Source [k+1]: text` followed by a blank line sits in the context right after the blocks of chunks 0..k-1 |
| `RagCore.RAGEngine.AnswerOutcome` | backend/rag_core.py:231-234 | a successful answer's citations are the input chunks, unchanged |
| `RagCore.RAGEngine.GenerateAnswer` | backend/rag_core.py:195-234 | the context loop builds the concatenated numbered blocks; OpenAI gets a system and a user message (gpt-4o-mini), Gemini one prompt `system + "\n" + user` (gemini-2.5-flash); the answer is the model's text with the chunks as citations |
| `Api.PdfDetection` | backend/main.py:116 | the PDF branch is taken exactly when the content type is application/pdf or the filename's last four characters are `.pdf` in any case; a missing filename with another content type raises AttributeError |
| `Api.PdfByName` | backend/main.py:116 | `filename.lower().endswith(".pdf")` holds exactly when the last four characters are '.', p/P, d/D, f/F |
| `Api.ExtractPdfText` | backend/main.py:120-122 | the page loop yields each page's text followed by "\n", in page order |
| `Api.PagesTextBlank` | backend/main.py:120-133 | a PDF's extracted text is blank exactly when every page's text is blank |
| `Text.StripEmptyIffAllSpace` | backend/main.py:132 | `text.strip()` is empty exactly when every character is Python whitespace |
| `Utf8.DecodeEncode` | backend/main.py:127-128 | decoding the UTF-8 encoding of any string gives it back |
| `Utf8.EncodeDecode` | backend/main.py:127-128 | whatever the decoder accepts is the encoding of what it returns (no overlong forms, surrogates or truncations slip through) |
| `Utf8.DecodableIffEncoding` | backend/main.py:127-130 | an upload decodes as text exactly when its bytes are the UTF-8 encoding of some string |
| `Api.TextUploadRejections` | backend/main.py:125-133 | a non-PDF upload gets 400 "File encoding not supported…" exactly when its bytes are not UTF-8, 400 "Extracted text is empty." exactly when they decode to blank text, and passes otherwise |
| `Api.PdfUploadRejections` | backend/main.py:116-133 | a PDF whose pages were read gets 400 "Extracted text is empty." exactly when every page is blank, and otherwise passes on the page-concatenated text |
| `Api.ExtractedTextNotBlank` | backend/main.py:132-133 | text that goes on to ingestion is never empty or whitespace only |
| `Api.TextIngestRecords` | backend/main.py:86-101 | POST /ingest reports the record count, and record i has id `{doc_id}_{i}` and metadata doc_id, title, source "text_input", timestamp, text and chunk_index |
| `Api.UntitledByDefault` | backend/main.py:25-27 | a text ingested without a title has every record titled "Untitled" and tagged "text_input" |
| `Api.FileIngestRecords` | backend/main.py:135-143 | every record of a file ingestion has id `{doc_id}_{i}` and metadata with the filename as title and source "file_upload" |
| `Api.TextIngestErrors` | backend/main.py:102-104 | any exception of POST /ingest becomes status 500 with detail str(e) |
| `Api.FileIngestErrors` | backend/main.py:150-154 | POST /ingest/file re-raises its own HTTPExceptions unchanged, turns any other exception into 500 with detail str(e), and fails with no status but 400 or 500 |
| `Api.QueryEmptyContext` | backend/main.py:165-172 | when search finds nothing, the answer is the fixed "couldn't find any relevant information" text with no citations and no cost estimate, and the chat model is never consulted |
| `Api.QueryCitations` | backend/main.py:174-187 | a successful query's citations are the search results it answered from; every failure is a 500 |
| `Api.IngestText` | backend/main.py:81-104 | the route's response is the specified outcome; the index receives the batches of the built records, or nothing when ingestion raised |
| `Api.IngestFile` | backend/main.py:106-154 | the route's response is the specified outcome; when extraction fails or the text is blank nothing is sent to the index (ingest_document is not reached) |
| `Api.QueryRag` | backend/main.py:156-187 | the route's response is the specified outcome: search, the empty short cut, then generation |

## Left out

- `ensure_index` is modelled only by its ValueError when there is no Pinecone client. Listing, creating and polling the remote index (with `time.sleep`) is I/O. So is the AttributeError that `create_index` would hit when Gemini has no key and no dimension was set.
- `get_embeddings` and `get_query_embedding` are the `embedTexts` and `embedQuery` services. The Gemini branch's call per text is folded into one abstract call. The only local behaviour kept is reading `embedding_model`: when it was never set, an AttributeError is raised, except for an empty chunk list under Gemini, whose loop never reads it.
- `chunk_text` is the `split` service. No chunk-size or overlap bound is claimed, since the splitter is LangChain's.
- `RAGEngine.UpsertInBatches`: every upsert call is taken to succeed. A remote failure part-way would raise after the earlier batches were stored. That is not modelled.
- Reranker indices are natural numbers. Python's negative-index wrap-around in `matches[rr.index]` is not modelled, and neither is a match whose metadata itself is missing.
- `Text.Lower`: `str.lower()` is modelled for A–Z only. Full Unicode case mapping is not modelled.
- PDF parsing by pypdf is an input: the page texts, or the message of what it raised. An exception on any page is one "Error reading PDF" outcome.
- Floats (embeddings, scores, `time.time()`, elapsed timing) are opaque. uuid4 doc ids are parameters.
- Logging, the start-up warnings printed by `__init__`, and FastAPI/pydantic response validation are not modelled.
- Static-file and SPA serving and the uvicorn launch (backend/main.py:190-212) are not modelled.
- The frontend, `app.py` and the Gemini probe scripts are not part of this model.
