/**
 * The RAGEngine of backend/rag_core.py: provider selection at construction,
 * ingestion (chunk, embed, build records, upsert in batches), search (vector
 * query, optional rerank, reshaping) and answer generation (numbered context,
 * one LLM call, citations handed back).
 *
 * Every third-party call (text splitter, embedding APIs, the vector index,
 * the reranker, the chat model) is a field of `Services`: an uninterpreted
 * function that either returns a value or raises with a message.
 */
module RagCore {
  import opened Wrappers
  import opened Text

  /** A Python float, carried only as the text str() gives for it; the model never computes with it. */
  datatype Float = Float(text: string)

  type Embedding = seq<Float>

  /** The metadata values the service stores: strings, ints, floats and None. */
  datatype Value = Str(s: string) | Int(i: int) | Num(f: Float) | Null

  type Metadata = map<string, Value>

  /** str(v), which is what an f-string writes for v. */
  function Show(v: Value): string
  {
    match v
    case Str(s) => s
    case Int(i) => if i < 0 then "-" + NatToString(-i) else NatToString(i)
    case Num(f) => f.text
    case Null => "None"
  }

  /** The exceptions that can leave the engine, with what str() gives for each. */
  datatype Error =
    | ValueError(msg: string)
    | KeyError(key: string)
    | IndexError(msg: string)
    | AttributeError(msg: string)
    | ServiceError(msg: string)  // raised inside a third-party client

  function Message(e: Error): string
  {
    match e
    case ValueError(m) => m
    case KeyError(k) => "'" + k + "'"
    case IndexError(m) => m
    case AttributeError(m) => m
    case ServiceError(m) => m
  }

  const PineconeMissing := ValueError("Pinecone client not initialized.")
  const ModelMissing := AttributeError("'RAGEngine' object has no attribute 'embedding_model'")
  const ListIndexOutOfRange := IndexError("list index out of range")

  datatype Provider = OpenAI | Gemini

  /** One vector sent to the index: {"id": ..., "values": ..., "metadata": ...}. */
  datatype VectorRecord = VectorRecord(id: string, values: Embedding, metadata: Metadata)

  /** One match returned by the index query. */
  datatype Match = Match(score: Float, metadata: Metadata)

  /** One reranker result: the position of a document in the list it was given, and its relevance score. */
  datatype RerankHit = RerankHit(index: nat, relevanceScore: Float)

  /** One search result: {"score": ..., "text": ..., "metadata": ...}. */
  datatype SearchResult = SearchResult(score: Float, text: Value, metadata: Metadata)

  /** The request sent to the chat model: OpenAI takes a system and a user message, Gemini one prompt. */
  datatype Prompt = Chat(model: string, system: string, user: string) | Generate(model: string, content: string)

  /** The dict generate_answer returns. */
  datatype Answer = Answer(answer: string, citations: seq<SearchResult>)

  type Reranker = (string, string, seq<Value>, nat) -> Result<seq<RerankHit>, string>

  /** The third-party calls, each an uninterpreted function; Err carries the message of what it raised. */
  datatype Services = Services(
    split: string -> seq<string>,                                              // RecursiveCharacterTextSplitter.split_text
    embedTexts: (Provider, string, seq<string>) -> Result<seq<Embedding>, string>,  // get_embeddings' API calls
    embedQuery: (Provider, string, string) -> Result<Embedding, string>,       // get_query_embedding's API call
    queryIndex: (string, Embedding, nat) -> Result<seq<Match>, string>,       // index.query(vector, top_k)
    rerank: Reranker,                                                          // co.rerank(model, query, documents, top_n)
    generate: Prompt -> Result<string, string>)                                // the chat-model call

  const DefaultIndexName := "mini-rag-index"
  const OpenAIEmbeddingModel := "text-embedding-3-small"
  const GeminiEmbeddingModel := "models/text-embedding-004"
  const OpenAIChatModel := "gpt-4o-mini"
  const GeminiChatModel := "gemini-2.5-flash"
  const RerankModel := "rerank-english-v3.0"
  const RerankTopN := 5
  const FallbackTopN := 5
  const DefaultTopK := 20
  const BatchSize := 100

  const SystemPrompt :=
    "You are an intelligent assistant designed to provide abstractive answers. "
    + "Synthesize the information from the provided context to answer the user's question in a cohesive and fluent manner. "
    + "Do not simply extract or copy-paste text. "
    + "Base your answer ONLY on the provided context sources. "
    + "If the answer is not in the context, say 'I cannot answer this based on the provided documents'. "
    + "Cite your sources using square brackets like [1] or [2] at the end of sentences where appropriate."

  function Min(a: int, b: int): int
  {
    if a <= b then a else b
  }

  /** os.getenv(key). */
  function GetEnv(env: map<string, string>, key: string): Option<string>
  {
    if key in env then Some(env[key]) else None
  }

  /** Python truthiness of an optional string: present and non-empty. */
  predicate Truthy(v: Option<string>)
  {
    v.Some? && v.value != ""
  }

  // ---------------------------------------------------------------- ingestion records

  /** f"{metadata.get('doc_id')}_{i}". */
  function RecordId(metadata: Metadata, i: nat): string
  {
    (if "doc_id" in metadata then Show(metadata["doc_id"]) else "None") + "_" + NatToString(i)
  }

  /** A copy of the document metadata with the chunk's text and index set. */
  function ChunkMetadata(metadata: Metadata, chunk: string, i: nat): Metadata
  {
    metadata["text" := Str(chunk)]["chunk_index" := Int(i)]
  }

  /** The records zip(chunks, embeddings) yields, numbered from 0. */
  function Records(chunks: seq<string>, embeddings: seq<Embedding>, metadata: Metadata): seq<VectorRecord>
  {
    seq(Min(|chunks|, |embeddings|), i requires 0 <= i < Min(|chunks|, |embeddings|) =>
      VectorRecord(RecordId(metadata, i), embeddings[i], ChunkMetadata(metadata, chunks[i], i)))
  }

  /** The record-building loop of ingest_document. */
  method BuildRecords(chunks: seq<string>, embeddings: seq<Embedding>, metadata: Metadata)
    returns (vectors: seq<VectorRecord>)
    ensures vectors == Records(chunks, embeddings, metadata)
  {
    vectors := [];
    var i := 0;
    while i < |chunks| && i < |embeddings|
      invariant i <= |chunks| && i <= |embeddings|
      invariant |vectors| == i
      invariant forall k :: 0 <= k < i ==>
        vectors[k] == VectorRecord(RecordId(metadata, k), embeddings[k], ChunkMetadata(metadata, chunks[k], k))
    {
      var chunkMetadata := metadata["text" := Str(chunks[i])];
      chunkMetadata := chunkMetadata["chunk_index" := Int(i)];
      vectors := vectors + [VectorRecord(RecordId(metadata, i), embeddings[i], chunkMetadata)];
      i := i + 1;
    }
  }

  /** zip stops at the shorter list: one record per chunk that has an embedding, each carrying that chunk and embedding. */
  lemma RecordsShape(chunks: seq<string>, embeddings: seq<Embedding>, metadata: Metadata)
    ensures |Records(chunks, embeddings, metadata)| == Min(|chunks|, |embeddings|)
    ensures forall i :: 0 <= i < |Records(chunks, embeddings, metadata)| ==>
      var r := Records(chunks, embeddings, metadata)[i];
      && r.values == embeddings[i]
      && r.metadata.Keys == metadata.Keys + {"text", "chunk_index"}
      && r.metadata["text"] == Str(chunks[i])
      && r.metadata["chunk_index"] == Int(i)
      && (forall k :: k in metadata && k != "text" && k != "chunk_index" ==> r.metadata[k] == metadata[k])
  {
  }

  /** Two chunks of one ingestion never share an id. */
  lemma RecordIdsDistinct(metadata: Metadata, i: nat, j: nat)
    requires i != j
    ensures RecordId(metadata, i) != RecordId(metadata, j)
  {
    var p := (if "doc_id" in metadata then Show(metadata["doc_id"]) else "None") + "_";
    if RecordId(metadata, i) == RecordId(metadata, j) {
      assert RecordId(metadata, i) == p + NatToString(i);
      assert NatToString(i) == RecordId(metadata, i)[|p|..];
      assert NatToString(j) == RecordId(metadata, j)[|p|..];
      NatToStringInjective(i, j);
    }
  }

  /** The ids within one list of records are pairwise distinct. */
  lemma RecordsIdsUnique(chunks: seq<string>, embeddings: seq<Embedding>, metadata: Metadata)
    ensures var rs := Records(chunks, embeddings, metadata);
      forall i, j :: 0 <= i < j < |rs| ==> rs[i].id != rs[j].id
  {
    var rs := Records(chunks, embeddings, metadata);
    forall i, j | 0 <= i < j < |rs| ensures rs[i].id != rs[j].id {
      RecordIdsDistinct(metadata, i, j);
    }
  }

  // ---------------------------------------------------------------- batching

  /** vectors[i:i+100] for i in range(start, len(vectors), 100). */
  function BatchesFrom<T>(v: seq<T>, start: nat): seq<seq<T>>
    decreases |v| - start
  {
    if start >= |v| then [] else [v[start..Min(start + BatchSize, |v|)]] + BatchesFrom(v, start + BatchSize)
  }

  /** The upsert batches of ingest_document. */
  function Batches<T>(v: seq<T>): seq<seq<T>>
  {
    BatchesFrom(v, 0)
  }

  lemma {:induction false} BatchesFromCover<T>(v: seq<T>, start: nat)
    requires start <= |v|
    ensures Concat(BatchesFrom(v, start)) == v[start..]
    decreases |v| - start
  {
    if start < |v| {
      var end := Min(start + BatchSize, |v|);
      if start + BatchSize <= |v| {
        BatchesFromCover(v, start + BatchSize);
      } else {
        assert BatchesFrom(v, start + BatchSize) == [];
      }
      ConcatPrepend(v[start..end], BatchesFrom(v, start + BatchSize));
      assert v[start..] == v[start..end] + v[end..];
    }
  }

  /** The batches, concatenated in order, give back every record exactly once. */
  lemma BatchesCover<T>(v: seq<T>)
    ensures Concat(Batches(v)) == v
  {
    BatchesFromCover(v, 0);
  }

  lemma {:induction false} BatchesFromShape<T>(v: seq<T>, start: nat)
    requires start <= |v|
    ensures |BatchesFrom(v, start)| == (|v| - start + BatchSize - 1) / BatchSize
    ensures forall j :: 0 <= j < |BatchesFrom(v, start)| ==>
      BatchesFrom(v, start)[j] == v[start + j * BatchSize..Min(start + j * BatchSize + BatchSize, |v|)]
    decreases |v| - start
  {
    if start < |v| {
      var rest := BatchesFrom(v, start + BatchSize);
      if start + BatchSize <= |v| {
        BatchesFromShape(v, start + BatchSize);
        forall j | 1 <= j < |BatchesFrom(v, start)|
          ensures BatchesFrom(v, start)[j] == v[start + j * BatchSize..Min(start + j * BatchSize + BatchSize, |v|)]
        {
          assert BatchesFrom(v, start)[j] == rest[j - 1];
          assert start + BatchSize + (j - 1) * BatchSize == start + j * BatchSize;
        }
      } else {
        assert rest == [];
      }
    }
  }

  /**
   * There are ceil(n / 100) batches, none for no records; batch j is the slice
   * starting at record 100 * j, of 100 records except possibly the last one,
   * which is never empty.
   */
  lemma BatchesShape<T>(v: seq<T>)
    ensures |Batches(v)| == (|v| + BatchSize - 1) / BatchSize
    ensures |v| == 0 <==> Batches(v) == []
    ensures forall j :: 0 <= j < |Batches(v)| ==> Batches(v)[j] == v[j * BatchSize..Min(j * BatchSize + BatchSize, |v|)]
    ensures forall j :: 0 <= j < |Batches(v)| ==> 1 <= |Batches(v)[j]| <= BatchSize
    ensures forall j :: 0 <= j < |Batches(v)| - 1 ==> |Batches(v)[j]| == BatchSize
  {
    BatchesFromShape(v, 0);
    var b := Batches(v);
    forall j | 0 <= j < |b|
      ensures 1 <= |b[j]| <= BatchSize && (j < |b| - 1 ==> |b[j]| == BatchSize)
    {
      assert b[j] == v[j * BatchSize..Min(j * BatchSize + BatchSize, |v|)];
      assert j * BatchSize < |v| by {
        assert j < (|v| + BatchSize - 1) / BatchSize;
      }
      if j < |b| - 1 {
        assert (j + 1) * BatchSize < |v|;
      }
    }
  }

  // ---------------------------------------------------------------- search reshaping

  /** [match['metadata']['text'] for match in matches]: a KeyError as soon as one match has no text. */
  function DocTexts(matches: seq<Match>): (r: Result<seq<Value>, Error>)
  {
    if forall i :: 0 <= i < |matches| ==> "text" in matches[i].metadata
    then Ok(seq(|matches|, i requires 0 <= i < |matches| => matches[i].metadata["text"]))
    else Err(KeyError("text"))
  }

  predicate AllHaveText(matches: seq<Match>)
  {
    forall i :: 0 <= i < |matches| ==> "text" in matches[i].metadata
  }

  /** The result built from a match, with the given score. */
  function Cite(m: Match, score: Float): SearchResult
    requires "text" in m.metadata
  {
    SearchResult(score, m.metadata["text"], m.metadata)
  }

  /** The rerank branch: each hit mapped back to matches[hit.index], in the reranker's order. */
  function Reranked(matches: seq<Match>, hits: seq<RerankHit>): Result<seq<SearchResult>, Error>
    requires AllHaveText(matches)
  {
    if forall k :: 0 <= k < |hits| ==> hits[k].index < |matches|
    then Ok(seq(|hits|, k requires 0 <= k < |hits| && hits[k].index < |matches| =>
      Cite(matches[hits[k].index], hits[k].relevanceScore)))
    else Err(ListIndexOutOfRange)
  }

  /** The fallback branch: matches[:5] with their vector scores. */
  function TopMatches(matches: seq<Match>): seq<SearchResult>
    requires AllHaveText(matches)
  {
    seq(Min(FallbackTopN, |matches|), i requires 0 <= i < Min(FallbackTopN, |matches|) => Cite(matches[i], matches[i].score))
  }

  /** What search does with the index's matches; `reranker` is the Cohere client if there is one. */
  function Reshape(query: string, matches: seq<Match>, reranker: Option<Reranker>): Result<seq<SearchResult>, Error>
  {
    match DocTexts(matches)
    case Err(e) => Err(e)
    case Ok(docs) =>
      if docs == [] then Ok([])
      else if reranker.None? then Ok(TopMatches(matches))
      else match reranker.value(RerankModel, query, docs, RerankTopN)
        case Err(m) => Err(ServiceError(m))
        case Ok(hits) => Reranked(matches, hits)
  }

  /** No match: an empty result, whatever the reranker would have said. */
  lemma ReshapeEmpty(query: string, reranker: Option<Reranker>)
    ensures Reshape(query, [], reranker) == Ok([])
    ensures Reshape(query, [], reranker) == Reshape(query, [], None)
  {
  }

  /** Without a reranker: the first min(5, n) matches, in the index's order, with their own scores and texts. */
  lemma ReshapeWithoutReranker(query: string, matches: seq<Match>)
    requires AllHaveText(matches)
    ensures Reshape(query, matches, None).Ok?
    ensures var rs := Reshape(query, matches, None).value;
      && |rs| == Min(5, |matches|)
      && forall i :: 0 <= i < |rs| ==>
        rs[i] == SearchResult(matches[i].score, matches[i].metadata["text"], matches[i].metadata)
  {
  }

  /**
   * With a reranker: the reranker is asked for the top 5 of the matches' texts, and the result follows its
   * hits in order, taking each score from the hit and text and metadata from the match it points at;
   * a hit pointing past the matches raises IndexError.
   */
  lemma ReshapeWithReranker(query: string, matches: seq<Match>, rerank: Reranker)
    requires AllHaveText(matches) && matches != []
    ensures var docs := seq(|matches|, i requires 0 <= i < |matches| => matches[i].metadata["text"]);
      match rerank(RerankModel, query, docs, 5)
      case Err(m) => Reshape(query, matches, Some(rerank)) == Err(ServiceError(m))
      case Ok(hits) =>
        if exists k :: 0 <= k < |hits| && hits[k].index >= |matches|
        then Reshape(query, matches, Some(rerank)) == Err(IndexError("list index out of range"))
        else
          && Reshape(query, matches, Some(rerank)).Ok?
          && |Reshape(query, matches, Some(rerank)).value| == |hits|
          && forall k :: 0 <= k < |hits| ==>
            Reshape(query, matches, Some(rerank)).value[k] ==
              SearchResult(hits[k].relevanceScore, matches[hits[k].index].metadata["text"], matches[hits[k].index].metadata)
  {
  }

  /** When the index returns no match, search returns [] and the reranker's answer plays no part. */
  lemma SearchNoMatches(engine: RAGEngine, query: string, topK: nat, svc: Services, rerank: Reranker)
    requires engine.hasPinecone && engine.QueryEmbedding(query, svc).Ok?
    requires svc.queryIndex(engine.indexName, engine.QueryEmbedding(query, svc).value, topK) == Ok([])
    ensures engine.SearchOutcome(query, topK, svc) == Ok([])
    ensures engine.SearchOutcome(query, topK, svc.(rerank := rerank)) == Ok([])
  {
    assert engine.QueryEmbedding(query, svc.(rerank := rerank)) == engine.QueryEmbedding(query, svc);
    ReshapeEmpty(query, if engine.hasReranker then Some(svc.rerank) else None);
    ReshapeEmpty(query, if engine.hasReranker then Some(rerank) else None);
  }

  /** A match without a text raises KeyError('text') before anything else is looked at. */
  lemma ReshapeMissingText(query: string, matches: seq<Match>, reranker: Option<Reranker>)
    requires !AllHaveText(matches)
    ensures Reshape(query, matches, reranker) == Err(KeyError("text"))
  {
  }

  // ---------------------------------------------------------------- answer assembly

  /** f"Source [{n}]: {text}\n\n". */
  function SourceBlock(n: nat, text: Value): string
  {
    "Source [" + NatToString(n) + "]: " + Show(text) + "\n\n"
  }

  /** The numbered blocks, chunk i under number i + 1. */
  function Blocks(chunks: seq<SearchResult>): seq<string>
  {
    seq(|chunks|, i requires 0 <= i < |chunks| => SourceBlock(i + 1, chunks[i].text))
  }

  /** context_text after the loop of generate_answer. */
  function Context(chunks: seq<SearchResult>): string
  {
    Concat(Blocks(chunks))
  }

  /** Chunk k's block, numbered k + 1, sits in the context right after the blocks of chunks 0 .. k-1. */
  lemma ContextBlockAt(chunks: seq<SearchResult>, k: nat)
    requires k < |chunks|
    ensures var before := |Context(chunks[..k])|;
      && before + |SourceBlock(k + 1, chunks[k].text)| <= |Context(chunks)|
      && Context(chunks)[before..before + |SourceBlock(k + 1, chunks[k].text)|] == SourceBlock(k + 1, chunks[k].text)
  {
    var b := Blocks(chunks);
    assert Blocks(chunks[..k]) == b[..k];
    assert b == b[..k] + [b[k]] + b[k + 1..];
    ConcatAppend(b[..k] + [b[k]], b[k + 1..]);
    ConcatAppend(b[..k], [b[k]]);
    assert Concat([b[k]]) == b[k] by {
      assert [b[k]][..0] == [];
    }
  }

  /** f"Context:\n{context_text}\n\nQuestion: {query}". */
  function UserPrompt(query: string, context: string): string
  {
    "Context:\n" + context + "\n\nQuestion: " + query
  }

  /** The request each provider's branch sends to its chat model. */
  function PromptFor(provider: Provider, query: string, chunks: seq<SearchResult>): Prompt
  {
    var user := UserPrompt(query, Context(chunks));
    if provider == OpenAI then Chat(OpenAIChatModel, SystemPrompt, user)
    else Generate(GeminiChatModel, SystemPrompt + "\n" + user)
  }

  // ---------------------------------------------------------------- the engine

  class RAGEngine {
    const pineconeApiKey: Option<string>
    const indexName: string
    const openaiApiKey: Option<string>
    const geminiApiKey: Option<string>
    const cohereApiKey: Option<string>
    /** self.pc is a Pinecone client (not None). */
    const hasPinecone: bool
    /** self.co is a Cohere client (not None). */
    const hasReranker: bool
    const provider: Provider
    /** None where __init__ leaves the attribute unset: Gemini chosen and no Gemini key. */
    const embeddingModel: Option<string>
    const embeddingDim: Option<nat>
    /** The upsert requests sent to the vector index so far, in order, each with the batch it carried. */
    var upserts: seq<seq<VectorRecord>>

    /** __init__, reading its configuration from the environment `env`. */
    constructor (env: map<string, string>)
      ensures pineconeApiKey == GetEnv(env, "PINECONE_API_KEY")
      ensures indexName == (if "PINECONE_INDEX_NAME" in env then env["PINECONE_INDEX_NAME"] else DefaultIndexName)
      ensures openaiApiKey == GetEnv(env, "OPENAI_API_KEY")
      ensures geminiApiKey == GetEnv(env, "GEMINI_API_KEY")
      ensures cohereApiKey == GetEnv(env, "COHERE_API_KEY")
      ensures hasPinecone == Truthy(pineconeApiKey)
      ensures hasReranker == Truthy(cohereApiKey)
      ensures provider == (if Truthy(openaiApiKey) then OpenAI else Gemini)
      ensures provider == OpenAI ==> embeddingModel == Some(OpenAIEmbeddingModel) && embeddingDim == Some(1536)
      ensures provider == Gemini && Truthy(geminiApiKey) ==>
        embeddingModel == Some(GeminiEmbeddingModel) && embeddingDim == Some(768)
      ensures provider == Gemini && !Truthy(geminiApiKey) ==> embeddingModel == None && embeddingDim == None
      ensures upserts == []
    {
      pineconeApiKey := GetEnv(env, "PINECONE_API_KEY");
      indexName := if "PINECONE_INDEX_NAME" in env then env["PINECONE_INDEX_NAME"] else DefaultIndexName;
      openaiApiKey := GetEnv(env, "OPENAI_API_KEY");
      geminiApiKey := GetEnv(env, "GEMINI_API_KEY");
      cohereApiKey := GetEnv(env, "COHERE_API_KEY");
      hasPinecone := Truthy(GetEnv(env, "PINECONE_API_KEY"));
      hasReranker := Truthy(GetEnv(env, "COHERE_API_KEY"));
      var chosen := if Truthy(GetEnv(env, "OPENAI_API_KEY")) then OpenAI else Gemini;
      provider := chosen;
      if chosen == OpenAI {
        embeddingModel, embeddingDim := Some(OpenAIEmbeddingModel), Some(1536);
      } else if Truthy(GetEnv(env, "GEMINI_API_KEY")) {
        embeddingModel, embeddingDim := Some(GeminiEmbeddingModel), Some(768);
      } else {
        embeddingModel, embeddingDim := None, None;
      }
      upserts := [];
    }

    /** get_embeddings(texts); the Gemini branch loops over texts, so an empty list never reads the model. */
    function Embeddings(texts: seq<string>, svc: Services): Result<seq<Embedding>, Error>
    {
      if provider == Gemini && texts == [] then Ok([])
      else if embeddingModel.None? then Err(ModelMissing)
      else match svc.embedTexts(provider, embeddingModel.value, texts)
        case Err(m) => Err(ServiceError(m))
        case Ok(e) => Ok(e)
    }

    /** get_query_embedding(text). */
    function QueryEmbedding(text: string, svc: Services): Result<Embedding, Error>
    {
      if embeddingModel.None? then Err(ModelMissing)
      else match svc.embedQuery(provider, embeddingModel.value, text)
        case Err(m) => Err(ServiceError(m))
        case Ok(e) => Ok(e)
    }

    /** The records ingest_document builds, or the exception it raises before upserting. */
    function IngestOutcome(text: string, metadata: Metadata, svc: Services): Result<seq<VectorRecord>, Error>
    {
      if !hasPinecone then Err(PineconeMissing)
      else
        var chunks := svc.split(text);
        match Embeddings(chunks, svc)
        case Err(e) => Err(e)
        case Ok(embeddings) => Ok(Records(chunks, embeddings, metadata))
    }

    /** The batch-upsert loop of ingest_document. */
    method UpsertInBatches(vectors: seq<VectorRecord>)
      modifies this
      ensures upserts == old(upserts) + Batches(vectors)
    {
      var i := 0;
      while i < |vectors|
        invariant upserts + BatchesFrom(vectors, i) == old(upserts) + Batches(vectors)
        decreases |vectors| - i
      {
        var batch := vectors[i..Min(i + BatchSize, |vectors|)];
        upserts := upserts + [batch];
        i := i + BatchSize;
      }
    }

    /** ingest_document(text, metadata): the number of records upserted, or the exception raised. */
    method IngestDocument(text: string, metadata: Metadata, svc: Services) returns (r: Result<nat, Error>)
      modifies this
      ensures match IngestOutcome(text, metadata, svc)
        case Ok(records) => r == Ok(|records|) && upserts == old(upserts) + Batches(records)
        case Err(e) => r == Err(e) && upserts == old(upserts)
    {
      if !hasPinecone {
        return Err(PineconeMissing);
      }
      var chunks := svc.split(text);
      var embeddings := Embeddings(chunks, svc);
      if embeddings.Err? {
        return Err(embeddings.error);
      }
      var vectors := BuildRecords(chunks, embeddings.value, metadata);
      UpsertInBatches(vectors);
      return Ok(|vectors|);
    }

    /** What search(query, top_k) returns or raises. */
    function SearchOutcome(query: string, topK: nat, svc: Services): Result<seq<SearchResult>, Error>
    {
      if !hasPinecone then Err(PineconeMissing)
      else match QueryEmbedding(query, svc)
        case Err(e) => Err(e)
        case Ok(q) =>
          match svc.queryIndex(indexName, q, topK)
          case Err(m) => Err(ServiceError(m))
          case Ok(matches) => Reshape(query, matches, if hasReranker then Some(svc.rerank) else None)
    }

    /** search(query, top_k). */
    method Search(query: string, topK: nat, svc: Services) returns (r: Result<seq<SearchResult>, Error>)
      ensures r == SearchOutcome(query, topK, svc)
    {
      if !hasPinecone {
        return Err(PineconeMissing);
      }
      var queryEmb := QueryEmbedding(query, svc);
      if queryEmb.Err? {
        return Err(queryEmb.error);
      }
      var results := svc.queryIndex(indexName, queryEmb.value, topK);
      if results.Err? {
        return Err(ServiceError(results.error));
      }
      var matches := results.value;
      var docs := DocTexts(matches);
      if docs.Err? {
        return Err(docs.error);
      }
      if docs.value == [] {
        return Ok([]);
      }
      var finalResults: seq<SearchResult> := [];
      if hasReranker {
        var rerankResults := svc.rerank(RerankModel, query, docs.value, RerankTopN);
        if rerankResults.Err? {
          return Err(ServiceError(rerankResults.error));
        }
        var hits := rerankResults.value;
        for k := 0 to |hits|
          invariant |finalResults| == k
          invariant forall j :: 0 <= j < k ==>
            hits[j].index < |matches| && finalResults[j] == Cite(matches[hits[j].index], hits[j].relevanceScore)
        {
          if hits[k].index >= |matches| {
            return Err(ListIndexOutOfRange);
          }
          var originalMatch := matches[hits[k].index];
          finalResults := finalResults + [Cite(originalMatch, hits[k].relevanceScore)];
        }
        assert forall j :: 0 <= j < |hits| ==> hits[j].index < |matches|;
        assert Reranked(matches, hits).value == finalResults;
      } else {
        for k := 0 to Min(FallbackTopN, |matches|)
          invariant |finalResults| == k
          invariant forall j :: 0 <= j < k ==> finalResults[j] == Cite(matches[j], matches[j].score)
        {
          finalResults := finalResults + [Cite(matches[k], matches[k].score)];
        }
        assert finalResults == TopMatches(matches);
      }
      return Ok(finalResults);
    }

    /** What generate_answer(query, context_chunks) returns or raises. */
    function AnswerOutcome(query: string, chunks: seq<SearchResult>, svc: Services): (r: Result<Answer, Error>)
      ensures r.Ok? ==> r.value.citations == chunks
    {
      match svc.generate(PromptFor(provider, query, chunks))
      case Err(m) => Err(ServiceError(m))
      case Ok(answer) => Ok(Answer(answer, chunks))
    }

    /** generate_answer(query, context_chunks). */
    method GenerateAnswer(query: string, chunks: seq<SearchResult>, svc: Services) returns (r: Result<Answer, Error>)
      ensures r == AnswerOutcome(query, chunks, svc)
    {
      var contextText := "";
      for i := 0 to |chunks|
        invariant contextText == Concat(Blocks(chunks)[..i])
      {
        assert Blocks(chunks)[..i + 1][..i] == Blocks(chunks)[..i];
        contextText := contextText + SourceBlock(i + 1, chunks[i].text);
      }
      assert Blocks(chunks)[..|chunks|] == Blocks(chunks);
      var userPrompt := UserPrompt(query, contextText);
      var prompt := if provider == OpenAI then Chat(OpenAIChatModel, SystemPrompt, userPrompt)
                    else Generate(GeminiChatModel, SystemPrompt + "\n" + userPrompt);
      var response := svc.generate(prompt);
      if response.Err? {
        return Err(ServiceError(response.error));
      }
      return Ok(Answer(response.value, chunks));
    }
  }
}
