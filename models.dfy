/**
 * Records shared by the services and the endpoints: the configuration, the chunk and
 * document records of backend/app/models/documents.py, the payload stored with each
 * vector, and the citation of backend/app/models/responses.py.
 */
module Models {
  import opened Wrappers

  /** The configuration values the core reads (backend/app/config.py). */
  datatype Settings = Settings(
    appPassword: string,
    maxDocuments: int,
    maxPagesPerDocument: int,
    maxFileSizeMb: int,
    chunkSizeTokens: int,
    chunkOverlapTokens: int,
    topKChunks: int,
    minRelevanceScore: real,
    maxDailyQueries: int,
    maxDailyCostUsd: real,
    inputCostPer1k: real,
    outputCostPer1k: real)

  /** The defaults of backend/app/config.py; the password has no default and is a parameter. */
  function DefaultSettings(appPassword: string): Settings {
    Settings(appPassword, 10, 80, 10, 600, 100, 6, 0.10, 100, 1.00, 0.00015, 0.0006)
  }

  /**
   * A chunk of one page of a document. `userId` is not declared on the Python class,
   * but `add_chunks` reads it, so the model carries it.
   */
  datatype Chunk = Chunk(
    chunkId: string,
    documentId: string,
    documentTitle: string,
    userId: string,
    pageNumber: int,
    sectionTitle: Option<string>,
    text: string,
    tokenCount: int)

  /** The result of processing one PDF; `sections` is the set the Python code turns into a list. */
  datatype ProcessedDocument = ProcessedDocument(
    id: string,
    title: string,
    pageCount: int,
    chunks: seq<Chunk>,
    sections: set<string>,
    fileSizeBytes: int)

  /** Per-document metadata rebuilt from the stored chunks. */
  datatype StoredDocument = StoredDocument(
    id: string,
    title: string,
    pageCount: int,
    chunkCount: int,
    sections: seq<string>)

  /**
   * The payload dictionary stored with each vector. Keys that the readers fetch with a
   * default (`payload.get(key, default)`) are `Option`s; `document_id` and `user_id`
   * are always written and are matched by the filters.
   */
  datatype Payload = Payload(
    chunkId: Option<string>,
    documentId: string,
    documentTitle: Option<string>,
    userId: string,
    pageNumber: Option<int>,
    sectionTitle: Option<string>,
    text: Option<string>,
    tokenCount: Option<int>)

  /** One search result: the score merged with the payload. */
  datatype Hit = Hit(score: real, payload: Payload)

  datatype Citation = Citation(
    documentId: string,
    documentTitle: string,
    pageNumber: int,
    sectionTitle: Option<string>,
    textSnippet: string,
    relevanceScore: real)

  /** The field constraint `0 <= relevance_score <= 1` of the citation model. */
  predicate ValidCitation(c: Citation) {
    0.0 <= c.relevanceScore <= 1.0
  }

  /** An `HTTPException`: status code and detail message. */
  datatype HttpError = HttpError(status: int, detail: string)
}
