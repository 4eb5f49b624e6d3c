# Grounded document question answering — a Dafny model of its core

The system answers questions about a few uploaded PDF documents. The answers are grounded in
retrieved passages and carry citations. This project models the parts of the backend with real
logic and proves what they promise:

- the **chunker**: sentence-greedy packing with a whole-sentence overlap, and word packing for
  oversized sentences;
- the **PDF processor** around it: section-title detection, the page loop that builds chunks
  with deterministic ids, the page limit, and the ordered file checks;
- the **vector store**: the tenant filter and score filter of `search`, the per-document
  summaries of `get_all_documents`, `add_chunks`, `delete_by_document` and
  `get_document_count`;
- the **answer assembler**: the numbered context blocks, confidence parsing, token accounting
  and cost;
- the **usage governor** (`CostTracker`), a table of daily counters keyed by day;
- the **query endpoint**: gate, document check, retrieval, answer, usage tracking, refusal and
  warning;
- the **document endpoints**: list, upload, detail and delete;
- the **session table** of the login endpoints: 24-hour expiry;
- the **query request** field constraints.

Each source file is one module:

| file | module | models |
|---|---|---|
| `chunker.dfy` | `Chunker` | `PDFProcessor._split_into_chunks` |
| `pdf_processor.dfy` | `PdfProcessor` | section titles, `process_pdf`, `validate_file` |
| `vector_store.dfy` | `VectorStore` | `VectorStoreService` |
| `llm_service.dfy` | `LlmService` | `LLMService` without the OpenAI client |
| `cost_tracker.dfy` | `CostTracker` | `CostTracker` |
| `query_api.dfy` | `QueryApi` | `query_documents` |
| `documents_api.dfy` | `DocumentsApi` | the `/documents` endpoints |
| `auth_api.dfy` | `AuthApi` | the handlers of `api/auth.py` and its session table (a router the application does not mount) |
| `requests.dfy` | `Requests` | `QueryRequest` |
| `models.dfy`, `text.dfy`, `wrappers.dfy` | `Models`, `Text`, `Wrappers` | records, string helpers, `Option`/`Result` |

Outside services are parameters:

- **Tokenizer**: a total function `string -> nat`. Nothing is assumed about it, not even
  additivity.
- **PDF library**: two outcomes, each either a value or the library's error message. Opening
  the file (`pymupdf.open`) yields the page count. The markdown extraction
  (`pymupdf4llm.to_markdown`) yields the per-page `(metadata, text)` list. Only `process_pdf`
  runs the extraction, so a file can pass `validate_file` and still fail there.
- **Embedding model**: a function `string -> seq<real>`.
- **Qdrant's ranked query**: a `Ranker` over the stored points. Tenant isolation is proved
  under the hypothesis `HonoursFilter`: the ranker returns only stored points that pass the
  filter.
- **OpenAI completion**: an `Option<string>` (the message content, or none).
- **Clock, UUIDs, session tokens and user ids**: parameters of the operations that use them.

State the source mutates in place is modelled as classes:

- `VectorStore.Store` holds the collection as `points: seq<Point>`.
- `CostTracker.Tracker` holds `dailyUsage: map<string, DailyUsage>`.
- `AuthApi.SessionTable` holds `sessions: map<string, Session>`.

Each loop of the source is a method with a `while` or `for` loop, proved equal to a
specification function. The properties are lemmas about those functions:

- the chunker's sentence loop, word loop and overlap walk;
- the page loop;
- the summary loop;
- `_build_context`;
- session cleanup.

Where the system's design description and its code disagree, the model follows the code:

- The context block is `[Source N] title, p.page:` followed by the text. It has no section and
  no relevance percentage.
- `search` keeps the ranker's order: it returns a prefix of the hits above the threshold. It
  does not sort by score itself.
- A chunk id's ordinal is the index in the page's chunk list before blank chunks are dropped,
  so ordinals can have gaps.
- A word longer than the budget is not split. The leftover words of an oversized sentence
  become the live buffer rather than a flushed chunk.
- A low-confidence refusal is still counted by the governor, because `track_query` runs before
  the check.
- The day key is whatever key the caller passes. The source uses the local date, not the UTC
  date.
- As published, the repository is half-way through a move to per-user data. `search` and
  `delete_by_document` require a `user_id` that their callers do not pass, and `add_chunks` reads
  a `user_id` that `Chunk` does not have. The model follows the callees:
  - `Chunk` carries `userId`;
  - the query, upload and delete endpoints take the caller's user id as a parameter;
  - the code as written is modelled too, under "## Findings".
- The `/auth` handlers of `backend/app/api/auth.py` are part of the same unfinished move.
  `backend/app/main.py` imports only the health, documents, query and system routers (line 8)
  and mounts only those (lines 50-53), so login, token validation and logout are not served as
  published. `AuthApi` models the handlers and the session table as they would behave once mounted.

## Model

| member | source | states |
|---|---|---|
| Chunker.SplitIntoChunks | backend/app/services/pdf_processor.py:28-101 | The chunk texts are the rendering of the unit groups of the reference fold (`ChunkUnits`). Whitespace-only text gives no chunks. |
| Chunker.SentenceStep | backend/app/services/pdf_processor.py:49-95 | One turn of the sentence loop moves the loop's chunks, buffer and token count from one state of the reference fold to the next (`Step`). |
| Chunker.OversizedStep | backend/app/services/pdf_processor.py:52-75 | A sentence over the budget flushes the buffer and packs its words exactly as `SplitOversized` says. |
| Chunker.SentencesFrom | backend/app/services/pdf_processor.py:43 | The sentence split always yields at least one piece, as `re.split` does. |
| Chunker.Render | backend/app/services/pdf_processor.py:55-99 | One chunk text per flushed group: each group is joined with single spaces. |
| Chunker.CarryOverlap | backend/app/services/pdf_processor.py:80-89 | The backward walk with `insert(0, s)` and `break` computes `Overlap(current)` and its token sum. |
| Chunker.OverlapFromIsSuffix | backend/app/services/pdf_processor.py:83-87 | The carried overlap is a suffix of the flushed buffer, in its original order. |
| Chunker.OverlapFromFits | backend/app/services/pdf_processor.py:85-87 | A non-empty overlap's summed token count is within the overlap budget. |
| Chunker.OverlapFromIsMaximal | backend/app/services/pdf_processor.py:85-89 | The walk stops only at a unit that would overflow the budget. |
| Chunker.OverflowCarriesOverlap | backend/app/services/pdf_processor.py:76-92 | When a sentence overflows, the buffer is flushed. The next buffer is the maximal fitting suffix of the old one followed by the sentence, and its count is the suffix's sum plus the sentence's count. |
| Chunker.PackLongSentence | backend/app/services/pdf_processor.py:60-75 | The word loop yields the reference packing's emitted groups (rendered) and its leftover group with its count. |
| Chunker.PackWordsKeepsWords | backend/app/services/pdf_processor.py:60-75 | The emitted groups followed by the leftover group give back the words, once each and in order. The leftover group is empty only when there are no words. |
| Chunker.PackWordsWithinBudget | backend/app/services/pdf_processor.py:63-72 | Every emitted word group is non-empty. Its summed `count(word + ' ')` is within `max_tokens` unless it is a single word. |
| Chunker.SplitOversizedKeepsTokensBound | backend/app/services/pdf_processor.py:52-75 | Splitting an oversized sentence keeps the running-count bound. |
| Chunker.FlushWithOverlapKeepsTokensBound | backend/app/services/pdf_processor.py:76-92 | After an overflow, the running count is at most `max_tokens + overlap_tokens`. |
| Chunker.StepKeepsTokensBound | backend/app/services/pdf_processor.py:48-95 | One sentence step preserves the bound: the count is at most `max_tokens + overlap_tokens`, or the buffer is one word that alone exceeds `max_tokens`. |
| Chunker.FoldKeepsTokensBound | backend/app/services/pdf_processor.py:44-95 | The running-count bound holds after every prefix of the sentences. |
| Chunker.FoldKeepsEveryUnit | backend/app/services/pdf_processor.py:48-99 | With no overlap and positive unit counts, the flushed groups and the live buffer flatten back to the sentences. Oversized sentences are replaced by their words. |
| Chunker.ChunkUnitsKeepEveryUnit | backend/app/services/pdf_processor.py:39-99 | With no overlap and positive counts, the groups of a non-blank page flatten to the expanded sentence list. Nothing is dropped or duplicated, and the order is kept. |
| PdfProcessor.FindHeadingFrom | backend/app/services/pdf_processor.py:106 | Finds the first line start at or after a position where the heading pattern matches. No earlier line start matches. |
| PdfProcessor.HeadingStartSound | backend/app/services/pdf_processor.py:106 | A heading found at a line start is a real match of `^#+\s+(.+?)$`. |
| PdfProcessor.HeadingStartGreedy | backend/app/services/pdf_processor.py:106 | The group starts no earlier than in any other match at that line, as the greedy `\s+` leaves it. |
| PdfProcessor.HeadingTextFindsEveryMatch | backend/app/services/pdf_processor.py:106-107 | Whenever the heading pattern matches anywhere, a heading is found. |
| PdfProcessor.HeadingTextIsFirstMatch | backend/app/services/pdf_processor.py:106-108 | The heading found is the group of the leftmost match, running to the end of its line. |
| PdfProcessor.BoldEndFrom | backend/app/services/pdf_processor.py:111 | The scan for the closing `**` finds the first closing position at or after a point. |
| PdfProcessor.BoldTextIsShortestMatch | backend/app/services/pdf_processor.py:111-113 | The bold run is found exactly when `^\*\*(.+?)\*\*` matches, and it is the shortest match. |
| PdfProcessor.SectionTitlePrecedence | backend/app/services/pdf_processor.py:103-115 | A heading anywhere wins over a leading bold run, and no match gives none. The title exists exactly when one of the patterns matches, and it is stripped. |
| PdfProcessor.ExtractSectionTitle | backend/app/services/pdf_processor.py:103-115 | A title found carries no surrounding whitespace. `SectionTitlePrecedence` states which pattern supplies it. |
| PdfProcessor.ChunkIdInjective | backend/app/services/pdf_processor.py:194 | Within a document, `{doc_id}_p{page}_c{i}` determines the page and the ordinal. |
| PdfProcessor.NonBlankIndicesShape | backend/app/services/pdf_processor.py:187-191 | The kept piece indices are increasing and point at non-blank pieces. Every non-blank piece is kept. |
| PdfProcessor.PageChunksByIndex | backend/app/services/pdf_processor.py:187-202 | A page's chunks are exactly its non-blank pieces, each built with the piece's own index. |
| PdfProcessor.PageChunksDistinct | backend/app/services/pdf_processor.py:187-202 | A page's chunks have distinct ids. Each is stripped and non-empty, counts its own text, and carries the page's number and section title. |
| PdfProcessor.PageDataChunksShape | backend/app/services/pdf_processor.py:166-202 | The chunks of one page record have distinct ids and well-formed fields, and carry that page's number. |
| PdfProcessor.DocumentChunksShape | backend/app/services/pdf_processor.py:163-202 | Every chunk of the document is well formed and comes from one of its pages. |
| PdfProcessor.DocumentChunkIdsDistinct | backend/app/services/pdf_processor.py:166-202 | When page numbers are distinct, chunk ids are unique across the document. |
| PdfProcessor.ChunkPage | backend/app/services/pdf_processor.py:187-202 | The inner loop builds exactly the page's reference chunk list. |
| PdfProcessor.ChunkPageData | backend/app/services/pdf_processor.py:180-202 | A non-blank page's split and inner loop give exactly that page's reference chunks. |
| PdfProcessor.AssembleChunks | backend/app/services/pdf_processor.py:163-202 | The page loop builds the reference chunk list and the set of detected section titles. |
| PdfProcessor.ReplaceAllRemoves | backend/app/services/pdf_processor.py:138 | Replacing a character by a text without it leaves none of that character. |
| PdfProcessor.DocumentTitle | backend/app/services/pdf_processor.py:138 | A non-empty custom title is used as given. Otherwise the title is derived from the file name and has no underscore. |
| PdfProcessor.ProcessPdf | backend/app/services/pdf_processor.py:117-211 | A failure to open propagates. Too many pages fails with the page-limit message before anything is extracted. A failing extraction propagates its error. Otherwise the result is the document's reference chunks, sections, page count and size. |
| PdfProcessor.FormatMb | backend/app/services/pdf_processor.py:231 | `{size_mb:.1f}` is digits, a dot and one digit. |
| PdfProcessor.FormatMbWhole | backend/app/services/pdf_processor.py:231 | A size of exactly m mebibytes prints as m followed by `.0`. |
| PdfProcessor.ValidateFile | backend/app/services/pdf_processor.py:213-252 | Returns `(True, "OK")` exactly when the name ends in `.pdf` in any case, the size is within the limit, and the file opens with between 1 and the maximum pages. The checks run in the source's order: extension, size, opening, page limit, zero pages. Each rejection is stated under the earlier checks passing, with its own message: "Only PDF files are accepted", "File too large (x.yMB). Maximum: NMB", "Invalid PDF file: " plus the library's message, "Document has N pages. Maximum: M", "PDF has no pages". |
| PdfProcessor.UppercaseExtensionAccepted | backend/app/services/pdf_processor.py:225 | A `.PDF` name passes the extension check. |
| VectorStore.SearchFilter | backend/app/services/vector_store.py:133-155 | A payload passes exactly when its user id is the caller's and, for a non-empty id list, its document id is in the list. |
| VectorStore.AboveScore | backend/app/services/vector_store.py:166-174 | Keeps exactly the hits scoring at least `min_score`. |
| VectorStore.Search | backend/app/services/vector_store.py:112-176 | At most `limit` hits, all scoring at least `min_score`, forming the prefix of the threshold-filtered `2*limit` ranked hits. |
| VectorStore.SearchIsolated | backend/app/services/vector_store.py:133-176 | With a ranker that honours its filter, every hit is a stored point of the caller. It is in the requested documents whenever a non-empty list is given. |
| VectorStore.Matching | backend/app/services/vector_store.py:195-203 | A scroll returns only payloads that pass the filter. |
| VectorStore.MatchingSound | backend/app/services/vector_store.py:195-203 | Every scrolled payload belongs to a stored point. |
| VectorStore.MatchingComplete | backend/app/services/vector_store.py:195-203 | Every stored point that passes the filter is scrolled. |
| VectorStore.UserFilter | backend/app/services/vector_store.py:242-251 | A missing or empty user id means no restriction; otherwise the user id must match. |
| VectorStore.DocumentFilter | backend/app/services/vector_store.py:180-193 | The document id must match, and the user id too when one is given. |
| VectorStore.DeleteFilter | backend/app/services/vector_store.py:217-231 | The delete selects exactly the points of that document and that user. |
| VectorStore.DocumentPayloads | backend/app/services/vector_store.py:178-203 | `get_document_chunks` returns the first 1000 matching payloads in the order of `points`, which stands for Qdrant's id order. |
| VectorStore.Without | backend/app/services/vector_store.py:217-233 | After a delete, a point remains exactly when it did not pass the delete filter. |
| VectorStore.WithoutPartitions | backend/app/services/vector_store.py:205-235 | Each point is either removed or kept. |
| VectorStore.FirstSeenOrderMembers | backend/app/services/vector_store.py:267-278 | The dictionary's keys are exactly the document ids seen. |
| VectorStore.FirstSeenOrderDistinct | backend/app/services/vector_store.py:271-278 | Each document id is listed once. |
| VectorStore.FirstSeenOrderOrdered | backend/app/services/vector_store.py:271-293 | Documents are listed in the order of their first payload, as dictionary insertion order gives. |
| VectorStore.MaxPageSpec | backend/app/services/vector_store.py:282-284 | A page count is at least 0 and every page number, and it is 0 or one of them. |
| VectorStore.SectionKeysSpec | backend/app/services/vector_store.py:286-288 | The candidate sections are the non-empty section titles of the document's payloads. |
| VectorStore.Summaries | backend/app/services/vector_store.py:293 | One summary per distinct document id. |
| VectorStore.SummariesPerDocument | backend/app/services/vector_store.py:267-293 | Summary i is document i's summary. Every scrolled document is listed once, in first-seen order. |
| VectorStore.SummaryTitle | backend/app/services/vector_store.py:271-278 | The title comes from the document's first payload and defaults to "Unknown". |
| VectorStore.SummaryChunkCount | backend/app/services/vector_store.py:280-281 | `chunk_count` is the number of the document's payloads. |
| VectorStore.SummaryPageCount | backend/app/services/vector_store.py:282-284 | `page_count` is the maximum of 0 and the page numbers, with a missing number read as 0. |
| VectorStore.SummarySections | backend/app/services/vector_store.py:286-288 | The sections are the distinct non-empty titles, in first-seen order. |
| VectorStore.SummarySnoc | backend/app/services/vector_store.py:271-288 | One more payload updates its own document's summary. A fresh summary is made on the first one, as the loop body does. |
| VectorStore.DocumentCount | backend/app/services/vector_store.py:295-297 | The count is the number of summaries listed. |
| VectorStore.DocumentCountZeroIff | backend/app/services/vector_store.py:295-297 | The count is zero exactly when no stored point belongs to the user. |
| VectorStore.ChunkOf | backend/app/services/vector_store.py:91-100 | A payload reads back as a chunk exactly when every chunk field is present. |
| VectorStore.PayloadRoundTrip | backend/app/services/vector_store.py:91-100 | A chunk's payload reads back as that chunk. |
| VectorStore.NewPoints | backend/app/services/vector_store.py:87-103 | One point per chunk, carrying that chunk's fields and its own embedding. |
| VectorStore.Store.constructor | backend/app/services/vector_store.py:20-44 | A store over a newly created collection holds no points. |
| VectorStore.Store.AddChunks | backend/app/services/vector_store.py:66-110 | A length mismatch fails with the store unchanged. No chunks gives 0. Otherwise the count is the number of chunks and their points are appended. |
| VectorStore.Store.DeleteByDocument | backend/app/services/vector_store.py:205-235 | Returns the size of the pre-delete scroll of that document and user. Only when it is positive are that user's points of the document removed. |
| VectorStore.Store.GetAllDocuments | backend/app/services/vector_store.py:237-293 | The loop over the scrolled payloads yields the reference summaries. |
| VectorStore.Store.AddPayload | backend/app/services/vector_store.py:268-288 | One payload creates its document's summary on first sight and then absorbs into it. The document's id joins the order only when new. |
| VectorStore.Store.AggregateDocuments | backend/app/services/vector_store.py:267-293 | The loop over the scrolled payloads builds exactly the reference summaries, in first-seen order. |
| VectorStore.Store.UpdateSummary | backend/app/services/vector_store.py:280-288 | One payload adds one chunk, raises the page count to its page number, and appends a new non-empty section title. |
| VectorStore.Store.GetDocumentCount | backend/app/services/vector_store.py:295-297 | The number of documents listed for the user. |
| LlmService.SourceBlocks | backend/app/services/llm_service.py:49-57 | One block per chunk, numbered from 1 in input order. |
| LlmService.BuildContext | backend/app/services/llm_service.py:45-59 | The loop joins the numbered blocks with blank lines. |
| LlmService.BlockHoldsText | backend/app/services/llm_service.py:53-57 | A source block contains its chunk's text, or "" when the text is missing. |
| LlmService.ContextCarriesSources | backend/app/services/llm_service.py:45-59 | No chunks gives "". Otherwise the context contains every block and every chunk text. |
| LlmService.FindMarkerFrom | backend/app/services/llm_service.py:66 | A marker found is the one matched at some offset with no match before it. Nothing is found exactly when no offset from the start to the end matches. |
| LlmService.FindMarkerFromIsLeftmost | backend/app/services/llm_service.py:66-68 | The leftmost match of the marker pattern (`confidence:`, optional spaces, then high, medium or low) is the one found. |
| LlmService.ParseConfidence | backend/app/services/llm_service.py:61-77 | Without a marker, "cannot find sufficient" or "insufficient" gives low. Otherwise "clearly" or "explicitly" gives high, and anything else gives medium. The result is always one of the three. |
| LlmService.MarkerOverrides | backend/app/services/llm_service.py:63-68 | The first explicit marker in the lower-cased text decides, whatever the heuristics would say. |
| LlmService.HeuristicsWithoutMarker | backend/app/services/llm_service.py:70-77 | The three heuristic rules apply in their order when no marker is present. |
| LlmService.ParseConfidenceIgnoresCase | backend/app/services/llm_service.py:63 | Parsing is case-insensitive. |
| LlmService.CostMonotone | backend/app/services/llm_service.py:131-134 | With non-negative rates, the cost is non-negative and grows with both token counts. |
| LlmService.Cost | backend/app/services/llm_service.py:131-134 | No tokens cost nothing. With non-negative rates, the cost is non-negative. |
| LlmService.GenerateAnswer | backend/app/services/llm_service.py:79-145 | No chunks gives the fixed answer: low, 0/0 tokens, cost 0.0. Otherwise the answer is the completion or "". Input tokens count the system prompt plus the user prompt, and output tokens count the answer. The cost is computed at the configured rates, and the confidence is parsed from the answer. |
| LlmService.PromptCarriesSources | backend/app/services/llm_service.py:103-114 | The counted prompt contains every retrieved chunk's text. |
| LlmService.UserPrompt | backend/app/services/llm_service.py:105-110 | The prompt starts with "Question: " and the question, contains the context, and ends with the answering instructions. |
| CostTracker.RecordFor | backend/app/utils/cost_tracker.py:21-32 | A day seen before gets its stored record. A new day gets all counters at zero. |
| CostTracker.RecordAfterRemoval | backend/app/utils/cost_tracker.py:89-93 | After a reset, the day starts again from zero. Other days keep their records. |
| CostTracker.RoundCents | backend/app/utils/cost_tracker.py:47 | `.2f` rounding is within half a cent. |
| CostTracker.FormatUsdExact | backend/app/utils/cost_tracker.py:47 | A whole number of cents prints exactly, as dollars, a dot and two digits. |
| CostTracker.FormatUsd | backend/app/utils/cost_tracker.py:47 | `:.2f` ends in a dot and two digits, and starts with `-` exactly for a negative amount. |
| CostTracker.Admission | backend/app/utils/cost_tracker.py:41-49 | Allowed exactly when both counters are below their limits. The query-limit reason takes precedence over the cost-limit reason, and "OK" is returned when allowed. |
| CostTracker.Tracked | backend/app/utils/cost_tracker.py:68-73 | One more query, and exactly the given amounts added; the start time is kept. |
| CostTracker.TrackAll | backend/app/utils/cost_tracker.py:68-73 | A sequence of tracked queries adds its length to the query count. |
| CostTracker.TrackAllGrows | backend/app/utils/cost_tracker.py:68-73 | With non-negative inputs, tokens and cost never shrink. |
| CostTracker.DeniedStaysDenied | backend/app/utils/cost_tracker.py:43-47 | Once a day is denied, it stays denied under any non-negative tracking. |
| CostTracker.Tracker.constructor | backend/app/utils/cost_tracker.py:12-15 | Starts with no day records. |
| CostTracker.Tracker.GetTodayUsage | backend/app/utils/cost_tracker.py:21-32 | Creates today's zero record on first access and returns the stored record. Other days are untouched. |
| CostTracker.Tracker.CanProcessQuery | backend/app/utils/cost_tracker.py:34-49 | The decision is `Admission` on today's record. At most today's zero record appears, and no counter changes. |
| CostTracker.Tracker.TrackQuery | backend/app/utils/cost_tracker.py:51-73 | Today's record becomes `Tracked` of the old one and is returned. Other days are untouched. |
| CostTracker.Tracker.GetUsageStats | backend/app/utils/cost_tracker.py:75-87 | Reports the period as today's key, the token total as input plus output, and the limits. |
| CostTracker.Tracker.ResetDailyUsage | backend/app/utils/cost_tracker.py:89-93 | Removes only today's key. |
| Requests.Violations | backend/app/models/requests.py:9-20 | Each length and range constraint is reported exactly when it is broken. |
| Requests.ParseQueryRequest | backend/app/models/requests.py:6-20 | The body is accepted exactly when the question has 10–500 characters and `max_citations`, defaulting to 5, lies in 1–10. `document_ids` defaults to none. |
| Requests.DefaultsAreValid | backend/app/models/requests.py:15-20 | Omitting both optional fields is valid and gives 5 citations with no id list. |
| Requests.QuestionLengthEnforced | backend/app/models/requests.py:9-14 | A question shorter than 10 or longer than 500 characters is refused. |
| QueryApi.CitationOf | backend/app/api/query.py:89-96 | A citation keeps the chunk's document id and score, and its snippet is the first 500 characters. |
| QueryApi.Citations | backend/app/api/query.py:88-98 | One citation per chunk, in order. Each snippet is a prefix of at most 500 characters, and the whole text when shorter. |
| QueryApi.RetrievalTokensBound | backend/app/api/query.py:153 | With non-negative counts, the sum is non-negative and at least each chunk's count. |
| QueryApi.RetrievalTokensConcat | backend/app/api/query.py:153 | The retrieval token sum is additive over concatenation. |
| QueryApi.RetrievalTokens | backend/app/api/query.py:153 | With non-negative counts, the total is non-negative. |
| QueryApi.Warning | backend/app/api/query.py:156-160 | Low gives the low-confidence text and medium the verification text. There is no warning exactly for high. |
| QueryApi.NoContextAnswerIsRefused | backend/app/api/query.py:133-137 | The assembler's no-context answer would itself be caught by the low-confidence refusal. |
| QueryApi.OutcomeOrder | backend/app/api/query.py:49-114 | Checks run in order: a denial gives 429 with the tracker's reason, no documents gives 400, and no chunks gives 422 `no_relevant_chunks` with empty context. Only then is the answer used. |
| QueryApi.UsageRecordedIffLlmAnswered | backend/app/api/query.py:116-150 | Usage is recorded exactly when the answer step runs: on success or a low-confidence refusal, never on an earlier exit. |
| QueryApi.LowConfidenceKeepsContext | backend/app/api/query.py:132-150 | A self-reported insufficient answer becomes a 422 `low_confidence` whose partial context is all citations. |
| QueryApi.AnsweredShape | backend/app/api/query.py:132-179 | Refused exactly when the answer self-reports insufficiency. Otherwise the response carries all citations, the assembler's tokens and cost, and a warning except for high. |
| QueryApi.CitationsIsolated | backend/app/api/query.py:79-98 | With an honest ranker, every citation is of the caller's own chunk and within the requested documents. |
| QueryApi.QueryDocuments | backend/app/api/query.py:46-179 | The outcome is `Outcome` of admission, stored documents, hits and answer. Today's usage is tracked exactly when the answer step runs, and untouched otherwise apart from creating today's record. |
| QueryApi.CheckStoredAndAnswer | backend/app/api/query.py:64-179 | After admission, no documents gives 400 with usage untouched. Otherwise this is retrieval and answering. |
| QueryApi.RetrieveAndAnswer | backend/app/api/query.py:72-179 | No hits gives 422 `no_relevant_chunks` with usage untouched. Otherwise the answer is tracked and classified. |
| QueryApi.AnswerAndTrack | backend/app/api/query.py:116-179 | The answer is tracked once and then classified. |
| QueryApi.QueryDocumentsAsWritten | backend/app/api/query.py:46-84 | As written, `search` is called without its required `user_id`, so an admitted query over stored documents fails with 500 and is never tracked. |
| DocumentsApi.ListDocuments | backend/app/api/documents.py:31-60 | Lists every document's summary. `total` is their number, and `limit_reached` holds exactly when `total >= max_documents`. |
| DocumentsApi.UploadName | backend/app/api/documents.py:100 | A missing or empty file name becomes "document.pdf". |
| DocumentsApi.Embeddings | backend/app/api/documents.py:126-127 | One embedding per chunk. |
| DocumentsApi.ProcessFailureReply | backend/app/api/documents.py:112-123 | A failed `process_pdf` gives 400. The page-limit `ValueError` keeps its own text as the detail. Any other error's text is prefixed with "Failed to process PDF: ". |
| DocumentsApi.UploadDocument | backend/app/api/documents.py:74-142 | The document limit gives 409 before the file is looked at. A validation failure gives 400 with the validator's message. After validation passes, a failing extraction gives 400 "Failed to process PDF: " plus the library's message. Otherwise the chunks are stored, and the response reports their number, the title, pages and sections. The store changes only on success. |
| DocumentsApi.UploadedPointsBelongToUploader | backend/app/services/vector_store.py:87-103 | Every stored point of an upload carries the document id and the uploader's user id. The uploader's search may return it, and the uploader's delete removes it. |
| DocumentsApi.UploadDocumentAsWritten | backend/app/services/vector_store.py:95 | As written, `add_chunks` reads a `user_id` that chunks do not have. The 409, the validation 400 and the extraction 400 come first, as in the corrected upload. After them, any upload with at least one chunk fails with 500 and stores nothing. |
| DocumentsApi.Preview | backend/app/api/documents.py:181 | The text itself up to 100 characters. Otherwise its first 100 characters followed by "...". |
| DocumentsApi.MaxPageNumber | backend/app/api/documents.py:191 | The page count is at least every page number, with a missing one read as 0, and equal to one of them. |
| DocumentsApi.DetailSections | backend/app/api/documents.py:194-198 | The sections are exactly the distinct non-empty section titles. |
| DocumentsApi.GetDocument | backend/app/api/documents.py:154-207 | 404 exactly when there are no chunks. Otherwise the title comes from the first chunk ("Unknown" when missing). There is one summary per chunk in order, and the page count is the maximum page number. The sections are exactly the distinct non-empty section titles of the chunks. |
| DocumentsApi.DeleteDocument | backend/app/api/documents.py:219-245 | An unknown document gives 404 with the store unchanged. Otherwise it succeeds with `delete_by_document`'s count, and the caller's points of the document are removed when that count is positive. |
| DocumentsApi.ForeignDeleteRemovesNothing | backend/app/services/vector_store.py:212-216 | A delete by a user owning no point of the document counts zero, so nothing is removed. |
| DocumentsApi.DeleteDocumentAsWritten | backend/app/api/documents.py:228-239 | As written, `delete_by_document` is called without `user_id`. An unknown document gives 404, and an existing one fails with 500 and is never deleted. |
| AuthApi.Live | backend/app/api/auth.py:41-47 | Exactly the sessions no more than 86400 seconds old remain, with their records. |
| AuthApi.ExactLifetimeIsKept | backend/app/api/auth.py:16 | A session exactly 86400 seconds old is kept. |
| AuthApi.LiveIdempotent | backend/app/api/auth.py:41-47 | A second cleanup at the same time removes nothing. |
| AuthApi.LiveShrinksOverTime | backend/app/api/auth.py:41-47 | A later cleanup subsumes an earlier one, and live sessions only disappear over time. |
| AuthApi.NewSessionLasts | backend/app/api/auth.py:62-71 | A session created at login stays live, with its user id, for a full 24 hours. |
| AuthApi.SessionTable.constructor | backend/app/api/auth.py:15 | The table starts empty. |
| AuthApi.SessionTable.CleanupExpiredSessions | backend/app/api/auth.py:41-47 | Collecting the expired tokens and deleting them one by one leaves `Live` of the old table. |
| AuthApi.SessionTable.Login | backend/app/api/auth.py:55-83 | The right password inserts the session, cleans up and returns the token and user id, and the new session survives. A wrong password gives 401 with the table unchanged. |
| AuthApi.SessionTable.ValidateToken | backend/app/api/auth.py:86-96 | After cleanup, valid exactly when the token was present and not expired. |
| AuthApi.SessionTable.Logout | backend/app/api/auth.py:99-107 | Removes only that token, whether or not it was present, and always reports success. |
| AuthApi.LogoutIdempotent | backend/app/api/auth.py:104-107 | Logging out twice equals logging out once. |
| AuthApi.SessionTable.GetUserIdFromToken | backend/app/api/auth.py:110-137 | Cleans up first. A missing header gives 401 "Missing…", and an unknown or expired token gives 401 "Invalid or expired…". Otherwise the session's user id is returned. |

## Left out

- Tokenizer, PDF library, embedding model, Qdrant ranking and the OpenAI call: foreign libraries, modelled as parameters. Failures of the embedding model, Qdrant or OpenAI are not modelled: the model's services always answer.
- `_ensure_collection`, `is_healthy`, `get_total_chunk_count`, `embedding_service.py`, `health.py`, `system.py`, `main.py`, `config.py`: wiring and probes with no logic of their own. `config.py`'s defaults appear as `Models.DefaultSettings`.
- `auth.py` (`verify_api_key`), which guards every endpoint: one string comparison. Every endpoint is modelled after it has passed.
- Scroll pagination in `get_all_documents`: the scroll is one pass over all matching points in the order of `points`, so the 100-point pages are not modelled.
- VectorStore.Store.AddChunks: appends new points at the end of `points`, which fixes an order the source leaves to chance. Qdrant's `scroll` (`backend/app/services/vector_store.py:195-201`, `255-262`) returns points sorted by point id, and the ids are random `uuid4` values (`vector_store.py:88`). The model's `points` sequence stands for that id order. Appending is a simplification: in the source a new point lands at a random place in the id order. The order-dependent results are therefore pinned down only relative to the sequence, not to upload order. This covers the order of listed documents, the order of a document's chunks in `get_document`, the order of `StoredDocument.sections`, and which 1000 chunks `get_document_chunks` keeps. The properties that do not depend on order hold for any arrangement of `points`. These are membership, counts, isolation and the set of sections.
- Floating point: costs, scores, rates and timestamps are `real`, and float rounding is ignored. `f"{size_mb:.1f}"` and `f"{x:.2f}"` use exact ties-to-even rounding.
- Timings (`processing_time_ms` and the query timings), `uploaded_at` and `file_size_bytes` in listings: they come from the clock or are never filled in.
- Concurrency, locking and the `get_*` singletons: the model is sequential.
- Regular expressions are hand-written scanners for the three patterns used. `\s` and `.strip()`/`.split()` use ASCII whitespace, and `.lower()` is ASCII lower-casing.
- The `0 ≤ relevance_score ≤ 1` bound of `Citation` is a predicate (`Models.ValidCitation`) that nothing enforces, because scores come from the ranker.
- Pydantic's error texts: a refused request body is a list of broken constraints (`Requests.FieldError`).
- `_cleanup_expired_sessions` iterates over a set of expired tokens, not a list; deletion order does not change the result.
- DocumentsApi.UploadDocument: the `ValueError` branch of `upload_document` (`backend/app/api/documents.py:114-118`) cannot be reached in the model. Its only source is `process_pdf`'s page limit, and `validate_file` has already rejected that page count from the same opening. `ProcessFailureReply` still states the reply the branch gives. A failure to open cannot reach `process_pdf` either, for the same reason. The library's errors are all taken to be non-`ValueError` exceptions, so they go to the generic branch (lines 119-123).
- VectorStore.Store.constructor: `__init__` attaches to a Qdrant collection that persists (`backend/app/services/vector_store.py:23-28`). `_ensure_collection` (lines 30-44) creates the collection only when it is missing. A service started over an existing collection therefore sees every point already stored there, while the constructor's empty `points` stands only for a newly created collection. Every other operation of `Store` accepts any `points`, so the results about them hold for an existing collection too.

## Findings

| source | as written | input that shows it | evidently intended | confidence | as-written member | corrected member |
|---|---|---|---|---|---|---|
| backend/app/api/query.py:79-84 | `search` is called without its required `user_id` argument | any admitted query while at least one document is stored: the call raises `TypeError`, giving 500 | search within the caller's own documents | not executed | QueryApi.QueryDocumentsAsWritten | QueryApi.QueryDocuments |
| backend/app/api/documents.py:239 | `delete_by_document` is called without its required `user_id` argument | deleting any existing document: the call raises `TypeError`, so the document is never deleted | delete the caller's chunks of the document and report their number | not executed | DocumentsApi.DeleteDocumentAsWritten | DocumentsApi.DeleteDocument |
| backend/app/services/vector_store.py:95 | `add_chunks` reads `chunk.user_id`, but `Chunk` (`backend/app/models/documents.py:7-16`) has no such field | uploading any PDF with one non-blank page: `AttributeError`, 500, nothing stored | each chunk carries the uploader's user id, which is written to the payload | not executed | DocumentsApi.UploadDocumentAsWritten | DocumentsApi.UploadDocument |
