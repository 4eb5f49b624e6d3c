/**
 * The question-answering endpoint of backend/app/api/query.py: the usage gate, the
 * no-documents check, retrieval, the citations, the two insufficient-evidence refusals and
 * the usage record. The embedding model, the ranking and the chat completion are
 * parameters; the usage tracker is the one piece of state the endpoint changes.
 */
module QueryApi {
  import opened Wrappers
  import opened Text
  import opened Models
  import opened Chunker
  import opened VectorStore
  import opened LlmService
  import opened CostTracker
  import opened Requests

  const SnippetLength: nat := 500

  /** The citation for one search hit, with the defaults of the endpoint. */
  function CitationOf(h: Hit): (c: Citation)
    ensures c.documentId == h.payload.documentId && c.relevanceScore == h.score
    ensures c.textSnippet == Take(h.payload.text.GetOr(""), SnippetLength)
  {
    Citation(h.payload.documentId, h.payload.documentTitle.GetOr("Unknown"), h.payload.pageNumber.GetOr(0),
             h.payload.sectionTitle, Take(h.payload.text.GetOr(""), SnippetLength), h.score)
  }

  /** One citation per hit, in ranking order, each snippet the first 500 characters of the hit's text. */
  function Citations(hits: seq<Hit>): (cs: seq<Citation>)
    ensures |cs| == |hits|
    ensures forall i :: 0 <= i < |hits| ==>
      && cs[i].documentId == hits[i].payload.documentId
      && cs[i].relevanceScore == hits[i].score
      && |cs[i].textSnippet| <= SnippetLength && |cs[i].textSnippet| <= |hits[i].payload.text.GetOr("")|
      && cs[i].textSnippet == hits[i].payload.text.GetOr("")[..|cs[i].textSnippet|]
      && (|hits[i].payload.text.GetOr("")| <= SnippetLength ==> cs[i].textSnippet == hits[i].payload.text.GetOr(""))
  {
    seq(|hits|, i requires 0 <= i < |hits| => CitationOf(hits[i]))
  }

  /** The retrieval token total: the sum of the hits' token counts, a missing count read as 0. */
  function RetrievalTokens(hits: seq<Hit>): (r: int)
    ensures (forall i :: 0 <= i < |hits| ==> hits[i].payload.tokenCount.GetOr(0) >= 0) ==> r >= 0
  {
    if hits == [] then 0 else RetrievalTokens(hits[..|hits| - 1]) + hits[|hits| - 1].payload.tokenCount.GetOr(0)
  }

  /** With counts that are never negative, the total bounds every hit's count. */
  lemma {:induction false} RetrievalTokensBound(hits: seq<Hit>)
    requires forall i :: 0 <= i < |hits| ==> hits[i].payload.tokenCount.GetOr(0) >= 0
    ensures RetrievalTokens(hits) >= 0
    ensures forall i :: 0 <= i < |hits| ==> RetrievalTokens(hits) >= hits[i].payload.tokenCount.GetOr(0)
  {
    if hits != [] {
      var init := hits[..|hits| - 1];
      RetrievalTokensBound(init);
      assert forall i :: 0 <= i < |init| ==> init[i] == hits[i];
    }
  }

  /** The totals add: retrieving `a` then `b` counts the tokens of both. */
  lemma {:induction false} RetrievalTokensConcat(a: seq<Hit>, b: seq<Hit>)
    ensures RetrievalTokens(a + b) == RetrievalTokens(a) + RetrievalTokens(b)
    decreases |b|
  {
    if b != [] {
      assert (a + b)[..|a + b| - 1] == a + b[..|b| - 1];
      RetrievalTokensConcat(a, b[..|b| - 1]);
    } else {
      assert a + b == a;
    }
  }

  const LowConfidenceWarning := "The answer has low confidence. Please verify with the source documents."
  const MediumConfidenceWarning := "Some parts of this answer may require additional verification."

  /** The warning shown with an answer: one per level below high. */
  function Warning(c: Confidence): (w: Option<string>)
    ensures w.None? <==> c == High
    ensures c == Low ==> w == Some(LowConfidenceWarning)
    ensures c == Medium ==> w == Some(MediumConfidenceWarning)
  {
    match c
    case Low => Some(LowConfidenceWarning)
    case Medium => Some(MediumConfidenceWarning)
    case High => None
  }

  /** The answer admits it found nothing: low confidence and one of the two insufficiency phrases. */
  predicate SelfReportsInsufficiency(a: Answer) {
    var lower := Lower(a.answer);
    a.confidence == Low && (Contains(lower, CannotFindSufficient) || Contains(lower, "insufficient information"))
  }

  /** The fixed no-context answer is always refused as insufficient evidence. */
  lemma NoContextAnswerIsRefused()
    ensures SelfReportsInsufficiency(Answer(NoContextAnswer, Low, 0, 0, 0.0))
  {
    assert Lower(CannotFindSufficient) == CannotFindSufficient;
    LowerAppend("I " + CannotFindSufficient, NoContextAnswerTail);
    LowerAppend("I ", CannotFindSufficient);
    StartsAtRight(Lower("I "), CannotFindSufficient, 0, CannotFindSufficient);
    StartsAtLeft(Lower("I ") + CannotFindSufficient, Lower(NoContextAnswerTail), 2, CannotFindSufficient);
  }

  datatype Reason = NoRelevantChunks | LowConfidence

  const NoAnswerMessage := "Unable to answer this question based on available documents."
  const NoDocumentsMessage := "No documents uploaded. Please upload a PDF document first."

  function ReasonCode(r: Reason): string {
    match r
    case NoRelevantChunks => "no_relevant_chunks"
    case LowConfidence => "low_confidence"
  }

  const NoRelevantChunksSuggestions: seq<string> :=
    ["Try rephrasing your question",
     "Ensure the documents contain information about this topic",
     "Ask about topics covered in the uploaded documents"]

  const LowConfidenceSuggestions: seq<string> :=
    ["The documents may not contain information about this specific topic",
     "Try asking a more specific question",
     "Check if the relevant document is uploaded"]

  function Suggestions(r: Reason): seq<string> {
    match r
    case NoRelevantChunks => NoRelevantChunksSuggestions
    case LowConfidence => LowConfidenceSuggestions
  }

  /** The failures of the endpoint: a plain HTTP error, or the 422 insufficient-evidence body. */
  datatype QueryFailure =
    | Refused(error: HttpError)
    | InsufficientEvidence(message: string, reason: Reason, suggestions: seq<string>, partialContext: seq<Citation>)

  function Insufficient(r: Reason, partialContext: seq<Citation>): QueryFailure {
    InsufficientEvidence(NoAnswerMessage, r, Suggestions(r), partialContext)
  }

  /** The status code each failure is sent with. */
  function Status(f: QueryFailure): int {
    match f
    case Refused(e) => e.status
    case InsufficientEvidence(_, _, _, _) => 422
  }

  datatype QueryUsage = QueryUsage(retrievalTokens: int, llmInputTokens: nat, llmOutputTokens: nat, estimatedCostUsd: real)

  datatype QueryResponse = QueryResponse(answer: string, citations: seq<Citation>, confidence: string,
                                         usage: QueryUsage, warning: Option<string>)

  /** The number of distinct documents stored, of every user (`get_document_count()` without a user). */
  function StoredDocuments(points: seq<Point>): nat {
    DocumentCount(points, None)
  }

  /** How many hits to ask for: the request's citation count when it is non-zero, else the configured default. */
  function SearchLimit(request: QueryRequest, settings: Settings): int {
    if request.maxCitations != 0 then request.maxCitations else settings.topKChunks
  }

  /** The hits the endpoint retrieves for the caller `userId`. */
  function Retrieved(points: seq<Point>, rank: Ranker, embed: string -> seq<real>, userId: string,
                     request: QueryRequest, settings: Settings): seq<Hit>
    requires ValidQueryRequest(request)
  {
    Search(points, rank, embed(request.question), userId, SearchLimit(request, settings) as nat,
           request.documentIds, settings.minRelevanceScore)
  }

  /** What the endpoint answers once the LLM step has produced `a` for the non-empty `hits`. */
  function Answered(hits: seq<Hit>, a: Answer): Result<QueryResponse, QueryFailure> {
    if SelfReportsInsufficiency(a) then Failure(Insufficient(LowConfidence, Citations(hits)))
    else Success(QueryResponse(a.answer, Citations(hits), ConfidenceName(a.confidence),
                               QueryUsage(RetrievalTokens(hits), a.inputTokens, a.outputTokens, a.costUsd),
                               Warning(a.confidence)))
  }

  /** The response of the endpoint, by the order of its checks: gate, stored documents, retrieval, answer. */
  function Outcome(admission: (bool, string), stored: nat, hits: seq<Hit>, a: Answer): Result<QueryResponse, QueryFailure> {
    if !admission.0 then Failure(Refused(HttpError(429, admission.1)))
    else if stored == 0 then Failure(Refused(HttpError(400, NoDocumentsMessage)))
    else if hits == [] then Failure(Insufficient(NoRelevantChunks, []))
    else Answered(hits, a)
  }

  /** The answer step ran: admitted, something stored, something retrieved. */
  predicate ReachesLlm(admission: (bool, string), stored: nat, hits: seq<Hit>) {
    admission.0 && stored > 0 && hits != []
  }

  /** Today's record after the request: one tracked query exactly when the answer step ran. */
  function UsageAfter(u: DailyUsage, admission: (bool, string), stored: nat, hits: seq<Hit>, a: Answer): DailyUsage {
    if ReachesLlm(admission, stored, hits) then Tracked(u, a.inputTokens, a.outputTokens, a.costUsd) else u
  }

  /**
   * The checks run in order and the first that fails decides: 429 with the tracker's reason,
   * 400 without stored documents, 422 `no_relevant_chunks` with no partial context.
   */
  lemma OutcomeOrder(admission: (bool, string), stored: nat, hits: seq<Hit>, a: Answer)
    ensures !admission.0 ==> Outcome(admission, stored, hits, a) == Failure(Refused(HttpError(429, admission.1)))
    ensures admission.0 && stored == 0 ==> Outcome(admission, stored, hits, a) == Failure(Refused(HttpError(400, NoDocumentsMessage)))
    ensures admission.0 && stored > 0 && hits == [] ==>
      && Outcome(admission, stored, hits, a).Failure?
      && Status(Outcome(admission, stored, hits, a).error) == 422
      && Outcome(admission, stored, hits, a).error == InsufficientEvidence(NoAnswerMessage, NoRelevantChunks, Suggestions(NoRelevantChunks), [])
    ensures ReachesLlm(admission, stored, hits) ==> Outcome(admission, stored, hits, a) == Answered(hits, a)
  {
  }

  /**
   * Usage is recorded exactly for the requests that end in an answer or in a low-confidence
   * refusal; a refused or empty retrieval is never billed.
   */
  lemma UsageRecordedIffLlmAnswered(admission: (bool, string), stored: nat, hits: seq<Hit>, a: Answer)
    ensures var o := Outcome(admission, stored, hits, a);
      ReachesLlm(admission, stored, hits) <==> (o.Success? || (o.error.InsufficientEvidence? && o.error.reason == LowConfidence))
    ensures !ReachesLlm(admission, stored, hits) ==> UsageAfter(DailyUsage(0, 0, 0, 0.0, ""), admission, stored, hits, a).queries == 0
  {
  }

  /** A low-confidence refusal carries every citation as partial context. */
  lemma LowConfidenceKeepsContext(admission: (bool, string), stored: nat, hits: seq<Hit>, a: Answer)
    requires ReachesLlm(admission, stored, hits) && SelfReportsInsufficiency(a)
    ensures Outcome(admission, stored, hits, a) == Failure(Insufficient(LowConfidence, Citations(hits)))
    ensures |Outcome(admission, stored, hits, a).error.partialContext| == |hits|
  {
  }

  /**
   * `query_documents` for the caller `userId`. `today` and `now` are the tracker's day key
   * and timestamp, `embed` the embedding model, `rank` the vector index and `completion`
   * what the chat model would answer.
   */
  method QueryDocuments(tracker: Tracker, store: Store, today: string, now: string, userId: string,
                        request: QueryRequest, settings: Settings, embed: string -> seq<real>, rank: Ranker,
                        completion: Option<string>, count: Counter)
    returns (r: Result<QueryResponse, QueryFailure>)
    requires ValidQueryRequest(request)
    modifies tracker
    ensures var u := RecordFor(old(tracker.dailyUsage), today, now);
      var admission := Admission(u, tracker.settings);
      var hits := Retrieved(store.points, rank, embed, userId, request, settings);
      var a := AnswerFor(request.question, hits, completion, count, settings);
      && r == Outcome(admission, StoredDocuments(store.points), hits, a)
      && tracker.dailyUsage == old(tracker.dailyUsage)[today := UsageAfter(u, admission, StoredDocuments(store.points), hits, a)]
  {
    var canProceed, limitMessage := tracker.CanProcessQuery(today, now);
    if !canProceed {
      return Failure(Refused(HttpError(429, limitMessage)));
    }
    ghost var gated := tracker.dailyUsage;
    r := CheckStoredAndAnswer(tracker, store, today, now, userId, request, settings, embed, rank, completion, count);
    AdmittedComposes(old(tracker.dailyUsage), gated, tracker.dailyUsage, today, now, StoredDocuments(store.points),
                     Retrieved(store.points, rank, embed, userId, request, settings),
                     AnswerFor(request.question, Retrieved(store.points, rank, embed, userId, request, settings), completion, count, settings),
                     Admission(RecordFor(old(tracker.dailyUsage), today, now), tracker.settings));
  }

  /** Past the gate, the rest of the request decides as if the gate had said "OK", and the gate's record is the one tracked. */
  lemma AdmittedComposes(before: map<string, DailyUsage>, gated: map<string, DailyUsage>, after: map<string, DailyUsage>,
                         today: string, now: string, stored: nat, hits: seq<Hit>, a: Answer, admission: (bool, string))
    requires admission.0
    requires gated == before[today := RecordFor(before, today, now)]
    requires after == (if stored > 0 && hits != []
                       then gated[today := Tracked(RecordFor(gated, today, now), a.inputTokens, a.outputTokens, a.costUsd)]
                       else gated)
    ensures Outcome(admission, stored, hits, a) == Outcome((true, "OK"), stored, hits, a)
    ensures after == before[today := UsageAfter(RecordFor(before, today, now), admission, stored, hits, a)]
  {
  }

  // The three methods below are the body of `query_documents` after the admission gate, cut into
  // successive stages only so that each stage's proof stays small; the source has one function.

  /** The steps after the gate: the stored-documents check, then retrieval and the answer. */
  method CheckStoredAndAnswer(tracker: Tracker, store: Store, today: string, now: string, userId: string,
                              request: QueryRequest, settings: Settings, embed: string -> seq<real>, rank: Ranker,
                              completion: Option<string>, count: Counter)
    returns (r: Result<QueryResponse, QueryFailure>)
    requires ValidQueryRequest(request)
    modifies tracker
    ensures var hits := Retrieved(store.points, rank, embed, userId, request, settings);
      var a := AnswerFor(request.question, hits, completion, count, settings);
      var u := RecordFor(old(tracker.dailyUsage), today, now);
      && r == Outcome((true, "OK"), StoredDocuments(store.points), hits, a)
      && tracker.dailyUsage == (if StoredDocuments(store.points) > 0 && hits != []
                                then old(tracker.dailyUsage)[today := Tracked(u, a.inputTokens, a.outputTokens, a.costUsd)]
                                else old(tracker.dailyUsage))
  {
    var docCount := store.GetDocumentCount(None);
    if docCount == 0 {
      return Failure(Refused(HttpError(400, NoDocumentsMessage)));
    }
    r := RetrieveAndAnswer(tracker, store.points, today, now, userId, request, settings, embed, rank, completion, count);
  }

  /** The steps after the two checks: retrieve, and answer when something was found. */
  method RetrieveAndAnswer(tracker: Tracker, points: seq<Point>, today: string, now: string, userId: string,
                           request: QueryRequest, settings: Settings, embed: string -> seq<real>, rank: Ranker,
                           completion: Option<string>, count: Counter)
    returns (r: Result<QueryResponse, QueryFailure>)
    requires ValidQueryRequest(request)
    modifies tracker
    ensures var hits := Retrieved(points, rank, embed, userId, request, settings);
      var a := AnswerFor(request.question, hits, completion, count, settings);
      var u := RecordFor(old(tracker.dailyUsage), today, now);
      && r == (if hits == [] then Failure(Insufficient(NoRelevantChunks, [])) else Answered(hits, a))
      && tracker.dailyUsage == (if hits == [] then old(tracker.dailyUsage)
                                else old(tracker.dailyUsage)[today := Tracked(u, a.inputTokens, a.outputTokens, a.costUsd)])
  {
    var chunks := Retrieved(points, rank, embed, userId, request, settings);
    if chunks == [] {
      return Failure(Insufficient(NoRelevantChunks, []));
    }
    r := AnswerAndTrack(tracker, today, now, request.question, chunks, completion, count, settings);
  }

  /** The steps after a retrieval that found something: generate, record the usage once, then classify. */
  method AnswerAndTrack(tracker: Tracker, today: string, now: string, question: string, chunks: seq<Hit>,
                        completion: Option<string>, count: Counter, settings: Settings)
    returns (r: Result<QueryResponse, QueryFailure>)
    requires chunks != []
    modifies tracker
    ensures var a := AnswerFor(question, chunks, completion, count, settings);
      && r == Answered(chunks, a)
      && tracker.dailyUsage == old(tracker.dailyUsage)[today := Tracked(RecordFor(old(tracker.dailyUsage), today, now),
                                                                         a.inputTokens, a.outputTokens, a.costUsd)]
  {
    var citations := Citations(chunks);
    var result := GenerateAnswer(question, chunks, completion, count, settings);
    var _ := tracker.TrackQuery(today, now, result.inputTokens, result.outputTokens, result.costUsd);
    if SelfReportsInsufficiency(result) {
      return Failure(Insufficient(LowConfidence, citations));
    }
    var usage := QueryUsage(RetrievalTokens(chunks), result.inputTokens, result.outputTokens, result.costUsd);
    r := Success(QueryResponse(result.answer, citations, ConfidenceName(result.confidence), usage, Warning(result.confidence)));
  }

  /**
   * A successful answer carries the hits' citations and the LLM's accounting, and its
   * warning is absent exactly for a high-confidence answer.
   */
  lemma AnsweredShape(hits: seq<Hit>, a: Answer)
    ensures Answered(hits, a).Failure? <==> SelfReportsInsufficiency(a)
    ensures Answered(hits, a).Failure? ==> Answered(hits, a).error.partialContext == Citations(hits)
    ensures Answered(hits, a).Success? ==>
      var resp := Answered(hits, a).value;
      && resp.citations == Citations(hits)
      && resp.usage.llmInputTokens == a.inputTokens && resp.usage.llmOutputTokens == a.outputTokens
      && resp.usage.estimatedCostUsd == a.costUsd
      && (resp.warning.None? <==> a.confidence == High)
  {
  }

  /**
   * Tenant isolation at the endpoint: when the index honours the filter, every citation
   * comes from one of the caller's own documents, and from the requested ones when a list
   * was given.
   */
  lemma CitationsIsolated(points: seq<Point>, rank: Ranker, embed: string -> seq<real>, userId: string,
                          request: QueryRequest, settings: Settings)
    requires ValidQueryRequest(request)
    requires var f := SearchFilter(userId, request.documentIds);
      var limit := SearchLimit(request, settings) as nat;
      HonoursFilter(rank(points, embed(request.question), f, 2 * limit), points, f, 2 * limit)
    ensures var hits := Retrieved(points, rank, embed, userId, request, settings);
      forall i :: 0 <= i < |hits| ==>
        && Citations(hits)[i].documentId == hits[i].payload.documentId
        && hits[i].payload.userId == userId
        && (request.documentIds.None? || request.documentIds.value == [] || Citations(hits)[i].documentId in request.documentIds.value)
  {
    var limit := SearchLimit(request, settings) as nat;
    SearchIsolated(points, rank, embed(request.question), userId, limit, request.documentIds, settings.minRelevanceScore);
    var hits := Retrieved(points, rank, embed, userId, request, settings);
    assert forall i :: 0 <= i < |hits| ==> hits[i] in hits;
  }

  /**
   * The call as the endpoint writes it: `search` is invoked without its required `user_id`
   * argument, so past the document check every request ends in a server error, after the
   * gate has already run and without any usage being recorded.
   */
  method QueryDocumentsAsWritten(tracker: Tracker, store: Store, today: string, now: string)
    returns (r: Result<QueryResponse, QueryFailure>)
    modifies tracker
    ensures var u := RecordFor(old(tracker.dailyUsage), today, now);
      var admission := Admission(u, tracker.settings);
      && (!admission.0 ==> r == Failure(Refused(HttpError(429, admission.1))))
      && (admission.0 && StoredDocuments(store.points) == 0 ==> r == Failure(Refused(HttpError(400, NoDocumentsMessage))))
      && (admission.0 && StoredDocuments(store.points) > 0 ==> r == Failure(Refused(HttpError(500, MissingUserIdError))))
      && tracker.dailyUsage == old(tracker.dailyUsage)[today := u]
  {
    var canProceed, limitMessage := tracker.CanProcessQuery(today, now);
    if !canProceed {
      return Failure(Refused(HttpError(429, limitMessage)));
    }
    var docCount := store.GetDocumentCount(None);
    if docCount == 0 {
      return Failure(Refused(HttpError(400, NoDocumentsMessage)));
    }
    return Failure(Refused(HttpError(500, MissingUserIdError)));
  }

  const MissingUserIdError := "Internal Server Error"
}
