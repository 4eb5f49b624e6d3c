/**
 * The query request of backend/app/models/requests.py: a question of 10 to 500 characters,
 * an optional allow-list of document ids, and a citation count from 1 to 10 that defaults to 5.
 */
module Requests {
  import opened Wrappers

  const MinQuestionLength := 10
  const MaxQuestionLength := 500
  const DefaultMaxCitations := 5
  const MinCitations := 1
  const MaxCitations := 10

  datatype QueryRequest = QueryRequest(question: string, documentIds: Option<seq<string>>, maxCitations: int)

  predicate ValidQueryRequest(r: QueryRequest) {
    && MinQuestionLength <= |r.question| <= MaxQuestionLength
    && MinCitations <= r.maxCitations <= MaxCitations
  }

  /** A field constraint the request body breaks. */
  datatype FieldError = QuestionTooShort | QuestionTooLong | CitationsTooSmall | CitationsTooLarge

  /** Each broken constraint, in field order (validation reports them all, not the first). */
  function Violations(question: string, maxCitations: int): (errs: seq<FieldError>)
    ensures QuestionTooShort in errs <==> |question| < MinQuestionLength
    ensures QuestionTooLong in errs <==> |question| > MaxQuestionLength
    ensures CitationsTooSmall in errs <==> maxCitations < MinCitations
    ensures CitationsTooLarge in errs <==> maxCitations > MaxCitations
  {
    (if |question| < MinQuestionLength then [QuestionTooShort] else [])
    + (if |question| > MaxQuestionLength then [QuestionTooLong] else [])
    + (if maxCitations < MinCitations then [CitationsTooSmall] else [])
    + (if maxCitations > MaxCitations then [CitationsTooLarge] else [])
  }

  /**
   * Building the request from a body: absent `document_ids` is `None` and absent
   * `max_citations` is 5; the request exists exactly when no constraint is broken.
   */
  function ParseQueryRequest(question: string, documentIds: Option<seq<string>>, maxCitations: Option<int>)
    : (r: Result<QueryRequest, seq<FieldError>>)
    ensures r.Success? <==> ValidQueryRequest(QueryRequest(question, documentIds, maxCitations.GetOr(DefaultMaxCitations)))
    ensures r.Success? ==> r.value == QueryRequest(question, documentIds, maxCitations.GetOr(DefaultMaxCitations))
    ensures r.Failure? ==> r.error != []
  {
    var n := maxCitations.GetOr(DefaultMaxCitations);
    var errs := Violations(question, n);
    if errs == [] then Success(QueryRequest(question, documentIds, n)) else Failure(errs)
  }

  /** Leaving both optional fields out gives a valid request for any question of allowed length. */
  lemma DefaultsAreValid(question: string)
    requires MinQuestionLength <= |question| <= MaxQuestionLength
    ensures ParseQueryRequest(question, None, None) == Success(QueryRequest(question, None, DefaultMaxCitations))
  {
  }

  /** A question outside 10..500 characters is refused whatever the other fields hold. */
  lemma QuestionLengthEnforced(question: string, documentIds: Option<seq<string>>, maxCitations: Option<int>)
    requires |question| < MinQuestionLength || |question| > MaxQuestionLength
    ensures ParseQueryRequest(question, documentIds, maxCitations).Failure?
  {
  }
}
