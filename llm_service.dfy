/**
 * The answer assembler of backend/app/services/llm_service.py: the numbered source blocks
 * of the prompt, the confidence parser, and the token and cost accounting around the
 * completion. The chat completion itself is a parameter: its text is what the model
 * answered, and the tokenizer is the injected counter of the chunker.
 */
module LlmService {
  import opened Wrappers
  import opened Text
  import opened Models
  import opened Chunker

  datatype Confidence = High | Medium | Low

  /** The confidence as the response reports it: "high", "medium" or "low". */
  function ConfidenceName(c: Confidence): string {
    match c
    case High => "high"
    case Medium => "medium"
    case Low => "low"
  }

  // ----- _build_context (lines 45-59) -----

  /** The page shown in a source block: the page number in decimal, or "?" when missing. */
  function PageLabel(p: Payload): string {
    match p.pageNumber
    case Some(n) => IntToString(n)
    case None => "?"
  }

  /** `[Source N] title, p.page:\ntext`, with the defaults "Unknown", "?" and "". */
  function SourceBlock(n: nat, h: Hit): string {
    "[Source " + NatToString(n) + "] " + h.payload.documentTitle.GetOr("Unknown") + ", p." + PageLabel(h.payload)
      + ":\n" + h.payload.text.GetOr("")
  }

  /** One block per hit, numbered from 1 in input order. */
  function SourceBlocks(hits: seq<Hit>): (r: seq<string>)
    ensures |r| == |hits|
    ensures forall i :: 0 <= i < |hits| ==> r[i] == SourceBlock(i + 1, hits[i])
  {
    seq(|hits|, i requires 0 <= i < |hits| => SourceBlock(i + 1, hits[i]))
  }

  const BlockSeparator := "\n\n"

  /** `_build_context`: the loop collects the blocks, which are then joined with blank lines. */
  method BuildContext(hits: seq<Hit>) returns (context: string)
    ensures context == JoinWith(SourceBlocks(hits), BlockSeparator)
  {
    var parts: seq<string> := [];
    for i := 0 to |hits|
      invariant parts == SourceBlocks(hits[..i])
    {
      var sourceNum := i + 1;
      var docTitle := hits[i].payload.documentTitle.GetOr("Unknown");
      var pageNum := PageLabel(hits[i].payload);
      var text := hits[i].payload.text.GetOr("");
      parts := parts + ["[Source " + NatToString(sourceNum) + "] " + docTitle + ", p." + pageNum + ":\n" + text];
    }
    assert hits[..|hits|] == hits;
    context := JoinWith(parts, BlockSeparator);
  }

  /** Substring containment is transitive. */
  lemma ContainsTrans(a: string, b: string, c: string)
    requires Contains(a, b) && Contains(b, c)
    ensures Contains(a, c)
  {
    var i: nat :| i <= |a| && StartsAt(a, i, b);
    var j: nat :| j <= |b| && StartsAt(b, j, c);
    assert i + |b| <= |a| && a[i..i + |b|] == b;
    assert i + j + |c| <= |a|;
    forall t | 0 <= t < |c| ensures a[i + j..i + j + |c|][t] == c[t] {
      assert a[i + j + t] == a[i..i + |b|][j + t] == b[j..j + |c|][t];
    }
    assert StartsAt(a, i + j, c);
  }

  /** A block holds its hit's text. */
  lemma BlockHoldsText(n: nat, h: Hit)
    ensures Contains(SourceBlock(n, h), h.payload.text.GetOr(""))
  {
    var b := SourceBlock(n, h);
    var text := h.payload.text.GetOr("");
    var head := "[Source " + NatToString(n) + "] " + h.payload.documentTitle.GetOr("Unknown") + ", p." + PageLabel(h.payload) + ":\n";
    assert b == head + text;
    assert StartsAt(b, |head|, text) by {
      assert b[|head|..|head| + |text|] == text;
    }
  }

  /** The context carries every block, and so every retrieved text; no hits give the empty context. */
  lemma ContextCarriesSources(hits: seq<Hit>)
    ensures hits == [] ==> JoinWith(SourceBlocks(hits), BlockSeparator) == ""
    ensures forall k :: 0 <= k < |hits| ==>
      && Contains(JoinWith(SourceBlocks(hits), BlockSeparator), SourceBlock(k + 1, hits[k]))
      && Contains(JoinWith(SourceBlocks(hits), BlockSeparator), hits[k].payload.text.GetOr(""))
  {
    var blocks := SourceBlocks(hits);
    forall k | 0 <= k < |hits|
      ensures Contains(JoinWith(blocks, BlockSeparator), SourceBlock(k + 1, hits[k]))
      ensures Contains(JoinWith(blocks, BlockSeparator), hits[k].payload.text.GetOr(""))
    {
      JoinContainsPart(blocks, BlockSeparator, k);
      BlockHoldsText(k + 1, hits[k]);
      ContainsTrans(JoinWith(blocks, BlockSeparator), SourceBlock(k + 1, hits[k]), hits[k].payload.text.GetOr(""));
    }
  }

  // ----- _parse_confidence (lines 61-77) -----

  const MarkerPrefix := "confidence:"

  /** The level word at offset `j`, tried in the order of the alternation. */
  function LevelAt(t: string, j: nat): Option<Confidence> {
    if StartsAt(t, j, "high") then Some(High)
    else if StartsAt(t, j, "medium") then Some(Medium)
    else if StartsAt(t, j, "low") then Some(Low)
    else None
  }

  /**
   * `confidence:\s*(high|medium|low)` matched at offset `i`. Backtracking into `\s*` cannot
   * help: with fewer spaces the next character is a space, which starts no level word.
   */
  function MarkerAt(t: string, i: nat): Option<Confidence> {
    if StartsAt(t, i, MarkerPrefix) then
      var j := i + |MarkerPrefix|;
      LevelAt(t, j + SpaceRun(t[j..]))
    else None
  }

  /**
   * `re.search` from offset `i`: a marker found is the one at some offset with no match
   * before it, and nothing is found exactly when no offset from `i` to the end matches.
   */
  function FindMarkerFrom(t: string, i: nat): (r: Option<Confidence>)
    requires i <= |t|
    ensures r.Some? ==> exists k :: i <= k <= |t| && MarkerAt(t, k) == r && forall j :: i <= j < k ==> MarkerAt(t, j).None?
    ensures r.None? <==> forall j :: i <= j <= |t| ==> MarkerAt(t, j).None?
    decreases |t| - i
  {
    if MarkerAt(t, i).Some? then MarkerAt(t, i)
    else if i == |t| then None
    else
      var r := FindMarkerFrom(t, i + 1);
      LeftmostStep(t, i, r);
      r
  }

  /** A marker leftmost from `i + 1` is leftmost from `i` when none starts at `i`. */
  lemma LeftmostStep(t: string, i: nat, r: Option<Confidence>)
    requires i < |t| && MarkerAt(t, i).None?
    requires r.Some? ==> exists k :: i + 1 <= k <= |t| && MarkerAt(t, k) == r && forall j :: i + 1 <= j < k ==> MarkerAt(t, j).None?
    ensures r.Some? ==> exists k :: i <= k <= |t| && MarkerAt(t, k) == r && forall j :: i <= j < k ==> MarkerAt(t, j).None?
  {
    if r.Some? {
      var k :| i + 1 <= k <= |t| && MarkerAt(t, k) == r && forall j :: i + 1 <= j < k ==> MarkerAt(t, j).None?;
      assert forall j :: i <= j < k ==> MarkerAt(t, j).None?;
    }
  }

  /** The search finds the leftmost match: every offset before a match fails, and a match is never missed. */
  lemma FindMarkerFromIsLeftmost(t: string, i: nat, k: nat)
    requires i <= k <= |t| && MarkerAt(t, k).Some?
    requires forall j :: i <= j < k ==> MarkerAt(t, j).None?
    ensures FindMarkerFrom(t, i) == MarkerAt(t, k)
  {
    var r := FindMarkerFrom(t, i);
    assert r.Some? by { assert MarkerAt(t, k).Some?; }
    var k' :| i <= k' <= |t| && MarkerAt(t, k') == r && forall j :: i <= j < k' ==> MarkerAt(t, j).None?;
    assert !(k' < k) && !(k < k');
  }

  /** `_parse_confidence`: an explicit marker first; then the insufficiency words; then the certainty words. */
  function ParseConfidence(response: string): (c: Confidence)
    ensures var t := Lower(response);
      FindMarkerFrom(t, 0).None? ==>
        c == (if Contains(t, CannotFindSufficient) || Contains(t, "insufficient") then Low
              else if Contains(t, "clearly") || Contains(t, "explicitly") then High
              else Medium)
  {
    var t := Lower(response);
    match FindMarkerFrom(t, 0)
    case Some(level) => level
    case None =>
      if Contains(t, CannotFindSufficient) || Contains(t, "insufficient") then Low
      else if Contains(t, "clearly") || Contains(t, "explicitly") then High
      else Medium
  }

  /** The first explicit marker decides, whatever words the response also contains. */
  lemma MarkerOverrides(response: string, k: nat)
    requires k <= |response|
    requires MarkerAt(Lower(response), k).Some?
    requires forall j :: 0 <= j < k ==> MarkerAt(Lower(response), j).None?
    ensures ParseConfidence(response) == MarkerAt(Lower(response), k).value
  {
    FindMarkerFromIsLeftmost(Lower(response), 0, k);
  }

  /** Without a marker the heuristics run, insufficiency before certainty. */
  lemma HeuristicsWithoutMarker(response: string)
    requires forall j :: 0 <= j <= |response| ==> MarkerAt(Lower(response), j).None?
    ensures var t := Lower(response);
      && ((Contains(t, CannotFindSufficient) || Contains(t, "insufficient")) ==> ParseConfidence(response) == Low)
      && ((!(Contains(t, CannotFindSufficient) || Contains(t, "insufficient")) && (Contains(t, "clearly") || Contains(t, "explicitly")))
          ==> ParseConfidence(response) == High)
      && (!(Contains(t, CannotFindSufficient) || Contains(t, "insufficient") || Contains(t, "clearly") || Contains(t, "explicitly"))
          ==> ParseConfidence(response) == Medium)
  {
  }

  lemma LowerIdempotent(s: string)
    ensures Lower(Lower(s)) == Lower(s)
  {
  }

  /** The parser ignores case: a response and its lower-cased form get the same level. */
  lemma ParseConfidenceIgnoresCase(response: string)
    ensures ParseConfidence(Lower(response)) == ParseConfidence(response)
  {
    LowerIdempotent(response);
  }

  // ----- generate_answer (lines 79-145) -----

  const SystemPrompt :=
    "You are a legal document assistant. Answer questions ONLY using the provided document excerpts.\n\n"
    + "RULES:\n"
    + "- Use ONLY information from the sources provided\n"
    + "- Cite every claim with [Source N]\n"
    + "- Use bullet points for multiple items\n"
    + "- If sources don't answer the question, say so\n"
    + "- End with: \"Confidence: high/medium/low\"\n\n"
    + "This is for research only, not legal advice."

  /** The fixed answer without sources, kept in pieces so that its insufficiency phrase can be located. */
  const NoContextAnswer := "I " + CannotFindSufficient + NoContextAnswerTail
  const CannotFindSufficient := "cannot find sufficient"
  const NoContextAnswerTail := " information in the provided documents to answer this question. No relevant document sections were found."

  /** The user message: the question, the sources, and the answering instructions. */
  function UserPrompt(question: string, context: string): (r: string)
    ensures StartsAt(r, 0, "Question: " + question)
    ensures Contains(r, context)
    ensures EndsWith(r, PromptTail)
  {
    var head := "Question: " + question + "\n\nSources:\n";
    var r := head + context + PromptTail;
    assert r[..|"Question: " + question|] == "Question: " + question;
    assert StartsAt(r, |head|, context) by { assert r[|head|..|head| + |context|] == context; }
    r
  }

  const PromptTail := "\n\nAnswer the question using only the sources above. Cite with [Source N]. End with \"Confidence: high/medium/low\" "

  datatype Answer = Answer(answer: string, confidence: Confidence, inputTokens: nat, outputTokens: nat, costUsd: real)

  /** The estimated cost of a call: each token count in thousands times its per-thousand rate, in exact arithmetic. */
  function Cost(inputTokens: nat, outputTokens: nat, settings: Settings): (r: real)
    ensures inputTokens == 0 && outputTokens == 0 ==> r == 0.0
    ensures settings.inputCostPer1k >= 0.0 && settings.outputCostPer1k >= 0.0 ==> r >= 0.0
  {
    inputTokens as real / 1000.0 * settings.inputCostPer1k + outputTokens as real / 1000.0 * settings.outputCostPer1k
  }

  /** With non-negative rates the cost is non-negative and grows with either count. */
  lemma CostMonotone(in1: nat, out1: nat, in2: nat, out2: nat, settings: Settings)
    requires settings.inputCostPer1k >= 0.0 && settings.outputCostPer1k >= 0.0
    requires in1 <= in2 && out1 <= out2
    ensures 0.0 <= Cost(in1, out1, settings) <= Cost(in2, out2, settings)
  {
    assert in1 as real / 1000.0 * settings.inputCostPer1k <= in2 as real / 1000.0 * settings.inputCostPer1k;
    assert out1 as real / 1000.0 * settings.outputCostPer1k <= out2 as real / 1000.0 * settings.outputCostPer1k;
  }

  /** The value `generate_answer` returns, for callers that reason about it. */
  function AnswerFor(question: string, hits: seq<Hit>, completion: Option<string>, count: Counter, settings: Settings): Answer {
    if hits == [] then Answer(NoContextAnswer, Low, 0, 0, 0.0)
    else
      var answer := completion.GetOr("");
      var inputTokens := count(SystemPrompt + UserPrompt(question, JoinWith(SourceBlocks(hits), BlockSeparator)));
      Answer(answer, ParseConfidence(answer), inputTokens, count(answer), Cost(inputTokens, count(answer), settings))
  }

  /**
   * `generate_answer`. `completion` is the message content the chat model returned (`None`
   * counts as ""); it is not consulted when there are no hits, where the fixed answer is
   * returned with no tokens and no cost.
   */
  method GenerateAnswer(question: string, hits: seq<Hit>, completion: Option<string>, count: Counter, settings: Settings)
    returns (r: Answer)
    ensures hits == [] ==> r == Answer(NoContextAnswer, Low, 0, 0, 0.0)
    ensures hits != [] ==>
      var prompt := UserPrompt(question, JoinWith(SourceBlocks(hits), BlockSeparator));
      && r.answer == completion.GetOr("")
      && r.inputTokens == count(SystemPrompt + prompt)
      && r.outputTokens == count(r.answer)
      && r.costUsd == Cost(r.inputTokens, r.outputTokens, settings)
      && r.confidence == ParseConfidence(r.answer)
    ensures r == AnswerFor(question, hits, completion, count, settings)
  {
    if hits == [] {
      return Answer(NoContextAnswer, Low, 0, 0, 0.0);
    }
    var context := BuildContext(hits);
    var userPrompt := UserPrompt(question, context);
    var inputTokens := count(SystemPrompt + userPrompt);
    var answer := completion.GetOr("");
    var outputTokens := count(answer);
    var cost := Cost(inputTokens, outputTokens, settings);
    var confidence := ParseConfidence(answer);
    r := Answer(answer, confidence, inputTokens, outputTokens, cost);
  }

  lemma ContainsExtendLeft(a: string, b: string, pat: string)
    requires Contains(b, pat)
    ensures Contains(a + b, pat)
  {
    var i: nat :| StartsAt(b, i, pat);
    StartsAtRight(a, b, i, pat);
  }

  lemma ContainsExtendRight(a: string, b: string, pat: string)
    requires Contains(a, pat)
    ensures Contains(a + b, pat)
  {
    var i: nat :| StartsAt(a, i, pat);
    StartsAtLeft(a, b, i, pat);
  }

  /** The prompt sent with any hits carries each hit's text, so the model sees every retrieved source. */
  lemma PromptCarriesSources(question: string, hits: seq<Hit>, k: nat)
    requires k < |hits|
    ensures Contains(SystemPrompt + UserPrompt(question, JoinWith(SourceBlocks(hits), BlockSeparator)),
                     hits[k].payload.text.GetOr(""))
  {
    var context := JoinWith(SourceBlocks(hits), BlockSeparator);
    var text := hits[k].payload.text.GetOr("");
    ContextCarriesSources(hits);
    ContainsExtendLeft("Question: " + question + "\n\nSources:\n", context, text);
    ContainsExtendRight("Question: " + question + "\n\nSources:\n" + context, PromptTail, text);
    ContainsExtendLeft(SystemPrompt, UserPrompt(question, context), text);
  }
}
