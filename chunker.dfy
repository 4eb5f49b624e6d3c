/**
 * The sentence-packing chunker of `PDFProcessor._split_into_chunks`.
 *
 * `SplitIntoChunks` follows the Python loops statement by statement and is proved equal
 * to `Render(ChunkUnits(text, cfg))`, a fold (`Step`, `PackWords`, `Overlap`) over the
 * sentence list that keeps, for every chunk, the list of units (sentences or words) it is
 * joined from. The properties of the algorithm are lemmas about that fold; they speak
 * of unit lists and sums of per-unit token counts, never of the counts of joined strings,
 * because the tokenizer is not additive.
 */
module Chunker {
  import opened Text

  /** The tokenizer, `len(tokenizer.encode(text))`: any total function to `nat`. */
  type Counter = string -> nat

  datatype ChunkConfig = ChunkConfig(maxTokens: int, overlapTokens: int, count: Counter)

  // ----- Sentence splitting: re.split(r'(?<=[.!?])\s+', text) -----

  predicate IsTerminal(c: char) {
    c == '.' || c == '!' || c == '?'
  }

  /**
   * Every maximal whitespace run that directly follows `.`, `!` or `?` is a separator.
   * `piece` is the sentence read so far; a text ending in such a run yields a final "".
   */
  function SentencesFrom(t: string, piece: string): (r: seq<string>)
    ensures |r| >= 1
    decreases |t|
  {
    if t == [] then [piece]
    else if IsSpace(t[0]) && piece != [] && IsTerminal(piece[|piece| - 1]) then
      var rest := TrimStart(t);
      [piece] + SentencesFrom(rest, "")
    else SentencesFrom(t[1..], piece + [t[0]])
  }

  function SplitSentences(text: string): seq<string> {
    SentencesFrom(text, "")
  }

  // ----- Sums of token counts over unit lists -----

  /** Sum of `count(u)` over the units: what the overlap walk adds up. */
  function SumTokens(units: seq<string>, count: Counter): nat {
    if units == [] then 0
    else SumTokens(units[..|units| - 1], count) + count(units[|units| - 1])
  }

  /** Sum of `count(w + ' ')` over the words: what the word packing adds up. */
  function WordTokens(words: seq<string>, count: Counter): nat {
    if words == [] then 0
    else WordTokens(words[..|words| - 1], count) + count(words[|words| - 1] + " ")
  }

  lemma {:induction false} SumTokensConcat(a: seq<string>, b: seq<string>, count: Counter)
    ensures SumTokens(a + b, count) == SumTokens(a, count) + SumTokens(b, count)
  {
    if b == [] {
      assert a + b == a;
    } else {
      assert (a + b)[..|a + b| - 1] == a + b[..|b| - 1];
      SumTokensConcat(a, b[..|b| - 1], count);
    }
  }

  /** Concatenation of unit lists. */
  function Flatten(groups: seq<seq<string>>): seq<string> {
    if groups == [] then [] else Flatten(groups[..|groups| - 1]) + groups[|groups| - 1]
  }

  lemma {:induction false} FlattenConcat(a: seq<seq<string>>, b: seq<seq<string>>)
    ensures Flatten(a + b) == Flatten(a) + Flatten(b)
  {
    if b == [] {
      assert a + b == a;
    } else {
      assert (a + b)[..|a + b| - 1] == a + b[..|b| - 1];
      FlattenConcat(a, b[..|b| - 1]);
    }
  }

  // ----- The overlap walk (pdf_processor.py:81-89) -----

  /**
   * Walk `units` backwards from the end, taking whole units while the running count `acc`
   * plus the unit's count stays within `budget`; stop at the first unit that does not fit.
   */
  function OverlapFrom(units: seq<string>, acc: int, budget: int, count: Counter): (r: seq<string>)
    ensures |r| <= |units|
    decreases |units|
  {
    if units == [] then []
    else
      var s := units[|units| - 1];
      if acc + count(s) <= budget then OverlapFrom(units[..|units| - 1], acc + count(s), budget, count) + [s]
      else []
  }

  function Overlap(units: seq<string>, budget: int, count: Counter): seq<string> {
    OverlapFrom(units, 0, budget, count)
  }

  /** The carried overlap is a suffix of the buffer, in the buffer's order. */
  lemma {:induction false} OverlapFromIsSuffix(units: seq<string>, acc: int, budget: int, count: Counter)
    ensures var r := OverlapFrom(units, acc, budget, count);
      r == units[|units| - |r|..]
  {
    if units != [] {
      var s := units[|units| - 1];
      var init := units[..|units| - 1];
      if acc + count(s) <= budget {
        OverlapFromIsSuffix(init, acc + count(s), budget, count);
        var r0 := OverlapFrom(init, acc + count(s), budget, count);
        assert units == init + [s];
        SuffixSnoc(init, s, |r0|);
      }
    }
  }

  /** A suffix of `init`, then `s`, is the suffix one longer of `init + [s]`. */
  lemma SuffixSnoc<T>(init: seq<T>, s: T, n: nat)
    requires n <= |init|
    ensures init[|init| - n..] + [s] == (init + [s])[|init| - n..]
  {
    var a, b := init[|init| - n..] + [s], (init + [s])[|init| - n..];
    assert |a| == |b|;
    forall i | 0 <= i < |a| ensures a[i] == b[i] {
      if i < n {
        assert a[i] == init[|init| - n + i];
      }
    }
  }

  /** The carried overlap fits the budget. */
  lemma {:induction false} OverlapFromFits(units: seq<string>, acc: int, budget: int, count: Counter)
    ensures var r := OverlapFrom(units, acc, budget, count);
      r != [] ==> acc + SumTokens(r, count) <= budget
  {
    if units != [] {
      var s := units[|units| - 1];
      var init := units[..|units| - 1];
      if acc + count(s) <= budget {
        OverlapFromFits(init, acc + count(s), budget, count);
        var r0 := OverlapFrom(init, acc + count(s), budget, count);
        assert (r0 + [s])[..|r0|] == r0;
      }
    }
  }

  /** The unit just before the carried overlap, if any, would have overflowed the budget. */
  lemma {:induction false} OverlapFromIsMaximal(units: seq<string>, acc: int, budget: int, count: Counter)
    ensures var r := OverlapFrom(units, acc, budget, count);
      |r| < |units| ==> acc + SumTokens(r, count) + count(units[|units| - |r| - 1]) > budget
  {
    if units != [] {
      var s := units[|units| - 1];
      var init := units[..|units| - 1];
      if acc + count(s) <= budget {
        OverlapFromIsMaximal(init, acc + count(s), budget, count);
        var r0 := OverlapFrom(init, acc + count(s), budget, count);
        assert (r0 + [s])[..|r0|] == r0;
        if |r0| < |init| {
          assert units[|units| - |r0| - 2] == init[|init| - |r0| - 1];
        }
      }
    }
  }

  /** One turn of the overlap loop, taken or refused, in terms of `OverlapFrom`. */
  lemma OverlapStep(current: seq<string>, k: nat, overlap: seq<string>, acc: int, budget: int, count: Counter)
    requires 0 < k <= |current| && overlap == current[k..]
    ensures var s := current[k - 1];
      && [s] + overlap == current[k - 1..]
      && SumTokens([s] + overlap, count) == count(s) + SumTokens(overlap, count)
      && (acc + count(s) <= budget ==>
            OverlapFrom(current[..k], acc, budget, count) + overlap
              == OverlapFrom(current[..k - 1], acc + count(s), budget, count) + ([s] + overlap))
      && (acc + count(s) > budget ==> OverlapFrom(current[..k], acc, budget, count) == [])
  {
    var s := current[k - 1];
    assert current[..k][..k - 1] == current[..k - 1];
    SumTokensConcat([s], overlap, count);
    assert [s][..0] == [];
  }

  /** The overlap loop of pdf_processor.py:81-89, with its `insert(0, s)` and `break`. */
  method CarryOverlap(current: seq<string>, overlapTokens: int, count: Counter)
    returns (overlap: seq<string>, overlapCount: int)
    ensures overlap == Overlap(current, overlapTokens, count)
    ensures overlapCount == SumTokens(overlap, count)
  {
    overlap := [];
    overlapCount := 0;
    var k := |current|;
    assert current[..k] == current;
    while k > 0
      invariant 0 <= k <= |current|
      invariant overlap == current[k..]
      invariant overlapCount == SumTokens(overlap, count)
      invariant Overlap(current, overlapTokens, count)
        == OverlapFrom(current[..k], overlapCount, overlapTokens, count) + overlap
    {
      var s := current[k - 1];
      var sTokens := count(s);
      OverlapStep(current, k, overlap, overlapCount, overlapTokens, count);
      if overlapCount + sTokens <= overlapTokens {
        overlap := [s] + overlap;
        overlapCount := overlapCount + sTokens;
        k := k - 1;
      } else {
        break;
      }
    }
  }

  // ----- Packing the words of an oversized sentence (pdf_processor.py:60-72) -----

  /** `temp_chunk` and `temp_tokens`, and the word groups already appended to `chunks`. */
  datatype WordPack = WordPack(emitted: seq<seq<string>>, temp: seq<string>, tokens: int)

  function PackStep(p: WordPack, word: string, cfg: ChunkConfig): WordPack {
    var wordTokens := cfg.count(word + " ");
    if p.tokens + wordTokens > cfg.maxTokens then
      WordPack(if p.temp != [] then p.emitted + [p.temp] else p.emitted, [word], wordTokens)
    else
      WordPack(p.emitted, p.temp + [word], p.tokens + wordTokens)
  }

  function PackWords(words: seq<string>, cfg: ChunkConfig): WordPack {
    if words == [] then WordPack([], [], 0)
    else PackStep(PackWords(words[..|words| - 1], cfg), words[|words| - 1], cfg)
  }

  /** A word group is within budget, or it is one word that alone exceeds it. */
  predicate WithinBudget(group: seq<string>, cfg: ChunkConfig) {
    WordTokens(group, cfg.count) <= cfg.maxTokens || |group| == 1
  }

  /** Packing keeps every word once and in order; the leftover group is empty only for no words. */
  lemma {:induction false} PackWordsKeepsWords(words: seq<string>, cfg: ChunkConfig)
    ensures var p := PackWords(words, cfg);
      && Flatten(p.emitted) + p.temp == words
      && (p.temp == [] <==> words == [])
  {
    if words != [] {
      var init := words[..|words| - 1];
      var w := words[|words| - 1];
      PackWordsKeepsWords(init, cfg);
      var p0 := PackWords(init, cfg);
      var p := PackWords(words, cfg);
      assert words == init + [w];
      if p0.tokens + cfg.count(w + " ") > cfg.maxTokens && p0.temp != [] {
        assert p.emitted[..|p.emitted| - 1] == p0.emitted;
        assert Flatten(p.emitted) == Flatten(p0.emitted) + p0.temp;
      }
    }
  }

  /**
   * `temp_tokens` is the sum over the leftover group, and every emitted group and the
   * leftover group is non-empty and within budget (or a single word).
   */
  lemma {:induction false} PackWordsWithinBudget(words: seq<string>, cfg: ChunkConfig)
    ensures var p := PackWords(words, cfg);
      && p.tokens == WordTokens(p.temp, cfg.count)
      && (forall i :: 0 <= i < |p.emitted| ==> p.emitted[i] != [] && WithinBudget(p.emitted[i], cfg))
      && (p.temp != [] ==> WithinBudget(p.temp, cfg))
  {
    if words != [] {
      var init := words[..|words| - 1];
      var w := words[|words| - 1];
      PackWordsWithinBudget(init, cfg);
      var p0 := PackWords(init, cfg);
      if p0.tokens + cfg.count(w + " ") > cfg.maxTokens {
        assert [w][..0] == [];
        assert WordTokens([w], cfg.count) == cfg.count(w + " ");
      } else {
        assert (p0.temp + [w])[..|p0.temp|] == p0.temp;
      }
    }
  }

  // ----- The sentence loop (pdf_processor.py:44-99) -----

  /** `chunks` (as unit lists), `current_chunk` and `current_tokens`. */
  datatype SplitState = SplitState(flushed: seq<seq<string>>, current: seq<string>, tokens: int)

  /** The buffer flushed, when it is non-empty: before an oversized sentence and at the end. */
  function Finish(st: SplitState): seq<seq<string>> {
    if st.current != [] then st.flushed + [st.current] else st.flushed
  }

  /** A sentence over `max_tokens`: flush the buffer, then pack the sentence's words. */
  function SplitOversized(st: SplitState, sentence: string, cfg: ChunkConfig): SplitState {
    var base := Finish(st);
    var tokens := if st.current != [] then 0 else st.tokens;
    var p := PackWords(SplitWords(sentence), cfg);
    if p.temp != [] then SplitState(base + p.emitted, p.temp, p.tokens)
    else SplitState(base + p.emitted, [], tokens)
  }

  /** A sentence that overflows the buffer: flush it and start over from its overlap. */
  function FlushWithOverlap(st: SplitState, sentence: string, cfg: ChunkConfig): SplitState {
    var overlap := Overlap(st.current, cfg.overlapTokens, cfg.count);
    SplitState(st.flushed + [st.current], overlap + [sentence], SumTokens(overlap, cfg.count) + cfg.count(sentence))
  }

  /** One iteration of the `for sentence in sentences` loop. */
  function Step(st: SplitState, sentence: string, cfg: ChunkConfig): SplitState {
    var sentenceTokens := cfg.count(sentence);
    if sentenceTokens > cfg.maxTokens then SplitOversized(st, sentence, cfg)
    else if st.tokens + sentenceTokens > cfg.maxTokens then FlushWithOverlap(st, sentence, cfg)
    else SplitState(st.flushed, st.current + [sentence], st.tokens + sentenceTokens)
  }

  function Fold(sentences: seq<string>, cfg: ChunkConfig): SplitState {
    if sentences == [] then SplitState([], [], 0)
    else Step(Fold(sentences[..|sentences| - 1], cfg), sentences[|sentences| - 1], cfg)
  }

  /** The unit list of every chunk `_split_into_chunks` returns. */
  function ChunkUnits(text: string, cfg: ChunkConfig): seq<seq<string>> {
    if Strip(text) == [] then [] else Finish(Fold(SplitSentences(text), cfg))
  }

  /** The chunk texts: each unit list joined with single spaces. */
  function Render(groups: seq<seq<string>>): (r: seq<string>)
    ensures |r| == |groups|
  {
    if groups == [] then [] else Render(groups[..|groups| - 1]) + [JoinWith(groups[|groups| - 1], " ")]
  }

  lemma RenderConcat(a: seq<seq<string>>, b: seq<seq<string>>)
    ensures Render(a + b) == Render(a) + Render(b)
  {
    if b != [] {
      assert (a + b)[..|a + b| - 1] == a + b[..|b| - 1];
      RenderConcat(a, b[..|b| - 1]);
    } else {
      assert a + b == a;
    }
  }

  lemma RenderSnoc(a: seq<seq<string>>, g: seq<string>)
    ensures Render(a + [g]) == Render(a) + [JoinWith(g, " ")]
  {
    assert (a + [g])[..|a|] == a;
  }

  lemma FoldNext(sentences: seq<string>, k: nat, cfg: ChunkConfig)
    requires k < |sentences|
    ensures Fold(sentences[..k + 1], cfg) == Step(Fold(sentences[..k], cfg), sentences[k], cfg)
  {
    assert sentences[..k + 1][..k] == sentences[..k];
  }

  lemma PackNext(words: seq<string>, j: nat, cfg: ChunkConfig)
    requires j < |words|
    ensures PackWords(words[..j + 1], cfg) == PackStep(PackWords(words[..j], cfg), words[j], cfg)
  {
    assert words[..j + 1][..j] == words[..j];
  }

  /**
   * The word loop of pdf_processor.py:60-72 for one oversized sentence: the chunks it
   * appends, and the final `temp_chunk` and `temp_tokens`.
   */
  method PackLongSentence(words: seq<string>, cfg: ChunkConfig)
    returns (emitted: seq<string>, temp: seq<string>, tempTokens: int)
    ensures emitted == Render(PackWords(words, cfg).emitted)
    ensures temp == PackWords(words, cfg).temp
    ensures tempTokens == PackWords(words, cfg).tokens
  {
    emitted := [];
    temp := [];
    tempTokens := 0;
    for j := 0 to |words|
      invariant temp == PackWords(words[..j], cfg).temp
      invariant tempTokens == PackWords(words[..j], cfg).tokens
      invariant emitted == Render(PackWords(words[..j], cfg).emitted)
    {
      PackNext(words, j, cfg);
      var word := words[j];
      var wordTokens := cfg.count(word + " ");
      if tempTokens + wordTokens > cfg.maxTokens {
        if temp != [] {
          RenderSnoc(PackWords(words[..j], cfg).emitted, temp);
          emitted := emitted + [JoinWith(temp, " ")];
        }
        temp := [word];
        tempTokens := wordTokens;
      } else {
        temp := temp + [word];
        tempTokens := tempTokens + wordTokens;
      }
    }
    assert words[..|words|] == words;
  }

  /** One turn of the sentence loop (pdf_processor.py:49-95) on the loop's variables, which hold the state `before`. */
  method SentenceStep(chunks: seq<string>, current: seq<string>, currentTokens: int, sentence: string, cfg: ChunkConfig,
                      ghost before: SplitState)
    returns (chunks': seq<string>, current': seq<string>, currentTokens': int)
    requires current == before.current && currentTokens == before.tokens && chunks == Render(before.flushed)
    ensures var after := Step(before, sentence, cfg);
      current' == after.current && currentTokens' == after.tokens && chunks' == Render(after.flushed)
  {
    var sentenceTokens := cfg.count(sentence);
    if sentenceTokens > cfg.maxTokens {
      chunks', current', currentTokens' := OversizedStep(chunks, current, currentTokens, sentence, cfg, before);
    } else if currentTokens + sentenceTokens > cfg.maxTokens {
      RenderSnoc(before.flushed, current);
      chunks' := chunks + [JoinWith(current, " ")];
      var overlap, overlapCount := CarryOverlap(current, cfg.overlapTokens, cfg.count);
      current' := overlap + [sentence];
      currentTokens' := overlapCount + sentenceTokens;
    } else {
      chunks' := chunks;
      current' := current + [sentence];
      currentTokens' := currentTokens + sentenceTokens;
    }
  }

  /** The branch for a sentence over `max_tokens` (pdf_processor.py:52-75). */
  method OversizedStep(chunks: seq<string>, current: seq<string>, currentTokens: int, sentence: string, cfg: ChunkConfig,
                       ghost before: SplitState)
    returns (chunks': seq<string>, current': seq<string>, currentTokens': int)
    requires current == before.current && currentTokens == before.tokens && chunks == Render(before.flushed)
    ensures var after := SplitOversized(before, sentence, cfg);
      current' == after.current && currentTokens' == after.tokens && chunks' == Render(after.flushed)
  {
    chunks', current', currentTokens' := chunks, current, currentTokens;
    if current' != [] {
      RenderSnoc(before.flushed, current);
      chunks' := chunks' + [JoinWith(current', " ")];
      current' := [];
      currentTokens' := 0;
    }
    var words := SplitWords(sentence);
    var emitted, temp, tempTokens := PackLongSentence(words, cfg);
    RenderConcat(Finish(before), PackWords(words, cfg).emitted);
    chunks' := chunks' + emitted;
    if temp != [] {
      current' := temp;
      currentTokens' := tempTokens;
    }
  }

  /** `_split_into_chunks(text, max_tokens, overlap_tokens)`. */
  method SplitIntoChunks(text: string, cfg: ChunkConfig) returns (chunks: seq<string>)
    ensures chunks == Render(ChunkUnits(text, cfg))
    ensures Strip(text) == [] ==> chunks == []
  {
    if Strip(text) == [] {
      return [];
    }
    var sentences := SplitSentences(text);
    chunks := [];
    var current: seq<string> := [];
    var currentTokens: int := 0;
    for k := 0 to |sentences|
      invariant current == Fold(sentences[..k], cfg).current
      invariant currentTokens == Fold(sentences[..k], cfg).tokens
      invariant chunks == Render(Fold(sentences[..k], cfg).flushed)
    {
      FoldNext(sentences, k, cfg);
      chunks, current, currentTokens := SentenceStep(chunks, current, currentTokens, sentences[k], cfg, Fold(sentences[..k], cfg));
    }
    assert sentences[..|sentences|] == sentences;
    if current != [] {
      RenderSnoc(Fold(sentences, cfg).flushed, current);
      chunks := chunks + [JoinWith(current, " ")];
    }
  }

  // ----- Properties of the fold -----

  /**
   * When a sentence that fits on its own overflows the buffer, the buffer is flushed and
   * the new buffer is a suffix of the flushed one (whole units, original order) whose
   * counts sum to at most `overlap_tokens`, followed by the sentence; the walk stopped at
   * the first unit, going backwards, that would have exceeded the budget.
   */
  lemma OverflowCarriesOverlap(st: SplitState, sentence: string, cfg: ChunkConfig)
    requires cfg.count(sentence) <= cfg.maxTokens
    requires st.tokens + cfg.count(sentence) > cfg.maxTokens
    ensures var next := Step(st, sentence, cfg);
      var carried := next.current[..|next.current| - 1];
      && next.flushed == st.flushed + [st.current]
      && next.current == carried + [sentence]
      && carried == st.current[|st.current| - |carried|..]
      && (carried != [] ==> SumTokens(carried, cfg.count) <= cfg.overlapTokens)
      && (|carried| < |st.current| ==>
            SumTokens(carried, cfg.count) + cfg.count(st.current[|st.current| - |carried| - 1]) > cfg.overlapTokens)
      && next.tokens == SumTokens(carried, cfg.count) + cfg.count(sentence)
  {
    OverlapFromIsSuffix(st.current, 0, cfg.overlapTokens, cfg.count);
    OverlapFromFits(st.current, 0, cfg.overlapTokens, cfg.count);
    OverlapFromIsMaximal(st.current, 0, cfg.overlapTokens, cfg.count);
    var next := Step(st, sentence, cfg);
    var overlap := Overlap(st.current, cfg.overlapTokens, cfg.count);
    assert next.current[..|next.current| - 1] == overlap;
  }

  /** `current_tokens` is at most `max_tokens + overlap_tokens`, or the buffer is one word that alone exceeds `max_tokens`. */
  predicate TokensWithinBound(st: SplitState, cfg: ChunkConfig) {
    || st.tokens <= cfg.maxTokens + cfg.overlapTokens
    || (|st.current| == 1 && st.tokens == cfg.count(st.current[0] + " ") && st.tokens > cfg.maxTokens)
  }

  lemma SplitOversizedKeepsTokensBound(st: SplitState, sentence: string, cfg: ChunkConfig)
    requires 0 <= cfg.maxTokens && 0 <= cfg.overlapTokens
    requires TokensWithinBound(st, cfg)
    ensures TokensWithinBound(SplitOversized(st, sentence, cfg), cfg)
  {
    var words := SplitWords(sentence);
    PackWordsWithinBudget(words, cfg);
    var p := PackWords(words, cfg);
    if |p.temp| == 1 {
      assert p.temp[..0] == [];
      assert WordTokens(p.temp, cfg.count) == cfg.count(p.temp[0] + " ");
    }
  }

  lemma FlushWithOverlapKeepsTokensBound(st: SplitState, sentence: string, cfg: ChunkConfig)
    requires 0 <= cfg.overlapTokens && cfg.count(sentence) <= cfg.maxTokens
    ensures FlushWithOverlap(st, sentence, cfg).tokens <= cfg.maxTokens + cfg.overlapTokens
  {
    OverlapFromFits(st.current, 0, cfg.overlapTokens, cfg.count);
  }

  lemma StepKeepsTokensBound(st: SplitState, sentence: string, cfg: ChunkConfig)
    requires 0 <= cfg.maxTokens && 0 <= cfg.overlapTokens
    requires TokensWithinBound(st, cfg)
    ensures TokensWithinBound(Step(st, sentence, cfg), cfg)
  {
    if cfg.count(sentence) > cfg.maxTokens {
      SplitOversizedKeepsTokensBound(st, sentence, cfg);
    } else if st.tokens + cfg.count(sentence) > cfg.maxTokens {
      FlushWithOverlapKeepsTokensBound(st, sentence, cfg);
    }
  }

  /** The bound holds after every prefix of the sentence list. */
  lemma {:induction false} FoldKeepsTokensBound(sentences: seq<string>, cfg: ChunkConfig)
    requires 0 <= cfg.maxTokens && 0 <= cfg.overlapTokens
    ensures TokensWithinBound(Fold(sentences, cfg), cfg)
  {
    if sentences != [] {
      FoldKeepsTokensBound(sentences[..|sentences| - 1], cfg);
      StepKeepsTokensBound(Fold(sentences[..|sentences| - 1], cfg), sentences[|sentences| - 1], cfg);
    }
  }

  /** The sentences with every sentence over `max_tokens` replaced by its words. */
  function Expand(sentences: seq<string>, cfg: ChunkConfig): seq<string> {
    if sentences == [] then []
    else
      var s := sentences[|sentences| - 1];
      Expand(sentences[..|sentences| - 1], cfg) + SentenceUnits(s, cfg)
  }

  /** Every sentence, and every word of every sentence, has a positive token count. */
  predicate PositiveUnits(sentences: seq<string>, count: Counter) {
    && (forall s :: s in sentences ==> count(s) > 0)
    && (forall s, w :: s in sentences && w in SplitWords(s) ==> count(w) > 0)
  }

  /** The units a sentence contributes to `Expand`. */
  function SentenceUnits(s: string, cfg: ChunkConfig): seq<string> {
    if cfg.count(s) > cfg.maxTokens then SplitWords(s) else [s]
  }

  /** The flushed units followed by the buffer, and every buffered unit has a positive count. */
  predicate HoldsUnits(st: SplitState, units: seq<string>, cfg: ChunkConfig) {
    && Flatten(st.flushed) + st.current == units
    && (forall u :: u in st.current ==> cfg.count(u) > 0)
  }

  lemma FlattenSnoc(groups: seq<seq<string>>, g: seq<string>)
    ensures Flatten(groups + [g]) == Flatten(groups) + g
  {
    assert (groups + [g])[..|groups|] == groups;
  }

  lemma SplitOversizedKeepsUnits(st: SplitState, s: string, units: seq<string>, cfg: ChunkConfig)
    requires forall w :: w in SplitWords(s) ==> cfg.count(w) > 0
    requires HoldsUnits(st, units, cfg)
    ensures HoldsUnits(SplitOversized(st, s, cfg), units + SplitWords(s), cfg)
  {
    var words := SplitWords(s);
    var next := SplitOversized(st, s, cfg);
    SplitOversizedFlattens(st, s, units, cfg);
    PackWordsKeepsWords(words, cfg);
    var p := PackWords(words, cfg);
    SuffixMembers(Flatten(p.emitted), p.temp);
    assert next.current == p.temp;
  }

  /** Every element of a suffix is an element of the whole. */
  lemma SuffixMembers<T>(a: seq<T>, b: seq<T>)
    ensures forall u :: u in b ==> u in a + b
  {
    forall u | u in b ensures u in a + b {
      var i :| 0 <= i < |b| && b[i] == u;
      assert (a + b)[|a| + i] == u;
    }
  }

  lemma SplitOversizedFlattens(st: SplitState, s: string, units: seq<string>, cfg: ChunkConfig)
    requires Flatten(st.flushed) + st.current == units
    ensures var next := SplitOversized(st, s, cfg);
      Flatten(next.flushed) + next.current == units + SplitWords(s)
  {
    var words := SplitWords(s);
    var p := PackWords(words, cfg);
    var next := SplitOversized(st, s, cfg);
    assert next.flushed == Finish(st) + p.emitted && next.current == p.temp;
    FinishFlattens(st);
    FlattenConcat(Finish(st), p.emitted);
    PackWordsKeepsWords(words, cfg);
    ConcatAssoc(units, Flatten(p.emitted), p.temp);
  }

  lemma FinishFlattens(st: SplitState)
    ensures Flatten(Finish(st)) == Flatten(st.flushed) + st.current
  {
    FlattenSnoc(st.flushed, st.current);
  }

  lemma ConcatAssoc(a: seq<string>, b: seq<string>, c: seq<string>)
    ensures (a + b) + c == a + (b + c)
  {
  }

  lemma FlushWithOverlapKeepsUnits(st: SplitState, s: string, units: seq<string>, cfg: ChunkConfig)
    requires cfg.overlapTokens == 0
    requires 0 < cfg.count(s)
    requires HoldsUnits(st, units, cfg)
    ensures HoldsUnits(FlushWithOverlap(st, s, cfg), units + [s], cfg)
  {
    if st.current != [] {
      assert cfg.count(st.current[|st.current| - 1]) > 0;
    }
    assert Overlap(st.current, 0, cfg.count) == [];
    FlattenSnoc(st.flushed, st.current);
  }

  lemma AppendStepKeepsUnits(st: SplitState, s: string, units: seq<string>, cfg: ChunkConfig)
    requires 0 < cfg.count(s) <= cfg.maxTokens && st.tokens + cfg.count(s) <= cfg.maxTokens
    requires HoldsUnits(st, units, cfg)
    ensures HoldsUnits(Step(st, s, cfg), units + [s], cfg)
  {
    var next := Step(st, s, cfg);
    assert next.flushed == st.flushed && next.current == st.current + [s];
    assert Flatten(st.flushed) + (st.current + [s]) == units + [s];
  }

  /** With no overlap and positive counts, the flushed units followed by the buffer are exactly `Expand` of the prefix. */
  lemma {:induction false} FoldKeepsEveryUnit(sentences: seq<string>, cfg: ChunkConfig)
    requires cfg.overlapTokens == 0
    requires PositiveUnits(sentences, cfg.count)
    ensures HoldsUnits(Fold(sentences, cfg), Expand(sentences, cfg), cfg)
  {
    if sentences != [] {
      var init := sentences[..|sentences| - 1];
      var s := sentences[|sentences| - 1];
      assert forall x :: x in init ==> x in sentences;
      FoldKeepsEveryUnit(init, cfg);
      var st := Fold(init, cfg);
      assert Expand(sentences, cfg) == Expand(init, cfg) + SentenceUnits(s, cfg);
      if cfg.count(s) > cfg.maxTokens {
        SplitOversizedKeepsUnits(st, s, Expand(init, cfg), cfg);
      } else if st.tokens + cfg.count(s) > cfg.maxTokens {
        FlushWithOverlapKeepsUnits(st, s, Expand(init, cfg), cfg);
      } else {
        AppendStepKeepsUnits(st, s, Expand(init, cfg), cfg);
      }
    }
  }

  /**
   * With `overlap_tokens = 0` and positive counts, the chunks' unit lists, concatenated,
   * are the sentences in order with each oversized sentence replaced by its words:
   * nothing is dropped and nothing is repeated.
   */
  lemma ChunkUnitsKeepEveryUnit(text: string, cfg: ChunkConfig)
    requires cfg.overlapTokens == 0
    requires Strip(text) != []
    requires PositiveUnits(SplitSentences(text), cfg.count)
    ensures Flatten(ChunkUnits(text, cfg)) == Expand(SplitSentences(text), cfg)
  {
    var st := Fold(SplitSentences(text), cfg);
    FoldKeepsEveryUnit(SplitSentences(text), cfg);
    FlattenSnoc(st.flushed, st.current);
  }
}
