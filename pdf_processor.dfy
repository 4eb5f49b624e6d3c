/**
 * `PDFProcessor` apart from its chunker (backend/app/services/pdf_processor.py): section
 * title detection, the page loop of `process_pdf` with its deterministic chunk ids, the
 * page-limit check, and the ordered checks of `validate_file`.
 *
 * The PDF library is outside the model: a PDF is given as the result of opening it
 * (`Success` with its page count and per-page markdown, or `Failure` with the library's
 * error message). The document id (a UUID) and the uploading user are parameters.
 */
module PdfProcessor {
  import opened Wrappers
  import opened Text
  import opened Models
  import opened Chunker

  // ----- Section titles: two hand-made scanners for the two regexes (lines 103-115) -----

  /** `^` under `re.MULTILINE`: the start of the text or just after a newline. */
  predicate LineStart(t: string, p: nat) {
    p <= |t| && (p == 0 || t[p - 1] == '\n')
  }

  /** Length of the run of `#` starting at `p`. */
  function HashRun(t: string, p: nat): (n: nat)
    requires p <= |t|
    ensures p + n <= |t|
    ensures forall i :: p <= i < p + n ==> t[i] == '#'
    ensures p + n == |t| || t[p + n] != '#'
    decreases |t| - p
  {
    if p < |t| && t[p] == '#' then 1 + HashRun(t, p + 1) else 0
  }

  /** `$` under `re.MULTILINE`, looked for from `r`: the first newline at or after `r`, or the end. */
  function LineEnd(t: string, r: nat): (e: nat)
    requires r <= |t|
    ensures r <= e <= |t|
    ensures forall i :: r <= i < e ==> t[i] != '\n'
    ensures e == |t| || t[e] == '\n'
    decreases |t| - r
  {
    if r == |t| || t[r] == '\n' then r else LineEnd(t, r + 1)
  }

  /**
   * The pattern `^#+\s+(.+?)$` matches at line start `p` with `#+` spanning `t[p..q]`,
   * `\s+` spanning `t[q..r]` and the group starting at `r`; the lazy group then ends at
   * the first line end, `LineEnd(t, r)`.
   */
  predicate HeadingMatch(t: string, p: nat, q: nat, r: nat) {
    && LineStart(t, p) && p < q < r < |t|
    && (forall i :: p <= i < q ==> t[i] == '#')
    && (forall i :: q <= i < r ==> IsSpace(t[i]))
    && t[r] != '\n'
  }

  /**
   * The backtracking of `\s+`: try to start the group after `len` whitespace characters,
   * then `len - 1`, and so on down to 1.
   */
  function HeadingGroupStart(t: string, q: nat, len: nat): (r: Option<nat>)
    requires q + len <= |t|
    ensures r.Some? ==> q < r.value <= q + len && r.value < |t| && t[r.value] != '\n'
    ensures r.Some? ==> forall k :: r.value < k <= q + len ==> k == |t| || t[k] == '\n'
    ensures r.None? ==> forall k :: q < k <= q + len ==> k == |t| || t[k] == '\n'
    decreases len
  {
    if len == 0 then None
    else if q + len < |t| && t[q + len] != '\n' then Some(q + len)
    else HeadingGroupStart(t, q, len - 1)
  }

  /** Where the heading pattern, tried at `p`, starts its group (greedy `#+`, greedy `\s+`). */
  function HeadingStart(t: string, p: nat): Option<nat>
    requires p <= |t|
  {
    var q := p + HashRun(t, p);
    if q == p then None else HeadingGroupStart(t, q, SpaceRun(t[q..]))
  }

  /** What `HeadingStart` finds is a match of the pattern. */
  lemma HeadingStartSound(t: string, p: nat)
    requires LineStart(t, p)
    ensures HeadingStart(t, p).Some? ==> HeadingMatch(t, p, p + HashRun(t, p), HeadingStart(t, p).value)
  {
    var q := p + HashRun(t, p);
    if q != p && HeadingStart(t, p).Some? {
      var r := HeadingStart(t, p).value;
      forall i | q <= i < r ensures IsSpace(t[i]) {
        assert t[i] == t[q..][i - q];
      }
    }
  }

  /** Every match at `p` is seen by `HeadingStart`, which picks the one with the longest `\s+`. */
  lemma HeadingStartGreedy(t: string, p: nat, q: nat, r: nat)
    requires HeadingMatch(t, p, q, r)
    ensures HeadingStart(t, p).Some? && r <= HeadingStart(t, p).value
  {
    var h := p + HashRun(t, p);
    assert IsSpace(t[q]);
    assert h == |t| || t[h] != '#';
    assert q == h;
    var w := SpaceRun(t[q..]);
    assert forall i :: 0 <= i < r - q ==> IsSpace(t[q..][i]);
    assert r <= q + w;
  }

  /** `re.search` under `re.MULTILINE`: the first line start, from `p`, where the heading pattern matches. */
  function FindHeadingFrom(t: string, p: nat): (s: Option<nat>)
    requires p <= |t|
    ensures s.Some? ==> p <= s.value <= |t| && LineStart(t, s.value) && HeadingStart(t, s.value).Some?
    ensures forall p' :: p <= p' <= |t| && LineStart(t, p') && (s.None? || p' < s.value) ==> HeadingStart(t, p').None?
    decreases |t| - p
  {
    if LineStart(t, p) && HeadingStart(t, p).Some? then Some(p)
    else if p == |t| then None
    else FindHeadingFrom(t, p + 1)
  }

  /** The group of the first heading match, if any. */
  function HeadingText(t: string): Option<string> {
    match FindHeadingFrom(t, 0)
    case None => None
    case Some(p) =>
      var r := HeadingStart(t, p).value;
      assert r <= |t| by { HeadingStartSound(t, p); }
      Some(t[r..LineEnd(t, r)])
  }

  /** The pattern matches on some line, which `HeadingText` then finds. */
  lemma HeadingTextFindsEveryMatch(t: string, p: nat, q: nat, r: nat)
    requires HeadingMatch(t, p, q, r)
    ensures HeadingText(t).Some?
  {
    HeadingStartGreedy(t, p, q, r);
  }

  /**
   * `HeadingText` is the regex's answer: the group of a match on the leftmost line where
   * the pattern matches, with the longest `\s+` on that line.
   */
  lemma HeadingTextIsFirstMatch(t: string)
    requires HeadingText(t).Some?
    ensures exists p: nat, q: nat, r: nat ::
      && HeadingMatch(t, p, q, r)
      && HeadingText(t).value == t[r..LineEnd(t, r)]
      && forall p': nat, q': nat, r': nat :: HeadingMatch(t, p', q', r') ==> p <= p' && (p' == p ==> r' <= r)
  {
    var p := FindHeadingFrom(t, 0).value;
    var q := p + HashRun(t, p);
    var r := HeadingStart(t, p).value;
    HeadingStartSound(t, p);
    forall p': nat, q': nat, r': nat | HeadingMatch(t, p', q', r') ensures p <= p' && (p' == p ==> r' <= r) {
      HeadingStartGreedy(t, p', q', r');
    }
    assert HeadingMatch(t, p, q, r);
  }

  /** The pattern `^\*\*(.+?)\*\*` matches with the group `t[2..k]`. */
  predicate BoldMatch(t: string, k: nat) {
    && 3 <= k && k + 2 <= |t| && t[..2] == "**"
    && (forall i :: 2 <= i < k ==> t[i] != '\n')
    && t[k..k + 2] == "**"
  }

  /** The lazy group of the bold pattern: try ending it at `k`, then `k + 1`, and so on. */
  function BoldEndFrom(t: string, k: nat): (r: Option<nat>)
    requires 3 <= k <= |t| + 1 && t[..2] == "**"
    requires forall i :: 2 <= i < k - 1 ==> t[i] != '\n'
    ensures r.Some? ==> k <= r.value && BoldMatch(t, r.value)
    ensures forall k': nat :: k <= k' && (r.None? || k' < r.value) ==> !BoldMatch(t, k')
    decreases |t| + 1 - k
  {
    if k + 2 > |t| then None
    else if t[k - 1] == '\n' then None
    else if t[k..k + 2] == "**" then Some(k)
    else BoldEndFrom(t, k + 1)
  }

  /** The group of the bold pattern at the very start of the text, if it matches. */
  function BoldText(t: string): Option<string> {
    if |t| >= 2 && t[..2] == "**" then
      match BoldEndFrom(t, 3)
      case None => None
      case Some(k) => Some(t[2..k])
    else None
  }

  /** `BoldText` is the regex's answer: it finds a match iff there is one, and takes the shortest group. */
  lemma BoldTextIsShortestMatch(t: string)
    ensures BoldText(t).Some? <==> exists k: nat :: BoldMatch(t, k)
    ensures BoldText(t).Some? ==>
      exists k: nat :: BoldMatch(t, k) && BoldText(t).value == t[2..k] && forall k': nat :: BoldMatch(t, k') ==> k <= k'
  {
    if |t| >= 2 && t[..2] == "**" {
      var r := BoldEndFrom(t, 3);
      if r.Some? {
        assert BoldMatch(t, r.value);
      }
    }
  }

  /** `_extract_section_title`: the stripped heading group, else the stripped bold group, else none. */
  function ExtractSectionTitle(t: string): (r: Option<string>)
    ensures r.Some? ==> Strip(r.value) == r.value
  {
    match HeadingText(t)
    case Some(h) => StripIdempotent(h); Some(Strip(h))
    case None =>
      match BoldText(t)
      case Some(b) => StripIdempotent(b); Some(Strip(b))
      case None => None
  }

  /**
   * A heading line anywhere in the page wins over a bold run at its start; a title is
   * found iff one of the two patterns matches, and it carries no surrounding whitespace.
   */
  lemma SectionTitlePrecedence(t: string)
    ensures HeadingText(t).Some? ==> ExtractSectionTitle(t) == Some(Strip(HeadingText(t).value))
    ensures HeadingText(t).None? ==>
      ExtractSectionTitle(t) == (if BoldText(t).Some? then Some(Strip(BoldText(t).value)) else None)
    ensures ExtractSectionTitle(t).Some? <==>
      (exists p: nat, q: nat, r: nat :: HeadingMatch(t, p, q, r)) || (exists k: nat :: BoldMatch(t, k))
    ensures ExtractSectionTitle(t).Some? ==> Strip(ExtractSectionTitle(t).value) == ExtractSectionTitle(t).value
  {
    BoldTextIsShortestMatch(t);
    if HeadingText(t).Some? {
      HeadingTextIsFirstMatch(t);
      StripIdempotent(HeadingText(t).value);
    } else {
      forall p: nat, q: nat, r: nat | HeadingMatch(t, p, q, r) ensures false {
        HeadingTextFindsEveryMatch(t, p, q, r);
      }
      if BoldText(t).Some? {
        StripIdempotent(BoldText(t).value);
      }
    }
  }

  // ----- Chunk ids (line 189) -----

  /** A chunk's id: the document id, the page number and the piece's index on the page, separated by `_p` and `_c`. */
  function ChunkId(docId: string, pageNum: nat, i: nat): string {
    docId + "_p" + NatToString(pageNum) + "_c" + NatToString(i)
  }

  /** Index of the first `_` in `s`, or `|s|`. */
  function FirstUnderscore(s: string): (n: nat)
    ensures n <= |s|
  {
    if s == [] || s[0] == '_' then 0 else 1 + FirstUnderscore(s[1..])
  }

  lemma {:induction false} FirstUnderscoreAfterDigits(a: string, rest: string)
    requires forall i :: 0 <= i < |a| ==> IsDigit(a[i])
    requires rest != [] && rest[0] == '_'
    ensures FirstUnderscore(a + rest) == |a|
  {
    if a != [] {
      assert (a + rest)[1..] == a[1..] + rest;
      FirstUnderscoreAfterDigits(a[1..], rest);
    }
  }

  lemma DigitsBeforeSeparator(a: string, x: string, b: string, y: string)
    requires forall i :: 0 <= i < |a| ==> IsDigit(a[i])
    requires forall i :: 0 <= i < |b| ==> IsDigit(b[i])
    requires a + "_c" + x == b + "_c" + y
    ensures a == b && x == y
  {
    var s := a + "_c" + x;
    assert s == a + ("_c" + x) && s == b + ("_c" + y);
    FirstUnderscoreAfterDigits(a, "_c" + x);
    FirstUnderscoreAfterDigits(b, "_c" + y);
    assert a == s[..|a|] && x == s[|a| + 2..];
    assert b == s[..|b|] && y == s[|b| + 2..];
  }

  /** Within one document, a chunk id determines its page number and its index in the page. */
  lemma ChunkIdInjective(docId: string, p1: nat, i1: nat, p2: nat, i2: nat)
    requires ChunkId(docId, p1, i1) == ChunkId(docId, p2, i2)
    ensures p1 == p2 && i1 == i2
  {
    var pre := docId + "_p";
    var a, x := NatToString(p1), NatToString(i1);
    var b, y := NatToString(p2), NatToString(i2);
    assert ChunkId(docId, p1, i1) == pre + (a + "_c" + x);
    assert ChunkId(docId, p2, i2) == pre + (b + "_c" + y);
    assert a + "_c" + x == ChunkId(docId, p1, i1)[|pre|..];
    assert b + "_c" + y == ChunkId(docId, p2, i2)[|pre|..];
    DigitsBeforeSeparator(a, x, b, y);
    NatToStringInjective(p1, p2);
    NatToStringInjective(i1, i2);
  }

  // ----- The page loop of process_pdf (lines 163-202) -----

  /** One element of the `page_chunks` list: `metadata.page` and `text`, either possibly absent. */
  datatype PageData = PageData(page: Option<nat>, text: Option<string>)

  function PageNumber(pg: PageData): nat {
    pg.page.GetOr(0) + 1
  }

  function PageText(pg: PageData): string {
    pg.text.GetOr("")
  }

  /** What every chunk of one page shares. */
  datatype PageContext = PageContext(docId: string, title: string, userId: string, pageNum: nat, section: Option<string>)

  /** The chunk made from piece `i` of a page. */
  function PieceChunk(ctx: PageContext, piece: string, i: nat, count: Counter): Chunk {
    var text := Strip(piece);
    Chunk(ChunkId(ctx.docId, ctx.pageNum, i), ctx.docId, ctx.title, ctx.userId, ctx.pageNum, ctx.section, text, count(text))
  }

  /** The chunks made from the pieces `_split_into_chunks` returned for one page; pieces blank after stripping are skipped. */
  function PageChunks(ctx: PageContext, pieces: seq<string>, count: Counter): seq<Chunk> {
    if pieces == [] then []
    else
      var i := |pieces| - 1;
      PageChunks(ctx, pieces[..i], count)
        + (if AllSpace(pieces[i]) then [] else [PieceChunk(ctx, pieces[i], i, count)])
  }

  /** The chunks of a whole document: blank pages are skipped; each other page is chunked on its own. */
  function DocumentChunks(docId: string, title: string, userId: string, pages: seq<PageData>, cfg: ChunkConfig): seq<Chunk> {
    if pages == [] then []
    else
      DocumentChunks(docId, title, userId, pages[..|pages| - 1], cfg)
        + PageDataChunks(docId, title, userId, pages[|pages| - 1], cfg)
  }

  /** The chunks of one page: none for a blank page, else its pieces as chunks. */
  function PageDataChunks(docId: string, title: string, userId: string, pg: PageData, cfg: ChunkConfig): seq<Chunk> {
    var text := PageText(pg);
    if AllSpace(text) then []
    else PageChunks(PageContext(docId, title, userId, PageNumber(pg), ExtractSectionTitle(text)),
                    Render(ChunkUnits(text, cfg)), cfg.count)
  }

  /** The chunks of one page, with the facts `PageChunksDistinct` proves about them. */
  lemma PageDataChunksShape(docId: string, title: string, userId: string, pg: PageData, cfg: ChunkConfig)
    ensures var cs := PageDataChunks(docId, title, userId, pg, cfg);
      && (forall a, b :: 0 <= a < b < |cs| ==> cs[a].chunkId != cs[b].chunkId)
      && (forall a :: 0 <= a < |cs| ==>
            WellFormedChunk(cs[a], docId, title, userId, cfg.count) && cs[a].pageNumber == PageNumber(pg))
  {
    var text := PageText(pg);
    if !AllSpace(text) {
      var ctx := PageContext(docId, title, userId, PageNumber(pg), ExtractSectionTitle(text));
      var pieces := Render(ChunkUnits(text, cfg));
      PageChunksDistinct(ctx, pieces, cfg.count);
      assert PageDataChunks(docId, title, userId, pg, cfg) == PageChunks(ctx, pieces, cfg.count);
    } else {
      assert PageDataChunks(docId, title, userId, pg, cfg) == [];
    }
  }

  /** The truthy section titles of the non-blank pages. */
  function SectionsDetected(pages: seq<PageData>): set<string> {
    if pages == [] then {}
    else
      var text := PageText(pages[|pages| - 1]);
      var title := ExtractSectionTitle(text);
      SectionsDetected(pages[..|pages| - 1])
        + (if !AllSpace(text) && title.Some? && title.value != [] then {title.value} else {})
  }

  /** The indexes of the pieces that are not blank (empty after stripping), in increasing order. */
  function NonBlankIndices(pieces: seq<string>): seq<nat> {
    if pieces == [] then []
    else
      var i := |pieces| - 1;
      NonBlankIndices(pieces[..i]) + (if AllSpace(pieces[i]) then [] else [i])
  }

  /** `NonBlankIndices` lists exactly the non-blank pieces, strictly increasing. */
  lemma {:induction false} NonBlankIndicesShape(pieces: seq<string>)
    ensures var idx := NonBlankIndices(pieces);
      && (forall a :: 0 <= a < |idx| ==> idx[a] < |pieces| && !AllSpace(pieces[idx[a]]))
      && (forall a, b :: 0 <= a < b < |idx| ==> idx[a] < idx[b])
      && (forall i :: 0 <= i < |pieces| && !AllSpace(pieces[i]) ==> i in idx)
  {
    if pieces != [] {
      var i := |pieces| - 1;
      NonBlankIndicesShape(pieces[..i]);
      var idx0 := NonBlankIndices(pieces[..i]);
      assert forall a :: 0 <= a < |idx0| ==> pieces[..i][idx0[a]] == pieces[idx0[a]];
    }
  }

  /**
   * The chunks of a page are the pieces at `NonBlankIndices`, in order, each carrying its
   * stripped text, that text's token count, the page's number and section, and the id
   * built from the piece's index.
   */
  lemma {:induction false} PageChunksByIndex(ctx: PageContext, pieces: seq<string>, count: Counter)
    ensures var cs := PageChunks(ctx, pieces, count);
      var idx := NonBlankIndices(pieces);
      && |cs| == |idx|
      && forall a :: 0 <= a < |cs| ==> idx[a] < |pieces| && cs[a] == PieceChunk(ctx, pieces[idx[a]], idx[a], count)
  {
    if pieces != [] {
      var i := |pieces| - 1;
      var init := pieces[..i];
      PageChunksByIndex(ctx, init, count);
      NonBlankIndicesShape(init);
      var cs0, idx0 := PageChunks(ctx, init, count), NonBlankIndices(init);
      var cs, idx := PageChunks(ctx, pieces, count), NonBlankIndices(pieces);
      var blank := AllSpace(pieces[i]);
      assert cs == cs0 + (if blank then [] else [PieceChunk(ctx, pieces[i], i, count)]);
      assert idx == idx0 + (if blank then [] else [i]);
      forall a | 0 <= a < |cs| ensures idx[a] < |pieces| && cs[a] == PieceChunk(ctx, pieces[idx[a]], idx[a], count) {
        if a < |cs0| {
          assert cs[a] == cs0[a] && idx[a] == idx0[a];
          assert init[idx0[a]] == pieces[idx0[a]];
        } else {
          assert cs[a] == PieceChunk(ctx, pieces[i], i, count) && idx[a] == i;
        }
      }
    }
  }

  /** The chunk ids of one page are pairwise distinct, and every chunk's text is non-empty and stripped. */
  lemma PageChunksDistinct(ctx: PageContext, pieces: seq<string>, count: Counter)
    ensures var cs := PageChunks(ctx, pieces, count);
      && (forall a, b :: 0 <= a < b < |cs| ==> cs[a].chunkId != cs[b].chunkId)
      && (forall a :: 0 <= a < |cs| ==>
            && WellFormedChunk(cs[a], ctx.docId, ctx.title, ctx.userId, count)
            && cs[a].pageNumber == ctx.pageNum && cs[a].sectionTitle == ctx.section)
  {
    PageChunksByIndex(ctx, pieces, count);
    NonBlankIndicesShape(pieces);
    var cs := PageChunks(ctx, pieces, count);
    var idx := NonBlankIndices(pieces);
    forall a, b | 0 <= a < b < |cs| ensures cs[a].chunkId != cs[b].chunkId {
      if cs[a].chunkId == cs[b].chunkId {
        ChunkIdInjective(ctx.docId, ctx.pageNum, idx[a], ctx.pageNum, idx[b]);
      }
    }
    forall a | 0 <= a < |cs| ensures WellFormedChunk(cs[a], ctx.docId, ctx.title, ctx.userId, count) {
      StripIdempotent(pieces[idx[a]]);
      StripEmptyIffAllSpace(pieces[idx[a]]);
      assert cs[a].chunkId == ChunkId(ctx.docId, cs[a].pageNumber, idx[a]);
    }
  }

  /**
   * A chunk as `process_pdf` builds it: the document's id, title and user; a non-empty,
   * stripped text with its own token count; an id made from its page number and an index.
   */
  ghost predicate WellFormedChunk(c: Chunk, docId: string, title: string, userId: string, count: Counter) {
    && c.documentId == docId && c.documentTitle == title && c.userId == userId
    && c.text != [] && c.text == Strip(c.text) && c.tokenCount == count(c.text)
    && c.pageNumber >= 0 && exists i: nat :: c.chunkId == ChunkId(docId, c.pageNumber, i)
  }

  /** The chunk carries the page number of one of the pages. */
  ghost predicate FromPages(c: Chunk, pages: seq<PageData>) {
    exists j :: 0 <= j < |pages| && c.pageNumber == PageNumber(pages[j])
  }

  /** Every chunk is well formed and carries the number of one of the pages. */
  ghost predicate ChunksShaped(cs: seq<Chunk>, docId: string, title: string, userId: string, count: Counter, pages: seq<PageData>) {
    forall a :: 0 <= a < |cs| ==> WellFormedChunk(cs[a], docId, title, userId, count) && FromPages(cs[a], pages)
  }

  /** No two chunks share an id. */
  predicate DistinctIds(cs: seq<Chunk>) {
    forall a, b :: 0 <= a < b < |cs| ==> cs[a].chunkId != cs[b].chunkId
  }

  /** Every chunk of the document is well formed and comes from one of its pages. */
  lemma {:induction false} DocumentChunksShape(docId: string, title: string, userId: string, pages: seq<PageData>, cfg: ChunkConfig)
    ensures ChunksShaped(DocumentChunks(docId, title, userId, pages, cfg), docId, title, userId, cfg.count, pages)
  {
    if pages != [] {
      var n := |pages| - 1;
      DocumentChunksShape(docId, title, userId, pages[..n], cfg);
      PageDataChunksShape(docId, title, userId, pages[n], cfg);
      var cs0 := DocumentChunks(docId, title, userId, pages[..n], cfg);
      var pc := PageDataChunks(docId, title, userId, pages[n], cfg);
      ShapedSnoc(cs0, pc, docId, title, userId, cfg.count, pages);
      assert DocumentChunks(docId, title, userId, pages, cfg) == cs0 + pc;
    }
  }

  /** Appending the chunks of the last page keeps the document's chunks shaped. */
  lemma ShapedSnoc(cs0: seq<Chunk>, pc: seq<Chunk>, docId: string, title: string, userId: string, count: Counter,
                   pages: seq<PageData>)
    requires pages != []
    requires ChunksShaped(cs0, docId, title, userId, count, pages[..|pages| - 1])
    requires forall b :: 0 <= b < |pc| ==>
      WellFormedChunk(pc[b], docId, title, userId, count) && pc[b].pageNumber == PageNumber(pages[|pages| - 1])
    ensures ChunksShaped(cs0 + pc, docId, title, userId, count, pages)
  {
    var n := |pages| - 1;
    var cs := cs0 + pc;
    forall a | 0 <= a < |cs| ensures WellFormedChunk(cs[a], docId, title, userId, count) && FromPages(cs[a], pages) {
      if a < |cs0| {
        assert cs[a] == cs0[a];
        assert FromPages(cs0[a], pages[..n]);
        var j :| 0 <= j < n && cs0[a].pageNumber == PageNumber(pages[..n][j]);
        assert pages[..n][j] == pages[j];
        assert 0 <= j < |pages| && cs[a].pageNumber == PageNumber(pages[j]);
      } else {
        assert cs[a] == pc[a - |cs0|];
        assert 0 <= n < |pages| && cs[a].pageNumber == PageNumber(pages[n]);
      }
    }
  }

  /**
   * Chunk ids are unique across the document when the pages carry distinct page numbers,
   * which is what the PDF library reports.
   */
  lemma {:induction false} DocumentChunkIdsDistinct(docId: string, title: string, userId: string, pages: seq<PageData>, cfg: ChunkConfig)
    requires forall j, k :: 0 <= j < k < |pages| ==> PageNumber(pages[j]) != PageNumber(pages[k])
    ensures DistinctIds(DocumentChunks(docId, title, userId, pages, cfg))
  {
    if pages != [] {
      var n := |pages| - 1;
      var init := pages[..n];
      assert forall j :: 0 <= j < |init| ==> init[j] == pages[j];
      DocumentChunkIdsDistinct(docId, title, userId, init, cfg);
      DocumentChunksShape(docId, title, userId, init, cfg);
      PageDataChunksShape(docId, title, userId, pages[n], cfg);
      var cs0 := DocumentChunks(docId, title, userId, init, cfg);
      var pc := PageDataChunks(docId, title, userId, pages[n], cfg);
      CrossPageIdsDiffer(cs0, pc, docId, title, userId, cfg.count, init, pages[n]);
      DistinctSnoc(cs0, pc);
      assert DocumentChunks(docId, title, userId, pages, cfg) == cs0 + pc;
    }
  }

  /** Two id-distinct runs whose ids do not meet concatenate to an id-distinct run. */
  lemma DistinctSnoc(cs0: seq<Chunk>, pc: seq<Chunk>)
    requires DistinctIds(cs0) && DistinctIds(pc)
    requires forall a, b :: 0 <= a < |cs0| && 0 <= b < |pc| ==> cs0[a].chunkId != pc[b].chunkId
    ensures DistinctIds(cs0 + pc)
  {
    var cs := cs0 + pc;
    forall a, b | 0 <= a < b < |cs| ensures cs[a].chunkId != cs[b].chunkId {
      if b < |cs0| {
        assert cs[a] == cs0[a] && cs[b] == cs0[b];
      } else if a >= |cs0| {
        assert cs[a] == pc[a - |cs0|] && cs[b] == pc[b - |cs0|];
      } else {
        assert cs[a] == cs0[a] && cs[b] == pc[b - |cs0|];
      }
    }
  }

  /** Chunks of earlier pages and chunks of a page with a new number have different ids. */
  lemma CrossPageIdsDiffer(cs0: seq<Chunk>, pc: seq<Chunk>, docId: string, title: string, userId: string, count: Counter,
                           earlier: seq<PageData>, last: PageData)
    requires forall j :: 0 <= j < |earlier| ==> PageNumber(earlier[j]) != PageNumber(last)
    requires ChunksShaped(cs0, docId, title, userId, count, earlier)
    requires forall b :: 0 <= b < |pc| ==>
      WellFormedChunk(pc[b], docId, title, userId, count) && pc[b].pageNumber == PageNumber(last)
    ensures forall a, b :: 0 <= a < |cs0| && 0 <= b < |pc| ==> cs0[a].chunkId != pc[b].chunkId
  {
    forall a, b | 0 <= a < |cs0| && 0 <= b < |pc| ensures cs0[a].chunkId != pc[b].chunkId {
      var c, d := cs0[a], pc[b];
      assert WellFormedChunk(c, docId, title, userId, count) && FromPages(c, earlier);
      var i1: nat :| c.chunkId == ChunkId(docId, c.pageNumber, i1);
      var i2: nat :| d.chunkId == ChunkId(docId, d.pageNumber, i2);
      if c.chunkId == d.chunkId {
        ChunkIdInjective(docId, c.pageNumber, i1, d.pageNumber, i2);
      }
    }
  }

  /** One more piece: `PageChunks` of a longer prefix. */
  lemma PageChunksNext(ctx: PageContext, pieces: seq<string>, count: Counter, i: nat)
    requires i < |pieces|
    ensures PageChunks(ctx, pieces[..i + 1], count)
      == PageChunks(ctx, pieces[..i], count) + (if AllSpace(pieces[i]) then [] else [PieceChunk(ctx, pieces[i], i, count)])
  {
    assert pieces[..i + 1][..i] == pieces[..i];
  }

  /** The inner loop over one page's pieces (lines 187-202). */
  method ChunkPage(ctx: PageContext, pieces: seq<string>, count: Counter) returns (chunks: seq<Chunk>)
    ensures chunks == PageChunks(ctx, pieces, count)
  {
    chunks := [];
    for i := 0 to |pieces|
      invariant chunks == PageChunks(ctx, pieces[..i], count)
    {
      PageChunksNext(ctx, pieces, count, i);
      var chunkText := Strip(pieces[i]);
      StripEmptyIffAllSpace(pieces[i]);
      if chunkText == [] {
        continue;
      }
      var chunk := Chunk(ChunkId(ctx.docId, ctx.pageNum, i), ctx.docId, ctx.title, ctx.userId, ctx.pageNum, ctx.section,
                         chunkText, count(chunkText));
      chunks := chunks + [chunk];
    }
    assert pieces[..|pieces|] == pieces;
  }

  /** One more page: `DocumentChunks` and `SectionsDetected` of a longer prefix. */
  lemma DocumentNext(docId: string, title: string, userId: string, pages: seq<PageData>, cfg: ChunkConfig, k: nat)
    requires k < |pages|
    ensures DocumentChunks(docId, title, userId, pages[..k + 1], cfg)
      == DocumentChunks(docId, title, userId, pages[..k], cfg) + PageDataChunks(docId, title, userId, pages[k], cfg)
    ensures var text := PageText(pages[k]);
      var t := ExtractSectionTitle(text);
      SectionsDetected(pages[..k + 1])
        == SectionsDetected(pages[..k]) + (if !AllSpace(text) && t.Some? && t.value != [] then {t.value} else {})
  {
    assert pages[..k + 1][..k] == pages[..k];
  }

  /** The chunks of one page, by whether its text is blank. */
  lemma PageDataChunksCases(docId: string, title: string, userId: string, pg: PageData, cfg: ChunkConfig)
    ensures AllSpace(PageText(pg)) ==> PageDataChunks(docId, title, userId, pg, cfg) == []
    ensures !AllSpace(PageText(pg)) ==>
      PageDataChunks(docId, title, userId, pg, cfg)
        == PageChunks(PageContext(docId, title, userId, PageNumber(pg), ExtractSectionTitle(PageText(pg))),
                      Render(ChunkUnits(PageText(pg), cfg)), cfg.count)
  {
  }

  /** The chunks of one non-blank page in the page loop (lines 180-202): split the text, then chunk the pieces. */
  method ChunkPageData(docId: string, title: string, userId: string, pg: PageData, cfg: ChunkConfig)
    returns (pageChunks: seq<Chunk>)
    requires !AllSpace(PageText(pg))
    ensures pageChunks == PageDataChunks(docId, title, userId, pg, cfg)
  {
    PageDataChunksCases(docId, title, userId, pg, cfg);
    var pageText := PageText(pg);
    var pieces := SplitIntoChunks(pageText, cfg);
    pageChunks := ChunkPage(PageContext(docId, title, userId, PageNumber(pg), ExtractSectionTitle(pageText)), pieces, cfg.count);
  }

  /** The loop over the pages (lines 163-202), collecting the chunks and the detected sections. */
  method AssembleChunks(docId: string, title: string, userId: string, pages: seq<PageData>, cfg: ChunkConfig)
    returns (chunks: seq<Chunk>, sections: set<string>)
    ensures chunks == DocumentChunks(docId, title, userId, pages, cfg)
    ensures sections == SectionsDetected(pages)
  {
    chunks := [];
    sections := {};
    for k := 0 to |pages|
      invariant chunks == DocumentChunks(docId, title, userId, pages[..k], cfg)
      invariant sections == SectionsDetected(pages[..k])
    {
      DocumentNext(docId, title, userId, pages, cfg, k);
      var pageText := PageText(pages[k]);
      StripEmptyIffAllSpace(pageText);
      if Strip(pageText) == [] {
        PageDataChunksCases(docId, title, userId, pages[k], cfg);
        continue;
      }
      var sectionTitle := ExtractSectionTitle(pageText);
      if sectionTitle.Some? && sectionTitle.value != [] {
        sections := sections + {sectionTitle.value};
      }
      var pageChunks := ChunkPageData(docId, title, userId, pages[k], cfg);
      chunks := chunks + pageChunks;
    }
    assert pages[..|pages|] == pages;
  }

  // ----- process_pdf (lines 117-211) -----

  /**
   * What the PDF library yields for an opened file: its page count, and what the markdown
   * extraction (`pymupdf4llm.to_markdown`) returns, the page records or the library's error.
   */
  datatype PdfContent = PdfContent(pageCount: nat, pages: Result<seq<PageData>, string>)

  /** The two ways `process_pdf` can fail: the page-limit `ValueError`, or an error from the PDF library. */
  datatype ProcessError = PageLimit(message: string) | LibraryError(message: string)

  /** The document title: a non-empty custom title when given, else the file name with `.pdf` removed and underscores turned into spaces. */
  function DocumentTitle(filename: string, customTitle: Option<string>): (r: string)
    ensures customTitle.Some? && customTitle.value != [] ==> r == customTitle.value
    ensures (customTitle.None? || customTitle.value == []) ==> '_' !in r
  {
    if customTitle.Some? && customTitle.value != [] then customTitle.value
    else
      ReplaceAllRemoves(ReplaceAll(filename, ".pdf", ""), '_', " ");
      ReplaceAll(ReplaceAll(filename, ".pdf", ""), "_", " ")
  }

  lemma {:induction false} ReplaceAllRemoves(s: string, c: char, rep: string)
    requires c !in rep
    ensures c !in ReplaceAll(s, [c], rep)
    decreases |s|
  {
    if |s| >= 1 {
      if s[..1] == [c] {
        ReplaceAllRemoves(s[1..], c, rep);
      } else {
        assert s[0] != c by { assert s[..1][0] == s[0]; }
        ReplaceAllRemoves(s[1..], c, rep);
      }
    }
  }

  function PageLimitMessage(pageCount: nat, maxPages: int): string {
    "Document has " + NatToString(pageCount) + " pages, maximum allowed is " + IntToString(maxPages)
  }

  /**
   * `process_pdf`: a failure to open propagates; a page count over the limit fails before
   * anything is extracted; a failing extraction propagates; otherwise every page is chunked.
   * `fileSize` is `len(file_content)`.
   */
  method ProcessPdf(docId: string, userId: string, fileSize: nat, filename: string, customTitle: Option<string>,
                    pdf: Result<PdfContent, string>, settings: Settings, count: Counter)
    returns (r: Result<ProcessedDocument, ProcessError>)
    ensures pdf.Failure? ==> r == Failure(LibraryError(pdf.error))
    ensures pdf.Success? && pdf.value.pageCount > settings.maxPagesPerDocument ==>
      r == Failure(PageLimit(PageLimitMessage(pdf.value.pageCount, settings.maxPagesPerDocument)))
    ensures pdf.Success? && pdf.value.pageCount <= settings.maxPagesPerDocument && pdf.value.pages.Failure? ==>
      r == Failure(LibraryError(pdf.value.pages.error))
    ensures pdf.Success? && pdf.value.pageCount <= settings.maxPagesPerDocument && pdf.value.pages.Success? ==>
      var cfg := ChunkConfig(settings.chunkSizeTokens, settings.chunkOverlapTokens, count);
      var title := DocumentTitle(filename, customTitle);
      r == Success(ProcessedDocument(docId, title, pdf.value.pageCount,
                                     DocumentChunks(docId, title, userId, pdf.value.pages.value, cfg),
                                     SectionsDetected(pdf.value.pages.value), fileSize))
  {
    var title := if customTitle.Some? && customTitle.value != [] then customTitle.value
                 else ReplaceAll(ReplaceAll(filename, ".pdf", ""), "_", " ");
    if pdf.Failure? {
      return Failure(LibraryError(pdf.error));
    }
    var pageCount := pdf.value.pageCount;
    if pageCount > settings.maxPagesPerDocument {
      return Failure(PageLimit(PageLimitMessage(pageCount, settings.maxPagesPerDocument)));
    }
    if pdf.value.pages.Failure? {
      return Failure(LibraryError(pdf.value.pages.error));
    }
    var cfg := ChunkConfig(settings.chunkSizeTokens, settings.chunkOverlapTokens, count);
    var chunks, sections := AssembleChunks(docId, title, userId, pdf.value.pages.value, cfg);
    return Success(ProcessedDocument(docId, title, pageCount, chunks, sections, fileSize));
  }

  // ----- validate_file (lines 213-252) -----

  const BytesPerMb: nat := 1024 * 1024

  /**
   * `f"{size_mb:.1f}"` for `size_mb = size / 2**20`. That quotient is exact in binary
   * floating point, so the formatting rounds the exact value to tenths, ties to even.
   */
  function FormatMb(size: nat): (r: string)
    ensures |r| >= 3 && r[|r| - 2] == '.'
    ensures forall i :: 0 <= i < |r| && i != |r| - 2 ==> IsDigit(r[i])
  {
    var n := size * 10;
    var q := n / BytesPerMb;
    var rem := n % BytesPerMb;
    var tenths := if 2 * rem > BytesPerMb || (2 * rem == BytesPerMb && q % 2 == 1) then q + 1 else q;
    NatToString(tenths / 10) + "." + [DigitChar(tenths % 10)]
  }

  /** A size of whole mebibytes prints as that number with a zero tenth. */
  lemma FormatMbWhole(m: nat)
    ensures FormatMb(m * BytesPerMb) == NatToString(m) + ".0"
  {
    var n := m * BytesPerMb * 10;
    assert n == 1048576 * (10 * m);
    assert n / BytesPerMb == 10 * m && n % BytesPerMb == 0;
    assert (10 * m) / 10 == m && (10 * m) % 10 == 0;
    assert [DigitChar(0)] == "0";
  }

  /** Why `validate_file` rejects a file, in the order the checks run. */
  datatype Rejection = NotPdf | TooLarge(size: nat) | Unreadable(error: string) | TooManyPages(pages: nat) | NoPages

  function RejectionMessage(e: Rejection, settings: Settings): string {
    match e
    case NotPdf => "Only PDF files are accepted"
    case TooLarge(size) => "File too large (" + FormatMb(size) + "MB). Maximum: " + IntToString(settings.maxFileSizeMb) + "MB"
    case Unreadable(error) => "Invalid PDF file: " + error
    case TooManyPages(pages) => "Document has " + NatToString(pages) + " pages. Maximum: " + IntToString(settings.maxPagesPerDocument)
    case NoPages => "PDF has no pages"
  }

  /** The checks of `validate_file`: the first that fails decides. `openResult` is the page count or the library's error. */
  function FirstRejection(size: nat, filename: string, openResult: Result<nat, string>, settings: Settings): Option<Rejection> {
    if !EndsWith(Lower(filename), ".pdf") then Some(NotPdf)
    else if size > settings.maxFileSizeMb * BytesPerMb then Some(TooLarge(size))
    else if openResult.Failure? then Some(Unreadable(openResult.error))
    else if openResult.value > settings.maxPagesPerDocument then Some(TooManyPages(openResult.value))
    else if openResult.value == 0 then Some(NoPages)
    else None
  }

  /** `validate_file`: `(True, "OK")`, or `False` with the message of the first failed check. */
  function ValidateFile(size: nat, filename: string, openResult: Result<nat, string>, settings: Settings): (r: (bool, string))
    ensures r.0 <==> && EndsWith(Lower(filename), ".pdf")
                     && size <= settings.maxFileSizeMb * BytesPerMb
                     && openResult.Success? && 0 < openResult.value <= settings.maxPagesPerDocument
    ensures r.0 ==> r.1 == "OK"
    ensures !EndsWith(Lower(filename), ".pdf") ==> r == (false, "Only PDF files are accepted")
    ensures EndsWith(Lower(filename), ".pdf") && size > settings.maxFileSizeMb * BytesPerMb ==>
      r == (false, "File too large (" + FormatMb(size) + "MB). Maximum: " + IntToString(settings.maxFileSizeMb) + "MB")
    ensures EndsWith(Lower(filename), ".pdf") && openResult.Failure? && size <= settings.maxFileSizeMb * BytesPerMb ==>
      r == (false, "Invalid PDF file: " + openResult.error)
    ensures EndsWith(Lower(filename), ".pdf") && size <= settings.maxFileSizeMb * BytesPerMb
            && openResult.Success? && openResult.value > settings.maxPagesPerDocument ==>
      r == (false, "Document has " + NatToString(openResult.value) + " pages. Maximum: " + IntToString(settings.maxPagesPerDocument))
    ensures EndsWith(Lower(filename), ".pdf") && size <= settings.maxFileSizeMb * BytesPerMb
            && openResult.Success? && openResult.value <= settings.maxPagesPerDocument && openResult.value == 0 ==>
      r == (false, "PDF has no pages")
  {
    match FirstRejection(size, filename, openResult, settings)
    case None => (true, "OK")
    case Some(e) => (false, RejectionMessage(e, settings))
  }

  /** The extension check ignores case: `report.PDF` passes it like `report.pdf`. */
  lemma UppercaseExtensionAccepted(stem: string, size: nat, settings: Settings)
    requires size <= settings.maxFileSizeMb * BytesPerMb
    ensures FirstRejection(size, stem + ".PDF", Success(1), settings) != Some(NotPdf)
  {
    var f := stem + ".PDF";
    var l := Lower(f);
    assert l[|l| - 4..] == ".pdf" by {
      assert f[|f| - 4..] == ".PDF";
      forall i | 0 <= i < 4 ensures l[|l| - 4 + i] == ".pdf"[i] {
        assert l[|l| - 4 + i] == LowerChar(f[|f| - 4 + i]);
      }
    }
  }
}
