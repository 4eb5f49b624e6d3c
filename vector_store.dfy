/**
 * The vector store of backend/app/services/vector_store.py. The Qdrant collection is a
 * sequence of points in storage order; the similarity ranking of `query_points` is an
 * injected function, and what the model relies on of it is stated as `HonoursFilter`.
 */
module VectorStore {
  import opened Wrappers
  import opened Text
  import opened Models

  /** A stored point: its UUID, its embedding and the payload written by `add_chunks`. */
  datatype Point = Point(id: string, vector: seq<real>, payload: Payload)

  /** A `FieldCondition` with a `MatchValue` on one of the two indexed keywords. */
  datatype Condition = MatchUser(userId: string) | MatchDocument(documentId: string)

  /** A Qdrant `Filter`: `should` is either absent or a list of alternatives. */
  datatype Filter = Filter(must: seq<Condition>, should: Option<seq<Condition>>)

  predicate Matches(p: Payload, c: Condition) {
    match c
    case MatchUser(u) => p.userId == u
    case MatchDocument(d) => p.documentId == d
  }

  /** Qdrant's reading of a filter: every `must` condition holds, and one `should` condition when they are given. */
  predicate Admits(f: Filter, p: Payload) {
    && (forall i :: 0 <= i < |f.must| ==> Matches(p, f.must[i]))
    && (f.should.None? || exists i :: 0 <= i < |f.should.value| && Matches(p, f.should.value[i]))
  }

  function DocumentConditions(ids: seq<string>): seq<Condition> {
    seq(|ids|, i requires 0 <= i < |ids| => MatchDocument(ids[i]))
  }

  // ----- search (lines 112-176) -----

  /**
   * The filter of `search`: the user always, and one of the requested documents when the list
   * is non-empty; an absent or empty list restricts nothing.
   */
  function SearchFilter(userId: string, documentIds: Option<seq<string>>): (f: Filter)
    ensures forall p: Payload :: Admits(f, p) <==>
      p.userId == userId && (documentIds.None? || documentIds.value == [] || p.documentId in documentIds.value)
  {
    var should := if documentIds.Some? && documentIds.value != [] then Some(DocumentConditions(documentIds.value)) else None;
    var f := Filter([MatchUser(userId)], should);
    assert forall p: Payload :: Admits(f, p) ==> p.userId == userId by {
      forall p: Payload | Admits(f, p) ensures p.userId == userId {
        assert Matches(p, f.must[0]);
      }
    }
    assert forall p: Payload :: (p.userId == userId && documentIds.Some? && documentIds.value != []
                                 && p.documentId in documentIds.value) ==> Admits(f, p) by {
      forall p: Payload | p.userId == userId && documentIds.Some? && documentIds.value != [] && p.documentId in documentIds.value
        ensures Admits(f, p)
      {
        var i :| 0 <= i < |documentIds.value| && documentIds.value[i] == p.documentId;
        assert Matches(p, should.value[i]);
      }
    }
    f
  }

  /** `query_points`: the collection, the query vector, the filter and the limit, to ranked hits. */
  type Ranker = (seq<Point>, seq<real>, Filter, nat) -> seq<Hit>

  /** What Qdrant guarantees of a ranking: no more than the limit, and only payloads of admitted points. */
  ghost predicate HonoursFilter(hits: seq<Hit>, points: seq<Point>, f: Filter, limit: nat) {
    && |hits| <= limit
    && forall h: Hit :: h in hits ==> exists pt: Point :: pt in points && pt.payload == h.payload && Admits(f, pt.payload)
  }

  /** The hits scoring at least `minScore`, in ranking order. */
  function AboveScore(hits: seq<Hit>, minScore: real): (r: seq<Hit>)
    ensures |r| <= |hits|
    ensures forall h: Hit :: h in r <==> h in hits && h.score >= minScore
  {
    if hits == [] then []
    else (if hits[0].score >= minScore then [hits[0]] else []) + AboveScore(hits[1..], minScore)
  }

  /** `search`: ask for twice the limit, keep the hits above the threshold, and return the first `limit`. */
  function Search(points: seq<Point>, rank: Ranker, embedding: seq<real>, userId: string, limit: nat,
                  documentIds: Option<seq<string>>, minScore: real): (r: seq<Hit>)
    ensures |r| <= limit
    ensures forall h: Hit :: h in r ==> h.score >= minScore
    ensures var kept := AboveScore(rank(points, embedding, SearchFilter(userId, documentIds), 2 * limit), minScore);
      |r| == (if |kept| < limit then |kept| else limit) && r == kept[..|r|]
  {
    Take(AboveScore(rank(points, embedding, SearchFilter(userId, documentIds), limit * 2), minScore), limit)
  }

  /**
   * Tenant isolation: when the ranking honours the filter, every result is the payload of a
   * point of this user, and of one of the requested documents when a list was given.
   */
  lemma SearchIsolated(points: seq<Point>, rank: Ranker, embedding: seq<real>, userId: string, limit: nat,
                       documentIds: Option<seq<string>>, minScore: real)
    requires HonoursFilter(rank(points, embedding, SearchFilter(userId, documentIds), 2 * limit),
                           points, SearchFilter(userId, documentIds), 2 * limit)
    ensures forall h: Hit :: h in Search(points, rank, embedding, userId, limit, documentIds, minScore) ==>
      && h.payload.userId == userId
      && (documentIds.None? || documentIds.value == [] || h.payload.documentId in documentIds.value)
      && exists pt: Point :: pt in points && pt.payload == h.payload
  {
    var f := SearchFilter(userId, documentIds);
    var kept := AboveScore(rank(points, embedding, f, 2 * limit), minScore);
    var r := Search(points, rank, embedding, userId, limit, documentIds, minScore);
    forall h: Hit | h in r
      ensures h.payload.userId == userId
      ensures documentIds.None? || documentIds.value == [] || h.payload.documentId in documentIds.value
      ensures exists pt: Point :: pt in points && pt.payload == h.payload
    {
      assert h in kept;
      var pt :| pt in points && pt.payload == h.payload && Admits(f, pt.payload);
    }
  }

  // ----- get_document_chunks, get_all_documents and the scroll filters -----

  /** The payloads of the points a filter admits, in storage order (a scroll). */
  function Matching(points: seq<Point>, f: Filter): (r: seq<Payload>)
    ensures |r| <= |points|
    ensures forall p: Payload :: p in r ==> Admits(f, p)
  {
    if points == [] then []
    else
      var last := points[|points| - 1];
      Matching(points[..|points| - 1], f) + (if Admits(f, last.payload) then [last.payload] else [])
  }

  /** Every scrolled payload is the payload of a stored point. */
  lemma {:induction false} MatchingSound(points: seq<Point>, f: Filter, p: Payload)
    requires p in Matching(points, f)
    ensures exists k :: 0 <= k < |points| && points[k].payload == p
  {
    var init := points[..|points| - 1];
    var last := points[|points| - 1];
    if p in Matching(init, f) {
      MatchingSound(init, f, p);
      var k :| 0 <= k < |init| && init[k].payload == p;
      assert points[k] == init[k];
    } else {
      assert p == last.payload;
    }
  }

  /** Every admitted point's payload is scrolled. */
  lemma {:induction false} MatchingComplete(points: seq<Point>, f: Filter, k: nat)
    requires k < |points| && Admits(f, points[k].payload)
    ensures points[k].payload in Matching(points, f)
  {
    var n := |points| - 1;
    if k < n {
      MatchingComplete(points[..n], f, k);
    }
  }

  /** The user filter of the listing scrolls: only a non-empty user id restricts. */
  function UserFilter(userId: Option<string>): (f: Filter)
    ensures forall p: Payload :: Admits(f, p) <==> userId.None? || userId.value == [] || p.userId == userId.value
  {
    var f := Filter(if userId.Some? && userId.value != [] then [MatchUser(userId.value)] else [], None);
    assert forall p: Payload :: Admits(f, p) && userId.Some? && userId.value != [] ==> p.userId == userId.value by {
      forall p: Payload | Admits(f, p) && userId.Some? && userId.value != [] ensures p.userId == userId.value {
        assert Matches(p, f.must[0]);
      }
    }
    f
  }

  /** The filter of `get_document_chunks`: the document, and the user when a non-empty id is given. */
  function DocumentFilter(documentId: string, userId: Option<string>): (f: Filter)
    ensures forall p: Payload :: Admits(f, p) <==>
      p.documentId == documentId && (userId.None? || userId.value == [] || p.userId == userId.value)
  {
    var f := Filter([MatchDocument(documentId)] + (if userId.Some? && userId.value != [] then [MatchUser(userId.value)] else []),
                    None);
    assert forall p: Payload :: Admits(f, p) ==> p.documentId == documentId by {
      forall p: Payload | Admits(f, p) ensures p.documentId == documentId {
        assert Matches(p, f.must[0]);
      }
    }
    assert forall p: Payload :: Admits(f, p) && userId.Some? && userId.value != [] ==> p.userId == userId.value by {
      forall p: Payload | Admits(f, p) && userId.Some? && userId.value != [] ensures p.userId == userId.value {
        assert Matches(p, f.must[1]);
      }
    }
    f
  }

  /** The filter of the delete: document and user, both always. */
  function DeleteFilter(documentId: string, userId: string): (f: Filter)
    ensures forall p: Payload :: Admits(f, p) <==> p.documentId == documentId && p.userId == userId
  {
    var f := Filter([MatchDocument(documentId), MatchUser(userId)], None);
    assert forall p: Payload :: Admits(f, p) ==> p.documentId == documentId && p.userId == userId by {
      forall p: Payload | Admits(f, p) ensures p.documentId == documentId && p.userId == userId {
        assert Matches(p, f.must[0]) && Matches(p, f.must[1]);
      }
    }
    f
  }

  /** The scroll's page size in `get_document_chunks`; only the first page is returned. */
  const ScrollPageLimit: nat := 1000

  /** `get_document_chunks`: the first 1000 matching payloads, in storage order. */
  function DocumentPayloads(points: seq<Point>, documentId: string, userId: Option<string>): (r: seq<Payload>)
    ensures |r| <= ScrollPageLimit
    ensures forall p: Payload :: p in r ==>
      p.documentId == documentId && (userId.None? || userId.value == [] || p.userId == userId.value)
    ensures var all := Matching(points, DocumentFilter(documentId, userId));
      |r| == (if |all| < ScrollPageLimit then |all| else ScrollPageLimit) && r == all[..|r|]
  {
    Take(Matching(points, DocumentFilter(documentId, userId)), ScrollPageLimit)
  }

  /** The points a filter does not admit, in storage order: what a delete by filter leaves. */
  function Without(points: seq<Point>, f: Filter): (r: seq<Point>)
    ensures |r| <= |points|
    ensures forall pt: Point :: pt in r <==> pt in points && !Admits(f, pt.payload)
  {
    if points == [] then []
    else
      var last := points[|points| - 1];
      Without(points[..|points| - 1], f) + (if Admits(f, last.payload) then [] else [last])
  }

  /** A delete by filter drops exactly the admitted points. */
  lemma {:induction false} WithoutPartitions(points: seq<Point>, f: Filter)
    ensures |Without(points, f)| + |Matching(points, f)| == |points|
  {
    if points != [] {
      WithoutPartitions(points[..|points| - 1], f);
    }
  }

  // ----- the summaries of get_all_documents (lines 237-293) -----

  /** The keys in the order of their first occurrence, each once: a dict's insertion order, or `if x not in xs: xs.append(x)`. */
  function FirstSeenOrder(keys: seq<string>): seq<string> {
    if keys == [] then []
    else
      var r := FirstSeenOrder(keys[..|keys| - 1]);
      var last := keys[|keys| - 1];
      if last in r then r else r + [last]
  }

  lemma FirstSeenOrderSnoc(keys: seq<string>, x: string)
    ensures FirstSeenOrder(keys + [x])
      == if x in FirstSeenOrder(keys) then FirstSeenOrder(keys) else FirstSeenOrder(keys) + [x]
  {
    assert (keys + [x])[..|keys|] == keys;
  }

  /** The index of the first occurrence of a key. */
  function FirstIndex(keys: seq<string>, x: string): (k: nat)
    requires x in keys
    ensures k < |keys| && keys[k] == x
    ensures forall j :: 0 <= j < k ==> keys[j] != x
  {
    if keys[0] == x then 0 else 1 + FirstIndex(keys[1..], x)
  }

  /** Extending the keys keeps the first occurrence of a key already present. */
  lemma FirstIndexSnoc(keys: seq<string>, y: string, x: string)
    requires x in keys
    ensures FirstIndex(keys + [y], x) == FirstIndex(keys, x)
  {
    var k := FirstIndex(keys, x);
    var k' := FirstIndex(keys + [y], x);
    assert (keys + [y])[k] == x;
    assert k' <= k;
    assert keys[k'] == x;
  }

  /** First-seen order holds exactly the keys. */
  lemma {:induction false} FirstSeenOrderMembers(keys: seq<string>)
    ensures forall x :: x in FirstSeenOrder(keys) <==> x in keys
  {
    if keys != [] {
      var n := |keys| - 1;
      FirstSeenOrderMembers(keys[..n]);
      FirstSeenOrderSnoc(keys[..n], keys[n]);
      assert keys == keys[..n] + [keys[n]];
    }
  }

  /** First-seen order holds each key once. */
  lemma {:induction false} FirstSeenOrderDistinct(keys: seq<string>)
    ensures var r := FirstSeenOrder(keys);
      forall i, j :: 0 <= i < j < |r| ==> r[i] != r[j]
  {
    if keys != [] {
      var n := |keys| - 1;
      FirstSeenOrderDistinct(keys[..n]);
      FirstSeenOrderSnoc(keys[..n], keys[n]);
    }
  }

  /** Keys listed by their first occurrence. */
  ghost predicate ByFirstIndex(keys: seq<string>, r: seq<string>) {
    && (forall i :: 0 <= i < |r| ==> r[i] in keys)
    && (forall i, j :: 0 <= i < j < |r| ==> FirstIndex(keys, r[i]) < FirstIndex(keys, r[j]))
  }

  /** First-seen order lists the keys by their first occurrence. */
  lemma {:induction false} FirstSeenOrderOrdered(keys: seq<string>)
    ensures var r := FirstSeenOrder(keys);
      && (forall i :: 0 <= i < |r| ==> r[i] in keys)
      && (forall i, j :: 0 <= i < j < |r| ==> FirstIndex(keys, r[i]) < FirstIndex(keys, r[j]))
  {
    if keys != [] {
      var n := |keys| - 1;
      FirstSeenOrderOrdered(keys[..n]);
      FirstSeenOrderOrderedSnoc(keys[..n], keys[n]);
      assert keys == keys[..n] + [keys[n]];
    }
    assert ByFirstIndex(keys, FirstSeenOrder(keys));
  }

  /** One more key keeps first-seen order listed by first occurrence. */
  lemma FirstSeenOrderOrderedSnoc(init: seq<string>, last: string)
    requires ByFirstIndex(init, FirstSeenOrder(init))
    ensures ByFirstIndex(init + [last], FirstSeenOrder(init + [last]))
  {
    var keys := init + [last];
    FirstSeenOrderMembers(keys);
    FirstSeenOrderMembers(init);
    FirstSeenOrderSnoc(init, last);
    var r0 := FirstSeenOrder(init);
    var r := FirstSeenOrder(keys);
    forall i, j | 0 <= i < j < |r| ensures FirstIndex(keys, r[i]) < FirstIndex(keys, r[j]) {
      assert r[i] == r0[i];
      FirstIndexSnoc(init, last, r0[i]);
      if j < |r0| {
        assert r[j] == r0[j];
        FirstIndexSnoc(init, last, r0[j]);
      } else {
        assert r[j] == last && last !in init;
        FirstIndexOfNew(init, last);
      }
    }
  }

  /** A key absent from the prefix first occurs at the end. */
  lemma FirstIndexOfNew(init: seq<string>, last: string)
    requires last !in init
    ensures FirstIndex(init + [last], last) == |init|
  {
    assert forall j :: 0 <= j < |init| ==> (init + [last])[j] == init[j] && init[j] != last;
  }

  /** The payloads of one document, in scroll order. */
  function PayloadsOf(ps: seq<Payload>, id: string): (r: seq<Payload>)
    ensures |r| <= |ps|
  {
    if ps == [] then []
    else
      var last := ps[|ps| - 1];
      PayloadsOf(ps[..|ps| - 1], id) + (if last.documentId == id then [last] else [])
  }

  lemma PayloadsOfSnoc(ps: seq<Payload>, k: nat, id: string)
    requires k < |ps|
    ensures PayloadsOf(ps[..k + 1], id) == PayloadsOf(ps[..k], id) + (if ps[k].documentId == id then [ps[k]] else [])
  {
    assert ps[..k + 1][..k] == ps[..k];
  }

  /** The group of a document holds exactly the payloads carrying its id. */
  lemma {:induction false} PayloadsOfSpec(ps: seq<Payload>, id: string)
    ensures forall p: Payload :: p in PayloadsOf(ps, id) <==> p in ps && p.documentId == id
  {
    if ps != [] {
      var n := |ps| - 1;
      PayloadsOfSpec(ps[..n], id);
      assert ps == ps[..n] + [ps[n]];
    }
  }

  /** The first payload of a document in scroll order heads its group. */
  lemma {:induction false} PayloadsOfFirst(ps: seq<Payload>, id: string, k: nat)
    requires k < |ps| && ps[k].documentId == id
    requires forall j :: 0 <= j < k ==> ps[j].documentId != id
    ensures PayloadsOf(ps, id) != [] && PayloadsOf(ps, id)[0] == ps[k]
  {
    var n := |ps| - 1;
    if k < n {
      PayloadsOfFirst(ps[..n], id, k);
    } else {
      PayloadsOfNone(ps[..n], id);
    }
  }

  lemma {:induction false} PayloadsOfNone(ps: seq<Payload>, id: string)
    requires forall j :: 0 <= j < |ps| ==> ps[j].documentId != id
    ensures PayloadsOf(ps, id) == []
  {
    if ps != [] {
      PayloadsOfNone(ps[..|ps| - 1], id);
    }
  }

  function DocIds(ps: seq<Payload>): (r: seq<string>)
    ensures |r| == |ps|
  {
    seq(|ps|, i requires 0 <= i < |ps| => ps[i].documentId)
  }

  /** A document has payloads exactly when its id was scrolled. */
  lemma {:induction false} PayloadsOfEmptyIff(ps: seq<Payload>, id: string)
    ensures PayloadsOf(ps, id) == [] <==> id !in DocIds(ps)
  {
    if ps != [] {
      var n := |ps| - 1;
      PayloadsOfEmptyIff(ps[..n], id);
      assert DocIds(ps) == DocIds(ps[..n]) + [ps[n].documentId];
      assert id in DocIds(ps) <==> id in DocIds(ps[..n]) || id == ps[n].documentId;
    }
  }

  /** A document's title: that of its first payload, "Unknown" when missing. */
  function TitleOf(group: seq<Payload>): string {
    if group == [] then "Unknown" else group[0].documentTitle.GetOr("Unknown")
  }

  /** The running maximum of `payload.get("page_number", 0)`, from 0. */
  function MaxPage(group: seq<Payload>): int {
    if group == [] then 0
    else
      var m0 := MaxPage(group[..|group| - 1]);
      var page := group[|group| - 1].pageNumber.GetOr(0);
      if page > m0 then page else m0
  }

  /** The page count is at least 0, at least every page number, and one of them when positive. */
  lemma {:induction false} MaxPageSpec(group: seq<Payload>)
    ensures MaxPage(group) >= 0
    ensures forall p: Payload :: p in group ==> p.pageNumber.GetOr(0) <= MaxPage(group)
    ensures MaxPage(group) == 0 || exists p: Payload :: p in group && p.pageNumber.GetOr(0) == MaxPage(group)
  {
    if group != [] {
      var n := |group| - 1;
      MaxPageSpec(group[..n]);
      assert group == group[..n] + [group[n]];
    }
  }

  /** The truthy section titles of a group, in scroll order, duplicates included. */
  function SectionKeys(group: seq<Payload>): seq<string> {
    if group == [] then []
    else
      var last := group[|group| - 1];
      SectionKeys(group[..|group| - 1]) + (if last.sectionTitle.Some? && last.sectionTitle.value != [] then [last.sectionTitle.value] else [])
  }

  /** The section keys are the truthy section titles of the group. */
  lemma {:induction false} SectionKeysSpec(group: seq<Payload>)
    ensures forall p: Payload :: p in group && p.sectionTitle.Some? && p.sectionTitle.value != [] ==>
      p.sectionTitle.value in SectionKeys(group)
    ensures forall x :: x in SectionKeys(group) ==> x != [] && exists p: Payload :: p in group && p.sectionTitle == Some(x)
  {
    if group != [] {
      var n := |group| - 1;
      SectionKeysSpec(group[..n]);
      assert group == group[..n] + [group[n]];
    }
  }

  /** Adding one payload to a group: how each summary field moves, in the loop's terms. */
  lemma GroupSnoc(g: seq<Payload>, p: Payload)
    ensures TitleOf(g + [p]) == if g == [] then p.documentTitle.GetOr("Unknown") else TitleOf(g)
    ensures MaxPage(g + [p]) == if p.pageNumber.GetOr(0) > MaxPage(g) then p.pageNumber.GetOr(0) else MaxPage(g)
    ensures SectionKeys(g + [p])
      == SectionKeys(g) + if p.sectionTitle.Some? && p.sectionTitle.value != [] then [p.sectionTitle.value] else []
  {
    assert (g + [p])[..|g|] == g;
  }

  /** The summary of one document, computed from its group of payloads. */
  function Summary(ps: seq<Payload>, id: string): StoredDocument {
    var group := PayloadsOf(ps, id);
    StoredDocument(id, TitleOf(group), MaxPage(group), |group|, FirstSeenOrder(SectionKeys(group)))
  }

  /** The reference result of `get_all_documents`: one summary per document id, in first-seen order. */
  function Summaries(ps: seq<Payload>): (r: seq<StoredDocument>)
    ensures |r| == |FirstSeenOrder(DocIds(ps))|
  {
    var ids := FirstSeenOrder(DocIds(ps));
    seq(|ids|, i requires 0 <= i < |ids| => Summary(ps, ids[i]))
  }

  /** `get_document_count`: the number of documents listed for the user (for everyone, without one). */
  function DocumentCount(points: seq<Point>, userId: Option<string>): (n: nat)
    ensures n == |Summaries(Matching(points, UserFilter(userId)))|
  {
    |FirstSeenOrder(DocIds(Matching(points, UserFilter(userId))))|
  }

  lemma HeadIsMember<T>(s: seq<T>)
    ensures s != [] ==> s[0] in s
  {
  }

  /** No document is counted exactly when no stored point belongs to the user. */
  lemma DocumentCountZeroIff(points: seq<Point>, userId: Option<string>)
    ensures DocumentCount(points, userId) == 0 <==>
      forall k :: 0 <= k < |points| ==> !Admits(UserFilter(userId), points[k].payload)
  {
    var f := UserFilter(userId);
    var ps := Matching(points, f);
    FirstSeenOrderMembers(DocIds(ps));
    if DocumentCount(points, userId) == 0 {
      assert forall x :: x !in DocIds(ps);
      HeadIsMember(DocIds(ps));
      forall k | 0 <= k < |points| && Admits(f, points[k].payload) ensures points[k].payload in ps {
        MatchingComplete(points, f, k);
      }
    } else {
      assert ps != [];
      MatchingSound(points, f, ps[0]);
    }
  }

  /** A summary as the loop first creates it for a payload. */
  function Fresh(p: Payload): StoredDocument {
    StoredDocument(p.documentId, p.documentTitle.GetOr("Unknown"), 0, 0, [])
  }

  /** The loop's update of a summary by one more payload of its document. */
  function Absorb(doc: StoredDocument, p: Payload): StoredDocument {
    var page := p.pageNumber.GetOr(0);
    var s := p.sectionTitle;
    doc.(chunkCount := doc.chunkCount + 1,
         pageCount := if page > doc.pageCount then page else doc.pageCount,
         sections := if s.Some? && s.value != [] && s.value !in doc.sections then doc.sections + [s.value] else doc.sections)
  }

  /** The reference summary moves by exactly the loop's update, from a fresh record on a document's first payload. */
  lemma SummarySnoc(ps: seq<Payload>, k: nat)
    requires k < |ps|
    ensures var id := ps[k].documentId;
      Summary(ps[..k + 1], id)
        == Absorb(if PayloadsOf(ps[..k], id) == [] then Fresh(ps[k]) else Summary(ps[..k], id), ps[k])
  {
    var id := ps[k].documentId;
    var p := ps[k];
    var g := PayloadsOf(ps[..k], id);
    PayloadsOfSnoc(ps, k, id);
    GroupSnoc(g, p);
    var prev := if g == [] then Fresh(p) else Summary(ps[..k], id);
    assert prev.title == TitleOf(g + [p]);
    assert prev.chunkCount == |g| && prev.pageCount == MaxPage(g);
    assert prev.sections == FirstSeenOrder(SectionKeys(g));
    var s := p.sectionTitle;
    if s.Some? && s.value != [] {
      FirstSeenOrderSnoc(SectionKeys(g), s.value);
    } else {
      assert SectionKeys(g + [p]) == SectionKeys(g);
    }
    var next := Summary(ps[..k + 1], id);
    var absorbed := Absorb(prev, p);
    assert next.id == absorbed.id;
    assert next.title == absorbed.title;
    assert next.chunkCount == absorbed.chunkCount;
    assert next.pageCount == absorbed.pageCount;
    assert next.sections == absorbed.sections;
  }

  /** The summaries keyed by document id: the dict the loop builds. */
  function SummaryMap(ps: seq<Payload>): map<string, StoredDocument> {
    map id | id in DocIds(ps) :: Summary(ps, id)
  }

  /** One more payload updates its own document's entry, created fresh on its first payload, and no other. */
  lemma SummaryMapSnoc(ps: seq<Payload>, k: nat)
    requires k < |ps|
    ensures var m := SummaryMap(ps[..k]);
      var id := ps[k].documentId;
      SummaryMap(ps[..k + 1]) == m[id := Absorb(if id in m then m[id] else Fresh(ps[k]), ps[k])]
  {
    var m := SummaryMap(ps[..k]);
    var id := ps[k].documentId;
    SummaryMapKeysSnoc(ps, k);
    SummaryMapEntrySnoc(ps, k);
    SummaryMapOthersSnoc(ps, k);
    MapUpdateExt(m, SummaryMap(ps[..k + 1]), id, Absorb(if id in m then m[id] else Fresh(ps[k]), ps[k]));
  }

  lemma SummaryMapKeysSnoc(ps: seq<Payload>, k: nat)
    requires k < |ps|
    ensures SummaryMap(ps[..k + 1]).Keys == SummaryMap(ps[..k]).Keys + {ps[k].documentId}
  {
    assert DocIds(ps[..k + 1]) == DocIds(ps[..k]) + [ps[k].documentId];
  }

  lemma SummaryMapEntrySnoc(ps: seq<Payload>, k: nat)
    requires k < |ps|
    ensures var m := SummaryMap(ps[..k]);
      var id := ps[k].documentId;
      id in SummaryMap(ps[..k + 1])
      && SummaryMap(ps[..k + 1])[id] == Absorb(if id in m then m[id] else Fresh(ps[k]), ps[k])
  {
    SummaryMapKeysSnoc(ps, k);
    SummarySnoc(ps, k);
    PayloadsOfEmptyIff(ps[..k], ps[k].documentId);
  }

  lemma SummaryMapOthersSnoc(ps: seq<Payload>, k: nat)
    requires k < |ps|
    ensures var m := SummaryMap(ps[..k]);
      forall x :: x in m && x != ps[k].documentId ==> x in SummaryMap(ps[..k + 1]) && SummaryMap(ps[..k + 1])[x] == m[x]
  {
    SummaryMapKeysSnoc(ps, k);
    var m := SummaryMap(ps[..k]);
    forall x | x in m && x != ps[k].documentId
      ensures x in SummaryMap(ps[..k + 1]) && SummaryMap(ps[..k + 1])[x] == m[x]
    {
      SummaryOther(ps, k, x);
    }
  }

  lemma MapUpdateExt(m: map<string, StoredDocument>, m': map<string, StoredDocument>, k: string, v: StoredDocument)
    requires m'.Keys == m.Keys + {k} && k in m' && m'[k] == v
    requires forall x :: x in m && x != k ==> m'[x] == m[x]
    ensures m' == m[k := v]
  {
  }

  /** One more payload leaves the summaries of the other documents as they were. */
  lemma SummaryOther(ps: seq<Payload>, k: nat, x: string)
    requires k < |ps| && ps[k].documentId != x
    ensures Summary(ps[..k + 1], x) == Summary(ps[..k], x)
  {
    var g := PayloadsOf(ps[..k], x);
    PayloadsOfSnoc(ps, k, x);
    assert g + [] == g;
    assert PayloadsOf(ps[..k + 1], x) == g;
  }

  /** Listing the summary dict in insertion order gives the reference summaries. */
  /** One more payload: its id is a key of the summaries exactly when it was seen, and joins the order if new. */
  lemma OrderSnoc(ps: seq<Payload>, k: nat)
    requires k < |ps|
    ensures var ids := FirstSeenOrder(DocIds(ps[..k]));
      var id := ps[k].documentId;
      && (id in SummaryMap(ps[..k]) <==> id in ids)
      && FirstSeenOrder(DocIds(ps[..k + 1])) == ids + (if id in ids then [] else [id])
  {
    FirstSeenOrderMembers(DocIds(ps[..k]));
    assert DocIds(ps[..k + 1]) == DocIds(ps[..k]) + [ps[k].documentId];
    FirstSeenOrderSnoc(DocIds(ps[..k]), ps[k].documentId);
  }

  lemma SummariesFromMap(ps: seq<Payload>)
    ensures var ids := FirstSeenOrder(DocIds(ps));
      && (forall i :: 0 <= i < |ids| ==> ids[i] in SummaryMap(ps))
      && Summaries(ps) == seq(|ids|, i requires 0 <= i < |ids| => SummaryMap(ps)[ids[i]])
  {
    FirstSeenOrderMembers(DocIds(ps));
  }

  /** One summary per distinct document id, in the order the ids are first scrolled. */
  lemma SummariesPerDocument(ps: seq<Payload>)
    ensures var ids := FirstSeenOrder(DocIds(ps));
      var r := Summaries(ps);
      && (forall i :: 0 <= i < |r| ==> r[i] == Summary(ps, ids[i]) && ids[i] in DocIds(ps))
      && (forall k :: 0 <= k < |ps| ==> ps[k].documentId in ids)
      && (forall i, j :: 0 <= i < j < |r| ==> r[i].id != r[j].id)
      && (forall i, j :: 0 <= i < j < |r| ==> FirstIndex(DocIds(ps), r[i].id) < FirstIndex(DocIds(ps), r[j].id))
  {
    var ids := FirstSeenOrder(DocIds(ps));
    FirstSeenOrderMembers(DocIds(ps));
    FirstSeenOrderDistinct(DocIds(ps));
    FirstSeenOrderOrdered(DocIds(ps));
    forall k | 0 <= k < |ps| ensures ps[k].documentId in ids {
      assert DocIds(ps)[k] == ps[k].documentId;
    }
  }

  /** The summary's title is that of the document's first payload in scroll order. */
  lemma SummaryTitle(ps: seq<Payload>, id: string, k: nat)
    requires k < |ps| && ps[k].documentId == id
    requires forall j :: 0 <= j < k ==> ps[j].documentId != id
    ensures Summary(ps, id).title == ps[k].documentTitle.GetOr("Unknown")
  {
    PayloadsOfFirst(ps, id, k);
  }

  /** The summary counts exactly the document's payloads. */
  lemma SummaryChunkCount(ps: seq<Payload>, id: string)
    ensures Summary(ps, id).chunkCount == |PayloadsOf(ps, id)|
    ensures forall p: Payload :: p in PayloadsOf(ps, id) <==> p in ps && p.documentId == id
  {
    PayloadsOfSpec(ps, id);
  }

  /** The page count is at least 0 and at least every page number of the document, and one of them when positive. */
  lemma SummaryPageCount(ps: seq<Payload>, id: string)
    ensures Summary(ps, id).pageCount >= 0
    ensures forall p: Payload :: p in ps && p.documentId == id ==> p.pageNumber.GetOr(0) <= Summary(ps, id).pageCount
    ensures Summary(ps, id).pageCount == 0
      || exists p: Payload :: p in ps && p.documentId == id && p.pageNumber.GetOr(0) == Summary(ps, id).pageCount
  {
    PayloadsOfSpec(ps, id);
    MaxPageSpec(PayloadsOf(ps, id));
  }

  /** The sections are the document's distinct non-empty section titles, by first occurrence. */
  lemma SummarySections(ps: seq<Payload>, id: string)
    ensures var r := Summary(ps, id).sections;
      && (forall i, j :: 0 <= i < j < |r| ==> r[i] != r[j])
      && (forall p: Payload :: p in ps && p.documentId == id && p.sectionTitle.Some? && p.sectionTitle.value != [] ==>
            p.sectionTitle.value in r)
      && (forall x :: x in r ==> x != [] && exists p: Payload :: p in ps && p.documentId == id && p.sectionTitle == Some(x))
      && (forall i :: 0 <= i < |r| ==> r[i] in SectionKeys(PayloadsOf(ps, id)))
      && (forall i, j :: 0 <= i < j < |r| ==>
            FirstIndex(SectionKeys(PayloadsOf(ps, id)), r[i]) < FirstIndex(SectionKeys(PayloadsOf(ps, id)), r[j]))
  {
    var g := PayloadsOf(ps, id);
    var keys := SectionKeys(g);
    assert Summary(ps, id).sections == FirstSeenOrder(keys);
    PayloadsOfSpec(ps, id);
    SectionKeysSpec(g);
    FirstSeenOrderMembers(keys);
    FirstSeenOrderDistinct(keys);
    FirstSeenOrderOrdered(keys);
  }

  // ----- the store -----

  /** The payload written for a chunk (lines 91-100). */
  function PayloadOf(c: Chunk): Payload {
    Payload(Some(c.chunkId), c.documentId, Some(c.documentTitle), c.userId, Some(c.pageNumber), c.sectionTitle,
            Some(c.text), Some(c.tokenCount))
  }

  /** A payload read back as a chunk, when every field the chunk needs is present. */
  function ChunkOf(p: Payload): (r: Option<Chunk>)
    ensures r.Some? <==> p.chunkId.Some? && p.documentTitle.Some? && p.pageNumber.Some? && p.text.Some? && p.tokenCount.Some?
  {
    if p.chunkId.Some? && p.documentTitle.Some? && p.pageNumber.Some? && p.text.Some? && p.tokenCount.Some? then
      Some(Chunk(p.chunkId.value, p.documentId, p.documentTitle.value, p.userId, p.pageNumber.value, p.sectionTitle,
                 p.text.value, p.tokenCount.value))
    else None
  }

  /** Each stored point carries its chunk's fields: reading the payload back gives the chunk. */
  lemma PayloadRoundTrip(c: Chunk)
    ensures ChunkOf(PayloadOf(c)) == Some(c)
  {
  }

  /** The points `add_chunks` upserts: one per chunk, zipped with its embedding, under a fresh UUID. */
  function NewPoints(chunks: seq<Chunk>, embeddings: seq<seq<real>>, newId: nat -> string): (r: seq<Point>)
    requires |chunks| == |embeddings|
    ensures |r| == |chunks|
    ensures forall i :: 0 <= i < |r| ==> ChunkOf(r[i].payload) == Some(chunks[i]) && r[i].vector == embeddings[i]
  {
    assert forall c :: ChunkOf(PayloadOf(c)) == Some(c) by {
      forall c ensures ChunkOf(PayloadOf(c)) == Some(c) {
        PayloadRoundTrip(c);
      }
    }
    seq(|chunks|, i requires 0 <= i < |chunks| => Point(newId(i), embeddings[i], PayloadOf(chunks[i])))
  }

  const LengthMismatch := "Chunks and embeddings must have same length"

  /** The Qdrant collection behind `VectorStoreService`. */
  class Store {
    var points: seq<Point>

    /** A store over a newly created, empty collection. */
    constructor()
      ensures points == []
    {
      points := [];
    }

    /**
     * `add_chunks`: a length mismatch is an error; an empty batch adds nothing; otherwise one
     * point per chunk is appended and the count returned. `newId` stands for `uuid4`.
     */
    method AddChunks(chunks: seq<Chunk>, embeddings: seq<seq<real>>, newId: nat -> string) returns (r: Result<nat, string>)
      modifies this
      ensures |chunks| != |embeddings| ==> r == Failure(LengthMismatch) && points == old(points)
      ensures |chunks| == |embeddings| && chunks == [] ==> r == Success(0) && points == old(points)
      ensures |chunks| == |embeddings| && chunks != [] ==>
        r == Success(|chunks|) && points == old(points) + NewPoints(chunks, embeddings, newId)
    {
      if |chunks| != |embeddings| {
        return Failure(LengthMismatch);
      }
      if chunks == [] {
        return Success(0);
      }
      var added := NewPoints(chunks, embeddings, newId);
      points := points + added;
      return Success(|added|);
    }

    /**
     * `delete_by_document`: the count is that of the pre-delete scroll; the delete by
     * document and user runs only when the count is positive.
     */
    method DeleteByDocument(documentId: string, userId: string) returns (count: nat)
      modifies this
      ensures count == |DocumentPayloads(old(points), documentId, Some(userId))|
      ensures count > 0 ==> points == Without(old(points), DeleteFilter(documentId, userId))
      ensures count == 0 ==> points == old(points)
    {
      var chunks := DocumentPayloads(points, documentId, Some(userId));
      count := |chunks|;
      if count > 0 {
        points := Without(points, DeleteFilter(documentId, userId));
      }
    }

    /** `get_all_documents`: scroll the user's payloads, then summarise them per document. */
    method GetAllDocuments(userId: Option<string>) returns (docs: seq<StoredDocument>)
      ensures docs == Summaries(Matching(points, UserFilter(userId)))
    {
      var ps := Matching(points, UserFilter(userId));
      docs := AggregateDocuments(ps);
    }

    /**
     * The loop over the scrolled payloads (lines 267-288): a summary is created on a
     * document's first payload and updated on every payload; the result lists the
     * summaries in insertion order.
     */
    static method AggregateDocuments(ps: seq<Payload>) returns (docs: seq<StoredDocument>)
      ensures docs == Summaries(ps)
    {
      var documents: map<string, StoredDocument> := map[];
      var order: seq<string> := [];
      for k := 0 to |ps|
        invariant order == FirstSeenOrder(DocIds(ps[..k]))
        invariant documents == SummaryMap(ps[..k])
      {
        OrderSnoc(ps, k);
        SummaryMapSnoc(ps, k);
        documents, order := AddPayload(documents, order, ps[k]);
      }
      assert ps[..|ps|] == ps;
      SummariesFromMap(ps);
      docs := seq(|order|, i requires 0 <= i < |order| => documents[order[i]]);
    }

    /** One turn of the payload loop (lines 268-288): create the summary on first sight, then update it. */
    static method AddPayload(documents: map<string, StoredDocument>, order: seq<string>, payload: Payload)
      returns (documents': map<string, StoredDocument>, order': seq<string>)
      requires payload.documentId in documents <==> payload.documentId in order
      ensures var id := payload.documentId;
        documents' == documents[id := Absorb(if id in documents then documents[id] else Fresh(payload), payload)]
      ensures order' == order + (if payload.documentId in order then [] else [payload.documentId])
    {
      var docId := payload.documentId;
      documents', order' := documents, order;
      if docId !in documents' {
        documents' := documents'[docId := StoredDocument(docId, payload.documentTitle.GetOr("Unknown"), 0, 0, [])];
        order' := order' + [docId];
      }
      var doc := UpdateSummary(documents'[docId], payload);
      documents' := documents'[docId := doc];
    }

    /** The per-payload update of one summary (lines 280-288). */
    static method UpdateSummary(doc: StoredDocument, payload: Payload) returns (r: StoredDocument)
      ensures r == Absorb(doc, payload)
    {
      r := doc.(chunkCount := doc.chunkCount + 1);
      var pageNum := payload.pageNumber.GetOr(0);
      if pageNum > r.pageCount {
        r := r.(pageCount := pageNum);
      }
      var section := payload.sectionTitle;
      if section.Some? && section.value != [] && section.value !in r.sections {
        r := r.(sections := r.sections + [section.value]);
      }
    }

    /** `get_document_count`: the number of summaries. */
    method GetDocumentCount(userId: Option<string>) returns (n: nat)
      ensures n == DocumentCount(points, userId)
    {
      var docs := GetAllDocuments(userId);
      n := |docs|;
    }
  }
}
