/**
 * The document endpoints of backend/app/api/documents.py: listing, upload, detail and
 * deletion over the vector store. The PDF library's reading of the file, the embedding
 * model, the new document's UUID and the stored points' ids are parameters.
 */
module DocumentsApi {
  import opened Wrappers
  import opened Text
  import opened Models
  import opened Chunker
  import opened PdfProcessor
  import opened VectorStore

  // ----- list_documents (lines 26-60) -----

  datatype DocumentList = DocumentList(documents: seq<StoredDocument>, total: nat, limitReached: bool)

  /** `list_documents`: every stored document, how many there are, and whether the cap is reached. */
  method ListDocuments(store: Store, settings: Settings) returns (r: DocumentList)
    ensures r.documents == Summaries(Matching(store.points, UserFilter(None)))
    ensures r.total == |r.documents| == DocumentCount(store.points, None)
    ensures r.limitReached <==> r.total >= settings.maxDocuments
  {
    var storedDocs := store.GetAllDocuments(None);
    r := DocumentList(storedDocs, |storedDocs|, |storedDocs| >= settings.maxDocuments);
  }

  // ----- upload_document (lines 63-142) -----

  datatype UploadResponse = UploadResponse(id: string, title: string, pageCount: int, chunkCount: nat,
                                           sectionsDetected: set<string>, message: string)

  function DocumentLimitMessage(settings: Settings): string {
    "Document limit reached (" + IntToString(settings.maxDocuments) + "). Delete a document first."
  }

  function UploadMessage(chunkCount: nat): string {
    "Document processed successfully. Created " + NatToString(chunkCount) + " searchable chunks."
  }

  /** The upload's file name, with "document.pdf" standing in for a missing or empty one. */
  function UploadName(filename: Option<string>): (name: string)
    ensures name != []
    ensures filename.Some? && filename.value != [] ==> name == filename.value
  {
    if filename.Some? && filename.value != [] then filename.value else "document.pdf"
  }

  /** What opening the file tells `validate_file`: the page count, or the library's error. */
  function OpenResult(pdf: Result<PdfContent, string>): Result<nat, string> {
    match pdf
    case Success(content) => Success(content.pageCount)
    case Failure(e) => Failure(e)
  }

  /**
   * The reply to a failed `process_pdf`: 400 in both cases, with the `ValueError`'s own text
   * for the page limit and "Failed to process PDF: " before any other error's text.
   */
  function ProcessFailureReply(e: ProcessError): (h: HttpError)
    ensures h.status == 400
    ensures e.PageLimit? ==> h.detail == e.message
    ensures e.LibraryError? ==> h.detail == FailedToProcess + e.message
  {
    match e
    case PageLimit(m) => HttpError(400, m)
    case LibraryError(m) => HttpError(400, FailedToProcess + m)
  }

  const FailedToProcess := "Failed to process PDF: "

  /** `embed_texts` on the chunk texts, one vector per chunk. */
  function Embeddings(chunks: seq<Chunk>, embed: string -> seq<real>): (vs: seq<seq<real>>)
    ensures |vs| == |chunks|
  {
    seq(|chunks|, i requires 0 <= i < |chunks| => embed(chunks[i].text))
  }

  /**
   * `upload_document` for the caller `userId`. `size` is the file's length in bytes, `pdf`
   * what the PDF library reads from it, `docId` the new UUID and `newId` the point ids.
   */
  method UploadDocument(store: Store, settings: Settings, docId: string, userId: string, size: nat,
                        filename: Option<string>, title: Option<string>, pdf: Result<PdfContent, string>,
                        embed: string -> seq<real>, newId: nat -> string, count: Counter)
    returns (r: Result<UploadResponse, HttpError>)
    modifies store
    ensures var name := UploadName(filename);
      var check := ValidateFile(size, name, OpenResult(pdf), settings);
      && (DocumentCount(old(store.points), None) >= settings.maxDocuments ==>
            r == Failure(HttpError(409, DocumentLimitMessage(settings))) && store.points == old(store.points))
      && (DocumentCount(old(store.points), None) < settings.maxDocuments && !check.0 ==>
            r == Failure(HttpError(400, check.1)) && store.points == old(store.points))
      && (DocumentCount(old(store.points), None) < settings.maxDocuments && check.0 && pdf.value.pages.Failure? ==>
            r == Failure(HttpError(400, FailedToProcess + pdf.value.pages.error)) && store.points == old(store.points))
      && (DocumentCount(old(store.points), None) < settings.maxDocuments && check.0 && pdf.value.pages.Success? ==>
            var cfg := ChunkConfig(settings.chunkSizeTokens, settings.chunkOverlapTokens, count);
            var docTitle := DocumentTitle(name, title);
            var chunks := DocumentChunks(docId, docTitle, userId, pdf.value.pages.value, cfg);
            && r == Success(UploadResponse(docId, docTitle, pdf.value.pageCount, |chunks|,
                                           SectionsDetected(pdf.value.pages.value), UploadMessage(|chunks|)))
            && store.points == old(store.points) + NewPoints(chunks, Embeddings(chunks, embed), newId))
  {
    var currentCount := store.GetDocumentCount(None);
    if currentCount >= settings.maxDocuments {
      return Failure(HttpError(409, DocumentLimitMessage(settings)));
    }
    var name := UploadName(filename);
    var check := ValidateFile(size, name, OpenResult(pdf), settings);
    if !check.0 {
      return Failure(HttpError(400, check.1));
    }
    var processed := ProcessPdf(docId, userId, size, name, title, pdf, settings, count);
    if processed.Failure? {
      return Failure(ProcessFailureReply(processed.error));
    }
    var doc := processed.value;
    var embeddings := Embeddings(doc.chunks, embed);
    var _ := store.AddChunks(doc.chunks, embeddings, newId);
    r := Success(UploadResponse(doc.id, doc.title, doc.pageCount, |doc.chunks|, doc.sections, UploadMessage(|doc.chunks|)));
  }

  /**
   * Every point an upload stores carries the new document's id and the uploader's user id,
   * so the uploader's searches may return it and the uploader's delete removes it.
   */
  lemma UploadedPointsBelongToUploader(docId: string, title: string, userId: string, pages: seq<PageData>,
                                       cfg: ChunkConfig, embeddings: seq<seq<real>>, newId: nat -> string)
    requires |embeddings| == |DocumentChunks(docId, title, userId, pages, cfg)|
    ensures var pts := NewPoints(DocumentChunks(docId, title, userId, pages, cfg), embeddings, newId);
      forall i :: 0 <= i < |pts| ==>
        && pts[i].payload.documentId == docId && pts[i].payload.userId == userId
        && Admits(SearchFilter(userId, None), pts[i].payload)
        && Admits(DeleteFilter(docId, userId), pts[i].payload)
  {
    var cs := DocumentChunks(docId, title, userId, pages, cfg);
    DocumentChunksShape(docId, title, userId, pages, cfg);
    var pts := NewPoints(cs, embeddings, newId);
    forall i | 0 <= i < |pts|
      ensures pts[i].payload.documentId == docId && pts[i].payload.userId == userId
    {
      assert ChunkOf(pts[i].payload) == Some(cs[i]);
      assert WellFormedChunk(cs[i], docId, title, userId, cfg.count);
    }
  }

  /**
   * The upload as the service writes it: `add_chunks` reads a `user_id` field that the chunk
   * record does not have, so any upload that produced at least one chunk fails before anything
   * is stored; only a document without chunks gets through.
   */
  method UploadDocumentAsWritten(store: Store, settings: Settings, docId: string, size: nat,
                                 filename: Option<string>, title: Option<string>, pdf: Result<PdfContent, string>,
                                 count: Counter)
    returns (r: Result<UploadResponse, HttpError>)
    ensures var name := UploadName(filename);
      var check := ValidateFile(size, name, OpenResult(pdf), settings);
      && (DocumentCount(store.points, None) >= settings.maxDocuments ==>
            r == Failure(HttpError(409, DocumentLimitMessage(settings))))
      && (DocumentCount(store.points, None) < settings.maxDocuments && !check.0 ==>
            r == Failure(HttpError(400, check.1)))
      && (DocumentCount(store.points, None) < settings.maxDocuments && check.0 && pdf.value.pages.Failure? ==>
            r == Failure(HttpError(400, FailedToProcess + pdf.value.pages.error)))
      && (DocumentCount(store.points, None) < settings.maxDocuments && check.0 && pdf.value.pages.Success? ==>
            var cfg := ChunkConfig(settings.chunkSizeTokens, settings.chunkOverlapTokens, count);
            var docTitle := DocumentTitle(name, title);
            var chunks := DocumentChunks(docId, docTitle, "", pdf.value.pages.value, cfg);
            && (chunks != [] ==> r == Failure(HttpError(500, "Internal Server Error")))
            && (chunks == [] ==> r == Success(UploadResponse(docId, docTitle, pdf.value.pageCount, 0,
                                                             SectionsDetected(pdf.value.pages.value), UploadMessage(0)))))
  {
    var currentCount := store.GetDocumentCount(None);
    if currentCount >= settings.maxDocuments {
      return Failure(HttpError(409, DocumentLimitMessage(settings)));
    }
    var name := UploadName(filename);
    var check := ValidateFile(size, name, OpenResult(pdf), settings);
    if !check.0 {
      return Failure(HttpError(400, check.1));
    }
    // the chunk record carries no user id; the empty one stands for the missing field
    var processed := ProcessPdf(docId, "", size, name, title, pdf, settings, count);
    if processed.Failure? {
      return Failure(ProcessFailureReply(processed.error));
    }
    var doc := processed.value;
    if doc.chunks != [] {
      return Failure(HttpError(500, "Internal Server Error"));
    }
    r := Success(UploadResponse(doc.id, doc.title, doc.pageCount, 0, doc.sections, UploadMessage(0)));
  }

  // ----- get_document (lines 145-207) -----

  const PreviewLength: nat := 100

  /** The chunk preview: the text itself up to 100 characters, else its first 100 and an ellipsis. */
  function Preview(text: string): (p: string)
    ensures |text| <= PreviewLength ==> p == text
    ensures |text| > PreviewLength ==> |p| == PreviewLength + 3 && p[..PreviewLength] == text[..PreviewLength] && p[PreviewLength..] == "..."
  {
    if |text| > PreviewLength then text[..PreviewLength] + "..." else text
  }

  datatype ChunkSummary = ChunkSummary(chunkId: string, pageNumber: int, sectionTitle: Option<string>, tokenCount: int, preview: string)

  function ChunkSummaryOf(p: Payload): ChunkSummary {
    ChunkSummary(p.chunkId.GetOr(""), p.pageNumber.GetOr(0), p.sectionTitle, p.tokenCount.GetOr(0), Preview(p.text.GetOr("")))
  }

  /** The largest page number among a document's chunks (a missing number read as 0); there is at least one chunk. */
  function MaxPageNumber(ps: seq<Payload>): (m: int)
    requires ps != []
    ensures forall i :: 0 <= i < |ps| ==> ps[i].pageNumber.GetOr(0) <= m
    ensures exists i :: 0 <= i < |ps| && ps[i].pageNumber.GetOr(0) == m
  {
    if |ps| == 1 then ps[0].pageNumber.GetOr(0)
    else
      var rest := MaxPageNumber(ps[..|ps| - 1]);
      var last := ps[|ps| - 1].pageNumber.GetOr(0);
      assert forall i :: 0 <= i < |ps| - 1 ==> ps[..|ps| - 1][i] == ps[i];
      if last > rest then last else rest
  }

  /** The distinct non-empty section titles of a document's chunks. */
  function DetailSections(ps: seq<Payload>): (s: set<string>)
    ensures forall t :: t in s <==> t != [] && exists i :: 0 <= i < |ps| && ps[i].sectionTitle == Some(t)
  {
    set i | 0 <= i < |ps| && ps[i].sectionTitle.Some? && ps[i].sectionTitle.value != [] :: ps[i].sectionTitle.value
  }

  datatype DocumentDetail = DocumentDetail(id: string, title: string, pageCount: int, chunks: seq<ChunkSummary>, sections: set<string>)

  function NotFoundMessage(documentId: string): string {
    "Document not found: " + documentId
  }

  /** `get_document`: 404 when the scroll finds nothing, else the document rebuilt from its chunks. */
  function GetDocument(store: Store, documentId: string): (r: Result<DocumentDetail, HttpError>)
    reads store
    ensures var ps := DocumentPayloads(store.points, documentId, None);
      && (ps == [] <==> r.Failure?)
      && (r.Failure? ==> r.error == HttpError(404, NotFoundMessage(documentId)))
      && (r.Success? ==>
            && r.value.id == documentId
            && r.value.title == ps[0].documentTitle.GetOr("Unknown")
            && |r.value.chunks| == |ps|
            && (forall i :: 0 <= i < |ps| ==> r.value.chunks[i] == ChunkSummaryOf(ps[i]))
            && (forall i :: 0 <= i < |ps| ==> ps[i].pageNumber.GetOr(0) <= r.value.pageCount)
            && (exists i :: 0 <= i < |ps| && ps[i].pageNumber.GetOr(0) == r.value.pageCount)
            && (forall t :: t in r.value.sections <==> t != [] && exists i :: 0 <= i < |ps| && ps[i].sectionTitle == Some(t)))
  {
    var chunksData := DocumentPayloads(store.points, documentId, None);
    if chunksData == [] then Failure(HttpError(404, NotFoundMessage(documentId)))
    else
      var chunks := seq(|chunksData|, i requires 0 <= i < |chunksData| => ChunkSummaryOf(chunksData[i]));
      Success(DocumentDetail(documentId, chunksData[0].documentTitle.GetOr("Unknown"), MaxPageNumber(chunksData),
                             chunks, DetailSections(chunksData)))
  }

  // ----- delete_document (lines 210-245) -----

  datatype DeleteResponse = DeleteResponse(success: bool, message: string, chunksRemoved: nat)

  /**
   * `delete_document` for the caller `userId`: the existence check scrolls every user's
   * points, the deletion only the caller's.
   */
  method DeleteDocument(store: Store, documentId: string, userId: string) returns (r: Result<DeleteResponse, HttpError>)
    modifies store
    ensures DocumentPayloads(old(store.points), documentId, None) == [] ==>
      r == Failure(HttpError(404, NotFoundMessage(documentId))) && store.points == old(store.points)
    ensures DocumentPayloads(old(store.points), documentId, None) != [] ==>
      var removed := |DocumentPayloads(old(store.points), documentId, Some(userId))|;
      && r == Success(DeleteResponse(true, "Document deleted successfully.", removed))
      && store.points == (if removed > 0 then Without(old(store.points), DeleteFilter(documentId, userId)) else old(store.points))
  {
    var chunks := DocumentPayloads(store.points, documentId, None);
    if chunks == [] {
      return Failure(HttpError(404, NotFoundMessage(documentId)));
    }
    var chunksRemoved := store.DeleteByDocument(documentId, userId);
    r := Success(DeleteResponse(true, "Document deleted successfully.", chunksRemoved));
  }

  /**
   * Deleting another user's document succeeds with nothing removed: when no point of the
   * document belongs to the caller, the filtered count is zero, so the store is left as it was.
   */
  lemma ForeignDeleteRemovesNothing(points: seq<Point>, documentId: string, userId: string)
    requires userId != []
    requires forall k :: 0 <= k < |points| && points[k].payload.documentId == documentId ==> points[k].payload.userId != userId
    ensures DocumentPayloads(points, documentId, Some(userId)) == []
  {
    var f := DocumentFilter(documentId, Some(userId));
    var all := Matching(points, f);
    if all != [] {
      MatchingSound(points, f, all[0]);
    }
    assert all == [];
  }

  /**
   * The delete as the endpoint writes it: `delete_by_document` is called without its required
   * `user_id` argument, so a document that exists is never deleted and the request fails.
   */
  method DeleteDocumentAsWritten(store: Store, documentId: string) returns (r: Result<DeleteResponse, HttpError>)
    ensures DocumentPayloads(store.points, documentId, None) == [] ==> r == Failure(HttpError(404, NotFoundMessage(documentId)))
    ensures DocumentPayloads(store.points, documentId, None) != [] ==> r == Failure(HttpError(500, "Internal Server Error"))
  {
    var chunks := DocumentPayloads(store.points, documentId, None);
    if chunks == [] {
      return Failure(HttpError(404, NotFoundMessage(documentId)));
    }
    return Failure(HttpError(500, "Internal Server Error"));
  }
}
