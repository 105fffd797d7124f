/** The mutable context the steps share, what holds of it, and the first two steps.

    A chunk is a value at a position of `chunks`; a step that fills in a field of a chunk
    object replaces the value at that position. */
module IngestContext {
  import opened Wrappers
  import opened Fingerprint
  import opened Corpus
  import opened Ports

  const EMBED_BATCH: nat := 50
  const STORE_BATCH: nat := 50
  const REDUCE_FANIN: nat := 10

  datatype IngestError =
    | ChunkingFailed(documentId: string)
    | StoreReadFailed
    | SummaryWithoutContent(documentId: string)
    | EmbeddingFailed(batch: nat)
    | ChunksWithoutEmbedding(count: nat)
    | StorageFailed(batch: nat)
    | OrphanDeleteFailed
    | RemovedDeleteFailed(documentId: string)
    | Gated(priorErrors: nat)

  class Context {
    const documents: seq<Document>
    const allDocumentIds: set<string>
    var chunks: seq<Chunk>
    var documentSummaries: map<string, string>
    var errors: seq<IngestError>
    var unchangedHashes: set<Id>
    var orphanIds: set<Id>
    var removedDocumentIds: set<string>
    var changedDocumentIds: set<string>
    var changeDetectionRan: bool
    var rawChunksByDoc: map<string, seq<string>>

    constructor (documents: seq<Document>, allDocumentIds: set<string>)
      ensures this.documents == documents && this.allDocumentIds == allDocumentIds
      ensures chunks == [] && documentSummaries == map[] && errors == [] && unchangedHashes == {}
      ensures orphanIds == {} && removedDocumentIds == {} && changedDocumentIds == {}
      ensures !changeDetectionRan && rawChunksByDoc == map[]
    {
      this.documents, this.allDocumentIds := documents, allDocumentIds;
      chunks, documentSummaries, errors, unchangedHashes := [], map[], [], {};
      orphanIds, removedDocumentIds, changedDocumentIds := {}, {}, {};
      changeDetectionRan, rawChunksByDoc := false, map[];
    }
  }

  // ----- what holds of chunks and entries

  predicate HasSoundVector(c: Chunk, embed: string -> Vector) {
    c.embedding.Some? ==> c.embedding.value == embed(c.content)
  }

  predicate IsRaw(c: Chunk) {
    && c.meta.embeddingType in {Some(CHUNK_LABEL), Some(OVERVIEW_LABEL)}
    && c.embedding == None && c.hash == None
    && NulFreeFields(ChunkFields(c)) && c.meta.documentId != ""
  }

  /** A fingerprinted passage, or a generated summary. */
  predicate IsReady(c: Chunk, embed: string -> Vector) {
    && HasSoundVector(c, embed)
    && (if c.meta.embeddingType in {Some(CHUNK_LABEL), Some(OVERVIEW_LABEL)}
        then c.hash == Some(IdOf(ChunkFields(c))) && NulFreeFields(ChunkFields(c)) && c.meta.documentId != ""
        else IsSummary(c))
  }

  predicate IsSummary(c: Chunk) {
    && c.meta.embeddingType == Some(SUMMARY_LABEL) && c.hash == None && c.index == 0
    && EndsWith(c.meta.documentId, SUMMARY_SUFFIX)
  }

  predicate AllReady(cs: seq<Chunk>, embed: string -> Vector) {
    forall i :: 0 <= i < |cs| ==> IsReady(cs[i], embed)
  }

  /** Passages are exactly the entries under a digest, and the digest is that of their own
      hashed fields; every entry's vector is that of its own text. */
  predicate IsSound(id: Id, e: Entry, embed: string -> Vector) {
    && e.embedding == embed(e.content)
    && (IsPassage(e) <==> id.Digest?)
    && (id.Digest? ==> id == IdOf(EntryFields(e)) && NulFreeFields(EntryFields(e)) && e.documentId != "")
    && (id.Named? ==> e.documentId == id.documentId)
  }

  predicate WellFormed(s: Store, embed: string -> Vector) {
    forall id :: id in s ==> IsSound(id, s[id], embed)
  }

  predicate GoodDocument(cfg: Config, d: Document) {
    && d.meta.documentId != ""
    && forall i :: 0 <= i < |RawChunks(cfg, d)| ==> NulFreeFields(ChunkFields(RawChunks(cfg, d)[i]))
  }

  // ----- what a chunk is stored as

  function StorageId(c: Chunk): Id {
    if IsContent(c.meta.embeddingType) && c.hash.Some? then c.hash.value else Named(c.meta.documentId, c.index)
  }

  function EntryOf(c: Chunk): Entry
    requires c.embedding.Some?
  {
    Entry(c.content, c.meta.documentId, c.meta.source, c.meta.kind, c.meta.title, c.meta.embeddingType,
          c.index, PositionOf(c.meta), c.embedding.value)
  }

  /** What a ready chunk is stored as is a sound entry. */
  lemma ReadyIsSound(c: Chunk, embed: string -> Vector)
    requires IsReady(c, embed) && c.embedding.Some?
    ensures IsSound(StorageId(c), EntryOf(c), embed)
    ensures StorageId(c).Named? ==> IsSummary(c) && StorageId(c) == Named(c.meta.documentId, 0)
    ensures StorageId(c).Digest? ==> StorageId(c) == IdOf(ChunkFields(c))
    ensures EntryOf(c).content == c.content && EntryOf(c).index == c.index && EntryOf(c).embeddingType == c.meta.embeddingType
  {
    assert EntryFields(EntryOf(c)) == ChunkFields(c);
  }

  /** For content, an absent label is "chunk". */
  predicate SameLabel(a: Option<string>, b: Option<string>) {
    a == b || (a in [None, Some("chunk")] && b in [None, Some("chunk")])
  }

  predicate SamePlace(a: Meta, b: Meta) {
    a.space == b.space && a.subspace == b.subspace && a.callout == b.callout && a.depth == b.depth
  }

  /** What the fingerprint of content is taken of, segment by segment: its place only if it has one, and
      its label only if that is "overview". */
  lemma HashReads(c: Chunk)
    requires IsContent(c.meta.embeddingType) && NulFreeFields(ChunkFields(c))
    ensures WithHash(c).hash.Some? && WithHash(c).hash.value.Digest?
    ensures var m := c.meta;
      var place := if m.space == "" && m.subspace == "" && m.callout == "" && m.depth == 0 then []
                   else [m.space, m.subspace, m.callout, Decimal(m.depth)];
      Cut(WithHash(c).hash.value.canonical)
      == [c.content, m.title, m.source, m.kind, m.documentId] + place + if m.embeddingType == Some("overview") then ["overview"] else []
  {
    CanonicalReads(ChunkFields(c));
  }

  /** Two pieces of content get the same fingerprint exactly when they agree on text, title, source,
      kind, document, place and label; their numbers and vectors do not count. */
  lemma SameHash(c: Chunk, e: Chunk)
    requires IsContent(c.meta.embeddingType) && IsContent(e.meta.embeddingType)
    requires NulFreeFields(ChunkFields(c)) && NulFreeFields(ChunkFields(e))
    ensures WithHash(c).hash.Some? && WithHash(e).hash.Some?
    ensures WithHash(c).hash == WithHash(e).hash <==>
              && c.content == e.content && c.meta.title == e.meta.title && c.meta.source == e.meta.source
              && c.meta.kind == e.meta.kind && c.meta.documentId == e.meta.documentId
              && SamePlace(c.meta, e.meta) && SameLabel(c.meta.embeddingType, e.meta.embeddingType)
  {
    if Canonical(ChunkFields(c)) == Canonical(ChunkFields(e)) { CanonicalInjective(ChunkFields(c), ChunkFields(e)); }
  }

  /** Under one digest there is one document: the fingerprint names it. */
  lemma SoundEntriesAgree(id: Id, e: Entry, f: Entry, embed: string -> Vector)
    requires IsSound(id, e, embed) && IsSound(id, f, embed)
    ensures e.documentId == f.documentId
    ensures id.Digest? ==> EntryFields(e) == EntryFields(f)
  {
    if id.Digest? { CanonicalInjective(EntryFields(e), EntryFields(f)); }
  }

  // ----- ChunkStep and ContentHashStep

  function AllRaw(cfg: Config, docs: seq<Document>): seq<Chunk> {
    if docs == [] then [] else AllRaw(cfg, docs[..|docs| - 1]) + RawChunks(cfg, docs[|docs| - 1])
  }

  function HashAll(cs: seq<Chunk>): seq<Chunk> {
    seq(|cs|, i requires 0 <= i < |cs| => WithHash(cs[i]))
  }

  lemma RawChunksAreRaw(cfg: Config, d: Document)
    requires GoodDocument(cfg, d)
    ensures forall i :: 0 <= i < |RawChunks(cfg, d)| ==> IsRaw(RawChunks(cfg, d)[i])
  {
    forall i | 0 <= i < |RawChunks(cfg, d)| ensures IsRaw(RawChunks(cfg, d)[i]) {
      assert RawChunks(cfg, d)[i] == RawChunk(cfg, d, i);
    }
  }

  /** The documents whose split succeeded. */
  function Kept(docs: seq<Document>, ok: seq<bool>): seq<Document>
    requires |ok| == |docs|
  {
    if docs == [] then []
    else Kept(docs[..|docs| - 1], ok[..|ok| - 1]) + if ok[|ok| - 1] then [docs[|docs| - 1]] else []
  }

  function SplitErrors(docs: seq<Document>, ok: seq<bool>): seq<IngestError>
    requires |ok| == |docs|
  {
    if docs == [] then []
    else
      SplitErrors(docs[..|docs| - 1], ok[..|ok| - 1])
      + if ok[|ok| - 1] then [] else [ChunkingFailed(docs[|docs| - 1].meta.documentId)]
  }

  lemma {:induction false} NoSplitErrors(docs: seq<Document>, ok: seq<bool>)
    requires |ok| == |docs| && SplitErrors(docs, ok) == []
    ensures Kept(docs, ok) == docs
  {
    if docs != [] {
      NoSplitErrors(docs[..|docs| - 1], ok[..|ok| - 1]);
      assert docs == docs[..|docs| - 1] + [docs[|docs| - 1]];
    }
  }

  lemma KeptStep(docs: seq<Document>, ok: seq<bool>, k: nat, good: bool)
    requires |ok| == k < |docs|
    ensures Kept(docs[..k + 1], ok + [good]) == if good then Kept(docs[..k], ok) + [docs[k]] else Kept(docs[..k], ok)
    ensures SplitErrors(docs[..k + 1], ok + [good])
         == if good then SplitErrors(docs[..k], ok) else SplitErrors(docs[..k], ok) + [ChunkingFailed(docs[k].meta.documentId)]
  {
    assert docs[..k + 1][..k] == docs[..k] && (ok + [good])[..k] == ok;
  }

  lemma RawStep(cfg: Config, kept: seq<Document>, d: Document)
    ensures AllRaw(cfg, kept + [d]) == AllRaw(cfg, kept) + RawChunks(cfg, d)
  {
    assert (kept + [d])[..|kept|] == kept;
  }

  /** What the first documents were chunked into, and what went wrong with them. */
  ghost predicate Chunked(cfg: Config, docs: seq<Document>, k: nat, ok: seq<bool>, chunks: seq<Chunk>,
                          before: seq<IngestError>, errors: seq<IngestError>)
  {
    && |ok| == k <= |docs| && chunks == AllRaw(cfg, Kept(docs[..k], ok))
    && errors == before + SplitErrors(docs[..k], ok)
  }

  lemma ChunkedStep(cfg: Config, docs: seq<Document>, k: nat, ok: seq<bool>, chunks: seq<Chunk>,
                    before: seq<IngestError>, errors: seq<IngestError>, next: nat)
    requires Chunked(cfg, docs, k, ok, chunks, before, errors) && k < |docs| && next == k + 1
    ensures Chunked(cfg, docs, next, ok + [true], chunks + RawChunks(cfg, docs[k]), before, errors)
    ensures Chunked(cfg, docs, next, ok + [false], chunks, before, errors + [ChunkingFailed(docs[k].meta.documentId)])
  {
    KeptStep(docs, ok, k, true);
    KeptStep(docs, ok, k, false);
    RawStep(cfg, Kept(docs[..k], ok), docs[k]);
  }

  /** One piece of a document's text, as the splitter returned it. */
  datatype Piece = Piece(document: Document, index: nat, text: string)

  ghost function PiecesOf(cfg: Config, d: Document): seq<Piece> {
    seq(|SplitText(cfg, d)|, i requires 0 <= i < |SplitText(cfg, d)| => Piece(d, i, SplitText(cfg, d)[i]))
  }

  /** All pieces of the documents, in order. */
  ghost function AllPieces(cfg: Config, docs: seq<Document>): seq<Piece> {
    if docs == [] then [] else AllPieces(cfg, docs[..|docs| - 1]) + PiecesOf(cfg, docs[|docs| - 1])
  }

  /** A space or subspace is an overview, everything else a passage. */
  predicate LabelOf(kind: string, label_: Option<string>) {
    label_ == Some(if kind in ["space", "subspace"] then OVERVIEW_LABEL else CHUNK_LABEL)
  }

  /** A fresh chunk of the piece: its text and number, and the document's metadata but for the label. */
  predicate IsChunkOf(c: Chunk, p: Piece) {
    && c.content == p.text && c.index == p.index && c.embedding == None && c.hash == None
    && c.meta.(embeddingType := None) == p.document.meta.(embeddingType := None)
    && LabelOf(p.document.meta.kind, c.meta.embeddingType)
  }

  ghost predicate AreChunksOf(cs: seq<Chunk>, pieces: seq<Piece>) {
    |cs| == |pieces| && forall i :: 0 <= i < |cs| ==> IsChunkOf(cs[i], pieces[i])
  }

  /** The splitter is asked with the size and the overlap of the document's kind; an overlap that
      is not below the size is none. */
  lemma SplitBySize(cfg: Config, d: Document)
    ensures d.meta.kind in ["space", "subspace"] ==> SplitText(cfg, d) == cfg.split(d.content, 8000, 0)
    ensures d.meta.kind == "post" ==>
              SplitText(cfg, d) == cfg.split(d.content, 2000, if cfg.chunkOverlap < 2000 then cfg.chunkOverlap else 0)
    ensures d.meta.kind !in ["space", "subspace", "post"] ==>
              SplitText(cfg, d) == cfg.split(d.content, cfg.chunkSize, if cfg.chunkOverlap < cfg.chunkSize then cfg.chunkOverlap else 0)
  {}

  lemma {:induction false} AllRawArePieces(cfg: Config, docs: seq<Document>)
    ensures AreChunksOf(AllRaw(cfg, docs), AllPieces(cfg, docs))
    decreases |docs|
  {
    if docs != [] {
      var n := |docs| - 1;
      AllRawArePieces(cfg, docs[..n]);
      RawArePieces(cfg, docs[n]);
    }
  }

  lemma RawArePieces(cfg: Config, d: Document)
    ensures AreChunksOf(RawChunks(cfg, d), PiecesOf(cfg, d))
  {}

  /** Chunks every document; `ok` tells whose split did not raise. */
  method ChunkDocuments(ctx: Context, ports: Ports, cfg: Config) returns (ghost ok: seq<bool>)
    requires forall d :: d in ctx.documents ==> GoodDocument(cfg, d)
    requires ctx.chunks == []
    modifies ctx`chunks, ctx`errors, ports`faults
    ensures |ok| == |ctx.documents|
    ensures ctx.chunks == AllRaw(cfg, Kept(ctx.documents, ok))
    // the pieces of the documents that split, each with its own text, number and label
    ensures AreChunksOf(ctx.chunks, AllPieces(cfg, Kept(ctx.documents, ok)))
    ensures ctx.errors == old(ctx.errors) + SplitErrors(ctx.documents, ok)
    ensures forall i :: 0 <= i < |ctx.chunks| ==> IsRaw(ctx.chunks[i])
    ensures ctx.errors == old(ctx.errors) ==> ctx.chunks == AllRaw(cfg, ctx.documents)
    ensures NoFaults(old(ports.faults)) ==> NoFaults(ports.faults) && ctx.errors == old(ctx.errors)
  {
    var docs := ctx.documents;
    ok := [];
    for k := 0 to |docs|
      invariant Chunked(cfg, docs, k, ok, ctx.chunks, old(ctx.errors), ctx.errors)
      invariant forall i :: 0 <= i < |ctx.chunks| ==> IsRaw(ctx.chunks[i])
      invariant NoFaults(old(ports.faults)) ==> NoFaults(ports.faults) && ctx.errors == old(ctx.errors)
    {
      ChunkedStep(cfg, docs, k, ok, ctx.chunks, old(ctx.errors), ctx.errors, k + 1);
      var texts := ports.Split(cfg, docs[k]);
      if texts.Some? {
        RawChunksAreRaw(cfg, docs[k]);
        ctx.chunks := ctx.chunks + RawChunks(cfg, docs[k]);
      } else {
        ctx.errors := ctx.errors + [ChunkingFailed(docs[k].meta.documentId)];
      }
      ok := ok + [texts.Some?];
    }
    TakeAll(docs);
    if ctx.errors == old(ctx.errors) { NoSplitErrors(docs, ok); }
    AllRawArePieces(cfg, Kept(docs, ok));
  }

  method HashContent(ctx: Context)
    modifies ctx`chunks
    ensures ctx.chunks == HashAll(old(ctx.chunks))
  {
    for k := 0 to |ctx.chunks|
      invariant |ctx.chunks| == old(|ctx.chunks|)
      invariant forall i :: 0 <= i < |ctx.chunks| ==>
                  ctx.chunks[i] == if i < k then WithHash(old(ctx.chunks)[i]) else old(ctx.chunks)[i]
    {
      if IsContent(ctx.chunks[k].meta.embeddingType) {
        ctx.chunks := ctx.chunks[k := ctx.chunks[k].(hash := Some(IdOf(ChunkFields(ctx.chunks[k]))))];
      }
    }
  }

  lemma HashedIsReady(c: Chunk, embed: string -> Vector)
    requires IsRaw(c)
    ensures IsReady(WithHash(c), embed)
  {
    assert ChunkFields(WithHash(c)) == ChunkFields(c);
  }
}
