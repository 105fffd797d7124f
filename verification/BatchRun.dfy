/** One batch: the six batch steps over a fresh context, and what they leave behind. */
module BatchRun {
  import opened Wrappers
  import opened Fingerprint
  import opened Corpus
  import opened Ports
  import opened IngestContext
  import opened Detection
  import opened Enrichment
  import opened Storing

  // ----- what the documents ask for

  /** The ids the documents' passages are to be stored under. */
  ghost function LiveIds(cfg: Config, docs: seq<Document>): set<Id> {
    set c | c in AllRaw(cfg, docs) :: IdOf(ChunkFields(c))
  }

  function DocumentIds(docs: seq<Document>): set<string> {
    set d | d in docs :: d.meta.documentId
  }

  /** The documents the splitter gets at least one passage out of. */
  ghost function ChunkedDocuments(cfg: Config, docs: seq<Document>): set<string> {
    set d | d in docs && RawChunks(cfg, d) != [] :: d.meta.documentId
  }

  ghost predicate GoodDocuments(cfg: Config, docs: seq<Document>) {
    forall d :: d in docs ==> GoodDocument(cfg, d)
  }

  predicate IsSummaryId(id: Id) {
    id.Named? && EndsWith(id.documentId, SUMMARY_SUFFIX)
  }

  /** The entries of these documents that are no longer among their passages. */
  ghost function StaleIds(s: Store, documents: set<string>, live: set<Id>): set<Id> {
    set id | id in s && s[id].documentId in documents && id !in live
  }

  /** Nothing of these documents is missing from the store and nothing of them is left over. */
  ghost predicate Settled(s: Store, cfg: Config, docs: seq<Document>) {
    && LiveIds(cfg, docs) <= s.Keys
    && StaleIds(s, ChunkedDocuments(cfg, docs), LiveIds(cfg, docs)) == {}
  }

  // ----- chunks of documents

  lemma {:induction false} AllRawMembers(cfg: Config, docs: seq<Document>)
    ensures forall c :: c in AllRaw(cfg, docs) <==> exists d :: d in docs && c in RawChunks(cfg, d)
  {
    if docs != [] {
      var front, last := docs[..|docs| - 1], docs[|docs| - 1];
      AllRawMembers(cfg, front);
      assert docs == front + [last];
      forall c ensures c in AllRaw(cfg, docs) <==> exists d :: d in docs && c in RawChunks(cfg, d) {
        if d :| d in docs && c in RawChunks(cfg, d) { assert d in front || d == last; }
        if c in RawChunks(cfg, last) { assert last in docs; }
        if d :| d in front && c in RawChunks(cfg, d) { assert d in docs; }
      }
    }
  }

  lemma RawChunkOf(cfg: Config, d: Document, c: Chunk)
    requires c in RawChunks(cfg, d)
    ensures c.meta.documentId == d.meta.documentId
    ensures c.meta.embeddingType in {Some(CHUNK_LABEL), Some(OVERVIEW_LABEL)}
    ensures GoodDocument(cfg, d) ==> IsRaw(c)
  {
    var i :| 0 <= i < |RawChunks(cfg, d)| && RawChunks(cfg, d)[i] == c;
    assert c == RawChunk(cfg, d, i);
    if GoodDocument(cfg, d) { RawChunksAreRaw(cfg, d); }
  }

  lemma LiveRaw(cfg: Config, docs: seq<Document>)
    requires GoodDocuments(cfg, docs)
    ensures forall c :: c in AllRaw(cfg, docs) ==> IsRaw(c) && c.meta.documentId in ChunkedDocuments(cfg, docs)
    ensures forall x :: x in ChunkedDocuments(cfg, docs) ==> exists c :: c in AllRaw(cfg, docs) && c.meta.documentId == x
  {
    AllRawMembers(cfg, docs);
    forall c | c in AllRaw(cfg, docs) ensures IsRaw(c) && c.meta.documentId in ChunkedDocuments(cfg, docs) {
      var d :| d in docs && c in RawChunks(cfg, d);
      RawChunkOf(cfg, d, c);
    }
    forall x | x in ChunkedDocuments(cfg, docs) ensures exists c :: c in AllRaw(cfg, docs) && c.meta.documentId == x {
      var d :| d in docs && RawChunks(cfg, d) != [] && d.meta.documentId == x;
      var c := RawChunks(cfg, d)[0];
      assert c in RawChunks(cfg, d);
      RawChunkOf(cfg, d, c);
    }
  }

  lemma HashedChunk(cfg: Config, docs: seq<Document>, cs: seq<Chunk>, i: nat)
    requires GoodDocuments(cfg, docs) && cs == HashAll(AllRaw(cfg, docs)) && i < |cs|
    ensures var c := AllRaw(cfg, docs)[i];
      && c in AllRaw(cfg, docs) && cs[i] in cs && IsContent(cs[i].meta.embeddingType)
      && cs[i].meta.documentId == c.meta.documentId
      && StorageId(cs[i]) == IdOf(ChunkFields(c)) && cs[i].hash == Some(IdOf(ChunkFields(c)))
  {
    LiveRaw(cfg, docs);
    assert AllRaw(cfg, docs)[i] in AllRaw(cfg, docs) && cs[i] == WithHash(AllRaw(cfg, docs)[i]);
  }

  /** Fingerprinted, the passages of the documents are named by the live ids. */
  lemma HashedIds(cfg: Config, docs: seq<Document>, cs: seq<Chunk>)
    requires GoodDocuments(cfg, docs) && cs == HashAll(AllRaw(cfg, docs))
    ensures ChunkIds(cs) == LiveIds(cfg, docs)
  {
    var raw := AllRaw(cfg, docs);
    forall i | 0 <= i < |cs| ensures StorageId(cs[i]) in LiveIds(cfg, docs) { HashedChunk(cfg, docs, cs, i); }
    forall id | id in LiveIds(cfg, docs) ensures id in ChunkIds(cs) {
      var c :| c in raw && IdOf(ChunkFields(c)) == id;
      var i :| 0 <= i < |raw| && raw[i] == c;
      HashedChunk(cfg, docs, cs, i);
    }
  }

  lemma HashedDocuments(cfg: Config, docs: seq<Document>, cs: seq<Chunk>)
    requires GoodDocuments(cfg, docs) && cs == HashAll(AllRaw(cfg, docs))
    ensures ContentDocuments(cs) == ChunkedDocuments(cfg, docs)
  {
    var raw := AllRaw(cfg, docs);
    LiveRaw(cfg, docs);
    forall x | x in ContentDocuments(cs) ensures x in ChunkedDocuments(cfg, docs) {
      var c :| c in cs && IsContent(c.meta.embeddingType) && c.meta.documentId == x;
      var i :| 0 <= i < |cs| && cs[i] == c;
      HashedChunk(cfg, docs, cs, i);
    }
    forall x | x in ChunkedDocuments(cfg, docs) ensures x in ContentDocuments(cs) {
      var c :| c in raw && c.meta.documentId == x;
      var i :| 0 <= i < |raw| && raw[i] == c;
      HashedChunk(cfg, docs, cs, i);
    }
  }

  lemma HashedLive(cfg: Config, docs: seq<Document>, cs: seq<Chunk>, d: string, id: Id)
    requires GoodDocuments(cfg, docs) && cs == HashAll(AllRaw(cfg, docs))
    ensures HashedBy(cs, d, id) <==> exists c :: c in AllRaw(cfg, docs) && c.meta.documentId == d && IdOf(ChunkFields(c)) == id
  {
    var raw := AllRaw(cfg, docs);
    if HashedBy(cs, d, id) {
      var c :| c in cs && IsContent(c.meta.embeddingType) && c.meta.documentId == d && c.hash == Some(id);
      var i :| 0 <= i < |cs| && cs[i] == c;
      HashedChunk(cfg, docs, cs, i);
    }
    if c :| c in raw && c.meta.documentId == d && IdOf(ChunkFields(c)) == id {
      var i :| 0 <= i < |raw| && raw[i] == c;
      HashedChunk(cfg, docs, cs, i);
    }
  }

  /** A stored entry under a live id belongs to the document that passage belongs to. */
  lemma LiveEntry(s: Store, embed: string -> Vector, c: Chunk, id: Id)
    requires WellFormed(s, embed) && IsRaw(c) && id == IdOf(ChunkFields(c)) && id in s
    ensures EntryFields(s[id]) == ChunkFields(c) && s[id].documentId == c.meta.documentId
  {
    assert IsSound(id, s[id], embed);
    CanonicalInjective(EntryFields(s[id]), ChunkFields(c));
  }

  lemma OrphansAreStale(s: Store, cfg: Config, docs: seq<Document>, cs: seq<Chunk>, embed: string -> Vector)
    requires WellFormed(s, embed) && GoodDocuments(cfg, docs) && cs == HashAll(AllRaw(cfg, docs))
    ensures Orphans(cs, s, ContentDocuments(cs)) == StaleIds(s, ChunkedDocuments(cfg, docs), LiveIds(cfg, docs))
  {
    HashedDocuments(cfg, docs, cs);
    LiveRaw(cfg, docs);
    forall id | id in s ensures HashedBy(cs, s[id].documentId, id) <==> id in LiveIds(cfg, docs) {
      HashedLive(cfg, docs, cs, s[id].documentId, id);
      if id in LiveIds(cfg, docs) {
        var c :| c in AllRaw(cfg, docs) && IdOf(ChunkFields(c)) == id;
        LiveEntry(s, embed, c, id);
      }
    }
  }

  // ----- readiness along the steps

  predicate Grew(cs: seq<Chunk>, ds: seq<Chunk>) {
    && |cs| <= |ds|
    && (forall i :: 0 <= i < |cs| ==> ds[i].(embedding := None) == cs[i].(embedding := None))
    && (forall i :: |cs| <= i < |ds| ==> IsSummary(ds[i]))
  }

  lemma GrewTrans(cs: seq<Chunk>, ds: seq<Chunk>, es: seq<Chunk>)
    requires Grew(cs, ds) && Grew(ds, es)
    ensures Grew(cs, es)
  {
    forall i | |cs| <= i < |es| ensures IsSummary(es[i]) {
      if i < |ds| { assert es[i].(embedding := None) == ds[i].(embedding := None); }
    }
  }

  lemma GrewIds(cs: seq<Chunk>, ds: seq<Chunk>)
    requires Grew(cs, ds)
    ensures ChunkIds(cs) <= ChunkIds(ds)
    ensures forall id :: id in ChunkIds(ds) ==> id in ChunkIds(cs) || IsSummaryId(id)
    ensures ContentDocuments(ds) == ContentDocuments(cs)
  {
    forall i | 0 <= i < |cs|
      ensures StorageId(cs[i]) == StorageId(ds[i]) && cs[i].meta == ds[i].meta && cs[i] in cs && ds[i] in ds
    {
      assert ds[i].(embedding := None) == cs[i].(embedding := None);
    }
    forall x ensures x in ContentDocuments(ds) <==> x in ContentDocuments(cs) {
      if x in ContentDocuments(ds) {
        var d :| d in ds && IsContent(d.meta.embeddingType) && d.meta.documentId == x;
        var i :| 0 <= i < |ds| && ds[i] == d;
        assert i < |cs|;
      }
      if x in ContentDocuments(cs) {
        var c :| c in cs && IsContent(c.meta.embeddingType) && c.meta.documentId == x;
        var i :| 0 <= i < |cs| && cs[i] == c;
        assert ds[i] in ds;
      }
    }
  }

  predicate AllContent(cs: seq<Chunk>) { forall i :: 0 <= i < |cs| ==> IsContent(cs[i].meta.embeddingType) }

  lemma RawReady(cs: seq<Chunk>, embed: string -> Vector)
    requires forall i :: 0 <= i < |cs| ==> IsRaw(cs[i])
    ensures AllReady(HashAll(cs), embed) && AllContent(HashAll(cs))
  {
    forall i | 0 <= i < |cs| ensures IsReady(HashAll(cs)[i], embed) { HashedIsReady(cs[i], embed); }
  }

  lemma PreloadReady(cs: seq<Chunk>, ds: seq<Chunk>, s: Store, docs: set<string>, embed: string -> Vector)
    requires AllReady(cs, embed) && Preloaded(cs, ds, s, docs) && WellFormed(s, embed)
    ensures AllReady(ds, embed) && Grew(cs, ds) && (AllContent(cs) ==> AllContent(ds))
  {
    forall i | 0 <= i < |cs| ensures IsReady(ds[i], embed) {
      assert ChunkFields(ds[i]) == ChunkFields(cs[i]);
      if IsStored(cs[i], s) {
        var id := cs[i].hash.value;
        assert IsSound(id, s[id], embed);
        CanonicalInjective(EntryFields(s[id]), ChunkFields(cs[i]));
      }
    }
  }

  lemma ResetReady(cs: seq<Chunk>, embed: string -> Vector)
    requires AllReady(cs, embed)
    ensures AllReady(AllChunksReset(cs), embed) && (AllContent(cs) ==> AllContent(AllChunksReset(cs)))
  {
    forall i | 0 <= i < |cs| ensures IsReady(AllChunksReset(cs)[i], embed) {
      assert ChunkFields(AllChunksReset(cs)[i]) == ChunkFields(cs[i]);
    }
  }

  lemma EmbeddedReady(cs: seq<Chunk>, ds: seq<Chunk>, embed: string -> Vector)
    requires AllReady(cs, embed) && EmbeddedBy(cs, ds, embed)
    ensures AllReady(ds, embed) && Grew(cs, ds)
  {
    forall i | 0 <= i < |cs| ensures IsReady(ds[i], embed) {
      assert ChunkFields(ds[i]) == ChunkFields(cs[i]);
    }
  }

  lemma SettledIsStored(s: Store, cfg: Config, docs: seq<Document>, cs: seq<Chunk>, embed: string -> Vector, i: nat)
    requires WellFormed(s, embed) && GoodDocuments(cfg, docs) && Settled(s, cfg, docs)
    requires cs == HashAll(AllRaw(cfg, docs)) && i < |cs|
    ensures IsStored(cs[i], s) && cs[i] in cs && cs[i].meta.documentId in ContentDocuments(cs)
  {
    var c := AllRaw(cfg, docs)[i];
    HashedChunk(cfg, docs, cs, i);
    LiveRaw(cfg, docs);
    assert IdOf(ChunkFields(c)) in LiveIds(cfg, docs);
    LiveEntry(s, embed, c, IdOf(ChunkFields(c)));
  }

  lemma SettledNothingChanged(s: Store, cfg: Config, docs: seq<Document>, cs: seq<Chunk>, embed: string -> Vector)
    requires WellFormed(s, embed) && GoodDocuments(cfg, docs) && Settled(s, cfg, docs)
    requires cs == HashAll(AllRaw(cfg, docs))
    ensures Orphans(cs, s, ContentDocuments(cs)) == {} && Changed(cs, s, ContentDocuments(cs)) == {}
  {
    OrphansAreStale(s, cfg, docs, cs, embed);
    forall i | 0 <= i < |cs| ensures IsStored(cs[i], s) { SettledIsStored(s, cfg, docs, cs, embed, i); }
    forall c | c in cs ensures !IsFresh(c, s) { var i :| 0 <= i < |cs| && cs[i] == c; }
    forall id | id in s && s[id].documentId in ContentDocuments(cs) ensures !IsOrphan(cs, s, id) {
      assert id !in Orphans(cs, s, ContentDocuments(cs));
    }
  }

  /** On a settled store every passage is found, with its vector. */
  lemma SettledIsSkipped(s: Store, cfg: Config, docs: seq<Document>, cs: seq<Chunk>, ds: seq<Chunk>, embed: string -> Vector)
    requires WellFormed(s, embed) && GoodDocuments(cfg, docs) && Settled(s, cfg, docs)
    requires cs == HashAll(AllRaw(cfg, docs)) && Preloaded(cs, ds, s, ContentDocuments(cs))
    ensures forall i :: 0 <= i < |ds| ==> ds[i].embedding.Some? && IsSkipped(ds[i], Unchanged(cs, s, ContentDocuments(cs)))
  {
    forall i | 0 <= i < |ds| ensures ds[i].embedding.Some? && IsSkipped(ds[i], Unchanged(cs, s, ContentDocuments(cs))) {
      SettledIsStored(s, cfg, docs, cs, embed, i);
    }
  }

  // ----- the batch

  /** What a batch without errors establishes, over the store it found. */
  ghost predicate BatchDone(before: Store, after: Store, cfg: Config, docs: seq<Document>, live: set<string>,
                            orphans: set<Id>, removed: set<string>)
  {
    var stale := StaleIds(before, ChunkedDocuments(cfg, docs), LiveIds(cfg, docs));
    && LiveIds(cfg, docs) <= after.Keys
    && (forall id :: id in after ==> id in before || id in LiveIds(cfg, docs) || IsSummaryId(id))
    && stale <= orphans
    && (forall id :: id in orphans ==> id in stale || IsLiveSummary(id, DocumentIds(docs)))
    && removed == StoredDocuments(before) - live
  }

  /** The id of the generated summary of one of these documents. */
  ghost predicate IsLiveSummary(id: Id, documents: set<string>) {
    exists d :: d in documents && id == SummaryId(d)
  }

  method LoadBatch(ctx: Context, ports: Ports, cfg: Config)
    requires GoodDocuments(cfg, ctx.documents) && WellFormed(ports.entries, ports.services.embed)
    requires ctx.chunks == [] && ctx.errors == [] && !ctx.changeDetectionRan
    requires ctx.unchangedHashes == {} && ctx.orphanIds == {} && ctx.changedDocumentIds == {} && ctx.removedDocumentIds == {}
    modifies ctx`chunks, ctx`errors, ctx`unchangedHashes, ctx`orphanIds, ctx`removedDocumentIds, ctx`changedDocumentIds, ctx`changeDetectionRan
    modifies ports`faults
    ensures AllReady(ctx.chunks, ports.services.embed) && AllContent(ctx.chunks)
    ensures ctx.errors == [] ==>
              && Detected(HashAll(AllRaw(cfg, ctx.documents)), ctx, ports.entries, ctx.allDocumentIds)
              && Grew(HashAll(AllRaw(cfg, ctx.documents)), ctx.chunks)
    ensures NoFaults(old(ports.faults)) ==> NoFaults(ports.faults) && ctx.errors == []
  {
    ghost var ok := ChunkDocuments(ctx, ports, cfg);
    RawReady(ctx.chunks, ports.services.embed);
    HashContent(ctx);
    ghost var cs := ctx.chunks;
    ghost var earlier := ctx.errors;
    ChangeDetection(ctx, ports);
    if ctx.errors == earlier {
      PreloadReady(cs, ctx.chunks, ports.entries, ContentDocuments(cs), ports.services.embed);
    } else {
      ResetReady(cs, ports.services.embed);
    }
  }

  /** Every chunk has its vector and is either skipped as unchanged or in the store. */
  predicate AllStored(cs: seq<Chunk>, s: Store, kept: set<Id>) {
    forall i :: 0 <= i < |cs| ==> cs[i].embedding.Some? && (IsSkipped(cs[i], kept) || Written(cs, s, StorageId(cs[i])))
  }

  predicate AllSkipped(cs: seq<Chunk>, kept: set<Id>) {
    forall i :: 0 <= i < |cs| ==> cs[i].embedding.Some? && IsSkipped(cs[i], kept)
  }

  ghost function NewOrphans(cs: seq<Chunk>, cfg: Config, ran: bool, changed: set<string>): set<Id> {
    if cfg.summarize && ran then StaleSummaries(cs, cfg, changed) else {}
  }

  /** The last two steps of a batch, which the engine also ends a run's overview with. */
  method EmbedAndStore(ctx: Context, ports: Ports)
    requires AllReady(ctx.chunks, ports.services.embed) && WellFormed(ports.entries, ports.services.embed)
    modifies ctx`chunks, ctx`errors, ports`faults, ports`entries, ports`embedCalls, ports`writeCalls
    ensures EmbeddedBy(old(ctx.chunks), ctx.chunks, ports.services.embed) && AllReady(ctx.chunks, ports.services.embed)
    ensures Grew(old(ctx.chunks), ctx.chunks) && old(ctx.errors) <= ctx.errors
    ensures Wrote(old(ports.entries), ports.entries, ChunkIds(ctx.chunks), ports.services.embed)
    ensures ctx.errors == old(ctx.errors) ==> AllStored(ctx.chunks, ports.entries, ctx.unchangedHashes)
    ensures AllSkipped(old(ctx.chunks), ctx.unchangedHashes) ==>
              && ctx.chunks == old(ctx.chunks) && ctx.errors == old(ctx.errors) && ports.entries == old(ports.entries)
              && ports.embedCalls == old(ports.embedCalls) && ports.writeCalls == old(ports.writeCalls)
    ensures NoFaults(old(ports.faults)) ==> NoFaults(ports.faults) && ctx.errors == old(ctx.errors)
  {
    ghost var before := ctx.chunks;
    EmbedStep(ctx, ports);
    EmbeddedReady(before, ctx.chunks, ports.services.embed);
    StoreChunks(ctx, ports);
  }

  /** The entry reports the source, title and place of the document's first chunk. */
  ghost predicate ReportsFirst(e: Entry, cs: seq<Chunk>, d: string) {
    exists i: nat :: IsFirstOf(cs, d, i) && e.source == cs[i].meta.source && e.kind == cs[i].meta.kind
                     && e.title == cs[i].meta.title && e.position == PositionOf(cs[i].meta)
  }

  /** Under its own id is stored a summary of the document's chunks, and this is its text. */
  ghost predicate StoresSummary(s: Store, services: Services, cfg: Config, cs: seq<Chunk>, d: string, text: string) {
    && IsSummaryText(services, cfg, TextsOf(cs, d), text)
    && Named(d + "-summary", 0) in s
    && var e := s[Named(d + "-summary", 0)];
       && e.content == text && e.documentId == d + "-summary" && e.embeddingType == Some("summary") && e.index == 0
       && ReportsFirst(e, cs, d)
  }

  /** Every document that qualifies, and no other, has a recorded summary, and it is stored. */
  ghost predicate SummariesStored(s: Store, services: Services, cfg: Config, cs: seq<Chunk>, ran: bool, changed: set<string>,
                                  summaries: map<string, string>)
  {
    && (forall d :: d in summaries <==> Qualifies(cs, cfg, ran, changed, d))
    && (forall d :: d in summaries ==> StoresSummary(s, services, cfg, cs, d, summaries[d]))
  }

  /** The chunks `cs` and after them the summaries of `done`, all with vectors where `fs` has them. */
  ghost predicate WithSummaries(cs: seq<Chunk>, fs: seq<Chunk>, done: seq<string>, summaries: map<string, string>, embed: string -> Vector) {
    && AllContent(cs) && |fs| == |cs| + |done|
    && (forall i :: 0 <= i < |cs| ==> fs[i].(embedding := None) == cs[i].(embedding := None) && IsReady(cs[i], embed))
    && forall j :: 0 <= j < |done| ==> IsSummaryOf(fs[|cs| + j], cs, done[j], summaries, embed)
  }

  lemma SummariesEmbedded(cs: seq<Chunk>, ds: seq<Chunk>, done: seq<string>, summaries: map<string, string>, embed: string -> Vector)
    requires AllContent(cs) && AllReady(cs, embed) && Applied(cs, ds, done, summaries, embed)
    ensures WithSummaries(cs, ds, done, summaries, embed)
  {
    forall i | 0 <= i < |cs| ensures ds[i].(embedding := None) == cs[i].(embedding := None) { assert ds[..|cs|][i] == ds[i]; }
  }

  lemma SummariesKept(cs: seq<Chunk>, ds: seq<Chunk>, fs: seq<Chunk>, done: seq<string>, summaries: map<string, string>, embed: string -> Vector)
    requires WithSummaries(cs, ds, done, summaries, embed) && EmbeddedBy(ds, fs, embed)
    ensures WithSummaries(cs, fs, done, summaries, embed)
  {
    forall j | 0 <= j < |done| ensures IsSummaryOf(fs[|cs| + j], cs, done[j], summaries, embed) {
      assert fs[|cs| + j].meta == ds[|cs| + j].meta && fs[|cs| + j].content == ds[|cs| + j].content;
    }
  }

  lemma SummariesReady(cs: seq<Chunk>, ds: seq<Chunk>, done: seq<string>, summaries: map<string, string>, embed: string -> Vector)
    requires Applied(cs, ds, done, summaries, embed) && AllReady(cs, embed)
    ensures AllReady(ds, embed) && Grew(cs, ds)
  {
    EmbeddedReady(cs, ds[..|cs|], embed);
    forall i | 0 <= i < |ds| ensures IsReady(ds[i], embed) && (i >= |cs| ==> IsSummary(ds[i])) {
      if i < |cs| {
        assert ds[..|cs|][i] == ds[i];
      } else {
        assert IsSummaryOf(ds[|cs| + (i - |cs|)], cs, done[i - |cs|], summaries, embed);
      }
    }
  }

  lemma IdsOfSummaries(cs: seq<Chunk>, fs: seq<Chunk>, done: seq<string>, summaries: map<string, string>, k: nat, embed: string -> Vector)
    requires WithSummaries(cs, fs, done, summaries, embed) && k < |fs|
    ensures k < |cs| ==> StorageId(fs[k]).Digest?
    ensures k >= |cs| ==> StorageId(fs[k]) == Named(done[k - |cs|] + "-summary", 0) && fs[k].hash.None?
  {
    if k < |cs| {
      assert fs[k].meta == cs[k].meta && fs[k].hash == cs[k].hash && IsReady(cs[k], embed);
    } else {
      assert IsSummaryOf(fs[|cs| + (k - |cs|)], cs, done[k - |cs|], summaries, embed);
    }
  }

  ghost function SummaryIds(documents: set<string>): set<Id> { set d | d in documents :: Named(d + "-summary", 0) }

  lemma SummariesNamed(cs: seq<Chunk>, ds: seq<Chunk>, done: seq<string>, summaries: map<string, string>, embed: string -> Vector)
    requires AllContent(cs) && AllReady(cs, embed) && Applied(cs, ds, done, summaries, embed) && Names(done) <= summaries.Keys
    ensures ChunkIds(ds) <= ChunkIds(cs) + SummaryIds(summaries.Keys)
  {
    SummariesEmbedded(cs, ds, done, summaries, embed);
    forall i | 0 <= i < |ds| ensures StorageId(ds[i]) in ChunkIds(cs) + SummaryIds(summaries.Keys) {
      IdsOfSummaries(cs, ds, done, summaries, i, embed);
      if i < |cs| {
        assert StorageId(ds[i]) == StorageId(cs[i]) by { assert ds[i].(embedding := None) == cs[i].(embedding := None); }
      } else {
        assert done[i - |cs|] in Names(done);
      }
    }
  }

  lemma EmbeddedIds(cs: seq<Chunk>, ds: seq<Chunk>, embed: string -> Vector)
    requires EmbeddedBy(cs, ds, embed)
    ensures ChunkIds(ds) <= ChunkIds(cs)
  {
    forall i | 0 <= i < |ds| ensures StorageId(ds[i]) in ChunkIds(cs) { assert StorageId(ds[i]) == StorageId(cs[i]); }
  }

  lemma SummaryStored(s: Store, services: Services, cfg: Config, cs: seq<Chunk>, fs: seq<Chunk>, done: seq<string>, summaries: map<string, string>,
                      kept: set<Id>, j: nat)
    requires WithSummaries(cs, fs, done, summaries, services.embed) && AllStored(fs, s, kept)
    requires Told(services, cfg, cs, done, summaries) && NoDuplicates(done) && j < |done|
    ensures done[j] in summaries && StoresSummary(s, services, cfg, cs, done[j], summaries[done[j]])
  {
    var d, n := done[j], |cs| + j;
    assert d in done;
    var id := Named(d + "-summary", 0);
    IdsOfSummaries(cs, fs, done, summaries, n, services.embed);
    assert !IsSkipped(fs[n], kept) && Written(fs, s, id);
    var k :| 0 <= k < |fs| && fs[k].embedding.Some? && StorageId(fs[k]) == id && s[id] == EntryOf(fs[k]);
    IdsOfSummaries(cs, fs, done, summaries, k, services.embed);
    assert k >= |cs|;
    SameFront(done[k - |cs|], d);
    assert k == n;
    SummaryEntry(cs, fs[n], d, summaries, services.embed);
  }

  lemma SameFront(a: string, b: string)
    requires a + "-summary" == b + "-summary"
    ensures a == b
  {
    assert a == (a + "-summary")[..|a|] && b == (b + "-summary")[..|b|];
  }

  lemma SummaryEntry(cs: seq<Chunk>, c: Chunk, d: string, summaries: map<string, string>, embed: string -> Vector)
    requires IsSummaryOf(c, cs, d, summaries, embed) && c.embedding.Some?
    ensures var e := EntryOf(c);
      && e.content == summaries[d] && e.documentId == d + "-summary" && e.embeddingType == Some("summary") && e.index == 0
      && ReportsFirst(e, cs, d)
  {
    var i: nat :| IsFirstOf(cs, d, i) && c.meta == cs[i].meta.(documentId := c.meta.documentId, embeddingType := c.meta.embeddingType);
    assert PositionOf(c.meta) == PositionOf(cs[i].meta);
  }

  lemma AllSummariesStored(s: Store, services: Services, cfg: Config, cs: seq<Chunk>, ds: seq<Chunk>, fs: seq<Chunk>, done: seq<string>,
                           summaries: map<string, string>, kept: set<Id>, ran: bool, changed: set<string>)
    requires AllContent(cs) && AllReady(cs, services.embed)
    requires SummariesAdded(services, cfg, cs, ds, done, summaries, {}, ran, changed, true) && EmbeddedBy(ds, fs, services.embed) && AllStored(fs, s, kept)
    ensures SummariesStored(s, services, cfg, cs, ran, changed, summaries)
  {
    SummariesEmbedded(cs, ds, done, summaries, services.embed);
    SummariesKept(cs, ds, fs, done, summaries, services.embed);
    forall d ensures d in summaries <==> d in done { assert d in summaries.Keys <==> d in Names(done); }
    forall d | d in summaries ensures StoresSummary(s, services, cfg, cs, d, summaries[d]) {
      var j :| 0 <= j < |done| && done[j] == d;
      SummaryStored(s, services, cfg, cs, fs, done, summaries, kept, j);
    }
  }

  method FinishBatch(ctx: Context, ports: Ports, cfg: Config)
    requires AllReady(ctx.chunks, ports.services.embed) && WellFormed(ports.entries, ports.services.embed)
    requires cfg.chunkThreshold >= 1 && AllContent(ctx.chunks) && ctx.documentSummaries == map[]
    modifies ctx`chunks, ctx`errors, ctx`orphanIds, ctx`documentSummaries
    modifies ports`faults, ports`entries, ports`llmCalls, ports`embedCalls, ports`writeCalls
    ensures Grew(old(ctx.chunks), ctx.chunks) && old(ctx.errors) <= ctx.errors
    ensures Wrote(old(ports.entries), ports.entries, ChunkIds(ctx.chunks), ports.services.embed)
    ensures ctx.orphanIds == old(ctx.orphanIds) + NewOrphans(old(ctx.chunks), cfg, ctx.changeDetectionRan, ctx.changedDocumentIds)
    ensures ctx.errors == old(ctx.errors) ==> AllStored(ctx.chunks, ports.entries, ctx.unchangedHashes)
    ensures !cfg.summarize ==> ctx.documentSummaries == map[]
    ensures ChunkIds(ctx.chunks) <= ChunkIds(old(ctx.chunks)) + SummaryIds(ctx.documentSummaries.Keys)
    ensures cfg.summarize && ctx.errors == old(ctx.errors) ==>
              SummariesStored(ports.entries, ports.services, cfg, old(ctx.chunks), ctx.changeDetectionRan, ctx.changedDocumentIds, ctx.documentSummaries)
    ensures AllSkipped(old(ctx.chunks), ctx.unchangedHashes) && ctx.changeDetectionRan && ctx.changedDocumentIds == {} ==>
              && ctx.errors == old(ctx.errors) && ports.entries == old(ports.entries) && ports.llmCalls == old(ports.llmCalls)
              && ports.embedCalls == old(ports.embedCalls) && ports.writeCalls == old(ports.writeCalls)
    ensures Untroubled(old(ports.faults), ports.services, cfg) ==> ctx.errors == old(ctx.errors)
    ensures NoFaults(old(ports.faults)) ==> NoFaults(ports.faults)
  {
    ghost var loaded := ctx.chunks;
    ghost var done := [];
    if cfg.summarize {
      done := DocumentSummary(ctx, ports, cfg);
      SummariesReady(loaded, ctx.chunks, done, ctx.documentSummaries, ports.services.embed);
      SummariesNamed(loaded, ctx.chunks, done, ctx.documentSummaries, ports.services.embed);
    }
    ghost var summarised := ctx.chunks;
    EmbedAndStore(ctx, ports);
    GrewTrans(loaded, summarised, ctx.chunks);
    EmbeddedIds(summarised, ctx.chunks, ports.services.embed);
    if cfg.summarize && ctx.errors == old(ctx.errors) {
      AllSummariesStored(ports.entries, ports.services, cfg, loaded, summarised, ctx.chunks, done, ctx.documentSummaries,
                         ctx.unchangedHashes, ctx.changeDetectionRan, ctx.changedDocumentIds);
    }
  }

  lemma NewOrphansAreSummaries(cfg: Config, docs: seq<Document>, loaded: seq<Chunk>, ran: bool, changed: set<string>)
    requires GoodDocuments(cfg, docs) && Grew(HashAll(AllRaw(cfg, docs)), loaded) && |loaded| == |AllRaw(cfg, docs)|
    ensures forall id :: id in NewOrphans(loaded, cfg, ran, changed) ==> IsLiveSummary(id, DocumentIds(docs))
  {
    var cs := HashAll(AllRaw(cfg, docs));
    forall c | c in loaded ensures c.meta.documentId in DocumentIds(docs) {
      var i :| 0 <= i < |loaded| && loaded[i] == c;
      assert loaded[i].(embedding := None) == cs[i].(embedding := None);
      HashedChunk(cfg, docs, cs, i);
      LiveRaw(cfg, docs);
      assert AllRaw(cfg, docs)[i].meta.documentId in ChunkedDocuments(cfg, docs);
    }
  }

  lemma BatchConcludes(before: Store, after: Store, cfg: Config, docs: seq<Document>, live: set<string>, final: seq<Chunk>,
                       orphans: set<Id>, more: set<Id>, embed: string -> Vector)
    requires GoodDocuments(cfg, docs) && WellFormed(before, embed)
    requires Grew(HashAll(AllRaw(cfg, docs)), final) && Wrote(before, after, ChunkIds(final), embed)
    requires var cs := HashAll(AllRaw(cfg, docs));
      && AllStored(final, after, Unchanged(cs, before, ContentDocuments(cs)))
      && orphans == Orphans(cs, before, ContentDocuments(cs)) + more
    requires forall id :: id in more ==> IsLiveSummary(id, DocumentIds(docs))
    ensures BatchDone(before, after, cfg, docs, live, orphans, StoredDocuments(before) - live)
    ensures ContentDocuments(final) == ChunkedDocuments(cfg, docs)
  {
    var cs := HashAll(AllRaw(cfg, docs));
    OrphansAreStale(before, cfg, docs, cs, embed);
    HashedIds(cfg, docs, cs);
    HashedDocuments(cfg, docs, cs);
    GrewIds(cs, final);
    forall i | 0 <= i < |cs| ensures IsContent(cs[i].meta.embeddingType) { HashedChunk(cfg, docs, cs, i); }
    AllIdsStored(cs, final, before, after);
  }

  /** A chunk is skipped only when its own id is stored already. */
  lemma AllIdsStored(cs: seq<Chunk>, final: seq<Chunk>, before: Store, after: Store)
    requires Grew(cs, final) && before.Keys <= after.Keys
    requires forall i :: 0 <= i < |cs| ==> IsContent(cs[i].meta.embeddingType)
    requires AllStored(final, after, Unchanged(cs, before, ContentDocuments(cs)))
    ensures ChunkIds(final) <= after.Keys
  {
    var kept := Unchanged(cs, before, ContentDocuments(cs));
    forall i | 0 <= i < |final| ensures StorageId(final[i]) in after {
      if IsSkipped(final[i], kept) {
        assert i < |cs| && final[i].(embedding := None) == cs[i].(embedding := None);
        var c :| c in cs && IsStored(c, before) && c.hash.value == final[i].hash.value;
        assert StorageId(final[i]) == final[i].hash.value;
      }
    }
  }

  /** What a loaded batch comes to once it is finished without errors. */
  lemma LoadedConcludes(s: Store, t: Store, cfg: Config, docs: seq<Document>, live: set<string>, loaded: seq<Chunk>, final: seq<Chunk>,
                        kept: set<Id>, found: set<Id>, more: set<Id>, removed: set<string>, changed: set<string>, embed: string -> Vector)
    requires GoodDocuments(cfg, docs) && WellFormed(s, embed) && Wrote(s, t, ChunkIds(final), embed)
    requires Loaded(s, cfg, docs, live, loaded, kept, found, removed, changed)
    requires Grew(loaded, final) && AllStored(final, t, kept) && more == NewOrphans(loaded, cfg, true, changed)
    ensures BatchDone(s, t, cfg, docs, live, found + more, removed)
    ensures ContentDocuments(final) == ChunkedDocuments(cfg, docs)
  {
    GrewTrans(HashAll(AllRaw(cfg, docs)), loaded, final);
    NewOrphansAreSummaries(cfg, docs, loaded, true, changed);
    BatchConcludes(s, t, cfg, docs, live, final, found + more, more, embed);
  }

  /** On a settled store a loaded batch has nothing to do. */
  lemma LoadedSettled(s: Store, cfg: Config, docs: seq<Document>, ctx: Context, live: set<string>, embed: string -> Vector)
    requires WellFormed(s, embed) && GoodDocuments(cfg, docs) && Settled(s, cfg, docs)
    requires Detected(HashAll(AllRaw(cfg, docs)), ctx, s, live)
    ensures ctx.orphanIds == {} && ctx.changedDocumentIds == {} && AllSkipped(ctx.chunks, ctx.unchangedHashes)
  {
    var cs := HashAll(AllRaw(cfg, docs));
    SettledNothingChanged(s, cfg, docs, cs, embed);
    SettledIsSkipped(s, cfg, docs, cs, ctx.chunks, embed);
  }

  /** A batch as change detection leaves it, over the store it found. */
  ghost predicate Loaded(s: Store, cfg: Config, docs: seq<Document>, live: set<string>, chunks: seq<Chunk>, kept: set<Id>,
                         orphans: set<Id>, removed: set<string>, changed: set<string>)
  {
    var cs := HashAll(AllRaw(cfg, docs));
    && Grew(cs, chunks) && |chunks| == |cs|
    && kept == Unchanged(cs, s, ContentDocuments(cs)) && orphans == Orphans(cs, s, ContentDocuments(cs))
    && changed == Changed(cs, s, ContentDocuments(cs))
    && removed == StoredDocuments(s) - live
  }

  /** A fresh context, with the batch chunked, fingerprinted and compared. */
  method StartBatch(ports: Ports, cfg: Config, docs: seq<Document>, live: set<string>) returns (ctx: Context)
    requires GoodDocuments(cfg, docs) && WellFormed(ports.entries, ports.services.embed) && live != {}
    modifies ports`faults
    ensures fresh(ctx) && AllReady(ctx.chunks, ports.services.embed) && AllContent(ctx.chunks) && ctx.documentSummaries == map[]
    ensures ctx.errors == [] ==>
              && ctx.changeDetectionRan
              && Loaded(ports.entries, cfg, docs, live, ctx.chunks, ctx.unchangedHashes, ctx.orphanIds, ctx.removedDocumentIds, ctx.changedDocumentIds)
    ensures ctx.errors == [] && Settled(ports.entries, cfg, docs) ==>
              ctx.orphanIds == {} && ctx.changedDocumentIds == {} && AllSkipped(ctx.chunks, ctx.unchangedHashes)
    ensures NoFaults(old(ports.faults)) ==> NoFaults(ports.faults) && ctx.errors == []
  {
    ctx := new Context(docs, live);
    LoadBatch(ctx, ports, cfg);
    if ctx.errors == [] && Settled(ports.entries, cfg, docs) { LoadedSettled(ports.entries, cfg, docs, ctx, live, ports.services.embed); }
  }

  // ----- what a batch recorded and wrote

  /** The texts of a document's chunks, summaries aside. */
  function ContentTexts(cs: seq<Chunk>, d: string): seq<string> {
    if cs == [] then []
    else
      var c := cs[|cs| - 1];
      ContentTexts(cs[..|cs| - 1], d) + if IsContent(c.meta.embeddingType) && c.meta.documentId == d then [c.content] else []
  }

  /** The chunks differ at most in fingerprints and vectors. */
  predicate SameTexts(cs: seq<Chunk>, ds: seq<Chunk>) {
    |cs| == |ds| && forall i :: 0 <= i < |cs| ==> ds[i].content == cs[i].content && ds[i].meta == cs[i].meta
  }

  lemma {:induction false} TextsSame(cs: seq<Chunk>, ds: seq<Chunk>, d: string)
    requires SameTexts(cs, ds)
    ensures TextsOf(ds, d) == TextsOf(cs, d) && Count(ds, false, d) == |TextsOf(cs, d)|
  {
    if cs != [] {
      var n := |cs| - 1;
      TextsSame(cs[..n], ds[..n], d);
    }
  }

  lemma {:induction false} ContentSame(cs: seq<Chunk>, ds: seq<Chunk>, d: string)
    requires AllContent(cs) && |cs| <= |ds| && SameTexts(cs, ds[..|cs|]) && forall i :: |cs| <= i < |ds| ==> IsSummary(ds[i])
    ensures ContentTexts(ds, d) == TextsOf(cs, d)
    decreases |ds|
  {
    var n := |ds| - 1;
    if |ds| > |cs| {
      assert ds[..n][..|cs|] == ds[..|cs|];
      ContentSame(cs, ds[..n], d);
      assert IsSummary(ds[n]);
    } else if cs != [] {
      assert ds[..|cs|] == ds && SameTexts(cs[..n], ds[..n]) && ds[..n][..n] == ds[..n];
      ContentSame(cs[..n], ds[..n], d);
    }
  }

  /** All pieces the splitter returns for the documents under one id, in order. */
  function PieceTexts(cfg: Config, docs: seq<Document>, d: string): seq<string> {
    if docs == [] then []
    else
      var n := |docs| - 1;
      PieceTexts(cfg, docs[..n], d) + if docs[n].meta.documentId == d then SplitText(cfg, docs[n]) else []
  }

  lemma {:induction false} TextsPlus(a: seq<Chunk>, b: seq<Chunk>, d: string)
    ensures TextsOf(a + b, d) == TextsOf(a, d) + TextsOf(b, d)
    decreases |b|
  {
    if b == [] {
      assert a + b == a;
    } else {
      assert (a + b)[..|a + b| - 1] == a + b[..|b| - 1];
      TextsPlus(a, b[..|b| - 1], d);
    }
  }

  lemma {:induction false} FirstPieces(cfg: Config, doc: Document, n: nat, d: string)
    requires n <= |RawChunks(cfg, doc)|
    ensures TextsOf(RawChunks(cfg, doc)[..n], d) == if doc.meta.documentId == d then SplitText(cfg, doc)[..n] else []
    decreases n
  {
    if n > 0 {
      FirstPieces(cfg, doc, n - 1, d);
      assert RawChunks(cfg, doc)[..n][..n - 1] == RawChunks(cfg, doc)[..n - 1];
      assert RawChunks(cfg, doc)[..n][n - 1] == RawChunk(cfg, doc, n - 1);
    }
  }

  lemma {:induction false} TextsArePieces(cfg: Config, docs: seq<Document>, d: string)
    ensures TextsOf(AllRaw(cfg, docs), d) == PieceTexts(cfg, docs, d)
    decreases |docs|
  {
    if docs != [] {
      var n := |docs| - 1;
      TextsArePieces(cfg, docs[..n], d);
      FirstPieces(cfg, docs[n], |RawChunks(cfg, docs[n])|, d);
      TakeAll(RawChunks(cfg, docs[n]));
      TakeAll(SplitText(cfg, docs[n]));
      TextsPlus(AllRaw(cfg, docs[..n]), RawChunks(cfg, docs[n]), d);
    }
  }

  /** A summary of these texts, reported under the document it is of. */
  predicate IsSummaryEntry(e: Entry, m: Meta, text: string) {
    && e.content == text && e.documentId == m.documentId + "-summary" && e.embeddingType == Some("summary") && e.index == 0
    && e.source == m.source && e.kind == m.kind && e.title == m.title && e.position == PositionOf(m)
  }

  /** One of the documents has this summary stored, map-reduced from these texts. */
  ghost predicate KeepsSummary(s: Store, services: Services, cfg: Config, docs: seq<Document>, d: string, texts: seq<string>, text: string) {
    && IsSummaryText(services, cfg, texts, text) && Named(d + "-summary", 0) in s
    && exists doc :: doc in docs && doc.meta.documentId == d && IsSummaryEntry(s[Named(d + "-summary", 0)], doc.meta, text)
  }

  /** Exactly the changed documents with enough pieces have summaries, and all of these are kept. */
  ghost predicate BatchSummaries(s: Store, services: Services, cfg: Config, docs: seq<Document>, changed: set<string>, summaries: map<string, string>) {
    && (forall d :: d in summaries <==> d in changed && |PieceTexts(cfg, docs, d)| >= cfg.chunkThreshold)
    && forall d :: d in summaries ==> KeepsSummary(s, services, cfg, docs, d, PieceTexts(cfg, docs, d), summaries[d])
  }

  lemma BatchSummed(s: Store, services: Services, cfg: Config, docs: seq<Document>, loaded: seq<Chunk>, changed: set<string>, summaries: map<string, string>)
    requires SummariesStored(s, services, cfg, loaded, true, changed, summaries) && SameTexts(AllRaw(cfg, docs), loaded)
    ensures BatchSummaries(s, services, cfg, docs, changed, summaries)
  {
    var raw := AllRaw(cfg, docs);
    forall d ensures d in summaries <==> d in changed && |PieceTexts(cfg, docs, d)| >= cfg.chunkThreshold {
      TextsSame(raw, loaded, d);
      TextsArePieces(cfg, docs, d);
      assert d in summaries <==> Qualifies(loaded, cfg, true, changed, d);
    }
    forall d | d in summaries ensures KeepsSummary(s, services, cfg, docs, d, PieceTexts(cfg, docs, d), summaries[d]) {
      TextsSame(raw, loaded, d);
      TextsArePieces(cfg, docs, d);
      assert StoresSummary(s, services, cfg, loaded, d, summaries[d]);
      FirstIsDocument(cfg, docs, loaded, s[Named(d + "-summary", 0)], d);
    }
  }

  lemma FirstIsDocument(cfg: Config, docs: seq<Document>, loaded: seq<Chunk>, e: Entry, d: string)
    requires SameTexts(AllRaw(cfg, docs), loaded) && ReportsFirst(e, loaded, d)
    ensures exists doc :: doc in docs && doc.meta.documentId == d && e.source == doc.meta.source && e.kind == doc.meta.kind
                          && e.title == doc.meta.title && e.position == PositionOf(doc.meta)
  {
    var i: nat :| IsFirstOf(loaded, d, i) && e.source == loaded[i].meta.source && e.kind == loaded[i].meta.kind
                  && e.title == loaded[i].meta.title && e.position == PositionOf(loaded[i].meta);
    AllRawMembers(cfg, docs);
    var c := AllRaw(cfg, docs)[i];
    assert c in AllRaw(cfg, docs) && loaded[i].meta == c.meta;
    var doc :| doc in docs && c in RawChunks(cfg, doc);
    RawChunkOf(cfg, doc, c);
    assert PositionOf(c.meta) == PositionOf(doc.meta);
  }

  /** What a batch without errors tells: which documents it found changed, the summaries it made, the
      entries it did not write, and the texts it hands on. */
  ghost predicate BatchTold(s: Store, t: Store, services: Services, cfg: Config, docs: seq<Document>, final: seq<Chunk>, changed: set<string>,
                            summaries: map<string, string>)
  {
    && changed == Changed(HashAll(AllRaw(cfg, docs)), s, ChunkedDocuments(cfg, docs))
    && (if cfg.summarize then BatchSummaries(t, services, cfg, docs, changed, summaries) else summaries == map[])
    && (forall id :: id in s && id !in LiveIds(cfg, docs) + SummaryIds(summaries.Keys) ==> id in t && t[id] == s[id])
    && forall d :: ContentTexts(final, d) == PieceTexts(cfg, docs, d)
  }

  /** Only chunked documents with too few pieces have their summary swept. */
  ghost predicate OnlyShortStale(cfg: Config, docs: seq<Document>, found: set<Id>, orphans: set<Id>) {
    forall id :: id in orphans && id !in found ==> IsShortSummary(cfg, docs, id)
  }

  /** The summary id of one of the documents, which has too few pieces for a summary. */
  ghost predicate IsShortSummary(cfg: Config, docs: seq<Document>, id: Id) {
    exists doc :: doc in docs && IsSummaryIdOf(id, doc) && |SplitText(cfg, doc)| < cfg.chunkThreshold
  }

  predicate IsSummaryIdOf(id: Id, doc: Document) { id == Named(doc.meta.documentId + "-summary", 0) }

  lemma ShortStale(cfg: Config, docs: seq<Document>, loaded: seq<Chunk>, changed: set<string>, found: set<Id>)
    requires GoodDocuments(cfg, docs) && Grew(HashAll(AllRaw(cfg, docs)), loaded) && |loaded| == |AllRaw(cfg, docs)|
    ensures OnlyShortStale(cfg, docs, found, found + NewOrphans(loaded, cfg, true, changed))
  {
    HashedTexts(AllRaw(cfg, docs), loaded);
    forall id | id in NewOrphans(loaded, cfg, true, changed) ensures IsShortSummary(cfg, docs, id) {
      var c :| c in loaded && Count(loaded, false, c.meta.documentId) < cfg.chunkThreshold && id == SummaryId(c.meta.documentId);
      var i :| 0 <= i < |loaded| && loaded[i] == c;
      var doc := ChunksOfDocument(cfg, docs, loaded, i);
      assert id == SummaryId(doc.meta.documentId);
      SummaryIdIs(doc);
    }
  }

  lemma SummaryIdIs(doc: Document)
    ensures IsSummaryIdOf(SummaryId(doc.meta.documentId), doc)
  {
    assert SUMMARY_SUFFIX == "-summary";
  }

  lemma ChunksOfDocument(cfg: Config, docs: seq<Document>, loaded: seq<Chunk>, i: nat) returns (doc: Document)
    requires SameTexts(AllRaw(cfg, docs), loaded) && i < |loaded|
    ensures doc in docs && doc.meta.documentId == loaded[i].meta.documentId
    ensures |SplitText(cfg, doc)| <= Count(loaded, false, doc.meta.documentId)
  {
    var raw := AllRaw(cfg, docs)[i];
    AllRawMembers(cfg, docs);
    assert raw in AllRaw(cfg, docs) && raw.meta == loaded[i].meta;
    doc :| doc in docs && raw in RawChunks(cfg, doc);
    RawChunkOf(cfg, doc, raw);
    TextsSame(AllRaw(cfg, docs), loaded, doc.meta.documentId);
    TextsArePieces(cfg, docs, doc.meta.documentId);
    PiecesThere(cfg, docs, doc);
  }

  lemma {:induction false} PiecesThere(cfg: Config, docs: seq<Document>, doc: Document)
    requires doc in docs
    ensures |PieceTexts(cfg, docs, doc.meta.documentId)| >= |SplitText(cfg, doc)|
    decreases |docs|
  {
    var n := |docs| - 1;
    assert docs == docs[..n] + [docs[n]];
    if docs[n] != doc { PiecesThere(cfg, docs[..n], doc); }
  }

  lemma LoadedTold(s: Store, t: Store, services: Services, cfg: Config, docs: seq<Document>, live: set<string>, loaded: seq<Chunk>, final: seq<Chunk>,
                   kept: set<Id>, found: set<Id>, removed: set<string>, changed: set<string>, summaries: map<string, string>)
    requires GoodDocuments(cfg, docs) && Wrote(s, t, ChunkIds(final), services.embed)
    requires Loaded(s, cfg, docs, live, loaded, kept, found, removed, changed) && Grew(loaded, final)
    requires ChunkIds(final) <= ChunkIds(loaded) + SummaryIds(summaries.Keys)
    requires if cfg.summarize then SummariesStored(t, services, cfg, loaded, true, changed, summaries) else summaries == map[]
    ensures BatchTold(s, t, services, cfg, docs, final, changed, summaries)
  {
    var raw, cs := AllRaw(cfg, docs), HashAll(AllRaw(cfg, docs));
    HashedDocuments(cfg, docs, cs);
    HashedIds(cfg, docs, cs);
    GrewTrans(cs, loaded, final);
    LoadedIds(cs, loaded);
    HashedTexts(raw, loaded);
    if cfg.summarize { BatchSummed(t, services, cfg, docs, loaded, changed, summaries); }
    TextsHandedOn(cfg, docs, final);
  }

  lemma TextsHandedOn(cfg: Config, docs: seq<Document>, final: seq<Chunk>)
    requires GoodDocuments(cfg, docs) && Grew(HashAll(AllRaw(cfg, docs)), final)
    ensures forall d :: ContentTexts(final, d) == PieceTexts(cfg, docs, d)
  {
    var raw := AllRaw(cfg, docs);
    LiveRaw(cfg, docs);
    HashedTexts(raw, final[..|raw|]);
    forall d ensures ContentTexts(final, d) == PieceTexts(cfg, docs, d) {
      ContentSame(raw, final, d);
      TextsArePieces(cfg, docs, d);
    }
  }

  lemma LoadedIds(cs: seq<Chunk>, ds: seq<Chunk>)
    requires Grew(cs, ds) && |ds| == |cs|
    ensures ChunkIds(ds) <= ChunkIds(cs)
  {
    forall i | 0 <= i < |ds| ensures StorageId(ds[i]) in ChunkIds(cs) {
      assert ds[i].(embedding := None) == cs[i].(embedding := None);
      assert StorageId(ds[i]) == StorageId(cs[i]);
    }
  }

  lemma HashedTexts(raw: seq<Chunk>, ds: seq<Chunk>)
    requires |ds| == |raw| && forall i :: 0 <= i < |raw| ==> ds[i].(embedding := None) == HashAll(raw)[i].(embedding := None)
    ensures SameTexts(raw, ds)
  {
    forall i | 0 <= i < |raw| ensures ds[i].content == raw[i].content && ds[i].meta == raw[i].meta {
      assert HashAll(raw)[i] == WithHash(raw[i]);
    }
  }

  method RunBatch(ports: Ports, cfg: Config, docs: seq<Document>, live: set<string>) returns (ctx: Context)
    requires GoodDocuments(cfg, docs) && WellFormed(ports.entries, ports.services.embed)
    requires cfg.chunkThreshold >= 1 && live != {}
    modifies ports`faults, ports`entries, ports`llmCalls, ports`embedCalls, ports`writeCalls
    ensures fresh(ctx)
    ensures WellFormed(ports.entries, ports.services.embed) && old(ports.entries).Keys <= ports.entries.Keys
    ensures ctx.errors == [] ==>
              && BatchDone(old(ports.entries), ports.entries, cfg, docs, live, ctx.orphanIds, ctx.removedDocumentIds)
              && ctx.changeDetectionRan && ContentDocuments(ctx.chunks) == ChunkedDocuments(cfg, docs)
              && BatchTold(old(ports.entries), ports.entries, ports.services, cfg, docs, ctx.chunks, ctx.changedDocumentIds, ctx.documentSummaries)
              && OnlyShortStale(cfg, docs, StaleIds(old(ports.entries), ChunkedDocuments(cfg, docs), LiveIds(cfg, docs)), ctx.orphanIds)
    ensures NoFaults(old(ports.faults)) && Settled(old(ports.entries), cfg, docs) ==>
              && ctx.errors == [] && ctx.orphanIds == {} && ctx.changedDocumentIds == {}
              && ports.entries == old(ports.entries) && ports.llmCalls == old(ports.llmCalls)
              && ports.embedCalls == old(ports.embedCalls) && ports.writeCalls == old(ports.writeCalls)
    ensures Untroubled(old(ports.faults), ports.services, cfg) ==> ctx.errors == []
    ensures NoFaults(old(ports.faults)) ==> NoFaults(ports.faults)
  {
    ghost var embed, s := ports.services.embed, ports.entries;
    ctx := StartBatch(ports, cfg, docs, live);
    ghost var loaded, kept, found := ctx.chunks, ctx.unchangedHashes, ctx.orphanIds;
    FinishBatch(ctx, ports, cfg);
    if ctx.errors == [] {
      LoadedConcludes(s, ports.entries, cfg, docs, live, loaded, ctx.chunks, kept, found,
                      NewOrphans(loaded, cfg, true, ctx.changedDocumentIds), ctx.removedDocumentIds, ctx.changedDocumentIds, embed);
      OrphansAreStale(s, cfg, docs, HashAll(AllRaw(cfg, docs)), embed);
      ShortStale(cfg, docs, loaded, ctx.changedDocumentIds, found);
      LoadedTold(s, ports.entries, ports.services, cfg, docs, live, loaded, ctx.chunks, kept, found, ctx.removedDocumentIds,
                 ctx.changedDocumentIds, ctx.documentSummaries);
    }
  }
}
