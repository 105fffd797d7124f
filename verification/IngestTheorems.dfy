/** What follows of the engine's contract across several runs. */
module IngestTheorems {
  import opened Wrappers
  import opened Fingerprint
  import opened Corpus
  import opened Ports
  import opened IngestContext
  import opened Detection
  import opened Enrichment
  import opened Storing
  import opened BatchRun
  import opened RunRecord
  import opened IngestEngine

  /** The passages of a store with everything the fingerprint covers. */
  ghost function View(s: Store): map<Id, Fields> {
    map id | id in s && IsPassage(s[id]) :: EntryFields(s[id])
  }

  /** Wiping the store first always converges. */
  lemma RebuildConverges(cfg: Config, docs: seq<Document>)
    ensures Converges(cfg, docs, map[])
  {}

  lemma SameLiveIds(cfg: Config, size: nat, docs: seq<Document>, others: seq<Document>)
    requires forall d :: d in docs <==> d in others
    ensures LiveIds(cfg, docs) == LiveIds(cfg.(batchSize := size), others)
  {
    var resized := cfg.(batchSize := size);
    AllRawMembers(cfg, docs);
    AllRawMembers(resized, others);
    forall d ensures RawChunks(cfg, d) == RawChunks(resized, d) {
      assert SplitText(cfg, d) == SplitText(resized, d);
      assert forall i :: 0 <= i < |SplitText(cfg, d)| ==> RawChunk(cfg, d, i) == RawChunk(resized, d, i);
    }
  }

  /** Neither the starting store, nor the batch size, nor the order of the documents shows in
      the passages of a run that converged: an incremental run agrees with wipe and rebuild. */
  lemma ConvergedRunsAgree(s: Store, t: Store, cfg: Config, size: nat, docs: seq<Document>, others: seq<Document>, embed: string -> Vector)
    requires WellFormed(s, embed) && WellFormed(t, embed) && forall d :: d in docs <==> d in others
    requires PassageIds(s) == LiveIds(cfg, docs)
    requires PassageIds(t) == LiveIds(cfg.(batchSize := size), others)
    ensures View(s) == View(t)
    ensures forall id :: id in View(s) ==> s[id].embedding == t[id].embedding
  {
    SameLiveIds(cfg, size, docs, others);
    forall id ensures id in View(s) <==> id in View(t) {
      assert id in View(s) <==> id in PassageIds(s);
      assert id in View(t) <==> id in PassageIds(t);
    }
    forall id | id in View(s) ensures View(s)[id] == View(t)[id] && s[id].embedding == t[id].embedding {
      assert id in View(t);
      SoundEntriesAgree(id, s[id], t[id], embed);
    }
  }

  /** Each stored passage of a document agrees with it on every hashed field. */
  lemma PassageAgrees(s: Store, cfg: Config, docs: seq<Document>, d: Document, i: nat, embed: string -> Vector)
    requires WellFormed(s, embed) && ValidDocuments(cfg, docs) && LiveIds(cfg, docs) <= s.Keys
    requires d in docs && i < |RawChunks(cfg, d)|
    ensures var c := RawChunks(cfg, d)[i]; var id := IdOf(ChunkFields(c));
      id in s && IsPassage(s[id]) && EntryFields(s[id]) == ChunkFields(c) && s[id].embedding == embed(c.content)
  {
    var c := RawChunks(cfg, d)[i];
    AllRawMembers(cfg, docs);
    LiveRaw(cfg, docs);
    assert c in RawChunks(cfg, d) && IdOf(ChunkFields(c)) in LiveIds(cfg, docs);
    LiveEntry(s, embed, c, IdOf(ChunkFields(c)));
    assert IsSound(IdOf(ChunkFields(c)), s[IdOf(ChunkFields(c))], embed);
  }

  /** The entry stores this piece of the document: the text, all that is known of the document, the
      label of its kind, and the text's own vector. */
  predicate StoresPiece(e: Entry, d: Document, text: string, embed: string -> Vector) {
    && e.content == text && e.documentId == d.meta.documentId && e.title == d.meta.title && e.source == d.meta.source
    && e.kind == d.meta.kind && e.position == PositionOf(d.meta)
    && LabelOf(d.meta.kind, Some(HashedLabel(e.embeddingType))) && e.embedding == embed(text)
  }

  /** Every piece the splitter returns for a live document's text is stored, and every passage
      stored is such a piece. */
  ghost predicate StoresThePieces(s: Store, cfg: Config, docs: seq<Document>, embed: string -> Vector) {
    && (forall d, text :: d in docs && text in SplitText(cfg, d) ==>
          exists id :: id in s && IsPassage(s[id]) && StoresPiece(s[id], d, text, embed))
    && (forall id :: id in s && IsPassage(s[id]) ==>
          exists d, text :: d in docs && text in SplitText(cfg, d) && StoresPiece(s[id], d, text, embed))
  }

  lemma ChunkIsStored(s: Store, cfg: Config, d: Document, i: nat, embed: string -> Vector)
    requires WellFormed(s, embed) && GoodDocument(cfg, d) && i < |RawChunks(cfg, d)| && IdOf(ChunkFields(RawChunks(cfg, d)[i])) in s
    ensures var e := s[IdOf(ChunkFields(RawChunks(cfg, d)[i]))]; IsPassage(e) && StoresPiece(e, d, SplitText(cfg, d)[i], embed)
  {
    var c := RawChunks(cfg, d)[i];
    RawChunksAreRaw(cfg, d);
    RawArePieces(cfg, d);
    assert IsChunkOf(c, PiecesOf(cfg, d)[i]) && IsSound(IdOf(ChunkFields(c)), s[IdOf(ChunkFields(c))], embed);
    LiveEntry(s, embed, c, IdOf(ChunkFields(c)));
    assert EntryFields(s[IdOf(ChunkFields(c))]) == ChunkFields(c);
  }

  /** With exactly the live passages stored, what is stored is what the splitter returns. */
  lemma LiveArePieces(s: Store, cfg: Config, docs: seq<Document>, embed: string -> Vector)
    requires WellFormed(s, embed) && ValidDocuments(cfg, docs) && PassageIds(s) == LiveIds(cfg, docs)
    ensures StoresThePieces(s, cfg, docs, embed)
  {
    AllRawMembers(cfg, docs);
    forall d, text | d in docs && text in SplitText(cfg, d)
      ensures exists id :: id in s && IsPassage(s[id]) && StoresPiece(s[id], d, text, embed)
    {
      var i :| 0 <= i < |SplitText(cfg, d)| && SplitText(cfg, d)[i] == text;
      var c := RawChunks(cfg, d)[i];
      assert c in RawChunks(cfg, d) && IdOf(ChunkFields(c)) in LiveIds(cfg, docs) && IdOf(ChunkFields(c)) in PassageIds(s);
      ChunkIsStored(s, cfg, d, i, embed);
    }
    forall id | id in s && IsPassage(s[id])
      ensures exists d, text :: d in docs && text in SplitText(cfg, d) && StoresPiece(s[id], d, text, embed)
    {
      assert id in PassageIds(s);
      var c :| c in AllRaw(cfg, docs) && IdOf(ChunkFields(c)) == id;
      var d :| d in docs && c in RawChunks(cfg, d);
      var i :| 0 <= i < |RawChunks(cfg, d)| && RawChunks(cfg, d)[i] == c;
      ChunkIsStored(s, cfg, d, i, embed);
      assert SplitText(cfg, d)[i] in SplitText(cfg, d);
    }
  }

  /** A run that ends without errors and converges leaves in the store the pieces the splitter
      returns for the live documents, and no other passage. */
  method RunStoresPieces(ports: Ports, cfg: Config, docs: seq<Document>) returns (errors: seq<IngestError>)
    requires WellFormed(ports.entries, ports.services.embed) && ValidDocuments(cfg, docs) && cfg.chunkThreshold >= 1
    modifies ports
    ensures errors == [] && Converges(cfg, docs, old(ports.entries)) ==> StoresThePieces(ports.entries, cfg, docs, ports.services.embed)
  {
    ghost var s0 := ports.entries;
    ghost var told;
    errors, told := RunBatched(ports, cfg, docs);
    if errors == [] { ConvergedStores(s0, ports.entries, cfg, docs, ports.services.embed); }
  }

  // ----- summaries and overview after a run

  lemma PartOfDistinct(part: seq<Document>, docs: seq<Document>)
    requires IsPart(part, docs) && NoDuplicates(docs)
    ensures NoDuplicates(part) && forall d :: d in part ==> d in docs
  {
    var lo: nat, hi: nat :| lo <= hi <= |docs| && part == docs[lo..hi];
    assert forall i :: 0 <= i < |part| ==> part[i] == docs[lo + i];
  }

  /** After an error-free run every live document that was new to the store, and has enough pieces, has
      its summary stored: map-reduced from its pieces in order and reported under the document. */
  lemma NewIsSummarised(s0: Store, s: Store, services: Services, cfg: Config, docs: seq<Document>, r: Record, doc: Document)
    requires RunTold(s0, s, services, cfg, docs, r) && cfg.summarize
    requires ValidDocuments(cfg, docs) && NoDuplicates(docs) && NoReservedIds(docs, s0)
    requires doc in docs && IsNew(s0, cfg, doc) && |SplitText(cfg, doc)| >= cfg.chunkThreshold
    ensures var id := Named(doc.meta.documentId + "-summary", 0);
      && id in s && IsSummaryEntry(s[id], doc.meta, s[id].content)
      && IsSummaryText(services, cfg, SplitText(cfg, doc), s[id].content)
  {
    var d := doc.meta.documentId;
    assert Noticed(cfg, doc, r.changed, r.summaries) && d in DocumentIds(docs) + StoredDocuments(s0);
    assert SummaryTold(s, services, cfg, docs, d, r.summaries[d]);
    var part: seq<Document> :| IsPart(part, docs) && KeepsSummary(s, services, cfg, part, d, PieceTexts(cfg, part, d), r.summaries[d]);
    PartOfDistinct(part, docs);
    var e :| e in part && e.meta.documentId == d && IsSummaryEntry(s[Named(d + "-summary", 0)], e.meta, r.summaries[d]);
    assert e == doc;
    OwnPieces(cfg, part, doc);
  }

  /** Once a document was new or has gone, the overview stored after an error-free run is the run's own:
      map-reduced from one section for every document with pieces, its summary if the run made one,
      else its pieces. */
  lemma NewIsDescribed(s0: Store, s: Store, services: Services, cfg: Config, docs: seq<Document>, r: Record, doc: Document)
    requires RunTold(s0, s, services, cfg, docs, r) && cfg.summarize && r.raw != map[]
    requires ValidDocuments(cfg, docs) && NoDuplicates(docs) && NoReservedIds(docs, s0)
    requires (exists e :: e in docs && IsNew(s0, cfg, e)) || RemovedDocuments(s0, docs) != {}
    ensures OverviewTold(s, services, cfg, docs, r)
    ensures doc in docs && SplitText(cfg, doc) != [] ==>
              doc.meta.documentId in r.raw && r.raw[doc.meta.documentId] == SplitText(cfg, doc)
  {
    if e :| e in docs && IsNew(s0, cfg, e) { assert Noticed(cfg, e, r.changed, r.summaries); }
    if doc in docs && SplitText(cfg, doc) != [] {
      assert RawChunks(cfg, doc) != [] && doc.meta.documentId in ChunkedDocuments(cfg, docs);
      OwnPieces(cfg, docs, doc);
    }
  }

  /** Two documents under one id in different batches: the later batch marks the stored
      passages of the earlier one as orphans. */
  lemma SharedIdOrphans(s: Store, t: Store, cfg: Config, first: Document, second: Document, live: set<string>,
                        orphans: set<Id>, removed: set<string>, embed: string -> Vector, id: Id)
    requires WellFormed(s, embed) && GoodDocument(cfg, first) && GoodDocument(cfg, second)
    requires first.meta.documentId == second.meta.documentId && RawChunks(cfg, second) != []
    requires id in LiveIds(cfg, [first]) && id in s && id !in LiveIds(cfg, [second])
    requires BatchDone(s, t, cfg, [second], live, orphans, removed)
    ensures id in orphans
  {
    LiveRaw(cfg, [first]);
    AllRawMembers(cfg, [first]);
    var c :| c in AllRaw(cfg, [first]) && IdOf(ChunkFields(c)) == id;
    var e :| e in [first] && c in RawChunks(cfg, e);
    RawChunkOf(cfg, e, c);
    LiveEntry(s, embed, c, id);
    assert second in [second];
  }

  function PlainMeta(x: string): Meta { Meta(x, "", "", "", None, "", "", "", 0) }

  function PlainFields(content: string, x: string): Fields { Fields(content, "", "", "", x, None, CHUNK_LABEL) }

  function PlainEntry(content: string, x: string, v: Vector): Entry {
    Entry(content, x, "", "", "", Some(CHUNK_LABEL), 0, None, v)
  }

  function PlainStore(content: string, x: string, embed: string -> Vector): Store {
    map[IdOf(PlainFields(content, x)) := PlainEntry(content, x, embed(content))]
  }

  lemma PlainStored(content: string, x: string, embed: string -> Vector)
    requires x != "" && NulFree(x) && NulFree(content)
    ensures WellFormed(PlainStore(content, x, embed), embed) && StoredDocuments(PlainStore(content, x, embed)) == {x}
  {
    assert EntryFields(PlainEntry(content, x, embed(content))) == PlainFields(content, x);
    assert IdOf(PlainFields(content, x)) in PlainStore(content, x, embed);
  }

  /** A live page whose id is that of a removed document's summary is swept with it: for any
      removed document x and any text short enough for one chunk, a live page x + "-summary" of
      that text loses its passage. */
  lemma SummarySlugIsLost(x: string, text: string, stored: string, cfg: Config, embed: string -> Vector)
    requires x != "" && NulFree(x) && NulFree(text) && NulFree(stored)
    requires SplitText(cfg, Document(text, PlainMeta(x + SUMMARY_SUFFIX))) == [text]
    ensures var d, s := Document(text, PlainMeta(x + SUMMARY_SUFFIX)), PlainStore(stored, x, embed);
      WellFormed(s, embed) && ValidDocuments(cfg, [d]) && !Converges(cfg, [d], s)
  {
    var d := Document(text, PlainMeta(x + SUMMARY_SUFFIX));
    PlainStored(stored, x, embed);
    assert RawChunks(cfg, d) == [RawChunk(cfg, d, 0)];
    assert NulFree(x + SUMMARY_SUFFIX);
    assert d in [d] && |x + SUMMARY_SUFFIX| != |x|;
  }

  /** A live document that now yields no chunk is not looked at, so the old passage of it stays. */
  lemma ChunklessIsStale(x: string, text: string, stored: string, cfg: Config, embed: string -> Vector)
    requires x != "" && NulFree(x) && NulFree(stored) && SplitText(cfg, Document(text, PlainMeta(x))) == []
    ensures var d, s := Document(text, PlainMeta(x)), PlainStore(stored, x, embed);
      WellFormed(s, embed) && ValidDocuments(cfg, [d]) && !Converges(cfg, [d], s)
  {
    var d := Document(text, PlainMeta(x));
    PlainStored(stored, x, embed);
    assert RawChunks(cfg, d) == [] && d in [d];
    assert d.meta.documentId in DocumentIds([d]);
    assert RemovedDocuments(PlainStore(stored, x, embed), [d]) == {};
  }

  /** Two runs over the same documents.  After a clean first one, whatever it started from, a
      second in which nothing fails makes no model, embedder, write or delete call at all. */
  method RunTwice(ports: Ports, cfg: Config, docs: seq<Document>)
    returns (first: seq<IngestError>, second: seq<IngestError>, calls: nat, between: Store)
    requires WellFormed(ports.entries, ports.services.embed) && ValidDocuments(cfg, docs) && cfg.chunkThreshold >= 1
    requires docs != [] && NoReservedIds(docs, ports.entries)
    modifies ports
    ensures Untroubled(old(ports.faults), ports.services, cfg) ==> first == []
    ensures first == [] ==> AllSettled(between, cfg, docs)
    ensures first == [] ==> second == [] && calls == 0 && ports.entries == between
  {
    ghost var told;
    first, told := RunBatched(ports, cfg, docs);
    between, ports.faults := ports.entries, [];
    ports.llmCalls, ports.embedCalls, ports.writeCalls, ports.deleteCalls := 0, 0, 0, 0;
    second, told := RunBatched(ports, cfg, docs);
    calls := ports.llmCalls + ports.embedCalls + ports.writeCalls + ports.deleteCalls;
  }

  /** An earlier run: its own configuration and documents. */
  datatype Past = Past(cfg: Config, docs: seq<Document>)

  ghost predicate IsPast(p: Past) { ValidDocuments(p.cfg, p.docs) && p.cfg.chunkThreshold >= 1 }

  /** Any number of earlier runs, over any documents and with any failures. */
  method RunHistory(ports: Ports, history: seq<Past>)
    requires WellFormed(ports.entries, ports.services.embed) && forall k :: 0 <= k < |history| ==> IsPast(history[k])
    modifies ports
    ensures WellFormed(ports.entries, ports.services.embed)
  {
    for k := 0 to |history|
      invariant WellFormed(ports.entries, ports.services.embed)
    {
      var errors;
      ghost var told;
      errors, told := RunBatched(ports, history[k].cfg, history[k].docs);
    }
  }

  /** Whatever happened before, an error-free run leaves the passages that wiping the store and
      running once more would leave, in any order and batch size, precisely when it converges.
      From the last run on the calls end as `later` says: if none fails, and no document summary
      is blank, the run is error-free. */
  method IncrementalOrRebuilt(ports: Ports, wiped: Ports, cfg: Config, size: nat, history: seq<Past>, later: seq<Outcome>,
                              docs: seq<Document>, others: seq<Document>)
    returns (errors: seq<IngestError>, rebuildErrors: seq<IngestError>, before: Store)
    requires ports != wiped && wiped.entries == map[] && wiped.services.embed == ports.services.embed
    requires WellFormed(ports.entries, ports.services.embed) && cfg.chunkThreshold >= 1
    requires forall k :: 0 <= k < |history| ==> IsPast(history[k])
    requires ValidDocuments(cfg, docs) && ValidDocuments(cfg.(batchSize := size), others) && forall d :: d in docs <==> d in others
    modifies ports, wiped
    ensures errors == [] && rebuildErrors == [] ==> (View(ports.entries) == View(wiped.entries) <==> Converges(cfg, docs, before))
    ensures errors == [] && Converges(cfg, docs, before) ==> StoresThePieces(ports.entries, cfg, docs, ports.services.embed)
    ensures Untroubled(later, ports.services, cfg) ==> errors == []
    ensures Untroubled(old(wiped.faults), wiped.services, cfg) ==> rebuildErrors == []
  {
    RunHistory(ports, history);
    before, ports.faults := ports.entries, later;
    ghost var told;
    errors, told := RunBatched(ports, cfg, docs);
    rebuildErrors, told := RunBatched(wiped, cfg.(batchSize := size), others);
    RebuildConverges(cfg.(batchSize := size), others);
    if errors == [] { ConvergedStores(before, ports.entries, cfg, docs, ports.services.embed); }
    if errors == [] && rebuildErrors == [] {
      ViewsAgree(before, ports.entries, wiped.entries, cfg, size, docs, others, ports.services.embed);
    }
  }

  lemma ConvergedStores(before: Store, s: Store, cfg: Config, docs: seq<Document>, embed: string -> Vector)
    requires WellFormed(s, embed) && ValidDocuments(cfg, docs) && LeavesLive(before, s, cfg, docs)
    ensures Converges(cfg, docs, before) ==> StoresThePieces(s, cfg, docs, embed)
  {
    if Converges(cfg, docs, before) { LiveArePieces(s, cfg, docs, embed); }
  }

  lemma ViewsAgree(before: Store, s: Store, t: Store, cfg: Config, size: nat, docs: seq<Document>, others: seq<Document>,
                   embed: string -> Vector)
    requires WellFormed(s, embed) && WellFormed(t, embed) && forall d :: d in docs <==> d in others
    requires LeavesLive(before, s, cfg, docs) && PassageIds(t) == LiveIds(cfg.(batchSize := size), others)
    ensures View(s) == View(t) <==> Converges(cfg, docs, before)
  {
    SameLiveIds(cfg, size, docs, others);
    if PassageIds(s) == LiveIds(cfg, docs) { ConvergedRunsAgree(s, t, cfg, size, docs, others, embed); }
    SameView(s, t);
  }

  /** Two runs in which nothing fails, over the same documents in any order and batch size: from
      any two stores from which they converge they leave the same passages. */
  method FaultFreeRunsAgree(left: Ports, right: Ports, cfg: Config, size: nat, docs: seq<Document>, others: seq<Document>)
    requires left != right && left.services.embed == right.services.embed && cfg.chunkThreshold >= 1
    requires WellFormed(left.entries, left.services.embed) && WellFormed(right.entries, right.services.embed)
    requires ValidDocuments(cfg, docs) && ValidDocuments(cfg.(batchSize := size), others) && forall d :: d in docs <==> d in others
    requires Untroubled(left.faults, left.services, cfg) && Untroubled(right.faults, right.services, cfg)
    requires Converges(cfg, docs, left.entries) && Converges(cfg.(batchSize := size), others, right.entries)
    modifies left, right
    ensures View(left.entries) == View(right.entries)
    ensures PassageIds(left.entries) == LiveIds(cfg, docs) && StoresThePieces(left.entries, cfg, docs, left.services.embed)
  {
    var errors, rightErrors;
    ghost var told;
    errors, told := RunBatched(left, cfg, docs);
    rightErrors, told := RunBatched(right, cfg.(batchSize := size), others);
    SameLiveIds(cfg, size, docs, others);
    LiveArePieces(left.entries, cfg, docs, left.services.embed);
    ConvergedRunsAgree(left.entries, right.entries, cfg, size, docs, others, left.services.embed);
  }

  lemma SameView(s: Store, t: Store)
    ensures View(s) == View(t) ==> PassageIds(s) == PassageIds(t)
  {
    assert forall id :: id in View(s) <==> id in PassageIds(s);
    assert forall id :: id in View(t) <==> id in PassageIds(t);
    if View(s) == View(t) {
      forall id ensures id in PassageIds(s) <==> id in PassageIds(t) { assert id in View(s) <==> id in View(t); }
    }
  }

  /** Sweeping these documents does not touch what is stored for the overview. */
  predicate OverviewStays(removed: set<string>) { "body-of-knowledge" !in removed && BOK_DOCUMENT_ID !in removed }

  /** The one-pass engine the plugins use when a source yields no documents at all. */
  method RunCleanup(ports: Ports) returns (errors: seq<IngestError>)
    requires WellFormed(ports.entries, ports.services.embed)
    modifies ports`faults, ports`entries, ports`deleteCalls, ports`beforeDeletes
    ensures WellFormed(ports.entries, ports.services.embed)
    ensures old(ports.entries).Keys <= ports.entries.Keys || forall i :: 0 <= i < |errors| ==> IsSweepError(errors[i])
    ensures errors == [] ==> PassageIds(ports.entries) == {}
    // the overview of the emptied corpus stays, unless a removed document is named like it
    ensures errors == [] ==> (BOK_ID in ports.entries <==> BOK_ID in old(ports.entries) && OverviewStays(StoredDocuments(old(ports.entries))))
  {
    ghost var s0 := ports.entries;
    var ctx := new Context([], {});
    ChangeDetection(ctx, ports);
    ghost var orphans, removed := ctx.orphanIds, ctx.removedDocumentIds;
    ghost var found := ctx.errors == [];
    GatedCleanup(ctx, ports);
    errors := ctx.errors;
    SubStoreWellFormed(ports.entries, s0, ports.services.embed);
    if found {
      assert ContentDocuments([]) == {} && orphans == {};
      CleanupFacts(s0, removed, ports.services.embed);
    }
  }

  lemma CleanupFacts(s0: Store, removed: set<string>, embed: string -> Vector)
    requires WellFormed(s0, embed) && removed == StoredDocuments(s0)
    ensures PassageIds(Sweep(s0, {}, removed)) == {}
    ensures BOK_ID in Sweep(s0, {}, removed) <==> BOK_ID in s0 && OverviewStays(removed)
  {
    forall id | id in s0 && IsPassage(s0[id]) ensures s0[id].documentId in removed { assert IsSound(id, s0[id], embed); }
    if BOK_ID in s0 {
      assert IsSound(BOK_ID, s0[BOK_ID], embed);
      assert BOK_DOCUMENT_ID == "body-of-knowledge" + SUMMARY_SUFFIX;
      forall r | BOK_DOCUMENT_ID == r + SUMMARY_SUFFIX ensures r == "body-of-knowledge" { SuffixCancels(r, "body-of-knowledge"); }
    }
  }
}
