/** The batched engine: every batch, then the overview, then one gated sweep.

    The main results: a run without errors leaves exactly the documents' passages, whatever
    it started from; nothing is deleted before every passage is stored, and nothing at all
    once anything has failed; a second run has nothing to do. */
module IngestEngine {
  import opened Wrappers
  import opened Corpus
  import opened Ports
  import opened IngestContext
  import opened Detection
  import opened Enrichment
  import opened Overview
  import opened Storing
  import opened BatchRun
  import opened RunRecord

  /** What a run needs of the live documents: ids that tell them apart. */
  ghost predicate ValidDocuments(cfg: Config, docs: seq<Document>) {
    && GoodDocuments(cfg, docs)
    && forall d, e :: d in docs && e in docs && d.meta.documentId == e.meta.documentId ==> d == e
  }

  /** The stored passages. */
  ghost function PassageIds(s: Store): set<Id> {
    set id | id in s && IsPassage(s[id])
  }

  /** The ids of documents the store has passages of that are no longer live. */
  ghost function RemovedDocuments(s: Store, docs: seq<Document>): set<string> {
    StoredDocuments(s) - DocumentIds(docs)
  }

  /** Exactly when an error-free run from `s` leaves the documents' passages and nothing else.

      Sweeping a removed document r also sweeps whatever is stored under r + "-summary".
      That must not be a live document with passages; and a live document without any is
      never examined, so it must have none stored, or be swept that way. */
  ghost predicate Converges(cfg: Config, docs: seq<Document>, s: Store) {
    if docs == [] then StoredDocuments(s) == {}
    else
      forall d :: d in docs ==>
        var swept := IsSweptDocument(RemovedDocuments(s, docs), d.meta.documentId);
        if RawChunks(cfg, d) != [] then !swept else swept || d.meta.documentId !in StoredDocuments(s)
  }

  /** No live or stored document is named like a generated summary or like the overview. */
  ghost predicate NoReservedIds(docs: seq<Document>, s: Store) {
    forall d :: d in DocumentIds(docs) + StoredDocuments(s) ==> !EndsWith(d, SUMMARY_SUFFIX) && d != "body-of-knowledge"
  }

  /** A store on which a run has nothing to do. */
  ghost predicate AllSettled(s: Store, cfg: Config, docs: seq<Document>) {
    && Settled(s, cfg, docs) && StoredDocuments(s) <= DocumentIds(docs)
    && (cfg.summarize && ChunkedDocuments(cfg, docs) != {} ==> OverviewStored(s))
  }

  // ----- batch by batch

  lemma Together(cfg: Config, a: seq<Document>, b: seq<Document>)
    ensures LiveIds(cfg, a + b) == LiveIds(cfg, a) + LiveIds(cfg, b)
    ensures ChunkedDocuments(cfg, a + b) == ChunkedDocuments(cfg, a) + ChunkedDocuments(cfg, b)
    ensures DocumentIds(a + b) == DocumentIds(a) + DocumentIds(b)
  {
    AllRawMembers(cfg, a + b);
    AllRawMembers(cfg, a);
    AllRawMembers(cfg, b);
    forall c ensures c in AllRaw(cfg, a + b) <==> c in AllRaw(cfg, a) || c in AllRaw(cfg, b) {
      if d :| d in a && c in RawChunks(cfg, d) { assert d in a + b; }
      if d :| d in b && c in RawChunks(cfg, d) { assert d in a + b; }
    }
  }

  /** The state of the engine's accumulators after the documents `done`, without errors. */
  ghost predicate Progress(s0: Store, s: Store, cfg: Config, all: seq<Document>, done: seq<Document>,
                           orphans: set<Id>, removed: set<string>)
  {
    && LiveIds(cfg, done) <= s.Keys
    && (forall id :: id in s ==> id in s0 || id in LiveIds(cfg, done) || IsSummaryId(id))
    && (forall id :: id in s && s[id].documentId in ChunkedDocuments(cfg, done) && id !in LiveIds(cfg, done) ==>
          id in orphans || IsSummaryId(id))
    && (forall id :: id in orphans ==>
          || (id in s && s[id].documentId in ChunkedDocuments(cfg, done) && id !in LiveIds(cfg, all))
          || IsLiveSummary(id, DocumentIds(done)))
    && removed == if done == [] then {} else RemovedDocuments(s0, all)
  }

  /** Entries keep their document as the store grows. */
  lemma SameDocument(s: Store, t: Store, id: Id, embed: string -> Vector)
    requires WellFormed(s, embed) && WellFormed(t, embed) && id in s && id in t
    ensures s[id].documentId == t[id].documentId
    ensures IsPassage(s[id]) <==> IsPassage(t[id])
  {
    SoundEntriesAgree(id, s[id], t[id], embed);
  }

  /** A live id under a stored document is one of that document's own passages. */
  lemma LiveIdOwner(s: Store, cfg: Config, all: seq<Document>, part: seq<Document>, id: Id, embed: string -> Vector)
    requires WellFormed(s, embed) && ValidDocuments(cfg, all) && forall d :: d in part ==> d in all
    requires id in s && id in LiveIds(cfg, all) && s[id].documentId in ChunkedDocuments(cfg, part)
    ensures id in LiveIds(cfg, part)
  {
    LiveRaw(cfg, all);
    AllRawMembers(cfg, all);
    AllRawMembers(cfg, part);
    var c :| c in AllRaw(cfg, all) && IdOf(ChunkFields(c)) == id;
    LiveEntry(s, embed, c, id);
    var e :| e in all && c in RawChunks(cfg, e);
    RawChunkOf(cfg, e, c);
    var d :| d in part && RawChunks(cfg, d) != [] && d.meta.documentId == s[id].documentId;
    assert d == e;
  }

  /** A live id that is stored belongs to a live document with passages. */
  lemma LiveIdDocument(s: Store, cfg: Config, docs: seq<Document>, id: Id, embed: string -> Vector)
    requires WellFormed(s, embed) && GoodDocuments(cfg, docs) && id in s && id in LiveIds(cfg, docs)
    ensures s[id].documentId in ChunkedDocuments(cfg, docs) && s[id].documentId in DocumentIds(docs)
    ensures IsPassage(s[id])
  {
    LiveRaw(cfg, docs);
    var c :| c in AllRaw(cfg, docs) && IdOf(ChunkFields(c)) == id;
    LiveEntry(s, embed, c, id);
    assert IsSound(id, s[id], embed);
  }

  /** New entries never add to the documents that have been removed. */
  lemma SameRemoved(s0: Store, s: Store, cfg: Config, all: seq<Document>, embed: string -> Vector)
    requires WellFormed(s0, embed) && WellFormed(s, embed) && GoodDocuments(cfg, all) && s0.Keys <= s.Keys
    requires forall id :: id in s ==> id in s0 || id in LiveIds(cfg, all) || IsSummaryId(id)
    ensures RemovedDocuments(s, all) == RemovedDocuments(s0, all)
  {
    forall d | d in RemovedDocuments(s, all) ensures d in RemovedDocuments(s0, all) {
      var id :| id in s && IsPassage(s[id]) && s[id].documentId != "" && s[id].documentId == d;
      assert IsSound(id, s[id], embed);
      if id in LiveIds(cfg, all) { LiveIdDocument(s, cfg, all, id, embed); }
      SameDocument(s0, s, id, embed);
    }
    forall d | d in RemovedDocuments(s0, all) ensures d in RemovedDocuments(s, all) {
      var id :| id in s0 && IsPassage(s0[id]) && s0[id].documentId != "" && s0[id].documentId == d;
      SameDocument(s0, s, id, embed);
    }
  }

  lemma ProgressOrphans(s: Store, t: Store, cfg: Config, all: seq<Document>, done: seq<Document>, batch: seq<Document>,
                        orphans: set<Id>, more: set<Id>, embed: string -> Vector)
    requires WellFormed(s, embed) && WellFormed(t, embed) && ValidDocuments(cfg, all) && s.Keys <= t.Keys
    requires forall d :: d in batch ==> d in all
    requires forall id :: id in orphans ==>
               || (id in s && s[id].documentId in ChunkedDocuments(cfg, done) && id !in LiveIds(cfg, all))
               || IsLiveSummary(id, DocumentIds(done))
    requires forall id :: id in more ==>
               id in StaleIds(s, ChunkedDocuments(cfg, batch), LiveIds(cfg, batch)) || IsLiveSummary(id, DocumentIds(batch))
    ensures forall id :: id in orphans + more ==>
               || (id in t && t[id].documentId in ChunkedDocuments(cfg, done + batch) && id !in LiveIds(cfg, all))
               || IsLiveSummary(id, DocumentIds(done + batch))
  {
    Together(cfg, done, batch);
    forall id | id in orphans + more && !IsLiveSummary(id, DocumentIds(done + batch))
      ensures id in t && t[id].documentId in ChunkedDocuments(cfg, done + batch) && id !in LiveIds(cfg, all)
    {
      assert !IsLiveSummary(id, DocumentIds(done)) && !IsLiveSummary(id, DocumentIds(batch));
      SameDocument(s, t, id, embed);
      if id !in orphans && id in LiveIds(cfg, all) { LiveIdOwner(s, cfg, all, batch, id, embed); }
    }
  }

  lemma ProgressStale(s: Store, t: Store, cfg: Config, done: seq<Document>, batch: seq<Document>,
                      orphans: set<Id>, more: set<Id>, embed: string -> Vector)
    requires WellFormed(s, embed) && WellFormed(t, embed) && s.Keys <= t.Keys
    requires forall id :: id in s && s[id].documentId in ChunkedDocuments(cfg, done) && id !in LiveIds(cfg, done) ==>
               id in orphans || IsSummaryId(id)
    requires forall id :: id in t ==> id in s || id in LiveIds(cfg, batch) || IsSummaryId(id)
    requires StaleIds(s, ChunkedDocuments(cfg, batch), LiveIds(cfg, batch)) <= more
    ensures forall id :: id in t && t[id].documentId in ChunkedDocuments(cfg, done + batch) && id !in LiveIds(cfg, done + batch) ==>
               id in orphans + more || IsSummaryId(id)
  {
    Together(cfg, done, batch);
    forall id | id in t && t[id].documentId in ChunkedDocuments(cfg, done + batch) && id !in LiveIds(cfg, done + batch)
      ensures id in orphans + more || IsSummaryId(id)
    {
      if id in s { SameDocument(s, t, id, embed); }
    }
  }

  lemma ProgressStep(s0: Store, s: Store, t: Store, cfg: Config, all: seq<Document>, done: seq<Document>, batch: seq<Document>,
                     orphans: set<Id>, removed: set<string>, more: set<Id>, gone: set<string>, embed: string -> Vector)
    requires WellFormed(s0, embed) && WellFormed(s, embed) && WellFormed(t, embed) && ValidDocuments(cfg, all)
    requires s0.Keys <= s.Keys <= t.Keys && batch != [] && forall d :: d in done + batch ==> d in all
    requires Progress(s0, s, cfg, all, done, orphans, removed)
    requires BatchDone(s, t, cfg, batch, DocumentIds(all), more, gone)
    ensures Progress(s0, t, cfg, all, done + batch, orphans + more, removed + gone)
  {
    Together(cfg, done, batch);
    ProgressOrphans(s, t, cfg, all, done, batch, orphans, more, embed);
    ProgressStale(s, t, cfg, done, batch, orphans, more, embed);
    forall id | id in LiveIds(cfg, done) ensures id in LiveIds(cfg, all) { LivePart(cfg, all, done, id); }
    SameRemoved(s0, s, cfg, all, embed);
  }

  lemma LivePart(cfg: Config, all: seq<Document>, part: seq<Document>, id: Id)
    requires (forall d :: d in part ==> d in all) && id in LiveIds(cfg, part)
    ensures id in LiveIds(cfg, all)
  {
    AllRawMembers(cfg, all);
    AllRawMembers(cfg, part);
    var c :| c in AllRaw(cfg, part) && IdOf(ChunkFields(c)) == id;
  }

  // ----- the sweep

  /** Whether an entry survives an error-free sweep after all the documents. */
  lemma Survives(s0: Store, s: Store, mid: Store, cfg: Config, all: seq<Document>, orphans: set<Id>, removed: set<string>,
                 embed: string -> Vector, id: Id)
    requires WellFormed(s0, embed) && WellFormed(s, embed) && WellFormed(mid, embed) && ValidDocuments(cfg, all)
    requires s0.Keys <= s.Keys <= mid.Keys <= s.Keys + {BOK_ID}
    requires Progress(s0, s, cfg, all, all, orphans - {BOK_ID}, removed) && all != []
    requires id in mid && IsPassage(mid[id])
    ensures var d := mid[id].documentId;
      id in Sweep(mid, orphans, removed) <==>
        if id in LiveIds(cfg, all) then !IsSweptDocument(removed, d)
        else d in DocumentIds(all) && d !in ChunkedDocuments(cfg, all) && !IsSweptDocument(removed, d)
    ensures id in LiveIds(cfg, all) || id in s0
  {
    assert IsSound(id, mid[id], embed) && id.Digest? && id in s;
    SameDocument(s, mid, id, embed);
    if id in LiveIds(cfg, all) {
      assert id !in orphans;
    } else {
      assert id in s0;
      SameDocument(s0, s, id, embed);
      if s[id].documentId in ChunkedDocuments(cfg, all) { assert id in orphans; }
      if id in orphans { assert s[id].documentId in ChunkedDocuments(cfg, all); }
      if s[id].documentId !in DocumentIds(all) { assert s0[id].documentId in StoredDocuments(s0); }
    }
  }

  lemma ChunkedHasPassage(cfg: Config, all: seq<Document>, d: Document, s: Store, embed: string -> Vector) returns (id: Id)
    requires WellFormed(s, embed) && GoodDocuments(cfg, all) && LiveIds(cfg, all) <= s.Keys && d in all && RawChunks(cfg, d) != []
    ensures id in LiveIds(cfg, all) && id in s && s[id].documentId == d.meta.documentId && IsPassage(s[id])
  {
    var c := RawChunks(cfg, d)[0];
    assert c in RawChunks(cfg, d);
    AllRawMembers(cfg, all);
    LiveRaw(cfg, all);
    RawChunkOf(cfg, d, c);
    id := IdOf(ChunkFields(c));
    LiveEntry(s, embed, c, id);
    assert IsSound(id, s[id], embed);
  }

  /** The sweep leaves exactly the live passages, precisely when the run converges. */
  lemma SweepConverges(s0: Store, s: Store, mid: Store, cfg: Config, all: seq<Document>, orphans: set<Id>, removed: set<string>,
                       embed: string -> Vector)
    requires WellFormed(s0, embed) && WellFormed(s, embed) && WellFormed(mid, embed) && ValidDocuments(cfg, all)
    requires s0.Keys <= s.Keys <= mid.Keys <= s.Keys + {BOK_ID}
    requires Progress(s0, s, cfg, all, all, orphans - {BOK_ID}, removed) && all != []
    ensures PassageIds(Sweep(mid, orphans, removed)) == LiveIds(cfg, all) <==> Converges(cfg, all, s0)
  {
    var final := Sweep(mid, orphans, removed);
    if Converges(cfg, all, s0) {
      forall id ensures id in PassageIds(final) <==> id in LiveIds(cfg, all) {
        if id in LiveIds(cfg, all) {
          LiveIdDocument(mid, cfg, all, id, embed);
          Survives(s0, s, mid, cfg, all, orphans, removed, embed, id);
        } else if id in PassageIds(final) {
          Survives(s0, s, mid, cfg, all, orphans, removed, embed, id);
          UnchunkedIsStored(s0, mid, id, embed);
        }
      }
    }
    if PassageIds(final) == LiveIds(cfg, all) {
      forall d | d in all
        ensures var swept := IsSweptDocument(removed, d.meta.documentId);
          if RawChunks(cfg, d) != [] then !swept else swept || d.meta.documentId !in StoredDocuments(s0)
      {
        if RawChunks(cfg, d) != [] {
          var id := ChunkedHasPassage(cfg, all, d, mid, embed);
          Survives(s0, s, mid, cfg, all, orphans, removed, embed, id);
          assert id in PassageIds(final);
        } else if d.meta.documentId in StoredDocuments(s0) {
          var id :| id in s0 && IsPassage(s0[id]) && s0[id].documentId != "" && s0[id].documentId == d.meta.documentId;
          SameDocument(s0, mid, id, embed);
          Survives(s0, s, mid, cfg, all, orphans, removed, embed, id);
          Unchunked(cfg, all, d);
          if id in LiveIds(cfg, all) { LiveIdDocument(mid, cfg, all, id, embed); }
          assert id in final ==> id in PassageIds(final);
        }
      }
    }
  }

  lemma UnchunkedIsStored(s0: Store, mid: Store, id: Id, embed: string -> Vector)
    requires WellFormed(s0, embed) && WellFormed(mid, embed) && id in s0 && id in mid && IsPassage(mid[id])
    ensures mid[id].documentId in StoredDocuments(s0)
  {
    SameDocument(s0, mid, id, embed);
    assert IsSound(id, s0[id], embed);
  }

  lemma Unchunked(cfg: Config, all: seq<Document>, d: Document)
    requires ValidDocuments(cfg, all) && d in all && RawChunks(cfg, d) == []
    ensures d.meta.documentId !in ChunkedDocuments(cfg, all)
  {}

  // ----- nothing left to do

  lemma SuffixCancels(a: string, b: string)
    requires a + SUMMARY_SUFFIX == b + SUMMARY_SUFFIX
    ensures a == b
  {
    assert |a| == |b|;
    assert a == (a + SUMMARY_SUFFIX)[..|a|] && b == (b + SUMMARY_SUFFIX)[..|b|];
  }

  lemma SuffixEnds(a: string)
    ensures EndsWith(a + SUMMARY_SUFFIX, SUMMARY_SUFFIX)
  {}

  lemma LiveNotSwept(s0: Store, all: seq<Document>, d: string)
    requires NoReservedIds(all, s0) && d in DocumentIds(all)
    ensures !IsSweptDocument(RemovedDocuments(s0, all), d)
  {
    forall r ensures d != r + SUMMARY_SUFFIX { SuffixEnds(r); }
  }

  lemma NoOverviewSummary(d: string)
    requires d != "body-of-knowledge"
    ensures d + SUMMARY_SUFFIX != BOK_DOCUMENT_ID
  {
    assert BOK_DOCUMENT_ID == "body-of-knowledge" + SUMMARY_SUFFIX;
    if d + SUMMARY_SUFFIX == BOK_DOCUMENT_ID { SuffixCancels(d, "body-of-knowledge"); }
  }

  lemma NotReserved(s0: Store, all: seq<Document>, d: string)
    requires NoReservedIds(all, s0) && (d in DocumentIds(all) || d in StoredDocuments(s0))
    ensures !EndsWith(d, SUMMARY_SUFFIX) && d != "body-of-knowledge"
  {
    assert d in DocumentIds(all) + StoredDocuments(s0);
  }

  lemma OrphanIsNoOverview(s0: Store, s: Store, mid: Store, cfg: Config, all: seq<Document>, orphans: set<Id>, removed: set<string>,
                           embed: string -> Vector, id: Id)
    requires WellFormed(s, embed) && WellFormed(mid, embed) && NoReservedIds(all, s0)
    requires Progress(s0, s, cfg, all, all, orphans, removed) && id in orphans && id in mid
    ensures mid[id].documentId != BOK_DOCUMENT_ID
  {
    if IsLiveSummary(id, DocumentIds(all)) {
      var d :| d in DocumentIds(all) && id == SummaryId(d);
      assert IsSound(id, mid[id], embed);
      NotReserved(s0, all, d);
      NoOverviewSummary(d);
    } else {
      SameDocument(s, mid, id, embed);
      NotReserved(s0, all, mid[id].documentId);
      SuffixEnds("body-of-knowledge");
    }
  }

  lemma OverviewSurvives(s0: Store, s: Store, mid: Store, cfg: Config, all: seq<Document>, orphans: set<Id>, removed: set<string>,
                         embed: string -> Vector)
    requires WellFormed(s, embed) && WellFormed(mid, embed) && NoReservedIds(all, s0) && s.Keys <= mid.Keys
    requires Progress(s0, s, cfg, all, all, orphans, removed) && all != []
    requires OverviewStored(mid)
    ensures OverviewStored(Sweep(mid, orphans, removed))
  {
    var id :| id in mid && mid[id].documentId == BOK_DOCUMENT_ID;
    SuffixEnds("body-of-knowledge");
    if id in orphans { OrphanIsNoOverview(s0, s, mid, cfg, all, orphans, removed, embed, id); }
    forall r | r in removed ensures BOK_DOCUMENT_ID != r + SUMMARY_SUFFIX {
      NotReserved(s0, all, r);
      NoOverviewSummary(r);
    }
    assert id in Sweep(mid, orphans, removed);
  }

  lemma NoStaleLeft(s0: Store, s: Store, mid: Store, cfg: Config, all: seq<Document>, orphans: set<Id>, removed: set<string>,
                    embed: string -> Vector)
    requires WellFormed(s, embed) && WellFormed(mid, embed) && NoReservedIds(all, s0)
    requires s.Keys <= mid.Keys <= s.Keys + {BOK_ID}
    requires Progress(s0, s, cfg, all, all, orphans - {BOK_ID}, removed)
    ensures StaleIds(Sweep(mid, orphans, removed), ChunkedDocuments(cfg, all), LiveIds(cfg, all)) == {}
  {
    forall id | id in mid && mid[id].documentId in ChunkedDocuments(cfg, all) && id !in LiveIds(cfg, all) ensures id in orphans {
      assert mid[id].documentId in DocumentIds(all) && !EndsWith(mid[id].documentId, SUMMARY_SUFFIX);
      assert IsSound(id, mid[id], embed);
      if id == BOK_ID {
        OverviewIsSummary("", "");
        assert false;
      }
      SameDocument(s, mid, id, embed);
    }
  }

  /** With no reserved ids about, an error-free run leaves a store with nothing left to do. */
  lemma SweepSettles(s0: Store, s: Store, mid: Store, cfg: Config, all: seq<Document>, orphans: set<Id>, removed: set<string>,
                     embed: string -> Vector)
    requires WellFormed(s0, embed) && WellFormed(s, embed) && WellFormed(mid, embed) && ValidDocuments(cfg, all)
    requires s0.Keys <= s.Keys <= mid.Keys <= s.Keys + {BOK_ID} && NoReservedIds(all, s0) && all != []
    requires Progress(s0, s, cfg, all, all, orphans - {BOK_ID}, removed)
    requires cfg.summarize && ChunkedDocuments(cfg, all) != {} ==>
               OverviewStored(mid) && Progress(s0, s, cfg, all, all, orphans, removed)
    ensures AllSettled(Sweep(mid, orphans, removed), cfg, all)
  {
    var final := Sweep(mid, orphans, removed);
    NoStaleLeft(s0, s, mid, cfg, all, orphans, removed, embed);
    forall id | id in LiveIds(cfg, all) ensures id in final {
      LiveIdDocument(mid, cfg, all, id, embed);
      Survives(s0, s, mid, cfg, all, orphans, removed, embed, id);
      LiveNotSwept(s0, all, mid[id].documentId);
    }
    forall d | d in StoredDocuments(final) ensures d in DocumentIds(all) {
      var id :| id in final && IsPassage(final[id]) && final[id].documentId != "" && final[id].documentId == d;
      Survives(s0, s, mid, cfg, all, orphans, removed, embed, id);
      if id in LiveIds(cfg, all) { LiveIdDocument(mid, cfg, all, id, embed); }
    }
    if cfg.summarize && ChunkedDocuments(cfg, all) != {} {
      OverviewSurvives(s0, s, mid, cfg, all, orphans, removed, embed);
    }
  }

  lemma SubStoreWellFormed(s: Store, t: Store, embed: string -> Vector)
    requires SubStore(s, t) && WellFormed(t, embed)
    ensures WellFormed(s, embed)
  {}

  // ----- the engine

  /** The destructive step behind its gate: one earlier error and it is skipped. */
  method GatedCleanup(ctx: Context, ports: Ports)
    modifies ctx`errors, ports`faults, ports`entries, ports`deleteCalls, ports`beforeDeletes
    ensures old(ctx.errors) <= ctx.errors
    ensures old(ctx.errors) != [] ==>
              && ctx.errors == old(ctx.errors) + [Gated(|old(ctx.errors)|)] && ports.entries == old(ports.entries)
              && ports.deleteCalls == old(ports.deleteCalls) && ports.beforeDeletes == old(ports.beforeDeletes)
    ensures SubStore(ports.entries, old(ports.entries))
    ensures SubStore(Sweep(old(ports.entries), ctx.orphanIds, ctx.removedDocumentIds), ports.entries)
    ensures ctx.errors == [] ==> ports.entries == Sweep(old(ports.entries), ctx.orphanIds, ctx.removedDocumentIds)
    ensures old(ctx.errors) == [] ==> forall i :: 0 <= i < |ctx.errors| ==> IsSweepError(ctx.errors[i])
    ensures ports.beforeDeletes == old(ports.beforeDeletes)
         || old(ports.beforeDeletes) + [old(ports.entries)] <= ports.beforeDeletes
    ensures old(ctx.errors) == [] && ctx.orphanIds == {} && ctx.removedDocumentIds == {} ==>
              && ctx.errors == [] && ports.entries == old(ports.entries) && ports.deleteCalls == old(ports.deleteCalls)
              && ports.beforeDeletes == old(ports.beforeDeletes) && ports.faults == old(ports.faults)
    ensures NoFaults(old(ports.faults)) && old(ctx.errors) == [] ==> ctx.errors == [] && NoFaults(ports.faults)
  {
    if ctx.errors != [] {
      ctx.errors := ctx.errors + [Gated(|ctx.errors|)];
    } else {
      OrphanCleanup(ctx, ports);
    }
  }

  ghost predicate HasRawText(ctx: Context)
    reads ctx
  {
    HasTexts(ctx.rawChunksByDoc, ctx.documents)
  }

  /** Nothing changed and an overview is stored, or nothing was ingested; and no call fails. */
  ghost predicate NothingToDescribe(ctx: Context, ports: Ports, cfg: Config)
    reads ctx, ports
  {
    && NoFaults(ports.faults) && ctx.removedDocumentIds == {}
    && ((ctx.changeDetectionRan && ctx.changedDocumentIds == {} && (cfg.summarize ==> OverviewStored(ports.entries)))
        || ctx.rawChunksByDoc == map[])
  }

  predicate IsOverview(c: Chunk, embed: string -> Vector) {
    IsSummary(c) && StorageId(c) == BOK_ID && HasSoundVector(c, embed)
  }

  /** The second attempt at an overview that could not be stored inline. */
  method StoreOverview(ctx: Context, ports: Ports)
    requires WellFormed(ports.entries, ports.services.embed)
    requires forall i :: 0 <= i < |ctx.chunks| ==> IsOverview(ctx.chunks[i], ports.services.embed)
    modifies ctx`chunks, ctx`errors
    modifies ports`faults, ports`entries, ports`embedCalls, ports`writeCalls
    ensures WellFormed(ports.entries, ports.services.embed)
    ensures old(ports.entries).Keys <= ports.entries.Keys <= old(ports.entries).Keys + {BOK_ID}
    ensures old(ctx.errors) <= ctx.errors
    ensures ctx.errors == old(ctx.errors) && old(ctx.chunks) != [] ==> OverviewStored(ports.entries)
    ensures ctx.errors == old(ctx.errors) && |old(ctx.chunks)| == 1 ==>
              |ctx.chunks| == 1 && IsLaterStored(old(ctx.chunks)[0], ctx.chunks[0], old(ports.entries), ports.entries, ports.services.embed)
    ensures OverviewStored(old(ports.entries)) ==> OverviewStored(ports.entries)
    ensures old(ctx.chunks) == [] ==>
              && ctx.errors == old(ctx.errors) && ports.entries == old(ports.entries)
              && ports.embedCalls == old(ports.embedCalls) && ports.writeCalls == old(ports.writeCalls)
    ensures NoFaults(old(ports.faults)) ==> NoFaults(ports.faults) && ctx.errors == old(ctx.errors)
  {
    ghost var left, embed := ctx.chunks, ports.services.embed;
    EmbedStep(ctx, ports);
    OverviewReady(left, ctx.chunks, embed);
    StoreChunks(ctx, ports);
    OverviewKept(old(ports.entries), ports.entries, embed);
    if ctx.errors == old(ctx.errors) && left != [] { OverviewThere(ctx.chunks[0], ctx.unchangedHashes, ports.entries, embed); }
    if ctx.errors == old(ctx.errors) && |left| == 1 {
      StoredLater(left, ctx.chunks, old(ports.entries), ports.entries, ctx.unchangedHashes, embed);
    }
  }

  lemma OverviewThere(c: Chunk, kept: set<Id>, s: Store, embed: string -> Vector)
    requires IsOverview(c, embed) && WellFormed(s, embed) && (IsSkipped(c, kept) || StorageId(c) in s)
    ensures OverviewStored(s)
  {
    assert IsSound(BOK_ID, s[BOK_ID], embed);
  }

  lemma OverviewReady(left: seq<Chunk>, cs: seq<Chunk>, embed: string -> Vector)
    requires (forall i :: 0 <= i < |left| ==> IsOverview(left[i], embed)) && EmbeddedBy(left, cs, embed)
    ensures AllReady(cs, embed) && ChunkIds(cs) <= {BOK_ID} && forall i :: 0 <= i < |cs| ==> IsOverview(cs[i], embed)
  {}

  lemma OverviewKept(s: Store, t: Store, embed: string -> Vector)
    requires WellFormed(s, embed) && WellFormed(t, embed) && s.Keys <= t.Keys
    ensures OverviewStored(s) ==> OverviewStored(t)
  {
    if OverviewStored(s) {
      var id :| id in s && s[id].documentId == BOK_DOCUMENT_ID;
      SameDocument(s, t, id, embed);
    }
  }

  /** The chunk has got its vector, and been stored; nothing else has changed. */
  predicate IsLaterStored(c: Chunk, now: Chunk, before: Store, after: Store, embed: string -> Vector) {
    && now.(embedding := None) == c.(embedding := None) && HasSoundVector(now, embed)
    && now.embedding.Some? && after == before[BOK_ID := EntryOf(now)]
  }

  lemma StoredLater(left: seq<Chunk>, cs: seq<Chunk>, before: Store, after: Store, kept: set<Id>, embed: string -> Vector)
    requires |left| == 1 && EmbeddedBy(left, cs, embed) && IsOverview(left[0], embed) && IsOverview(cs[0], embed)
    requires Wrote(before, after, ChunkIds(cs), embed) && cs[0].embedding.Some?
    requires IsSkipped(cs[0], kept) || Written(cs, after, StorageId(cs[0]))
    ensures IsLaterStored(left[0], cs[0], before, after, embed)
  {
    assert Written(cs, after, BOK_ID) && after[BOK_ID] == EntryOf(cs[0]);
    forall id | id in ChunkIds(cs) ensures id == BOK_ID {}
    assert after.Keys == before.Keys + {BOK_ID};
  }

  // ----- what came of the overview

  /** Nothing was found changed or removed, and there is an overview. */
  ghost predicate Unneeded(ctx: Context, ports: Ports)
    reads ctx, ports
  {
    ctx.changeDetectionRan && ctx.changedDocumentIds == {} && ctx.removedDocumentIds == {} && OverviewStored(ports.entries)
  }

  /** An overview of everything that has texts; none only for want of texts, or of need. */
  ghost predicate IsMade(made: Option<Chunk>, services: Services, cfg: Config, docs: seq<Document>, raw: map<string, seq<string>>,
                         summaries: map<string, string>, unneeded: bool)
  {
    if made.None? then SeenIn(docs, [], raw).0 == [] || unneeded else IsOverviewOf(made.value, services, cfg, docs, [], raw, summaries)
  }

  /** It is stored and nothing else has changed, or nothing has. */
  ghost predicate IsDescribed(before: Store, after: Store, services: Services, cfg: Config, docs: seq<Document>, raw: map<string, seq<string>>,
                              summaries: map<string, string>, unneeded: bool)
  {
    exists made :: IsMade(made, services, cfg, docs, raw, summaries, unneeded) && IsPlaced(made, before, after, [], [])
  }

  lemma DescribedNow(made: Option<Chunk>, before: Store, mid: Store, after: Store, now: seq<Chunk>, final: seq<Chunk>, services: Services, cfg: Config,
                     docs: seq<Document>, raw: map<string, seq<string>>, summaries: map<string, string>, unneeded: bool)
    requires IsMade(made, services, cfg, docs, raw, summaries, unneeded) && IsPlaced(made, before, mid, [], now)
    requires now == [] ==> after == mid
    requires |now| == 1 ==> |final| == 1 && IsLaterStored(now[0], final[0], mid, after, services.embed)
    ensures IsDescribed(before, after, services, cfg, docs, raw, summaries, unneeded)
  {
    if made.Some? && now == [made.value] {
      SameOverview(made.value, final[0], services, cfg, docs, raw, summaries);
      assert IsMade(Some(final[0]), services, cfg, docs, raw, summaries, unneeded);
    }
  }

  lemma SameOverview(c: Chunk, now: Chunk, services: Services, cfg: Config, docs: seq<Document>, raw: map<string, seq<string>>, summaries: map<string, string>)
    requires IsOverviewOf(c, services, cfg, docs, [], raw, summaries)
    requires now.(embedding := None) == c.(embedding := None) && HasSoundVector(now, services.embed)
    ensures IsOverviewOf(now, services, cfg, docs, [], raw, summaries)
  {
    var seen, texts, root := SeenIn(docs, [], raw).0, SeenIn(docs, [], raw).1, RootSpace(docs, []);
    var sections :| AreSections(sections, PlainSections(seen, texts, summaries), SectionLimit(cfg)) && IsOverviewChunk(c, services, cfg, sections, root);
    assert IsOverviewChunk(now, services, cfg, sections, root);
  }

  /** What the overview steps leave of a run that is not to be swept yet. */
  ghost predicate OverviewDone(before: Store, after: Store, orphans: set<Id>, doomed: set<Id>, texts: bool, embed: string -> Vector) {
    && WellFormed(after, embed) && before.Keys <= after.Keys <= before.Keys + {BOK_ID}
    && (doomed == orphans || (doomed == orphans + {BOK_ID} && !texts))
  }

  lemma OverviewDoneStays(before: Store, mid: Store, after: Store, orphans: set<Id>, doomed: set<Id>, texts: bool, embed: string -> Vector)
    requires OverviewDone(before, mid, orphans, doomed, texts, embed) && WellFormed(after, embed) && mid.Keys <= after.Keys <= mid.Keys + {BOK_ID}
    ensures OverviewDone(before, after, orphans, doomed, texts, embed)
  {}

  /** The overview step of a run, which starts without chunks. */
  /** The store, and how often it was written and the services were asked. */
  ghost function Work(ports: Ports): (Store, nat, nat, nat)
    reads ports
  {
    (ports.entries, ports.llmCalls, ports.embedCalls, ports.writeCalls)
  }

  method GenerateOverview(ctx: Context, ports: Ports, cfg: Config, ghost quiet: bool) returns (ghost made: Option<Chunk>)
    requires WellFormed(ports.entries, ports.services.embed) && ctx.chunks == [] && cfg.summarize
    requires quiet ==> NothingToDescribe(ctx, ports, cfg)
    modifies ctx`chunks, ctx`orphanIds
    modifies ports`faults, ports`entries, ports`llmCalls, ports`embedCalls, ports`writeCalls
    ensures OverviewDone(old(ports.entries), ports.entries, old(ctx.orphanIds), ctx.orphanIds, HasRawText(ctx), ports.services.embed)
    ensures forall i :: 0 <= i < |ctx.chunks| ==> IsOverview(ctx.chunks[i], ports.services.embed)
    ensures HasRawText(ctx) ==> OverviewStored(ports.entries) || ctx.chunks != []
    ensures IsPlaced(made, old(ports.entries), ports.entries, [], ctx.chunks)
    ensures IsMade(made, ports.services, cfg, ctx.documents, ctx.rawChunksByDoc, ctx.documentSummaries,
                   old(Unneeded(ctx, ports)))
    ensures quiet ==>
              ctx.chunks == [] && ctx.orphanIds == old(ctx.orphanIds) && Work(ports) == old(Work(ports))
    ensures NoFaults(old(ports.faults)) ==> NoFaults(ports.faults)
  {
    made := BodyOfKnowledge(ctx, ports, cfg);
  }

  /** Stores the overview made, if it has not been stored. */
  method StoreMade(ctx: Context, ports: Ports, cfg: Config, ghost made: Option<Chunk>, ghost before: Store, ghost unneeded: bool)
    requires WellFormed(ports.entries, ports.services.embed)
    requires forall i :: 0 <= i < |ctx.chunks| ==> IsOverview(ctx.chunks[i], ports.services.embed)
    requires IsPlaced(made, before, ports.entries, [], ctx.chunks)
    requires IsMade(made, ports.services, cfg, ctx.documents, ctx.rawChunksByDoc, ctx.documentSummaries, unneeded)
    modifies ctx`chunks, ctx`errors
    modifies ports`faults, ports`entries, ports`embedCalls, ports`writeCalls
    ensures WellFormed(ports.entries, ports.services.embed)
    ensures old(ports.entries).Keys <= ports.entries.Keys <= old(ports.entries).Keys + {BOK_ID}
    ensures old(ctx.errors) <= ctx.errors
    ensures ctx.errors == old(ctx.errors) && old(ctx.chunks) != [] ==> OverviewStored(ports.entries)
    ensures OverviewStored(old(ports.entries)) ==> OverviewStored(ports.entries)
    ensures ctx.errors == old(ctx.errors) ==>
              IsDescribed(before, ports.entries, ports.services, cfg, ctx.documents, ctx.rawChunksByDoc, ctx.documentSummaries, unneeded)
    ensures old(ctx.chunks) == [] ==>
              ctx.errors == old(ctx.errors) && Work(ports) == old(Work(ports))
    ensures NoFaults(old(ports.faults)) ==> NoFaults(ports.faults) && ctx.errors == old(ctx.errors)
  {
    ghost var mid, now := ports.entries, ctx.chunks;
    StoreOverview(ctx, ports);
    if ctx.errors == old(ctx.errors) {
      DescribedNow(made, before, mid, ports.entries, now, ctx.chunks, ports.services, cfg, ctx.documents, ctx.rawChunksByDoc, ctx.documentSummaries, unneeded);
    }
  }

  /** Generates the overview, and stores it if that could not be done inline. */
  method DescribeAndStore(ctx: Context, ports: Ports, cfg: Config, ghost quiet: bool)
    requires WellFormed(ports.entries, ports.services.embed) && ctx.chunks == [] && cfg.summarize
    requires quiet ==> NothingToDescribe(ctx, ports, cfg)
    modifies ctx`chunks, ctx`errors, ctx`orphanIds
    modifies ports`faults, ports`entries, ports`llmCalls, ports`embedCalls, ports`writeCalls
    ensures OverviewDone(old(ports.entries), ports.entries, old(ctx.orphanIds), ctx.orphanIds, HasRawText(ctx), ports.services.embed)
    ensures old(ctx.errors) <= ctx.errors
    ensures ctx.errors == old(ctx.errors) ==>
              IsDescribed(old(ports.entries), ports.entries, ports.services, cfg, ctx.documents, ctx.rawChunksByDoc, ctx.documentSummaries,
                          old(Unneeded(ctx, ports)))
    ensures HasRawText(ctx) && ctx.errors == old(ctx.errors) ==> OverviewStored(ports.entries)
    ensures quiet ==>
              ctx.errors == old(ctx.errors) && ctx.orphanIds == old(ctx.orphanIds) && Work(ports) == old(Work(ports))
    ensures NoFaults(old(ports.faults)) ==> NoFaults(ports.faults) && ctx.errors == old(ctx.errors)
  {
    ghost var before, unneeded, texts := ports.entries, Unneeded(ctx, ports), HasRawText(ctx);
    ghost var made := GenerateOverview(ctx, ports, cfg, quiet);
    ghost var mid := ports.entries;
    StoreMade(ctx, ports, cfg, made, before, unneeded);
    OverviewDoneStays(before, mid, ports.entries, old(ctx.orphanIds), ctx.orphanIds, texts, ports.services.embed);
  }

  /** The overview steps before the sweep; they write nothing but the overview. */
  method FinishOverview(ctx: Context, ports: Ports, cfg: Config, ghost quiet: bool)
    requires WellFormed(ports.entries, ports.services.embed) && ctx.chunks == []
    requires quiet ==> NothingToDescribe(ctx, ports, cfg)
    modifies ctx`chunks, ctx`errors, ctx`orphanIds
    modifies ports`faults, ports`entries, ports`llmCalls, ports`embedCalls, ports`writeCalls
    ensures OverviewDone(old(ports.entries), ports.entries, old(ctx.orphanIds), ctx.orphanIds, old(HasRawText(ctx)), ports.services.embed)
    ensures old(ctx.errors) <= ctx.errors
    ensures if cfg.summarize
            then ctx.errors == old(ctx.errors) ==>
                   IsDescribed(old(ports.entries), ports.entries, ports.services, cfg, ctx.documents, ctx.rawChunksByDoc, ctx.documentSummaries,
                               old(Unneeded(ctx, ports)))
            else ports.entries == old(ports.entries)
    ensures !cfg.summarize ==> ctx.orphanIds == old(ctx.orphanIds)
    ensures cfg.summarize && old(HasRawText(ctx)) && ctx.errors == old(ctx.errors) ==> OverviewStored(ports.entries)
    ensures quiet ==>
              ctx.errors == old(ctx.errors) && ctx.orphanIds == old(ctx.orphanIds) && Work(ports) == old(Work(ports))
    ensures NoFaults(old(ports.faults)) ==> NoFaults(ports.faults) && ctx.errors == old(ctx.errors)
  {
    if cfg.summarize { DescribeAndStore(ctx, ports, cfg, quiet); }
  }

  /** Adds the batch's passages to the raw texts the overview may need. */
  method Accumulate(raw: map<string, seq<string>>, cs: seq<Chunk>) returns (r: map<string, seq<string>>)
    ensures IsAccumulated(raw, cs, r)
  {
    r := raw;
    for i := 0 to |cs|
      invariant IsAccumulated(raw, cs[..i], r)
    {
      AccumulatedStep(raw, cs, i, r);
      var d := cs[i].meta.documentId;
      if IsContent(cs[i].meta.embeddingType) { r := r[d := (if d in r then r[d] else []) + [cs[i].content]]; }
    }
    TakeAll(cs);
  }

  /** Behind the texts there already are those of the chunks, summaries aside. */
  ghost predicate IsAccumulated(raw: map<string, seq<string>>, cs: seq<Chunk>, r: map<string, seq<string>>) {
    && r.Keys == raw.Keys + ContentDocuments(cs)
    && forall d :: d in r ==> r[d] == (if d in raw then raw[d] else []) + ContentTexts(cs, d)
  }

  function Extended(r: map<string, seq<string>>, c: Chunk): map<string, seq<string>> {
    var d := c.meta.documentId;
    if IsContent(c.meta.embeddingType) then r[d := (if d in r then r[d] else []) + [c.content]] else r
  }

  lemma AccumulatedStep(raw: map<string, seq<string>>, cs: seq<Chunk>, i: nat, r: map<string, seq<string>>)
    requires i < |cs| && IsAccumulated(raw, cs[..i], r)
    ensures IsAccumulated(raw, cs[..i + 1], Extended(r, cs[i]))
  {
    ContentStep(cs, i);
    forall d | d in Extended(r, cs[i]) ensures Extended(r, cs[i])[d] == (if d in raw then raw[d] else []) + ContentTexts(cs[..i + 1], d) {
      AccumulatedAt(raw, cs, i, r, d);
    }
  }

  lemma AccumulatedAt(raw: map<string, seq<string>>, cs: seq<Chunk>, i: nat, r: map<string, seq<string>>, d: string)
    requires i < |cs| && IsAccumulated(raw, cs[..i], r) && d in Extended(r, cs[i])
    ensures Extended(r, cs[i])[d] == (if d in raw then raw[d] else []) + ContentTexts(cs[..i + 1], d)
  {
    TextsStep(cs, i, d);
    if d !in r { NoContent(cs[..i], d); }
  }

  lemma ContentStep(cs: seq<Chunk>, i: nat)
    requires i < |cs|
    ensures ContentDocuments(cs[..i + 1])
         == ContentDocuments(cs[..i]) + if IsContent(cs[i].meta.embeddingType) then {cs[i].meta.documentId} else {}
  {
    TakeStep(cs, i);
    assert forall c :: c in cs[..i + 1] <==> c in cs[..i] || c == cs[i];
  }

  lemma TextsStep(cs: seq<Chunk>, i: nat, d: string)
    requires i < |cs|
    ensures ContentTexts(cs[..i + 1], d)
         == ContentTexts(cs[..i], d) + if IsContent(cs[i].meta.embeddingType) && cs[i].meta.documentId == d then [cs[i].content] else []
  {
    assert cs[..i + 1][..i] == cs[..i];
  }

  lemma {:induction false} NoContent(cs: seq<Chunk>, d: string)
    requires d !in ContentDocuments(cs)
    ensures ContentTexts(cs, d) == []
    decreases |cs|
  {
    if cs != [] {
      var n := |cs| - 1;
      assert cs[n] in cs && forall c :: c in cs[..n] ==> c in cs;
      NoContent(cs[..n], d);
    }
  }

  lemma SettledPart(s: Store, cfg: Config, all: seq<Document>, part: seq<Document>, embed: string -> Vector)
    requires WellFormed(s, embed) && ValidDocuments(cfg, all) && Settled(s, cfg, all) && forall d :: d in part ==> d in all
    ensures Settled(s, cfg, part)
  {
    forall id | id in LiveIds(cfg, part) ensures id in s { LivePart(cfg, all, part, id); }
    forall id | id in s && s[id].documentId in ChunkedDocuments(cfg, part) ensures id in LiveIds(cfg, part) {
      assert s[id].documentId in ChunkedDocuments(cfg, all);
      assert id !in StaleIds(s, ChunkedDocuments(cfg, all), LiveIds(cfg, all));
      LiveIdOwner(s, cfg, all, part, id, embed);
    }
  }

  lemma BatchSlice(docs: seq<Document>, i: nat, end: nat)
    requires i < end <= |docs|
    ensures docs[..i] + docs[i..end] == docs[..end] && docs[i..end] != []
    ensures forall d :: d in docs[..end] ==> d in docs
    ensures forall d :: d in docs[i..end] ==> d in docs
  {}

  /** The batches of a run.  The sweep's accumulators come back in a fresh context. */
  method RunBatches(ports: Ports, cfg: Config, docs: seq<Document>) returns (ctx: Context)
    requires WellFormed(ports.entries, ports.services.embed) && ValidDocuments(cfg, docs) && cfg.chunkThreshold >= 1
    modifies ports`faults, ports`entries, ports`llmCalls, ports`embedCalls, ports`writeCalls
    ensures fresh(ctx) && ctx.documents == docs && ctx.chunks == []
    ensures WellFormed(ports.entries, ports.services.embed) && old(ports.entries).Keys <= ports.entries.Keys
    ensures ctx.errors == [] ==>
              && Underway(old(ports.entries), ports.entries, ports.services, cfg, docs, docs, RecordOf(ctx), ctx.removedDocumentIds)
              && (docs != [] ==> ctx.changeDetectionRan)
    ensures NoFaults(old(ports.faults)) && Settled(old(ports.entries), cfg, docs) ==>
              && ctx.errors == [] && ctx.orphanIds == {} && ctx.changedDocumentIds == {}
              && ports.entries == old(ports.entries) && ports.llmCalls == old(ports.llmCalls)
              && ports.embedCalls == old(ports.embedCalls) && ports.writeCalls == old(ports.writeCalls)
    ensures Untroubled(old(ports.faults), ports.services, cfg) ==> ctx.errors == []
    ensures NoFaults(old(ports.faults)) ==> NoFaults(ports.faults)
  {
    ghost var s0, embed := ports.entries, ports.services.embed;
    var live := DocumentIds(docs);
    var size := if cfg.batchSize < 1 then 1 else cfg.batchSize;
    ctx := new Context(docs, live);
    var i := 0;
    UnderwayStarts(s0, ports.services, cfg, docs);
    while i < |docs|
      modifies ctx, ports`faults, ports`entries, ports`llmCalls, ports`embedCalls, ports`writeCalls
      invariant 0 <= i <= |docs| && ctx.chunks == []
      invariant WellFormed(ports.entries, embed) && s0.Keys <= ports.entries.Keys
      invariant ctx.errors == [] ==> Underway(s0, ports.entries, ports.services, cfg, docs, docs[..i], RecordOf(ctx), ctx.removedDocumentIds)
      invariant ctx.errors == [] ==> (i > 0 ==> ctx.changeDetectionRan)
      invariant NoFaults(old(ports.faults)) && Settled(s0, cfg, docs) ==>
                  && ctx.errors == [] && ctx.orphanIds == {} && ctx.changedDocumentIds == {}
                  && ports.entries == s0 && ports.llmCalls == old(ports.llmCalls)
                  && ports.embedCalls == old(ports.embedCalls) && ports.writeCalls == old(ports.writeCalls)
      invariant Untroubled(old(ports.faults), ports.services, cfg) ==> ctx.errors == []
      invariant NoFaults(old(ports.faults)) ==> NoFaults(ports.faults)
    {
      var end := if i + size < |docs| then i + size else |docs|;
      BatchSlice(docs, i, end);
      RunNextBatch(ctx, ports, cfg, docs, i, end, s0);
      i := end;
    }
    TakeAll(docs);
  }

  ghost function RecordOf(ctx: Context): Record
    reads ctx
  {
    Record(ctx.rawChunksByDoc, ctx.changedDocumentIds, ctx.documentSummaries, ctx.orphanIds)
  }

  /** The state of the run after the documents `done`, without errors. */
  ghost predicate Underway(s0: Store, s: Store, services: Services, cfg: Config, all: seq<Document>, done: seq<Document>, r: Record, removed: set<string>) {
    Progress(s0, s, cfg, all, done, r.orphans, removed) && Recorded(s0, s, services, cfg, done, r)
  }

  lemma UnderwayStarts(s: Store, services: Services, cfg: Config, docs: seq<Document>)
    ensures Underway(s, s, services, cfg, docs, docs[..0], Record(map[], {}, map[], {}), {})
  {
    AllRawMembers(cfg, docs[..0]);
    assert docs[..0] == [];
    NothingRecorded(s, s, services, cfg);
  }

  lemma UnderwayStep(s0: Store, s: Store, t: Store, services: Services, cfg: Config, docs: seq<Document>, i: nat, end: nat, r: Record, removed: set<string>,
                     final: seq<Chunk>, changed: set<string>, made: map<string, string>, more: set<Id>, gone: set<string>, raw: map<string, seq<string>>)
    requires WellFormed(s0, services.embed) && WellFormed(s, services.embed) && WellFormed(t, services.embed) && ValidDocuments(cfg, docs)
    requires s0.Keys <= s.Keys <= t.Keys && i < end <= |docs| && Underway(s0, s, services, cfg, docs, docs[..i], r, removed)
    requires BatchDone(s, t, cfg, docs[i..end], DocumentIds(docs), more, gone)
    requires BatchTold(s, t, services, cfg, docs[i..end], final, changed, made)
    requires OnlyShortStale(cfg, docs[i..end], StaleIds(s, ChunkedDocuments(cfg, docs[i..end]), LiveIds(cfg, docs[i..end])), more)
    requires ContentDocuments(final) == ChunkedDocuments(cfg, docs[i..end]) && IsAccumulated(r.raw, final, raw)
    ensures Underway(s0, t, services, cfg, docs, docs[..end], Record(raw, r.changed + changed, r.summaries + made, r.orphans + more), removed + gone)
  {
    var done, batch := docs[..i], docs[i..end];
    BatchSlice(docs, i, end);
    ProgressStep(s0, s, t, cfg, docs, done, batch, r.orphans, removed, more, gone, services.embed);
    ChunkedTogether(cfg, done, batch, done + batch);
    RawToldStep(cfg, done, batch, r.raw, raw);
    NewToldStep(s0, s, t, services, cfg, docs, done, batch, r.changed, r.summaries, final, changed, made);
    SummariesToldStep(s, t, services, cfg, done, batch, r.summaries, final, changed, made);
    StaleToldStep(s, t, cfg, done, batch, r.orphans, more, services.embed);
  }

  lemma ChunkedTogether(cfg: Config, a: seq<Document>, b: seq<Document>, ab: seq<Document>)
    requires ab == a + b
    ensures ChunkedDocuments(cfg, ab) == ChunkedDocuments(cfg, a) + ChunkedDocuments(cfg, b)
  {
    Together(cfg, a, b);
  }

  method RunNextBatch(ctx: Context, ports: Ports, cfg: Config, docs: seq<Document>, i: nat, end: nat, ghost s0: Store)
    requires i < end <= |docs| && ctx.documents == docs && ctx.allDocumentIds == DocumentIds(docs)
    requires WellFormed(s0, ports.services.embed) && WellFormed(ports.entries, ports.services.embed)
    requires ValidDocuments(cfg, docs) && cfg.chunkThreshold >= 1 && s0.Keys <= ports.entries.Keys
    requires ctx.errors == [] ==>
               Underway(s0, ports.entries, ports.services, cfg, docs, docs[..i], RecordOf(ctx), ctx.removedDocumentIds)
    modifies ctx`errors, ctx`orphanIds, ctx`removedDocumentIds, ctx`changedDocumentIds, ctx`changeDetectionRan
    modifies ctx`rawChunksByDoc, ctx`documentSummaries, ctx`unchangedHashes
    modifies ports`faults, ports`entries, ports`llmCalls, ports`embedCalls, ports`writeCalls
    ensures WellFormed(ports.entries, ports.services.embed) && old(ports.entries).Keys <= ports.entries.Keys
    ensures old(ctx.errors) <= ctx.errors
    ensures ctx.errors == [] ==>
              && Underway(s0, ports.entries, ports.services, cfg, docs, docs[..end], RecordOf(ctx), ctx.removedDocumentIds)
              && ctx.changeDetectionRan
    ensures NoFaults(old(ports.faults)) && Settled(old(ports.entries), cfg, docs) && old(ctx.errors) == [] ==>
              && ctx.errors == [] && ctx.orphanIds == old(ctx.orphanIds) && ctx.changedDocumentIds == old(ctx.changedDocumentIds)
              && ports.entries == old(ports.entries) && ports.llmCalls == old(ports.llmCalls)
              && ports.embedCalls == old(ports.embedCalls) && ports.writeCalls == old(ports.writeCalls)
    ensures Untroubled(old(ports.faults), ports.services, cfg) && old(ctx.errors) == [] ==> ctx.errors == []
    ensures NoFaults(old(ports.faults)) ==> NoFaults(ports.faults)
  {
    ghost var s := ports.entries;
    var b := RunPart(ports, cfg, docs, i, end, ctx.allDocumentIds);
    ghost var r, removed := RecordOf(ctx), ctx.removedDocumentIds;
    MergeBatch(ctx, b);
    if ctx.errors == [] {
      UnderwayStep(s0, s, ports.entries, ports.services, cfg, docs, i, end, r, removed, b.chunks, b.changedDocumentIds,
                   b.documentSummaries, b.orphanIds, b.removedDocumentIds, ctx.rawChunksByDoc);
    }
  }

  /** One batch of the documents. */
  method RunPart(ports: Ports, cfg: Config, docs: seq<Document>, i: nat, end: nat, live: set<string>) returns (b: Context)
    requires i < end <= |docs| && live == DocumentIds(docs) && WellFormed(ports.entries, ports.services.embed)
    requires ValidDocuments(cfg, docs) && cfg.chunkThreshold >= 1
    modifies ports`faults, ports`entries, ports`llmCalls, ports`embedCalls, ports`writeCalls
    ensures fresh(b) && WellFormed(ports.entries, ports.services.embed) && old(ports.entries).Keys <= ports.entries.Keys
    ensures b.errors == [] ==>
              && BatchDone(old(ports.entries), ports.entries, cfg, docs[i..end], live, b.orphanIds, b.removedDocumentIds)
              && b.changeDetectionRan && ContentDocuments(b.chunks) == ChunkedDocuments(cfg, docs[i..end])
              && BatchTold(old(ports.entries), ports.entries, ports.services, cfg, docs[i..end], b.chunks, b.changedDocumentIds, b.documentSummaries)
              && OnlyShortStale(cfg, docs[i..end], StaleIds(old(ports.entries), ChunkedDocuments(cfg, docs[i..end]), LiveIds(cfg, docs[i..end])), b.orphanIds)
    ensures NoFaults(old(ports.faults)) && Settled(old(ports.entries), cfg, docs) ==>
              && b.errors == [] && b.orphanIds == {} && b.changedDocumentIds == {}
              && ports.entries == old(ports.entries) && ports.llmCalls == old(ports.llmCalls)
              && ports.embedCalls == old(ports.embedCalls) && ports.writeCalls == old(ports.writeCalls)
    ensures Untroubled(old(ports.faults), ports.services, cfg) ==> b.errors == []
    ensures NoFaults(old(ports.faults)) ==> NoFaults(ports.faults)
  {
    BatchSlice(docs, i, end);
    assert docs[i..end][0].meta.documentId in live;
    if Settled(ports.entries, cfg, docs) { SettledPart(ports.entries, cfg, docs, docs[i..end], ports.services.embed); }
    b := RunBatch(ports, cfg, docs[i..end], live);
  }

  /** Adds a batch's results to the run's. */
  method MergeBatch(ctx: Context, b: Context)
    requires ctx != b
    modifies ctx`errors, ctx`orphanIds, ctx`removedDocumentIds, ctx`changedDocumentIds, ctx`changeDetectionRan
    modifies ctx`rawChunksByDoc, ctx`documentSummaries, ctx`unchangedHashes
    ensures ctx.errors == old(ctx.errors) + b.errors
    ensures ctx.orphanIds == old(ctx.orphanIds) + b.orphanIds
    ensures ctx.removedDocumentIds == old(ctx.removedDocumentIds) + b.removedDocumentIds
    ensures ctx.changedDocumentIds == old(ctx.changedDocumentIds) + b.changedDocumentIds
    ensures ctx.unchangedHashes == old(ctx.unchangedHashes) + b.unchangedHashes
    ensures ctx.documentSummaries == old(ctx.documentSummaries) + b.documentSummaries
    ensures IsAccumulated(old(ctx.rawChunksByDoc), b.chunks, ctx.rawChunksByDoc)
    ensures ctx.changeDetectionRan <==> old(ctx.changeDetectionRan) || b.changeDetectionRan
  {
    ctx.rawChunksByDoc := Accumulate(ctx.rawChunksByDoc, b.chunks);
    ctx.documentSummaries := ctx.documentSummaries + b.documentSummaries;
    ctx.orphanIds := ctx.orphanIds + b.orphanIds;
    ctx.removedDocumentIds := ctx.removedDocumentIds + b.removedDocumentIds;
    ctx.changedDocumentIds := ctx.changedDocumentIds + b.changedDocumentIds;
    ctx.unchangedHashes := ctx.unchangedHashes + b.unchangedHashes;
    ctx.errors := ctx.errors + b.errors;
    ctx.changeDetectionRan := ctx.changeDetectionRan || b.changeDetectionRan;
  }

  lemma RawTextIsChunked(cfg: Config, docs: seq<Document>, raw: map<string, seq<string>>)
    requires raw.Keys == ChunkedDocuments(cfg, docs)
    ensures ChunkedDocuments(cfg, docs) != {} ==> exists d :: d in raw && IsDocument(docs, d)
    ensures ChunkedDocuments(cfg, docs) == {} ==> raw == map[]
  {
    if ChunkedDocuments(cfg, docs) != {} {
      var x :| x in ChunkedDocuments(cfg, docs);
      var d :| d in docs && RawChunks(cfg, d) != [] && d.meta.documentId == x;
      var i :| 0 <= i < |docs| && docs[i] == d;
      assert docs[i].meta.documentId == x && x in raw;
    }
  }

  /** The overview's own id among the orphans is of no consequence to passages. */
  lemma ProgressMinus(s0: Store, s: Store, cfg: Config, all: seq<Document>, orphans: set<Id>, doomed: set<Id>, removed: set<string>)
    requires Progress(s0, s, cfg, all, all, orphans, removed)
    requires doomed == orphans || doomed == orphans + {BOK_ID}
    ensures Progress(s0, s, cfg, all, all, doomed - {BOK_ID}, removed)
  {
    OverviewIsSummary("", "");
    assert IsSummaryId(BOK_ID);
  }

  lemma EmptyProgress(s0: Store, s: Store, cfg: Config, orphans: set<Id>, removed: set<string>)
    requires Progress(s0, s, cfg, [], [], orphans, removed)
    ensures LiveIds(cfg, []) == {} && orphans == {} && removed == {}
  {
    AllRawMembers(cfg, []);
    assert ChunkedDocuments(cfg, []) == {} && DocumentIds([]) == {};
    assert forall id :: id !in orphans;
  }

  lemma EmptyRun(s0: Store, mid: Store, orphans: set<Id>, embed: string -> Vector)
    requires WellFormed(s0, embed) && WellFormed(mid, embed) && s0.Keys <= mid.Keys && orphans <= {BOK_ID}
    requires forall id :: id in mid && id.Digest? ==> id in s0
    ensures PassageIds(Sweep(mid, orphans, {})) == {} <==> StoredDocuments(s0) == {}
  {
    forall id | id in PassageIds(Sweep(mid, orphans, {})) ensures mid[id].documentId in StoredDocuments(s0) {
      assert IsSound(id, mid[id], embed);
      UnchunkedIsStored(s0, mid, id, embed);
    }
    if d :| d in StoredDocuments(s0) { StaysPassage(s0, mid, orphans, embed, d); }
  }

  /** A passage of a stored document is never given up with the overview. */
  lemma StaysPassage(s0: Store, mid: Store, orphans: set<Id>, embed: string -> Vector, d: string)
    requires WellFormed(s0, embed) && WellFormed(mid, embed) && s0.Keys <= mid.Keys && orphans <= {BOK_ID}
    requires d in StoredDocuments(s0)
    ensures exists id :: id in PassageIds(Sweep(mid, orphans, {}))
  {
    var id :| id in s0 && IsPassage(s0[id]) && s0[id].documentId != "" && s0[id].documentId == d;
    SameDocument(s0, mid, id, embed);
    assert IsSound(id, mid[id], embed) && id in Sweep(mid, orphans, {});
    assert id in PassageIds(Sweep(mid, orphans, {}));
  }

  lemma KeepsLive(s0: Store, s: Store, mid: Store, cfg: Config, all: seq<Document>, orphans: set<Id>, removed: set<string>,
                  embed: string -> Vector, id: Id)
    requires WellFormed(s0, embed) && WellFormed(s, embed) && WellFormed(mid, embed) && ValidDocuments(cfg, all)
    requires s0.Keys <= s.Keys <= mid.Keys <= s.Keys + {BOK_ID}
    requires Progress(s0, s, cfg, all, all, orphans - {BOK_ID}, removed)
    requires id in LiveIds(cfg, all) && id in s0 && !IsSweptDocument(RemovedDocuments(s0, all), s0[id].documentId)
    ensures id in Sweep(mid, orphans, removed)
  {
    AllRawMembers(cfg, all);
    LiveIdDocument(s0, cfg, all, id, embed);
    SameDocument(s0, mid, id, embed);
    Survives(s0, s, mid, cfg, all, orphans, removed, embed, id);
  }

  /** Everything a run can say of its three stores: found, after the batches, before the sweep. */
  ghost predicate Ran(s0: Store, s: Store, mid: Store, cfg: Config, docs: seq<Document>, orphans: set<Id>, removed: set<string>,
                      embed: string -> Vector)
  {
    && WellFormed(s0, embed) && WellFormed(s, embed) && WellFormed(mid, embed) && ValidDocuments(cfg, docs)
    && s0.Keys <= s.Keys <= mid.Keys <= s.Keys + {BOK_ID}
    && Progress(s0, s, cfg, docs, docs, orphans - {BOK_ID}, removed)
  }

  lemma RunConverges(s0: Store, s: Store, mid: Store, cfg: Config, docs: seq<Document>, orphans: set<Id>, removed: set<string>,
                     embed: string -> Vector)
    requires Ran(s0, s, mid, cfg, docs, orphans, removed, embed)
    ensures PassageIds(Sweep(mid, orphans, removed)) == LiveIds(cfg, docs) <==> Converges(cfg, docs, s0)
  {
    if docs == [] {
      EmptyProgress(s0, s, cfg, orphans - {BOK_ID}, removed);
      EmptyRun(s0, mid, orphans, embed);
    } else {
      SweepConverges(s0, s, mid, cfg, docs, orphans, removed, embed);
    }
  }

  /** What follows for the store an error-free run of the batches and the overview was swept from. */
  lemma RunFacts(s0: Store, s: Store, mid: Store, cfg: Config, docs: seq<Document>, orphans: set<Id>, doomed: set<Id>,
                 removed: set<string>, embed: string -> Vector)
    requires Ran(s0, s, mid, cfg, docs, orphans, removed, embed) && Progress(s0, s, cfg, docs, docs, orphans, removed)
    requires doomed == orphans || (doomed == orphans + {BOK_ID} && (cfg.summarize ==> ChunkedDocuments(cfg, docs) == {}))
    requires cfg.summarize && ChunkedDocuments(cfg, docs) != {} ==> OverviewStored(mid)
    ensures LiveIds(cfg, docs) <= mid.Keys
    ensures SafeIds(s0, cfg, docs) <= Sweep(mid, doomed, removed).Keys
    ensures LeavesLive(s0, Sweep(mid, doomed, removed), cfg, docs)
    ensures SettlesUnreserved(s0, Sweep(mid, doomed, removed), cfg, docs)
  {
    ProgressMinus(s0, s, cfg, docs, orphans, doomed, removed);
    forall id | id in SafeIds(s0, cfg, docs) ensures id in Sweep(mid, doomed, removed) {
      KeepsLive(s0, s, mid, cfg, docs, doomed, removed, embed, id);
    }
    RunConverges(s0, s, mid, cfg, docs, doomed, removed, embed);
    if docs != [] && NoReservedIds(docs, s0) { SweepSettles(s0, s, mid, cfg, docs, doomed, removed, embed); }
  }

  /** The stored live passages that no removed document's summary id names the document of. */
  ghost function SafeIds(s0: Store, cfg: Config, docs: seq<Document>): set<Id> {
    set id | id in s0 && id in LiveIds(cfg, docs) && !IsSweptDocument(RemovedDocuments(s0, docs), s0[id].documentId)
  }

  /** Exactly the live passages are stored, precisely when a run from `s0` converges. */
  ghost predicate LeavesLive(s0: Store, s: Store, cfg: Config, docs: seq<Document>) {
    PassageIds(s) == LiveIds(cfg, docs) <==> Converges(cfg, docs, s0)
  }

  ghost predicate SettlesUnreserved(s0: Store, s: Store, cfg: Config, docs: seq<Document>) {
    docs != [] && NoReservedIds(docs, s0) ==> AllSettled(s, cfg, docs)
  }

  // ----- what a run leaves besides the passages

  /** The stored overview is made of what the run recorded. */
  ghost predicate OverviewTold(s: Store, services: Services, cfg: Config, docs: seq<Document>, r: Record) {
    exists c :: IsOverviewOf(c, services, cfg, docs, [], r.raw, r.summaries) && c.embedding.Some? && BOK_ID in s && s[BOK_ID] == EntryOf(c)
  }

  /** The run handed on the documents' pieces, and took note of every document that was new. */
  ghost predicate RunNoticed(s0: Store, cfg: Config, docs: seq<Document>, r: Record) {
    RawTold(cfg, docs, r.raw) && NewTold(s0, cfg, docs, r.changed, r.summaries)
  }

  /** Summaries are stored as they were recorded, where they are stored at all; with no reserved ids
      those of documents with pieces enough are. */
  ghost predicate SummariesLeft(s0: Store, s: Store, services: Services, cfg: Config, docs: seq<Document>, r: Record) {
    && (forall d :: d in r.summaries && d != "body-of-knowledge" && Named(d + "-summary", 0) in s ==>
          SummaryTold(s, services, cfg, docs, d, r.summaries[d]))
    && (NoReservedIds(docs, s0) ==>
          forall doc :: doc in docs && doc.meta.documentId in r.summaries && |SplitText(cfg, doc)| >= cfg.chunkThreshold ==>
            Named(doc.meta.documentId + "-summary", 0) in s)
  }

  /** Once a document has changed or gone the overview stored is the run's own, if it is stored at all;
      with no reserved ids it is. */
  ghost predicate OverviewLeft(s0: Store, s: Store, services: Services, cfg: Config, docs: seq<Document>, r: Record) {
    cfg.summarize && r.raw != map[] && (r.changed != {} || RemovedDocuments(s0, docs) != {}) ==>
      && (BOK_ID in s ==> OverviewTold(s, services, cfg, docs, r))
      && (NoReservedIds(docs, s0) ==> BOK_ID in s)
  }

  /** All that a run without errors leaves besides the passages. */
  ghost predicate RunTold(s0: Store, s: Store, services: Services, cfg: Config, docs: seq<Document>, r: Record) {
    && RunNoticed(s0, cfg, docs, r) && SummariesLeft(s0, s, services, cfg, docs, r) && OverviewLeft(s0, s, services, cfg, docs, r)
  }

  lemma SummaryIsNoOverview(d: string)
    ensures Named(d + "-summary", 0) == BOK_ID <==> d == "body-of-knowledge"
  {
    assert BOK_DOCUMENT_ID == "body-of-knowledge" + "-summary";
    if d + "-summary" == "body-of-knowledge" + "-summary" { SameFront(d, "body-of-knowledge"); }
  }

  /** Of a document with pieces enough neither the entry's document nor its id is given up. */
  lemma SummarySurvives(s0: Store, b: Store, m: Store, cfg: Config, docs: seq<Document>, orphans: set<Id>, doomed: set<Id>,
                        doc: Document, embed: string -> Vector)
    requires WellFormed(b, embed) && WellFormed(m, embed) && ValidDocuments(cfg, docs) && NoReservedIds(docs, s0)
    requires doc in docs && |SplitText(cfg, doc)| >= cfg.chunkThreshold && StaleTold(b, cfg, docs, orphans) && doomed <= orphans + {BOK_ID}
    requires Named(doc.meta.documentId + "-summary", 0) in b && Named(doc.meta.documentId + "-summary", 0) in m
    ensures Named(doc.meta.documentId + "-summary", 0) in Sweep(m, doomed, RemovedDocuments(s0, docs))
  {
    var d := doc.meta.documentId;
    var id := Named(d + "-summary", 0);
    assert d in DocumentIds(docs) && EndsWith(d + "-summary", SUMMARY_SUFFIX) && d != "body-of-knowledge";
    SummaryIsNoOverview(d);
    assert IsSound(id, b[id], embed) && IsSound(id, m[id], embed);
    assert ChunkedDocuments(cfg, docs) <= DocumentIds(docs);
    NotShort(cfg, docs, doc);
    forall r | r in RemovedDocuments(s0, docs) ensures r != d + "-summary" && r + SUMMARY_SUFFIX != d + "-summary" {
      if r + SUMMARY_SUFFIX == d + "-summary" { SameFront(r, d); }
    }
  }

  lemma NotShort(cfg: Config, docs: seq<Document>, doc: Document)
    requires ValidDocuments(cfg, docs) && doc in docs && |SplitText(cfg, doc)| >= cfg.chunkThreshold
    ensures !IsShortSummary(cfg, docs, Named(doc.meta.documentId + "-summary", 0))
  {
    forall e | e in docs && IsSummaryIdOf(Named(doc.meta.documentId + "-summary", 0), e) ensures e == doc {
      SameFront(e.meta.documentId, doc.meta.documentId);
    }
  }

  lemma SummariesSwept(s0: Store, b: Store, m: Store, services: Services, cfg: Config, docs: seq<Document>, r: Record, doomed: set<Id>)
    requires WellFormed(b, services.embed) && WellFormed(m, services.embed) && ValidDocuments(cfg, docs)
    requires SummariesTold(b, services, cfg, docs, r.summaries) && StaleTold(b, cfg, docs, r.orphans) && doomed <= r.orphans + {BOK_ID}
    requires b.Keys <= m.Keys && forall id :: id in b && id != BOK_ID ==> m[id] == b[id]
    ensures SummariesLeft(s0, Sweep(m, doomed, RemovedDocuments(s0, docs)), services, cfg, docs, r)
  {
    var s := Sweep(m, doomed, RemovedDocuments(s0, docs));
    forall d | d in r.summaries && d != "body-of-knowledge" && Named(d + "-summary", 0) in s
      ensures SummaryTold(s, services, cfg, docs, d, r.summaries[d])
    {
      SummaryIsNoOverview(d);
      SummaryStays(b, s, services, cfg, docs, [], d, r.summaries[d]);
      assert docs + [] == docs;
    }
    if NoReservedIds(docs, s0) {
      forall doc | doc in docs && doc.meta.documentId in r.summaries && |SplitText(cfg, doc)| >= cfg.chunkThreshold
        ensures Named(doc.meta.documentId + "-summary", 0) in s
      {
        assert SummaryTold(b, services, cfg, docs, doc.meta.documentId, r.summaries[doc.meta.documentId]);
        SummarySurvives(s0, b, m, cfg, docs, r.orphans, doomed, doc, services.embed);
      }
    }
  }

  /** With no reserved ids nothing gives the overview up. */
  lemma OverviewKeptBack(s0: Store, b: Store, m: Store, cfg: Config, docs: seq<Document>, orphans: set<Id>, embed: string -> Vector)
    requires WellFormed(b, embed) && WellFormed(m, embed) && NoReservedIds(docs, s0) && BOK_ID in m && StaleTold(b, cfg, docs, orphans)
    ensures BOK_ID in Sweep(m, orphans, RemovedDocuments(s0, docs))
  {
    SummaryIsNoOverview("body-of-knowledge");
    assert IsSound(BOK_ID, m[BOK_ID], embed) && (BOK_ID in b ==> IsSound(BOK_ID, b[BOK_ID], embed));
    assert ChunkedDocuments(cfg, docs) <= DocumentIds(docs) && EndsWith("body-of-knowledge" + "-summary", SUMMARY_SUFFIX);
    forall doc | doc in docs ensures !IsSummaryIdOf(BOK_ID, doc) {
      assert doc.meta.documentId in DocumentIds(docs);
      SummaryIsNoOverview(doc.meta.documentId);
    }
    forall r | r in RemovedDocuments(s0, docs) ensures r != BOK_DOCUMENT_ID && r + SUMMARY_SUFFIX != BOK_DOCUMENT_ID {
      if r + SUMMARY_SUFFIX == "body-of-knowledge" + "-summary" { SameFront(r, "body-of-knowledge"); }
    }
  }

  lemma SomethingSeen(cfg: Config, docs: seq<Document>, raw: map<string, seq<string>>)
    requires raw.Keys == ChunkedDocuments(cfg, docs) && raw != map[]
    ensures SeenIn(docs, [], raw).0 != [] && HasTexts(raw, docs)
  {
    var x :| x in raw.Keys;
    var d :| d in docs && RawChunks(cfg, d) != [] && d.meta.documentId == x;
    var i :| 0 <= i < |docs| && docs[i] == d;
    MentionedCovers(docs, raw.Keys);
    assert docs[i].meta.documentId in Mentioned(docs, raw.Keys) && x in raw && IsDocument(docs, x);
  }

  lemma OverviewSwept(s0: Store, b: Store, m: Store, services: Services, cfg: Config, docs: seq<Document>, r: Record, doomed: set<Id>, unneeded: bool)
    requires WellFormed(b, services.embed) && WellFormed(m, services.embed) && r.raw.Keys == ChunkedDocuments(cfg, docs)
    requires cfg.summarize ==> IsDescribed(b, m, services, cfg, docs, r.raw, r.summaries, unneeded)
    requires unneeded ==> r.changed == {} && RemovedDocuments(s0, docs) == {}
    requires StaleTold(b, cfg, docs, r.orphans) && (HasTexts(r.raw, docs) ==> doomed == r.orphans)
    ensures OverviewLeft(s0, Sweep(m, doomed, RemovedDocuments(s0, docs)), services, cfg, docs, r)
  {
    if cfg.summarize && r.raw != map[] && (r.changed != {} || RemovedDocuments(s0, docs) != {}) {
      SomethingSeen(cfg, docs, r.raw);
      var made :| IsMade(made, services, cfg, docs, r.raw, r.summaries, unneeded) && IsPlaced(made, b, m, [], []);
      assert m[BOK_ID] == EntryOf(made.value);
      if NoReservedIds(docs, s0) { OverviewKeptBack(s0, b, m, cfg, docs, r.orphans, services.embed); }
    }
  }

  lemma RunTells(s0: Store, b: Store, m: Store, services: Services, cfg: Config, docs: seq<Document>, r: Record, removed: set<string>, doomed: set<Id>,
                 unneeded: bool)
    requires WellFormed(b, services.embed) && ValidDocuments(cfg, docs) && Underway(s0, b, services, cfg, docs, docs, r, removed)
    requires OverviewDone(b, m, r.orphans, doomed, HasTexts(r.raw, docs), services.embed) && (unneeded ==> r.changed == {} && removed == {})
    requires if cfg.summarize then IsDescribed(b, m, services, cfg, docs, r.raw, r.summaries, unneeded) else m == b
    ensures RunTold(s0, Sweep(m, doomed, removed), services, cfg, docs, r)
  {
    if docs == [] {
      SummaryNeedsDocument(b, services, cfg, docs, r.summaries);
    } else {
      SummariesSwept(s0, b, m, services, cfg, docs, r, doomed);
      OverviewSwept(s0, b, m, services, cfg, docs, r, doomed, unneeded);
    }
  }

  lemma SummaryNeedsDocument(s: Store, services: Services, cfg: Config, docs: seq<Document>, summaries: map<string, string>)
    requires SummariesTold(s, services, cfg, docs, summaries)
    ensures summaries != map[] ==> docs != []
  {
    if summaries != map[] {
      var d :| d in summaries.Keys;
      var part :| IsPart(part, docs) && KeepsSummary(s, services, cfg, part, d, PieceTexts(cfg, part, d), summaries[d]);
      var lo: nat, hi: nat :| lo <= hi <= |docs| && part == docs[lo..hi];
    }
  }

  /** What the sweep will leave of an error-free run. */
  ghost predicate Concluded(s0: Store, mid: Store, swept: Store, services: Services, cfg: Config, docs: seq<Document>, r: Record) {
    && LiveIds(cfg, docs) <= mid.Keys && SafeIds(s0, cfg, docs) <= swept.Keys
    && LeavesLive(s0, swept, cfg, docs) && SettlesUnreserved(s0, swept, cfg, docs)
    && RunTold(s0, swept, services, cfg, docs, r)
  }

  lemma RunConcludes(s0: Store, s: Store, mid: Store, services: Services, cfg: Config, docs: seq<Document>, r: Record, removed: set<string>, doomed: set<Id>,
                     unneeded: bool)
    requires WellFormed(s0, services.embed) && WellFormed(s, services.embed) && ValidDocuments(cfg, docs) && s0.Keys <= s.Keys
    requires Underway(s0, s, services, cfg, docs, docs, r, removed) && (unneeded ==> r.changed == {} && removed == {})
    requires OverviewDone(s, mid, r.orphans, doomed, HasTexts(r.raw, docs), services.embed) && (!cfg.summarize ==> doomed == r.orphans)
    requires cfg.summarize && HasTexts(r.raw, docs) ==> OverviewStored(mid)
    requires if cfg.summarize then IsDescribed(s, mid, services, cfg, docs, r.raw, r.summaries, unneeded) else mid == s
    ensures Concluded(s0, mid, Sweep(mid, doomed, removed), services, cfg, docs, r)
  {
    RawTextIsChunked(cfg, docs, r.raw);
    ProgressMinus(s0, s, cfg, docs, r.orphans, r.orphans, removed);
    RunFacts(s0, s, mid, cfg, docs, r.orphans, doomed, removed, services.embed);
    RunTells(s0, s, mid, services, cfg, docs, r, removed, doomed, unneeded);
  }

  /** The last step of a run: the gate and, behind it, the sweep. */
  method FinishRun(ctx: Context, ports: Ports, cfg: Config, docs: seq<Document>, ghost s0: Store, ghost r: Record)
    requires WellFormed(ports.entries, ports.services.embed) && s0.Keys <= ports.entries.Keys
    requires ctx.errors == [] ==>
               Concluded(s0, ports.entries, Sweep(ports.entries, ctx.orphanIds, ctx.removedDocumentIds), ports.services, cfg, docs, r)
    modifies ctx`errors, ports`faults, ports`entries, ports`deleteCalls, ports`beforeDeletes
    ensures WellFormed(ports.entries, ports.services.embed)
    ensures s0.Keys <= ports.entries.Keys || forall i :: 0 <= i < |ctx.errors| ==> IsSweepError(ctx.errors[i])
    ensures old(ports.beforeDeletes) <= ports.beforeDeletes
    ensures |ports.beforeDeletes| > |old(ports.beforeDeletes)| ==>
              LiveIds(cfg, docs) <= ports.beforeDeletes[|old(ports.beforeDeletes)|].Keys
    ensures SafeIds(s0, cfg, docs) <= ports.entries.Keys
    ensures ctx.errors == [] ==> LeavesLive(s0, ports.entries, cfg, docs) && SettlesUnreserved(s0, ports.entries, cfg, docs)
    ensures ctx.errors == [] ==> RunTold(s0, ports.entries, ports.services, cfg, docs, r)
    ensures old(ctx.errors) == [] && ctx.orphanIds == {} && ctx.removedDocumentIds == {} ==>
              ctx.errors == [] && ports.entries == old(ports.entries) && ports.deleteCalls == old(ports.deleteCalls)
    ensures NoFaults(old(ports.faults)) && old(ctx.errors) == [] ==> ctx.errors == [] && NoFaults(ports.faults)
  {
    ghost var mid := ports.entries;
    GatedCleanup(ctx, ports);
    SubStoreWellFormed(ports.entries, mid, ports.services.embed);
  }

  lemma NothingRemoved(s0: Store, s: Store, cfg: Config, docs: seq<Document>, orphans: set<Id>, removed: set<string>)
    requires AllSettled(s0, cfg, docs) && Progress(s0, s, cfg, docs, docs, orphans, removed)
    ensures removed == {}
    ensures docs == [] ==> ChunkedDocuments(cfg, docs) == {}
  {}

  /** The overview after the batches, and what the sweep will then leave: `swept`. */
  method DescribeRun(ctx: Context, ports: Ports, cfg: Config, docs: seq<Document>, ghost s0: Store, ghost quiet: bool)
    returns (ghost swept: Store)
    requires WellFormed(s0, ports.services.embed) && WellFormed(ports.entries, ports.services.embed)
    requires ValidDocuments(cfg, docs) && ctx.documents == docs && ctx.chunks == [] && s0.Keys <= ports.entries.Keys
    requires ctx.errors == [] ==> Underway(s0, ports.entries, ports.services, cfg, docs, docs, RecordOf(ctx), ctx.removedDocumentIds)
    requires quiet ==> NothingToDescribe(ctx, ports, cfg)
    modifies ctx`chunks, ctx`errors, ctx`orphanIds
    modifies ports`faults, ports`entries, ports`llmCalls, ports`embedCalls, ports`writeCalls
    ensures WellFormed(ports.entries, ports.services.embed) && old(ports.entries).Keys <= ports.entries.Keys
    ensures swept == Sweep(ports.entries, ctx.orphanIds, ctx.removedDocumentIds)
    ensures ctx.errors == [] ==> Concluded(s0, ports.entries, swept, ports.services, cfg, docs, old(RecordOf(ctx)))
    ensures quiet ==>
              ctx.errors == old(ctx.errors) && ctx.orphanIds == old(ctx.orphanIds) && Work(ports) == old(Work(ports))
    ensures NoFaults(old(ports.faults)) ==> NoFaults(ports.faults) && ctx.errors == old(ctx.errors)
  {
    ghost var s, removed, r, unneeded := ports.entries, ctx.removedDocumentIds, RecordOf(ctx), Unneeded(ctx, ports);
    FinishOverview(ctx, ports, cfg, quiet);
    swept := Sweep(ports.entries, ctx.orphanIds, ctx.removedDocumentIds);
    if ctx.errors == [] {
      RunConcludes(s0, s, ports.entries, ports.services, cfg, docs, r, removed, ctx.orphanIds, unneeded);
    }
  }

  /** Everything before the sweep: the batches and the overview. */
  method PrepareRun(ports: Ports, cfg: Config, docs: seq<Document>) returns (ctx: Context, ghost swept: Store, ghost r: Record)
    requires WellFormed(ports.entries, ports.services.embed) && ValidDocuments(cfg, docs) && cfg.chunkThreshold >= 1
    modifies ports`faults, ports`entries, ports`llmCalls, ports`embedCalls, ports`writeCalls
    ensures fresh(ctx)
    ensures WellFormed(ports.entries, ports.services.embed) && old(ports.entries).Keys <= ports.entries.Keys
    ensures swept == Sweep(ports.entries, ctx.orphanIds, ctx.removedDocumentIds)
    ensures ctx.errors == [] ==> Concluded(old(ports.entries), ports.entries, swept, ports.services, cfg, docs, r)
    ensures NoFaults(old(ports.faults)) ==> NoFaults(ports.faults)
    ensures Untroubled(old(ports.faults), ports.services, cfg) ==> ctx.errors == []
    ensures NoFaults(old(ports.faults)) && AllSettled(old(ports.entries), cfg, docs) ==>
              && ctx.errors == [] && ctx.orphanIds == {} && ctx.removedDocumentIds == {}
              && ports.entries == old(ports.entries) && ports.llmCalls == old(ports.llmCalls)
              && ports.embedCalls == old(ports.embedCalls) && ports.writeCalls == old(ports.writeCalls)
  {
    ghost var s0 := ports.entries;
    ctx := RunBatches(ports, cfg, docs);
    ghost var quiet := NoFaults(old(ports.faults)) && AllSettled(s0, cfg, docs);
    r := RecordOf(ctx);
    if quiet { NothingRemoved(s0, ports.entries, cfg, docs, ctx.orphanIds, ctx.removedDocumentIds); }
    swept := DescribeRun(ctx, ports, cfg, docs, s0, quiet);
  }

  /** A whole run, under any fault pattern. */
  method RunBatched(ports: Ports, cfg: Config, docs: seq<Document>) returns (errors: seq<IngestError>, ghost r: Record)
    requires WellFormed(ports.entries, ports.services.embed) && ValidDocuments(cfg, docs) && cfg.chunkThreshold >= 1
    modifies ports
    ensures WellFormed(ports.entries, ports.services.embed)
    // nothing is lost once anything but the sweep itself has failed
    ensures old(ports.entries).Keys <= ports.entries.Keys || forall i :: 0 <= i < |errors| ==> IsSweepError(errors[i])
    // deleting starts only when every passage of every document is stored
    ensures old(ports.beforeDeletes) <= ports.beforeDeletes
    ensures |ports.beforeDeletes| > |old(ports.beforeDeletes)| ==>
              LiveIds(cfg, docs) <= ports.beforeDeletes[|old(ports.beforeDeletes)|].Keys
    // and no live passage the run found is ever lost
    ensures SafeIds(old(ports.entries), cfg, docs) <= ports.entries.Keys
    // without errors the passages are exactly the live ones, precisely when the run converges,
    // and without reserved ids the next run has nothing to do
    ensures errors == [] ==>
              && LeavesLive(old(ports.entries), ports.entries, cfg, docs)
              && SettlesUnreserved(old(ports.entries), ports.entries, cfg, docs)
    // a run without errors leaves its summaries and its overview as it recorded them
    ensures errors == [] ==> RunTold(old(ports.entries), ports.entries, ports.services, cfg, docs, r)
    // a run in which no call fails and no document summary is blank records no error
    ensures Untroubled(old(ports.faults), ports.services, cfg) ==> errors == []
    // on a settled store a run without faults makes no model, embedder, write or delete call
    ensures NoFaults(old(ports.faults)) && AllSettled(old(ports.entries), cfg, docs) ==>
              && errors == [] && ports.entries == old(ports.entries)
              && ports.llmCalls == old(ports.llmCalls) && ports.embedCalls == old(ports.embedCalls)
              && ports.writeCalls == old(ports.writeCalls) && ports.deleteCalls == old(ports.deleteCalls)
  {
    ghost var s0 := ports.entries;
    var ctx;
    ghost var swept;
    ctx, swept, r := PrepareRun(ports, cfg, docs);
    FinishRun(ctx, ports, cfg, docs, s0, r);
    errors := ctx.errors;
  }
}
