/** What a run records beside the passages, batch after batch: the texts it hands to the overview,
    the documents found changed, the summaries made of them, and the summaries given up. */
module RunRecord {
  import opened Wrappers
  import opened Corpus
  import opened IngestContext
  import opened Detection
  import opened BatchRun

  datatype Record = Record(raw: map<string, seq<string>>, changed: set<string>, summaries: map<string, string>, orphans: set<Id>)

  // ----- the texts

  /** Under each document with pieces are its pieces, and nothing is under any other. */
  ghost predicate RawTold(cfg: Config, done: seq<Document>, raw: map<string, seq<string>>) {
    raw.Keys == ChunkedDocuments(cfg, done) && forall d :: d in raw ==> raw[d] == PieceTexts(cfg, done, d)
  }

  lemma {:induction false} PiecesPlus(cfg: Config, a: seq<Document>, b: seq<Document>, d: string)
    ensures PieceTexts(cfg, a + b, d) == PieceTexts(cfg, a, d) + PieceTexts(cfg, b, d)
    decreases |b|
  {
    if b == [] {
      assert a + b == a;
    } else {
      assert (a + b)[..|a + b| - 1] == a + b[..|b| - 1];
      PiecesPlus(cfg, a, b[..|b| - 1], d);
    }
  }

  lemma {:induction false} NoPieces(cfg: Config, docs: seq<Document>, d: string)
    requires d !in ChunkedDocuments(cfg, docs)
    ensures PieceTexts(cfg, docs, d) == []
    decreases |docs|
  {
    if docs != [] {
      var n := |docs| - 1;
      assert forall e :: e in docs[..n] ==> e in docs;
      NoPieces(cfg, docs[..n], d);
      assert docs[n] in docs && (docs[n].meta.documentId == d ==> RawChunks(cfg, docs[n]) == []);
    }
  }

  /** In a list without repetition a document's pieces are those of its own text. */
  lemma {:induction false} OwnPieces(cfg: Config, docs: seq<Document>, doc: Document)
    requires doc in docs && NoDuplicates(docs)
    requires forall d, e :: d in docs && e in docs && d.meta.documentId == e.meta.documentId ==> d == e
    ensures PieceTexts(cfg, docs, doc.meta.documentId) == SplitText(cfg, doc)
    decreases |docs|
  {
    var n := |docs| - 1;
    assert docs == docs[..n] + [docs[n]];
    if docs[n] == doc {
      forall e | e in docs[..n] ensures e.meta.documentId != doc.meta.documentId { assert e in docs; }
      NoPieces(cfg, docs[..n], doc.meta.documentId);
    } else {
      assert docs[n] in docs;
      OwnPieces(cfg, docs[..n], doc);
    }
  }

  lemma RawToldStep(cfg: Config, done: seq<Document>, batch: seq<Document>, raw: map<string, seq<string>>, next: map<string, seq<string>>)
    requires RawTold(cfg, done, raw) && next.Keys == ChunkedDocuments(cfg, done + batch)
    requires forall d :: d in next ==> next[d] == (if d in raw then raw[d] else []) + PieceTexts(cfg, batch, d)
    ensures RawTold(cfg, done + batch, next)
  {
    forall d | d in next ensures next[d] == PieceTexts(cfg, done + batch, d) {
      PiecesPlus(cfg, done, batch, d);
      if d !in raw { NoPieces(cfg, done, d); }
    }
  }

  // ----- the documents that are new

  /** The store lacks some passage of the document, or holds something else under its id. */
  ghost predicate IsNew(s: Store, cfg: Config, doc: Document) { !Settled(s, cfg, [doc]) }

  /** What a document that is new must have led to. */
  ghost predicate Noticed(cfg: Config, doc: Document, changed: set<string>, summaries: map<string, string>) {
    doc.meta.documentId in changed && (cfg.summarize && |SplitText(cfg, doc)| >= cfg.chunkThreshold ==> doc.meta.documentId in summaries)
  }

  ghost predicate NewTold(s0: Store, cfg: Config, done: seq<Document>, changed: set<string>, summaries: map<string, string>) {
    forall doc :: doc in done && IsNew(s0, cfg, doc) ==> Noticed(cfg, doc, changed, summaries)
  }

  lemma OwnIds(cfg: Config, doc: Document)
    ensures AllRaw(cfg, [doc]) == RawChunks(cfg, doc)
    ensures ChunkedDocuments(cfg, [doc]) == if RawChunks(cfg, doc) == [] then {} else {doc.meta.documentId}
  {
    assert [doc][..0] == [] && AllRaw(cfg, [doc][..0]) == [];
    assert doc in [doc];
  }

  ghost predicate Distinct(docs: seq<Document>) {
    forall d, e :: d in docs && e in docs && d.meta.documentId == e.meta.documentId ==> d == e
  }

  /** A stored passage of the document that the run did not find must be there because it already
      went over the document. */
  lemma StoredSince(s0: Store, s: Store, cfg: Config, all: seq<Document>, done: seq<Document>, doc: Document, c: Chunk, embed: string -> Vector)
    requires WellFormed(s, embed) && GoodDocuments(cfg, all) && Distinct(all) && doc in all && forall d :: d in done ==> d in all
    requires forall id :: id in s ==> id in s0 || id in LiveIds(cfg, done) || IsSummaryId(id)
    requires c in RawChunks(cfg, doc) && IdOf(ChunkFields(c)) in s && IdOf(ChunkFields(c)) !in s0
    ensures doc in done
  {
    var id := IdOf(ChunkFields(c));
    AllRawMembers(cfg, done);
    RawChunkOf(cfg, doc, c);
    var c' :| c' in AllRaw(cfg, done) && IdOf(ChunkFields(c')) == id;
    var e :| e in done && c' in RawChunks(cfg, e);
    RawChunkOf(cfg, e, c');
    LiveEntry(s, embed, c, id);
    LiveEntry(s, embed, c', id);
  }

  /** A chunk of the document is not stored. */
  lemma FreshIsChanged(s: Store, cfg: Config, batch: seq<Document>, doc: Document, c: Chunk)
    requires GoodDocuments(cfg, batch) && doc in batch && c in RawChunks(cfg, doc) && IdOf(ChunkFields(c)) !in s
    ensures doc.meta.documentId in Changed(HashAll(AllRaw(cfg, batch)), s, ChunkedDocuments(cfg, batch))
  {
    var raw, cs := AllRaw(cfg, batch), HashAll(AllRaw(cfg, batch));
    AllRawMembers(cfg, batch);
    RawChunkOf(cfg, doc, c);
    assert c in raw;
    var i :| 0 <= i < |raw| && raw[i] == c;
    HashedChunk(cfg, batch, cs, i);
    assert cs[i] in cs && cs[i].meta.documentId == doc.meta.documentId && IsFresh(cs[i], s);
    assert IsChanged(cs, s, doc.meta.documentId);
  }

  /** Under the document something else is stored. */
  lemma StaleIsChanged(s: Store, cfg: Config, batch: seq<Document>, doc: Document, id: Id)
    requires GoodDocuments(cfg, batch) && Distinct(batch) && doc in batch && RawChunks(cfg, doc) != []
    requires id in s && s[id].documentId == doc.meta.documentId && id !in LiveIds(cfg, [doc])
    ensures doc.meta.documentId in Changed(HashAll(AllRaw(cfg, batch)), s, ChunkedDocuments(cfg, batch))
  {
    var cs := HashAll(AllRaw(cfg, batch));
    HashedLive(cfg, batch, cs, doc.meta.documentId, id);
    AllRawMembers(cfg, batch);
    OwnIds(cfg, doc);
    forall c | c in AllRaw(cfg, batch) && c.meta.documentId == doc.meta.documentId ensures IdOf(ChunkFields(c)) in LiveIds(cfg, [doc]) {
      var e :| e in batch && c in RawChunks(cfg, e);
      RawChunkOf(cfg, e, c);
      assert e == doc;
    }
    assert IsOrphan(cs, s, id);
    assert IsChanged(cs, s, doc.meta.documentId);
  }

  /** A document that the run's store does not hold as it is, is found changed by its batch, unless
      the run has gone over it before. */
  lemma NewIsChanged(s0: Store, s: Store, cfg: Config, all: seq<Document>, done: seq<Document>, batch: seq<Document>, doc: Document, embed: string -> Vector)
    requires WellFormed(s0, embed) && WellFormed(s, embed) && s0.Keys <= s.Keys && GoodDocuments(cfg, all) && Distinct(all)
    requires (forall d :: d in done ==> d in all) && (forall d :: d in batch ==> d in all) && doc in batch && doc !in done
    requires forall id :: id in s ==> id in s0 || id in LiveIds(cfg, done) || IsSummaryId(id)
    requires IsNew(s0, cfg, doc)
    ensures doc.meta.documentId in Changed(HashAll(AllRaw(cfg, batch)), s, ChunkedDocuments(cfg, batch))
  {
    OwnIds(cfg, doc);
    if id :| id in LiveIds(cfg, [doc]) && id !in s0 {
      var c :| c in RawChunks(cfg, doc) && IdOf(ChunkFields(c)) == id;
      if id in s { StoredSince(s0, s, cfg, all, done, doc, c, embed); }
      FreshIsChanged(s, cfg, batch, doc, c);
    } else {
      var id :| id in s0 && s0[id].documentId in ChunkedDocuments(cfg, [doc]) && id !in LiveIds(cfg, [doc]);
      SoundEntriesAgree(id, s0[id], s[id], embed);
      StaleIsChanged(s, cfg, batch, doc, id);
    }
  }

  /** Every changed document with pieces enough has a summary. */
  lemma NewToldStep(s0: Store, s: Store, t: Store, services: Services, cfg: Config, all: seq<Document>, done: seq<Document>, batch: seq<Document>,
                    changed: set<string>, summaries: map<string, string>, final: seq<Chunk>, more: set<string>, made: map<string, string>)
    requires WellFormed(s0, services.embed) && WellFormed(s, services.embed) && s0.Keys <= s.Keys && GoodDocuments(cfg, all) && Distinct(all)
    requires (forall d :: d in done ==> d in all) && (forall d :: d in batch ==> d in all)
    requires forall id :: id in s ==> id in s0 || id in LiveIds(cfg, done) || IsSummaryId(id)
    requires NewTold(s0, cfg, done, changed, summaries) && BatchTold(s, t, services, cfg, batch, final, more, made)
    ensures NewTold(s0, cfg, done + batch, changed + more, summaries + made)
  {
    forall doc | doc in done + batch && IsNew(s0, cfg, doc) ensures Noticed(cfg, doc, changed + more, summaries + made) {
      if doc in done {
        assert Noticed(cfg, doc, changed, summaries);
      } else {
        NewIsChanged(s0, s, cfg, all, done, batch, doc, services.embed);
        PiecesThere(cfg, batch, doc);
      }
    }
  }

  // ----- the summaries

  /** The summary is stored as it was recorded, made from what some batch held of the document. */
  ghost predicate SummaryTold(s: Store, services: Services, cfg: Config, done: seq<Document>, d: string, text: string) {
    exists part :: IsPart(part, done) && KeepsSummary(s, services, cfg, part, d, PieceTexts(cfg, part, d), text)
  }

  /** Some documents in a row. */
  ghost predicate IsPart(part: seq<Document>, docs: seq<Document>) { exists lo: nat, hi: nat :: lo <= hi <= |docs| && part == docs[lo..hi] }

  ghost predicate SummariesTold(s: Store, services: Services, cfg: Config, done: seq<Document>, summaries: map<string, string>) {
    (forall d :: d in summaries ==> SummaryTold(s, services, cfg, done, d, summaries[d])) && (cfg.summarize || summaries == map[])
  }

  lemma PartOfMore(part: seq<Document>, done: seq<Document>, batch: seq<Document>)
    ensures IsPart(part, done) ==> IsPart(part, done + batch)
    ensures part == batch ==> IsPart(part, done + batch)
  {
    if IsPart(part, done) {
      var lo: nat, hi: nat :| lo <= hi <= |done| && part == done[lo..hi];
      assert part == (done + batch)[lo..hi];
    }
    if part == batch { assert part == (done + batch)[|done|..|done + batch|]; }
  }

  /** An entry that stays as it was keeps the summary. */
  lemma SummaryStays(s: Store, t: Store, services: Services, cfg: Config, done: seq<Document>, more: seq<Document>, d: string, text: string)
    requires SummaryTold(s, services, cfg, done, d, text)
    requires Named(d + "-summary", 0) in s ==> Named(d + "-summary", 0) in t && t[Named(d + "-summary", 0)] == s[Named(d + "-summary", 0)]
    ensures SummaryTold(t, services, cfg, done + more, d, text)
  {
    var part :| IsPart(part, done) && KeepsSummary(s, services, cfg, part, d, PieceTexts(cfg, part, d), text);
    PartOfMore(part, done, more);
    assert KeepsSummary(t, services, cfg, part, d, PieceTexts(cfg, part, d), text);
  }

  lemma SummariesToldStep(s: Store, t: Store, services: Services, cfg: Config, done: seq<Document>, batch: seq<Document>,
                          summaries: map<string, string>, final: seq<Chunk>, more: set<string>, made: map<string, string>)
    requires GoodDocuments(cfg, batch)
    requires SummariesTold(s, services, cfg, done, summaries) && BatchTold(s, t, services, cfg, batch, final, more, made)
    ensures SummariesTold(t, services, cfg, done + batch, summaries + made)
  {
    forall d | d in summaries + made ensures SummaryTold(t, services, cfg, done + batch, d, (summaries + made)[d]) {
      if d in made {
        PartOfMore(batch, done, batch);
        assert KeepsSummary(t, services, cfg, batch, d, PieceTexts(cfg, batch, d), made[d]);
      } else {
        NotWritten(cfg, batch, made.Keys, d);
        SummaryStays(s, t, services, cfg, done, batch, d, summaries[d]);
      }
    }
  }

  lemma NotWritten(cfg: Config, batch: seq<Document>, made: set<string>, d: string)
    requires d !in made
    ensures Named(d + "-summary", 0) !in LiveIds(cfg, batch) + SummaryIds(made)
  {
    forall e | e in made ensures Named(e + "-summary", 0) != Named(d + "-summary", 0) {
      if e + "-summary" == d + "-summary" { SameFront(e, d); }
    }
  }

  // ----- the summaries given up

  /** To be swept are entries under chunked documents, and summaries of documents with few pieces. */
  ghost predicate StaleTold(s: Store, cfg: Config, done: seq<Document>, orphans: set<Id>) {
    forall id :: id in orphans ==> (id in s && s[id].documentId in ChunkedDocuments(cfg, done)) || IsShortSummary(cfg, done, id)
  }

  lemma ShortStays(cfg: Config, docs: seq<Document>, more: seq<Document>, id: Id)
    requires IsShortSummary(cfg, docs, id) && forall d :: d in docs ==> d in more
    ensures IsShortSummary(cfg, more, id)
  {
    var doc :| doc in docs && IsSummaryIdOf(id, doc) && |SplitText(cfg, doc)| < cfg.chunkThreshold;
    assert doc in more;
  }

  lemma StaleToldStep(s: Store, t: Store, cfg: Config, done: seq<Document>, batch: seq<Document>, orphans: set<Id>, more: set<Id>, embed: string -> Vector)
    requires WellFormed(s, embed) && WellFormed(t, embed) && s.Keys <= t.Keys && StaleTold(s, cfg, done, orphans)
    requires OnlyShortStale(cfg, batch, StaleIds(s, ChunkedDocuments(cfg, batch), LiveIds(cfg, batch)), more)
    ensures StaleTold(t, cfg, done + batch, orphans + more)
  {
    forall id | id in orphans + more
      ensures (id in t && t[id].documentId in ChunkedDocuments(cfg, done + batch)) || IsShortSummary(cfg, done + batch, id)
    {
      if id in s {
        SoundEntriesAgree(id, s[id], t[id], embed);
        assert forall d :: d in done || d in batch ==> d in done + batch;
      }
      if IsShortSummary(cfg, done, id) { ShortStays(cfg, done, done + batch, id); }
      if IsShortSummary(cfg, batch, id) { ShortStays(cfg, batch, done + batch, id); }
    }
  }

  // ----- all of it

  ghost predicate Recorded(s0: Store, s: Store, services: Services, cfg: Config, done: seq<Document>, r: Record) {
    && RawTold(cfg, done, r.raw) && NewTold(s0, cfg, done, r.changed, r.summaries)
    && SummariesTold(s, services, cfg, done, r.summaries) && StaleTold(s, cfg, done, r.orphans)
  }

  lemma NothingRecorded(s0: Store, s: Store, services: Services, cfg: Config)
    ensures Recorded(s0, s, services, cfg, [], Record(map[], {}, map[], {}))
  {
    assert ChunkedDocuments(cfg, []) == {};
  }
}
