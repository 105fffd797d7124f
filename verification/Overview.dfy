/** The whole-corpus overview, written inline when the embedder and the store allow it. */
module Overview {
  import opened Wrappers
  import opened Corpus
  import opened Ports
  import opened MapReduce
  import opened IngestContext
  import opened Enrichment

  ghost predicate OverviewStored(s: Store) {
    exists id :: id in s && s[id].documentId == BOK_DOCUMENT_ID
  }

  method BokExists(ports: Ports) returns (r: bool)
    modifies ports`faults
    ensures r ==> OverviewStored(ports.entries)
    ensures NoFaults(old(ports.faults)) ==> NoFaults(ports.faults) && (r <==> OverviewStored(ports.entries))
  {
    var s := ports.Read();
    r := s.Some? && (exists id :: id in s.value && s.value[id].documentId == BOK_DOCUMENT_ID);
  }

  /** The root of the ingest: the first depth-0 entry that names a space, else the first that does. */
  function FirstSpace(metas: seq<Meta>, atRoot: bool): string {
    if metas == [] then ""
    else if metas[0].space != "" && (!atRoot || metas[0].depth == 0) then metas[0].space
    else FirstSpace(metas[1..], atRoot)
  }

  function RootSpace(documents: seq<Document>, chunks: seq<Chunk>): string {
    var metas := seq(|documents|, i requires 0 <= i < |documents| => documents[i].meta)
               + seq(|chunks|, i requires 0 <= i < |chunks| => chunks[i].meta);
    var root := FirstSpace(metas, true);
    if root != "" then root else FirstSpace(metas, false)
  }

  /** The first entry that names a space, at depth 0 if that is asked for. */
  ghost predicate NamesFirst(metas: seq<Meta>, atRoot: bool, i: nat) {
    && i < |metas| && metas[i].space != "" && (atRoot ==> metas[i].depth == 0)
    && forall k :: 0 <= k < i ==> metas[k].space == "" || (atRoot && metas[k].depth != 0)
  }

  lemma {:induction false} FirstSpaceMeans(metas: seq<Meta>, atRoot: bool)
    ensures FirstSpace(metas, atRoot) == "" <==> forall k :: 0 <= k < |metas| ==> metas[k].space == "" || (atRoot && metas[k].depth != 0)
    ensures forall i: nat :: NamesFirst(metas, atRoot, i) ==> FirstSpace(metas, atRoot) == metas[i].space
  {
    if metas != [] {
      FirstSpaceMeans(metas[1..], atRoot);
      forall i: nat | NamesFirst(metas, atRoot, i) && i > 0 ensures FirstSpace(metas, atRoot) == metas[i].space {
        assert forall k :: 0 <= k < i - 1 ==> metas[1..][k] == metas[k + 1];
        assert NamesFirst(metas[1..], atRoot, i - 1);
      }
      assert forall k :: 0 < k < |metas| ==> metas[k] == metas[1..][k - 1];
    }
  }

  /** What the documents and then the chunks say about themselves. */
  function MetasOf(documents: seq<Document>, chunks: seq<Chunk>): seq<Meta> {
    seq(|documents|, i requires 0 <= i < |documents| => documents[i].meta)
    + seq(|chunks|, i requires 0 <= i < |chunks| => chunks[i].meta)
  }

  /** The overview sits at the space of the first document, or chunk after those, that is at depth 0
      of one; with none at depth 0, at the first one's that is in a space; and nowhere without. */
  lemma RootMeans(documents: seq<Document>, chunks: seq<Chunk>, i: nat)
    ensures var metas, root := MetasOf(documents, chunks), RootSpace(documents, chunks);
      && (NamesFirst(metas, true, i) ==> root == metas[i].space)
      && (NamesFirst(metas, false, i) && (forall k :: 0 <= k < |metas| ==> metas[k].space == "" || metas[k].depth != 0) ==> root == metas[i].space)
      && (root == "" <==> forall k :: 0 <= k < |metas| ==> metas[k].space == "")
  {
    FirstSpaceMeans(MetasOf(documents, chunks), true);
    FirstSpaceMeans(MetasOf(documents, chunks), false);
  }

  function OverviewChunk(text: string, root: string): Chunk {
    Chunk(text, Meta(BOK_DOCUMENT_ID, "generated", "bodyOfKnowledgeSummary", "Body of Knowledge Overview",
                     Some(SUMMARY_LABEL), root, "", "", 0), 0, None, None)
  }

  lemma OverviewIsSummary(text: string, root: string)
    ensures IsSummary(OverviewChunk(text, root))
    ensures StorageId(OverviewChunk(text, root)) == BOK_ID
  {
    assert BOK_DOCUMENT_ID[|BOK_DOCUMENT_ID| - |SUMMARY_SUFFIX|..] == SUMMARY_SUFFIX;
  }

  predicate IsDocument(documents: seq<Document>, d: string) {
    exists i :: 0 <= i < |documents| && documents[i].meta.documentId == d
  }

  ghost predicate HasTexts(raw: map<string, seq<string>>, documents: seq<Document>) {
    exists d :: d in raw && IsDocument(documents, d)
  }

  /** The documents that have texts, in order of first mention. */
  function Mentioned(documents: seq<Document>, having: set<string>): (r: seq<string>)
    ensures NoDuplicates(r) && forall d :: d in r ==> d in having
  {
    if documents == [] then []
    else
      var before, d := Mentioned(documents[..|documents| - 1], having), documents[|documents| - 1].meta.documentId;
      if d in having && d !in before then before + [d] else before
  }

  /** The document of the first mention of each comes before the later ones'. */
  lemma {:induction false} MentionedInOrder(documents: seq<Document>, having: set<string>, i: nat, j: nat, m: nat)
    requires i < j < |Mentioned(documents, having)| && m < |documents|
    requires documents[m].meta.documentId == Mentioned(documents, having)[j]
    ensures exists k :: 0 <= k < m && documents[k].meta.documentId == Mentioned(documents, having)[i]
  {
    var n := |documents| - 1;
    var before := Mentioned(documents[..n], having);
    MentionedCovers(documents[..n], having);
    assert m < n ==> documents[..n][m] == documents[m] && documents[m].meta.documentId in before;
    if j < |before| && m < n {
      MentionedInOrder(documents[..n], having, i, j, m);
      var k :| 0 <= k < m && documents[..n][k].meta.documentId == before[i];
      assert documents[k] == documents[..n][k];
    } else {
      assert m == n;
      var k :| 0 <= k < n && documents[..n][k].meta.documentId == before[i];
      assert documents[k] == documents[..n][k];
    }
  }

  lemma {:induction false} MentionedCovers(documents: seq<Document>, having: set<string>)
    ensures forall i :: 0 <= i < |Mentioned(documents, having)| ==>
              exists k :: 0 <= k < |documents| && documents[k].meta.documentId == Mentioned(documents, having)[i]
    ensures forall k :: 0 <= k < |documents| && documents[k].meta.documentId in having ==>
              documents[k].meta.documentId in Mentioned(documents, having)
  {
    if documents == [] {
      assert Mentioned(documents, having) == [];
    } else {
      var n := |documents| - 1;
      var now, before := Mentioned(documents, having), Mentioned(documents[..n], having);
      MentionedCovers(documents[..n], having);
      forall i | 0 <= i < |now| ensures exists k :: 0 <= k < |documents| && documents[k].meta.documentId == now[i] {
        if i < |before| {
          var k :| 0 <= k < n && documents[..n][k].meta.documentId == before[i];
          assert documents[k] == documents[..n][k];
        } else {
          assert documents[n].meta.documentId == now[i];
        }
      }
      forall k | 0 <= k < |documents| && documents[k].meta.documentId in having ensures documents[k].meta.documentId in now {
        assert k < n ==> documents[..n][k] == documents[k] && documents[k].meta.documentId in before;
      }
    }
  }

  /** What a one-pass run reads off its chunks: the documents in order of appearance, and the
      texts of each; summaries aside. */
  function OwnTexts(cs: seq<Chunk>): (seq<string>, map<string, seq<string>>) {
    if cs == [] then ([], map[])
    else
      var n := |cs| - 1;
      var (seen, texts) := OwnTexts(cs[..n]);
      var d := cs[n].meta.documentId;
      if cs[n].meta.embeddingType == Some(SUMMARY_LABEL) then (seen, texts)
      else (if d in seen then seen else seen + [d], texts[d := (if d in texts then texts[d] else []) + [cs[n].content]])
  }

  /** The texts of one document's chunks in order, summaries aside. */
  function TextsUnder(cs: seq<Chunk>, d: string): seq<string> {
    if cs == [] then []
    else
      var c := cs[|cs| - 1];
      TextsUnder(cs[..|cs| - 1], d) + if c.meta.embeddingType != Some(SUMMARY_LABEL) && c.meta.documentId == d then [c.content] else []
  }

  /** Each document is there once, and exactly those with a chunk that is no summary. */
  lemma {:induction false} OwnTextsCover(cs: seq<Chunk>)
    ensures var (seen, texts) := OwnTexts(cs);
      && NoDuplicates(seen) && (forall d :: d in seen <==> d in texts)
      && forall d :: d in texts <==> exists c :: c in cs && c.meta.embeddingType != Some(SUMMARY_LABEL) && c.meta.documentId == d
  {
    if cs != [] {
      var n := |cs| - 1;
      OwnTextsCover(cs[..n]);
      assert cs == cs[..n] + [cs[n]];
    }
  }

  /** Under each document are the texts of all its chunks that are no summary. */
  lemma {:induction false} OwnTextsAre(cs: seq<Chunk>, d: string)
    ensures TextsUnder(cs, d) == if d in OwnTexts(cs).1 then OwnTexts(cs).1[d] else []
  {
    if cs != [] { OwnTextsAre(cs[..|cs| - 1], d); }
  }

  /** The documents with texts, in ingest order, and their texts; a one-pass run reads both off its chunks. */
  function SeenIn(documents: seq<Document>, chunks: seq<Chunk>, raw: map<string, seq<string>>): (seq<string>, map<string, seq<string>>) {
    if raw != map[] then (Mentioned(documents, raw.Keys), raw) else OwnTexts(chunks)
  }

  /** The documents with raw text, in ingest order; a one-pass run reads them off its chunks. */
  method SeenDocuments(ctx: Context) returns (seen: seq<string>, byDoc: map<string, seq<string>>)
    ensures forall d :: d in seen ==> d in byDoc
    ensures (seen, byDoc) == SeenIn(ctx.documents, ctx.chunks, ctx.rawChunksByDoc)
    ensures ctx.rawChunksByDoc != map[] ==> byDoc == ctx.rawChunksByDoc && seen == Mentioned(ctx.documents, byDoc.Keys)
    ensures ctx.rawChunksByDoc != map[] ==> forall d :: d in seen <==> d in ctx.rawChunksByDoc && IsDocument(ctx.documents, d)
    ensures ctx.rawChunksByDoc == map[] ==> (seen, byDoc) == OwnTexts(ctx.chunks)
    ensures ctx.rawChunksByDoc == map[] && ctx.chunks == [] ==> seen == []
  {
    seen, byDoc := [], ctx.rawChunksByDoc;
    if byDoc != map[] {
      for i := 0 to |ctx.documents|
        invariant forall d :: d in seen <==> d in byDoc && IsDocument(ctx.documents[..i], d)
        invariant seen == Mentioned(ctx.documents[..i], byDoc.Keys)
      {
        var d := ctx.documents[i].meta.documentId;
        assert ctx.documents[..i + 1][..i] == ctx.documents[..i];
        DocumentStep(ctx.documents, i);
        if d in byDoc && d !in seen { seen := seen + [d]; }
      }
      TakeAll(ctx.documents);
    } else {
      for i := 0 to |ctx.chunks|
        invariant forall d :: d in seen ==> d in byDoc
        invariant (seen, byDoc) == OwnTexts(ctx.chunks[..i])
      {
        assert ctx.chunks[..i + 1][..i] == ctx.chunks[..i];
        var c := ctx.chunks[i];
        var d := c.meta.documentId;
        if c.meta.embeddingType != Some(SUMMARY_LABEL) {
          if d !in seen { seen := seen + [d]; }
          byDoc := byDoc[d := (if d in byDoc then byDoc[d] else []) + [c.content]];
        }
      }
      TakeAll(ctx.chunks);
    }
  }

  lemma DocumentStep(documents: seq<Document>, i: nat)
    requires i < |documents|
    ensures forall d :: IsDocument(documents[..i + 1], d) <==> IsDocument(documents[..i], d) || d == documents[i].meta.documentId
  {
    forall d ensures IsDocument(documents[..i + 1], d) <==> IsDocument(documents[..i], d) || d == documents[i].meta.documentId {
      if IsDocument(documents[..i], d) {
        var j :| 0 <= j < i && documents[..i][j].meta.documentId == d;
        assert documents[..i + 1][j].meta.documentId == d;
      }
      if d == documents[i].meta.documentId { assert documents[..i + 1][i].meta.documentId == d; }
      if IsDocument(documents[..i + 1], d) {
        var j :| 0 <= j < i + 1 && documents[..i + 1][j].meta.documentId == d;
        assert j < i ==> documents[..i][j].meta.documentId == d;
      }
    }
  }

  function JoinLines(lines: seq<string>): string {
    if lines == [] then "" else if |lines| == 1 then lines[0] else lines[0] + "\n" + JoinLines(lines[1..])
  }

  /** The lines, each but the last followed by a line break. */
  lemma {:induction false} JoinLinesAppend(a: seq<string>, b: seq<string>)
    requires a != [] && b != []
    ensures JoinLines(a + b) == JoinLines(a) + "\n" + JoinLines(b)
    ensures |a| == 1 ==> JoinLines(a) == a[0]
  {
    if |a| == 1 {
      assert (a + b)[1..] == b;
    } else {
      assert (a + b)[1..] == a[1..] + b;
      JoinLinesAppend(a[1..], b);
      assert a[0] + "\n" + (JoinLines(a[1..]) + "\n" + JoinLines(b)) == a[0] + "\n" + JoinLines(a[1..]) + "\n" + JoinLines(b);
    }
  }

  /** A document's section: its summary if this run made one, else its passages' text. */
  function PlainSections(seen: seq<string>, byDoc: map<string, seq<string>>, summaries: map<string, string>): (r: seq<string>)
    requires forall d :: d in seen ==> d in byDoc
    ensures |r| == |seen|
  {
    seq(|seen|, k requires 0 <= k < |seen| =>
      assert seen[k] in seen;
      if seen[k] in summaries then summaries[seen[k]] else JoinLines(byDoc[seen[k]]))
  }

  function SectionLimit(cfg: Config): nat { if cfg.maxSectionChars < MIN_SECTION_CHARS then MIN_SECTION_CHARS else cfg.maxSectionChars }

  /** No section limit below 1000 is taken. */
  lemma SectionLimitMeans(cfg: Config)
    ensures SectionLimit(cfg) >= 1000 && SectionLimit(cfg) >= cfg.maxSectionChars && SectionLimit(cfg) in {1000, cfg.maxSectionChars}
  {}

  /** The sections as they are, or fewer of them, greedily joined within the limit. */
  ghost predicate AreSections(sections: seq<string>, plain: seq<string>, limit: nat) {
    || sections == plain
    || (exists groups ::
          && Concat(groups) == plain && Packed(groups, limit) && |groups| < |plain| && |sections| == |groups|
          && forall i :: 0 <= i < |groups| ==> sections[i] == JoinAll(groups[i]))
  }

  /** One section a document, grouped when that makes fewer of them. */
  method Sections(cfg: Config, seen: seq<string>, byDoc: map<string, seq<string>>, summaries: map<string, string>)
    returns (sections: seq<string>)
    requires seen != [] && forall d :: d in seen ==> d in byDoc
    ensures sections != [] && AreSections(sections, PlainSections(seen, byDoc, summaries), SectionLimit(cfg))
  {
    sections := [];
    for k := 0 to |seen|
      invariant sections == PlainSections(seen, byDoc, summaries)[..k]
    {
      var d := seen[k];
      assert d in seen;
      TakeStep(PlainSections(seen, byDoc, summaries), k);
      sections := sections + [if d in summaries then summaries[d] else JoinLines(byDoc[d])];
    }
    TakeAll(PlainSections(seen, byDoc, summaries));
    if |sections| > 1 {
      var groups := GroupSections(sections, SectionLimit(cfg));
      if |groups| < |sections| {
        NonEmptyGroups(groups, sections);
        sections := seq(|groups|, i requires 0 <= i < |groups| => JoinAll(groups[i]));
      }
    }
  }

  lemma NonEmptyGroups(groups: seq<seq<string>>, sections: seq<string>)
    requires Concat(groups) == sections && sections != []
    ensures groups != []
  {}

  /** Nothing has changed but that the chunk may have been stored. */
  predicate IsRewritten(before: Store, after: Store, c: Chunk) {
    after == before || (c.embedding.Some? && after == before[BOK_ID := EntryOf(c)])
  }

  lemma PutOverview(s: Store, c: Chunk, embed: string -> Vector)
    requires WellFormed(s, embed) && IsSummary(c) && StorageId(c) == BOK_ID && HasSoundVector(c, embed) && c.embedding.Some?
    ensures WellFormed(s[BOK_ID := EntryOf(c)], embed) && s + map[BOK_ID := EntryOf(c)] == s[BOK_ID := EntryOf(c)]
  {
    ReadyIsSound(c, embed);
  }

  /** Embeds and stores the overview at once; returns it as still to be stored otherwise. */
  method StoreInline(ports: Ports, chunk: Chunk) returns (stored: bool, left: Chunk)
    requires IsSummary(chunk) && chunk.embedding == None && StorageId(chunk) == BOK_ID
    requires WellFormed(ports.entries, ports.services.embed)
    modifies ports`faults, ports`embedCalls, ports`entries, ports`writeCalls
    ensures WellFormed(ports.entries, ports.services.embed)
    ensures old(ports.entries).Keys <= ports.entries.Keys <= old(ports.entries).Keys + {BOK_ID}
    ensures left == chunk || left == chunk.(embedding := Some(ports.services.embed(chunk.content)))
    ensures IsRewritten(old(ports.entries), ports.entries, left)
    ensures stored ==> left.embedding.Some? && ports.entries == old(ports.entries)[BOK_ID := EntryOf(left)]
    ensures IsSummary(left) && StorageId(left) == BOK_ID && HasSoundVector(left, ports.services.embed)
    ensures NoFaults(old(ports.faults)) ==> NoFaults(ports.faults)
  {
    stored, left := false, chunk;
    var vectors := ports.Embed([chunk.content]);
    if vectors.Some? && vectors.value != [] {
      left := chunk.(embedding := Some(vectors.value[0]));
      PutOverview(ports.entries, left, ports.services.embed);
      stored := ports.Upsert(map[BOK_ID := EntryOf(left)]);
    }
  }

  /** An overview chunk, with or without its vector, map-reduced from the sections of the
      documents and placed at the root of the ingest. */
  ghost predicate IsOverviewChunk(c: Chunk, services: Services, cfg: Config, sections: seq<string>, root: string) {
    && c.meta == Meta("body-of-knowledge-summary", "generated", "bodyOfKnowledgeSummary", "Body of Knowledge Overview",
                      Some("summary"), root, "", "", 0)
    && c.index == 0 && c.hash == None && HasSoundVector(c, services.embed)
    && IsMapReduced(services, sections, OverviewMap, OverviewReduce, cfg.summaryLength, REDUCE_FANIN, c.content)
  }

  /** An overview made of one section for each document listed. */
  ghost predicate TellsOf(c: Chunk, services: Services, cfg: Config, seen: seq<string>, byDoc: map<string, seq<string>>,
                          summaries: map<string, string>, root: string)
  {
    && seen != [] && (forall d :: d in seen ==> d in byDoc)
    && exists sections :: AreSections(sections, PlainSections(seen, byDoc, summaries), SectionLimit(cfg))
                          && IsOverviewChunk(c, services, cfg, sections, root)
  }

  /** The overview of everything that has texts. */
  ghost predicate IsOverviewOf(c: Chunk, services: Services, cfg: Config, documents: seq<Document>, chunks: seq<Chunk>,
                               raw: map<string, seq<string>>, summaries: map<string, string>)
  {
    TellsOf(c, services, cfg, SeenIn(documents, chunks, raw).0, SeenIn(documents, chunks, raw).1, summaries, RootSpace(documents, chunks))
  }

  /** What came of the overview: none was made and nothing has changed, or it is stored, or it is
      left behind the chunks to be stored later. */
  predicate IsPlaced(made: Option<Chunk>, before: Store, after: Store, chunks: seq<Chunk>, now: seq<Chunk>) {
    if made.None? then after == before && now == chunks
    else if now == chunks then made.value.embedding.Some? && after == before[BOK_ID := EntryOf(made.value)]
    else now == chunks + [made.value] && IsRewritten(before, after, made.value)
  }

  /** Generates the overview and tries to store it. */
  method Describe(ctx: Context, ports: Ports, cfg: Config, seen: seq<string>, byDoc: map<string, seq<string>>)
    returns (stored: bool, left: Chunk)
    requires WellFormed(ports.entries, ports.services.embed)
    requires seen != [] && forall d :: d in seen ==> d in byDoc
    modifies ports`faults, ports`embedCalls, ports`llmCalls, ports`entries, ports`writeCalls
    ensures WellFormed(ports.entries, ports.services.embed)
    ensures old(ports.entries).Keys <= ports.entries.Keys <= old(ports.entries).Keys + {BOK_ID}
    ensures stored ==> OverviewStored(ports.entries)
    ensures stored ==> left.embedding.Some? && ports.entries == old(ports.entries)[BOK_ID := EntryOf(left)]
    ensures IsSummary(left) && StorageId(left) == BOK_ID && HasSoundVector(left, ports.services.embed)
    ensures IsRewritten(old(ports.entries), ports.entries, left)
    ensures TellsOf(left, ports.services, cfg, seen, byDoc, ctx.documentSummaries, RootSpace(ctx.documents, ctx.chunks))
    ensures NoFaults(old(ports.faults)) ==> NoFaults(ports.faults)
  {
    var sections := Sections(cfg, seen, byDoc, ctx.documentSummaries);
    var text;
    ghost var answers;
    text, answers := MapReduceSummarize(ports, sections, OverviewMap, OverviewReduce, cfg.summaryLength, REDUCE_FANIN);
    assert IsMapReduced(ports.services, sections, OverviewMap, OverviewReduce, cfg.summaryLength, REDUCE_FANIN, text.value);
    var root := RootSpace(ctx.documents, ctx.chunks);
    OverviewIsSummary(text.value, root);
    stored, left := StoreInline(ports, OverviewChunk(text.value, root));
    assert stored ==> ports.entries[BOK_ID].documentId == BOK_DOCUMENT_ID;
  }

  /** The step once it is known to be needed. */
  method DescribeSeen(ctx: Context, ports: Ports, cfg: Config) returns (ghost made: Option<Chunk>)
    requires WellFormed(ports.entries, ports.services.embed)
    modifies ctx`chunks, ctx`orphanIds
    modifies ports`faults, ports`embedCalls, ports`llmCalls, ports`entries, ports`writeCalls
    ensures WellFormed(ports.entries, ports.services.embed)
    ensures IsPlaced(made, old(ports.entries), ports.entries, old(ctx.chunks), ctx.chunks)
    ensures if made.None? then SeenIn(ctx.documents, old(ctx.chunks), ctx.rawChunksByDoc).0 == []
            else IsOverviewOf(made.value, ports.services, cfg, ctx.documents, old(ctx.chunks), ctx.rawChunksByDoc, ctx.documentSummaries)
    ensures old(ports.entries).Keys <= ports.entries.Keys <= old(ports.entries).Keys + {BOK_ID}
    ensures ctx.chunks == old(ctx.chunks)
         || (|ctx.chunks| == |old(ctx.chunks)| + 1 && ctx.chunks[..|old(ctx.chunks)|] == old(ctx.chunks)
             && var left := ctx.chunks[|old(ctx.chunks)|];
                IsSummary(left) && StorageId(left) == BOK_ID && HasSoundVector(left, ports.services.embed))
    ensures ctx.orphanIds == old(ctx.orphanIds)
         || (ctx.orphanIds == old(ctx.orphanIds) + {BOK_ID} && ctx.removedDocumentIds != {})
    // an overview is there, unless there is nothing to describe
    ensures HasTexts(ctx.rawChunksByDoc, ctx.documents) ==>
              || OverviewStored(ports.entries)
              || (ctx.chunks != old(ctx.chunks) && ctx.orphanIds == old(ctx.orphanIds))
    ensures HasTexts(ctx.rawChunksByDoc, ctx.documents) ==> ctx.orphanIds == old(ctx.orphanIds)
    // an emptied corpus gives its overview up
    ensures ctx.rawChunksByDoc == map[] && old(ctx.chunks) == [] && ctx.removedDocumentIds != {} ==>
              ctx.orphanIds == old(ctx.orphanIds) + {BOK_ID} && ctx.chunks == []
    // nothing ingested and nothing removed: nothing to do
    ensures ctx.rawChunksByDoc == map[] && old(ctx.chunks) == [] && ctx.removedDocumentIds == {} ==>
              && ctx.chunks == old(ctx.chunks) && ctx.orphanIds == old(ctx.orphanIds)
              && ports.entries == old(ports.entries) && ports.writeCalls == old(ports.writeCalls)
              && ports.llmCalls == old(ports.llmCalls) && ports.embedCalls == old(ports.embedCalls)
    ensures NoFaults(old(ports.faults)) ==> NoFaults(ports.faults)
  {
    var seen, byDoc := SeenDocuments(ctx);
    made := None;
    if seen == [] {
      if ctx.removedDocumentIds != {} { ctx.orphanIds := ctx.orphanIds + {BOK_ID}; }
      return;
    }
    var stored, left;
    stored, left := Describe(ctx, ports, cfg, seen, byDoc);
    made := Some(left);
    if !stored { ctx.chunks := ctx.chunks + [left]; }
  }

  method BodyOfKnowledge(ctx: Context, ports: Ports, cfg: Config) returns (ghost made: Option<Chunk>)
    requires WellFormed(ports.entries, ports.services.embed)
    modifies ctx`chunks, ctx`orphanIds
    modifies ports`faults, ports`embedCalls, ports`llmCalls, ports`entries, ports`writeCalls
    ensures WellFormed(ports.entries, ports.services.embed)
    ensures IsPlaced(made, old(ports.entries), ports.entries, old(ctx.chunks), ctx.chunks)
    // none is made only when there is nothing to describe, or nothing has changed and there is one
    ensures if made.None?
            then SeenIn(ctx.documents, old(ctx.chunks), ctx.rawChunksByDoc).0 == []
              || (ctx.changeDetectionRan && ctx.changedDocumentIds == {} && ctx.removedDocumentIds == {} && OverviewStored(old(ports.entries)))
            else IsOverviewOf(made.value, ports.services, cfg, ctx.documents, old(ctx.chunks), ctx.rawChunksByDoc, ctx.documentSummaries)
    ensures old(ports.entries).Keys <= ports.entries.Keys <= old(ports.entries).Keys + {BOK_ID}
    ensures ctx.chunks == old(ctx.chunks)
         || (|ctx.chunks| == |old(ctx.chunks)| + 1 && ctx.chunks[..|old(ctx.chunks)|] == old(ctx.chunks)
             && var left := ctx.chunks[|old(ctx.chunks)|];
                IsSummary(left) && StorageId(left) == BOK_ID && HasSoundVector(left, ports.services.embed))
    ensures ctx.orphanIds == old(ctx.orphanIds)
         || (ctx.orphanIds == old(ctx.orphanIds) + {BOK_ID} && ctx.removedDocumentIds != {})
    // an overview is there, unless there is nothing to describe
    ensures HasTexts(ctx.rawChunksByDoc, ctx.documents) ==>
              || OverviewStored(ports.entries)
              || (ctx.chunks != old(ctx.chunks) && ctx.orphanIds == old(ctx.orphanIds))
    ensures HasTexts(ctx.rawChunksByDoc, ctx.documents) ==> ctx.orphanIds == old(ctx.orphanIds)
    // an emptied corpus gives its overview up
    ensures ctx.rawChunksByDoc == map[] && old(ctx.chunks) == [] && ctx.removedDocumentIds != {} ==>
              ctx.orphanIds == old(ctx.orphanIds) + {BOK_ID} && ctx.chunks == []
    // nothing changed and an overview stored, or nothing ingested and nothing removed: nothing to do
    ensures NoFaults(old(ports.faults)) && ctx.removedDocumentIds == {}
            && ((ctx.changeDetectionRan && ctx.changedDocumentIds == {} && OverviewStored(old(ports.entries)))
                || (ctx.rawChunksByDoc == map[] && old(ctx.chunks) == [])) ==>
              && ctx.chunks == old(ctx.chunks) && ctx.orphanIds == old(ctx.orphanIds)
              && ports.entries == old(ports.entries) && ports.writeCalls == old(ports.writeCalls)
              && ports.llmCalls == old(ports.llmCalls) && ports.embedCalls == old(ports.embedCalls)
    ensures NoFaults(old(ports.faults)) ==> NoFaults(ports.faults)
  {
    if ctx.changeDetectionRan && ctx.changedDocumentIds == {} && ctx.removedDocumentIds == {} {
      var exists_ := BokExists(ports);
      if exists_ { return None; }
    }
    made := DescribeSeen(ctx, ports, cfg);
  }
}
