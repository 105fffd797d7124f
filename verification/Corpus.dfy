/** The values the ingest pipeline moves around, and the four ports it calls. */
module Corpus {
  import opened Wrappers
  import opened Fingerprint

  type Vector = seq<real>

  const OVERVIEW_LABEL := "overview"
  const SUMMARY_LABEL := "summary"
  const SUMMARY_SUFFIX := "-summary"
  const BOK_DOCUMENT_ID := "body-of-knowledge-summary"
  const OVERVIEW_MAX_CHARS: nat := 8000
  const POST_MAX_CHARS: nat := 2000

  /** The optional identities are "" when absent: every use of them is a truth test. */
  datatype Meta = Meta(documentId: string, source: string, kind: string, title: string,
                       embeddingType: Option<string>,
                       space: string, subspace: string, callout: string, depth: int)

  datatype Document = Document(content: string, meta: Meta)

  /** A storage id: a content fingerprint, or `<document id>-<index>`. */
  datatype Id = Digest(canonical: string) | Named(documentId: string, index: nat)

  datatype Chunk = Chunk(content: string, meta: Meta, index: nat,
                         embedding: Option<Vector>, hash: Option<Id>)

  /** A stored entry: text, the metadata change detection reads, and its vector. */
  datatype Entry = Entry(content: string, documentId: string, source: string, kind: string,
                         title: string, embeddingType: Option<string>, index: nat,
                         position: Option<Position>, embedding: Vector)

  type Store = map<Id, Entry>

  function HasPosition(m: Meta): bool {
    m.space != "" || m.subspace != "" || m.callout != "" || m.depth != 0
  }

  function PositionOf(m: Meta): Option<Position> {
    if HasPosition(m) then Some(Position(m.space, m.subspace, m.callout, m.depth)) else None
  }

  predicate IsContent(label_: Option<string>) {
    label_.None? || label_.value == CHUNK_LABEL || label_.value == OVERVIEW_LABEL
  }

  predicate EndsWith(s: string, suffix: string) {
    |suffix| <= |s| && s[|s| - |suffix|..] == suffix
  }

  predicate IsDerivedDocumentId(d: string) {
    d == BOK_DOCUMENT_ID || EndsWith(d, SUMMARY_SUFFIX)
  }

  /** An entry that change detection takes for a passage of a document: labelled as
      content, or unlabelled without a summary's synthetic document id. */
  predicate IsPassage(e: Entry) {
    IsContent(e.embeddingType) && !(e.embeddingType.None? && IsDerivedDocumentId(e.documentId))
  }

  /** Passages are what is labelled "chunk" or "overview", and what is not labelled at all unless its
      document id is the overview's or that of some document's summary. */
  lemma PassageMeans(e: Entry)
    ensures e.embeddingType.Some? ==> (IsPassage(e) <==> e.embeddingType.value in ["chunk", "overview"])
    ensures e.embeddingType.None? ==>
              (IsPassage(e) <==> e.documentId != "body-of-knowledge-summary" && forall d :: e.documentId != d + "-summary")
  {
    if EndsWith(e.documentId, SUMMARY_SUFFIX) {
      assert e.documentId == e.documentId[..|e.documentId| - |SUMMARY_SUFFIX|] + "-summary";
    }
    forall d | e.documentId == d + "-summary" ensures EndsWith(e.documentId, SUMMARY_SUFFIX) {}
  }

  function HashedLabel(label_: Option<string>): string {
    if label_.None? || label_.value == "" then CHUNK_LABEL else label_.value
  }

  function ChunkFields(c: Chunk): Fields {
    Fields(c.content, c.meta.title, c.meta.source, c.meta.kind, c.meta.documentId,
           PositionOf(c.meta), HashedLabel(c.meta.embeddingType))
  }

  function EntryFields(e: Entry): Fields {
    Fields(e.content, e.title, e.source, e.kind, e.documentId, e.position, HashedLabel(e.embeddingType))
  }

  function IdOf(f: Fields): Id { Digest(Canonical(f)) }

  // ----- chunking strategy

  datatype ChunkStrategy = ChunkStrategy(size: Option<nat>, overlap: Option<nat>, embeddingType: string)

  function ResolveStrategy(kind: string): ChunkStrategy {
    if kind == "space" || kind == "subspace" then ChunkStrategy(Some(OVERVIEW_MAX_CHARS), Some(0), OVERVIEW_LABEL)
    else if kind == "post" then ChunkStrategy(Some(POST_MAX_CHARS), None, CHUNK_LABEL)
    else ChunkStrategy(None, None, CHUNK_LABEL)
  }

  datatype Stage = DocumentMap | DocumentReduce | OverviewMap | OverviewReduce
  datatype Prompt = Prompt(stage: Stage, text: string, budget: nat)

  /** The embedder and the language model as functions of their arguments. */
  datatype Services = Services(embed: string -> Vector, llm: Prompt -> string)

  /** `split` is the text splitter, given a text, a chunk size and an overlap. */
  datatype Config = Config(split: (string, nat, nat) -> seq<string>, chunkSize: nat, chunkOverlap: nat,
                           summarize: bool, summaryLength: nat, chunkThreshold: nat,
                           maxSectionChars: nat, batchSize: nat)

  function SplitText(cfg: Config, d: Document): seq<string> {
    var strategy := ResolveStrategy(d.meta.kind);
    var size := if strategy.size.Some? then strategy.size.value else cfg.chunkSize;
    var overlap := if strategy.overlap.Some? then strategy.overlap.value else cfg.chunkOverlap;
    cfg.split(d.content, size, if overlap >= size then 0 else overlap)
  }

  function RawChunk(cfg: Config, d: Document, i: nat): Chunk
    requires i < |SplitText(cfg, d)|
  {
    Chunk(SplitText(cfg, d)[i],
          d.meta.(embeddingType := Some(ResolveStrategy(d.meta.kind).embeddingType)), i, None, None)
  }

  function RawChunks(cfg: Config, d: Document): seq<Chunk> {
    seq(|SplitText(cfg, d)|, i requires 0 <= i < |SplitText(cfg, d)| => RawChunk(cfg, d, i))
  }

  function WithHash(c: Chunk): Chunk {
    if IsContent(c.meta.embeddingType) then c.(hash := Some(IdOf(ChunkFields(c)))) else c
  }
}

/** The store, the embedder and the language model behind an oracle that decides, call by
    call, whether the next call succeeds. */
module Ports {
  import opened Wrappers
  import opened Corpus

  /** `RaisesLate` takes effect and then raises; `Short(n)` returns only n vectors. */
  datatype Outcome = Succeeds | Raises | RaisesLate | Short(count: nat)

  predicate NoFaults(faults: seq<Outcome>) {
    forall i :: 0 <= i < |faults| ==> faults[i].Succeeds?
  }

  /** How the i-th call from now ends; past the end of the oracle every call succeeds. */
  function OutcomeAt(faults: seq<Outcome>, i: nat): Outcome { if i < |faults| then faults[i] else Succeeds }

  predicate FailsAt(faults: seq<Outcome>, i: nat) { OutcomeAt(faults, i).Raises? || OutcomeAt(faults, i).RaisesLate? }

  /** The next `n` calls succeed in full. */
  ghost predicate AllSucceed(faults: seq<Outcome>, n: nat) { forall i :: 0 <= i < n ==> OutcomeAt(faults, i).Succeeds? }

  lemma SucceedSplit(faults: seq<Outcome>, m: nat, n: nat)
    ensures AllSucceed(faults, m + n) <==> AllSucceed(faults, m) && AllSucceed(Later(faults, m), n)
  {
    forall i: nat ensures OutcomeAt(Later(faults, m), i) == OutcomeAt(faults, m + i) { LaterAt(faults, m, i); }
    forall i | m <= i < m + n ensures OutcomeAt(faults, i) == OutcomeAt(Later(faults, m), i - m) { assert i == m + (i - m); }
  }

  /** The oracle after `n` more calls. */
  function Later(faults: seq<Outcome>, n: nat): seq<Outcome> { if n < |faults| then faults[n..] else [] }

  lemma LaterAt(faults: seq<Outcome>, n: nat, i: nat)
    ensures OutcomeAt(Later(faults, n), i) == OutcomeAt(faults, n + i)
  {}

  lemma LaterPlus(faults: seq<Outcome>, m: nat, n: nat)
    ensures Later(Later(faults, m), n) == Later(faults, m + n)
  {}

  class Ports {
    const services: Services
    var faults: seq<Outcome>
    var entries: Store
    var llmCalls: nat
    var embedCalls: nat
    var writeCalls: nat
    var deleteCalls: nat
    /** The store as it was when each delete call was made. */
    ghost var beforeDeletes: seq<Store>

    constructor (services: Services, faults: seq<Outcome>, entries: Store)
      ensures this.services == services && this.faults == faults && this.entries == entries
    {
      this.services, this.faults, this.entries := services, faults, entries;
      llmCalls, embedCalls, writeCalls, deleteCalls, beforeDeletes := 0, 0, 0, 0, [];
    }

    method NextOutcome() returns (o: Outcome)
      modifies this`faults
      ensures o == OutcomeAt(old(faults), 0) && faults == Later(old(faults), 1)
      ensures NoFaults(old(faults)) ==> o.Succeeds? && NoFaults(faults)
    {
      if faults == [] {
        o := Succeeds;
      } else {
        o, faults := faults[0], faults[1..];
      }
    }

    method Split(cfg: Config, d: Document) returns (r: Option<seq<string>>)
      modifies this`faults
      ensures r == if FailsAt(old(faults), 0) then None else Some(SplitText(cfg, d))
      ensures NoFaults(old(faults)) ==> r.Some? && NoFaults(faults)
    {
      var o := NextOutcome();
      r := if o.Raises? || o.RaisesLate? then None else Some(SplitText(cfg, d));
    }

    method Invoke(prompt: Prompt) returns (r: Option<string>)
      modifies this`faults, this`llmCalls
      ensures llmCalls == old(llmCalls) + 1
      ensures r == if FailsAt(old(faults), 0) then None else Some(services.llm(prompt))
      ensures faults == Later(old(faults), 1)
      ensures NoFaults(old(faults)) ==> r.Some? && NoFaults(faults)
    {
      llmCalls := llmCalls + 1;
      var o := NextOutcome();
      r := if o.Raises? || o.RaisesLate? then None else Some(services.llm(prompt));
    }

    method Embed(texts: seq<string>) returns (r: Option<seq<Vector>>)
      modifies this`faults, this`embedCalls
      ensures embedCalls == old(embedCalls) + 1
      ensures faults == Later(old(faults), 1)
      ensures r.None? <==> FailsAt(old(faults), 0)
      ensures OutcomeAt(old(faults), 0).Succeeds? ==> r.Some? && |r.value| == |texts|
      ensures r.Some? ==> |r.value| <= |texts|
      ensures r.Some? ==> forall i :: 0 <= i < |r.value| ==> r.value[i] == services.embed(texts[i])
      ensures NoFaults(old(faults)) ==> r.Some? && |r.value| == |texts| && NoFaults(faults)
    {
      embedCalls := embedCalls + 1;
      var o := NextOutcome();
      var all := seq(|texts|, i requires 0 <= i < |texts| => services.embed(texts[i]));
      match o {
        case Succeeds => r := Some(all);
        case Short(n) => r := Some(if n < |all| then all[..n] else all);
        case _ => r := None;
      }
    }

    method Read() returns (r: Option<Store>)
      modifies this`faults
      ensures r == if FailsAt(old(faults), 0) then None else Some(entries)
      ensures NoFaults(old(faults)) ==> r.Some? && NoFaults(faults)
    {
      var o := NextOutcome();
      r := if o.Raises? || o.RaisesLate? then None else Some(entries);
    }

    /** A failed write or delete may or may not have taken effect. */
    method Upsert(batch: Store) returns (ok: bool)
      modifies this`faults, this`entries, this`writeCalls
      ensures writeCalls == old(writeCalls) + 1
      ensures ok == !FailsAt(old(faults), 0)
      ensures entries == old(entries) + batch || (!ok && entries == old(entries))
      ensures NoFaults(old(faults)) ==> ok && NoFaults(faults)
    {
      writeCalls := writeCalls + 1;
      var o := NextOutcome();
      if !o.Raises? { entries := entries + batch; }
      ok := !o.Raises? && !o.RaisesLate?;
    }

    method Delete(doomed: set<Id>) returns (ok: bool)
      modifies this`faults, this`entries, this`deleteCalls, this`beforeDeletes
      ensures deleteCalls == old(deleteCalls) + 1
      ensures beforeDeletes == old(beforeDeletes) + [old(entries)]
      ensures ok == !FailsAt(old(faults), 0)
      ensures entries == old(entries) - doomed || (!ok && entries == old(entries))
      ensures NoFaults(old(faults)) ==> ok && NoFaults(faults)
    {
      deleteCalls := deleteCalls + 1;
      beforeDeletes := beforeDeletes + [entries];
      var o := NextOutcome();
      if !o.Raises? { entries := entries - doomed; }
      ok := !o.Raises? && !o.RaisesLate?;
    }

    /** Delete by metadata: every entry whose document id is `documentId`. */
    method DeleteWhere(documentId: string) returns (ok: bool)
      modifies this`faults, this`entries, this`deleteCalls, this`beforeDeletes
      ensures deleteCalls == old(deleteCalls) + 1
      ensures beforeDeletes == old(beforeDeletes) + [old(entries)]
      ensures ok == !FailsAt(old(faults), 0)
      ensures entries == WithoutDocument(old(entries), documentId) || (!ok && entries == old(entries))
      ensures NoFaults(old(faults)) ==> ok && NoFaults(faults)
    {
      deleteCalls := deleteCalls + 1;
      beforeDeletes := beforeDeletes + [entries];
      var o := NextOutcome();
      if !o.Raises? { entries := WithoutDocument(entries, documentId); }
      ok := !o.Raises? && !o.RaisesLate?;
    }
  }

  function WithoutDocument(s: Store, documentId: string): Store {
    map id | id in s && s[id].documentId != documentId :: s[id]
  }
}
