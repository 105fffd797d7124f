/** Summaries, the corpus overview and embeddings. */
module Enrichment {
  import opened Wrappers
  import opened Corpus
  import opened Ports
  import opened MapReduce
  import opened IngestContext
  import opened Detection

  const MIN_SECTION_CHARS: nat := 1000
  const BOK_ID := Named(BOK_DOCUMENT_ID, 0)

  // ----- embedding

  /** Only missing vectors have been filled in, each with the vector of its own text. */
  predicate EmbeddedBy(cs: seq<Chunk>, ds: seq<Chunk>, embed: string -> Vector) {
    |cs| == |ds| && forall i :: 0 <= i < |cs| ==>
      ds[i] == cs[i] || (cs[i].embedding.None? && ds[i] == cs[i].(embedding := Some(embed(cs[i].content))))
  }

  predicate AllMissing(cs: seq<Chunk>, positions: seq<nat>) {
    forall k :: 0 <= k < |positions| ==> positions[k] < |cs| && cs[positions[k]].embedding.None?
  }

  predicate AllVectors(cs: seq<Chunk>, positions: seq<nat>) {
    forall k :: 0 <= k < |positions| ==> positions[k] < |cs| && cs[positions[k]].embedding.Some?
  }

  method EmbedBatch(ctx: Context, ports: Ports, batch: seq<nat>, number: nat, ghost cs: seq<Chunk>)
    requires EmbeddedBy(cs, ctx.chunks, ports.services.embed) && AllMissing(cs, batch)
    modifies ctx`chunks, ctx`errors, ports`faults, ports`embedCalls
    ensures EmbeddedBy(cs, ctx.chunks, ports.services.embed)
    ensures forall i :: 0 <= i < |cs| && old(ctx.chunks)[i].embedding.Some? ==> ctx.chunks[i].embedding.Some?
    ensures ctx.errors == old(ctx.errors) || ctx.errors == old(ctx.errors) + [EmbeddingFailed(number)]
    ensures ports.embedCalls == old(ports.embedCalls) + 1 && ports.faults == Later(old(ports.faults), 1)
    ensures OutcomeAt(old(ports.faults), 0).Succeeds? ==> ctx.errors == old(ctx.errors) && AllVectors(ctx.chunks, batch)
    ensures NoFaults(old(ports.faults)) ==> NoFaults(ports.faults)
  {
    var now := ctx.chunks;
    var texts := seq(|batch|, k requires 0 <= k < |batch| && batch[k] < |now| => now[batch[k]].content);
    var vectors := ports.Embed(texts);
    if vectors.None? {
      ctx.errors := ctx.errors + [EmbeddingFailed(number)];
      return;
    }
    for k := 0 to |vectors.value|
      modifies ctx`chunks
      invariant EmbeddedBy(cs, ctx.chunks, ports.services.embed)
      invariant forall i :: 0 <= i < |cs| && old(ctx.chunks)[i].embedding.Some? ==> ctx.chunks[i].embedding.Some?
      invariant forall j :: 0 <= j < k ==> ctx.chunks[batch[j]].embedding.Some?
    {
      assert texts[k] == cs[batch[k]].content;
      ctx.chunks := ctx.chunks[batch[k] := ctx.chunks[batch[k]].(embedding := Some(vectors.value[k]))];
    }
  }

  method MissingAmong(cs: seq<Chunk>, targets: seq<nat>) returns (missing: seq<nat>)
    requires forall k :: 0 <= k < |targets| ==> targets[k] < |cs|
    ensures AllMissing(cs, missing)
    ensures forall j :: 0 <= j < |targets| && cs[targets[j]].embedding.None? ==> targets[j] in missing
    ensures AllVectors(cs, targets) ==> missing == []
  {
    missing := [];
    for k := 0 to |targets|
      invariant AllMissing(cs, missing)
      invariant forall j :: 0 <= j < k && cs[targets[j]].embedding.None? ==> targets[j] in missing
      invariant AllVectors(cs, targets) ==> missing == []
    {
      if cs[targets[k]].embedding.None? { missing := missing + [targets[k]]; }
    }
  }

  lemma VectorsExtend(before: seq<Chunk>, after: seq<Chunk>, missing: seq<nat>, done: nat, end: nat)
    requires done <= end <= |missing| && |before| == |after| && AllVectors(before, missing[..done])
    requires forall i :: 0 <= i < |before| && before[i].embedding.Some? ==> after[i].embedding.Some?
    requires AllVectors(after, missing[done..end])
    ensures AllVectors(after, missing[..end])
  {
    assert missing[..end] == missing[..done] + missing[done..end];
  }

  lemma VectorsForAll(cs: seq<Chunk>, ds: seq<Chunk>, targets: seq<nat>, missing: seq<nat>, embed: string -> Vector)
    requires EmbeddedBy(cs, ds, embed) && AllVectors(ds, missing)
    requires forall k :: 0 <= k < |targets| ==> targets[k] < |cs| && (cs[targets[k]].embedding.None? ==> targets[k] in missing)
    ensures AllVectors(ds, targets)
  {}

  /** The first `done` of the missing have been asked for in `calls` calls. */
  ghost predicate Filling(faults: seq<Outcome>, rest: seq<Outcome>, calls: nat, before: seq<IngestError>, errors: seq<IngestError>,
                          cs: seq<Chunk>, now: seq<Chunk>, missing: seq<nat>, done: nat, embed: string -> Vector)
  {
    && done <= |missing| && EmbeddedBy(cs, now, embed) && before <= errors && rest == Later(faults, calls)
    && (AllSucceed(faults, calls) ==> errors == before && AllVectors(now, missing[..done]))
  }

  lemma FillingStep(faults: seq<Outcome>, rest: seq<Outcome>, calls: nat, before: seq<IngestError>, errors: seq<IngestError>,
                    cs: seq<Chunk>, now: seq<Chunk>, missing: seq<nat>, done: nat, embed: string -> Vector,
                    later: seq<Outcome>, more: seq<IngestError>, next: seq<Chunk>, end: nat)
    requires Filling(faults, rest, calls, before, errors, cs, now, missing, done, embed) && done <= end <= |missing|
    requires EmbeddedBy(cs, next, embed) && errors <= more && later == Later(rest, 1)
    requires forall i :: 0 <= i < |cs| && now[i].embedding.Some? ==> next[i].embedding.Some?
    requires OutcomeAt(rest, 0).Succeeds? ==> more == errors && AllVectors(next, missing[done..end])
    ensures Filling(faults, later, calls + 1, before, more, cs, next, missing, end, embed)
  {
    SucceedSplit(faults, calls, 1);
    LaterPlus(faults, calls, 1);
    if AllSucceed(faults, calls + 1) {
      assert OutcomeAt(rest, 0).Succeeds?;
      VectorsExtend(now, next, missing, done, end);
    }
  }

  /** Embeds the chunks at `targets` that have no vector yet, `size` at a time. */
  method EmbedChunks(ctx: Context, ports: Ports, targets: seq<nat>, size: nat)
    requires size >= 1 && forall k :: 0 <= k < |targets| ==> targets[k] < |ctx.chunks|
    modifies ctx`chunks, ctx`errors, ports`faults, ports`embedCalls
    ensures EmbeddedBy(old(ctx.chunks), ctx.chunks, ports.services.embed)
    ensures old(ctx.errors) <= ctx.errors
    ensures AllVectors(old(ctx.chunks), targets) ==>
              ctx.chunks == old(ctx.chunks) && ctx.errors == old(ctx.errors)
              && ports.embedCalls == old(ports.embedCalls) && ports.faults == old(ports.faults)
    // with every call of its own answered in full nothing is left without a vector
    ensures ports.embedCalls >= old(ports.embedCalls) && ports.faults == Later(old(ports.faults), ports.embedCalls - old(ports.embedCalls))
    ensures AllSucceed(old(ports.faults), ports.embedCalls - old(ports.embedCalls)) ==>
              ctx.errors == old(ctx.errors) && AllVectors(ctx.chunks, targets)
    ensures NoFaults(old(ports.faults)) ==> NoFaults(ports.faults) && ctx.errors == old(ctx.errors) && AllVectors(ctx.chunks, targets)
  {
    var cs := ctx.chunks;
    var missing := MissingAmong(cs, targets);
    var done := 0;
    ghost var calls: nat := 0;
    while done < |missing|
      modifies ctx`chunks, ctx`errors, ports`faults, ports`embedCalls
      invariant 0 <= done <= |missing| && ports.embedCalls == old(ports.embedCalls) + calls
      invariant Filling(old(ports.faults), ports.faults, calls, old(ctx.errors), ctx.errors, cs, ctx.chunks, missing, done, ports.services.embed)
      invariant missing == [] ==> ctx.chunks == cs && ctx.errors == old(ctx.errors) && calls == 0 && ports.faults == old(ports.faults)
    {
      var end := if done + size < |missing| then done + size else |missing|;
      ghost var now, errors, rest := ctx.chunks, ctx.errors, ports.faults;
      EmbedBatch(ctx, ports, missing[done..end], done / size, cs);
      FillingStep(old(ports.faults), rest, calls, old(ctx.errors), errors, cs, now, missing, done, ports.services.embed,
                  ports.faults, ctx.errors, ctx.chunks, end);
      done, calls := end, calls + 1;
    }
    FillingEnds(old(ports.faults), ports.faults, calls, old(ctx.errors), ctx.errors, cs, ctx.chunks, targets, missing, ports.services.embed);
  }

  lemma FillingEnds(faults: seq<Outcome>, rest: seq<Outcome>, calls: nat, before: seq<IngestError>, errors: seq<IngestError>,
                    cs: seq<Chunk>, now: seq<Chunk>, targets: seq<nat>, missing: seq<nat>, embed: string -> Vector)
    requires Filling(faults, rest, calls, before, errors, cs, now, missing, |missing|, embed)
    requires forall k :: 0 <= k < |targets| ==> targets[k] < |cs| && (cs[targets[k]].embedding.None? ==> targets[k] in missing)
    ensures AllSucceed(faults, calls) ==> errors == before && AllVectors(now, targets)
    ensures NoFaults(faults) ==> NoFaults(rest) && AllSucceed(faults, calls)
  {
    TakeAll(missing);
    if AllSucceed(faults, calls) { VectorsForAll(cs, now, targets, missing, embed); }
  }

  method EmbedStep(ctx: Context, ports: Ports)
    modifies ctx`chunks, ctx`errors, ports`faults, ports`embedCalls
    ensures EmbeddedBy(old(ctx.chunks), ctx.chunks, ports.services.embed)
    ensures old(ctx.errors) <= ctx.errors
    ensures (forall i :: 0 <= i < |old(ctx.chunks)| ==> old(ctx.chunks)[i].embedding.Some?) ==>
              ctx.chunks == old(ctx.chunks) && ctx.errors == old(ctx.errors)
              && ports.embedCalls == old(ports.embedCalls) && ports.faults == old(ports.faults)
    ensures ports.embedCalls >= old(ports.embedCalls)
    ensures AllSucceed(old(ports.faults), ports.embedCalls - old(ports.embedCalls)) ==>
              ctx.errors == old(ctx.errors) && forall i :: 0 <= i < |ctx.chunks| ==> ctx.chunks[i].embedding.Some?
    ensures NoFaults(old(ports.faults)) ==> NoFaults(ports.faults) && ctx.errors == old(ctx.errors)
    ensures NoFaults(old(ports.faults)) ==> forall i :: 0 <= i < |ctx.chunks| ==> ctx.chunks[i].embedding.Some?
  {
    var n := |ctx.chunks|;
    var targets := seq(n, i requires 0 <= i < n => i);
    EmbedChunks(ctx, ports, targets, EMBED_BATCH);
    forall i | 0 <= i < n && AllVectors(ctx.chunks, targets) ensures ctx.chunks[i].embedding.Some? {
      assert ctx.chunks[targets[i]].embedding.Some?;
    }
  }

  // ----- DocumentSummaryStep

  function SummaryId(d: string): Id { Named(d + SUMMARY_SUFFIX, 0) }

  function SummaryChunk(source: Meta, d: string, text: string): Chunk {
    Chunk(text, source.(documentId := d + SUMMARY_SUFFIX, embeddingType := Some(SUMMARY_LABEL)), 0, None, None)
  }

  predicate IsBlank(s: string) { forall i :: 0 <= i < |s| ==> IsSpace(s[i]) }

  /** The model answers the prompts about a document with something to read. */
  ghost predicate NeverBlank(services: Services) {
    forall text, budget ::
      !IsBlank(services.llm(Prompt(DocumentMap, text, budget))) && !IsBlank(services.llm(Prompt(DocumentReduce, text, budget)))
  }

  /** Nothing can go wrong from here on: no call fails, and no document summary is blank. */
  ghost predicate Untroubled(faults: seq<Outcome>, services: Services, cfg: Config) {
    NoFaults(faults) && (cfg.summarize ==> NeverBlank(services))
  }

  lemma {:induction false} AllKept(answers: seq<Option<string>>)
    requires forall i :: 0 <= i < |answers| ==> answers[i].Some? && !IsBlank(answers[i].value)
    ensures |NonEmpty(answers)| == |answers| && forall s :: s in NonEmpty(answers) ==> !IsBlank(s)
  {
    if answers != [] { AllKept(answers[1..]); }
  }

  /** With no call failing, a summary is a model's own text and so not blank. */
  lemma SummaryNotBlank(services: Services, texts: seq<string>, maxLength: nat, answers: seq<Option<string>>, r: string)
    requires NeverBlank(services) && texts != [] && Answered(services, texts, DocumentMap, maxLength, answers)
    requires forall i :: 0 <= i < |answers| ==> answers[i].Some?
    requires NonEmpty(answers) != [] ==> IsMerged(services, DocumentReduce, maxLength, NonEmpty(answers), r)
    ensures !IsBlank(r)
  {
    AllKept(answers);
    var tree :| AllMerged(tree) && Frontier(tree) == NonEmpty(answers) && r == Render(tree, Reducer(services, DocumentReduce, maxLength));
    if tree.Leaf? { assert Frontier(tree) == [tree.text] && tree.text in NonEmpty(answers); }
  }

  /** Enough passages to be worth a summary, and changed if that is known. */
  predicate Qualifies(cs: seq<Chunk>, cfg: Config, ran: bool, changed: set<string>, d: string) {
    Count(cs, false, d) >= cfg.chunkThreshold && (!ran || d in changed)
  }

  /** The summaries of changed documents that no longer have enough passages for one. */
  ghost function StaleSummaries(cs: seq<Chunk>, cfg: Config, changed: set<string>): set<Id> {
    set c | c in cs && c.meta.documentId in changed && Count(cs, false, c.meta.documentId) < cfg.chunkThreshold
      :: SummaryId(c.meta.documentId)
  }

  /** The document's first chunk. */
  ghost predicate IsFirstOf(cs: seq<Chunk>, d: string, i: nat) {
    i < |cs| && cs[i].meta.documentId == d && forall k :: 0 <= k < i ==> cs[k].meta.documentId != d
  }

  /** The summary reports the source and tree position of the first passage it summarises. */
  ghost predicate HasMetaOf(c: Chunk, cs: seq<Chunk>, d: string) {
    && c.meta.documentId == d + "-summary" && c.meta.embeddingType == Some("summary")
    && exists i: nat :: IsFirstOf(cs, d, i)
         && c.meta == cs[i].meta.(documentId := c.meta.documentId, embeddingType := c.meta.embeddingType)
  }

  lemma FirstOfGroup(cs: seq<Chunk>, d: string, group: seq<nat>)
    requires WholeGroup(cs, false, d, group) && group != []
    ensures IsFirstOf(cs, d, group[0])
  {
    assert group[0] in group;
    forall k | 0 <= k < group[0] ensures cs[k].meta.documentId != d {
      assert cs[k].meta.documentId == d ==> k in group;
    }
  }

  ghost predicate IsSummaryOf(c: Chunk, cs: seq<Chunk>, d: string, summaries: map<string, string>, embed: string -> Vector) {
    && IsSummary(c) && HasMetaOf(c, cs, d)
    && d in summaries && summaries[d] == c.content && HasSoundVector(c, embed)
  }

  function TextsAt(cs: seq<Chunk>, group: seq<nat>): seq<string> {
    seq(|group|, j requires 0 <= j < |group| => if group[j] < |cs| then cs[group[j]].content else "")
  }

  /** A summary that is not blank, map-reduced from all chunks of the document in order. */
  ghost predicate IsSummaryText(services: Services, cfg: Config, texts: seq<string>, text: string) {
    !IsBlank(text) && IsMapReduced(services, texts, DocumentMap, DocumentReduce, cfg.summaryLength, REDUCE_FANIN, text)
  }

  /** The texts of a document's chunks, in order. */
  function TextsOf(cs: seq<Chunk>, d: string): seq<string> {
    if cs == [] then []
    else TextsOf(cs[..|cs| - 1], d) + if cs[|cs| - 1].meta.documentId == d then [cs[|cs| - 1].content] else []
  }

  lemma {:induction false} GroupTexts(cs: seq<Chunk>, d: string, group: seq<nat>)
    requires WholeGroup(cs, false, d, group)
    ensures TextsAt(cs, group) == TextsOf(cs, d)
    decreases |cs|
  {
    if cs == [] {
      GroupInside(cs, d, group);
    } else {
      var n := |cs| - 1;
      GroupFront(cs, d, group);
      if cs[n].meta.documentId == d {
        var front := group[..|group| - 1];
        GroupTexts(cs[..n], d, front);
        GroupInside(cs[..n], d, front);
        assert TextsAt(cs, group) == TextsAt(cs[..n], front) + [cs[n].content];
      } else {
        GroupTexts(cs[..n], d, group);
        GroupInside(cs[..n], d, group);
        assert TextsAt(cs, group) == TextsAt(cs[..n], group);
      }
    }
  }

  lemma GroupInside(cs: seq<Chunk>, d: string, group: seq<nat>)
    requires WholeGroup(cs, false, d, group)
    ensures forall k :: 0 <= k < |group| ==> group[k] < |cs| && cs[group[k]].meta.documentId == d
  {
    forall k | 0 <= k < |group| ensures group[k] < |cs| && cs[group[k]].meta.documentId == d { assert group[k] in group; }
  }

  /** Without the last chunk the group is the same, or the same without its last position. */
  lemma GroupFront(cs: seq<Chunk>, d: string, group: seq<nat>)
    requires WholeGroup(cs, false, d, group) && cs != []
    ensures var n := |cs| - 1;
      if cs[n].meta.documentId == d
      then group != [] && group[|group| - 1] == n && WholeGroup(cs[..n], false, d, group[..|group| - 1])
      else WholeGroup(cs[..n], false, d, group)
    ensures forall k :: 0 <= k < |group| ==> group[k] < |cs|
  {
    var n := |cs| - 1;
    GroupInside(cs, d, group);
    if cs[n].meta.documentId == d {
      assert Selected(cs[n], false) && n in group;
      var k :| 0 <= k < |group| && group[k] == n;
      assert group[k] <= group[|group| - 1] <= n;
      var front := group[..|group| - 1];
      forall i | 0 <= i < n && Selected(cs[..n][i], false) && cs[..n][i].meta.documentId == d ensures i in front {
        assert cs[i] == cs[..n][i] && i in group;
        var m :| 0 <= m < |group| && group[m] == i;
        assert front[m] == i;
      }
      forall i | i in front ensures InGroup(cs[..n], false, d, i) {
        var m :| 0 <= m < |front| && front[m] == i;
        assert group[m] < group[|group| - 1];
      }
    } else {
      forall i | i in group ensures InGroup(cs[..n], false, d, i) { assert InGroup(cs, false, d, i); }
      forall i | 0 <= i < n && Selected(cs[..n][i], false) && cs[..n][i].meta.documentId == d ensures i in group { assert cs[i] == cs[..n][i]; }
    }
  }

  lemma SummaryIsSummary(source: Meta, d: string, text: string)
    ensures IsSummary(SummaryChunk(source, d, text))
  {}

  lemma DocumentsInOrder(cs: seq<Chunk>, order: seq<string>, groups: map<string, seq<nat>>)
    requires IsGrouping(cs, |cs|, false, order, groups)
    ensures forall d :: d in order <==> exists c :: c in cs && c.meta.documentId == d
  {
    forall d ensures d in order <==> exists c :: c in cs && c.meta.documentId == d {
      if d in order {
        assert d in groups && InGroup(cs, false, d, groups[d][0]);
        assert cs[groups[d][0]] in cs;
      }
      if c :| c in cs && c.meta.documentId == d {
        var i :| 0 <= i < |cs| && cs[i] == c;
        assert Selected(cs[i], false);
      }
    }
  }

  /** Splits the documents into those to summarise and those whose summary is stale. */
  method Triage(cs: seq<Chunk>, cfg: Config, ran: bool, changed: set<string>, order: seq<string>, groups: map<string, seq<nat>>)
    returns (todo: seq<string>, stale: set<Id>)
    requires Grouped(cs, |cs|, false, order, groups) && IsCounted(cs, false, groups)
    ensures forall d :: d in todo <==> d in order && Qualifies(cs, cfg, ran, changed, d)
    ensures NoDuplicates(todo)
    ensures stale == if ran then StaleSummaries(cs, cfg, changed) else {}
  {
    todo, stale := [], {};
    for k := 0 to |order|
      invariant forall d :: d in todo <==> d in order[..k] && Qualifies(cs, cfg, ran, changed, d)
      invariant NoDuplicates(todo)
      invariant stale == set d | d in order[..k] && ran && d in changed && Count(cs, false, d) < cfg.chunkThreshold :: SummaryId(d)
    {
      var d := order[k];
      assert |groups[d]| == Count(cs, false, d);
      TakeStep(order, k);
      assert d !in order[..k];
      if |groups[d]| >= cfg.chunkThreshold && (!ran || d in changed) { todo := todo + [d]; }
      if ran && d in changed && |groups[d]| < cfg.chunkThreshold { stale := stale + {SummaryId(d)}; }
    }
    TakeAll(order);
    DocumentsInOrder(cs, order, groups);
  }

  /** One summary, or None where the model refused or had nothing to say. */
  method SummarizeOne(ports: Ports, cfg: Config, cs: seq<Chunk>, d: string, group: seq<nat>) returns (r: Option<string>)
    requires WholeGroup(cs, false, d, group) && group != []
    modifies ports`faults, ports`llmCalls
    ensures r.Some? ==> IsSummaryText(ports.services, cfg, TextsOf(cs, d), r.value)
    ensures NoFaults(old(ports.faults)) ==> NoFaults(ports.faults) && (NeverBlank(ports.services) ==> r.Some?)
  {
    var texts := TextsAt(cs, group);
    GroupTexts(cs, d, group);
    var summary;
    ghost var answers;
    summary, answers := MapReduceSummarize(ports, texts, DocumentMap, DocumentReduce, cfg.summaryLength, REDUCE_FANIN);
    if NoFaults(old(ports.faults)) && NeverBlank(ports.services) {
      SummaryNotBlank(ports.services, texts, cfg.summaryLength, answers, summary.value);
    }
    r := if summary.None? || IsBlank(summary.value) then None else summary;
  }

  method SummarizeDocuments(ports: Ports, cfg: Config, cs: seq<Chunk>, todo: seq<string>, groups: map<string, seq<nat>>)
    returns (results: seq<Option<string>>)
    requires forall k :: 0 <= k < |todo| ==> todo[k] in groups && groups[todo[k]] != []
    requires forall k :: 0 <= k < |todo| ==> WholeGroup(cs, false, todo[k], groups[todo[k]])
    modifies ports`faults, ports`llmCalls
    ensures |results| == |todo|
    ensures forall k :: 0 <= k < |todo| && results[k].Some? ==> IsSummaryText(ports.services, cfg, TextsOf(cs, todo[k]), results[k].value)
    ensures todo == [] ==> ports.faults == old(ports.faults) && ports.llmCalls == old(ports.llmCalls)
    ensures NoFaults(old(ports.faults)) ==> NoFaults(ports.faults)
    ensures NoFaults(old(ports.faults)) && NeverBlank(ports.services) ==> forall k :: 0 <= k < |todo| ==> results[k].Some?
  {
    results := [];
    for k := 0 to |todo|
      invariant |results| == k
      invariant forall j :: 0 <= j < k && results[j].Some? ==> IsSummaryText(ports.services, cfg, TextsOf(cs, todo[j]), results[j].value)
      invariant k == 0 ==> ports.faults == old(ports.faults) && ports.llmCalls == old(ports.llmCalls)
      invariant NoFaults(old(ports.faults)) ==> NoFaults(ports.faults)
      invariant NoFaults(old(ports.faults)) && NeverBlank(ports.services) ==> forall j :: 0 <= j < k ==> results[j].Some?
    {
      var summary := SummarizeOne(ports, cfg, cs, todo[k], groups[todo[k]]);
      results := results + [summary];
    }
  }

  /** The chunks after the first summaries, those of `done`, have been applied. */
  ghost predicate Applied(cs: seq<Chunk>, ds: seq<Chunk>, done: seq<string>, summaries: map<string, string>, embed: string -> Vector) {
    && |ds| == |cs| + |done| && EmbeddedBy(cs, ds[..|cs|], embed)
    && forall j :: 0 <= j < |done| ==> IsSummaryOf(ds[|cs| + j], cs, done[j], summaries, embed)
  }

  lemma AppliedEmbedded(cs: seq<Chunk>, before: seq<Chunk>, after: seq<Chunk>, done: seq<string>,
                        summaries: map<string, string>, embed: string -> Vector)
    requires |before| == |cs| + |done| && EmbeddedBy(cs, before[..|cs|], embed) && EmbeddedBy(before, after, embed)
    requires forall j :: 0 <= j < |done| ==> IsSummaryOf(before[|cs| + j], cs, done[j], summaries, embed)
    ensures EmbeddedBy(cs, after[..|cs|], embed)
    ensures forall j :: 0 <= j < |done| ==> IsSummaryOf(after[|cs| + j], cs, done[j], summaries, embed)
  {}

  method ApplySummary(ctx: Context, ports: Ports, cs: seq<Chunk>, d: string, group: seq<nat>, text: string, ghost done: seq<string>)
    requires Applied(cs, ctx.chunks, done, ctx.documentSummaries, ports.services.embed) && d !in done
    requires group != [] && WholeGroup(cs, false, d, group)
    modifies ctx`chunks, ctx`errors, ctx`documentSummaries, ports`faults, ports`embedCalls
    ensures Applied(cs, ctx.chunks, done + [d], ctx.documentSummaries, ports.services.embed) && ctx.documentSummaries == old(ctx.documentSummaries)[d := text]
    ensures old(ctx.errors) <= ctx.errors
    ensures NoFaults(old(ports.faults)) ==> NoFaults(ports.faults) && ctx.errors == old(ctx.errors)
  {
    forall j | 0 <= j < |group| ensures InGroup(cs, false, d, group[j]) { assert group[j] in group; }
    SummaryIsSummary(cs[group[0]].meta, d, text);
    FirstOfGroup(cs, d, group);
    ctx.documentSummaries := ctx.documentSummaries[d := text];
    ctx.chunks := ctx.chunks + [SummaryChunk(cs[group[0]].meta, d, text)];
    ghost var before := ctx.chunks;
    assert before[..|cs|] == old(ctx.chunks)[..|cs|];
    EmbedChunks(ctx, ports, group + [|ctx.chunks| - 1], EMBED_BATCH);
    AppliedEmbedded(cs, before, ctx.chunks, done + [d], ctx.documentSummaries, ports.services.embed);
  }

  /** The summary recorded for each of the documents is one of its own text. */
  ghost predicate Told(services: Services, cfg: Config, cs: seq<Chunk>, done: seq<string>, summaries: map<string, string>) {
    forall d :: d in done ==> d in summaries && IsSummaryText(services, cfg, TextsOf(cs, d), summaries[d])
  }

  ghost function Names(done: seq<string>): set<string> { set d | d in done }

  /** Summaries of these documents, each once, have been recorded besides the earlier ones. */
  ghost predicate Summarised(services: Services, cfg: Config, cs: seq<Chunk>, done: seq<string>, summaries: map<string, string>, earlier: set<string>) {
    && Told(services, cfg, cs, done, summaries) && NoDuplicates(done) && summaries.Keys == earlier + Names(done)
  }

  lemma SummarisedStep(services: Services, cfg: Config, cs: seq<Chunk>, done: seq<string>, summaries: map<string, string>, earlier: set<string>,
                       d: string, text: string)
    requires Summarised(services, cfg, cs, done, summaries, earlier) && d !in done && IsSummaryText(services, cfg, TextsOf(cs, d), text)
    ensures Summarised(services, cfg, cs, done + [d], summaries[d := text], earlier)
  {
    assert Names(done + [d]) == Names(done) + {d};
  }

  /** The first `k` to do, or some of them. */
  ghost predicate SomeOf(done: seq<string>, todo: seq<string>, k: nat, all: bool) {
    k <= |todo| && (forall d :: d in done ==> d in todo[..k]) && (all ==> done == todo[..k])
  }

  lemma SomeOfStep(done: seq<string>, todo: seq<string>, k: nat, all: bool)
    requires SomeOf(done, todo, k, all) && k < |todo| && NoDuplicates(todo)
    ensures SomeOf(done, todo, k + 1, false) && SomeOf(done + [todo[k]], todo, k + 1, all) && todo[k] !in done
  {
    TakeStep(todo, k);
    assert todo[k] !in todo[..k];
  }

  lemma WholeGroups(cs: seq<Chunk>, order: seq<string>, groups: map<string, seq<nat>>, todo: seq<string>)
    requires Grouped(cs, |cs|, false, order, groups) && forall d :: d in todo ==> d in order
    ensures forall k :: 0 <= k < |todo| ==> todo[k] in groups && groups[todo[k]] != [] && WholeGroup(cs, false, todo[k], groups[todo[k]])
  {
    forall k | 0 <= k < |todo| ensures todo[k] in groups && groups[todo[k]] != [] && WholeGroup(cs, false, todo[k], groups[todo[k]]) {
      assert todo[k] in todo;
      GroupIsWhole(cs, false, order, groups, todo[k]);
    }
  }

  /** Applies the results in order: a recorded summary with its chunk, or an error. */
  method ApplySummaries(ctx: Context, ports: Ports, cfg: Config, cs: seq<Chunk>, todo: seq<string>, groups: map<string, seq<nat>>,
                        results: seq<Option<string>>)
    returns (ghost done: seq<string>)
    requires ctx.chunks == cs && NoDuplicates(todo) && |results| == |todo|
    requires forall k :: 0 <= k < |todo| ==> todo[k] in groups && groups[todo[k]] != [] && WholeGroup(cs, false, todo[k], groups[todo[k]])
    requires forall k :: 0 <= k < |todo| && results[k].Some? ==> IsSummaryText(ports.services, cfg, TextsOf(cs, todo[k]), results[k].value)
    modifies ctx`chunks, ctx`errors, ctx`documentSummaries, ports`faults, ports`embedCalls
    ensures Applied(cs, ctx.chunks, done, ctx.documentSummaries, ports.services.embed)
    ensures Summarised(ports.services, cfg, cs, done, ctx.documentSummaries, old(ctx.documentSummaries).Keys)
    ensures old(ctx.errors) <= ctx.errors && SomeOf(done, todo, |todo|, ctx.errors == old(ctx.errors))
    ensures NoFaults(old(ports.faults)) && (forall k :: 0 <= k < |todo| ==> results[k].Some?) ==> ctx.errors == old(ctx.errors)
    ensures todo == [] ==> ctx.chunks == cs && ctx.errors == old(ctx.errors) && ports.faults == old(ports.faults)
                           && ports.embedCalls == old(ports.embedCalls)
    ensures NoFaults(old(ports.faults)) ==> NoFaults(ports.faults)
  {
    done := [];
    TakeAll(cs);
    for k := 0 to |todo|
      invariant Applied(cs, ctx.chunks, done, ctx.documentSummaries, ports.services.embed)
      invariant Summarised(ports.services, cfg, cs, done, ctx.documentSummaries, old(ctx.documentSummaries).Keys)
      invariant old(ctx.errors) <= ctx.errors && SomeOf(done, todo, k, ctx.errors == old(ctx.errors))
      invariant k == 0 ==> ctx.chunks == cs && ctx.errors == old(ctx.errors)
      invariant k == 0 ==> ports.faults == old(ports.faults) && ports.embedCalls == old(ports.embedCalls)
      invariant NoFaults(old(ports.faults)) ==> NoFaults(ports.faults)
      invariant NoFaults(old(ports.faults)) && (forall j :: 0 <= j < |todo| ==> results[j].Some?) ==> ctx.errors == old(ctx.errors)
    {
      SomeOfStep(done, todo, k, ctx.errors == old(ctx.errors));
      if results[k].None? {
        ctx.errors := ctx.errors + [SummaryWithoutContent(todo[k])];
      } else {
        SummarisedStep(ports.services, cfg, cs, done, ctx.documentSummaries, old(ctx.documentSummaries).Keys, todo[k], results[k].value);
        ApplySummary(ctx, ports, cs, todo[k], groups[todo[k]], results[k].value, done);
        done := done + [todo[k]];
      }
    }
  }

  /** Which documents to summarise, from which chunks, and which summaries are stale. */
  method PlanSummaries(cs: seq<Chunk>, cfg: Config, ran: bool, changed: set<string>)
    returns (todo: seq<string>, groups: map<string, seq<nat>>, stale: set<Id>)
    requires cfg.chunkThreshold >= 1
    ensures NoDuplicates(todo) && forall d :: d in todo <==> Qualifies(cs, cfg, ran, changed, d)
    ensures forall k :: 0 <= k < |todo| ==> todo[k] in groups && groups[todo[k]] != [] && WholeGroup(cs, false, todo[k], groups[todo[k]])
    ensures stale == if ran then StaleSummaries(cs, cfg, changed) else {}
  {
    var order;
    order, groups := GroupByDocument(cs, false);
    todo, stale := Triage(cs, cfg, ran, changed, order, groups);
    CountedInOrder(cs, cfg, order, groups);
    WholeGroups(cs, order, groups, todo);
  }

  /** After the chunks `cs` come the summaries of `done`, documents that qualify; all of them, if complete. */
  ghost predicate SummariesAdded(services: Services, cfg: Config, cs: seq<Chunk>, ds: seq<Chunk>, done: seq<string>, summaries: map<string, string>,
                                 earlier: set<string>, ran: bool, changed: set<string>, complete: bool)
  {
    && Applied(cs, ds, done, summaries, services.embed) && Summarised(services, cfg, cs, done, summaries, earlier)
    && (forall d :: d in done ==> Qualifies(cs, cfg, ran, changed, d))
    && (complete ==> forall d :: Qualifies(cs, cfg, ran, changed, d) ==> d in done)
  }

  method DocumentSummary(ctx: Context, ports: Ports, cfg: Config) returns (ghost done: seq<string>)
    requires cfg.chunkThreshold >= 1
    modifies ctx`chunks, ctx`errors, ctx`orphanIds, ctx`documentSummaries
    modifies ports`faults, ports`embedCalls, ports`llmCalls
    ensures old(ctx.errors) <= ctx.errors
    ensures SummariesAdded(ports.services, cfg, old(ctx.chunks), ctx.chunks, done, ctx.documentSummaries, old(ctx.documentSummaries).Keys,
                           ctx.changeDetectionRan, ctx.changedDocumentIds, ctx.errors == old(ctx.errors))
    ensures ctx.orphanIds == old(ctx.orphanIds)
              + if ctx.changeDetectionRan then StaleSummaries(old(ctx.chunks), cfg, ctx.changedDocumentIds) else {}
    ensures ctx.changeDetectionRan && ctx.changedDocumentIds == {} ==>
              ctx.chunks == old(ctx.chunks) && ctx.errors == old(ctx.errors) && ports.faults == old(ports.faults)
              && ports.embedCalls == old(ports.embedCalls) && ports.llmCalls == old(ports.llmCalls)
    ensures NoFaults(old(ports.faults)) && NeverBlank(ports.services) ==> ctx.errors == old(ctx.errors)
    ensures NoFaults(old(ports.faults)) ==> NoFaults(ports.faults)
  {
    var cs := ctx.chunks;
    var todo, groups, stale := PlanSummaries(cs, cfg, ctx.changeDetectionRan, ctx.changedDocumentIds);
    if todo != [] { assert todo[0] in todo; }
    ctx.orphanIds := ctx.orphanIds + stale;
    var results := SummarizeDocuments(ports, cfg, cs, todo, groups);
    done := ApplySummaries(ctx, ports, cfg, cs, todo, groups, results);
  }

  lemma CountedInOrder(cs: seq<Chunk>, cfg: Config, order: seq<string>, groups: map<string, seq<nat>>)
    requires Grouped(cs, |cs|, false, order, groups) && IsCounted(cs, false, groups)
    ensures forall d :: Count(cs, false, d) > 0 ==> d in order
  {
    forall d | Count(cs, false, d) > 0 ensures d in order { assert d in groups; }
  }
}
