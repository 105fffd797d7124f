/** Change detection: which stored entries are unchanged, orphaned or of removed documents. */
module Detection {
  import opened Wrappers
  import opened Corpus
  import opened Ports
  import opened IngestContext

  // ----- grouping by document

  predicate Selected(c: Chunk, contentOnly: bool) {
    contentOnly ==> IsContent(c.meta.embeddingType)
  }

  predicate InGroup(cs: seq<Chunk>, contentOnly: bool, d: string, i: nat) {
    i < |cs| && Selected(cs[i], contentOnly) && cs[i].meta.documentId == d
  }

  /** How many of the selected chunks belong to a document. */
  function Count(cs: seq<Chunk>, contentOnly: bool, d: string): nat {
    if cs == [] then 0
    else
      var last := cs[|cs| - 1];
      Count(cs[..|cs| - 1], contentOnly, d) + if Selected(last, contentOnly) && last.meta.documentId == d then 1 else 0
  }

  lemma CountStep(cs: seq<Chunk>, n: nat, contentOnly: bool, d: string)
    requires n < |cs|
    ensures Count(cs[..n + 1], contentOnly, d) == Count(cs[..n], contentOnly, d)
              + if Selected(cs[n], contentOnly) && cs[n].meta.documentId == d then 1 else 0
  {
    assert cs[..n + 1][..n] == cs[..n];
  }

  /** The positions of each document's chunks, documents in order of first appearance. */
  predicate IsGrouping(cs: seq<Chunk>, n: nat, contentOnly: bool, order: seq<string>, groups: map<string, seq<nat>>)
    requires n <= |cs|
  {
    && (forall k :: 0 <= k < |order| ==> order[k] in groups)
    && (forall d :: d in groups ==> d in order && groups[d] != [])
    && (forall d, j :: d in groups && 0 <= j < |groups[d]| ==> groups[d][j] < n && InGroup(cs, contentOnly, d, groups[d][j]))
    && (forall i :: 0 <= i < n && Selected(cs[i], contentOnly) ==>
          cs[i].meta.documentId in groups && i in groups[cs[i].meta.documentId])
  }

  ghost predicate IsCounted(cs: seq<Chunk>, contentOnly: bool, groups: map<string, seq<nat>>) {
    forall d :: Count(cs, contentOnly, d) == if d in groups then |groups[d]| else 0
  }

  function AddToGroup(groups: map<string, seq<nat>>, d: string, n: nat): map<string, seq<nat>> {
    groups[d := (if d in groups then groups[d] else []) + [n]]
  }

  lemma GroupingStep(cs: seq<Chunk>, n: nat, contentOnly: bool, order: seq<string>, groups: map<string, seq<nat>>)
    requires n < |cs| && IsGrouping(cs, n, contentOnly, order, groups) && Selected(cs[n], contentOnly)
    ensures var d := cs[n].meta.documentId;
      IsGrouping(cs, n + 1, contentOnly, if d in groups then order else order + [d], AddToGroup(groups, d, n))
  {
    var d := cs[n].meta.documentId;
    var more := AddToGroup(groups, d, n);
    forall i | 0 <= i < n + 1 && Selected(cs[i], contentOnly)
      ensures cs[i].meta.documentId in more && i in more[cs[i].meta.documentId]
    {
      if i == n { assert more[d][|more[d]| - 1] == n; }
    }
  }

  lemma CountedStep(cs: seq<Chunk>, n: nat, contentOnly: bool, groups: map<string, seq<nat>>)
    requires n < |cs| && IsCounted(cs[..n], contentOnly, groups)
    ensures IsCounted(cs[..n + 1], contentOnly,
                      if Selected(cs[n], contentOnly) then AddToGroup(groups, cs[n].meta.documentId, n) else groups)
  {
    forall d { CountStep(cs, n, contentOnly, d); }
  }

  ghost predicate InOrder(groups: map<string, seq<nat>>) {
    forall d, a, b :: d in groups && 0 <= a < b < |groups[d]| ==> groups[d][a] < groups[d][b]
  }

  lemma InOrderStep(cs: seq<Chunk>, n: nat, contentOnly: bool, order: seq<string>, groups: map<string, seq<nat>>, d: string)
    requires n < |cs| && IsGrouping(cs, n, contentOnly, order, groups) && InOrder(groups)
    ensures InOrder(AddToGroup(groups, d, n))
  {}

  /** All positions of a document's selected chunks, in order. */
  ghost predicate WholeGroup(cs: seq<Chunk>, contentOnly: bool, d: string, group: seq<nat>) {
    && (forall a, b :: 0 <= a < b < |group| ==> group[a] < group[b])
    && (forall i :: i in group ==> InGroup(cs, contentOnly, d, i))
    && (forall i :: 0 <= i < |cs| && Selected(cs[i], contentOnly) && cs[i].meta.documentId == d ==> i in group)
  }

  lemma GroupIsWhole(cs: seq<Chunk>, contentOnly: bool, order: seq<string>, groups: map<string, seq<nat>>, d: string)
    requires Grouped(cs, |cs|, contentOnly, order, groups) && d in groups
    ensures WholeGroup(cs, contentOnly, d, groups[d])
  {}

  ghost predicate Grouped(cs: seq<Chunk>, n: nat, contentOnly: bool, order: seq<string>, groups: map<string, seq<nat>>)
    requires n <= |cs|
  {
    IsGrouping(cs, n, contentOnly, order, groups) && NoDuplicates(order) && IsCounted(cs[..n], contentOnly, groups) && InOrder(groups)
  }

  lemma GroupedSkip(cs: seq<Chunk>, n: nat, contentOnly: bool, order: seq<string>, groups: map<string, seq<nat>>)
    requires n < |cs| && Grouped(cs, n, contentOnly, order, groups) && !Selected(cs[n], contentOnly)
    ensures Grouped(cs, n + 1, contentOnly, order, groups)
  {
    CountedStep(cs, n, contentOnly, groups);
  }

  lemma GroupedStep(cs: seq<Chunk>, n: nat, contentOnly: bool, order: seq<string>, groups: map<string, seq<nat>>)
    requires n < |cs| && Grouped(cs, n, contentOnly, order, groups) && Selected(cs[n], contentOnly)
    ensures var d := cs[n].meta.documentId;
      Grouped(cs, n + 1, contentOnly, if d in groups then order else order + [d], AddToGroup(groups, d, n))
  {
    InOrderStep(cs, n, contentOnly, order, groups, cs[n].meta.documentId);
    CountedStep(cs, n, contentOnly, groups);
    GroupingStep(cs, n, contentOnly, order, groups);
  }

  method GroupByDocument(cs: seq<Chunk>, contentOnly: bool) returns (order: seq<string>, groups: map<string, seq<nat>>)
    ensures Grouped(cs, |cs|, contentOnly, order, groups)
    ensures IsCounted(cs, contentOnly, groups)
  {
    order, groups := [], map[];
    for n := 0 to |cs|
      invariant Grouped(cs, n, contentOnly, order, groups)
    {
      if Selected(cs[n], contentOnly) {
        GroupedStep(cs, n, contentOnly, order, groups);
        var d := cs[n].meta.documentId;
        if d !in groups { order := order + [d]; }
        groups := AddToGroup(groups, d, n);
      } else {
        GroupedSkip(cs, n, contentOnly, order, groups);
      }
    }
    TakeAll(cs);
  }

  // ----- ChangeDetectionStep

  /** The chunk's fingerprint is stored under its own document. */
  predicate IsStored(c: Chunk, s: Store) {
    && IsContent(c.meta.embeddingType) && c.hash.Some? && c.hash.value in s
    && s[c.hash.value].documentId == c.meta.documentId
  }

  predicate IsFresh(c: Chunk, s: Store) {
    IsContent(c.meta.embeddingType) && c.hash.Some? && !IsStored(c, s)
  }

  ghost predicate HashedBy(cs: seq<Chunk>, d: string, id: Id) {
    exists c :: c in cs && IsContent(c.meta.embeddingType) && c.meta.documentId == d && c.hash == Some(id)
  }

  ghost function ContentDocuments(cs: seq<Chunk>): set<string> {
    set c | c in cs && IsContent(c.meta.embeddingType) :: c.meta.documentId
  }

  ghost predicate IsOrphan(cs: seq<Chunk>, s: Store, id: Id) {
    id in s && !HashedBy(cs, s[id].documentId, id)
  }

  ghost function Orphans(cs: seq<Chunk>, s: Store, docs: set<string>): set<Id> {
    set id | id in s && s[id].documentId in docs && IsOrphan(cs, s, id)
  }

  ghost function Unchanged(cs: seq<Chunk>, s: Store, docs: set<string>): set<Id> {
    set c | c in cs && c.meta.documentId in docs && IsStored(c, s) :: c.hash.value
  }

  ghost predicate IsChanged(cs: seq<Chunk>, s: Store, d: string) {
    || (exists c :: c in cs && c.meta.documentId == d && IsFresh(c, s))
    || (exists id :: id in s && s[id].documentId == d && IsOrphan(cs, s, id))
  }

  ghost function Changed(cs: seq<Chunk>, s: Store, docs: set<string>): set<string> {
    set d | d in docs && IsChanged(cs, s, d)
  }

  function Preload(c: Chunk, s: Store, wanted: bool): Chunk {
    if wanted && IsStored(c, s) then c.(embedding := Some(s[c.hash.value].embedding)) else c
  }

  predicate Preloaded(cs: seq<Chunk>, ds: seq<Chunk>, s: Store, docs: set<string>) {
    |cs| == |ds| && forall i :: 0 <= i < |cs| ==> ds[i] == Preload(cs[i], s, cs[i].meta.documentId in docs)
  }

  /** The ids of documents the store holds passages of. */
  function StoredDocuments(s: Store): set<string> {
    set id | id in s && IsPassage(s[id]) && s[id].documentId != "" :: s[id].documentId
  }

  // What a walk over the chunks `picked` of one document collects.

  ghost function HashesOf(picked: seq<Chunk>): set<Id> {
    set c | c in picked && c.hash.Some? :: c.hash.value
  }

  ghost function StoredOf(picked: seq<Chunk>, s: Store): set<Id> {
    set c | c in picked && IsStored(c, s) :: c.hash.value
  }

  ghost predicate AnyFresh(picked: seq<Chunk>, s: Store) {
    exists c :: c in picked && IsFresh(c, s)
  }

  lemma PickOne(picked: seq<Chunk>, c: Chunk, s: Store)
    ensures HashesOf(picked + [c]) == HashesOf(picked) + (if c.hash.Some? then {c.hash.value} else {})
    ensures StoredOf(picked + [c], s) == StoredOf(picked, s) + (if IsStored(c, s) then {c.hash.value} else {})
    ensures AnyFresh(picked + [c], s) <==> AnyFresh(picked, s) || IsFresh(c, s)
  {
    if IsFresh(c, s) { assert c in picked + [c]; }
    if AnyFresh(picked, s) {
      var f :| f in picked && IsFresh(f, s);
      assert f in picked + [c];
    }
  }

  ghost predicate IsDocumentOf(cs: seq<Chunk>, d: string, picked: seq<Chunk>) {
    forall c :: c in picked <==> c in cs && IsContent(c.meta.embeddingType) && c.meta.documentId == d
  }

  lemma PickedDocument(cs: seq<Chunk>, d: string, picked: seq<Chunk>, s: Store, existing: set<Id>)
    requires IsDocumentOf(cs, d, picked)
    requires existing == set id | id in s && s[id].documentId == d
    ensures StoredOf(picked, s) == Unchanged(cs, s, {d})
    ensures existing - HashesOf(picked) == Orphans(cs, s, {d})
    ensures Changed(cs, s, {d}) == if AnyFresh(picked, s) || existing - HashesOf(picked) != {} then {d} else {}
  {
    forall id | id in existing
      ensures id in HashesOf(picked) <==> HashedBy(cs, d, id)
    {
      if HashedBy(cs, d, id) {
        var c :| c in cs && IsContent(c.meta.embeddingType) && c.meta.documentId == d && c.hash == Some(id);
        assert c in picked;
      }
    }
    var orphans := existing - HashesOf(picked);
    assert orphans == Orphans(cs, s, {d});
    if orphans != {} {
      var id :| id in orphans;
      assert IsOrphan(cs, s, id);
    }
    if AnyFresh(picked, s) {
      var c :| c in picked && IsFresh(c, s);
      assert c in cs;
    }
    if IsChanged(cs, s, d) && !AnyFresh(picked, s) {
      assert forall c :: c in cs && c.meta.documentId == d && IsFresh(c, s) ==> c in picked;
      var id :| id in s && s[id].documentId == d && IsOrphan(cs, s, id);
      assert id in orphans;
    }
  }

  /** Every chunk of the documents `done`, and every chunk at `positions`, is preloaded. */
  predicate PartlyPreloaded(cs: seq<Chunk>, ds: seq<Chunk>, s: Store, done: set<string>, positions: seq<nat>) {
    |cs| == |ds| && forall i :: 0 <= i < |cs| ==>
      ds[i] == Preload(cs[i], s, cs[i].meta.documentId in done || i in positions)
  }

  predicate IsPick(cs: seq<Chunk>, positions: seq<nat>, picked: seq<Chunk>) {
    |picked| == |positions| && forall k :: 0 <= k < |positions| ==> positions[k] < |cs| && picked[k] == cs[positions[k]]
  }

  /** One chunk already stored keeps its vector; any other marks its document as changed. */
  method DetectChunk(ctx: Context, cs: seq<Chunk>, i: nat, s: Store, d: string, existing: set<Id>)
    returns (hashes: set<Id>)
    requires existing == set id | id in s && s[id].documentId == d
    requires InGroup(cs, true, d, i) && i < |ctx.chunks| && ctx.chunks[i].(embedding := None) == cs[i].(embedding := None)
    modifies ctx`chunks, ctx`unchangedHashes, ctx`changedDocumentIds
    ensures hashes == if cs[i].hash.Some? then {cs[i].hash.value} else {}
    ensures ctx.chunks == old(ctx.chunks)[i := if IsStored(cs[i], s) then Preload(cs[i], s, true) else old(ctx.chunks)[i]]
    ensures ctx.unchangedHashes == old(ctx.unchangedHashes) + if IsStored(cs[i], s) then {cs[i].hash.value} else {}
    ensures ctx.changedDocumentIds == old(ctx.changedDocumentIds) + if IsFresh(cs[i], s) then {d} else {}
  {
    hashes := {};
    if cs[i].hash.Some? {
      var h := cs[i].hash.value;
      hashes := {h};
      if h in existing {
        ctx.chunks := ctx.chunks[i := ctx.chunks[i].(embedding := Some(s[h].embedding))];
        ctx.unchangedHashes := ctx.unchangedHashes + {h};
      } else {
        ctx.changedDocumentIds := ctx.changedDocumentIds + {d};
      }
    }
  }

  /** The walk itself: reuse the stored vector of every chunk already stored. */
  method DetectChunks(ctx: Context, cs: seq<Chunk>, s: Store, d: string, existing: set<Id>, group: seq<nat>, ghost done: set<string>)
    returns (newHashes: set<Id>, ghost picked: seq<Chunk>)
    requires existing == set id | id in s && s[id].documentId == d
    requires forall j :: 0 <= j < |group| ==> InGroup(cs, true, d, group[j])
    requires Preloaded(cs, ctx.chunks, s, done)
    modifies ctx`chunks, ctx`unchangedHashes, ctx`changedDocumentIds
    ensures IsPick(cs, group, picked)
    ensures PartlyPreloaded(cs, ctx.chunks, s, done, group)
    ensures newHashes == HashesOf(picked)
    ensures ctx.unchangedHashes == old(ctx.unchangedHashes) + StoredOf(picked, s)
    ensures ctx.changedDocumentIds == old(ctx.changedDocumentIds) + if AnyFresh(picked, s) then {d} else {}
  {
    newHashes, picked := {}, [];
    for j := 0 to |group|
      invariant Walked(cs, ctx.chunks, s, done, group[..j], picked, newHashes)
      invariant ctx.unchangedHashes == old(ctx.unchangedHashes) + StoredOf(picked, s)
      invariant ctx.changedDocumentIds == old(ctx.changedDocumentIds) + if AnyFresh(picked, s) then {d} else {}
    {
      var i := group[j];
      ghost var before := ctx.chunks;
      PickOne(picked, cs[i], s);
      var hashes := DetectChunk(ctx, cs, i, s, d, existing);
      WalkedStep(cs, before, s, done, group[..j], picked, newHashes, i);
      TakeStep(group, j);
      newHashes, picked := newHashes + hashes, picked + [cs[i]];
    }
    TakeAll(group);
  }

  /** The chunks at `positions` have been walked over: they were `picked`. */
  ghost predicate Walked(cs: seq<Chunk>, ds: seq<Chunk>, s: Store, done: set<string>, positions: seq<nat>, picked: seq<Chunk>, hashes: set<Id>) {
    IsPick(cs, positions, picked) && PartlyPreloaded(cs, ds, s, done, positions) && hashes == HashesOf(picked)
  }

  lemma WalkedStep(cs: seq<Chunk>, ds: seq<Chunk>, s: Store, done: set<string>, positions: seq<nat>, picked: seq<Chunk>, hashes: set<Id>, i: nat)
    requires Walked(cs, ds, s, done, positions, picked, hashes) && i < |cs|
    ensures Walked(cs, ds[i := if IsStored(cs[i], s) then Preload(cs[i], s, true) else ds[i]], s, done, positions + [i],
                   picked + [cs[i]], hashes + if cs[i].hash.Some? then {cs[i].hash.value} else {})
  {
    PickOne(picked, cs[i], s);
    PreloadPosition(cs, ds, s, done, positions, i);
    PickExtend(cs, positions, picked, i);
  }

  lemma PickExtend(cs: seq<Chunk>, positions: seq<nat>, picked: seq<Chunk>, i: nat)
    requires IsPick(cs, positions, picked) && i < |cs|
    ensures IsPick(cs, positions + [i], picked + [cs[i]])
  {}

  lemma PreloadPosition(cs: seq<Chunk>, ds: seq<Chunk>, s: Store, done: set<string>, positions: seq<nat>, i: nat)
    requires PartlyPreloaded(cs, ds, s, done, positions) && i < |cs|
    ensures PartlyPreloaded(cs, ds[i := if IsStored(cs[i], s) then Preload(cs[i], s, true) else ds[i]], s, done, positions + [i])
  {}

  method DetectDocument(ctx: Context, cs: seq<Chunk>, s: Store, d: string, group: seq<nat>, ghost done: set<string>)
    requires forall j :: 0 <= j < |group| ==> InGroup(cs, true, d, group[j])
    requires forall i :: InGroup(cs, true, d, i) ==> i in group
    requires Preloaded(cs, ctx.chunks, s, done)
    modifies ctx`chunks, ctx`unchangedHashes, ctx`orphanIds, ctx`changedDocumentIds
    ensures Preloaded(cs, ctx.chunks, s, done + {d})
    ensures ctx.unchangedHashes == old(ctx.unchangedHashes) + Unchanged(cs, s, {d})
    ensures ctx.orphanIds == old(ctx.orphanIds) + Orphans(cs, s, {d})
    ensures ctx.changedDocumentIds == old(ctx.changedDocumentIds) + Changed(cs, s, {d})
  {
    var existing := set id | id in s && s[id].documentId == d;
    var newHashes;
    ghost var picked;
    newHashes, picked := DetectChunks(ctx, cs, s, d, existing, group, done);
    DocumentPicked(cs, ctx.chunks, s, d, group, picked, done, existing);
    var orphans := existing - newHashes;
    if orphans != {} { ctx.changedDocumentIds := ctx.changedDocumentIds + {d}; }
    ctx.orphanIds := ctx.orphanIds + orphans;
  }

  lemma GroupPreloads(cs: seq<Chunk>, ds: seq<Chunk>, s: Store, d: string, group: seq<nat>, done: set<string>)
    requires forall j :: 0 <= j < |group| ==> InGroup(cs, true, d, group[j])
    requires forall i :: InGroup(cs, true, d, i) ==> i in group
    requires PartlyPreloaded(cs, ds, s, done, group)
    ensures Preloaded(cs, ds, s, done + {d})
  {}

  /** A whole group walked through is the whole document dealt with. */
  lemma DocumentPicked(cs: seq<Chunk>, ds: seq<Chunk>, s: Store, d: string, group: seq<nat>, picked: seq<Chunk>, done: set<string>, existing: set<Id>)
    requires forall j :: 0 <= j < |group| ==> InGroup(cs, true, d, group[j])
    requires forall i :: InGroup(cs, true, d, i) ==> i in group
    requires IsPick(cs, group, picked) && PartlyPreloaded(cs, ds, s, done, group)
    requires existing == set id | id in s && s[id].documentId == d
    ensures Preloaded(cs, ds, s, done + {d})
    ensures StoredOf(picked, s) == Unchanged(cs, s, {d})
    ensures existing - HashesOf(picked) == Orphans(cs, s, {d})
    ensures Changed(cs, s, {d}) == if AnyFresh(picked, s) || existing - HashesOf(picked) != {} then {d} else {}
  {
    GroupPreloads(cs, ds, s, d, group, done);
    PickedIsDocument(cs, d, group, picked);
    PickedDocument(cs, d, picked, s, existing);
  }

  lemma PickedIsDocument(cs: seq<Chunk>, d: string, group: seq<nat>, picked: seq<Chunk>)
    requires forall j :: 0 <= j < |group| ==> InGroup(cs, true, d, group[j])
    requires forall i :: InGroup(cs, true, d, i) ==> i in group
    requires IsPick(cs, group, picked)
    ensures IsDocumentOf(cs, d, picked)
  {
    forall c ensures c in picked <==> c in cs && IsContent(c.meta.embeddingType) && c.meta.documentId == d {
      if c in picked {
        var j :| 0 <= j < |picked| && picked[j] == c;
        assert InGroup(cs, true, d, group[j]);
      }
      if c in cs && IsContent(c.meta.embeddingType) && c.meta.documentId == d {
        var i :| 0 <= i < |cs| && cs[i] == c;
        assert InGroup(cs, true, d, i);
        var j :| 0 <= j < |group| && group[j] == i;
        assert picked[j] == c;
      }
    }
  }

  ghost function AllChunksReset(cs: seq<Chunk>): seq<Chunk> {
    seq(|cs|, i requires 0 <= i < |cs| =>
      if IsContent(cs[i].meta.embeddingType) then cs[i].(embedding := None) else cs[i])
  }

  /** The chunks differ at most in embeddings of content. */
  predicate SameChunks(cs: seq<Chunk>, ds: seq<Chunk>) {
    |cs| == |ds| && forall i :: 0 <= i < |cs| ==>
      if IsContent(cs[i].meta.embeddingType) then cs[i].(embedding := None) == ds[i].(embedding := None) else cs[i] == ds[i]
  }

  lemma UnionStep(cs: seq<Chunk>, s: Store, done: set<string>, d: string)
    ensures Unchanged(cs, s, done + {d}) == Unchanged(cs, s, done) + Unchanged(cs, s, {d})
    ensures Orphans(cs, s, done + {d}) == Orphans(cs, s, done) + Orphans(cs, s, {d})
    ensures Changed(cs, s, done + {d}) == Changed(cs, s, done) + Changed(cs, s, {d})
  {}

  lemma PreloadedSame(cs: seq<Chunk>, ds: seq<Chunk>, s: Store, docs: set<string>)
    requires Preloaded(cs, ds, s, docs)
    ensures SameChunks(cs, ds)
  {}

  /** What change detection establishes when every read of the store succeeds. */
  ghost predicate Detected(cs: seq<Chunk>, ctx: Context, s: Store, live: set<string>)
    reads ctx
  {
    var docs := ContentDocuments(cs);
    && Preloaded(cs, ctx.chunks, s, docs)
    && ctx.unchangedHashes == Unchanged(cs, s, docs)
    && ctx.orphanIds == Orphans(cs, s, docs)
    && ctx.changedDocumentIds == Changed(cs, s, docs)
    && ctx.removedDocumentIds == StoredDocuments(s) - (if live != {} then live else docs)
    && ctx.changeDetectionRan
  }

  lemma GroupingCovers(cs: seq<Chunk>, order: seq<string>, groups: map<string, seq<nat>>, d: string)
    requires IsGrouping(cs, |cs|, true, order, groups) && d in groups
    ensures forall j :: 0 <= j < |groups[d]| ==> InGroup(cs, true, d, groups[d][j])
    ensures forall i :: InGroup(cs, true, d, i) ==> i in groups[d]
  {}

  lemma GroupingDocuments(cs: seq<Chunk>, order: seq<string>, groups: map<string, seq<nat>>)
    requires IsGrouping(cs, |cs|, true, order, groups)
    ensures (set k | 0 <= k < |order| :: order[k]) == ContentDocuments(cs)
  {
    forall d | d in ContentDocuments(cs) ensures d in order {
      var c :| c in cs && IsContent(c.meta.embeddingType) && c.meta.documentId == d;
      var i :| 0 <= i < |cs| && cs[i] == c;
      assert Selected(cs[i], true);
    }
    forall d | d in order ensures d in ContentDocuments(cs) {
      assert d in groups;
      assert InGroup(cs, true, d, groups[d][0]);
      assert cs[groups[d][0]] in cs;
    }
  }

  ghost function SetOf(order: seq<string>, k: nat): set<string>
    requires k <= |order|
  {
    set j | 0 <= j < k :: order[j]
  }

  lemma SetOfStep(order: seq<string>, k: nat)
    requires k < |order|
    ensures SetOf(order, k + 1) == SetOf(order, k) + {order[k]}
  {}

  method Detect(ctx: Context, ports: Ports) returns (ok: bool)
    requires ctx.unchangedHashes == {} && ctx.orphanIds == {} && ctx.changedDocumentIds == {}
    modifies ctx`chunks, ctx`unchangedHashes, ctx`orphanIds, ctx`removedDocumentIds, ctx`changedDocumentIds, ctx`changeDetectionRan
    modifies ports`faults
    ensures SameChunks(old(ctx.chunks), ctx.chunks)
    ensures ok ==> Detected(old(ctx.chunks), ctx, ports.entries, ctx.allDocumentIds)
    ensures !ok ==> ctx.changeDetectionRan == old(ctx.changeDetectionRan)
    ensures NoFaults(old(ports.faults)) ==> ok && NoFaults(ports.faults)
  {
    var cs, s := ctx.chunks, ports.entries;
    var order, groups := GroupByDocument(cs, true);
    GroupingDocuments(cs, order, groups);
    var all := ports.Read();
    if all.None? { return false; }
    var current := set k | 0 <= k < |order| :: order[k];
    ctx.removedDocumentIds := StoredDocuments(all.value) - (if ctx.allDocumentIds != {} then ctx.allDocumentIds else current);
    for k := 0 to |order|
      modifies ctx`chunks, ctx`unchangedHashes, ctx`orphanIds, ctx`changedDocumentIds, ports`faults
      invariant Preloaded(cs, ctx.chunks, s, SetOf(order, k))
      invariant ctx.unchangedHashes == Unchanged(cs, s, SetOf(order, k))
      invariant ctx.orphanIds == Orphans(cs, s, SetOf(order, k))
      invariant ctx.changedDocumentIds == Changed(cs, s, SetOf(order, k))
      invariant NoFaults(old(ports.faults)) ==> NoFaults(ports.faults)
    {
      var existing := ports.Read();
      if existing.None? {
        PreloadedSame(cs, ctx.chunks, s, SetOf(order, k));
        return false;
      }
      GroupingCovers(cs, order, groups, order[k]);
      UnionStep(cs, s, SetOf(order, k), order[k]);
      SetOfStep(order, k);
      DetectDocument(ctx, cs, existing.value, order[k], groups[order[k]], SetOf(order, k));
    }
    PreloadedSame(cs, ctx.chunks, s, SetOf(order, |order|));
    ctx.changeDetectionRan := true;
    return true;
  }

  /** A failed read treats every chunk as new and leaves nothing to delete. */
  method ChangeDetection(ctx: Context, ports: Ports)
    requires ctx.unchangedHashes == {} && ctx.orphanIds == {} && ctx.changedDocumentIds == {}
    requires ctx.removedDocumentIds == {} && !ctx.changeDetectionRan
    modifies ctx`chunks, ctx`unchangedHashes, ctx`orphanIds, ctx`removedDocumentIds, ctx`changedDocumentIds, ctx`changeDetectionRan
    modifies ctx`errors, ports`faults
    ensures ctx.errors == old(ctx.errors) ==> Detected(old(ctx.chunks), ctx, ports.entries, ctx.allDocumentIds)
    ensures ctx.errors != old(ctx.errors) ==>
              && ctx.errors == old(ctx.errors) + [StoreReadFailed]
              && ctx.chunks == AllChunksReset(old(ctx.chunks)) && !ctx.changeDetectionRan
              && ctx.unchangedHashes == {} && ctx.orphanIds == {}
              && ctx.changedDocumentIds == {} && ctx.removedDocumentIds == {}
    ensures NoFaults(old(ports.faults)) ==> NoFaults(ports.faults) && ctx.errors == old(ctx.errors)
  {
    var ok := Detect(ctx, ports);
    if !ok {
      ctx.errors := ctx.errors + [StoreReadFailed];
      ctx.unchangedHashes, ctx.orphanIds, ctx.removedDocumentIds, ctx.changedDocumentIds := {}, {}, {}, {};
      ghost var ds := ctx.chunks;
      for i := 0 to |ctx.chunks|
        modifies ctx`chunks
        invariant |ctx.chunks| == |ds|
        invariant forall j :: 0 <= j < |ds| ==>
                    ctx.chunks[j] == if j < i && IsContent(ds[j].meta.embeddingType) then ds[j].(embedding := None) else ds[j]
      {
        if IsContent(ctx.chunks[i].meta.embeddingType) {
          ctx.chunks := ctx.chunks[i := ctx.chunks[i].(embedding := None)];
        }
      }
    }
  }
}
