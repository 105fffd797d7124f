/** The two steps that change the store on purpose: upserting chunks and the final sweep. */
module Storing {
  import opened Wrappers
  import opened Corpus
  import opened Ports
  import opened IngestContext

  predicate IsSkipped(c: Chunk, kept: set<Id>) {
    c.hash.Some? && c.hash.value in kept
  }

  function ChunkIds(cs: seq<Chunk>): set<Id> {
    set i | 0 <= i < |cs| :: StorageId(cs[i])
  }

  /** One write per id, the last chunk with that id winning. */
  predicate LastWins(batch: seq<Chunk>, writes: Store) {
    && writes.Keys == ChunkIds(batch)
    && forall id :: id in writes ==> exists j :: 0 <= j < |batch| && IsLast(batch, j, id) && writes[id] == EntryOf(batch[j])
  }

  predicate IsLast(batch: seq<Chunk>, j: nat, id: Id)
    requires j < |batch|
  {
    batch[j].embedding.Some? && StorageId(batch[j]) == id && forall k :: j < k < |batch| ==> StorageId(batch[k]) != id
  }

  method Deduplicate(batch: seq<Chunk>) returns (writes: Store)
    requires forall j :: 0 <= j < |batch| ==> batch[j].embedding.Some?
    ensures LastWins(batch, writes)
  {
    var seen: map<Id, nat> := map[];
    for k := 0 to |batch|
      invariant seen.Keys == ChunkIds(batch[..k])
      invariant forall id :: id in seen ==> seen[id] < k && IsLast(batch[..k], seen[id], id)
    {
      var id := StorageId(batch[k]);
      LastStep(batch, k, seen);
      seen := seen[id := k];
    }
    TakeAll(batch);
    writes := map id | id in seen :: EntryOf(batch[seen[id]]);
  }

  lemma LastStep(batch: seq<Chunk>, k: nat, seen: map<Id, nat>)
    requires k < |batch| && batch[k].embedding.Some?
    requires seen.Keys == ChunkIds(batch[..k])
    requires forall id :: id in seen ==> seen[id] < k && IsLast(batch[..k], seen[id], id)
    ensures ChunkIds(batch[..k + 1]) == ChunkIds(batch[..k]) + {StorageId(batch[k])}
    ensures IsLast(batch[..k + 1], k, StorageId(batch[k]))
    ensures forall id :: id in seen && id != StorageId(batch[k]) ==> IsLast(batch[..k + 1], seen[id], id)
  {
    TakeStep(batch, k);
    var more := batch[..k + 1];
    assert more[k] == batch[k] && forall j :: 0 <= j < k ==> more[j] == batch[..k][j];
    forall id | id in ChunkIds(batch[..k]) ensures id in ChunkIds(more) {
      var j :| 0 <= j < k && StorageId(batch[..k][j]) == id;
      assert StorageId(more[j]) == id;
    }
    assert StorageId(more[k]) in ChunkIds(more);
  }

  lemma WritesAreSound(batch: seq<Chunk>, writes: Store, embed: string -> Vector)
    requires LastWins(batch, writes) && AllReady(batch, embed)
    ensures WellFormed(writes, embed)
  {
    forall id | id in writes ensures IsSound(id, writes[id], embed) {
      var j :| 0 <= j < |batch| && IsLast(batch, j, id) && writes[id] == EntryOf(batch[j]);
      ReadyIsSound(batch[j], embed);
    }
  }

  /** Under the id is one of the chunks with that id. */
  predicate Written(cs: seq<Chunk>, s: Store, id: Id) {
    id in s && exists k :: 0 <= k < |cs| && cs[k].embedding.Some? && StorageId(cs[k]) == id && s[id] == EntryOf(cs[k])
  }

  lemma WritesWritten(batch: seq<Chunk>, writes: Store, s: Store)
    requires LastWins(batch, writes) && forall id :: id in writes ==> id in s && s[id] == writes[id]
    ensures forall id :: id in ChunkIds(batch) ==> Written(batch, s, id)
  {
    forall id | id in ChunkIds(batch) ensures Written(batch, s, id) {
      var j :| 0 <= j < |batch| && IsLast(batch, j, id) && writes[id] == EntryOf(batch[j]);
    }
  }

  /** Writing one more slice keeps what was written before, or writes over it. */
  lemma WrittenStep(cs: seq<Chunk>, before: Store, after: Store, i: nat, end: nat, embed: string -> Vector)
    requires i <= end <= |cs| && Wrote(before, after, ChunkIds(cs[i..end]), embed)
    requires forall j :: 0 <= j < i ==> Written(cs, before, StorageId(cs[j]))
    requires forall id :: id in ChunkIds(cs[i..end]) ==> Written(cs[i..end], after, id)
    ensures forall j :: 0 <= j < end ==> Written(cs, after, StorageId(cs[j]))
  {
    SliceIds(cs, i, end);
    forall j | 0 <= j < end ensures Written(cs, after, StorageId(cs[j])) {
      var id := StorageId(cs[j]);
      if id in ChunkIds(cs[i..end]) {
        var k :| 0 <= k < |cs[i..end]| && cs[i..end][k].embedding.Some? && StorageId(cs[i..end][k]) == id && after[id] == EntryOf(cs[i..end][k]);
        assert cs[i + k] == cs[i..end][k];
      } else {
        assert Written(cs, before, id) && after[id] == before[id];
      }
    }
  }

  /** What a batch of writes, or several, leaves of the store. */
  predicate Wrote(before: Store, after: Store, ids: set<Id>, embed: string -> Vector) {
    && WellFormed(after, embed) && before.Keys <= after.Keys <= before.Keys + ids
    && forall id :: id in before && id !in ids ==> after[id] == before[id]
  }

  method StoreBatch(ctx: Context, ports: Ports, batch: seq<Chunk>, number: nat)
    requires AllReady(batch, ports.services.embed) && forall j :: 0 <= j < |batch| ==> batch[j].embedding.Some?
    requires WellFormed(ports.entries, ports.services.embed)
    modifies ctx`errors, ports`faults, ports`entries, ports`writeCalls
    ensures Wrote(old(ports.entries), ports.entries, ChunkIds(batch), ports.services.embed)
    ensures (ctx.errors == old(ctx.errors) && forall id :: id in ChunkIds(batch) ==> Written(batch, ports.entries, id))
         || ctx.errors == old(ctx.errors) + [StorageFailed(number)]
    ensures NoFaults(old(ports.faults)) ==> NoFaults(ports.faults) && ctx.errors == old(ctx.errors)
  {
    var writes := Deduplicate(batch);
    WritesAreSound(batch, writes, ports.services.embed);
    var ok := ports.Upsert(writes);
    if ok { WritesWritten(batch, writes, ports.entries); }
    if !ok { ctx.errors := ctx.errors + [StorageFailed(number)]; }
  }

  function Storable(cs: seq<Chunk>, kept: set<Id>): seq<Chunk> {
    if cs == [] then []
    else Storable(cs[..|cs| - 1], kept)
         + (if cs[|cs| - 1].embedding.Some? && !IsSkipped(cs[|cs| - 1], kept) then [cs[|cs| - 1]] else [])
  }

  lemma {:induction false} StorableOnly(cs: seq<Chunk>, kept: set<Id>)
    ensures forall c :: c in Storable(cs, kept) <==> c in cs && c.embedding.Some? && !IsSkipped(c, kept)
  {
    if cs != [] {
      StorableOnly(cs[..|cs| - 1], kept);
      assert cs == cs[..|cs| - 1] + [cs[|cs| - 1]];
    }
  }

  function Missing(cs: seq<Chunk>): nat {
    if cs == [] then 0 else Missing(cs[..|cs| - 1]) + if cs[|cs| - 1].embedding.None? then 1 else 0
  }

  lemma {:induction false} MissingNone(cs: seq<Chunk>)
    ensures Missing(cs) == 0 <==> forall i :: 0 <= i < |cs| ==> cs[i].embedding.Some?
  {
    if cs != [] {
      MissingNone(cs[..|cs| - 1]);
      assert forall i :: 0 <= i < |cs| - 1 ==> cs[..|cs| - 1][i] == cs[i];
    }
  }

  lemma WroteTrans(a: Store, b: Store, c: Store, ids: set<Id>, more: set<Id>, embed: string -> Vector)
    requires Wrote(a, b, ids, embed) && Wrote(b, c, more, embed) && more <= ids
    ensures Wrote(a, c, ids, embed)
  {}

  /** As many are missing as there are chunks without a vector. */
  lemma {:induction false} MissingIs(cs: seq<Chunk>)
    ensures Missing(cs) == |set i | 0 <= i < |cs| && cs[i].embedding.None?|
  {
    if cs != [] {
      var n := |cs| - 1;
      MissingIs(cs[..n]);
      var before := set i | 0 <= i < n && cs[..n][i].embedding.None?;
      var all := set i | 0 <= i < |cs| && cs[i].embedding.None?;
      assert all == before + if cs[n].embedding.None? then {n} else {};
    }
  }

  /** Writes the storable chunks batch by batch. */
  method StoreBatches(ctx: Context, ports: Ports, storable: seq<Chunk>, ghost ids: set<Id>)
    requires WellFormed(ports.entries, ports.services.embed)
    requires AllReady(storable, ports.services.embed) && forall j :: 0 <= j < |storable| ==> storable[j].embedding.Some?
    requires ChunkIds(storable) <= ids
    modifies ctx`errors, ports`faults, ports`entries, ports`writeCalls
    ensures Wrote(old(ports.entries), ports.entries, ids, ports.services.embed)
    ensures old(ctx.errors) <= ctx.errors
    ensures ctx.errors == old(ctx.errors) ==> forall j :: 0 <= j < |storable| ==> Written(storable, ports.entries, StorageId(storable[j]))
    ensures storable == [] ==> ctx.errors == old(ctx.errors) && ports.entries == old(ports.entries)
                               && ports.writeCalls == old(ports.writeCalls) && ports.faults == old(ports.faults)
    ensures NoFaults(old(ports.faults)) ==> NoFaults(ports.faults) && ctx.errors == old(ctx.errors)
  {
    var i := 0;
    while i < |storable|
      modifies ctx`errors, ports`faults, ports`entries, ports`writeCalls
      invariant 0 <= i <= |storable|
      invariant Wrote(old(ports.entries), ports.entries, ids, ports.services.embed)
      invariant old(ctx.errors) <= ctx.errors
      invariant ctx.errors == old(ctx.errors) ==> forall j :: 0 <= j < i ==> Written(storable, ports.entries, StorageId(storable[j]))
      invariant storable == [] ==> ctx.errors == old(ctx.errors) && ports.entries == old(ports.entries)
                                   && ports.writeCalls == old(ports.writeCalls) && ports.faults == old(ports.faults)
      invariant NoFaults(old(ports.faults)) ==> NoFaults(ports.faults) && ctx.errors == old(ctx.errors)
    {
      var end := if i + STORE_BATCH < |storable| then i + STORE_BATCH else |storable|;
      SliceIds(storable, i, end);
      ghost var stored := ports.entries;
      StoreBatch(ctx, ports, storable[i..end], i / STORE_BATCH);
      WroteTrans(old(ports.entries), stored, ports.entries, ids, ChunkIds(storable[i..end]), ports.services.embed);
      if ctx.errors == old(ctx.errors) { WrittenStep(storable, stored, ports.entries, i, end, ports.services.embed); }
      i := end;
    }
  }

  lemma SliceIds(storable: seq<Chunk>, i: nat, end: nat)
    requires i <= end <= |storable|
    ensures ChunkIds(storable[i..end]) <= ChunkIds(storable)
    ensures forall j :: i <= j < end ==> StorageId(storable[j]) in ChunkIds(storable[i..end])
  {
    forall j | i <= j < end ensures StorageId(storable[j]) in ChunkIds(storable[i..end]) {
      assert storable[i..end][j - i] == storable[j];
    }
  }

  lemma StorableReady(cs: seq<Chunk>, kept: set<Id>, embed: string -> Vector)
    requires AllReady(cs, embed)
    ensures var storable := Storable(cs, kept);
      && AllReady(storable, embed) && ChunkIds(storable) <= ChunkIds(cs)
      && forall j :: 0 <= j < |storable| ==> storable[j].embedding.Some?
  {
    StorableOnly(cs, kept);
    var storable := Storable(cs, kept);
    forall j | 0 <= j < |storable|
      ensures IsReady(storable[j], embed) && storable[j].embedding.Some? && StorageId(storable[j]) in ChunkIds(cs)
    {
      assert storable[j] in storable;
      var k :| 0 <= k < |cs| && cs[k] == storable[j];
    }
  }

  lemma {:induction false} NothingStorable(cs: seq<Chunk>, kept: set<Id>)
    requires forall i :: 0 <= i < |cs| ==> cs[i].embedding.Some? && IsSkipped(cs[i], kept)
    ensures Storable(cs, kept) == []
  {
    if cs != [] { NothingStorable(cs[..|cs| - 1], kept); }
  }

  lemma AllThere(cs: seq<Chunk>, kept: set<Id>, s: Store)
    requires forall j :: 0 <= j < |Storable(cs, kept)| ==> Written(Storable(cs, kept), s, StorageId(Storable(cs, kept)[j]))
    ensures forall i :: 0 <= i < |cs| && cs[i].embedding.Some? ==> IsSkipped(cs[i], kept) || Written(cs, s, StorageId(cs[i]))
  {
    StorableOnly(cs, kept);
    var storable := Storable(cs, kept);
    forall i | 0 <= i < |cs| && cs[i].embedding.Some? && !IsSkipped(cs[i], kept) ensures Written(cs, s, StorageId(cs[i])) {
      assert cs[i] in storable;
      var j :| 0 <= j < |storable| && storable[j] == cs[i];
      assert Written(storable, s, StorageId(storable[j]));
      PartWritten(storable, cs, s, StorageId(cs[i]));
    }
  }

  lemma PartWritten(part: seq<Chunk>, cs: seq<Chunk>, s: Store, id: Id)
    requires Written(part, s, id) && forall c :: c in part ==> c in cs
    ensures Written(cs, s, id)
  {
    var k :| 0 <= k < |part| && part[k].embedding.Some? && StorageId(part[k]) == id && s[id] == EntryOf(part[k]);
    assert part[k] in cs;
  }

  method StoreChunks(ctx: Context, ports: Ports)
    requires AllReady(ctx.chunks, ports.services.embed) && WellFormed(ports.entries, ports.services.embed)
    modifies ctx`errors, ports`faults, ports`entries, ports`writeCalls
    ensures Wrote(old(ports.entries), ports.entries, ChunkIds(ctx.chunks), ports.services.embed)
    ensures old(ctx.errors) <= ctx.errors
    ensures ctx.errors == old(ctx.errors) ==> forall i :: 0 <= i < |ctx.chunks| ==>
              ctx.chunks[i].embedding.Some?
              && (IsSkipped(ctx.chunks[i], ctx.unchangedHashes) || Written(ctx.chunks, ports.entries, StorageId(ctx.chunks[i])))
    ensures (forall i :: 0 <= i < |ctx.chunks| ==> ctx.chunks[i].embedding.Some? && IsSkipped(ctx.chunks[i], ctx.unchangedHashes)) ==>
              ctx.errors == old(ctx.errors) && ports.entries == old(ports.entries)
              && ports.writeCalls == old(ports.writeCalls) && ports.faults == old(ports.faults)
    ensures NoFaults(old(ports.faults)) ==> NoFaults(ports.faults)
    ensures NoFaults(old(ports.faults)) && (forall i :: 0 <= i < |ctx.chunks| ==> ctx.chunks[i].embedding.Some?) ==>
              ctx.errors == old(ctx.errors)
  {
    var cs, kept := ctx.chunks, ctx.unchangedHashes;
    var storable, missing := Storable(cs, kept), Missing(cs);
    MissingNone(cs);
    StorableReady(cs, kept, ports.services.embed);
    if forall i :: 0 <= i < |cs| ==> cs[i].embedding.Some? && IsSkipped(cs[i], kept) { NothingStorable(cs, kept); }
    if missing > 0 { ctx.errors := ctx.errors + [ChunksWithoutEmbedding(missing)]; }
    StoreBatches(ctx, ports, storable, ChunkIds(cs));
    if ctx.errors == old(ctx.errors) { AllThere(cs, kept, ports.entries); }
  }

  // ----- OrphanCleanupStep

  /** Documents whose entries the removal of `removed` documents deletes. */
  predicate IsSweptDocument(removed: set<string>, d: string) {
    d in removed || exists r :: r in removed && d == r + SUMMARY_SUFFIX
  }

  function Sweep(s: Store, orphans: set<Id>, removed: set<string>): Store {
    map id | id in s && id !in orphans && !IsSweptDocument(removed, s[id].documentId) :: s[id]
  }

  predicate SubStore(s: Store, t: Store) {
    forall id :: id in s ==> id in t && s[id] == t[id]
  }

  predicate IsSweepError(e: IngestError) {
    e.OrphanDeleteFailed? || e.RemovedDeleteFailed?
  }

  lemma SweepStep(s: Store, t: Store, orphans: set<Id>, done: set<string>, d: string)
    requires t == Sweep(s, orphans, done)
    ensures WithoutDocument(WithoutDocument(t, d), d + SUMMARY_SUFFIX) == Sweep(s, orphans, done + {d})
  {
    assert forall x :: IsSweptDocument(done + {d}, x) <==> IsSweptDocument(done, x) || x == d || x == d + SUMMARY_SUFFIX;
  }

  lemma SweepMonotone(s: Store, t: Store, orphans: set<Id>, removed: set<string>, d: string)
    requires SubStore(Sweep(s, orphans, removed), t) && SubStore(t, s) && IsSweptDocument(removed, d)
    ensures SubStore(Sweep(s, orphans, removed), WithoutDocument(t, d)) && SubStore(WithoutDocument(t, d), s)
  {}

  method RemoveDocument(ctx: Context, ports: Ports, d: string, ghost s: Store, ghost orphans: set<Id>, ghost removed: set<string>)
    requires d in removed
    requires SubStore(Sweep(s, orphans, removed), ports.entries) && SubStore(ports.entries, s)
    modifies ctx`errors, ports`faults, ports`entries, ports`deleteCalls, ports`beforeDeletes
    ensures SubStore(Sweep(s, orphans, removed), ports.entries) && SubStore(ports.entries, s)
    ensures (ctx.errors == old(ctx.errors)
             && ports.entries == WithoutDocument(WithoutDocument(old(ports.entries), d), d + SUMMARY_SUFFIX))
         || ctx.errors == old(ctx.errors) + [RemovedDeleteFailed(d)]
    ensures old(ports.beforeDeletes) + [old(ports.entries)] <= ports.beforeDeletes
    ensures NoFaults(old(ports.faults)) ==> NoFaults(ports.faults) && ctx.errors == old(ctx.errors)
  {
    SweepMonotone(s, ports.entries, orphans, removed, d);
    var ok := ports.DeleteWhere(d);
    if ok {
      assert IsSweptDocument(removed, d + SUMMARY_SUFFIX);
      SweepMonotone(s, ports.entries, orphans, removed, d + SUMMARY_SUFFIX);
      ok := ports.DeleteWhere(d + SUMMARY_SUFFIX);
    }
    if !ok { ctx.errors := ctx.errors + [RemovedDeleteFailed(d)]; }
  }

  lemma SweepNothing(s: Store, orphans: set<Id>)
    ensures Sweep(s, orphans, {}) == s - orphans
  {}

  lemma SweepSub(s: Store, orphans: set<Id>, removed: set<string>)
    ensures SubStore(Sweep(s, orphans, removed), s - orphans) && SubStore(s - orphans, s)
  {}

  /** Deletes exactly what it was asked to, when nothing fails; never anything else. */
  method OrphanCleanup(ctx: Context, ports: Ports)
    modifies ctx`errors, ports`faults, ports`entries, ports`deleteCalls, ports`beforeDeletes
    ensures SubStore(Sweep(old(ports.entries), ctx.orphanIds, ctx.removedDocumentIds), ports.entries)
    ensures SubStore(ports.entries, old(ports.entries))
    ensures ctx.errors == old(ctx.errors) ==> ports.entries == Sweep(old(ports.entries), ctx.orphanIds, ctx.removedDocumentIds)
    ensures old(ctx.errors) <= ctx.errors
    ensures forall i :: |old(ctx.errors)| <= i < |ctx.errors| ==> IsSweepError(ctx.errors[i])
    ensures ports.beforeDeletes == old(ports.beforeDeletes)
         || old(ports.beforeDeletes) + [old(ports.entries)] <= ports.beforeDeletes
    ensures ctx.orphanIds == {} && ctx.removedDocumentIds == {} ==>
              ctx.errors == old(ctx.errors) && ports.entries == old(ports.entries) && ports.beforeDeletes == old(ports.beforeDeletes)
              && ports.deleteCalls == old(ports.deleteCalls) && ports.faults == old(ports.faults)
    ensures NoFaults(old(ports.faults)) ==> NoFaults(ports.faults) && ctx.errors == old(ctx.errors)
  {
    ghost var s := ports.entries;
    var orphans, removed := ctx.orphanIds, ctx.removedDocumentIds;
    SweepNothing(s, orphans);
    SweepSub(s, orphans, removed);
    if orphans != {} {
      var ok := ports.Delete(orphans);
      if !ok { ctx.errors := ctx.errors + [OrphanDeleteFailed]; }
    }
    assert orphans == {} ==> s - orphans == s;
    assert SubStore(Sweep(s, orphans, removed), s);
    SweepDocuments(ctx, ports, s, orphans, removed);
  }

  method SweepDocuments(ctx: Context, ports: Ports, ghost s: Store, ghost orphans: set<Id>, removed: set<string>)
    requires SubStore(Sweep(s, orphans, removed), ports.entries) && SubStore(ports.entries, s)
    modifies ctx`errors, ports`faults, ports`entries, ports`deleteCalls, ports`beforeDeletes
    ensures SubStore(Sweep(s, orphans, removed), ports.entries) && SubStore(ports.entries, s)
    ensures ctx.errors == old(ctx.errors) && old(ports.entries) == Sweep(s, orphans, {}) ==> ports.entries == Sweep(s, orphans, removed)
    ensures old(ctx.errors) <= ctx.errors
    ensures forall i :: |old(ctx.errors)| <= i < |ctx.errors| ==> IsSweepError(ctx.errors[i])
    ensures ports.beforeDeletes == old(ports.beforeDeletes)
         || old(ports.beforeDeletes) + [old(ports.entries)] <= ports.beforeDeletes
    ensures removed == {} ==>
              ctx.errors == old(ctx.errors) && ports.entries == old(ports.entries)
              && ports.deleteCalls == old(ports.deleteCalls) && ports.faults == old(ports.faults)
              && ports.beforeDeletes == old(ports.beforeDeletes)
    ensures NoFaults(old(ports.faults)) ==> NoFaults(ports.faults) && ctx.errors == old(ctx.errors)
  {
    var todo := removed;
    while todo != {}
      modifies ctx`errors, ports`faults, ports`entries, ports`deleteCalls, ports`beforeDeletes
      invariant todo <= removed
      invariant SubStore(Sweep(s, orphans, removed), ports.entries) && SubStore(ports.entries, s)
      invariant ctx.errors == old(ctx.errors) && old(ports.entries) == Sweep(s, orphans, {}) ==>
                  ports.entries == Sweep(s, orphans, removed - todo)
      invariant old(ctx.errors) <= ctx.errors
      invariant forall i :: |old(ctx.errors)| <= i < |ctx.errors| ==> IsSweepError(ctx.errors[i])
      invariant todo == removed ==> ctx.errors == old(ctx.errors) && ports.entries == old(ports.entries)
      invariant todo == removed ==> ports.deleteCalls == old(ports.deleteCalls) && ports.faults == old(ports.faults)
      invariant todo == removed ==> ports.beforeDeletes == old(ports.beforeDeletes)
      invariant todo != removed ==> old(ports.beforeDeletes) + [old(ports.entries)] <= ports.beforeDeletes
      invariant NoFaults(old(ports.faults)) ==> NoFaults(ports.faults) && ctx.errors == old(ctx.errors)
      decreases todo
    {
      var d :| d in todo;
      if ports.entries == Sweep(s, orphans, removed - todo) { SweepStep(s, ports.entries, orphans, removed - todo, d); }
      assert removed - todo + {d} == removed - (todo - {d});
      RemoveDocument(ctx, ports, d, s, orphans, removed);
      todo := todo - {d};
    }
    assert removed - todo == removed;
  }
}
