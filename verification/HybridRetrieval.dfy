/** The embedding arm and the lexical arm, muted, degraded or fused. */
module HybridRetrieval {
  import opened Wrappers
  import opened RankFusion

  datatype Settings = Settings(enabled: bool, denseWeight: real, lexicalWeight: real, rrfK: nat)

  /** How one query of the store ends. */
  datatype Answer = Found(rows: Rows) | EmbeddingError | StoreError

  const EMPTY_ROWS := Rows([], [], [], [])

  /** The ids of the arms in order of first appearance, as the fusion's dictionaries list them. */
  function FirstAppearances(arms: seq<Rows>): seq<string> {
    if arms == [] then [] else AppendNew(FirstAppearances(arms[..|arms| - 1]), arms[|arms| - 1].ids)
  }

  function AppendNew(seen: seq<string>, ids: seq<string>): seq<string>
    decreases ids
  {
    if ids == [] then seen
    else AppendNew(if ids[0] in seen then seen else seen + [ids[0]], ids[1..])
  }

  function Fuse(arms: seq<Rows>, weights: seq<real>, k: nat, limit: nat): Rows
    requires |weights| == |arms|
  {
    ToRows(Fused(arms, weights, k, FirstAppearances(arms), limit))
  }

  /** `lexical` is None for a store without a lexical query; `hasTerms` says whether the
      question has a word worth matching. */
  function Retrieve(settings: Settings, hasTerms: bool, dense: Answer, lexical: Option<Answer>, limit: nat): Answer {
    if !settings.enabled then dense
    else if settings.lexicalWeight == 0.0 then dense
    else if lexical.None? then dense
    else if !hasTerms then dense
    else if settings.denseWeight == 0.0 then
      (match lexical.value
       case Found(rows) => Found(rows)
       case EmbeddingError => EmbeddingError
       case StoreError => Found(EMPTY_ROWS))
    else if !dense.Found? then dense
    else if lexical.value.EmbeddingError? then EmbeddingError
    else
      var lexicalRows := if lexical.value.Found? then lexical.value.rows else EMPTY_ROWS;
      Found(Fuse([dense.rows, lexicalRows], [settings.denseWeight, settings.lexicalWeight], settings.rrfK, limit))
  }

  // ----- the order of first appearance

  lemma {:induction false} AppendNewMembers(seen: seq<string>, ids: seq<string>)
    requires NoDuplicates(seen)
    ensures NoDuplicates(AppendNew(seen, ids))
    ensures forall id :: id in AppendNew(seen, ids) <==> id in seen || id in ids
    decreases ids
  {
    if ids != [] {
      AppendNewMembers(if ids[0] in seen then seen else seen + [ids[0]], ids[1..]);
      assert ids == [ids[0]] + ids[1..];
    }
  }

  lemma {:induction false} FirstAppearancesOrder(arms: seq<Rows>)
    ensures IsOrder(arms, FirstAppearances(arms))
    ensures forall id :: id in FirstAppearances(arms) <==> RankFusion.Found(arms, id)
  {
    if arms != [] {
      var n := |arms| - 1;
      FirstAppearancesOrder(arms[..n]);
      AppendNewMembers(FirstAppearances(arms[..n]), arms[n].ids);
      forall id ensures id in FirstAppearances(arms) <==> RankFusion.Found(arms, id) {
        if RankFusion.Found(arms[..n], id) {
          var a :| 0 <= a < n && id in arms[..n][a].ids;
          assert id in arms[a].ids;
        }
        if RankFusion.Found(arms, id) {
          var a :| 0 <= a < |arms| && id in arms[a].ids;
          assert a < n ==> id in arms[..n][a].ids;
        }
      }
      forall a, r | 0 <= a < |arms| && 0 <= r < |arms[a].ids| ensures arms[a].ids[r] in FirstAppearances(arms) {
        assert RankFusion.Found(arms, arms[a].ids[r]);
      }
      forall i | 0 <= i < |FirstAppearances(arms)| ensures RankFusion.Found(arms, FirstAppearances(arms)[i]) {
        assert FirstAppearances(arms)[i] in FirstAppearances(arms);
      }
    }
  }

  /** The fusion used here is the one the loop computes. */
  lemma FuseIsFusion(arms: seq<Rows>, weights: seq<real>, k: nat, limit: nat, order: seq<string>)
    requires |weights| == |arms| && IsOrder(arms, order)
    ensures Fuse(arms, weights, k, limit) == ToRows(Fused(arms, weights, k, order, limit))
  {
    FirstAppearancesOrder(arms);
    OrderIrrelevant(arms, weights, k, FirstAppearances(arms), order, limit);
  }

  // ----- the lexical arm lost

  predicate Parallel(rows: Rows) {
    |rows.documents| == |rows.ids| && |rows.metadatas| == |rows.ids| && |rows.distances| == |rows.ids|
  }

  function TakeRows(rows: Rows, limit: nat): Rows {
    Rows(Take(rows.ids, limit), Take(rows.documents, limit), Take(rows.metadatas, limit), Take(rows.distances, limit))
  }

  lemma {:induction false} RankAt(ids: seq<string>, i: nat)
    requires NoDuplicates(ids) && i < |ids|
    ensures RankIn(ids, ids[i]) == Some(i)
  {
    if i < |ids| - 1 { RankAt(ids[..|ids| - 1], i); }
  }

  lemma {:induction false} PayloadAt(arm: Rows, n: nat, i: nat)
    requires n <= |arm.ids| && NoDuplicates(arm.ids) && i < |arm.ids|
    ensures ArmPayload(arm, n, true, arm.ids[i], NO_PAYLOAD)
         == if i < n then Payload(DocumentAt(arm, i), MetadataAt(arm, i), DistanceAt(arm, i)) else NO_PAYLOAD
  {
    if n > 0 { PayloadAt(arm, n - 1, i); }
  }

  /** One dense arm beside an empty one: each row is its own candidate. */
  lemma DenseCandidate(d: Rows, w: real, v: real, k: nat, i: nat)
    requires NoDuplicates(d.ids) && i < |d.ids|
    ensures CandidateOf([d, EMPTY_ROWS], [w, v], k, d.ids[i])
         == Candidate(d.ids[i], w / ((k + i + 1) as real), Some(i), None,
                      Payload(DocumentAt(d, i), MetadataAt(d, i), DistanceAt(d, i)))
  {
    var arms, weights, id := [d, EMPTY_ROWS], [w, v], d.ids[i];
    assert arms[..1] == [d] && weights[..1] == [w] && arms[..1][..0] == [] && weights[..1][..0] == [];
    ArmScoreAt(d.ids, w, k, id);
    RankAt(d.ids, i);
    PayloadAt(d, |d.ids|, i);
    assert Score(arms[..1], weights[..1], k, id) == Score([], [], k, id) + ArmScore(d.ids, w, k, id);
    assert PayloadOf(arms[..1], id) == ArmPayload(d, |d.ids|, true, id, NO_PAYLOAD);
    assert LexicalRank(arms, id) == Least(LexicalRank(arms[..1], id), RankIn([], id));
  }

  lemma DenseLess(d: Rows, w: real, v: real, k: nat, i: nat, j: nat)
    requires NoDuplicates(d.ids) && w > 0.0 && i < j < |d.ids|
    ensures Less(CandidateOf([d, EMPTY_ROWS], [w, v], k, d.ids[i]), CandidateOf([d, EMPTY_ROWS], [w, v], k, d.ids[j]))
  {
    DenseCandidate(d, w, v, k, i);
    DenseCandidate(d, w, v, k, j);
    DivideMonotone(w, k + i + 1, k + j + 1);
  }

  lemma DenseRows(d: Rows, w: real, v: real, k: nat, limit: nat)
    requires NoDuplicates(d.ids) && Parallel(d)
    ensures ToRows(Take(Candidates([d, EMPTY_ROWS], [w, v], k, d.ids), limit)) == TakeRows(d, limit)
  {
    var all := Candidates([d, EMPTY_ROWS], [w, v], k, d.ids);
    forall i | 0 <= i < |all|
      ensures all[i].id == d.ids[i] && all[i].payload == Payload(d.documents[i], d.metadatas[i], d.distances[i])
    {
      DenseCandidate(d, w, v, k, i);
    }
    var rows := ToRows(Take(all, limit));
    assert rows.ids == Take(d.ids, limit);
    assert rows.documents == Take(d.documents, limit);
    assert rows.metadatas == Take(d.metadatas, limit);
    assert rows.distances == Take(d.distances, limit);
  }

  lemma DenseOrder(d: Rows)
    requires NoDuplicates(d.ids)
    ensures IsOrder([d, EMPTY_ROWS], d.ids)
  {
    var arms := [d, EMPTY_ROWS];
    forall i | 0 <= i < |d.ids| ensures RankFusion.Found(arms, d.ids[i]) { assert d.ids[i] in arms[0].ids; }
  }

  lemma DenseInOrder(d: Rows, w: real, v: real, k: nat)
    requires NoDuplicates(d.ids) && w > 0.0
    ensures Sort(Candidates([d, EMPTY_ROWS], [w, v], k, d.ids)) == Candidates([d, EMPTY_ROWS], [w, v], k, d.ids)
  {
    var cs := Candidates([d, EMPTY_ROWS], [w, v], k, d.ids);
    forall i, j | 0 <= i < j < |cs| ensures Less(cs[i], cs[j]) && cs[i].id != cs[j].id { DenseLess(d, w, v, k, i, j); }
    SortRanks(cs);
    OneArrangement(Sort(cs), cs);
  }

  /** When the lexical arm fails other than by an embedding error and the dense arm counts,
      the answer is the dense arm's rows in the dense order, up to the limit. */
  lemma LosingLexicalKeepsDense(settings: Settings, d: Rows, limit: nat)
    requires settings.enabled && settings.denseWeight > 0.0
    requires NoDuplicates(d.ids) && Parallel(d)
    ensures Retrieve(settings, true, Answer.Found(d), Some(StoreError), limit)
         == Answer.Found(if settings.lexicalWeight == 0.0 then d else TakeRows(d, limit))
    ensures |d.ids| <= limit ==> Retrieve(settings, true, Answer.Found(d), Some(StoreError), limit) == Answer.Found(d)
  {
    if settings.lexicalWeight != 0.0 {
      DenseOrder(d);
      DenseInOrder(d, settings.denseWeight, settings.lexicalWeight, settings.rrfK);
      FuseIsFusion([d, EMPTY_ROWS], [settings.denseWeight, settings.lexicalWeight], settings.rrfK, limit, d.ids);
      DenseRows(d, settings.denseWeight, settings.lexicalWeight, settings.rrfK, limit);
    }
  }

  /** Within the limit fusion drops no document that any arm returned, whatever the weights. */
  lemma NothingDropped(arms: seq<Rows>, weights: seq<real>, k: nat, limit: nat)
    requires |weights| == |arms| && |FirstAppearances(arms)| <= limit
    ensures forall id :: id in Fuse(arms, weights, k, limit).ids <==> RankFusion.Found(arms, id)
  {
    var order := FirstAppearances(arms);
    var cs := Candidates(arms, weights, k, order);
    var sorted := Sort(cs);
    FirstAppearancesOrder(arms);
    SortRanks(cs);
    forall id | id in order ensures id in Fuse(arms, weights, k, limit).ids {
      var i :| 0 <= i < |order| && order[i] == id;
      assert cs[i] in sorted;
      var j :| 0 <= j < |sorted| && sorted[j] == cs[i];
      assert Fuse(arms, weights, k, limit).ids[j] == id;
    }
    forall j | 0 <= j < |sorted| ensures sorted[j].id in order { assert sorted[j] in cs; }
  }

  /** Muting an arm is not fusing it at weight zero: a document only the lexical arm returned would
      still surface. */
  lemma MutingIsNotZeroWeight(settings: Settings, d: Rows, l: Rows, limit: nat, id: string)
    requires settings.enabled && settings.lexicalWeight == 0.0
    requires id in l.ids && id !in d.ids && |FirstAppearances([d, l])| <= limit
    ensures id in Fuse([d, l], [settings.denseWeight, 0.0], settings.rrfK, limit).ids
    ensures Retrieve(settings, true, Answer.Found(d), Some(Answer.Found(l)), limit) == Answer.Found(d)
  {
    var arms := [d, l];
    NothingDropped(arms, [settings.denseWeight, 0.0], settings.rrfK, limit);
    assert id in arms[1].ids;
  }

  // ----- what retrieval answers

  /** The lexical arm is asked: it is there, not muted, and the question has a term for it. */
  predicate AsksLexical(settings: Settings, hasTerms: bool, lexical: Option<Answer>) {
    settings.enabled && settings.lexicalWeight != 0.0 && lexical.Some? && hasTerms
  }

  /** The dense arm is asked unless it is muted and the lexical arm stands in for it. */
  predicate AsksDense(settings: Settings, hasTerms: bool, lexical: Option<Answer>) {
    settings.denseWeight != 0.0 || !AsksLexical(settings, hasTerms, lexical)
  }

  /** A request fails with the dense arm, and otherwise only with an embedding error of the lexical
      arm; an arm that is not asked fails nothing. */
  lemma WhenItFails(settings: Settings, hasTerms: bool, dense: Answer, lexical: Option<Answer>, limit: nat)
    ensures var r := Retrieve(settings, hasTerms, dense, lexical, limit);
      && (r.StoreError? <==> AsksDense(settings, hasTerms, lexical) && dense.StoreError?)
      && (r.EmbeddingError? <==>
            || (AsksDense(settings, hasTerms, lexical) && dense.EmbeddingError?)
            || (AsksLexical(settings, hasTerms, lexical) && lexical == Some(EmbeddingError)
                && !(AsksDense(settings, hasTerms, lexical) && dense.StoreError?)))
  {}

  /** With one arm asked its rows are the answer as they are, and no rows for a lexical arm lost to
      the store. */
  lemma OneArmAnswers(settings: Settings, hasTerms: bool, dense: Answer, lexical: Option<Answer>, limit: nat)
    ensures !AsksLexical(settings, hasTerms, lexical) ==> Retrieve(settings, hasTerms, dense, lexical, limit) == dense
    ensures !AsksDense(settings, hasTerms, lexical) ==>
              Retrieve(settings, hasTerms, dense, lexical, limit)
              == if lexical.value.StoreError? then Answer.Found(EMPTY_ROWS) else lexical.value
  {}

  /** With both arms asked and answering, the answer holds what either returned, as far as the limit
      goes, and every distance is the dense arm's, or none. */
  lemma BothArmsAnswer(settings: Settings, d: Rows, l: Rows, limit: nat)
    requires settings.enabled && settings.denseWeight != 0.0 && settings.lexicalWeight != 0.0
    ensures var r := Retrieve(settings, true, Answer.Found(d), Some(Answer.Found(l)), limit);
      && r.Found? && |r.rows.distances| == |r.rows.ids| && |r.rows.ids| <= limit
      && (|FirstAppearances([d, l])| <= limit ==> forall id :: id in r.rows.ids <==> id in d.ids || id in l.ids)
      && (forall i :: 0 <= i < |r.rows.ids| ==>
            r.rows.distances[i] == if r.rows.ids[i] in d.ids then DistanceAt(d, RankIn(d.ids, r.rows.ids[i]).value) else None)
  {
    var arms, weights, k := [d, l], [settings.denseWeight, settings.lexicalWeight], settings.rrfK;
    var order := FirstAppearances(arms);
    FirstAppearancesOrder(arms);
    if |order| <= limit { NothingDropped(arms, weights, k, limit); }
    forall id ensures RankFusion.Found(arms, id) <==> id in d.ids || id in l.ids {
      assert arms[0] == d && arms[1] == l;
    }
    var r := Fuse(arms, weights, k, limit);
    forall i | 0 <= i < |r.ids| ensures r.distances[i] == if r.ids[i] in d.ids then DistanceAt(d, RankIn(d.ids, r.ids[i]).value) else None {
      SortedIds(arms, weights, k, order, i);
      DistanceIsDense(arms, r.ids[i]);
    }
  }

  /** In such an answer a document that precedes another, by its standing in the two lists, comes
      first; in particular one that neither list ranks worse and one ranks better. */
  lemma BothArmsOrder(settings: Settings, d: Rows, l: Rows, limit: nat, a: string, b: string, j: nat)
    requires settings.enabled && settings.denseWeight != 0.0 && settings.lexicalWeight != 0.0
    requires a != b && (a in d.ids || a in l.ids)
    requires var weights := [settings.denseWeight, settings.lexicalWeight];
             Precedes([d, l], weights, settings.rrfK, a, b) || Dominates([d, l], weights, a, b)
    requires var r := Retrieve(settings, true, Answer.Found(d), Some(Answer.Found(l)), limit);
             r.Found? && j < |r.rows.ids| && r.rows.ids[j] == b
    ensures exists i :: 0 <= i < j && Retrieve(settings, true, Answer.Found(d), Some(Answer.Found(l)), limit).rows.ids[i] == a
  {
    var arms, weights, k := [d, l], [settings.denseWeight, settings.lexicalWeight], settings.rrfK;
    assert arms[0] == d && arms[1] == l;
    var i := FusePrefers(arms, weights, k, limit, a, b, j);
  }

  lemma FusePrefers(arms: seq<Rows>, weights: seq<real>, k: nat, limit: nat, a: string, b: string, j: nat) returns (i: nat)
    requires |weights| == |arms| == 2 && a != b && (a in arms[0].ids || a in arms[1].ids)
    requires Precedes(arms, weights, k, a, b) || Dominates(arms, weights, a, b)
    requires j < |Fuse(arms, weights, k, limit).ids| && Fuse(arms, weights, k, limit).ids[j] == b
    ensures i < j && Fuse(arms, weights, k, limit).ids[i] == a
  {
    FirstAppearancesOrder(arms);
    FusedIds(arms, weights, k, limit);
    i := FusedFirst(arms, weights, k, FirstAppearances(arms), limit, a, b, j);
  }

  lemma FusedIds(arms: seq<Rows>, weights: seq<real>, k: nat, limit: nat)
    requires |weights| == |arms|
    ensures var fused := Fused(arms, weights, k, FirstAppearances(arms), limit);
      |Fuse(arms, weights, k, limit).ids| == |fused| && forall i :: 0 <= i < |fused| ==> Fuse(arms, weights, k, limit).ids[i] == fused[i].id
  {}

  lemma FusedFirst(arms: seq<Rows>, weights: seq<real>, k: nat, order: seq<string>, limit: nat, a: string, b: string, j: nat) returns (i: nat)
    requires |weights| == |arms| && IsOrder(arms, order) && a in order && a != b
    requires Precedes(arms, weights, k, a, b) || Dominates(arms, weights, a, b)
    requires j < |Fused(arms, weights, k, order, limit)| && Fused(arms, weights, k, order, limit)[j].id == b
    ensures i < j && Fused(arms, weights, k, order, limit)[i].id == a
  {
    if Precedes(arms, weights, k, a, b) {
      PrecedingComesFirst(arms, weights, k, order, limit, a, b, j);
    } else {
      DominantComesFirst(arms, weights, k, order, limit, a, b, j);
    }
    i :| 0 <= i < j && Fused(arms, weights, k, order, limit)[i].id == a;
  }
}
