/** Reciprocal rank fusion: positions in several rankings become one ranking. */
module RankFusion {
  import opened Wrappers

  type Metadata = map<string, string>

  /** One arm's rows: four parallel lists, of which all but `ids` may come up short. */
  datatype Rows = Rows(ids: seq<string>, documents: seq<string>, metadatas: seq<Metadata>, distances: seq<Option<real>>)

  datatype Payload = Payload(document: string, metadata: Metadata, distance: Option<real>)

  datatype Candidate = Candidate(id: string, score: real, denseRank: Option<nat>, lexicalRank: Option<nat>, payload: Payload)

  const NO_PAYLOAD := Payload("", map[], None)

  // ----- what one arm says of a document

  /** The sum of weight / (k + rank + 1) over the document's positions in the arm. */
  function ArmScore(ids: seq<string>, weight: real, k: nat, id: string): real {
    if ids == [] then 0.0
    else ArmScore(ids[..|ids| - 1], weight, k, id) + (if ids[|ids| - 1] == id then weight / ((k + |ids|) as real) else 0.0)
  }

  /** The document's last position in the arm. */
  function RankIn(ids: seq<string>, id: string): (r: Option<nat>)
    ensures r == None <==> id !in ids
    ensures r.Some? ==> r.value < |ids| && ids[r.value] == id
  {
    if ids == [] then None
    else
      assert ids == ids[..|ids| - 1] + [ids[|ids| - 1]];
      if ids[|ids| - 1] == id then Some(|ids| - 1) else RankIn(ids[..|ids| - 1], id)
  }

  function DocumentAt(arm: Rows, rank: nat): string { if rank < |arm.documents| then arm.documents[rank] else "" }
  function MetadataAt(arm: Rows, rank: nat): Metadata { if rank < |arm.metadatas| then arm.metadatas[rank] else map[] }
  function DistanceAt(arm: Rows, rank: nat): Option<real> { if rank < |arm.distances| then arm.distances[rank] else None }

  /** The first non-empty text and metadata win; only the dense arm supplies a distance. */
  function Merge(existing: Payload, arm: Rows, rank: nat, dense: bool): Payload {
    Payload(if existing.document != "" then existing.document else DocumentAt(arm, rank),
            if existing.metadata != map[] then existing.metadata else MetadataAt(arm, rank),
            if dense then DistanceAt(arm, rank) else existing.distance)
  }

  function ArmPayload(arm: Rows, n: nat, dense: bool, id: string, start: Payload): Payload
    requires n <= |arm.ids|
  {
    if n == 0 then start
    else
      var before := ArmPayload(arm, n - 1, dense, id, start);
      if arm.ids[n - 1] == id then Merge(before, arm, n - 1, dense) else before
  }

  // ----- what all arms say of it

  function Score(arms: seq<Rows>, weights: seq<real>, k: nat, id: string): real
    requires |weights| == |arms|
  {
    if arms == [] then 0.0
    else
      var n := |arms| - 1;
      Score(arms[..n], weights[..n], k, id) + ArmScore(arms[n].ids, weights[n], k, id)
  }

  function DenseRank(arms: seq<Rows>, id: string): Option<nat> {
    if arms == [] then None else RankIn(arms[0].ids, id)
  }

  function Least(a: Option<nat>, b: Option<nat>): Option<nat> {
    if a.None? then b else if b.None? then a else if b.value < a.value then b else a
  }

  function LexicalRank(arms: seq<Rows>, id: string): Option<nat> {
    if |arms| <= 1 then None
    else Least(LexicalRank(arms[..|arms| - 1], id), RankIn(arms[|arms| - 1].ids, id))
  }

  function PayloadOf(arms: seq<Rows>, id: string): Payload {
    if arms == [] then NO_PAYLOAD
    else
      var n := |arms| - 1;
      ArmPayload(arms[n], |arms[n].ids|, n == 0, id, PayloadOf(arms[..n], id))
  }

  function CandidateOf(arms: seq<Rows>, weights: seq<real>, k: nat, id: string): Candidate
    requires |weights| == |arms|
  {
    Candidate(id, Score(arms, weights, k, id), DenseRank(arms, id), LexicalRank(arms, id), PayloadOf(arms, id))
  }

  predicate Found(arms: seq<Rows>, id: string) {
    exists a :: 0 <= a < |arms| && id in arms[a].ids
  }

  // ----- the order

  /** Code point order, as Python compares strings. */
  predicate StringLess(a: string, b: string) {
    if b == "" then false else if a == "" then true
    else a[0] < b[0] || (a[0] == b[0] && StringLess(a[1..], b[1..]))
  }

  predicate RankLess(a: Option<nat>, b: Option<nat>) {
    a.Some? && (b.None? || a.value < b.value)
  }

  /** Higher score, then lower dense rank, then lower lexical rank, then id. */
  predicate Less(a: Candidate, b: Candidate) {
    a.score > b.score || (a.score == b.score &&
      (RankLess(a.denseRank, b.denseRank) || (a.denseRank == b.denseRank &&
        (RankLess(a.lexicalRank, b.lexicalRank) || (a.lexicalRank == b.lexicalRank && StringLess(a.id, b.id))))))
  }

  lemma {:induction false} StringOrder(a: string, b: string)
    ensures !(StringLess(a, b) && StringLess(b, a))
    ensures StringLess(a, b) || a == b || StringLess(b, a)
    ensures a == b ==> !StringLess(a, b)
  {
    if a != "" && b != "" {
      StringOrder(a[1..], b[1..]);
      assert a == [a[0]] + a[1..] && b == [b[0]] + b[1..];
    }
  }

  lemma {:induction false} StringTransitive(a: string, b: string, c: string)
    requires StringLess(a, b) && StringLess(b, c)
    ensures StringLess(a, c)
  {
    if a != "" && a[0] == b[0] && b[0] == c[0] { StringTransitive(a[1..], b[1..], c[1..]); }
  }

  /** A strict total order on candidates with different ids. */
  lemma LessIsTotal(a: Candidate, b: Candidate)
    requires a.id != b.id
    ensures Less(a, b) || Less(b, a)
  {
    StringOrder(a.id, b.id);
  }

  lemma LessIsStrict(a: Candidate, b: Candidate)
    ensures !(Less(a, b) && Less(b, a))
  {
    StringOrder(a.id, b.id);
  }

  lemma LessIsTransitive(a: Candidate, b: Candidate, c: Candidate)
    requires Less(a, b) && Less(b, c)
    ensures Less(a, c)
  {
    if StringLess(a.id, b.id) && StringLess(b.id, c.id) { StringTransitive(a.id, b.id, c.id); }
  }

  predicate Ranked(cs: seq<Candidate>) {
    forall i, j :: 0 <= i < j < |cs| ==> Less(cs[i], cs[j])
  }

  predicate DistinctIds(cs: seq<Candidate>) {
    forall i, j :: 0 <= i < j < |cs| ==> cs[i].id != cs[j].id
  }

  /** There is only one ranked arrangement of a set of candidates. */
  lemma {:induction false} OneArrangement(xs: seq<Candidate>, ys: seq<Candidate>)
    requires Ranked(xs) && Ranked(ys) && forall c :: c in xs <==> c in ys
    ensures xs == ys
  {
    if xs == [] {
      assert forall j :: 0 <= j < |ys| ==> ys[j] in ys;
    } else {
      assert xs[0] in ys;
      var j :| 0 <= j < |ys| && ys[j] == xs[0];
      assert ys[0] in xs;
      var i :| 0 <= i < |xs| && xs[i] == ys[0];
      LessIsStrict(xs[0], ys[0]);
      assert xs[0] == ys[0];
      forall c ensures c in xs[1..] <==> c in ys[1..] { SameTail(xs, ys, c); SameTail(ys, xs, c); }
      OneArrangement(xs[1..], ys[1..]);
      assert xs == [xs[0]] + xs[1..] && ys == [ys[0]] + ys[1..];
    }
  }

  lemma SameTail(xs: seq<Candidate>, ys: seq<Candidate>, c: Candidate)
    requires Ranked(xs) && xs != [] && ys != [] && xs[0] == ys[0] && forall c :: c in xs ==> c in ys
    ensures c in xs[1..] ==> c in ys[1..]
  {
    if c in xs[1..] {
      var i :| 1 <= i < |xs| && xs[i] == c;
      LessIsStrict(xs[0], xs[i]);
      assert c in ys && c != ys[0];
      assert ys == [ys[0]] + ys[1..];
    }
  }

  // ----- sorting

  function Insert(c: Candidate, cs: seq<Candidate>): seq<Candidate> {
    if cs == [] || !Less(cs[0], c) then [c] + cs else [cs[0]] + Insert(c, cs[1..])
  }

  function Sort(cs: seq<Candidate>): seq<Candidate> {
    if cs == [] then [] else Insert(cs[|cs| - 1], Sort(cs[..|cs| - 1]))
  }

  lemma {:induction false} InsertMembers(c: Candidate, cs: seq<Candidate>)
    ensures forall x :: x in Insert(c, cs) <==> x == c || x in cs
    ensures |Insert(c, cs)| == |cs| + 1
  {
    if cs != [] {
      InsertMembers(c, cs[1..]);
      assert cs == [cs[0]] + cs[1..];
    }
  }

  lemma {:induction false} InsertRanked(c: Candidate, cs: seq<Candidate>)
    requires Ranked(cs) && forall x :: x in cs ==> x.id != c.id
    ensures Ranked(Insert(c, cs))
  {
    if cs != [] {
      InsertMembers(c, cs[1..]);
      LessIsTotal(c, cs[0]);
      if Less(cs[0], c) {
        assert forall x :: x in cs[1..] ==> x in cs;
        InsertRanked(c, cs[1..]);
        forall x | x in Insert(c, cs[1..]) ensures Less(cs[0], x) {}
      } else {
        forall x | x in cs[1..] ensures Less(c, x) { LessIsTransitive(c, cs[0], x); }
      }
    }
  }

  /** Sorting arranges exactly the given candidates. */
  lemma {:induction false} SortRanks(cs: seq<Candidate>)
    requires DistinctIds(cs)
    ensures Ranked(Sort(cs)) && |Sort(cs)| == |cs| && forall x :: x in Sort(cs) <==> x in cs
  {
    if cs != [] {
      var front, last := cs[..|cs| - 1], cs[|cs| - 1];
      SortRanks(front);
      InsertMembers(last, Sort(front));
      InsertRanked(last, Sort(front));
      assert cs == front + [last];
    }
  }

  // ----- fusion

  function Candidates(arms: seq<Rows>, weights: seq<real>, k: nat, order: seq<string>): (r: seq<Candidate>)
    requires |weights| == |arms|
    ensures |r| == |order| && forall i :: 0 <= i < |order| ==> r[i] == CandidateOf(arms, weights, k, order[i])
  {
    seq(|order|, i requires 0 <= i < |order| => CandidateOf(arms, weights, k, order[i]))
  }

  /** The distinct ids of the arms, each once. */
  predicate IsOrder(arms: seq<Rows>, order: seq<string>) {
    NoDuplicates(order) && (forall i :: 0 <= i < |order| ==> Found(arms, order[i])) &&
    forall a, r :: 0 <= a < |arms| && 0 <= r < |arms[a].ids| ==> arms[a].ids[r] in order
  }

  function Take<T>(s: seq<T>, limit: nat): seq<T> { if limit < |s| then s[..limit] else s }

  function Fused(arms: seq<Rows>, weights: seq<real>, k: nat, order: seq<string>, limit: nat): seq<Candidate>
    requires |weights| == |arms|
  {
    Take(Sort(Candidates(arms, weights, k, order)), limit)
  }

  function ToRows(cs: seq<Candidate>): Rows {
    Rows(seq(|cs|, i requires 0 <= i < |cs| => cs[i].id),
         seq(|cs|, i requires 0 <= i < |cs| => cs[i].payload.document),
         seq(|cs|, i requires 0 <= i < |cs| => cs[i].payload.metadata),
         seq(|cs|, i requires 0 <= i < |cs| => cs[i].payload.distance))
  }

  /** The result is the same whatever order the dictionaries list the documents in. */
  lemma OrderIrrelevant(arms: seq<Rows>, weights: seq<real>, k: nat, order: seq<string>, other: seq<string>, limit: nat)
    requires |weights| == |arms| && IsOrder(arms, order) && IsOrder(arms, other)
    ensures Fused(arms, weights, k, order, limit) == Fused(arms, weights, k, other, limit)
  {
    var xs, ys := Candidates(arms, weights, k, order), Candidates(arms, weights, k, other);
    SortRanks(xs);
    SortRanks(ys);
    forall c ensures c in xs <==> c in ys {
      OtherOrder(arms, weights, k, order, other, c);
      OtherOrder(arms, weights, k, other, order, c);
    }
    OneArrangement(Sort(xs), Sort(ys));
  }

  lemma OtherOrder(arms: seq<Rows>, weights: seq<real>, k: nat, order: seq<string>, other: seq<string>, c: Candidate)
    requires |weights| == |arms| && IsOrder(arms, order) && IsOrder(arms, other)
    ensures c in Candidates(arms, weights, k, order) ==> c in Candidates(arms, weights, k, other)
  {
    if c in Candidates(arms, weights, k, order) {
      var i :| 0 <= i < |order| && c == CandidateOf(arms, weights, k, order[i]);
      var a :| 0 <= a < |arms| && order[i] in arms[a].ids;
      var r :| 0 <= r < |arms[a].ids| && arms[a].ids[r] == order[i];
      var j :| 0 <= j < |other| && other[j] == arms[a].ids[r];
      assert Candidates(arms, weights, k, other)[j] == c;
    }
  }

  // ----- agreement between arms is never punished

  /** Ranked no worse by every arm: there whenever the other is, and at no later position. */
  predicate NoWorse(ids: seq<string>, a: string, b: string) {
    RankIn(ids, b).Some? ==> RankIn(ids, a).Some? && RankIn(ids, a).value <= RankIn(ids, b).value
  }

  predicate Better(ids: seq<string>, a: string, b: string) { RankLess(RankIn(ids, a), RankIn(ids, b)) }

  lemma DivideMonotone(w: real, m: nat, n: nat)
    requires w >= 0.0 && 0 < m <= n
    ensures 0.0 <= w / (n as real) <= w / (m as real)
    ensures w > 0.0 && m < n ==> w / (n as real) < w / (m as real)
    ensures w > 0.0 ==> w / (n as real) > 0.0
  {
    var x, y, p, q := w / (m as real), w / (n as real), m as real, n as real;
    assert x * p == w && y * q == w;
    assert y < 0.0 ==> y * q < 0.0;
    assert y * p <= y * q && (m < n && y > 0.0 ==> y * p < y * q);
    assert x < y ==> x * p < y * p;
  }

  lemma {:induction false} ArmScoreAbsent(ids: seq<string>, w: real, k: nat, id: string)
    requires id !in ids
    ensures ArmScore(ids, w, k, id) == 0.0
  {
    if ids != [] {
      assert ids == ids[..|ids| - 1] + [ids[|ids| - 1]];
      ArmScoreAbsent(ids[..|ids| - 1], w, k, id);
    }
  }

  /** With ids listed once, an arm contributes the reciprocal of one position. */
  lemma {:induction false} ArmScoreAt(ids: seq<string>, w: real, k: nat, id: string)
    requires NoDuplicates(ids) && id in ids
    ensures ArmScore(ids, w, k, id) == w / ((k + RankIn(ids, id).value + 1) as real)
  {
    var front, last := ids[..|ids| - 1], ids[|ids| - 1];
    assert ids == front + [last];
    if last == id {
      assert id !in front;
      ArmScoreAbsent(front, w, k, id);
    } else {
      ArmScoreAt(front, w, k, id);
    }
  }

  lemma ArmPrefers(ids: seq<string>, w: real, k: nat, a: string, b: string)
    requires NoDuplicates(ids) && w >= 0.0 && NoWorse(ids, a, b)
    ensures ArmScore(ids, w, k, a) >= ArmScore(ids, w, k, b)
    ensures w > 0.0 && Better(ids, a, b) ==> ArmScore(ids, w, k, a) > ArmScore(ids, w, k, b)
  {
    if b in ids {
      ArmScoreAt(ids, w, k, a);
      ArmScoreAt(ids, w, k, b);
      DivideMonotone(w, k + RankIn(ids, a).value + 1, k + RankIn(ids, b).value + 1);
    } else {
      ArmScoreAbsent(ids, w, k, b);
      if a in ids {
        ArmScoreAt(ids, w, k, a);
        DivideMonotone(w, k + RankIn(ids, a).value + 1, k + RankIn(ids, a).value + 1);
      } else {
        ArmScoreAbsent(ids, w, k, a);
      }
    }
  }

  predicate Dominates(arms: seq<Rows>, weights: seq<real>, a: string, b: string)
    requires |weights| == |arms|
  {
    && (forall i :: 0 <= i < |arms| ==> NoDuplicates(arms[i].ids) && weights[i] >= 0.0 && NoWorse(arms[i].ids, a, b))
    && exists i :: 0 <= i < |arms| && weights[i] > 0.0 && Better(arms[i].ids, a, b)
  }

  lemma {:induction false} ScorePrefers(arms: seq<Rows>, weights: seq<real>, k: nat, a: string, b: string)
    requires |weights| == |arms|
    requires forall i :: 0 <= i < |arms| ==> NoDuplicates(arms[i].ids) && weights[i] >= 0.0 && NoWorse(arms[i].ids, a, b)
    ensures Score(arms, weights, k, a) >= Score(arms, weights, k, b)
    ensures (exists i :: 0 <= i < |arms| && weights[i] > 0.0 && Better(arms[i].ids, a, b)) ==>
              Score(arms, weights, k, a) > Score(arms, weights, k, b)
  {
    if arms != [] {
      var n := |arms| - 1;
      ScorePrefers(arms[..n], weights[..n], k, a, b);
      ArmPrefers(arms[n].ids, weights[n], k, a, b);
      if i :| 0 <= i < |arms| && weights[i] > 0.0 && Better(arms[i].ids, a, b) {
        if i < n { assert weights[..n][i] > 0.0 && Better(arms[..n][i].ids, a, b); }
      }
    }
  }

  lemma SortedCandidate(arms: seq<Rows>, weights: seq<real>, k: nat, order: seq<string>, id: string) returns (i: nat)
    requires |weights| == |arms| && IsOrder(arms, order) && id in order
    ensures var sorted := Sort(Candidates(arms, weights, k, order));
      i < |sorted| && sorted[i] == CandidateOf(arms, weights, k, id) && Ranked(sorted)
  {
    var cs := Candidates(arms, weights, k, order);
    SortRanks(cs);
    var p :| 0 <= p < |order| && order[p] == id;
    assert cs[p] in Sort(cs);
    i :| 0 <= i < |Sort(cs)| && Sort(cs)[i] == cs[p];
  }

  lemma SortedIds(arms: seq<Rows>, weights: seq<real>, k: nat, order: seq<string>, j: nat)
    requires |weights| == |arms| && IsOrder(arms, order) && j < |Sort(Candidates(arms, weights, k, order))|
    ensures var c := Sort(Candidates(arms, weights, k, order))[j]; c == CandidateOf(arms, weights, k, c.id) && c.id in order
  {
    var cs := Candidates(arms, weights, k, order);
    SortRanks(cs);
    assert Sort(cs)[j] in cs;
  }

  lemma HigherComesFirst(arms: seq<Rows>, weights: seq<real>, k: nat, order: seq<string>, limit: nat, a: string, b: string, j: nat)
    requires |weights| == |arms| && IsOrder(arms, order) && a in order
    requires Score(arms, weights, k, a) > Score(arms, weights, k, b)
    requires j < |Fused(arms, weights, k, order, limit)| && Fused(arms, weights, k, order, limit)[j].id == b
    ensures exists i :: 0 <= i < j && Fused(arms, weights, k, order, limit)[i].id == a
  {
    var sorted := Sort(Candidates(arms, weights, k, order));
    SortedIds(arms, weights, k, order, j);
    var i := SortedCandidate(arms, weights, k, order, a);
    assert sorted[j].score == Score(arms, weights, k, b) && sorted[i].score > sorted[j].score;
    assert i != j && !(j < i);
    assert Fused(arms, weights, k, order, limit)[i].id == a;
  }

  lemma DominantScores(arms: seq<Rows>, weights: seq<real>, k: nat, order: seq<string>, a: string, b: string)
    requires |weights| == |arms| && IsOrder(arms, order) && Dominates(arms, weights, a, b)
    ensures Score(arms, weights, k, a) > Score(arms, weights, k, b) && a in order
  {
    ScorePrefers(arms, weights, k, a, b);
    var x :| 0 <= x < |arms| && weights[x] > 0.0 && Better(arms[x].ids, a, b);
    assert arms[x].ids[RankIn(arms[x].ids, a).value] in order;
  }

  /** A document no arm ranks worse, and one positively weighted arm ranks better, precedes the
      other: wherever the other is returned, it is returned too, and earlier. */
  lemma DominantComesFirst(arms: seq<Rows>, weights: seq<real>, k: nat, order: seq<string>, limit: nat, a: string, b: string, j: nat)
    requires |weights| == |arms| && IsOrder(arms, order) && Dominates(arms, weights, a, b)
    requires j < |Fused(arms, weights, k, order, limit)| && Fused(arms, weights, k, order, limit)[j].id == b
    ensures exists i :: 0 <= i < j && Fused(arms, weights, k, order, limit)[i].id == a
  {
    DominantScores(arms, weights, k, order, a, b);
    HigherComesFirst(arms, weights, k, order, limit, a, b, j);
  }

  // ----- how ties are broken

  /** Ranked earlier by the arm, or alone. */
  predicate ArmPrefersTo(ids: seq<string>, a: string, b: string) {
    a in ids && (b !in ids || RankIn(ids, a).value < RankIn(ids, b).value)
  }

  /** Some lexical arm ranks `a` earlier than any ranks `b`. */
  ghost predicate LexicallyBefore(arms: seq<Rows>, a: string, b: string) {
    exists x :: 1 <= x < |arms| && a in arms[x].ids
             && forall y :: 1 <= y < |arms| && b in arms[y].ids ==> RankIn(arms[x].ids, a).value < RankIn(arms[y].ids, b).value
  }

  /** The first difference decides, and a prefix comes first. */
  ghost predicate CodePointBefore(a: string, b: string) {
    exists n :: 0 <= n <= |a| && n < |b| && a[..n] == b[..n] && (n == |a| || a[n] < b[n])
  }

  lemma {:induction false} StringLessMeans(a: string, b: string)
    ensures StringLess(a, b) <==> CodePointBefore(a, b)
  {
    if a != "" && b != "" {
      StringLessMeans(a[1..], b[1..]);
      if CodePointBefore(a, b) { TailBefore(a, b); }
      if a[0] == b[0] && CodePointBefore(a[1..], b[1..]) {
        var n :| 0 <= n <= |a[1..]| && n < |b[1..]| && a[1..][..n] == b[1..][..n] && (n == |a[1..]| || a[1..][n] < b[1..][n]);
        assert a[..n + 1] == [a[0]] + a[1..][..n] && b[..n + 1] == [b[0]] + b[1..][..n];
      }
      if a[0] < b[0] { assert a[..0] == b[..0]; }
    } else if b != "" {
      assert a[..0] == b[..0];
    }
  }

  lemma TailBefore(a: string, b: string)
    requires a != "" && b != "" && CodePointBefore(a, b)
    ensures a[0] < b[0] || (a[0] == b[0] && CodePointBefore(a[1..], b[1..]))
  {
    var n :| 0 <= n <= |a| && n < |b| && a[..n] == b[..n] && (n == |a| || a[n] < b[n]);
    if n > 0 {
      assert a[0] == a[..n][0] == b[..n][0] == b[0];
      assert a[1..][..n - 1] == a[..n][1..] == b[..n][1..] == b[1..][..n - 1];
      assert n < |a| ==> a[1..][n - 1] == a[n] && b[1..][n - 1] == b[n];
    }
  }

  lemma {:induction false} LexicalRankMeans(arms: seq<Rows>, id: string)
    ensures var r := LexicalRank(arms, id);
      && (r.Some? ==> exists x :: 1 <= x < |arms| && RankIn(arms[x].ids, id) == r)
      && forall y :: 1 <= y < |arms| && id in arms[y].ids ==> r.Some? && r.value <= RankIn(arms[y].ids, id).value
  {
    if |arms| > 1 {
      var n := |arms| - 1;
      LexicalRankMeans(arms[..n], id);
      if LexicalRank(arms[..n], id).Some? {
        var x :| 1 <= x < n && RankIn(arms[..n][x].ids, id) == LexicalRank(arms[..n], id);
        assert RankIn(arms[x].ids, id) == LexicalRank(arms[..n], id);
      }
      forall y | 1 <= y < n && id in arms[y].ids
        ensures LexicalRank(arms[..n], id).Some? && LexicalRank(arms[..n], id).value <= RankIn(arms[y].ids, id).value
      {
        assert arms[..n][y] == arms[y];
      }
    }
  }

  lemma LexicallyBeforeMeans(arms: seq<Rows>, a: string, b: string)
    ensures RankLess(LexicalRank(arms, a), LexicalRank(arms, b)) <==> LexicallyBefore(arms, a, b)
  {
    LexicalRankMeans(arms, a);
    LexicalRankMeans(arms, b);
  }

  /** What puts one document before another: a higher score; at equal scores the dense arm; where
      that does not tell them apart, the best lexical rank; and at last the id. */
  ghost predicate Precedes(arms: seq<Rows>, weights: seq<real>, k: nat, a: string, b: string)
    requires |weights| == |arms|
  {
    || Score(arms, weights, k, a) > Score(arms, weights, k, b)
    || (Score(arms, weights, k, a) == Score(arms, weights, k, b)
        && (|| (arms != [] && ArmPrefersTo(arms[0].ids, a, b))
            || ((arms == [] || (a !in arms[0].ids && b !in arms[0].ids))
                && (LexicallyBefore(arms, a, b) || (!LexicallyBefore(arms, b, a) && CodePointBefore(a, b))))))
  }

  lemma RanksAgree(arms: seq<Rows>, a: string, b: string)
    ensures LexicalRank(arms, a) == LexicalRank(arms, b) <==> !LexicallyBefore(arms, a, b) && !LexicallyBefore(arms, b, a)
  {
    LexicallyBeforeMeans(arms, a, b);
    LexicallyBeforeMeans(arms, b, a);
  }

  lemma PrecedesIsLess(arms: seq<Rows>, weights: seq<real>, k: nat, a: string, b: string)
    requires |weights| == |arms| && a != b
    ensures Less(CandidateOf(arms, weights, k, a), CandidateOf(arms, weights, k, b)) <==> Precedes(arms, weights, k, a, b)
  {
    LexicallyBeforeMeans(arms, a, b);
    RanksAgree(arms, a, b);
    StringLessMeans(a, b);
  }

  /** A document that precedes another comes first: wherever the other is returned, it is returned
      too, and earlier. */
  lemma PrecedingComesFirst(arms: seq<Rows>, weights: seq<real>, k: nat, order: seq<string>, limit: nat, a: string, b: string, j: nat)
    requires |weights| == |arms| && IsOrder(arms, order) && a in order && a != b && Precedes(arms, weights, k, a, b)
    requires j < |Fused(arms, weights, k, order, limit)| && Fused(arms, weights, k, order, limit)[j].id == b
    ensures exists i :: 0 <= i < j && Fused(arms, weights, k, order, limit)[i].id == a
  {
    var sorted := Sort(Candidates(arms, weights, k, order));
    PrecedesIsLess(arms, weights, k, a, b);
    SortedIds(arms, weights, k, order, j);
    var i := SortedCandidate(arms, weights, k, order, a);
    LessIsStrict(sorted[i], sorted[j]);
    assert i != j && !(j < i);
    assert Fused(arms, weights, k, order, limit)[i].id == a;
  }

  // ----- payloads

  lemma {:induction false} ArmDistance(arm: Rows, n: nat, dense: bool, id: string, start: Payload)
    requires n <= |arm.ids|
    ensures var r := RankIn(arm.ids[..n], id);
      ArmPayload(arm, n, dense, id, start).distance == if dense && r.Some? then DistanceAt(arm, r.value) else start.distance
  {
    if n > 0 {
      ArmDistance(arm, n - 1, dense, id, start);
      assert arm.ids[..n][..n - 1] == arm.ids[..n - 1];
    }
  }

  /** A returned distance is the dense arm's own, or none. */
  lemma {:induction false} DistanceIsDense(arms: seq<Rows>, id: string)
    ensures PayloadOf(arms, id).distance ==
              if DenseRank(arms, id).Some? then DistanceAt(arms[0], DenseRank(arms, id).value) else None
  {
    if arms != [] {
      var n := |arms| - 1;
      DistanceIsDense(arms[..n], id);
      ArmDistance(arms[n], |arms[n].ids|, n == 0, id, PayloadOf(arms[..n], id));
      assert arms[n].ids[..|arms[n].ids|] == arms[n].ids;
    }
  }

  /** A text that one arm's row with that id supplies, or nothing. */
  ghost predicate HasText(arms: seq<Rows>, id: string, text: string) {
    text == "" || exists a, r :: 0 <= a < |arms| && 0 <= r < |arms[a].ids| && arms[a].ids[r] == id && DocumentAt(arms[a], r) == text
  }

  lemma {:induction false} ArmText(arm: Rows, n: nat, dense: bool, id: string, start: Payload)
    requires n <= |arm.ids|
    ensures var text := ArmPayload(arm, n, dense, id, start).document;
      text == start.document || exists r :: 0 <= r < n && arm.ids[r] == id && DocumentAt(arm, r) == text
    ensures ArmPayload(arm, n, dense, id, start).document == "" ==>
              start.document == "" && forall r :: 0 <= r < n && arm.ids[r] == id ==> DocumentAt(arm, r) == ""
  {
    if n > 0 { ArmText(arm, n - 1, dense, id, start); }
  }

  /** A document's text comes from a row with its id, and is missing only if every such row lacks it. */
  lemma {:induction false} TextIsItsOwn(arms: seq<Rows>, id: string)
    ensures HasText(arms, id, PayloadOf(arms, id).document)
    ensures PayloadOf(arms, id).document == "" ==>
              forall a, r :: 0 <= a < |arms| && 0 <= r < |arms[a].ids| && arms[a].ids[r] == id ==> DocumentAt(arms[a], r) == ""
  {
    if arms != [] {
      var n := |arms| - 1;
      TextIsItsOwn(arms[..n], id);
      var start := PayloadOf(arms[..n], id);
      ArmText(arms[n], |arms[n].ids|, n == 0, id, start);
      var text := PayloadOf(arms, id).document;
      if text != "" {
        if text == start.document {
          var a, r :| 0 <= a < n && 0 <= r < |arms[..n][a].ids| && arms[..n][a].ids[r] == id && DocumentAt(arms[..n][a], r) == text;
          assert arms[a].ids[r] == id && DocumentAt(arms[a], r) == text;
        } else {
          var r :| 0 <= r < |arms[n].ids| && arms[n].ids[r] == id && DocumentAt(arms[n], r) == text;
        }
      } else {
        forall a, r | 0 <= a < |arms| && 0 <= r < |arms[a].ids| && arms[a].ids[r] == id ensures DocumentAt(arms[a], r) == "" {
          if a < n { assert arms[..n][a] == arms[a]; }
        }
      }
    }
  }

  ghost predicate IsRow(arms: seq<Rows>, id: string, a: nat, r: nat) { a < |arms| && r < |arms[a].ids| && arms[a].ids[r] == id }

  /** No row of the document before this one, in the order of the arms, supplies a text. */
  ghost predicate FirstText(arms: seq<Rows>, id: string, a: nat, r: nat) {
    forall b: nat, q: nat :: IsRow(arms, id, b, q) && (b < a || (b == a && q < r)) ==> DocumentAt(arms[b], q) == ""
  }

  ghost predicate FirstMetadata(arms: seq<Rows>, id: string, a: nat, r: nat) {
    forall b: nat, q: nat :: IsRow(arms, id, b, q) && (b < a || (b == a && q < r)) ==> MetadataAt(arms[b], q) == map[]
  }

  lemma {:induction false} ArmFirst(arm: Rows, n: nat, dense: bool, id: string, start: Payload, r: nat)
    requires r < n <= |arm.ids| && arm.ids[r] == id
    ensures start.document == "" && DocumentAt(arm, r) != "" && (forall q :: 0 <= q < r && arm.ids[q] == id ==> DocumentAt(arm, q) == "") ==>
              ArmPayload(arm, n, dense, id, start).document == DocumentAt(arm, r)
    ensures start.metadata == map[] && MetadataAt(arm, r) != map[] && (forall q :: 0 <= q < r && arm.ids[q] == id ==> MetadataAt(arm, q) == map[]) ==>
              ArmPayload(arm, n, dense, id, start).metadata == MetadataAt(arm, r)
    decreases n
  {
    if r < n - 1 { ArmFirst(arm, n - 1, dense, id, start, r); } else { ArmNothing(arm, r, dense, id, start); }
  }

  lemma {:induction false} ArmNothing(arm: Rows, n: nat, dense: bool, id: string, start: Payload)
    requires n <= |arm.ids|
    ensures (forall q :: 0 <= q < n && arm.ids[q] == id ==> DocumentAt(arm, q) == "") ==>
              ArmPayload(arm, n, dense, id, start).document == start.document
    ensures (forall q :: 0 <= q < n && arm.ids[q] == id ==> MetadataAt(arm, q) == map[]) ==>
              ArmPayload(arm, n, dense, id, start).metadata == start.metadata
    ensures start.document != "" ==> ArmPayload(arm, n, dense, id, start).document == start.document
    ensures start.metadata != map[] ==> ArmPayload(arm, n, dense, id, start).metadata == start.metadata
    decreases n
  {
    if n > 0 { ArmNothing(arm, n - 1, dense, id, start); }
  }

  /** The first text that any row of the document supplies is its text, and so with its metadata. */
  lemma {:induction false} FirstSupplied(arms: seq<Rows>, id: string, a: nat, r: nat)
    requires IsRow(arms, id, a, r)
    ensures DocumentAt(arms[a], r) != "" && FirstText(arms, id, a, r) ==> PayloadOf(arms, id).document == DocumentAt(arms[a], r)
    ensures MetadataAt(arms[a], r) != map[] && FirstMetadata(arms, id, a, r) ==> PayloadOf(arms, id).metadata == MetadataAt(arms[a], r)
    decreases |arms|
  {
    var n := |arms| - 1;
    if a < n {
      assert forall b: nat, q: nat :: IsRow(arms[..n], id, b, q) ==> IsRow(arms, id, b, q) && arms[..n][b] == arms[b];
      FirstSupplied(arms[..n], id, a, r);
      ArmNothing(arms[n], |arms[n].ids|, n == 0, id, PayloadOf(arms[..n], id));
    } else {
      assert forall b: nat, q: nat :: IsRow(arms[..n], id, b, q) ==> IsRow(arms, id, b, q) && arms[..n][b] == arms[b];
      assert forall q: nat :: q < r && arms[a].ids[q] == id ==> IsRow(arms, id, a, q);
      if FirstText(arms, id, a, r) { NoText(arms[..n], id); }
      if FirstMetadata(arms, id, a, r) { NoMetadata(arms[..n], id); }
      ArmFirst(arms[n], |arms[n].ids|, n == 0, id, PayloadOf(arms[..n], id), r);
    }
  }

  lemma {:induction false} NoText(arms: seq<Rows>, id: string)
    requires forall b: nat, q: nat :: IsRow(arms, id, b, q) ==> DocumentAt(arms[b], q) == ""
    ensures PayloadOf(arms, id).document == ""
    decreases |arms|
  {
    if arms != [] {
      var n := |arms| - 1;
      assert forall b: nat, q: nat :: IsRow(arms[..n], id, b, q) ==> IsRow(arms, id, b, q) && arms[..n][b] == arms[b];
      NoText(arms[..n], id);
      assert forall q: nat :: q < |arms[n].ids| && arms[n].ids[q] == id ==> IsRow(arms, id, n, q);
      ArmNothing(arms[n], |arms[n].ids|, n == 0, id, PayloadOf(arms[..n], id));
    }
  }

  lemma {:induction false} NoMetadata(arms: seq<Rows>, id: string)
    requires forall b: nat, q: nat :: IsRow(arms, id, b, q) ==> MetadataAt(arms[b], q) == map[]
    ensures PayloadOf(arms, id).metadata == map[]
    decreases |arms|
  {
    if arms != [] {
      var n := |arms| - 1;
      assert forall b: nat, q: nat :: IsRow(arms[..n], id, b, q) ==> IsRow(arms, id, b, q) && arms[..n][b] == arms[b];
      NoMetadata(arms[..n], id);
      assert forall q: nat :: q < |arms[n].ids| && arms[n].ids[q] == id ==> IsRow(arms, id, n, q);
      ArmNothing(arms[n], |arms[n].ids|, n == 0, id, PayloadOf(arms[..n], id));
    }
  }

  // ----- the dictionaries the fusion fills

  /** `order` lists the keys as the dictionaries do, by first insertion. */
  datatype Tables = Tables(order: seq<string>, scores: map<string, real>, ranks: map<string, map<nat, nat>>, payloads: map<string, Payload>)

  function ScoreIn(t: Tables, id: string): real { if id in t.scores then t.scores[id] else 0.0 }
  function RanksIn(t: Tables, id: string): map<nat, nat> { if id in t.ranks then t.ranks[id] else map[] }
  function PayloadIn(t: Tables, id: string): Payload { if id in t.payloads then t.payloads[id] else NO_PAYLOAD }

  /** One row of one arm: the loop body. */
  function AddRow(t: Tables, arm: Rows, weight: real, k: nat, a: nat, n: nat): Tables
    requires n < |arm.ids|
  {
    var id := arm.ids[n];
    Tables(if id in t.scores then t.order else t.order + [id],
           t.scores[id := ScoreIn(t, id) + weight / ((k + n + 1) as real)],
           t.ranks[id := RanksIn(t, id)[a := n]],
           t.payloads[id := Merge(PayloadIn(t, id), arm, n, a == 0)])
  }

  /** What an entry says after all of the first `a` arms and `n` rows of the next. */
  ghost predicate EntryMatches(t: Tables, arms: seq<Rows>, weights: seq<real>, k: nat, a: nat, n: nat, id: string)
    requires |weights| == |arms| && a < |arms| && n <= |arms[a].ids|
  {
    && ScoreIn(t, id) == Score(arms[..a], weights[..a], k, id) + ArmScore(arms[a].ids[..n], weights[a], k, id)
    && PayloadIn(t, id) == ArmPayload(arms[a], n, a == 0, id, PayloadOf(arms[..a], id))
    && (forall b :: 0 <= b < a ==> RankMatches(RanksIn(t, id), b, RankIn(arms[b].ids, id)))
    && RankMatches(RanksIn(t, id), a, RankIn(arms[a].ids[..n], id))
    && (id in t.scores <==> Found(arms[..a], id) || id in arms[a].ids[..n])
  }

  predicate RankMatches(ranks: map<nat, nat>, a: nat, r: Option<nat>) {
    if r.Some? then a in ranks && ranks[a] == r.value else a !in ranks
  }

  /** The same, once every one of the first `a` arms is in. */
  ghost predicate EntryComplete(t: Tables, arms: seq<Rows>, weights: seq<real>, k: nat, a: nat, id: string)
    requires |weights| == |arms| && a <= |arms|
  {
    && ScoreIn(t, id) == Score(arms[..a], weights[..a], k, id)
    && PayloadIn(t, id) == PayloadOf(arms[..a], id)
    && (forall b :: 0 <= b < a ==> RankMatches(RanksIn(t, id), b, RankIn(arms[b].ids, id)))
    && (forall b :: b in RanksIn(t, id) ==> b < a)
    && (id in t.scores <==> Found(arms[..a], id))
  }

  ghost predicate IsTable(t: Tables) {
    NoDuplicates(t.order) && forall id :: id in t.order <==> id in t.scores
  }

  lemma ArmScoreStep(ids: seq<string>, weight: real, k: nat, n: nat, id: string)
    requires n < |ids|
    ensures ArmScore(ids[..n + 1], weight, k, id)
         == ArmScore(ids[..n], weight, k, id) + if ids[n] == id then weight / ((k + n + 1) as real) else 0.0
    ensures RankIn(ids[..n + 1], id) == if ids[n] == id then Some(n) else RankIn(ids[..n], id)
    ensures id in ids[..n + 1] <==> id in ids[..n] || id == ids[n]
  {
    assert ids[..n + 1][..n] == ids[..n] && ids[..n + 1] == ids[..n] + [ids[n]];
  }

  lemma AddRowMatches(t: Tables, arms: seq<Rows>, weights: seq<real>, k: nat, a: nat, n: nat, id: string)
    requires |weights| == |arms| && a < |arms| && n < |arms[a].ids| && EntryMatches(t, arms, weights, k, a, n, id)
    ensures EntryMatches(AddRow(t, arms[a], weights[a], k, a, n), arms, weights, k, a, n + 1, id)
  {
    ArmScoreStep(arms[a].ids, weights[a], k, n, id);
    if id != arms[a].ids[n] {
      OtherEntry(t, arms[a], weights[a], k, a, n, id);
    } else {
      OwnEntry(t, arms[a], weights[a], k, a, n);
    }
  }

  /** A row leaves the entries of other ids alone. */
  lemma OtherEntry(t: Tables, arm: Rows, weight: real, k: nat, a: nat, n: nat, id: string)
    requires n < |arm.ids| && id != arm.ids[n]
    ensures var r := AddRow(t, arm, weight, k, a, n);
      && ScoreIn(r, id) == ScoreIn(t, id) && RanksIn(r, id) == RanksIn(t, id) && PayloadIn(r, id) == PayloadIn(t, id)
      && (id in r.scores <==> id in t.scores)
  {}

  lemma OwnEntry(t: Tables, arm: Rows, weight: real, k: nat, a: nat, n: nat)
    requires n < |arm.ids|
    ensures var r, id := AddRow(t, arm, weight, k, a, n), arm.ids[n];
      && ScoreIn(r, id) == ScoreIn(t, id) + weight / ((k + n + 1) as real) && RanksIn(r, id) == RanksIn(t, id)[a := n]
      && PayloadIn(r, id) == Merge(PayloadIn(t, id), arm, n, a == 0) && id in r.scores
  {}

  lemma ArmStarts(t: Tables, arms: seq<Rows>, weights: seq<real>, k: nat, a: nat, id: string)
    requires |weights| == |arms| && a < |arms| && EntryComplete(t, arms, weights, k, a, id)
    ensures EntryMatches(t, arms, weights, k, a, 0, id)
  {}

  lemma FoundStep(arms: seq<Rows>, a: nat, id: string)
    requires a < |arms|
    ensures Found(arms[..a + 1], id) <==> Found(arms[..a], id) || id in arms[a].ids
  {
    var more := arms[..a + 1];
    if Found(arms[..a], id) {
      var b :| 0 <= b < a && id in arms[..a][b].ids;
      assert id in more[b].ids;
    }
    if id in arms[a].ids { assert id in more[a].ids; }
    if Found(more, id) {
      var b :| 0 <= b < a + 1 && id in more[b].ids;
      assert b < a ==> id in arms[..a][b].ids;
    }
  }

  lemma ArmEnds(t: Tables, arms: seq<Rows>, weights: seq<real>, k: nat, a: nat, id: string)
    requires |weights| == |arms| && a < |arms| && EntryMatches(t, arms, weights, k, a, |arms[a].ids|, id)
    requires forall b :: b in RanksIn(t, id) ==> b <= a
    ensures EntryComplete(t, arms, weights, k, a + 1, id)
  {
    FoundStep(arms, a, id);
    assert arms[..a + 1][..a] == arms[..a] && weights[..a + 1][..a] == weights[..a];
    TakeAll(arms[a].ids);
  }

  function LeastLexical(ranks: map<nat, nat>, n: nat): Option<nat> {
    if n <= 1 then None else Least(LeastLexical(ranks, n - 1), if n - 1 in ranks then Some(ranks[n - 1]) else None)
  }

  lemma {:induction false} LeastLexicalIsRank(ranks: map<nat, nat>, arms: seq<Rows>, n: nat, id: string)
    requires n <= |arms| && forall b :: 0 <= b < n ==> RankMatches(ranks, b, RankIn(arms[b].ids, id))
    ensures LeastLexical(ranks, n) == LexicalRank(arms[..n], id)
  {
    if n > 1 {
      LeastLexicalIsRank(ranks, arms, n - 1, id);
      assert arms[..n][..n - 1] == arms[..n - 1];
      assert RankMatches(ranks, n - 1, RankIn(arms[n - 1].ids, id));
    }
  }

  lemma CandidateFromTables(t: Tables, arms: seq<Rows>, weights: seq<real>, k: nat, id: string)
    requires |weights| == |arms| && EntryComplete(t, arms, weights, k, |arms|, id)
    ensures Candidate(id, ScoreIn(t, id), if 0 in RanksIn(t, id) then Some(RanksIn(t, id)[0]) else None,
                      LeastLexical(RanksIn(t, id), |arms|), PayloadIn(t, id))
            == CandidateOf(arms, weights, k, id)
  {
    assert arms[..|arms|] == arms && weights[..|arms|] == weights;
    LeastLexicalIsRank(RanksIn(t, id), arms, |arms|, id);
    if arms != [] { assert RankMatches(RanksIn(t, id), 0, RankIn(arms[0].ids, id)); }
  }

  lemma OrderFromTables(t: Tables, arms: seq<Rows>, weights: seq<real>, k: nat)
    requires |weights| == |arms| && AllComplete(t, arms, weights, k, |arms|)
    ensures IsOrder(arms, t.order)
  {
    assert arms[..|arms|] == arms;
    forall i | 0 <= i < |t.order| ensures Found(arms, t.order[i]) {
      assert t.order[i] in t.order && EntryComplete(t, arms, weights, k, |arms|, t.order[i]);
    }
    forall a, r | 0 <= a < |arms| && 0 <= r < |arms[a].ids| ensures arms[a].ids[r] in t.order {
      assert EntryComplete(t, arms, weights, k, |arms|, arms[a].ids[r]) && Found(arms, arms[a].ids[r]);
    }
  }

  ghost predicate AllMatch(t: Tables, arms: seq<Rows>, weights: seq<real>, k: nat, a: nat, n: nat)
    requires |weights| == |arms| && a < |arms| && n <= |arms[a].ids|
  {
    IsTable(t) && (forall id :: EntryMatches(t, arms, weights, k, a, n, id)) && forall id, b :: b in RanksIn(t, id) ==> b <= a
  }

  ghost predicate AllComplete(t: Tables, arms: seq<Rows>, weights: seq<real>, k: nat, a: nat)
    requires |weights| == |arms| && a <= |arms|
  {
    IsTable(t) && forall id :: EntryComplete(t, arms, weights, k, a, id)
  }

  lemma AllStart(t: Tables, arms: seq<Rows>, weights: seq<real>, k: nat, a: nat)
    requires |weights| == |arms| && a < |arms| && AllComplete(t, arms, weights, k, a)
    ensures AllMatch(t, arms, weights, k, a, 0)
  {
    forall id ensures EntryMatches(t, arms, weights, k, a, 0, id) { ArmStarts(t, arms, weights, k, a, id); }
    forall id, b | b in RanksIn(t, id) ensures b <= a { assert EntryComplete(t, arms, weights, k, a, id); }
  }

  lemma AllAddRow(t: Tables, arms: seq<Rows>, weights: seq<real>, k: nat, a: nat, n: nat, m: nat)
    requires |weights| == |arms| && a < |arms| && n < |arms[a].ids| && m == n + 1 && AllMatch(t, arms, weights, k, a, n)
    ensures AllMatch(AddRow(t, arms[a], weights[a], k, a, n), arms, weights, k, a, m)
  {
    var r := AddRow(t, arms[a], weights[a], k, a, n);
    forall id ensures EntryMatches(r, arms, weights, k, a, m, id) {
      assert EntryMatches(t, arms, weights, k, a, n, id);
      AddRowMatches(t, arms, weights, k, a, n, id);
    }
    forall id, b | b in RanksIn(r, id) ensures b <= a {
      assert b == a || b in RanksIn(t, id);
    }
  }

  lemma AllEnd(t: Tables, arms: seq<Rows>, weights: seq<real>, k: nat, a: nat, next: nat)
    requires |weights| == |arms| && a < |arms| && next == a + 1 && AllMatch(t, arms, weights, k, a, |arms[a].ids|)
    ensures AllComplete(t, arms, weights, k, next)
  {
    forall id ensures EntryComplete(t, arms, weights, k, next, id) {
      assert EntryMatches(t, arms, weights, k, a, |arms[a].ids|, id);
      ArmEnds(t, arms, weights, k, a, id);
    }
  }

  method AddArm(before: Tables, arms: seq<Rows>, weights: seq<real>, k: nat, a: nat) returns (t: Tables)
    requires |weights| == |arms| && a < |arms| && AllComplete(before, arms, weights, k, a)
    ensures AllComplete(t, arms, weights, k, a + 1)
  {
    t := before;
    AllStart(t, arms, weights, k, a);
    for rank := 0 to |arms[a].ids|
      invariant AllMatch(t, arms, weights, k, a, rank)
    {
      AllAddRow(t, arms, weights, k, a, rank, rank + 1);
      t := AddRow(t, arms[a], weights[a], k, a, rank);
    }
    AllEnd(t, arms, weights, k, a, a + 1);
  }

  method CandidatesFromTables(t: Tables, arms: seq<Rows>, ghost weights: seq<real>, ghost k: nat) returns (candidates: seq<Candidate>)
    requires |weights| == |arms| && AllComplete(t, arms, weights, k, |arms|)
    ensures candidates == Candidates(arms, weights, k, t.order)
  {
    candidates := [];
    for i := 0 to |t.order|
      invariant |candidates| == i
      invariant forall j :: 0 <= j < i ==> candidates[j] == CandidateOf(arms, weights, k, t.order[j])
    {
      var id := t.order[i];
      assert EntryComplete(t, arms, weights, k, |arms|, id);
      CandidateFromTables(t, arms, weights, k, id);
      var ranks := RanksIn(t, id);
      candidates := candidates + [Candidate(id, ScoreIn(t, id), if 0 in ranks then Some(ranks[0]) else None,
                                            LeastLexical(ranks, |arms|), PayloadIn(t, id))];
    }
  }

  lemma NothingYet(arms: seq<Rows>, weights: seq<real>, k: nat)
    requires |weights| == |arms|
    ensures AllComplete(Tables([], map[], map[], map[]), arms, weights, k, 0)
  {}

  /** The fusion.  None stands for the error of weights that are not parallel to the arms. */
  method ReciprocalRankFusion(arms: seq<Rows>, k: nat, weights: seq<real>, limit: nat) returns (r: Option<Rows>)
    ensures r == None <==> |weights| != |arms|
    ensures r.Some? ==> exists order :: IsOrder(arms, order) && r.value == ToRows(Fused(arms, weights, k, order, limit))
    ensures r.Some? ==> forall order :: IsOrder(arms, order) ==> r.value == ToRows(Fused(arms, weights, k, order, limit))
  {
    if |weights| != |arms| { return None; }
    var t := Tables([], map[], map[], map[]);
    NothingYet(arms, weights, k);
    for a := 0 to |arms|
      invariant AllComplete(t, arms, weights, k, a)
    {
      t := AddArm(t, arms, weights, k, a);
    }
    OrderFromTables(t, arms, weights, k);
    var candidates := CandidatesFromTables(t, arms, weights, k);
    var sorted := Sort(candidates);
    r := Some(ToRows(Take(sorted, limit)));
    forall order | IsOrder(arms, order) ensures r.value == ToRows(Fused(arms, weights, k, order, limit)) {
      OrderIrrelevant(arms, weights, k, t.order, order, limit);
    }
  }
}
