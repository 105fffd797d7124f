/** From retrieved rows to the numbered blocks a model reads: re-rank, relevance threshold,
    top-K and context budget, over four lists that must stay in step. */
module RetrievalChain {
  import opened Wrappers
  import opened RankFusion
  import Fingerprint
  import LexicalScore
  import Rerank

  /** The re-ranking stage; `tokenise` and the logarithm behind `idf` are any functions. */
  datatype Reranker = Reranker(tokenise: string -> seq<string>, weight: real, idf: LexicalScore.Idf, topK: nat)

  /** What a block's label shows after its number. */
  type Labels = Metadata -> string

  const SEPARATOR := "\n\n"

  const EMPTY := Rows([], [], [], [])

  // ----- rows

  function IdAt(rows: Rows, i: nat): string { if i < |rows.ids| then rows.ids[i] else "" }

  function DistanceOr(rows: Rows, i: nat, absent: Option<real>): Option<real> {
    if i < |rows.distances| then rows.distances[i] else absent
  }

  /** The rows at the given positions, all four lists permuted alike; a row a short list does not
      reach gets an empty id and metadata, and the distance `absent`. */
  function Pick(rows: Rows, at: seq<nat>, absent: Option<real>): (r: Rows)
    ensures |r.ids| == |r.documents| == |r.metadatas| == |r.distances| == |at|
    ensures forall a :: 0 <= a < |at| ==>
              && r.ids[a] == IdAt(rows, at[a]) && r.documents[a] == DocumentAt(rows, at[a])
              && r.metadatas[a] == MetadataAt(rows, at[a]) && r.distances[a] == DistanceOr(rows, at[a], absent)
  {
    Rows(seq(|at|, a requires 0 <= a < |at| => IdAt(rows, at[a])),
         seq(|at|, a requires 0 <= a < |at| => DocumentAt(rows, at[a])),
         seq(|at|, a requires 0 <= a < |at| => MetadataAt(rows, at[a])),
         seq(|at|, a requires 0 <= a < |at| => DistanceOr(rows, at[a], absent)))
  }

  /** What is picked is the row's own, list by list. */
  lemma PickedFrom(rows: Rows, at: seq<nat>, absent: Option<real>, a: nat)
    requires a < |at|
    ensures Pick(rows, at, absent).ids[a] == (if at[a] < |rows.ids| then rows.ids[at[a]] else "")
    ensures at[a] < |rows.documents| ==> Pick(rows, at, absent).documents[a] == rows.documents[at[a]]
    ensures at[a] < |rows.metadatas| ==> Pick(rows, at, absent).metadatas[a] == rows.metadatas[at[a]]
    ensures at[a] >= |rows.metadatas| ==> Pick(rows, at, absent).metadatas[a] == map[]
    ensures Pick(rows, at, absent).distances[a] == (if at[a] < |rows.distances| then rows.distances[at[a]] else absent)
  {}

  function Through(order: seq<nat>, at: seq<nat>): (r: seq<nat>)
    requires Rerank.Within(at, |order|)
    ensures |r| == |at| && forall a :: 0 <= a < |at| ==> r[a] == order[at[a]]
  {
    seq(|at|, a requires 0 <= a < |at| => order[at[a]])
  }

  /** Picking from what was picked is picking through it. */
  lemma PickPick(rows: Rows, order: seq<nat>, at: seq<nat>, absent: Option<real>, other: Option<real>)
    requires Rerank.Within(at, |order|)
    ensures Pick(Pick(rows, order, absent), at, other) == Pick(rows, Through(order, at), absent)
  {
    var l, r := Pick(Pick(rows, order, absent), at, other), Pick(rows, Through(order, at), absent);
    assert l.ids == r.ids;
    assert l.documents == r.documents;
    assert l.metadatas == r.metadatas;
    assert l.distances == r.distances;
  }

  lemma PickTake(rows: Rows, at: seq<nat>, absent: Option<real>, k: nat)
    ensures TakeRows(Pick(rows, at, absent), k) == Pick(rows, Take(at, k), absent)
  {
    var l, r := TakeRows(Pick(rows, at, absent), k), Pick(rows, Take(at, k), absent);
    assert l.ids == r.ids;
    assert l.documents == r.documents;
    assert l.metadatas == r.metadatas;
    assert l.distances == r.distances;
  }

  function TakeRows(rows: Rows, k: nat): Rows {
    Rows(Take(rows.ids, k), Take(rows.documents, k), Take(rows.metadatas, k), Take(rows.distances, k))
  }

  // ----- re-ranking

  /** Similarity for the re-ranker; neutral where no distance is recorded. */
  function Similarities(rows: Rows): (r: seq<real>)
    ensures |r| == |rows.documents|
  {
    seq(|rows.documents|, i requires 0 <= i < |rows.documents| =>
      if i < |rows.distances| && rows.distances[i].Some? then 1.0 - rows.distances[i].value else 0.0)
  }

  function Tokens(ranker: Reranker, docs: seq<string>): (r: seq<seq<string>>)
    ensures |r| == |docs|
  {
    seq(|docs|, i requires 0 <= i < |docs| => ranker.tokenise(docs[i]))
  }

  /** The order in which rows reach the threshold. */
  function RowOrder(ranker: Option<Reranker>, terms: seq<string>, rows: Rows): (r: seq<nat>)
  {
    match ranker
    case None => Rerank.Given(|rows.documents|)
    case Some(k) =>
      Rerank.Descending(Rerank.Blend(Similarities(rows), LexicalScore.Scores(terms, Tokens(k, rows.documents), k.idf), k.weight))
  }

  lemma {:induction false} GivenWithin(n: nat)
    ensures Rerank.Within(Rerank.Given(n), n) && NoDuplicates(Rerank.Given(n))
  {
    forall a | 0 <= a < n ensures Rerank.Given(n)[a] == a { Rerank.GivenAt(n, a); }
  }

  /** With or without re-ranking, every retrieved row is there exactly once. */
  lemma RowOrderLists(ranker: Option<Reranker>, terms: seq<string>, rows: Rows)
    ensures Rerank.Listing(RowOrder(ranker, terms, rows), |rows.documents|)
    ensures Rerank.Within(RowOrder(ranker, terms, rows), |rows.documents|)
  {
    match ranker
    case None => GivenWithin(|rows.documents|);
    case Some(k) =>
      Rerank.DescendingIsOrder(
        Rerank.Blend(Similarities(rows), LexicalScore.Scores(terms, Tokens(k, rows.documents), k.idf), k.weight));
  }

  const MISSING_DISTANCE := Some(1.0)

  method ApplyRerank(ranker: Reranker, terms: seq<string>, rows: Rows) returns (r: Rows)
    requires LexicalScore.Positive(ranker.idf)
    ensures r == if rows.documents == [] then rows else Pick(rows, RowOrder(Some(ranker), terms, rows), Some(1.0))
  {
    if rows.documents == [] { return rows; }
    var docs := Tokens(ranker, rows.documents);
    var order := Rerank.Rerank(terms, docs, ranker.idf, Similarities(rows), ranker.weight, None);
    r := Pick(rows, order.value, MISSING_DISTANCE);
  }

  // ----- the threshold

  /** A distance recorded as None is a literal match, which the threshold says nothing about; a
      distance a short list lacks scores zero. */
  predicate Passes(rows: Rows, i: nat, threshold: real) {
    if i < |rows.distances| then rows.distances[i].None? || 1.0 - rows.distances[i].value >= threshold
    else 0.0 >= threshold
  }

  /** The passing positions, in order. */
  function Passing(rows: Rows, threshold: real, order: seq<nat>): seq<nat> {
    if order == [] then []
    else
      var n := |order| - 1;
      Passing(rows, threshold, order[..n]) + if Passes(rows, order[n], threshold) then [order[n]] else []
  }

  lemma {:induction false} PassingAre(rows: Rows, threshold: real, order: seq<nat>)
    ensures forall i :: i in Passing(rows, threshold, order) <==> i in order && Passes(rows, i, threshold)
    decreases |order|
  {
    if order != [] {
      var n := |order| - 1;
      PassingAre(rows, threshold, order[..n]);
      assert order == order[..n] + [order[n]];
    }
  }

  lemma {:induction false} PassingWithin(rows: Rows, threshold: real, order: seq<nat>, bound: nat)
    requires Rerank.Within(order, bound)
    ensures Rerank.Within(Passing(rows, threshold, order), bound)
    ensures NoDuplicates(order) ==> NoDuplicates(Passing(rows, threshold, order))
  {
    if order != [] {
      var n := |order| - 1;
      PassingWithin(rows, threshold, order[..n], bound);
      PassingAre(rows, threshold, order[..n]);
      var before := Passing(rows, threshold, order[..n]);
      if NoDuplicates(order) {
        forall i | 0 <= i < |before| ensures before[i] != order[n] { assert before[i] in before; }
      }
    }
  }

  lemma ThroughMore(order: seq<nat>, at: seq<nat>, reached: seq<nat>, i: nat, more: bool)
    requires Rerank.Within(at, |order|) && i < |order| && Through(order, at) == reached
    ensures var longer := at + if more then [i] else [];
      Rerank.Within(longer, |order|) && Through(order, longer) == reached + if more then [order[i]] else []
  {}

  lemma {:induction false} GivenPassing(rows: Rows, picked: Rows, threshold: real, order: seq<nat>, n: nat)
    requires n <= |order| && forall a :: 0 <= a < n ==> (Passes(picked, a, threshold) <==> Passes(rows, order[a], threshold))
    ensures Rerank.Within(Passing(picked, threshold, Rerank.Given(n)), |order|)
    ensures Through(order, Passing(picked, threshold, Rerank.Given(n))) == Passing(rows, threshold, order[..n])
    decreases n
  {
    if n > 0 {
      GivenPassing(rows, picked, threshold, order, n - 1);
      GivenStep(picked, threshold, n - 1);
      PassingStep(rows, threshold, order, n - 1);
      ThroughMore(order, Passing(picked, threshold, Rerank.Given(n - 1)), Passing(rows, threshold, order[..n - 1]), n - 1,
                  Passes(picked, n - 1, threshold));
    }
  }

  lemma GivenStep(rows: Rows, threshold: real, n: nat)
    ensures Passing(rows, threshold, Rerank.Given(n + 1))
         == Passing(rows, threshold, Rerank.Given(n)) + if Passes(rows, n, threshold) then [n] else []
  {
    assert Rerank.Given(n + 1)[..n] == Rerank.Given(n);
  }

  lemma PassingStep(rows: Rows, threshold: real, order: seq<nat>, n: nat)
    requires n < |order|
    ensures Passing(rows, threshold, order[..n + 1])
         == Passing(rows, threshold, order[..n]) + if Passes(rows, order[n], threshold) then [order[n]] else []
  {
    assert order[..n + 1][..n] == order[..n];
  }

  /** Re-ranking fills a missing distance with 1, which scores the zero it scored before: the same
      rows pass, in the new order. */
  lemma PassingAfterPick(rows: Rows, threshold: real, order: seq<nat>)
    ensures var at := Passing(Pick(rows, order, MISSING_DISTANCE), threshold, Rerank.Given(|order|));
            Rerank.Within(at, |order|) && Through(order, at) == Passing(rows, threshold, order)
  {
    GivenPassing(rows, Pick(rows, order, MISSING_DISTANCE), threshold, order, |order|);
    TakeAll(order);
  }

  /** How many rows pass does not depend on the order they come in. */
  lemma {:induction false} PassingCount(rows: Rows, threshold: real, order: seq<nat>)
    requires Rerank.Listing(order, |rows.documents|)
    ensures |Passing(rows, threshold, order)| == |set i: nat | i < |rows.documents| && Passes(rows, i, threshold)|
  {
    var passing := Passing(rows, threshold, order);
    assert Rerank.Within(order, |order|) by {
      forall a | 0 <= a < |order| ensures order[a] < |order| { assert order[a] in order; }
    }
    PassingWithin(rows, threshold, order, |order|);
    PassingAre(rows, threshold, order);
    DistinctCount(passing);
    assert Members(passing) == (set i: nat | i < |rows.documents| && Passes(rows, i, threshold));
  }

  function Members(s: seq<nat>): set<nat> { set i | i in s }

  lemma {:induction false} DistinctCount(s: seq<nat>)
    requires NoDuplicates(s)
    ensures |Members(s)| == |s|
  {
    if s != [] {
      var n := |s| - 1;
      DistinctCount(s[..n]);
      assert s == s[..n] + [s[n]];
      assert s[n] !in Members(s[..n]);
      assert Members(s) == Members(s[..n]) + {s[n]};
    }
  }

  /** The passing rows keep the order they come in. */
  lemma {:induction false} PassingInOrder(rows: Rows, threshold: real, order: seq<nat>, i: nat, j: nat)
    requires Rerank.Precedes(order, i, j) && Passes(rows, i, threshold) && Passes(rows, j, threshold)
    ensures Rerank.Precedes(Passing(rows, threshold, order), i, j)
    decreases |order|
  {
    var n := |order| - 1;
    var a, b :| 0 <= a < b < |order| && order[a] == i && order[b] == j;
    var before, all := Passing(rows, threshold, order[..n]), Passing(rows, threshold, order);
    PassingAre(rows, threshold, order[..n]);
    if b < n {
      assert order[..n][a] == i && order[..n][b] == j;
      PassingInOrder(rows, threshold, order[..n], i, j);
      var c, d :| 0 <= c < d < |before| && before[c] == i && before[d] == j;
      assert all[c] == i && all[d] == j;
    } else {
      assert order[..n][a] == i;
      var c :| 0 <= c < |before| && before[c] == i;
      assert all[c] == i && all[|before|] == j;
    }
  }

  /** The distance a row is known by, 1 for one without. */
  function KnownDistance(rows: Rows, i: nat): real {
    if i < |rows.distances| && rows.distances[i].Some? then rows.distances[i].value else 1.0
  }

  /** The nearer of two rows is the more similar, and a row with a distance passes exactly if it is
      at least as similar as the threshold asks. */
  lemma SimilarityMeans(rows: Rows, i: nat, j: nat, threshold: real)
    requires i < |rows.documents| && j < |rows.documents|
    ensures Similarities(rows)[i] > Similarities(rows)[j] <==> KnownDistance(rows, i) < KnownDistance(rows, j)
    ensures Similarities(rows)[i] == 1.0 - KnownDistance(rows, i)
    ensures (i < |rows.distances| && rows.distances[i].None?) || (Passes(rows, i, threshold) <==> Similarities(rows)[i] >= threshold)
  {}

  /** A row no farther than another, and no worse a match of the question's words, comes before it:
      if it was retrieved first, or is nearer, or matches better, where that counts at all. */
  lemma BetterRowFirst(ranker: Reranker, terms: seq<string>, rows: Rows, threshold: real, i: nat, j: nat)
    requires i < |rows.documents| && j < |rows.documents| && i != j && 0.0 <= ranker.weight <= 1.0
    requires KnownDistance(rows, i) <= KnownDistance(rows, j)
    requires var lexical := LexicalScore.Scores(terms, Tokens(ranker, rows.documents), ranker.idf);
      && lexical[i] >= lexical[j]
      && (|| i < j
          || (ranker.weight < 1.0 && KnownDistance(rows, i) < KnownDistance(rows, j) && Rerank.Spread(Similarities(rows)) >= Rerank.NARROW)
          || (ranker.weight > 0.0 && lexical[i] > lexical[j] && Rerank.Spread(lexical) >= Rerank.NARROW))
    ensures Rerank.Precedes(RowOrder(Some(ranker), terms, rows), i, j)
    ensures Passes(rows, i, threshold) && Passes(rows, j, threshold) ==>
              Rerank.Precedes(Passing(rows, threshold, RowOrder(Some(ranker), terms, rows)), i, j)
  {
    var lexical := LexicalScore.Scores(terms, Tokens(ranker, rows.documents), ranker.idf);
    SimilarityMeans(rows, i, j, threshold);
    SimilarityMeans(rows, j, i, threshold);
    Rerank.DominantPrecedes(Similarities(rows), lexical, ranker.weight, i, j);
    if Passes(rows, i, threshold) && Passes(rows, j, threshold) {
      PassingInOrder(rows, threshold, RowOrder(Some(ranker), terms, rows), i, j);
    }
  }

  // ----- blocks

  /** A block shows its number, its label and then its own text, which starts a line. */
  lemma BlockShows(labels: Labels, rows: Rows, i: nat)
    requires i < |rows.documents|
    ensures var block, head := Blocks(labels, rows)[i], "[Document " + Fingerprint.Decimal(i + 1);
      head <= block && block[|head|..] == labels(MetadataAt(rows, i)) + "]\n" + rows.documents[i]
  {
    var head, label_, text := "[Document " + Fingerprint.Decimal(i + 1), labels(MetadataAt(rows, i)), rows.documents[i];
    assert head + label_ + "]\n" + text == head + (label_ + "]\n" + text);
  }

  function Header(labels: Labels, number: nat, metadata: Metadata): string {
    "[Document " + Fingerprint.Decimal(number) + labels(metadata) + "]\n"
  }

  function Block(labels: Labels, number: nat, content: string, metadata: Metadata): string {
    Header(labels, number, metadata) + content
  }

  /** The rows numbered 1..n. */
  function Blocks(labels: Labels, rows: Rows): (r: seq<string>)
    ensures |r| == |rows.documents|
  {
    seq(|rows.documents|, i requires 0 <= i < |rows.documents| => Block(labels, i + 1, rows.documents[i], MetadataAt(rows, i)))
  }

  lemma PickMore(rows: Rows, at: seq<nat>, i: nat, absent: Option<real>)
    ensures Pick(rows, at + [i], absent)
         == Rows(Pick(rows, at, absent).ids + [IdAt(rows, i)], Pick(rows, at, absent).documents + [DocumentAt(rows, i)],
                 Pick(rows, at, absent).metadatas + [MetadataAt(rows, i)],
                 Pick(rows, at, absent).distances + [DistanceOr(rows, i, absent)])
  {
    var l, r := Pick(rows, at + [i], absent), Pick(rows, at, absent);
    assert l.ids == r.ids + [IdAt(rows, i)];
    assert l.documents == r.documents + [DocumentAt(rows, i)];
    assert l.metadatas == r.metadatas + [MetadataAt(rows, i)];
    assert l.distances == r.distances + [DistanceOr(rows, i, absent)];
  }

  method Filter(rows: Rows, threshold: real) returns (kept: Rows)
    ensures kept == Pick(rows, Passing(rows, threshold, Rerank.Given(|rows.documents|)), None)
  {
    kept := EMPTY;
    ghost var at := [];
    for i := 0 to |rows.documents|
      invariant at == Passing(rows, threshold, Rerank.Given(i))
      invariant kept == Pick(rows, at, None)
    {
      var distance, keep := None, 0.0 >= threshold;
      if i < |rows.distances| {
        distance := rows.distances[i];
        keep := distance.None? || 1.0 - distance.value >= threshold;
      }
      assert Rerank.Given(i + 1)[..i] == Rerank.Given(i);
      if keep {
        PickMore(rows, at, i, None);
        kept := Rows(kept.ids + [IdAt(rows, i)], kept.documents + [rows.documents[i]],
                     kept.metadatas + [MetadataAt(rows, i)], kept.distances + [distance]);
        at := at + [i];
      }
    }
  }

  method FilterAndFormat(labels: Labels, rows: Rows, threshold: real) returns (blocks: seq<string>, kept: Rows)
    ensures kept == Pick(rows, Passing(rows, threshold, Rerank.Given(|rows.documents|)), None)
    ensures blocks == Blocks(labels, kept)
  {
    kept := Filter(rows, threshold);
    blocks := Blocks(labels, kept);
  }

  // ----- what the budget charges

  function Utf8Size(c: char): nat {
    if c < '\U{80}' then 1 else if c < '\U{800}' then 2 else if c < '\U{10000}' then 3 else 4
  }

  function Utf8Length(s: string): (r: nat)
    ensures r >= |s|
  {
    if s == [] then 0 else Utf8Length(s[..|s| - 1]) + Utf8Size(s[|s| - 1])
  }

  /** The lengths of RFC 3629, section 3. */
  lemma Utf8SizeMeans(c: char)
    ensures Utf8Size(c) == 1 <==> c as int <= 0x7F
    ensures Utf8Size(c) == 2 <==> 0x80 <= c as int <= 0x7FF
    ensures Utf8Size(c) == 3 <==> 0x800 <= c as int <= 0xFFFF
    ensures Utf8Size(c) == 4 <==> 0x1_0000 <= c as int
  {}

  predicate IsAscii(s: string) { forall i :: 0 <= i < |s| ==> s[i] as int <= 0x7F }

  lemma {:induction false} AsciiLength(s: string)
    ensures Utf8Length(s) == |s| <==> IsAscii(s)
  {
    if s != "" {
      var n := |s| - 1;
      AsciiLength(s[..n]);
      Utf8SizeMeans(s[n]);
      assert s == s[..n] + [s[n]];
      assert IsAscii(s[..n]) ==> forall i :: 0 <= i < n ==> s[..n][i] == s[i];
    }
  }

  function WithoutSuffix(s: string, suffix: string): string {
    if suffix != "" && |suffix| <= |s| && s[|s| - |suffix|..] == suffix then s[..|s| - |suffix|] else s
  }

  /** Whatever stands before the suffix is left, and a text that does not end so is left alone. */
  lemma SuffixRemoved(s: string, suffix: string)
    ensures WithoutSuffix(s + suffix, suffix) == s
    ensures (forall front: string :: s != front + suffix) ==> WithoutSuffix(s, suffix) == s
  {
    assert (s + suffix)[|s|..] == suffix && (s + suffix)[..|s|] == s;
    assert suffix == "" ==> s + suffix == s;
    if suffix != "" && |suffix| <= |s| && s[|s| - |suffix|..] == suffix {
      assert s == s[..|s| - |suffix|] + suffix;
    }
  }

  /** Passage characters, and the bytes of whatever the rendering put before them. */
  function Charge(block: string, content: string): nat { |content| + Utf8Length(WithoutSuffix(block, content)) }

  function Charges(blocks: seq<string>, rows: Rows): (r: seq<nat>)
    ensures |r| == |blocks|
  {
    seq(|blocks|, i requires 0 <= i < |blocks| => Charge(blocks[i], DocumentAt(rows, i)))
  }

  const SEPARATOR_SIZE := 2

  lemma SeparatorSize()
    ensures SEPARATOR_SIZE == Utf8Length(SEPARATOR) == |SEPARATOR|
  {
    assert SEPARATOR[..1] == "\n" && SEPARATOR[..1][..0] == "";
  }

  function Separators(n: nat): nat { if n <= 1 then 0 else (n - 1) * SEPARATOR_SIZE }

  function Sum(charges: seq<nat>): nat { if charges == [] then 0 else Sum(charges[..|charges| - 1]) + charges[|charges| - 1] }

  function Cost(charges: seq<nat>, n: nat): nat
    requires n <= |charges|
  {
    Sum(charges[..n]) + Separators(n)
  }

  /** `n` blocks fit and no longer prefix does. */
  ghost predicate IsFit(charges: seq<nat>, budget: int, n: nat) {
    n <= |charges| && forall k :: 1 <= k <= |charges| ==> (k <= n <==> Cost(charges, k) <= budget)
  }

  /** What a rendered row is charged: its text by character, its label by byte. */
  lemma BlockCharge(labels: Labels, number: nat, content: string, metadata: Metadata)
    ensures Charge(Block(labels, number, content, metadata), content) == |content| + Utf8Length(Header(labels, number, metadata))
    ensures Charge(Block(labels, number, content, metadata), content) >= |Block(labels, number, content, metadata)|
  {
    var header := Header(labels, number, metadata);
    assert (header + content)[|header|..] == content && (header + content)[..|header|] == header;
    assert content == "" ==> header + content == header;
  }

  lemma CostStep(charges: seq<nat>, n: nat)
    requires n < |charges|
    ensures Cost(charges, n + 1) == Cost(charges, n) + Separators(n + 1) - Separators(n) + charges[n]
    ensures Cost(charges, n + 1) >= Cost(charges, n)
  {
    assert charges[..n + 1][..n] == charges[..n];
  }

  lemma {:induction false} CostGrows(charges: seq<nat>, k: nat, n: nat)
    requires k <= n <= |charges|
    ensures Cost(charges, k) <= Cost(charges, n)
  {
    if k < n {
      CostStep(charges, n - 1);
      CostGrows(charges, k, n - 1);
    }
  }

  lemma FitIsWhole(charges: seq<nat>, budget: int)
    requires charges == [] || Cost(charges, |charges|) <= budget
    ensures IsFit(charges, budget, |charges|)
  {
    forall k | 1 <= k <= |charges| ensures Cost(charges, k) <= budget { CostGrows(charges, k, |charges|); }
  }

  lemma FitEnds(charges: seq<nat>, budget: int, n: nat)
    requires n < |charges| && (n == 0 || Cost(charges, n) <= budget) && Cost(charges, n + 1) > budget
    ensures IsFit(charges, budget, n)
  {
    forall k | 1 <= k <= |charges| ensures k <= n <==> Cost(charges, k) <= budget {
      if k <= n { CostGrows(charges, k, n); } else { CostGrows(charges, n + 1, k); }
    }
  }

  // ----- top-K and budget

  predicate InStep(rows: Rows, n: nat) {
    |rows.ids| == |rows.documents| == |rows.metadatas| == |rows.distances| == n
  }

  function WithRow(rows: Rows, from: Rows, i: nat): Rows {
    Rows(rows.ids + (if i < |from.ids| then [from.ids[i]] else []),
         rows.documents + [DocumentAt(from, i)],
         rows.metadatas + (if i < |from.metadatas| then [from.metadatas[i]] else []),
         rows.distances + (if i < |from.distances| then [from.distances[i]] else []))
  }

  lemma WithRowTakes(from: Rows, i: nat)
    requires InStep(from, |from.documents|) && i < |from.documents|
    ensures WithRow(TakeRows(from, i), from, i) == TakeRows(from, i + 1)
  {
    TakeStep(from.ids, i);
    TakeStep(from.documents, i);
    TakeStep(from.metadatas, i);
    TakeStep(from.distances, i);
  }

  ghost predicate InBudget(charges: seq<nat>, budget: int, i: nat, accumulated: nat) {
    i <= |charges| && accumulated == Cost(charges, i) && (i == 0 || accumulated <= budget)
  }

  /** The first `i` blocks are kept and what they cost is known. */
  ghost predicate Keeps(blocks: seq<string>, rows: Rows, budget: int, i: nat, kept: seq<string>, r: Rows, accumulated: nat) {
    && i <= |blocks| && kept == blocks[..i]
    && InBudget(Charges(blocks, rows), budget, i, accumulated)
    && RowsKept(rows, |blocks|, i, r)
  }

  ghost predicate RowsKept(rows: Rows, n: nat, i: nat, r: Rows) { InStep(rows, n) ==> r == TakeRows(rows, i) }

  lemma RowsKeptStep(rows: Rows, n: nat, i: nat, r: Rows, next: nat)
    requires RowsKept(rows, n, i, r) && i < n && next == i + 1
    ensures RowsKept(rows, n, next, WithRow(r, rows, i))
  {
    if InStep(rows, n) { WithRowTakes(rows, i); }
  }

  lemma InBudgetStep(charges: seq<nat>, budget: int, i: nat, accumulated: nat, more: nat)
    requires InBudget(charges, budget, i, accumulated) && i < |charges|
    requires more == accumulated + (Separators(i + 1) - Separators(i)) + charges[i] && more <= budget
    ensures InBudget(charges, budget, i + 1, more)
  {
    CostStep(charges, i);
  }

  lemma KeepsStep(blocks: seq<string>, rows: Rows, budget: int, i: nat, kept: seq<string>, r: Rows, accumulated: nat, more: nat, next: nat)
    requires Keeps(blocks, rows, budget, i, kept, r, accumulated) && i < |blocks| && next == i + 1
    requires more == accumulated + (Separators(next) - Separators(i)) + Charge(blocks[i], DocumentAt(rows, i)) && more <= budget
    ensures Keeps(blocks, rows, budget, next, kept + [blocks[i]], WithRow(r, rows, i), more)
  {
    InBudgetStep(Charges(blocks, rows), budget, i, accumulated, more);
    RowsKeptStep(rows, |blocks|, i, r, next);
    TakeStep(blocks, i);
  }

  lemma KeepsEnds(blocks: seq<string>, rows: Rows, budget: int, i: nat, kept: seq<string>, r: Rows, accumulated: nat)
    requires Keeps(blocks, rows, budget, i, kept, r, accumulated)
    requires i < |blocks| ==> accumulated + (Separators(i + 1) - Separators(i)) + Charge(blocks[i], DocumentAt(rows, i)) > budget
    ensures kept == Take(blocks, |kept|) && IsFit(Charges(blocks, rows), budget, |kept|)
    ensures InStep(rows, |blocks|) ==> r == TakeRows(rows, |kept|)
  {
    if i < |blocks| {
      CostStep(Charges(blocks, rows), i);
      FitEnds(Charges(blocks, rows), budget, i);
    } else {
      FitIsWhole(Charges(blocks, rows), budget);
    }
  }

  method EnforceBudget(blocks: seq<string>, rows: Rows, budget: int) returns (kept: seq<string>, r: Rows)
    ensures kept == Take(blocks, |kept|)
    ensures InStep(rows, |blocks|) ==> IsFit(Charges(blocks, rows), budget, |kept|) && r == TakeRows(rows, |kept|)
  {
    var charges := Charges(blocks, rows);
    var total := Sum(Take(charges, |rows.documents|)) + Separators(|blocks|);
    if total <= budget {
      TakeAll(charges);
      if InStep(rows, |blocks|) { FitIsWhole(charges, budget); }
      return blocks, rows;
    }
    kept, r := KeepWhileFits(blocks, rows, budget);
  }

  method KeepWhileFits(blocks: seq<string>, rows: Rows, budget: int) returns (kept: seq<string>, r: Rows)
    ensures kept == Take(blocks, |kept|) && IsFit(Charges(blocks, rows), budget, |kept|)
    ensures InStep(rows, |blocks|) ==> r == TakeRows(rows, |kept|)
  {
    kept, r := [], EMPTY;
    var accumulated: nat := 0;
    for i := 0 to |blocks|
      invariant Keeps(blocks, rows, budget, i, kept, r, accumulated)
    {
      var size := Charge(blocks[i], DocumentAt(rows, i));
      var separator: nat := Separators(i + 1) - Separators(i);
      if accumulated + separator + size > budget {
        KeepsEnds(blocks, rows, budget, i, kept, r, accumulated);
        return;
      }
      KeepsStep(blocks, rows, budget, i, kept, r, accumulated, accumulated + separator + size, i + 1);
      kept, r := kept + [blocks[i]], WithRow(r, rows, i);
      accumulated := accumulated + separator + size;
    }
    KeepsEnds(blocks, rows, budget, |blocks|, kept, r, accumulated);
  }

  lemma BlocksTake(labels: Labels, rows: Rows, k: nat)
    requires InStep(rows, |rows.documents|)
    ensures Blocks(labels, TakeRows(rows, k)) == Take(Blocks(labels, rows), k)
  {}

  // ----- the whole chain

  datatype Outcome = Outcome(blocks: seq<string>, rows: Rows, initialCount: nat)

  /** The passing rows in their final order. */
  function Survivors(ranker: Option<Reranker>, terms: seq<string>, rows: Rows, threshold: real): seq<nat> {
    Passing(rows, threshold, RowOrder(ranker, terms, rows))
  }

  function Best(ranker: Option<Reranker>, terms: seq<string>, rows: Rows, threshold: real): seq<nat> {
    match ranker
    case None => Survivors(ranker, terms, rows, threshold)
    case Some(k) => Take(Survivors(ranker, terms, rows, threshold), k.topK)
  }

  function Absent(ranker: Option<Reranker>): Option<real> { if ranker.Some? then MISSING_DISTANCE else None }

  /** Top-K is cut from the passing rows, so K rows reach the budget whenever K rows pass; no row
      is there twice, and re-ranking makes none eligible or ineligible. */
  lemma BestRows(ranker: Option<Reranker>, terms: seq<string>, rows: Rows, threshold: real)
    ensures var best := Best(ranker, terms, rows, threshold);
            && NoDuplicates(best) && Rerank.Within(best, |rows.documents|)
            && (forall a :: 0 <= a < |best| ==> Passes(rows, best[a], threshold))
    ensures var passing := |set i: nat | i < |rows.documents| && Passes(rows, i, threshold)|;
            |Best(ranker, terms, rows, threshold)|
            == match ranker case None => passing case Some(k) => if k.topK < passing then k.topK else passing
  {
    var order := RowOrder(ranker, terms, rows);
    RowOrderLists(ranker, terms, rows);
    PassingWithin(rows, threshold, order, |rows.documents|);
    PassingCount(rows, threshold, order);
    PassingAre(rows, threshold, order);
    var best := Best(ranker, terms, rows, threshold);
    forall a | 0 <= a < |best| ensures Passes(rows, best[a], threshold) {
      assert best[a] == Survivors(ranker, terms, rows, threshold)[a];
      assert best[a] in Survivors(ranker, terms, rows, threshold);
    }
  }

  /** Re-ranking then filtering equals filtering the rows in the new order. */
  lemma FilterAfterRerank(ranker: Reranker, terms: seq<string>, rows: Rows, threshold: real)
    ensures var order := RowOrder(Some(ranker), terms, rows);
            Pick(Pick(rows, order, MISSING_DISTANCE),
                 Passing(Pick(rows, order, MISSING_DISTANCE), threshold, Rerank.Given(|order|)), None)
            == Pick(rows, Survivors(Some(ranker), terms, rows, threshold), MISSING_DISTANCE)
  {
    var order := RowOrder(Some(ranker), terms, rows);
    PassingAfterPick(rows, threshold, order);
    PickPick(rows, order, Passing(Pick(rows, order, MISSING_DISTANCE), threshold, Rerank.Given(|order|)), MISSING_DISTANCE, None);
  }

  method RankAndFilter(ranker: Option<Reranker>, terms: seq<string>, labels: Labels, threshold: real, rows: Rows)
    returns (blocks: seq<string>, r: Rows)
    requires ranker.Some? ==> LexicalScore.Positive(ranker.value.idf)
    ensures r == Pick(rows, Survivors(ranker, terms, rows, threshold), Absent(ranker))
    ensures blocks == Blocks(labels, r)
  {
    var ordered := rows;
    if ranker.Some? {
      ordered := ApplyRerank(ranker.value, terms, rows);
      FilterAfterRerank(ranker.value, terms, rows, threshold);
      RowOrderLists(ranker, terms, rows);
    }
    blocks, r := FilterAndFormat(labels, ordered, threshold);
  }

  /** One retrieval.  Text, metadata, distance and id of every kept row come from one retrieved
      row, blocks are numbered 1..n, and the kept rows are the longest prefix of the best rows
      whose charged size fits the budget. */
  method RetrievePipeline(ranker: Option<Reranker>, terms: seq<string>, labels: Labels, threshold: real, budget: int, rows: Rows)
    returns (r: Outcome)
    requires ranker.Some? ==> LexicalScore.Positive(ranker.value.idf)
    ensures r.initialCount == |Best(ranker, terms, rows, threshold)|
    ensures r.rows == Pick(rows, Take(Best(ranker, terms, rows, threshold), |r.blocks|), Absent(ranker))
    ensures r.blocks == Blocks(labels, r.rows)
    ensures var best := Pick(rows, Best(ranker, terms, rows, threshold), Absent(ranker));
            IsFit(Charges(Blocks(labels, best), best), budget, |r.blocks|)
  {
    var blocks, kept := RankAndFilter(ranker, terms, labels, threshold, rows);
    if ranker.Some? {
      BlocksTake(labels, kept, ranker.value.topK);
      PickTake(rows, Survivors(ranker, terms, rows, threshold), Absent(ranker), ranker.value.topK);
      blocks, kept := Take(blocks, ranker.value.topK), TakeRows(kept, ranker.value.topK);
    }
    var final, finalRows := EnforceBudget(blocks, kept, budget);
    BlocksTake(labels, kept, |final|);
    PickTake(rows, Best(ranker, terms, rows, threshold), Absent(ranker), |final|);
    r := Outcome(final, finalRows, |blocks|);
  }

  /** The blocks as one text; the sentence put in place of no blocks is left out. */
  function Joined(blocks: seq<string>): string {
    if blocks == [] then "" else if |blocks| == 1 then blocks[0] else Joined(blocks[..|blocks| - 1]) + SEPARATOR + blocks[|blocks| - 1]
  }

  /** The text handed to the model is never longer than what its rows were charged. */
  lemma JoinedWithinCost(labels: Labels, rows: Rows, n: nat)
    requires n <= |rows.documents| && InStep(rows, |rows.documents|)
    ensures |Joined(Blocks(labels, rows)[..n])| <= Cost(Charges(Blocks(labels, rows), rows), n)
  {
    var blocks, charges := Blocks(labels, rows), Charges(Blocks(labels, rows), rows);
    forall i: nat | i < n ensures charges[i] >= |blocks[i]| { ChargedAtLeast(labels, rows, i); }
    JoinedByCharges(blocks, charges, n);
  }

  /** Blocks charged at least, or exactly, their length. */
  lemma {:induction false} JoinedByCharges(blocks: seq<string>, charges: seq<nat>, n: nat)
    requires |blocks| == |charges| && n <= |blocks|
    ensures (forall i :: 0 <= i < n ==> charges[i] >= |blocks[i]|) ==> |Joined(blocks[..n])| <= Cost(charges, n)
    ensures (forall i :: 0 <= i < n ==> charges[i] == |blocks[i]|) ==> |Joined(blocks[..n])| == Cost(charges, n)
    decreases n
  {
    if n > 0 {
      JoinedByCharges(blocks, charges, n - 1);
      JoinedStep(blocks, n - 1);
      CostStep(charges, n - 1);
    }
  }

  lemma ChargedAtLeast(labels: Labels, rows: Rows, i: nat)
    requires i < |rows.documents|
    ensures Charges(Blocks(labels, rows), rows)[i] >= |Blocks(labels, rows)[i]|
  {
    BlockCharge(labels, i + 1, rows.documents[i], MetadataAt(rows, i));
  }

  /** With labels in ASCII it is exactly as long. */
  lemma JoinedCosts(labels: Labels, rows: Rows, n: nat)
    requires n <= |rows.documents| && InStep(rows, |rows.documents|)
    requires forall i :: 0 <= i < n ==> IsAscii(Header(labels, i + 1, MetadataAt(rows, i)))
    ensures |Joined(Blocks(labels, rows)[..n])| == Cost(Charges(Blocks(labels, rows), rows), n)
  {
    var blocks, charges := Blocks(labels, rows), Charges(Blocks(labels, rows), rows);
    forall i: nat | i < n ensures charges[i] == |blocks[i]| { ChargedAsLong(labels, rows, i); }
    JoinedByCharges(blocks, charges, n);
  }

  lemma ChargedAsLong(labels: Labels, rows: Rows, i: nat)
    requires i < |rows.documents| && IsAscii(Header(labels, i + 1, MetadataAt(rows, i)))
    ensures Charges(Blocks(labels, rows), rows)[i] == |Blocks(labels, rows)[i]|
  {
    BlockCharge(labels, i + 1, rows.documents[i], MetadataAt(rows, i));
    AsciiLength(Header(labels, i + 1, MetadataAt(rows, i)));
  }

  lemma JoinedStep(blocks: seq<string>, n: nat)
    requires n < |blocks|
    ensures |Joined(blocks[..n + 1])| == |Joined(blocks[..n])| + (Separators(n + 1) - Separators(n)) + |blocks[n]|
  {
    assert blocks[..n + 1][..n] == blocks[..n];
    SeparatorSize();
  }
}
