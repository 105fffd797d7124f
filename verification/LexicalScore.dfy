/** How strongly passages match the words of a question: inverse document frequency over the
    candidates, term saturation and length normalisation, clamped into [0, 1].

    Texts come already split into terms, and a question as its distinct terms; the logarithm is
    any function positive on the frequencies that can occur. */
module LexicalScore {
  import opened Wrappers

  const K1 := 1.2
  const B := 0.75

  type Idf = (nat, nat) -> real

  ghost predicate Positive(idf: Idf) {
    forall n: nat, count: nat :: 1 <= count <= n ==> idf(n, count) > 0.0
  }

  function DocumentFrequency(docs: seq<seq<string>>, term: string): (r: nat)
    ensures r <= |docs|
    ensures r > 0 <==> exists i :: 0 <= i < |docs| && term in docs[i]
  {
    if docs == [] then 0
    else
      var n := |docs| - 1;
      var r := DocumentFrequency(docs[..n], term);
      assert forall i :: 0 <= i < n ==> docs[..n][i] == docs[i];
      r + if term in docs[n] then 1 else 0
  }

  function Occurrences(tokens: seq<string>, term: string): (r: nat)
    ensures r > 0 <==> term in tokens
  {
    if tokens == [] then 0
    else
      assert tokens == tokens[..|tokens| - 1] + [tokens[|tokens| - 1]];
      Occurrences(tokens[..|tokens| - 1], term) + if tokens[|tokens| - 1] == term then 1 else 0
  }

  /** Document frequencies as counted, read as a table that holds only what occurs. */
  ghost predicate Counts(df: map<string, nat>, docs: seq<seq<string>>) {
    && (forall term :: DocumentFrequency(docs, term) == if term in df then df[term] else 0)
    && (forall term :: term in df ==> df[term] > 0)
  }

  /** Counts, for every term, the documents it occurs in. */
  method CountDocuments(docs: seq<seq<string>>) returns (df: map<string, nat>)
    ensures Counts(df, docs)
  {
    df := map[];
    for i := 0 to |docs|
      invariant forall term :: DocumentFrequency(docs[..i], term) == if term in df then df[term] else 0
      invariant forall term :: term in df ==> df[term] > 0
    {
      assert docs[..i + 1][..i] == docs[..i];
      var terms := set term | term in docs[i];
      df := map term | term in df.Keys + terms :: (if term in df then df[term] else 0) + if term in terms then 1 else 0;
    }
    TakeAll(docs);
  }

  function Total(docs: seq<seq<string>>): nat { if docs == [] then 0 else Total(docs[..|docs| - 1]) + |docs[|docs| - 1]| }

  function TermWeight(docs: seq<seq<string>>, idf: Idf, term: string): real {
    if DocumentFrequency(docs, term) > 0 then idf(|docs|, DocumentFrequency(docs, term)) else 0.0
  }

  function TotalWeight(terms: seq<string>, docs: seq<seq<string>>, idf: Idf): real {
    if terms == [] then 0.0 else TotalWeight(terms[..|terms| - 1], docs, idf) + TermWeight(docs, idf, terms[|terms| - 1])
  }

  /** Length over the average length, 1 when nothing has a length. */
  function RelativeLength(docs: seq<seq<string>>, length: nat): (r: real)
    requires docs != []
    ensures r >= 0.0
  {
    if Total(docs) == 0 then 1.0
    else
      var average := Total(docs) as real / |docs| as real;
      DivideNonNegative(length as real, average);
      length as real / average
  }

  function Norm(docs: seq<seq<string>>, length: nat): (r: real)
    requires docs != []
    ensures r >= 1.0 - B
  {
    1.0 - B + B * RelativeLength(docs, length)
  }

  lemma DivideNonNegative(x: real, y: real)
    requires x >= 0.0 && y > 0.0
    ensures x / y >= 0.0
    ensures x > 0.0 ==> x / y > 0.0
  {
    assert (x / y) * y == x;
  }

  function Saturation(count: nat, norm: real): real
    requires norm >= 0.0 && count > 0
  {
    (count as real * (K1 + 1.0)) / (count as real + K1 * norm)
  }

  /** What one term adds to a passage's score. */
  function Contribution(docs: seq<seq<string>>, idf: Idf, term: string, count: nat, norm: real): real
    requires norm >= 0.0
  {
    if count == 0 then 0.0 else TermWeight(docs, idf, term) * Saturation(count, norm)
  }

  function RawScore(terms: seq<string>, docs: seq<seq<string>>, idf: Idf, tokens: seq<string>): real
    requires docs != []
  {
    if terms == [] then 0.0
    else
      var term := terms[|terms| - 1];
      RawScore(terms[..|terms| - 1], docs, idf, tokens) + Contribution(docs, idf, term, Occurrences(tokens, term), Norm(docs, |tokens|))
  }

  function Clamped(x: real): real { if x < 1.0 then x else 1.0 }

  lemma {:induction false} TotalWeightSign(terms: seq<string>, docs: seq<seq<string>>, idf: Idf)
    requires Positive(idf)
    ensures TotalWeight(terms, docs, idf) >= 0.0
    ensures TotalWeight(terms, docs, idf) > 0.0 <==> exists k :: 0 <= k < |terms| && DocumentFrequency(docs, terms[k]) > 0
  {
    if terms != [] {
      var n := |terms| - 1;
      TotalWeightSign(terms[..n], docs, idf);
      if k :| 0 <= k < |terms| && DocumentFrequency(docs, terms[k]) > 0 { assert k < n ==> terms[..n][k] == terms[k]; }
      if k :| 0 <= k < n && DocumentFrequency(docs, terms[..n][k]) > 0 { assert DocumentFrequency(docs, terms[k]) > 0; }
    }
  }

  lemma SaturationPositive(count: nat, norm: real)
    requires norm >= 0.0 && count > 0
    ensures Saturation(count, norm) > 0.0
  {
    DivideNonNegative(count as real * (K1 + 1.0), count as real + K1 * norm);
  }

  lemma SmallerProduct(weight: real, x: real, y: real)
    requires weight > 0.0
    ensures x < y ==> weight * x < weight * y
    ensures x <= y ==> weight * x <= weight * y
  {}

  // ----- what saturates, and how

  lemma Cross(a: real, b: real, c: real, d: real)
    requires b > 0.0 && d > 0.0
    ensures a / b < c / d <==> a * d < c * b
    ensures a / b == c / d <==> a * d == c * b
  {
    var x, y := a / b, c / d;
    assert x * b == a && y * d == c;
    assert a * d == x * (b * d) && c * b == y * (b * d);
    assert b * d > 0.0;
    assert x < y ==> x * (b * d) < y * (b * d);
    assert y < x ==> y * (b * d) < x * (b * d);
  }

  /** More occurrences score higher, a longer passage lower; never as much as K1 + 1, and 1 for a
      single occurrence in a passage of average length. */
  lemma SaturationMeans(count: nat, more: nat, norm: real, longer: real)
    requires count > 0 && norm > 0.0
    ensures more > count ==> Saturation(more, norm) > Saturation(count, norm)
    ensures longer > norm ==> Saturation(count, longer) < Saturation(count, norm)
    ensures 0.0 < Saturation(count, norm) < K1 + 1.0
    ensures Saturation(1, 1.0) == 1.0 && Saturation(2, 1.0) == 1.375
  {
    SaturationPositive(count, norm);
    if more > count { MoreOccurrences(count as real, more as real, norm); }
    if longer > norm { LongerPassage(count as real, norm, longer); }
    BelowBound(count as real, norm);
    OneOccurrence();
  }

  lemma LongerPassage(c: real, norm: real, longer: real)
    requires c > 0.0 && 0.0 < norm < longer
    ensures c * (K1 + 1.0) / (c + K1 * longer) < c * (K1 + 1.0) / (c + K1 * norm)
  {
    SmallerProduct(K1, norm, longer);
    SmallerQuotient(c * (K1 + 1.0), c + K1 * norm, c + K1 * longer);
  }

  lemma SmallerQuotient(x: real, y: real, z: real)
    requires x > 0.0 && 0.0 < y < z
    ensures x / z < x / y
  {
    SmallerProduct(x, y, z);
    Cross(x, z, x, y);
  }

  lemma BelowBound(c: real, norm: real)
    requires c > 0.0 && norm > 0.0
    ensures c * (K1 + 1.0) / (c + K1 * norm) < K1 + 1.0
  {
    BelowFactor(c, K1 + 1.0, K1 * norm);
  }

  lemma BelowFactor(c: real, factor: real, n: real)
    requires c > 0.0 && factor > 0.0 && n > 0.0
    ensures c * factor / (c + n) < factor
  {
    SmallerProduct(factor, c, c + n);
    Cross(c * factor, c + n, factor, 1.0);
  }

  lemma OneOccurrence()
    ensures Saturation(1, 1.0) == 1.0
  {
    assert Saturation(1, 1.0) == (1.0 * (K1 + 1.0)) / (1.0 + K1 * 1.0);
    assert Saturation(2, 1.0) == (2.0 * (K1 + 1.0)) / (2.0 + K1 * 1.0);
  }

  lemma MoreOccurrences(c: real, m: real, norm: real)
    requires 0.0 < c < m && norm > 0.0
    ensures c * (K1 + 1.0) / (c + K1 * norm) < m * (K1 + 1.0) / (m + K1 * norm)
  {
    assert K1 * norm > 0.0;
    MoreOf(c, m, K1 + 1.0, K1 * norm);
  }

  lemma MoreOf(c: real, m: real, factor: real, n: real)
    requires 0.0 < c < m && factor > 0.0 && n > 0.0
    ensures c * factor / (c + n) < m * factor / (m + n)
  {
    assert c * n < m * n;
    var x, y := c * (m + n), m * (c + n);
    assert x == c * m + c * n && y == m * c + m * n && x < y;
    SmallerProduct(factor, x, y);
    assert c * factor * (m + n) == factor * x && m * factor * (c + n) == factor * y;
    Cross(c * factor, c + n, m * factor, m + n);
  }

  /** A passage of average length has norm 1, a longer one more and a shorter one less. */
  lemma NormMeans(docs: seq<seq<string>>, length: nat)
    requires Total(docs) > 0
    ensures Norm(docs, length) > 1.0 <==> length as real * |docs| as real > Total(docs) as real
    ensures Norm(docs, length) < 1.0 <==> length as real * |docs| as real < Total(docs) as real
    ensures Norm(docs, 0) == 0.25
  {
    RelativeLengthMeans(docs, length);
    var average := Total(docs) as real / |docs| as real;
    NothingOver(average);
    assert RelativeLength(docs, 0) == 0.0 / average;
  }

  lemma NothingOver(x: real)
    requires x > 0.0
    ensures 0.0 / x == 0.0
  {}

  lemma RelativeLengthMeans(docs: seq<seq<string>>, length: nat)
    requires Total(docs) > 0
    ensures RelativeLength(docs, length) > 1.0 <==> length as real * |docs| as real > Total(docs) as real
    ensures RelativeLength(docs, length) < 1.0 <==> length as real * |docs| as real < Total(docs) as real
  {
    OverMean(length as real, Total(docs) as real, |docs| as real);
  }

  lemma OverMean(x: real, t: real, n: real)
    requires n > 0.0 && t > 0.0
    ensures x / (t / n) > 1.0 <==> x * n > t
    ensures x / (t / n) < 1.0 <==> x * n < t
  {
    DivideNonNegative(t, n);
    OverAverage(x, t / n, n, t);
  }

  lemma OverAverage(x: real, average: real, n: real, t: real)
    requires n > 0.0 && t > 0.0 && average == t / n && average > 0.0
    ensures x / average > 1.0 <==> x * n > t
    ensures x / average < 1.0 <==> x * n < t
  {
    assert average * n == t;
    Cross(x, average, 1.0, 1.0);
    Cross(1.0, 1.0, x, average);
    SmallerProduct(n, x, average);
    SmallerProduct(n, average, x);
  }

  lemma {:induction false} TotalMeans(docs: seq<seq<string>>, i: nat)
    requires i < |docs|
    ensures Total(docs) == Total(docs[..i]) + |docs[i]| + Total(docs[i + 1..])
    decreases |docs|
  {
    var n := |docs| - 1;
    if i < n {
      TotalMeans(docs[..n], i);
      assert docs[..n][..i] == docs[..i] && docs[..n][i + 1..] == docs[i + 1..][..n - i - 1];
    } else {
      assert docs[i + 1..] == [];
    }
  }

  /** How often a term occurs, counted by position. */
  lemma {:induction false} OccurrencesMeans(tokens: seq<string>, term: string)
    ensures Occurrences(tokens, term) == multiset(tokens)[term]
  {
    if tokens != [] {
      var n := |tokens| - 1;
      OccurrencesMeans(tokens[..n], term);
      assert tokens == tokens[..n] + [tokens[n]];
    }
  }

  /** The passages a term occurs in, one by one. */
  function Holding(docs: seq<seq<string>>, term: string): set<nat> { set i | 0 <= i < |docs| && term in docs[i] }

  lemma {:induction false} DocumentFrequencyMeans(docs: seq<seq<string>>, term: string)
    ensures DocumentFrequency(docs, term) == |Holding(docs, term)|
  {
    if docs != [] {
      var n := |docs| - 1;
      DocumentFrequencyMeans(docs[..n], term);
      assert Holding(docs, term) == Holding(docs[..n], term) + if term in docs[n] then {n} else {};
    } else {
      assert Holding(docs, term) == {};
    }
  }

  lemma ProductPositive(x: real, y: real)
    requires x > 0.0 && y > 0.0
    ensures x * y > 0.0
  {}

  /** A raw score is positive exactly for a passage that holds one of the terms. */
  lemma {:induction false} RawScoreSign(terms: seq<string>, docs: seq<seq<string>>, idf: Idf, tokens: seq<string>)
    requires Positive(idf) && docs != [] && tokens in docs
    ensures RawScore(terms, docs, idf, tokens) >= 0.0
    ensures RawScore(terms, docs, idf, tokens) > 0.0 <==> exists k :: 0 <= k < |terms| && terms[k] in tokens
  {
    if terms != [] {
      var n := |terms| - 1;
      RawScoreSign(terms[..n], docs, idf, tokens);
      var count := Occurrences(tokens, terms[n]);
      if count > 0 {
        assert DocumentFrequency(docs, terms[n]) > 0;
        SaturationPositive(count, Norm(docs, |tokens|));
        ProductPositive(TermWeight(docs, idf, terms[n]), Saturation(count, Norm(docs, |tokens|)));
        assert terms[n] in tokens;
      }
      if k :| 0 <= k < |terms| && terms[k] in tokens { assert k < n ==> terms[..n][k] == terms[k]; }
      if k :| 0 <= k < n && terms[..n][k] in tokens { assert terms[k] in tokens; }
    }
  }

  method SumWeights(terms: seq<string>, docs: seq<seq<string>>, df: map<string, nat>, idf: Idf) returns (total: real)
    requires Counts(df, docs)
    ensures total == TotalWeight(terms, docs, idf)
  {
    total := 0.0;
    for k := 0 to |terms|
      invariant total == TotalWeight(terms[..k], docs, idf)
    {
      TakeStep(terms, k);
      total := total + if terms[k] in df then idf(|docs|, df[terms[k]]) else 0.0;
    }
    TakeAll(terms);
  }

  ghost predicate Matches(terms: seq<string>, tokens: seq<string>) {
    exists k :: 0 <= k < |terms| && terms[k] in tokens
  }

  function Score(terms: seq<string>, docs: seq<seq<string>>, idf: Idf, tokens: seq<string>): real
    requires docs != []
  {
    var total := TotalWeight(terms, docs, idf);
    if total <= 0.0 then 0.0 else Clamped(RawScore(terms, docs, idf, tokens) / total)
  }

  function Scores(terms: seq<string>, docs: seq<seq<string>>, idf: Idf): (r: seq<real>)
    ensures |r| == |docs|
  {
    seq(|docs|, i requires 0 <= i < |docs| => Score(terms, docs, idf, docs[i]))
  }

  /** One term's contribution, by its count and the passage's length. */
  lemma TermScores(docs: seq<seq<string>>, idf: Idf, term: string, more: nat, fewer: nat, shorter: real, longer: real)
    requires Positive(idf) && more >= fewer && 0.0 < shorter <= longer && (more > 0 ==> DocumentFrequency(docs, term) > 0)
    ensures Contribution(docs, idf, term, more, shorter) >= Contribution(docs, idf, term, fewer, longer)
    ensures more > fewer || (fewer > 0 && shorter < longer) ==>
              Contribution(docs, idf, term, more, shorter) > Contribution(docs, idf, term, fewer, longer)
  {
    if more > 0 {
      var weight := TermWeight(docs, idf, term);
      SaturationOrder(more, fewer, shorter, longer);
      if fewer > 0 {
        SmallerProduct(weight, Saturation(fewer, longer), Saturation(more, shorter));
      } else {
        ProductPositive(weight, Saturation(more, shorter));
      }
    }
  }

  lemma SaturationOrder(more: nat, fewer: nat, shorter: real, longer: real)
    requires more > 0 && more >= fewer && 0.0 < shorter <= longer
    ensures Saturation(more, shorter) > 0.0
    ensures fewer > 0 ==> Saturation(fewer, longer) <= Saturation(more, shorter)
    ensures fewer > 0 && (more > fewer || shorter < longer) ==> Saturation(fewer, longer) < Saturation(more, shorter)
  {
    SaturationMeans(more, more, shorter, longer);
    if fewer > 0 { SaturationMeans(fewer, more, longer, longer); }
  }

  lemma RawStep(terms: seq<string>, docs: seq<seq<string>>, idf: Idf, tokens: seq<string>, n: nat)
    requires docs != [] && |terms| == n + 1
    ensures RawScore(terms, docs, idf, tokens)
         == RawScore(terms[..n], docs, idf, tokens) + Contribution(docs, idf, terms[n], Occurrences(tokens, terms[n]), Norm(docs, |tokens|))
  {}

  /** A passage with no fewer occurrences of any term, and no longer. */
  ghost predicate NoWorse(terms: seq<string>, a: seq<string>, b: seq<string>) {
    |a| <= |b| && forall k :: 0 <= k < |terms| ==> Occurrences(a, terms[k]) >= Occurrences(b, terms[k])
  }

  /** More occurrences of some term, or some occurrence in a shorter passage. */
  ghost predicate Better(terms: seq<string>, a: seq<string>, b: seq<string>) {
    exists k :: 0 <= k < |terms| && (Occurrences(a, terms[k]) > Occurrences(b, terms[k]) || (Occurrences(b, terms[k]) > 0 && |a| < |b|))
  }

  lemma BetterStep(terms: seq<string>, a: seq<string>, b: seq<string>, n: nat)
    requires |terms| == n + 1 && Better(terms, a, b)
    ensures || Better(terms[..n], a, b)
            || Occurrences(a, terms[n]) > Occurrences(b, terms[n]) || (Occurrences(b, terms[n]) > 0 && |a| < |b|)
  {
    var k :| 0 <= k < |terms| && (Occurrences(a, terms[k]) > Occurrences(b, terms[k]) || (Occurrences(b, terms[k]) > 0 && |a| < |b|));
    assert k < n ==> terms[..n][k] == terms[k];
  }

  lemma NormsInOrder(docs: seq<seq<string>>, a: seq<string>, b: seq<string>)
    requires docs != [] && b in docs && |a| <= |b|
    ensures 0.0 < Norm(docs, |a|) <= Norm(docs, |b|)
    ensures |a| < |b| ==> Norm(docs, |a|) < Norm(docs, |b|)
  {
    if |a| < |b| { NormOrder(docs, |a|, |b|, b); }
  }

  lemma OccursSomewhere(docs: seq<seq<string>>, a: seq<string>, term: string)
    requires a in docs
    ensures Occurrences(a, term) > 0 ==> DocumentFrequency(docs, term) > 0
  {}

  /** Of two passages of the pool, one with no fewer occurrences of any term of the question, and no
      longer, scores no lower; and higher if it has more of one, or holds one and is shorter. */
  lemma {:induction false} BetterMatchesScoreMore(terms: seq<string>, docs: seq<seq<string>>, idf: Idf, a: seq<string>, b: seq<string>)
    requires Positive(idf) && docs != [] && a in docs && b in docs && NoWorse(terms, a, b)
    ensures RawScore(terms, docs, idf, a) >= RawScore(terms, docs, idf, b)
    ensures Better(terms, a, b) ==> RawScore(terms, docs, idf, a) > RawScore(terms, docs, idf, b)
    decreases |terms|
  {
    if terms != [] {
      var n := |terms| - 1;
      BetterMatchesScoreMore(terms[..n], docs, idf, a, b);
      RawStep(terms, docs, idf, a, n);
      RawStep(terms, docs, idf, b, n);
      NormsInOrder(docs, a, b);
      OccursSomewhere(docs, a, terms[n]);
      TermScores(docs, idf, terms[n], Occurrences(a, terms[n]), Occurrences(b, terms[n]), Norm(docs, |a|), Norm(docs, |b|));
      if Better(terms, a, b) { BetterStep(terms, a, b, n); }
    }
  }

  lemma NormOrder(docs: seq<seq<string>>, short: nat, long: nat, passage: seq<string>)
    requires short < long && passage in docs && |passage| == long
    ensures Norm(docs, short) < Norm(docs, long)
  {
    var i :| 0 <= i < |docs| && docs[i] == passage;
    TotalMeans(docs, i);
    var average := Total(docs) as real / |docs| as real;
    DivideNonNegative(Total(docs) as real, |docs| as real);
    Cross(short as real, average, long as real, average);
    SmallerProduct(average, short as real, long as real);
  }

  /** Every score lies in [0, 1] and is positive exactly for a passage that holds a term of the
      question, even when the question has no weight to divide by. */
  lemma ScoreMeans(terms: seq<string>, docs: seq<seq<string>>, idf: Idf, tokens: seq<string>)
    requires Positive(idf) && docs != [] && tokens in docs
    ensures 0.0 <= Score(terms, docs, idf, tokens) <= 1.0
    ensures Score(terms, docs, idf, tokens) > 0.0 <==> Matches(terms, tokens)
  {
    TotalWeightSign(terms, docs, idf);
    if TotalWeight(terms, docs, idf) > 0.0 {
      RawScoreSign(terms, docs, idf, tokens);
      DivideNonNegative(RawScore(terms, docs, idf, tokens), TotalWeight(terms, docs, idf));
    } else {
      assert forall k | 0 <= k < |terms| :: terms[k] in tokens ==> DocumentFrequency(docs, terms[k]) > 0;
    }
  }

  method ScoreDocument(terms: seq<string>, docs: seq<seq<string>>, df: map<string, nat>, idf: Idf, tokens: seq<string>) returns (score: real)
    requires docs != [] && Counts(df, docs)
    ensures score == RawScore(terms, docs, idf, tokens)
  {
    score := 0.0;
    for k := 0 to |terms|
      invariant score == RawScore(terms[..k], docs, idf, tokens)
    {
      assert terms[..k + 1][..k] == terms[..k];
      var count := Occurrences(tokens, terms[k]);
      if count > 0 {
        score := score + (if terms[k] in df then idf(|docs|, df[terms[k]]) else 0.0) * Saturation(count, Norm(docs, |tokens|));
      }
    }
    TakeAll(terms);
  }

  method LexicalScores(terms: seq<string>, docs: seq<seq<string>>, idf: Idf) returns (scores: seq<real>)
    requires Positive(idf)
    ensures scores == Scores(terms, docs, idf)
    ensures forall i :: 0 <= i < |docs| ==> 0.0 <= scores[i] <= 1.0 && (scores[i] > 0.0 <==> Matches(terms, docs[i]))
  {
    if docs == [] { return []; }
    var df := CountDocuments(docs);
    var total := SumWeights(terms, docs, df, idf);
    scores := [];
    for i := 0 to |docs|
      invariant scores == Scores(terms, docs, idf)[..i]
      invariant forall j :: 0 <= j < i ==> 0.0 <= scores[j] <= 1.0 && (scores[j] > 0.0 <==> Matches(terms, docs[j]))
    {
      ScoreMeans(terms, docs, idf, docs[i]);
      TakeStep(Scores(terms, docs, idf), i);
      if total > 0.0 {
        var score := ScoreDocument(terms, docs, df, idf, docs[i]);
        scores := scores + [Clamped(score / total)];
      } else {
        scores := scores + [0.0];
      }
    }
  }
}
