/** Re-ranking: the vector scores and the lexical scores are each rescaled to [0, 1], blended,
    and the candidates put in stable descending order of the blend. */
module Rerank {
  import opened Wrappers
  import LexicalScore

  const NARROW := 0.000000000001

  function Low(values: seq<real>): (r: real)
    requires values != []
    ensures r in values && forall v :: v in values ==> r <= v
  {
    if |values| == 1 then values[0]
    else assert values == [values[0]] + values[1..]; var rest := Low(values[1..]); if rest < values[0] then rest else values[0]
  }

  function High(values: seq<real>): (r: real)
    requires values != []
    ensures r in values && forall v :: v in values ==> v <= r
  {
    if |values| == 1 then values[0]
    else assert values == [values[0]] + values[1..]; var rest := High(values[1..]); if rest > values[0] then rest else values[0]
  }

  function Spread(values: seq<real>): (r: real)
    requires values != []
    ensures r >= 0.0
  {
    High(values) - Low(values)
  }

  function MinMax(values: seq<real>): (r: seq<real>)
    ensures |r| == |values|
  {
    if values == [] then []
    else if Spread(values) < NARROW then seq(|values|, _ => 0.0)
    else seq(|values|, i requires 0 <= i < |values| => Rescale(values[i], Low(values), High(values)))
  }

  function Rescale(x: real, low: real, high: real): real
    requires low < high
  {
    (x - low) / (high - low)
  }

  function Mix(v: real, l: real, weight: real): real { (1.0 - weight) * v + weight * l }

  function Blend(vector: seq<real>, lexical: seq<real>, weight: real): (r: seq<real>)
    ensures |r| == if |vector| < |lexical| then |vector| else |lexical|
  {
    var n := if |vector| < |lexical| then |vector| else |lexical|;
    seq(n, i requires 0 <= i < n => Mix(MinMax(vector)[i], MinMax(lexical)[i], weight))
  }

  // ----- Stable descending order -----

  predicate Before(scores: seq<real>, i: nat, j: nat)
    requires i < |scores| && j < |scores|
  {
    scores[i] > scores[j] || (scores[i] == scores[j] && i < j)
  }

  predicate Within(order: seq<nat>, n: nat) { forall a :: 0 <= a < |order| ==> order[a] < n }

  ghost predicate Listing(order: seq<nat>, n: nat) {
    |order| == n && NoDuplicates(order) && forall i: nat :: i in order <==> i < n
  }

  ghost predicate IsOrder(order: seq<nat>, scores: seq<real>) {
    Listing(order, |scores|) && Within(order, |scores|) && Ascends(order, scores)
  }

  /** Puts a later candidate behind everything that scores at least as much. */
  function Insert(order: seq<nat>, i: nat, scores: seq<real>): (r: seq<nat>)
    requires i < |scores| && Within(order, i)
    ensures |r| == |order| + 1 && Within(r, i + 1) && forall k :: k in r <==> k in order || k == i
  {
    if order == [] || scores[order[|order| - 1]] >= scores[i] then order + [i]
    else
      assert order == order[..|order| - 1] + [order[|order| - 1]];
      Insert(order[..|order| - 1], i, scores) + [order[|order| - 1]]
  }

  function FirstInOrder(scores: seq<real>, n: nat): (r: seq<nat>)
    requires n <= |scores|
    ensures |r| == n && Within(r, n) && forall k: nat :: k in r <==> k < n
  {
    if n == 0 then [] else Insert(FirstInOrder(scores, n - 1), n - 1, scores)
  }

  function Descending(scores: seq<real>): seq<nat> { FirstInOrder(scores, |scores|) }

  ghost predicate Ascends(order: seq<nat>, scores: seq<real>)
    requires Within(order, |scores|)
  {
    forall a, b :: 0 <= a < b < |order| ==> Before(scores, order[a], order[b])
  }

  lemma {:induction false} InsertKeepsOrder(order: seq<nat>, i: nat, scores: seq<real>)
    requires i < |scores| && Within(order, i) && Ascends(order, scores)
    ensures Ascends(Insert(order, i, scores), scores)
  {
    var n := |order| - 1;
    if order == [] {
    } else if scores[order[n]] >= scores[i] {
      assert forall a | 0 <= a < |order| :: order[a] == order[n] || Before(scores, order[a], order[n]);
      assert forall a | 0 <= a < |order| :: order[a] in order;
    } else {
      InsertKeepsOrder(order[..n], i, scores);
      var r := Insert(order[..n], i, scores);
      forall a | 0 <= a < |r| ensures Before(scores, r[a], order[n]) {
        assert r[a] in r;
        if r[a] != i { var b :| 0 <= b < n && order[..n][b] == r[a]; assert order[b] == r[a]; }
      }
    }
  }

  lemma {:induction false} FirstInOrderAscends(scores: seq<real>, n: nat)
    requires n <= |scores|
    ensures Ascends(FirstInOrder(scores, n), scores)
  {
    if n > 0 {
      FirstInOrderAscends(scores, n - 1);
      InsertKeepsOrder(FirstInOrder(scores, n - 1), n - 1, scores);
    }
  }

  /** Sorting lists every candidate once, better scores first and ties in their given order. */
  lemma DescendingIsOrder(scores: seq<real>)
    ensures IsOrder(Descending(scores), scores)
  {
    FirstInOrderAscends(scores, |scores|);
    assert forall a | 0 <= a < |Descending(scores)| :: Descending(scores)[a] in Descending(scores);
  }

  /** There is only one such listing. */
  lemma {:induction false} OneOrder(p: seq<nat>, q: seq<nat>, scores: seq<real>)
    requires |p| == |q| && Within(p, |scores|) && Within(q, |scores|) && forall k :: k in q <==> k in p
    requires Ascends(p, scores) && Ascends(q, scores)
    ensures p == q
  {
    if p != [] {
      assert p[0] in q && q != [];
      assert q[0] in p;
      var a, b :| 0 <= a < |q| && q[a] == p[0] && 0 <= b < |p| && p[b] == q[0];
      assert p[0] == q[0];
      assert p == [p[0]] + p[1..] && q == [q[0]] + q[1..];
      forall k ensures k in q[1..] <==> k in p[1..] {
        if k in p[1..] { var a :| 0 <= a < |p| - 1 && p[1..][a] == k; assert Before(scores, p[0], p[a + 1]); assert k in q; }
        if k in q[1..] { var a :| 0 <= a < |q| - 1 && q[1..][a] == k; assert Before(scores, q[0], q[a + 1]); assert k in p; }
      }
      OneOrder(p[1..], q[1..], scores);
    }
  }

  ghost predicate Precedes(order: seq<nat>, i: nat, j: nat) {
    exists a, b :: 0 <= a < b < |order| && order[a] == i && order[b] == j
  }

  lemma PrecedesIsBefore(scores: seq<real>, i: nat, j: nat)
    requires i < |scores| && j < |scores| && i != j
    ensures Precedes(Descending(scores), i, j) <==> Before(scores, i, j)
  {
    DescendingIsOrder(scores);
    var order := Descending(scores);
    assert i in order && j in order;
    var a, b :| 0 <= a < |order| && order[a] == i && 0 <= b < |order| && order[b] == j;
    assert a < b ==> Before(scores, order[a], order[b]);
    assert b < a ==> Before(scores, order[b], order[a]);
  }

  // ----- What the blend does to the order -----

  ghost predicate Alike(s: seq<real>, t: seq<real>) {
    |s| == |t| && forall i, j :: 0 <= i < |s| && 0 <= j < |s| ==> (s[i] > s[j] <==> t[i] > t[j])
  }

  lemma AlikeSortAlike(s: seq<real>, t: seq<real>)
    requires Alike(s, t)
    ensures Descending(s) == Descending(t)
  {
    DescendingIsOrder(s);
    DescendingIsOrder(t);
    var order := Descending(s);
    forall a, b | 0 <= a < b < |order| ensures Before(t, order[a], order[b]) {
      assert Before(s, order[a], order[b]);
    }
    forall k ensures k in Descending(t) <==> k in order { }
    OneOrder(order, Descending(t), t);
  }

  lemma ScaleKeepsOrder(x: real, y: real, factor: real)
    requires factor > 0.0
    ensures x > y <==> factor * x > factor * y
  {
    if x > y { assert factor * (x - y) > 0.0; }
    if y > x { assert factor * (y - x) > 0.0; }
  }

  lemma RatioKeepsOrder(x: real, y: real, divisor: real)
    requires divisor > 0.0
    ensures x > y <==> x / divisor > y / divisor
  {
    ScaleKeepsOrder(x / divisor, y / divisor, divisor);
    assert divisor * (x / divisor) == x && divisor * (y / divisor) == y;
  }

  lemma Share(x: real, whole: real)
    requires 0.0 <= x <= whole && whole > 0.0
    ensures 0.0 <= x / whole <= 1.0
    ensures x / whole == 1.0 <==> x == whole
    ensures x / whole == 0.0 <==> x == 0.0
  {
    var share := x / whole;
    assert share * whole == x;
    RatioKeepsOrder(0.0, x, whole);
    RatioKeepsOrder(x, whole, whole);
  }

  lemma RescaleKeeps(x: real, y: real, low: real, high: real)
    requires low <= x <= high && low <= y <= high && low < high
    ensures 0.0 <= Rescale(x, low, high) <= 1.0
    ensures x > y <==> Rescale(x, low, high) > Rescale(y, low, high)
    ensures x == high <==> Rescale(x, low, high) == 1.0
    ensures x == low <==> Rescale(x, low, high) == 0.0
  {
    RatioKeepsOrder(x - low, y - low, high - low);
    Share(x - low, high - low);
  }

  /** Rescaled scores lie in [0, 1], never invert a comparison, and keep every one unless the
      spread is too narrow. */
  lemma MinMaxKeeps(values: seq<real>, i: nat, j: nat)
    requires i < |values| && j < |values|
    ensures 0.0 <= MinMax(values)[i] <= 1.0
    ensures values[i] >= values[j] ==> MinMax(values)[i] >= MinMax(values)[j]
    ensures Spread(values) >= NARROW ==> (values[i] > values[j] <==> MinMax(values)[i] > MinMax(values)[j])
    ensures Spread(values) >= NARROW ==> (values[i] == High(values) <==> MinMax(values)[i] == 1.0)
    ensures Spread(values) >= NARROW ==> (values[i] == Low(values) <==> MinMax(values)[i] == 0.0)
  {
    if Spread(values) >= NARROW {
      assert values[i] in values && values[j] in values;
      RescaleKeeps(values[i], values[j], Low(values), High(values));
      RescaleKeeps(values[j], values[i], Low(values), High(values));
    }
  }

  ghost predicate Falls(values: seq<real>) {
    forall i, j :: 0 <= i < j < |values| ==> values[i] >= values[j]
  }

  function Given(n: nat): (r: seq<nat>)
    ensures |r| == n && forall k: nat :: k in r <==> k < n
  {
    if n == 0 then [] else Given(n - 1) + [n - 1]
  }

  lemma {:induction false} GivenAt(n: nat, a: nat)
    requires a < n
    ensures Given(n)[a] == a
  {
    if a < n - 1 { GivenAt(n - 1, a); }
  }

  /** Scores sort into the given order exactly when they never rise. */
  lemma GivenOrder(scores: seq<real>)
    ensures Descending(scores) == Given(|scores|) <==> Falls(scores)
  {
    var n := |scores|;
    DescendingIsOrder(scores);
    forall a | 0 <= a < n ensures Given(n)[a] == a { GivenAt(n, a); }
    if Falls(scores) {
      assert Ascends(Given(n), scores);
      OneOrder(Descending(scores), Given(n), scores);
    }
    if Descending(scores) == Given(n) {
      forall i, j | 0 <= i < j < n ensures scores[i] >= scores[j] {
        assert Before(scores, Descending(scores)[i], Descending(scores)[j]);
      }
    }
  }

  ghost predicate Silent(lexical: seq<real>, weight: real) {
    weight == 0.0 || (weight < 1.0 && (lexical == [] || Spread(lexical) < NARROW))
  }

  lemma MixSilent(v: real, v': real, l: real, l': real, weight: real)
    requires weight == 0.0 || (weight < 1.0 && l == 0.0 && l' == 0.0)
    ensures v > v' <==> Mix(v, l, weight) > Mix(v', l', weight)
  {
    ScaleKeepsOrder(v, v', 1.0 - weight);
    if weight == 0.0 {
      assert weight * l == 0.0 && weight * l' == 0.0;
    }
  }

  lemma SilentAlike(vector: seq<real>, lexical: seq<real>, weight: real)
    requires |vector| == |lexical| && Silent(lexical, weight)
    ensures Alike(MinMax(vector), Blend(vector, lexical, weight))
  {
    var v, l, blend := MinMax(vector), MinMax(lexical), Blend(vector, lexical, weight);
    forall i, j | 0 <= i < |v| && 0 <= j < |v| ensures v[i] > v[j] <==> blend[i] > blend[j] {
      MixSilent(v[i], v[j], l[i], l[j], weight);
    }
  }

  lemma RescaledAlike(values: seq<real>)
    requires values != [] && Spread(values) >= NARROW
    ensures Alike(values, MinMax(values))
  {
    forall i, j | 0 <= i < |values| && 0 <= j < |values| ensures values[i] > values[j] <==> MinMax(values)[i] > MinMax(values)[j] {
      MinMaxKeeps(values, i, j);
    }
  }

  lemma FlatSortsAsGiven(vector: seq<real>, flat: seq<real>)
    requires |flat| == |vector| && forall i :: 0 <= i < |flat| ==> flat[i] == 0.0
    ensures Descending(flat) == Descending(vector) <==> Falls(vector)
  {
    GivenOrder(flat);
    GivenOrder(vector);
  }

  /** With no lexical share, or no lexical signal, re-ranking is the stable vector order exactly
      when the vector scores are spread wide enough or already listed best first. */
  lemma VectorOrderKept(vector: seq<real>, lexical: seq<real>, weight: real)
    requires |vector| == |lexical| && vector != [] && Silent(lexical, weight)
    ensures Descending(Blend(vector, lexical, weight)) == Descending(vector)
            <==> Spread(vector) >= 0.000000000001 || Falls(vector)
  {
    SilentAlike(vector, lexical, weight);
    AlikeSortAlike(MinMax(vector), Blend(vector, lexical, weight));
    if Spread(vector) >= NARROW {
      RescaledAlike(vector);
      AlikeSortAlike(vector, MinMax(vector));
    } else {
      FlatSortsAsGiven(vector, MinMax(vector));
    }
  }

  /** The passage worst on distance and best on wording overtakes one that is best on distance
      and listed earlier exactly when the lexical share exceeds 1 / (2 - L0), L0 being the
      incumbent's own rescaled lexical score. */
  lemma Overtakes(vector: seq<real>, lexical: seq<real>, weight: real, incumbent: nat, challenger: nat)
    requires |vector| == |lexical| && incumbent < challenger < |vector|
    requires Spread(vector) >= NARROW && Spread(lexical) >= NARROW
    requires vector[incumbent] == High(vector) && vector[challenger] == Low(vector)
    requires lexical[challenger] == High(lexical)
    ensures MinMax(lexical)[incumbent] <= 1.0
    ensures Precedes(Descending(Blend(vector, lexical, weight)), challenger, incumbent)
            <==> weight > 1.0 / (2.0 - MinMax(lexical)[incumbent])
  {
    var blend := Blend(vector, lexical, weight);
    MinMaxKeeps(vector, incumbent, challenger);
    MinMaxKeeps(vector, challenger, incumbent);
    MinMaxKeeps(lexical, challenger, incumbent);
    MinMaxKeeps(lexical, incumbent, challenger);
    assert blend[challenger] == Mix(0.0, 1.0, weight);
    assert blend[incumbent] == Mix(1.0, MinMax(lexical)[incumbent], weight);
    MixBoundary(weight, MinMax(lexical)[incumbent]);
    PrecedesIsBefore(blend, challenger, incumbent);
  }

  lemma MixBoundary(weight: real, l0: real)
    requires l0 <= 1.0
    ensures Mix(0.0, 1.0, weight) > Mix(1.0, l0, weight) <==> weight > 1.0 / (2.0 - l0)
  {
    RatioKeepsOrder(weight * (2.0 - l0), 1.0, 2.0 - l0);
    assert weight * (2.0 - l0) / (2.0 - l0) == weight;
  }

  /** A candidate no worse on either signal stays ahead of a later one, and moves ahead of an
      earlier one it beats on a signal that has both weight and spread. */
  lemma DominantPrecedes(vector: seq<real>, lexical: seq<real>, weight: real, i: nat, j: nat)
    requires |vector| == |lexical| && i < |vector| && j < |vector| && i != j && 0.0 <= weight <= 1.0
    requires vector[i] >= vector[j] && lexical[i] >= lexical[j]
    requires || i < j
             || (weight < 1.0 && vector[i] > vector[j] && Spread(vector) >= NARROW)
             || (weight > 0.0 && lexical[i] > lexical[j] && Spread(lexical) >= NARROW)
    ensures Precedes(Descending(Blend(vector, lexical, weight)), i, j)
  {
    var blend := Blend(vector, lexical, weight);
    MinMaxKeeps(vector, i, j);
    MinMaxKeeps(lexical, i, j);
    MixGrows(MinMax(vector)[i], MinMax(vector)[j], MinMax(lexical)[i], MinMax(lexical)[j], weight);
    PrecedesIsBefore(blend, i, j);
  }

  lemma MixGrows(v: real, v': real, l: real, l': real, weight: real)
    requires v >= v' && l >= l' && 0.0 <= weight <= 1.0
    ensures Mix(v, l, weight) >= Mix(v', l', weight)
    ensures (weight < 1.0 && v > v') || (weight > 0.0 && l > l') ==> Mix(v, l, weight) > Mix(v', l', weight)
  {
    assert Mix(v, l, weight) - Mix(v', l', weight) == (1.0 - weight) * (v - v') + weight * (l - l');
    PositiveSum(1.0 - weight, v - v', weight, l - l');
  }

  lemma PositiveSum(a: real, x: real, b: real, y: real)
    requires a >= 0.0 && x >= 0.0 && b >= 0.0 && y >= 0.0
    ensures a * x + b * y >= 0.0
    ensures (a > 0.0 && x > 0.0) || (b > 0.0 && y > 0.0) ==> a * x + b * y > 0.0
  {}

  // ----- The stage -----

  /** A slice up to an index, which may count from the end. */
  function UpTo<T>(s: seq<T>, limit: int): seq<T> {
    if limit >= |s| then s else if limit >= 0 then s[..limit] else if |s| + limit >= 0 then s[..|s| + limit] else []
  }

  /** A limit from the front keeps that many, one from the end drops that many. */
  lemma UpToMeans<T>(s: seq<T>, limit: int)
    ensures UpTo(s, limit) <= s
    ensures |UpTo(s, limit)| == if limit >= |s| then |s| else if limit >= 0 then limit else if -limit <= |s| then |s| - -limit else 0
  {}

  function Limited(order: seq<nat>, topK: Option<int>): seq<nat> {
    match topK case None => order case Some(k) => UpTo(order, k)
  }

  /** The candidates best first, or None when scores and passages are not parallel. */
  method Rerank(terms: seq<string>, docs: seq<seq<string>>, idf: LexicalScore.Idf, vector: seq<real>,
                weight: real, topK: Option<int>) returns (order: Option<seq<nat>>)
    requires LexicalScore.Positive(idf)
    ensures order == if docs == [] then Some([])
                     else if |vector| != |docs| then None
                     else Some(Limited(Descending(Blend(vector, LexicalScore.Scores(terms, docs, idf), weight)), topK))
    ensures order.Some? ==> NoDuplicates(order.value) && Within(order.value, |docs|)
    ensures order.Some? && topK.None? ==> Listing(order.value, |docs|)
  {
    if docs == [] { return Some([]); }
    if |vector| != |docs| { return None; }
    var lexical := LexicalScore.LexicalScores(terms, docs, idf);
    var scores := Blend(vector, lexical, weight);
    DescendingIsOrder(scores);
    order := Some(Limited(Descending(scores), topK));
  }
}
