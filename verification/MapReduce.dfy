/** Parallel map and tree reduce over one document's passages or the corpus's sections. */
module MapReduce {
  import opened Wrappers
  import opened Corpus
  import opened Ports

  const SEPARATOR := "\n\n---\n\n"

  /** How a summary was put together: a partial summary, a model merge of several
      summaries, or their plain concatenation after a failed merge. */
  datatype Merge = Leaf(text: string) | Merged(parts: seq<Merge>) | Joined(parts: seq<Merge>)

  function JoinAll(parts: seq<string>): string {
    if parts == [] then ""
    else if |parts| == 1 then parts[0]
    else parts[0] + SEPARATOR + JoinAll(parts[1..])
  }

  function Render(t: Merge, reduce: string -> string): string {
    match t
    case Leaf(text) => text
    case Merged(parts) => reduce(JoinAll(RenderAll(parts, reduce)))
    case Joined(parts) => JoinAll(RenderAll(parts, reduce))
  }

  function RenderAll(parts: seq<Merge>, reduce: string -> string): (r: seq<string>)
    ensures |r| == |parts|
    ensures forall i :: 0 <= i < |parts| ==> r[i] == Render(parts[i], reduce)
  {
    if parts == [] then [] else [Render(parts[0], reduce)] + RenderAll(parts[1..], reduce)
  }

  /** The model as a merge of summaries. */
  function Reducer(services: Services, stage: Stage, budget: nat): string -> string {
    (s: string) => services.llm(Prompt(stage, s, budget))
  }

  /** The partial summaries under a tree, left to right. */
  function Frontier(t: Merge): seq<string> {
    match t
    case Leaf(text) => [text]
    case Merged(parts) => Frontiers(parts)
    case Joined(parts) => Frontiers(parts)
  }

  function Frontiers(parts: seq<Merge>): seq<string> {
    if parts == [] then [] else Frontier(parts[0]) + Frontiers(parts[1..])
  }

  function Depth(t: Merge): nat {
    match t
    case Leaf(_) => 0
    case Merged(parts) => 1 + Depths(parts)
    case Joined(parts) => 1 + Depths(parts)
  }

  function Depths(parts: seq<Merge>): (r: nat)
    ensures forall t :: t in parts ==> Depth(t) <= r
  {
    if parts == [] then 0
    else
      var d, r := Depth(parts[0]), Depths(parts[1..]);
      assert parts == [parts[0]] + parts[1..];
      if d > r then d else r
  }

  /** Every inner node has between two and `fanin` children. */
  ghost predicate Proper(t: Merge, fanin: nat) {
    match t
    case Leaf(text) => text != ""
    case Merged(parts) => 2 <= |parts| <= fanin && forall p :: p in parts ==> Proper(p, fanin)
    case Joined(parts) => 2 <= |parts| <= fanin && forall p :: p in parts ==> Proper(p, fanin)
  }

  ghost predicate AllJoined(t: Merge) {
    match t
    case Leaf(_) => true
    case Merged(_) => false
    case Joined(parts) => forall p :: p in parts ==> AllJoined(p)
  }

  function Pow(base: nat, exp: nat): nat {
    if exp == 0 then 1 else base * Pow(base, exp - 1)
  }

  function NonEmpty(answers: seq<Option<string>>): seq<string> {
    if answers == [] then []
    else (if answers[0].Some? && answers[0].value != "" then [answers[0].value] else []) + NonEmpty(answers[1..])
  }

  // ----- facts about the tree

  lemma {:induction false} FrontiersAppend(a: seq<Merge>, b: seq<Merge>)
    ensures Frontiers(a + b) == Frontiers(a) + Frontiers(b)
  {
    if a == [] {
      assert a + b == b;
    } else {
      assert (a + b)[1..] == a[1..] + b;
      FrontiersAppend(a[1..], b);
    }
  }

  lemma {:induction false} DepthsBound(parts: seq<Merge>, bound: nat)
    requires forall t :: t in parts ==> Depth(t) <= bound
    ensures Depths(parts) <= bound
  {
    if parts != [] {
      assert parts[0] in parts;
      assert forall t :: t in parts[1..] ==> t in parts;
      DepthsBound(parts[1..], bound);
    }
  }

  lemma {:induction false} JoinAllAppend(a: seq<string>, b: seq<string>)
    requires a != [] && b != []
    ensures JoinAll(a + b) == JoinAll(a) + "\n\n---\n\n" + JoinAll(b)
  {
    if |a| == 1 {
      assert (a + b)[1..] == b;
    } else {
      assert (a + b)[1..] == a[1..] + b;
      JoinAllAppend(a[1..], b);
      assert a[0] + SEPARATOR + (JoinAll(a[1..]) + SEPARATOR + JoinAll(b))
          == a[0] + SEPARATOR + JoinAll(a[1..]) + SEPARATOR + JoinAll(b);
    }
  }

  lemma {:induction false} FrontierNonEmpty(t: Merge, fanin: nat)
    requires Proper(t, fanin)
    ensures Frontier(t) != []
  {
    if !t.Leaf? { FrontierNonEmpty(t.parts[0], fanin); }
  }

  lemma {:induction false} JoinedParts(parts: seq<Merge>, fanin: nat, reduce: string -> string)
    requires parts != []
    requires forall p :: p in parts ==> Proper(p, fanin) && AllJoined(p)
    ensures JoinAll(RenderAll(parts, reduce)) == JoinAll(Frontiers(parts))
    decreases parts
  {
    AllJoinedRenders(parts[0], fanin, reduce);
    FrontierNonEmpty(parts[0], fanin);
    if |parts| == 1 {
      assert RenderAll(parts, reduce) == [Render(parts[0], reduce)];
      assert Frontiers(parts) == Frontier(parts[0]) + Frontiers(parts[1..]) == Frontier(parts[0]);
    } else {
      assert forall p :: p in parts[1..] ==> p in parts;
      JoinedParts(parts[1..], fanin, reduce);
      FrontierNonEmpty(parts[1..][0], fanin);
      JoinAllAppend(Frontier(parts[0]), Frontiers(parts[1..]));
      assert RenderAll(parts, reduce)[1..] == RenderAll(parts[1..], reduce);
    }
  }

  /** When every merge failed, the summary is the plain join of all the partial ones. */
  lemma {:induction false} AllJoinedRenders(t: Merge, fanin: nat, reduce: string -> string)
    requires Proper(t, fanin) && AllJoined(t)
    ensures Render(t, reduce) == JoinAll(Frontier(t))
    decreases t
  {
    if t.Joined? { JoinedParts(t.parts, fanin, reduce); }
  }

  lemma {:induction false} LevelsAreLeast(n: nat, fanin: nat, level: nat, lower: nat)
    requires fanin >= 2 && level > 0 && Pow(fanin, level - 1) < n
    requires lower < level
    ensures Pow(fanin, lower) < n
    decreases level - lower
  {
    if lower < level - 1 {
      LevelsAreLeast(n, fanin, level, lower + 1);
      assert Pow(fanin, lower + 1) == fanin * Pow(fanin, lower);
      assert Pow(fanin, lower) <= fanin * Pow(fanin, lower);
    }
  }

  /** One level: fewer summaries, the same partial summaries below them in order. */
  lemma LevelCount(m: nat, k: nat, fanin: nat, n: nat, p: nat)
    requires fanin >= 2 && m >= 1
    requires (k - 1) * fanin < m <= k * fanin
    requires (m - 1) * p < n <= m * p
    ensures (k - 1) * (fanin * p) < n <= k * (fanin * p)
  {
    assert (k - 1) * fanin <= m - 1;
    MulLe((k - 1) * fanin, m - 1, p);
    MulLe(m, k * fanin, p);
    assert (k - 1) * fanin * p == (k - 1) * (fanin * p);
    assert k * fanin * p == k * (fanin * p);
  }

  lemma MulLe(a: int, b: int, p: nat)
    requires a <= b
    ensures a * p <= b * p
  {}

  /** No merge fell back to concatenation. */
  ghost predicate AllMerged(t: Merge) {
    match t
    case Leaf(_) => true
    case Merged(parts) => forall p :: p in parts ==> AllMerged(p)
    case Joined(_) => false
  }

  ghost predicate EveryMerged(trees: seq<Merge>) { forall t :: t in trees ==> AllMerged(t) }

  ghost predicate EveryJoined(trees: seq<Merge>) { forall t :: t in trees ==> AllJoined(t) }

  // ----- how the calls' outcomes show in the trees

  /** The next `n` calls all fail. */
  ghost predicate AllFail(faults: seq<Outcome>, n: nat) { forall i :: 0 <= i < n ==> FailsAt(faults, i) }

  ghost predicate NoneFails(faults: seq<Outcome>, n: nat) { forall i :: 0 <= i < n ==> !FailsAt(faults, i) }

  /** Merging `trees` into `next` took `n` calls: if all failed only joins were added, if none
      did only merges. */
  ghost predicate Fate(faults: seq<Outcome>, n: nat, trees: seq<Merge>, next: seq<Merge>) {
    && (AllFail(faults, n) && EveryJoined(trees) ==> EveryJoined(next))
    && (NoneFails(faults, n) && EveryMerged(trees) ==> EveryMerged(next))
  }

  lemma CallsSplit(faults: seq<Outcome>, m: nat, n: nat)
    ensures AllFail(faults, m + n) <==> AllFail(faults, m) && AllFail(Later(faults, m), n)
    ensures NoneFails(faults, m + n) <==> NoneFails(faults, m) && NoneFails(Later(faults, m), n)
  {
    forall i: nat ensures FailsAt(Later(faults, m), i) <==> FailsAt(faults, m + i) { LaterAt(faults, m, i); }
    forall i | m <= i < m + n ensures FailsAt(faults, i) <==> FailsAt(Later(faults, m), i - m) { assert i == m + (i - m); }
  }

  lemma FateStep(faults: seq<Outcome>, m: nat, n: nat, trees: seq<Merge>, next: seq<Merge>, tree: Merge)
    requires Fate(faults, m, trees, next) && Fate(Later(faults, m), n, trees, [tree])
    ensures Fate(faults, m + n, trees, next + [tree])
  {
    CallsSplit(faults, m, n);
    assert tree in [tree];
  }

  lemma FateTrans(faults: seq<Outcome>, m: nat, n: nat, a: seq<Merge>, b: seq<Merge>, c: seq<Merge>)
    requires Fate(faults, m, a, b) && Fate(Later(faults, m), n, b, c)
    ensures Fate(faults, m + n, a, c)
  {
    CallsSplit(faults, m, n);
  }

  /** One batch, alone or merged by one call. */
  lemma BatchFate(faults: seq<Outcome>, trees: seq<Merge>, batch: seq<Merge>, tree: Merge)
    requires batch != [] && forall t :: t in batch ==> t in trees
    requires tree == if |batch| == 1 then batch[0] else if FailsAt(faults, 0) then Joined(batch) else Merged(batch)
    ensures Fate(faults, if |batch| == 1 then 0 else 1, trees, [tree])
  {
    assert batch[0] in batch;
  }

  // ----- the algorithm

  method MapAll(ports: Ports, chunks: seq<string>, stage: Stage, budget: nat)
    returns (minis: seq<string>, ghost answers: seq<Option<string>>)
    modifies ports`faults, ports`llmCalls
    ensures |answers| == |chunks| && minis == NonEmpty(answers)
    ensures forall i :: 0 <= i < |chunks| && answers[i].Some? ==>
              answers[i].value == ports.services.llm(Prompt(stage, chunks[i], budget))
    ensures forall i :: 0 <= i < |chunks| ==> (answers[i].None? <==> FailsAt(old(ports.faults), i))
    ensures ports.llmCalls == old(ports.llmCalls) + |chunks| && ports.faults == Later(old(ports.faults), |chunks|)
    ensures NoFaults(old(ports.faults)) ==> NoFaults(ports.faults) && forall i :: 0 <= i < |chunks| ==> answers[i].Some?
  {
    minis, answers := [], [];
    for i := 0 to |chunks|
      invariant |answers| == i && minis == NonEmpty(answers)
      invariant forall j :: 0 <= j < i && answers[j].Some? ==>
                  answers[j].value == ports.services.llm(Prompt(stage, chunks[j], budget))
      invariant forall j :: 0 <= j < i ==> (answers[j].None? <==> FailsAt(old(ports.faults), j))
      invariant ports.llmCalls == old(ports.llmCalls) + i && ports.faults == Later(old(ports.faults), i)
      invariant NoFaults(old(ports.faults)) ==> NoFaults(ports.faults) && forall j :: 0 <= j < i ==> answers[j].Some?
    {
      LaterAt(old(ports.faults), i, 0);
      LaterPlus(old(ports.faults), i, 1);
      var mini := ports.Invoke(Prompt(stage, chunks[i], budget));
      if mini.Some? && mini.value != "" { minis := minis + [mini.value]; }
      NonEmptyAppend(answers, mini);
      answers := answers + [mini];
    }
  }

  lemma {:induction false} NonEmptyAppend(answers: seq<Option<string>>, last: Option<string>)
    ensures NonEmpty(answers + [last])
         == NonEmpty(answers) + (if last.Some? && last.value != "" then [last.value] else [])
  {
    if answers != [] {
      assert (answers + [last])[1..] == answers[1..] + [last];
      NonEmptyAppend(answers[1..], last);
    }
  }

  ghost predicate Built(minis: seq<string>, trees: seq<Merge>, fanin: nat, level: nat, reduce: string -> string) {
    && |minis| == |trees|
    && forall i :: 0 <= i < |minis| ==>
         minis[i] == Render(trees[i], reduce) && Proper(trees[i], fanin) && Depth(trees[i]) <= level
  }

  /** One batch of a level: a lone summary moves up as it is. */
  method MergeBatch(ports: Ports, batch: seq<string>, ghost trees: seq<Merge>, stage: Stage, budget: nat,
                    ghost fanin: nat, ghost level: nat, ghost reduce: string -> string)
    returns (merged: string, ghost tree: Merge)
    requires 1 <= |batch| <= fanin && Built(batch, trees, fanin, level, reduce)
    requires forall s :: reduce(s) == ports.services.llm(Prompt(stage, s, budget))
    modifies ports`faults, ports`llmCalls
    ensures Built([merged], [tree], fanin, level + 1, reduce) && Frontier(tree) == Frontiers(trees)
    ensures tree == if |batch| == 1 then trees[0] else if FailsAt(old(ports.faults), 0) then Joined(trees) else Merged(trees)
    ensures ports.faults == if |batch| == 1 then old(ports.faults) else Later(old(ports.faults), 1)
    ensures ports.llmCalls == old(ports.llmCalls) + (if |batch| == 1 then 0 else 1)
    ensures NoFaults(old(ports.faults)) ==> NoFaults(ports.faults)
  {
    if |batch| == 1 {
      assert trees == [trees[0]] && Frontiers(trees) == Frontier(trees[0]) + Frontiers(trees[1..]);
      return batch[0], trees[0];
    }
    DepthsBound(trees, level);
    assert RenderAll(trees, reduce) == batch;
    var reply := ports.Invoke(Prompt(stage, JoinAll(batch), budget));
    if reply.Some? {
      merged, tree := reply.value, Merged(trees);
    } else {
      merged, tree := JoinAll(batch), Joined(trees);
    }
  }

  lemma BuiltAppend(a: seq<string>, ta: seq<Merge>, b: string, tb: Merge, fanin: nat, level: nat, reduce: string -> string)
    requires Built(a, ta, fanin, level, reduce) && Built([b], [tb], fanin, level, reduce)
    ensures Built(a + [b], ta + [tb], fanin, level, reduce)
  {
    assert [b][0] == b && [tb][0] == tb;
  }

  lemma BuiltSlice(minis: seq<string>, trees: seq<Merge>, i: nat, end: nat, fanin: nat, level: nat, reduce: string -> string)
    requires Built(minis, trees, fanin, level, reduce) && i <= end <= |minis|
    ensures Built(minis[i..end], trees[i..end], fanin, level, reduce)
  {}

  lemma FrontiersSlice(trees: seq<Merge>, i: nat, end: nat)
    requires i <= end <= |trees|
    ensures Frontiers(trees[i..]) == Frontiers(trees[i..end]) + Frontiers(trees[end..])
  {
    FrontiersAppend(trees[i..end], trees[end..]);
    assert trees[i..end] + trees[end..] == trees[i..];
  }

  /** How many batches of at most `fanin` there are in n summaries. */
  ghost function Batches(n: nat, fanin: nat): nat
    requires fanin >= 2
  {
    if n == 0 then 0 else if n <= fanin then 1 else 1 + Batches(n - fanin, fanin)
  }

  lemma {:induction false} BatchesCeil(n: nat, fanin: nat)
    requires fanin >= 2 && n > 0
    ensures (Batches(n, fanin) - 1) * fanin < n <= Batches(n, fanin) * fanin
    ensures n > 1 ==> Batches(n, fanin) < n
  {
    if n > fanin {
      BatchesCeil(n - fanin, fanin);
      var k := Batches(n - fanin, fanin);
      assert (k + 1) * fanin == k * fanin + fanin && (k - 1) * fanin == k * fanin - fanin;
    }
  }

  /** The state of a level after its first `i` summaries. */
  ghost predicate Reduced(minis: seq<string>, trees: seq<Merge>, i: nat, next: seq<string>, nextTrees: seq<Merge>,
                          fanin: nat, level: nat, reduce: string -> string)
  {
    && fanin >= 2 && i <= |minis| && Built(minis, trees, fanin, level, reduce)
    && Built(next, nextTrees, fanin, level + 1, reduce)
    && |next| + Batches(|minis| - i, fanin) == Batches(|minis|, fanin)
    && Frontiers(trees) == Frontiers(nextTrees) + Frontiers(trees[i..])
  }

  lemma FrontierStep(trees: seq<Merge>, i: nat, end: nat, nextTrees: seq<Merge>, tree: Merge)
    requires i <= end <= |trees| && Frontier(tree) == Frontiers(trees[i..end])
    requires Frontiers(trees) == Frontiers(nextTrees) + Frontiers(trees[i..])
    ensures Frontiers(trees) == Frontiers(nextTrees + [tree]) + Frontiers(trees[end..])
  {
    FrontiersSlice(trees, i, end);
    FrontiersAppend(nextTrees, [tree]);
    FrontiersOne(tree);
    Regroup(Frontiers(nextTrees), Frontier(tree), Frontiers(trees[end..]));
  }

  lemma FrontiersOne(tree: Merge)
    ensures Frontiers([tree]) == Frontier(tree)
  {
    assert [tree][1..] == [] && Frontiers([tree]) == Frontier(tree) + Frontiers([tree][1..]);
  }

  lemma Regroup<T>(a: seq<T>, b: seq<T>, c: seq<T>)
    ensures a + (b + c) == (a + b) + c
  {}

  lemma BatchesStep(n: nat, i: nat, end: nat, fanin: nat)
    requires fanin >= 2 && i < n && end == if i + fanin < n then i + fanin else n
    ensures Batches(n - i, fanin) == 1 + Batches(n - end, fanin)
  {}

  /** Whatever a batch becomes, its fate is that of its call. */
  lemma BatchFateOf(faults: seq<Outcome>, trees: seq<Merge>, i: nat, end: nat)
    requires i < end <= |trees|
    ensures var batch := trees[i..end];
            Fate(faults, if |batch| == 1 then 0 else 1, trees,
                 [if |batch| == 1 then batch[0] else if FailsAt(faults, 0) then Joined(batch) else Merged(batch)])
    ensures Later(faults, 0) == faults
  {
    var batch := trees[i..end];
    BatchFate(faults, trees, batch, if |batch| == 1 then batch[0] else if FailsAt(faults, 0) then Joined(batch) else Merged(batch));
  }

  method ReduceBatch(ports: Ports, minis: seq<string>, ghost trees: seq<Merge>, i: nat, end: nat,
                     ghost next: seq<string>, ghost nextTrees: seq<Merge>, stage: Stage, budget: nat,
                     ghost fanin: nat, ghost level: nat, ghost reduce: string -> string)
    returns (merged: string, ghost tree: Merge)
    requires Reduced(minis, trees, i, next, nextTrees, fanin, level, reduce)
    requires i < |minis| && end == if i + fanin < |minis| then i + fanin else |minis|
    requires forall s :: reduce(s) == ports.services.llm(Prompt(stage, s, budget))
    modifies ports`faults, ports`llmCalls
    ensures Reduced(minis, trees, end, next + [merged], nextTrees + [tree], fanin, level, reduce)
    ensures ports.llmCalls == old(ports.llmCalls) + (if end - i == 1 then 0 else 1)
    ensures ports.faults == Later(old(ports.faults), ports.llmCalls - old(ports.llmCalls))
    ensures Fate(old(ports.faults), ports.llmCalls - old(ports.llmCalls), trees, [tree])
    ensures NoFaults(old(ports.faults)) ==> NoFaults(ports.faults)
  {
    BatchFateOf(old(ports.faults), trees, i, end);
    BuiltSlice(minis, trees, i, end, fanin, level, reduce);
    merged, tree := MergeBatch(ports, minis[i..end], trees[i..end], stage, budget, fanin, level, reduce);
    FrontierStep(trees, i, end, nextTrees, tree);
    BatchesStep(|minis|, i, end, fanin);
    BuiltAppend(next, nextTrees, merged, tree, fanin, level + 1, reduce);
  }

  /** One level: the partial summaries stay in order, one summary is left for every batch, and
      the calls, at most one for each summary that went, show in the trees. */
  ghost predicate IsLevel(faults: seq<Outcome>, later: seq<Outcome>, calls: nat, minis: seq<string>, trees: seq<Merge>,
                          next: seq<string>, nextTrees: seq<Merge>, fanin: nat, level: nat, reduce: string -> string)
    requires fanin >= 2
  {
    && Built(next, nextTrees, fanin, level + 1, reduce) && Frontiers(nextTrees) == Frontiers(trees)
    && |next| == Batches(|minis|, fanin) && calls + |next| <= |minis|
    && later == Later(faults, calls) && Fate(faults, calls, trees, nextTrees)
  }

  method ReduceLevel(ports: Ports, minis: seq<string>, ghost trees: seq<Merge>, stage: Stage, budget: nat,
                     fanin: nat, ghost level: nat, ghost reduce: string -> string)
    returns (next: seq<string>, ghost nextTrees: seq<Merge>)
    requires fanin >= 2 && |minis| > 1 && Built(minis, trees, fanin, level, reduce)
    requires forall s :: reduce(s) == ports.services.llm(Prompt(stage, s, budget))
    modifies ports`faults, ports`llmCalls
    ensures ports.llmCalls >= old(ports.llmCalls)
    ensures IsLevel(old(ports.faults), ports.faults, ports.llmCalls - old(ports.llmCalls), minis, trees, next, nextTrees, fanin, level, reduce)
    ensures NoFaults(old(ports.faults)) ==> NoFaults(ports.faults)
  {
    next, nextTrees := [], [];
    var i := 0;
    while i < |minis|
      invariant 0 <= i <= |minis|
      invariant Reduced(minis, trees, i, next, nextTrees, fanin, level, reduce)
      invariant ports.llmCalls - old(ports.llmCalls) <= i - |next|
      invariant ports.llmCalls >= old(ports.llmCalls) && ports.faults == Later(old(ports.faults), ports.llmCalls - old(ports.llmCalls))
      invariant Fate(old(ports.faults), ports.llmCalls - old(ports.llmCalls), trees, nextTrees)
      invariant NoFaults(old(ports.faults)) ==> NoFaults(ports.faults)
    {
      ghost var before := ports.llmCalls - old(ports.llmCalls);
      var end := if i + fanin < |minis| then i + fanin else |minis|;
      ghost var tree;
      var merged;
      merged, tree := ReduceBatch(ports, minis, trees, i, end, next, nextTrees, stage, budget, fanin, level, reduce);
      ghost var calls := ports.llmCalls - old(ports.llmCalls) - before;
      FateStep(old(ports.faults), before, calls, trees, nextTrees, tree);
      LaterPlus(old(ports.faults), before, calls);
      next, nextTrees := next + [merged], nextTrees + [tree];
      i := end;
    }
    assert trees[|minis|..] == [];
  }

  /** What the reduction promises of the partial summaries `minis`: one tree over all of
      them, in order, no deeper than the least L with fanin^L >= |minis|. */
  ghost predicate Reduction(minis: seq<string>, tree: Merge, levels: nat, fanin: nat) {
    && Proper(tree, fanin) && Frontier(tree) == minis && Depth(tree) <= levels
    && |minis| <= Pow(fanin, levels)
    && forall lower: nat :: lower < levels ==> Pow(fanin, lower) < |minis|
  }

  lemma {:induction false} LeavesBuilt(minis: seq<string>, trees: seq<Merge>)
    requires |trees| == |minis| && forall i :: 0 <= i < |minis| ==> trees[i] == Leaf(minis[i])
    ensures Frontiers(trees) == minis
  {
    if minis != [] {
      LeavesBuilt(minis[1..], trees[1..]);
      assert minis == [minis[0]] + minis[1..];
    }
  }

  lemma {:induction false} NonEmptyTexts(answers: seq<Option<string>>)
    ensures forall s :: s in NonEmpty(answers) ==> s != ""
    ensures |NonEmpty(answers)| <= |answers|
  {
    if answers != [] { NonEmptyTexts(answers[1..]); }
  }

  /** The summaries after `level` levels, and how many there can be of them. */
  ghost predicate AtLevel(partials: seq<string>, minis: seq<string>, trees: seq<Merge>, fanin: nat, level: nat, reduce: string -> string)
    requires fanin >= 2
  {
    && |minis| >= 1 && Built(minis, trees, fanin, level, reduce) && Frontiers(trees) == partials
    && (|minis| - 1) * Pow(fanin, level) < |partials| <= |minis| * Pow(fanin, level)
    && (level > 0 ==> Pow(fanin, level - 1) < |partials|)
  }

  lemma LevelStarts(partials: seq<string>, trees: seq<Merge>, fanin: nat, reduce: string -> string)
    requires fanin >= 2 && partials != [] && forall s :: s in partials ==> s != ""
    requires |trees| == |partials| && forall i :: 0 <= i < |partials| ==> trees[i] == Leaf(partials[i])
    ensures AtLevel(partials, partials, trees, fanin, 0, reduce)
  {
    LeavesBuilt(partials, trees);
    forall i | 0 <= i < |partials| ensures Proper(trees[i], fanin) { assert partials[i] in partials; }
  }

  lemma LevelStep(partials: seq<string>, minis: seq<string>, trees: seq<Merge>, next: seq<string>, nextTrees: seq<Merge>,
                  fanin: nat, level: nat, reduce: string -> string)
    requires fanin >= 2 && AtLevel(partials, minis, trees, fanin, level, reduce) && |minis| > 1
    requires Built(next, nextTrees, fanin, level + 1, reduce) && Frontiers(nextTrees) == Frontiers(trees)
    requires |next| == Batches(|minis|, fanin)
    ensures AtLevel(partials, next, nextTrees, fanin, level + 1, reduce)
  {
    MulLe(1, |minis| - 1, Pow(fanin, level));
    BatchesCeil(|minis|, fanin);
    LevelCount(|minis|, |next|, fanin, |partials|, Pow(fanin, level));
  }

  lemma LevelEnds(partials: seq<string>, minis: seq<string>, trees: seq<Merge>, fanin: nat, level: nat, reduce: string -> string)
    requires fanin >= 2 && AtLevel(partials, minis, trees, fanin, level, reduce) && |minis| == 1
    ensures |trees| == 1 && Reduction(partials, trees[0], level, fanin) && minis[0] == Render(trees[0], reduce)
    ensures AllJoined(trees[0]) ==> minis[0] == JoinAll(partials)
  {
    var tree := trees[0];
    assert trees == [tree];
    FrontiersOne(tree);
    forall lower: nat | lower < level ensures Pow(fanin, lower) < |partials| {
      LevelsAreLeast(|partials|, fanin, level, lower);
    }
    if AllJoined(tree) { AllJoinedRenders(tree, fanin, reduce); }
  }

  function Leaves(partials: seq<string>): (r: seq<Merge>)
    ensures |r| == |partials| && forall i :: 0 <= i < |partials| ==> r[i] == Leaf(partials[i])
  {
    seq(|partials|, i requires 0 <= i < |partials| => Leaf(partials[i]))
  }

  /** After `spent` calls: the oracle's rest, the level's summaries, and how the calls showed. */
  ghost predicate Reducing(faults: seq<Outcome>, rest: seq<Outcome>, spent: nat, partials: seq<string>, minis: seq<string>,
                           trees: seq<Merge>, fanin: nat, level: nat, reduce: string -> string)
  {
    && fanin >= 2 && AtLevel(partials, minis, trees, fanin, level, reduce)
    && rest == Later(faults, spent) && spent + |minis| <= |partials|
    && Fate(faults, spent, Leaves(partials), trees)
  }

  lemma ReducingStarts(faults: seq<Outcome>, partials: seq<string>, fanin: nat, reduce: string -> string)
    requires fanin >= 2 && partials != [] && forall s :: s in partials ==> s != ""
    ensures Reducing(faults, faults, 0, partials, partials, Leaves(partials), fanin, 0, reduce)
  {
    LevelStarts(partials, Leaves(partials), fanin, reduce);
  }

  lemma ReducingStep(faults: seq<Outcome>, rest: seq<Outcome>, spent: nat, partials: seq<string>, minis: seq<string>, trees: seq<Merge>,
                     fanin: nat, level: nat, reduce: string -> string,
                     later: seq<Outcome>, calls: nat, next: seq<string>, nextTrees: seq<Merge>)
    requires Reducing(faults, rest, spent, partials, minis, trees, fanin, level, reduce) && |minis| > 1
    requires IsLevel(rest, later, calls, minis, trees, next, nextTrees, fanin, level, reduce)
    ensures Reducing(faults, later, spent + calls, partials, next, nextTrees, fanin, level + 1, reduce)
    ensures |next| < |minis|
  {
    BatchesCeil(|minis|, fanin);
    LevelStep(partials, minis, trees, next, nextTrees, fanin, level, reduce);
    FateTrans(faults, spent, calls, Leaves(partials), trees, nextTrees);
    LaterPlus(faults, spent, calls);
  }

  lemma ReducingEnds(faults: seq<Outcome>, rest: seq<Outcome>, spent: nat, partials: seq<string>, minis: seq<string>, trees: seq<Merge>,
                     fanin: nat, level: nat, reduce: string -> string)
    requires Reducing(faults, rest, spent, partials, minis, trees, fanin, level, reduce) && |minis| == 1
    ensures |trees| == 1 && Reduction(partials, trees[0], level, fanin) && minis[0] == Render(trees[0], reduce)
    ensures AllJoined(trees[0]) ==> minis[0] == JoinAll(partials)
    ensures AllFail(faults, spent) ==> AllJoined(trees[0])
    ensures NoneFails(faults, spent) ==> AllMerged(trees[0])
  {
    LevelEnds(partials, minis, trees, fanin, level, reduce);
    assert trees[0] in trees;
    forall t | t in Leaves(partials) ensures t.Leaf? {}
  }

  method NextLevel(ports: Ports, minis: seq<string>, ghost trees: seq<Merge>, stage: Stage, budget: nat, fanin: nat, ghost level: nat,
                   ghost reduce: string -> string, ghost faults: seq<Outcome>, ghost spent: nat, ghost partials: seq<string>)
    returns (next: seq<string>, ghost nextTrees: seq<Merge>, ghost calls: nat)
    requires |minis| > 1 && Reducing(faults, ports.faults, spent, partials, minis, trees, fanin, level, reduce)
    requires forall s :: reduce(s) == ports.services.llm(Prompt(stage, s, budget))
    modifies ports`faults, ports`llmCalls
    ensures ports.llmCalls == old(ports.llmCalls) + calls && 1 <= |next| < |minis|
    ensures Reducing(faults, ports.faults, spent + calls, partials, next, nextTrees, fanin, level + 1, reduce)
    ensures NoFaults(old(ports.faults)) ==> NoFaults(ports.faults)
  {
    next, nextTrees := ReduceLevel(ports, minis, trees, stage, budget, fanin, level, reduce);
    calls := ports.llmCalls - old(ports.llmCalls);
    ReducingStep(faults, old(ports.faults), spent, partials, minis, trees, fanin, level, reduce, ports.faults, calls, next, nextTrees);
  }

  /** Level after level until one summary is left. */
  method ReduceLevels(ports: Ports, partials: seq<string>, stage: Stage, budget: nat, fanin: nat, ghost reduce: string -> string)
    returns (minis: seq<string>, ghost trees: seq<Merge>, ghost level: nat)
    requires fanin >= 2 && partials != [] && forall s :: s in partials ==> s != ""
    requires forall s :: reduce(s) == ports.services.llm(Prompt(stage, s, budget))
    modifies ports`faults, ports`llmCalls
    ensures |minis| == 1 && ports.llmCalls >= old(ports.llmCalls)
    ensures Reducing(old(ports.faults), ports.faults, ports.llmCalls - old(ports.llmCalls), partials, minis, trees, fanin, level, reduce)
    ensures NoFaults(old(ports.faults)) ==> NoFaults(ports.faults)
  {
    minis, trees, level := partials, Leaves(partials), 0;
    ghost var spent: nat := 0;
    ReducingStarts(ports.faults, partials, fanin, reduce);
    while |minis| > 1
      invariant Reducing(old(ports.faults), ports.faults, spent, partials, minis, trees, fanin, level, reduce)
      invariant ports.llmCalls == old(ports.llmCalls) + spent && |minis| >= 1
      invariant NoFaults(old(ports.faults)) ==> NoFaults(ports.faults)
      decreases |minis|
    {
      ghost var calls;
      minis, trees, calls := NextLevel(ports, minis, trees, stage, budget, fanin, level, reduce, old(ports.faults), spent, partials);
      level, spent := level + 1, spent + calls;
    }
  }

  method ReduceAll(ports: Ports, partials: seq<string>, stage: Stage, budget: nat, fanin: nat)
    returns (r: string, ghost tree: Merge, ghost levels: nat)
    requires fanin >= 2 && partials != [] && forall s :: s in partials ==> s != ""
    modifies ports`faults, ports`llmCalls
    ensures Reduction(partials, tree, levels, fanin)
    ensures r == Render(tree, Reducer(ports.services, stage, budget))
    ensures AllJoined(tree) ==> r == JoinAll(partials)
    ensures 0 <= ports.llmCalls - old(ports.llmCalls) <= |partials| - 1
    ensures AllFail(old(ports.faults), ports.llmCalls - old(ports.llmCalls)) ==> AllJoined(tree)
    ensures NoneFails(old(ports.faults), ports.llmCalls - old(ports.llmCalls)) ==> AllMerged(tree)
    ensures NoFaults(old(ports.faults)) ==> NoFaults(ports.faults)
  {
    ghost var reduce := Reducer(ports.services, stage, budget);
    var minis;
    ghost var trees;
    minis, trees, levels := ReduceLevels(ports, partials, stage, budget, fanin, reduce);
    ReducingEnds(old(ports.faults), ports.faults, ports.llmCalls - old(ports.llmCalls), partials, minis, trees, fanin, levels, reduce);
    r, tree := minis[0], trees[0];
  }

  /** The length asked of one partial summary. */
  function MapBudget(maxLength: nat, n: nat): nat
    requires n > 0
  {
    if n == 1 then maxLength else if maxLength / n < 500 then 500 else maxLength / n
  }

  /** The partial summaries together are asked to stay within the whole length, and use it up but for
      a rest below one character each, unless that would leave less than 500 for one of them. */
  lemma MapBudgetMeans(maxLength: nat, n: nat)
    requires n >= 2
    ensures MapBudget(maxLength, n) >= 500
    ensures MapBudget(maxLength, n) == 500 <==> maxLength < 501 * n
    ensures MapBudget(maxLength, n) > 500 ==> n * MapBudget(maxLength, n) <= maxLength < n * MapBudget(maxLength, n) + n
  {
    Shares(maxLength, n, maxLength / n);
  }

  lemma Shares(whole: nat, n: nat, share: nat)
    requires n > 0 && share == whole / n
    ensures n * share <= whole < n * share + n
    ensures share <= 500 <==> whole < 501 * n
  {
    var rest := whole % n;
    assert whole == n * share + rest && rest < n;
    if share <= 500 { Times(n, share, 500); } else { Times(n, 501, share); }
  }

  lemma Times(n: nat, a: nat, b: nat)
    requires a <= b
    ensures n * a <= n * b
  {}

  /** The partial summaries are the model's own answers to the chunks. */
  ghost predicate Answered(services: Services, chunks: seq<string>, stage: Stage, maxLength: nat, answers: seq<Option<string>>) {
    && |answers| == |chunks|
    && forall i :: 0 <= i < |answers| && answers[i].Some? ==>
         answers[i].value == services.llm(Prompt(stage, chunks[i], MapBudget(maxLength, |chunks|)))
  }

  /** The text a merge tree over the non-empty answers renders to. */
  ghost predicate Reduces(services: Services, stage: Stage, maxLength: nat, fanin: nat, answers: seq<Option<string>>, r: string) {
    if NonEmpty(answers) == [] then r == ""
    else if |answers| == 1 then Some(r) == answers[0]
    else exists tree, levels ::
      && Reduction(NonEmpty(answers), tree, levels, fanin)
      && r == Render(tree, Reducer(services, stage, maxLength))
      && (AllJoined(tree) ==> r == JoinAll(NonEmpty(answers)))
  }

  /** The text of a tree of model merges only. */
  ghost predicate IsMerged(services: Services, stage: Stage, maxLength: nat, partials: seq<string>, r: string) {
    exists tree :: AllMerged(tree) && Frontier(tree) == partials
                   && r == Render(tree, Reducer(services, stage, maxLength))
  }

  lemma OneIsMerged(services: Services, stage: Stage, maxLength: nat, only: string)
    ensures IsMerged(services, stage, maxLength, [only], only)
  {
    assert AllMerged(Leaf(only)) && Frontier(Leaf(only)) == [only];
  }

  /** What the whole of map and reduce may answer, whatever failed. */
  ghost predicate IsMapReduced(services: Services, chunks: seq<string>, mapStage: Stage, reduceStage: Stage,
                               maxLength: nat, fanin: nat, r: string)
  {
    exists answers :: Answered(services, chunks, mapStage, maxLength, answers) && Reduces(services, reduceStage, maxLength, fanin, answers, r)
  }

  /** The whole of map and reduce.  None stands for the ValueError of a fan-in below two. */
  method MapReduceSummarize(ports: Ports, chunks: seq<string>, mapStage: Stage, reduceStage: Stage,
                            maxLength: nat, fanin: nat)
    returns (r: Option<string>, ghost answers: seq<Option<string>>)
    modifies ports`faults, ports`llmCalls
    ensures r == None <==> chunks != [] && fanin < 2
    ensures r.Some? ==>
              && Answered(ports.services, chunks, mapStage, maxLength, answers)
              && Reduces(ports.services, reduceStage, maxLength, fanin, answers, r.value)
    // an answer is absent exactly where its call failed
    ensures r.Some? ==> forall i :: 0 <= i < |answers| ==> (answers[i].None? <==> FailsAt(old(ports.faults), i))
    // the calls after those merge: if all fail the text is the plain join, if none does there is no join in it
    ensures r.Some? && NonEmpty(answers) != [] ==>
              && 0 <= ports.llmCalls - old(ports.llmCalls) - |chunks| < |NonEmpty(answers)|
              && (AllFail(Later(old(ports.faults), |chunks|), ports.llmCalls - old(ports.llmCalls) - |chunks|) ==>
                    r.value == JoinAll(NonEmpty(answers)))
              && (NoneFails(Later(old(ports.faults), |chunks|), ports.llmCalls - old(ports.llmCalls) - |chunks|) ==>
                    IsMerged(ports.services, reduceStage, maxLength, NonEmpty(answers), r.value))
    ensures chunks != [] ==> ports.llmCalls - old(ports.llmCalls) <= 2 * |chunks| - 1
    ensures NoFaults(old(ports.faults)) ==> NoFaults(ports.faults)
  {
    answers := [];
    if chunks == [] { return Some(""), []; }
    if fanin < 2 { return None, []; }
    if |chunks| == 1 {
      var only := ports.Invoke(Prompt(mapStage, chunks[0], maxLength));
      NonEmptyAppend([], only);
      assert [] + [only] == [only];
      if only.Some? { OneIsMerged(ports.services, reduceStage, maxLength, only.value); }
      return Some(if only.Some? then only.value else ""), [only];
    }
    var minis;
    minis, answers := MapAll(ports, chunks, mapStage, MapBudget(maxLength, |chunks|));
    NonEmptyTexts(answers);
    if minis == [] { return Some(""), answers; }
    var merged;
    ghost var tree, levels;
    merged, tree, levels := ReduceAll(ports, minis, reduceStage, maxLength, fanin);
    r := Some(merged);
  }

  // ----- grouping the overview's sections

  function Size(sections: seq<string>): nat {
    if sections == [] then 0 else |sections[0]| + Size(sections[1..])
  }

  function Concat(groups: seq<seq<string>>): seq<string> {
    if groups == [] then [] else groups[0] + Concat(groups[1..])
  }

  lemma {:induction false} ConcatAppend(groups: seq<seq<string>>, last: seq<string>)
    ensures Concat(groups + [last]) == Concat(groups) + last
  {
    if groups == [] {
      assert [last][1..] == [];
      assert Concat([last]) == last + Concat([]);
    } else {
      assert (groups + [last])[1..] == groups[1..] + [last];
      ConcatAppend(groups[1..], last);
    }
  }

  lemma {:induction false} SizeAppend(sections: seq<string>, last: string)
    ensures Size(sections + [last]) == Size(sections) + |last|
  {
    if sections != [] {
      assert (sections + [last])[1..] == sections[1..] + [last];
      SizeAppend(sections[1..], last);
    }
  }

  /** A group within the limit, or a single section that alone is over it. */
  predicate GroupFits(group: seq<string>, limit: nat) {
    group != [] && (|group| == 1 || Size(group) <= limit)
  }

  /** A group is full when the next group's first section would not have fitted in it. */
  predicate Full(group: seq<string>, next: seq<string>, limit: nat) {
    next != [] && Size(group) + |next[0]| > limit
  }

  /** Every group is within the limit, and none could have taken the first section of the next. */
  ghost predicate Packed(groups: seq<seq<string>>, limit: nat) {
    && (forall g :: g in groups ==> GroupFits(g, limit))
    && (forall i, j :: 0 <= i < j < |groups| && j == i + 1 ==> Full(groups[i], groups[j], limit))
  }

  lemma PackedAppend(groups: seq<seq<string>>, last: seq<string>, limit: nat)
    requires Packed(groups, limit) && GroupFits(last, limit)
    requires groups != [] ==> Full(groups[|groups| - 1], last, limit)
    ensures Packed(groups + [last], limit)
  {}

  /** The sections read so far: closed groups, and one still open once there is any. */
  ghost predicate Grouping(sections: seq<string>, k: nat, groups: seq<seq<string>>, current: seq<string>, limit: nat) {
    && k <= |sections| && Concat(groups) + current == sections[..k]
    && (if k == 0 then current == [] && groups == [] else GroupFits(current, limit))
    && Packed(groups, limit) && (groups != [] ==> Full(groups[|groups| - 1], current, limit))
  }

  lemma StartsGroup(sections: seq<string>, k: nat, groups: seq<seq<string>>, current: seq<string>, limit: nat, next: nat)
    requires Grouping(sections, k, groups, current, limit) && k < |sections| && next == k + 1
    requires current != [] && Size(current) + |sections[k]| > limit
    ensures Grouping(sections, next, groups + [current], [sections[k]], limit)
    ensures Size([sections[k]]) == |sections[k]|
  {
    ConcatAppend(groups, current);
    PackedAppend(groups, current, limit);
    TakeStep(sections, k);
    assert [sections[k]][1..] == [];
  }

  lemma JoinsGroup(sections: seq<string>, k: nat, groups: seq<seq<string>>, current: seq<string>, limit: nat, next: nat)
    requires Grouping(sections, k, groups, current, limit) && k < |sections| && next == k + 1
    requires current == [] || Size(current) + |sections[k]| <= limit
    ensures Grouping(sections, next, groups, current + [sections[k]], limit)
    ensures Size(current + [sections[k]]) == Size(current) + |sections[k]|
  {
    SizeAppend(current, sections[k]);
    TakeStep(sections, k);
    assert Concat(groups) + (current + [sections[k]]) == Concat(groups) + current + [sections[k]];
  }

  /** Greedy grouping: the groups are the sections in order, each within the limit, and no
      group could have taken the first section of the next. */
  method GroupSections(sections: seq<string>, limit: nat) returns (groups: seq<seq<string>>)
    ensures Concat(groups) == sections && Packed(groups, limit)
  {
    groups := [];
    var current: seq<string> := [];
    var size := 0;
    for k := 0 to |sections|
      invariant Grouping(sections, k, groups, current, limit) && size == Size(current)
    {
      if current != [] && size + |sections[k]| > limit {
        StartsGroup(sections, k, groups, current, limit, k + 1);
        groups, current, size := groups + [current], [sections[k]], |sections[k]|;
      } else {
        JoinsGroup(sections, k, groups, current, limit, k + 1);
        current, size := current + [sections[k]], size + |sections[k]|;
      }
    }
    if current != [] {
      ConcatAppend(groups, current);
      PackedAppend(groups, current, limit);
      groups := groups + [current];
    }
    TakeAll(sections);
  }
}
