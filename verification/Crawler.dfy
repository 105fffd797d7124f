/** A website crawl within one domain: a worklist of URLs, normalised when they are queued and
    once more when they are requested, each requested at most once.

    `fetch` answers each URL, `links` reads the targets off a page (resolved against the URL that
    served it), and `isFile` recognises the paths to skip. */
module Crawler {
  import opened Wrappers
  import opened CrawlUrl

  datatype Fetched = Page(url: Url, html: string) | Unreachable | Refused

  datatype Site = Site(fetch: Url -> Fetched, links: (Url, string) -> seq<Url>, isFile: string -> bool)

  datatype Result = Result(url: Url, html: string)

  predicate Eligible(site: Site, base: Url, url: Url) {
    !site.isFile(SplitParams(url.scheme, url.path).0) && url.netloc == base.netloc
  }

  /** The redirect policy: a page that a fetch within the domain ends on is within the domain. */
  ghost predicate StaysOnDomain(site: Site, base: Url) {
    forall url: Url :: url.netloc == base.netloc && site.fetch(url).Page? ==> site.fetch(url).url.netloc == base.netloc
  }

  function Targets(site: Site, page: Fetched): (r: seq<Url>)
    requires page.Page?
    ensures |r| == |site.links(page.url, page.html)|
  {
    var links := site.links(page.url, page.html);
    seq(|links|, k requires 0 <= k < |links| => Normalize(links[k]))
  }

  function NewTargets(site: Site, base: Url, visited: set<Url>, targets: seq<Url>): seq<Url> {
    if targets == [] then []
    else
      var n := |targets| - 1;
      NewTargets(site, base, visited, targets[..n])
      + if targets[n] !in visited && Eligible(site, base, targets[n]) then [targets[n]] else []
  }

  lemma {:induction false} NewTargetsAre(site: Site, base: Url, visited: set<Url>, targets: seq<Url>)
    ensures forall t :: t in NewTargets(site, base, visited, targets) <==> t in targets && t !in visited && Eligible(site, base, t)
  {
    if targets != [] {
      var n := |targets| - 1;
      NewTargetsAre(site, base, visited, targets[..n]);
      assert targets == targets[..n] + [targets[n]];
    }
  }

  lemma NextTarget(site: Site, base: Url, visited: set<Url>, targets: seq<Url>, k: nat, queue: seq<Url>)
    requires k < |targets|
    ensures var target, queued := targets[k], queue + NewTargets(site, base, visited, targets[..k]);
      queue + NewTargets(site, base, visited, targets[..k + 1])
      == if target !in visited && Eligible(site, base, target) then queued + [target] else queued
  {
    assert targets[..k + 1][..k] == targets[..k];
  }

  method EnqueueLinks(site: Site, base: Url, visited: set<Url>, page: Fetched, queue: seq<Url>) returns (r: seq<Url>)
    requires page.Page?
    ensures r == queue + NewTargets(site, base, visited, Targets(site, page))
  {
    r := queue;
    var links := site.links(page.url, page.html);
    ghost var targets := Targets(site, page);
    for k := 0 to |links|
      invariant r == queue + NewTargets(site, base, visited, targets[..k])
    {
      var target := Normalize(links[k]);
      NextTarget(site, base, visited, targets, k, queue);
      if target !in visited && Eligible(site, base, target) { r := r + [target]; }
    }
    TakeAll(targets);
  }

  // ----- what every step keeps

  /** The crawl so far: pages in the order returned, and the requests that led to them. */
  datatype Crawl = Crawl(visited: set<Url>, pages: seq<Fetched>, requests: seq<Url>, queue: seq<Url>)

  /** The base, or a link target on one of the first `n` pages. */
  ghost predicate FoundBy(site: Site, base: Url, pages: seq<Fetched>, n: nat, target: Url)
    requires n <= |pages|
  {
    target == Normalize(base) || exists j :: 0 <= j < n && pages[j].Page? && target in Targets(site, pages[j])
  }

  /** A request for a target the crawl had found. */
  ghost predicate RequestedBy(site: Site, base: Url, pages: seq<Fetched>, n: nat, request: Url)
    requires n <= |pages|
  {
    exists target :: FoundBy(site, base, pages, n, target) && request == Normalize(target)
  }

  /** The target was visited, or what is requested for it was, or that is not to be requested. */
  ghost predicate Settled(site: Site, base: Url, visited: set<Url>, target: Url) {
    target in visited || Normalize(target) in visited || !Eligible(site, base, Normalize(target))
  }

  ghost predicate Known(site: Site, base: Url, c: Crawl, target: Url) {
    target in c.queue || Settled(site, base, c.visited, target)
  }

  /** Every eligible target of the page has been or will be settled. */
  ghost predicate Covered(site: Site, base: Url, c: Crawl, page: Fetched)
    requires page.Page?
  {
    forall t :: t in Targets(site, page) && Eligible(site, base, t) ==> Known(site, base, c, t)
  }

  /** A returned page was served for a URL the crawl had found, within the domain. */
  ghost predicate Sound(site: Site, base: Url, c: Crawl, i: nat)
    requires i < |c.pages| && |c.requests| == |c.pages|
  {
    && c.pages[i].Page? && c.pages[i] == site.fetch(c.requests[i]) && c.pages[i].url.netloc == base.netloc
    && RequestedBy(site, base, c.pages, i, c.requests[i]) && Eligible(site, base, c.requests[i])
    && Normalize(c.pages[i].url) in c.visited && c.requests[i] in c.visited
  }

  ghost predicate Distinct(c: Crawl) {
    forall i, j :: 0 <= i < j < |c.pages| && c.pages[i].Page? && c.pages[j].Page? ==> Normalize(c.pages[i].url) != Normalize(c.pages[j].url)
  }

  ghost predicate Waiting(site: Site, base: Url, c: Crawl) {
    forall q :: q in c.queue ==> FoundBy(site, base, c.pages, |c.pages|, q)
  }

  ghost predicate PagesHold(site: Site, base: Url, c: Crawl)
    requires |c.requests| == |c.pages|
  {
    forall i :: 0 <= i < |c.pages| ==> Sound(site, base, c, i) && Covered(site, base, c, c.pages[i])
  }

  ghost predicate Invariant(site: Site, base: Url, c: Crawl) {
    && |c.requests| == |c.pages|
    && PagesHold(site, base, c) && Distinct(c) && Waiting(site, base, c)
    && Known(site, base, c, Normalize(base))
  }

  /** What is requested for the head of the queue. */
  function Head(c: Crawl): Url
    requires c.queue != []
  {
    Normalize(c.queue[0])
  }

  function Start(base: Url): Crawl { Crawl({}, [], [], [Normalize(base)]) }

  /** The head of the queue is settled: visited now, or nothing to visit. */
  function Popped(c: Crawl, visit: bool): Crawl
    requires c.queue != []
  {
    c.(queue := c.queue[1..], visited := c.visited + if visit then {Head(c)} else {})
  }

  function WithPage(site: Site, base: Url, c: Crawl, request: Url, page: Fetched): Crawl
    requires page.Page?
  {
    var visited := c.visited + {Normalize(page.url)};
    Crawl(visited, c.pages + [page], c.requests + [request], c.queue + NewTargets(site, base, visited, Targets(site, page)))
  }

  lemma StartHolds(site: Site, base: Url)
    ensures Invariant(site, base, Start(base))
  {}

  lemma StillKnown(site: Site, base: Url, c: Crawl, visit: bool)
    requires c.queue != [] && (!visit ==> Head(c) in c.visited || !Eligible(site, base, Head(c)))
    ensures forall t :: Known(site, base, c, t) ==> Known(site, base, Popped(c, visit), t)
    ensures forall q :: q in Popped(c, visit).queue ==> q in c.queue
  {
    assert c.queue == [c.queue[0]] + c.queue[1..];
  }

  lemma PoppedHolds(site: Site, base: Url, c: Crawl, visit: bool)
    requires Invariant(site, base, c) && c.queue != []
    requires !visit ==> Head(c) in c.visited || !Eligible(site, base, Head(c))
    ensures Invariant(site, base, Popped(c, visit))
  {
    var d := Popped(c, visit);
    StillKnown(site, base, c, visit);
    forall i | 0 <= i < |d.pages| ensures Sound(site, base, d, i) && Covered(site, base, d, d.pages[i]) {
      assert Sound(site, base, c, i) && Covered(site, base, c, c.pages[i]);
    }
  }

  /** A page served for a found request, and not returned before. */
  ghost predicate Fresh(site: Site, base: Url, c: Crawl, request: Url) {
    && |c.requests| == |c.pages| && site.fetch(request).Page? && site.fetch(request).url.netloc == base.netloc
    && request in c.visited && Eligible(site, base, request) && RequestedBy(site, base, c.pages, |c.pages|, request)
    && forall i :: 0 <= i < |c.pages| ==> c.pages[i].Page? && Normalize(c.pages[i].url) != Normalize(site.fetch(request).url)
  }

  lemma OldPageHolds(site: Site, base: Url, c: Crawl, request: Url, i: nat)
    requires Fresh(site, base, c, request) && i < |c.pages|
    requires Sound(site, base, c, i) && Covered(site, base, c, c.pages[i])
    ensures var d := WithPage(site, base, c, request, site.fetch(request));
            Sound(site, base, d, i) && Covered(site, base, d, d.pages[i])
  {
    var d := WithPage(site, base, c, request, site.fetch(request));
    assert d.pages[i] == c.pages[i] && d.requests[i] == c.requests[i];
    RequestedByMore(site, base, c.pages, d.pages, i, c.requests[i]);
    assert forall t | Known(site, base, c, t) :: Known(site, base, d, t);
  }

  lemma NewPageHolds(site: Site, base: Url, c: Crawl, request: Url)
    requires Fresh(site, base, c, request)
    ensures var d := WithPage(site, base, c, request, site.fetch(request));
            Sound(site, base, d, |c.pages|) && Covered(site, base, d, d.pages[|c.pages|])
  {
    var d := WithPage(site, base, c, request, site.fetch(request));
    RequestedByMore(site, base, c.pages, d.pages, |c.pages|, request);
    NewTargetsAre(site, base, d.visited, Targets(site, site.fetch(request)));
  }

  lemma NewWaiting(site: Site, base: Url, c: Crawl, request: Url)
    requires Fresh(site, base, c, request) && Waiting(site, base, c)
    ensures Waiting(site, base, WithPage(site, base, c, request, site.fetch(request)))
  {
    var page, n := site.fetch(request), |c.pages|;
    var d := WithPage(site, base, c, request, page);
    NewTargetsAre(site, base, d.visited, Targets(site, page));
    forall q | q in d.queue ensures FoundBy(site, base, d.pages, n + 1, q) {
      if q in c.queue {
        FoundByMore(site, base, c.pages, d.pages, n, n + 1, q);
      } else {
        assert d.pages[n] == page && q in Targets(site, d.pages[n]);
      }
    }
  }

  lemma NewPagesHold(site: Site, base: Url, c: Crawl, request: Url)
    requires Fresh(site, base, c, request) && PagesHold(site, base, c)
    ensures PagesHold(site, base, WithPage(site, base, c, request, site.fetch(request)))
  {
    var d := WithPage(site, base, c, request, site.fetch(request));
    forall i | 0 <= i < |d.pages| ensures Sound(site, base, d, i) && Covered(site, base, d, d.pages[i]) {
      if i < |c.pages| { OldPageHolds(site, base, c, request, i); } else { NewPageHolds(site, base, c, request); }
    }
  }

  lemma NewDistinct(site: Site, base: Url, c: Crawl, request: Url)
    requires Fresh(site, base, c, request) && Distinct(c)
    ensures Distinct(WithPage(site, base, c, request, site.fetch(request)))
  {}

  lemma WithPageHolds(site: Site, base: Url, c: Crawl, request: Url)
    requires Invariant(site, base, c) && Fresh(site, base, c, request)
    ensures Invariant(site, base, WithPage(site, base, c, request, site.fetch(request)))
  {
    NewPagesHold(site, base, c, request);
    NewDistinct(site, base, c, request);
    NewWaiting(site, base, c, request);
  }

  lemma FoundByMore(site: Site, base: Url, pages: seq<Fetched>, more: seq<Fetched>, n: nat, m: nat, target: Url)
    requires n <= |pages| && pages <= more && n <= m <= |more| && FoundBy(site, base, pages, n, target)
    ensures FoundBy(site, base, more, m, target)
  {
    if target != Normalize(base) {
      var j :| 0 <= j < n && pages[j].Page? && target in Targets(site, pages[j]);
      assert more[j] == pages[j];
    }
  }

  lemma RequestedByMore(site: Site, base: Url, pages: seq<Fetched>, more: seq<Fetched>, n: nat, request: Url)
    requires n <= |pages| && pages <= more && RequestedBy(site, base, pages, n, request)
    ensures RequestedBy(site, base, more, n, request)
  {
    var target :| FoundBy(site, base, pages, n, target) && request == Normalize(target);
    FoundByMore(site, base, pages, more, n, n, target);
  }

  /** With nothing left in the queue, every eligible link on a returned page is settled: its target
      was visited, or what was requested for it was, or that is not to be requested.  The target
      itself was visited whenever the link settles at once. */
  lemma EmptyQueueCloses(site: Site, base: Url, c: Crawl, i: nat, k: nat)
    requires Invariant(site, base, c) && c.queue == [] && i < |c.pages| && c.pages[i].Page?
    requires k < |Targets(site, c.pages[i])| && Eligible(site, base, Targets(site, c.pages[i])[k])
    ensures Settled(site, base, c.visited, Targets(site, c.pages[i])[k])
    ensures SettlesAtOnce(site.links(c.pages[i].url, c.pages[i].html)[k]) ==> Targets(site, c.pages[i])[k] in c.visited
  {
    var target := Targets(site, c.pages[i])[k];
    NormalizeTwice(site.links(c.pages[i].url, c.pages[i].html)[k]);
    assert Covered(site, base, c, c.pages[i]);
    assert target in Targets(site, c.pages[i]) && Known(site, base, c, target);
  }

  function ResultOf(page: Fetched): Result
    requires page.Page?
  {
    Result(Normalize(page.url), page.html)
  }

  ghost predicate IsResults(results: seq<Result>, pages: seq<Fetched>) {
    && |results| == |pages|
    && forall i :: 0 <= i < |results| ==> pages[i].Page? && results[i] == ResultOf(pages[i])
  }

  /** What a crawl returns once the domain guard has let the base through. */
  ghost predicate Answers(site: Site, base: Url, limit: int, results: seq<Result>, c: Crawl) {
    && Invariant(site, base, c) && IsResults(results, c.pages)
    && (|results| <= limit || results == []) && (c.queue == [] || |results| >= limit)
  }

  function FirstRequest(base: Url): Url { Normalize(Normalize(base)) }

  /** The first request of a crawl fails exactly when the base itself cannot be reached. */
  ghost predicate FailsToStart(site: Site, base: Url, limit: int) {
    limit > 0 && Eligible(site, base, FirstRequest(base)) && site.fetch(FirstRequest(base)).Unreachable?
  }

  /** Before the first request nothing is visited and only the base waits. */
  ghost predicate Untouched(base: Url, c: Crawl, first: bool) {
    first ==> c.visited == {} && c.pages == [] && (c.queue == [] || c.queue == [Normalize(base)])
  }

  ghost predicate FirstFate(site: Site, base: Url, limit: int, c: Crawl, first: bool) {
    if first then c.queue == [] ==> !Eligible(site, base, FirstRequest(base)) else !FailsToStart(site, base, limit)
  }

  ghost predicate Loop(site: Site, base: Url, limit: int, returned: seq<Result>, first: bool, c: Crawl) {
    && Invariant(site, base, c) && IsResults(returned, c.pages)
    && Untouched(base, c, first) && FirstFate(site, base, limit, c, first)
    && (|returned| <= limit || returned == [])
  }

  /** There is a head of the queue to request. */
  ghost predicate Due(site: Site, base: Url, c: Crawl) {
    c.queue != [] && Head(c) !in c.visited && Eligible(site, base, Head(c))
  }

  lemma SkipHolds(site: Site, base: Url, limit: int, returned: seq<Result>, first: bool, c: Crawl)
    requires Loop(site, base, limit, returned, first, c) && c.queue != [] && !Due(site, base, c)
    ensures Loop(site, base, limit, returned, first, Popped(c, false))
  {
    PoppedHolds(site, base, c, false);
  }

  lemma RequestHolds(site: Site, base: Url, limit: int, returned: seq<Result>, first: bool, c: Crawl)
    requires Loop(site, base, limit, returned, first, c) && Due(site, base, c) && |returned| < limit
    ensures var page := site.fetch(Head(c));
            if first && page.Unreachable? then FailsToStart(site, base, limit)
            else Loop(site, base, limit, returned, false, Popped(c, true))
    ensures var page := site.fetch(Head(c));
            page.Page? && Normalize(page.url) != Head(c) && Normalize(page.url) in Popped(c, true).visited ==> !first
  {
    PoppedHolds(site, base, c, true);
  }

  lemma ReturnHolds(site: Site, base: Url, limit: int, returned: seq<Result>, c: Crawl, d: Crawl, page: Fetched)
    requires Loop(site, base, limit, returned, false, d) && Invariant(site, base, c) && StaysOnDomain(site, base)
    requires Due(site, base, c) && d == Popped(c, true) && |returned| < limit && page == site.fetch(Head(c)) && page.Page?
    requires Normalize(page.url) == Head(c) || Normalize(page.url) !in d.visited
    ensures Loop(site, base, limit, returned + [ResultOf(page)], false, WithPage(site, base, d, Head(c), page))
  {
    HeadPage(site, base, c, d);
    WithPageHolds(site, base, d, Head(c));
    ResultsMore(returned, d.pages, page);
  }

  lemma HeadPage(site: Site, base: Url, c: Crawl, d: Crawl)
    requires Invariant(site, base, c) && StaysOnDomain(site, base) && Due(site, base, c) && d == Popped(c, true)
    requires var page := site.fetch(Head(c)); page.Page? && (Normalize(page.url) == Head(c) || Normalize(page.url) !in d.visited)
    ensures Fresh(site, base, d, Head(c))
  {
    assert c.queue[0] in c.queue && FoundBy(site, base, d.pages, |d.pages|, c.queue[0]);
    forall i | 0 <= i < |d.pages| ensures d.pages[i].Page? && Normalize(d.pages[i].url) != Normalize(site.fetch(Head(c)).url) {
      assert Sound(site, base, c, i);
    }
  }

  lemma ResultsMore(results: seq<Result>, pages: seq<Fetched>, page: Fetched)
    requires IsResults(results, pages) && page.Page?
    ensures IsResults(results + [ResultOf(page)], pages + [page])
  {}

  lemma StartLoops(site: Site, base: Url, limit: int)
    ensures Loop(site, base, limit, [], true, Start(base))
  {
    StartHolds(site, base);
  }

  /** One turn of the worklist: drop the head, request it in vain, meet a page already returned,
      or return a page and queue its links. */
  ghost function Step(site: Site, base: Url, c: Crawl): Crawl {
    if c.queue == [] then c
    else if !Due(site, base, c) then Popped(c, false)
    else
      var page, popped := site.fetch(Head(c)), Popped(c, true);
      if !page.Page? || (Normalize(page.url) != Head(c) && Normalize(page.url) in popped.visited) then popped
      else WithPage(site, base, popped, Head(c), page)
  }

  ghost function After(site: Site, base: Url, turns: nat): Crawl
    decreases turns
  {
    if turns == 0 then Start(base) else Step(site, base, After(site, base, turns - 1))
  }

  /** Every turn keeps the invariant, so every state a crawl can reach satisfies it. */
  lemma {:induction false} EveryTurnKeeps(site: Site, base: Url, turns: nat)
    requires StaysOnDomain(site, base)
    ensures Invariant(site, base, After(site, base, turns))
    decreases turns
  {
    if turns == 0 {
      StartHolds(site, base);
    } else {
      EveryTurnKeeps(site, base, turns - 1);
      StepKeeps(site, base, After(site, base, turns - 1), After(site, base, turns));
    }
  }

  lemma StepKeeps(site: Site, base: Url, c: Crawl, d: Crawl)
    requires Invariant(site, base, c) && StaysOnDomain(site, base) && d == Step(site, base, c)
    ensures Invariant(site, base, d)
  {
    if c.queue != [] {
      PoppedHolds(site, base, c, Due(site, base, c));
      if d != Popped(c, Due(site, base, c)) {
        HeadPage(site, base, c, Popped(c, true));
        WithPageHolds(site, base, Popped(c, true), Head(c));
      }
    }
  }

  /** What the loop works on. */
  datatype Work = Work(visited: set<Url>, returned: seq<Result>, queue: seq<Url>, isFirst: bool)

  ghost predicate Holds(site: Site, base: Url, limit: int, w: Work, c: Crawl) {
    c.visited == w.visited && c.queue == w.queue && Loop(site, base, limit, w.returned, w.isFirst, c)
  }

  /** One pass through the loop's body; `failed` if it raises. */
  method TakeTurn(site: Site, base: Url, limit: int, w: Work, ghost c: Crawl) returns (failed: bool, r: Work)
    requires StaysOnDomain(site, base) && Holds(site, base, limit, w, c) && w.queue != [] && |w.returned| < limit
    ensures failed ==> FailsToStart(site, base, limit)
    ensures !failed ==> Holds(site, base, limit, r, Step(site, base, c))
    ensures !failed ==> |r.returned| > |w.returned| || (r.returned == w.returned && |r.queue| < |w.queue|)
  {
    var normalized := Normalize(w.queue[0]);
    var queue := w.queue[1..];
    if normalized in w.visited || !Eligible(site, base, normalized) {
      SkipHolds(site, base, limit, w.returned, w.isFirst, c);
      return false, w.(queue := queue);
    }
    var visited := w.visited + {normalized};
    RequestHolds(site, base, limit, w.returned, w.isFirst, c);
    var page := site.fetch(normalized);
    if !page.Page? {
      if w.isFirst && page.Unreachable? { return true, w; }
      return false, w.(visited := visited, queue := queue, isFirst := false);
    }
    var final := Normalize(page.url);
    if final != normalized {
      if final in visited { return false, w.(visited := visited, queue := queue); }
      visited := visited + {final};
    }
    ReturnHolds(site, base, limit, w.returned, c, Popped(c, true), page);
    queue := EnqueueLinks(site, base, visited, page, queue);
    r := Work(visited, w.returned + [Result(final, page.html)], queue, false);
    failed := false;
  }

  /** Turns until the queue is empty or enough pages are returned. */
  method WorkOff(site: Site, base: Url, limit: int) returns (failed: bool, w: Work, ghost c: Crawl, ghost turns: nat)
    requires StaysOnDomain(site, base)
    ensures failed ==> FailsToStart(site, base, limit)
    ensures !failed ==> Holds(site, base, limit, w, c) && c == After(site, base, turns) && (w.queue == [] || |w.returned| >= limit)
  {
    failed, w, c, turns := false, Work({}, [], [Normalize(base)], true), Start(base), 0;
    StartLoops(site, base, limit);
    while w.queue != [] && |w.returned| < limit
      invariant Holds(site, base, limit, w, c) && c == After(site, base, turns) && !failed
      decreases limit - |w.returned|, |w.queue|
    {
      failed, w := TakeTurn(site, base, limit, w, c);
      if failed { return; }
      c, turns := Step(site, base, c), turns + 1;
    }
  }

  lemma WorkedOff(site: Site, base: Url, limit: int, w: Work, c: Crawl)
    requires Holds(site, base, limit, w, c) && (w.queue == [] || |w.returned| >= limit)
    ensures Answers(site, base, limit, w.returned, c) && !FailsToStart(site, base, limit)
  {}

  /** Crawls from the base; None when the first request cannot reach it.  Returned pages are
      distinct, on the domain and at most `limit`, each found from the base through earlier pages;
      if the queue runs empty, everything eligible that they link to is settled. */
  method CrawlSite(site: Site, base: Url, allowed: bool, limit: int)
    returns (results: Option<seq<Result>>, ghost c: Crawl, ghost turns: nat)
    requires StaysOnDomain(site, base)
    ensures results.None? <==> allowed && FailsToStart(site, base, limit)
    ensures !allowed ==> results == Some([])
    ensures allowed && results.Some? ==> c == After(site, base, turns) && Answers(site, base, limit, results.value, c)
  {
    if !allowed { return Some([]), Start(base), 0; }
    var failed, w;
    failed, w, c, turns := WorkOff(site, base, limit);
    if failed { return None, c, turns; }
    WorkedOff(site, base, limit, w, c);
    results := Some(w.returned);
  }

  /** What a caller reads off an answer: distinct URLs of the domain, each that of its page as it is
      normalised, within the limit. */
  lemma AnswersAreDistinct(site: Site, base: Url, limit: int, results: seq<Result>, c: Crawl)
    requires Answers(site, base, limit, results, c)
    ensures forall i, j :: 0 <= i < j < |results| ==> results[i].url != results[j].url
    ensures |results| == |c.pages|
    ensures forall i :: 0 <= i < |results| ==> c.pages[i].Page? && results[i].url == Normalize(c.pages[i].url)
    ensures forall i :: 0 <= i < |results| ==> results[i].url.netloc == base.netloc
    ensures limit >= 0 ==> |results| <= limit
    // each answers a request within the domain, and not for a file
    ensures |c.requests| == |results| && forall i :: 0 <= i < |results| ==>
              && site.fetch(c.requests[i]) == c.pages[i] && results[i].html == c.pages[i].html
              && c.requests[i].netloc == base.netloc && !site.isFile(SplitParams(c.requests[i].scheme, c.requests[i].path).0)
  {
    forall i | 0 <= i < |results|
      ensures results[i].url.netloc == base.netloc && site.fetch(c.requests[i]) == c.pages[i] && Eligible(site, base, c.requests[i])
    {
      assert Sound(site, base, c, i) && results[i] == ResultOf(c.pages[i]);
    }
  }

  // ----- a link that does not settle at once

  /** The root of the link's domain. */
  function Root(link: Url): Url { Url(link.scheme, link.netloc, "/", "", "") }

  /** A site whose only page is its root, with the one link. */
  function OneLink(link: Url): Site {
    Site(url => if url == Root(link) then Page(url, "") else Refused, (url, html) => [link], path => false)
  }

  lemma RootStays(link: Url)
    ensures Normalize(Root(link)) == Root(link)
  {
    assert SegmentStart("/") == 1 && Segment("/") == "";
    TrimmedFixed("/");
  }

  /** The crawl of that site once its root is returned. */
  function RootReturned(link: Url): Crawl {
    Crawl({Root(link)}, [Page(Root(link), "")], [Root(link)], [Normalize(link)])
  }

  /** A turn that returns a page served for the request itself. */
  lemma StepReturns(site: Site, base: Url, c: Crawl, request: Url, page: Fetched)
    requires Due(site, base, c) && request == Head(c) && page == site.fetch(request)
    requires page.Page? && Normalize(page.url) == request
    ensures Step(site, base, c) == WithPage(site, base, Popped(c, true), request, page)
  {}

  /** A turn that requests nothing, or in vain. */
  lemma StepDrops(site: Site, base: Url, c: Crawl)
    requires c.queue != [] && !site.fetch(Head(c)).Page?
    ensures Step(site, base, c) == Popped(c, Due(site, base, c))
  {}

  lemma RootTurn(site: Site, base: Url, page: Fetched, target: Url)
    requires Normalize(base) == base && Eligible(site, base, base) && site.fetch(base) == page
    requires page.Page? && page.url == base && Targets(site, page) == [target]
    requires target != base && Eligible(site, base, target)
    ensures Step(site, base, Start(base)) == Crawl({base}, [page], [base], [target])
  {
    var popped := Crawl({base}, [], [], []);
    assert Start(base).queue == [base] && Popped(Start(base), true) == popped;
    StepReturns(site, base, Start(base), base, page);
    FirstPage(site, base, base, page, target);
  }

  lemma FirstPage(site: Site, base: Url, request: Url, page: Fetched, target: Url)
    requires page.Page? && Normalize(page.url) == request && Targets(site, page) == [target]
    requires target != request && Eligible(site, base, target)
    ensures WithPage(site, base, Crawl({request}, [], [], []), request, page) == Crawl({request}, [page], [request], [target])
  {
    NewTarget(site, base, {request}, target);
    var c := WithPage(site, base, Crawl({request}, [], [], []), request, page);
    assert c.visited == {request};
    assert c.pages == [page] && c.requests == [request];
    assert c.queue == [target];
  }

  lemma NewTarget(site: Site, base: Url, visited: set<Url>, target: Url)
    requires target !in visited && Eligible(site, base, target)
    ensures NewTargets(site, base, visited, [target]) == [target]
  {
    assert [target][..0] == [];
  }

  lemma MissedFirst(link: Url)
    requires !SettlesAtOnce(link)
    ensures Normalize(link) != Root(link) && Eligible(OneLink(link), Root(link), Normalize(link))
    ensures Step(OneLink(link), Root(link), Start(Root(link))) == RootReturned(link)
  {
    RootStays(link);
    NormalizeTwice(link);
    RootTurn(OneLink(link), Root(link), Page(Root(link), ""), Normalize(link));
  }

  /** The last target goes, and with it only what was requested for it is visited. */
  lemma LastTurn(site: Site, base: Url, c: Crawl, target: Url, request: Url)
    requires c.queue == [target] && request == Normalize(target) && request != target && target !in c.visited
    requires request in c.visited || !site.fetch(request).Page?
    ensures var d := Step(site, base, c); d.pages == c.pages && d.queue == [] && target !in d.visited
  {
    if request !in c.visited { StepDrops(site, base, c); }
    assert Step(site, base, c) == Popped(c, Due(site, base, c));
  }

  lemma MissedSecond(link: Url)
    requires !SettlesAtOnce(link)
    ensures var c := Step(OneLink(link), Root(link), RootReturned(link));
      c.pages == RootReturned(link).pages && c.queue == [] && Normalize(link) !in c.visited
  {
    MissedFirst(link);
    NormalizeTwice(link);
    LastTurn(OneLink(link), Root(link), RootReturned(link), Normalize(link), Normalize(Normalize(link)));
  }

  /** Without the condition of `EmptyQueueCloses` there is a site, for every such link, whose crawl
      works off its queue and never visits the link's target. */
  lemma UnsettledLinkIsMissed(link: Url)
    requires !SettlesAtOnce(link)
    ensures var site, base, c := OneLink(link), Root(link), After(OneLink(link), Root(link), 2);
      && StaysOnDomain(site, base) && c.pages == [Page(base, "")] && c.queue == []
      && Targets(site, c.pages[0]) == [Normalize(link)] && Eligible(site, base, Normalize(link))
      && Normalize(link) !in c.visited
  {
    MissedFirst(link);
    MissedSecond(link);
    assert After(OneLink(link), Root(link), 0) == Start(Root(link));
    assert After(OneLink(link), Root(link), 1) == Step(OneLink(link), Root(link), Start(Root(link)));
    assert Targets(OneLink(link), Page(Root(link), "")) == [Normalize(link)];
  }
}
