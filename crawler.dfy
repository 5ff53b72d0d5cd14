/**
 * The crawl coordinator of `crawlWebsite`: a FIFO frontier and a visited set over
 * the same-site link graph, bounded by a page budget.
 */
module Crawler {
  import opened Wrappers
  import opened Json
  import opened Url
  import opened PageExtractor

  /** What a crawl runs against: the browser step for each URL (None when navigation
      fails), the URL parser, `JSON.parse` (None when it throws), and the page step
      `_scrapePageData` they determine (see `WellFormed`). */
  datatype Env = Env(fetch: string -> Option<Rendered>, resolve: Resolver, parseJson: string -> Option<Json>, scrape: string -> Scrape)

  /** `scrape` is `_scrapePageData` for `fetch`, `resolve` and `parseJson`. */
  ghost predicate WellFormed(env: Env) {
    forall u {:trigger ScrapePageData(u, env.fetch(u), env.resolve, env.parseJson)} ::
      env.scrape(u) == ScrapePageData(u, env.fetch(u), env.resolve, env.parseJson)
  }

  function MakeEnv(fetch: string -> Option<Rendered>, resolve: Resolver, parseJson: string -> Option<Json>): (env: Env)
    ensures WellFormed(env)
    ensures env.fetch == fetch && env.resolve == resolve && env.parseJson == parseJson
  {
    Env(fetch, resolve, parseJson, u => ScrapePageData(u, fetch(u), resolve, parseJson))
  }

  /** `_scrapePageData(page, url)` in the environment `env`. */
  function ScrapeOf(env: Env, url: string): Scrape {
    env.scrape(url)
  }

  /** `await this._scrapePageData(page, currentUrl)` (line 206). */
  method ScrapeStep(env: Env, url: string) returns (out: Scrape)
    requires WellFormed(env)
    ensures out == ScrapeOf(env, url)
  {
    out := ScrapePage(url, env.fetch(url), env.resolve, env.parseJson);
  }

  /** What the crawl loop relies on about one page step: a failed page yields no
      links, a successful one a record for the URL it was given. */
  lemma ScrapeFacts(env: Env, url: string)
    requires WellFormed(env)
    ensures ScrapeOf(env, url).data.None? ==> ScrapeOf(env, url).rawLinks == []
    ensures ScrapeOf(env, url).data.Some? ==> ScrapeOf(env, url).data.value.url == url
  {
    ScrapeOutcome(url, env.fetch(url), env.resolve, env.parseJson);
  }

  ghost predicate NoDup<T>(s: seq<T>) {
    forall i, j :: 0 <= i < j < |s| ==> s[i] != s[j]
  }

  function Urls(pages: seq<PageData>): (r: seq<string>)
    ensures |r| == |pages| && forall i :: 0 <= i < |r| ==> r[i] == pages[i].url
  {
    if pages == [] then [] else Urls(pages[..|pages| - 1]) + [pages[|pages| - 1].url]
  }

  /** The records of the pages of `order` whose scrape succeeded, in that order. */
  function Fetched(env: Env, order: seq<string>): seq<PageData> {
    if order == [] then []
    else
      var last := order[|order| - 1];
      Fetched(env, order[..|order| - 1]) + (match ScrapeOf(env, last).data case Some(d) => [d] case None => [])
  }

  /** There are no more results than visited pages, each result is the scrape of one
      visited URL, and distinct visits give results with distinct URLs. */
  lemma {:induction false} FetchedFacts(env: Env, order: seq<string>)
    requires WellFormed(env)
    ensures |Fetched(env, order)| <= |order|
    ensures forall p :: p in Fetched(env, order) ==> p.url in order && ScrapeOf(env, p.url).data == Some(p)
    ensures NoDup(order) ==> NoDup(Urls(Fetched(env, order)))
  {
    if order != [] {
      var init := order[..|order| - 1];
      var last := order[|order| - 1];
      FetchedFacts(env, init);
      ScrapeFacts(env, last);
      var prev := Fetched(env, init);
      var all := Fetched(env, order);
      forall p | p in all ensures p.url in order && ScrapeOf(env, p.url).data == Some(p) {
        if p in prev {
          assert p.url in init;
        }
      }
      if NoDup(order) {
        var us := Urls(all);
        forall i, j | 0 <= i < j < |us| ensures us[i] != us[j] {
          if j == |prev| {
            assert all[i] in prev;
            assert us[i] in init;
            assert us[j] == last;
          } else {
            assert Urls(prev)[i] == us[i] && Urls(prev)[j] == us[j];
          }
        }
      }
    }
  }

  /** The start URL: its normalised form if normalisation succeeds, else `baseUrl` as given. */
  function StartUrl(baseUrl: string, rootHostname: string, resolve: Resolver): (r: string)
    ensures GetNormalizedUrl(baseUrl, baseUrl, rootHostname, resolve).Some? ==>
      r == GetNormalizedUrl(baseUrl, baseUrl, rootHostname, resolve).value && IsSameSiteHref(r, rootHostname)
    ensures GetNormalizedUrl(baseUrl, baseUrl, rootHostname, resolve).None? ==> r == baseUrl
  {
    var normalized := GetNormalizedUrl(baseUrl, baseUrl, rootHostname, resolve);
    if normalized.Some? then NormalizedIsSameSite(baseUrl, baseUrl, rootHostname, resolve); normalized.value
    else baseUrl
  }

  /** `crawlWebsite(baseUrl, maxPages = 50)`: the budget when the caller gives none. */
  function Budget(maxPages: Option<int>): int {
    maxPages.GetOr(50)
  }

  /** The queue after the `for (const link of rawLinks)` loop: each link that
      normalises against the page's URL, is not visited and is not queued yet is appended. */
  function Discover(queue: seq<string>, visited: set<string>, links: seq<string>, pageUrl: string, rootHostname: string, resolve: Resolver): seq<string>
    decreases |links|
  {
    if links == [] then queue
    else
      var normalized := GetNormalizedUrl(links[0], pageUrl, rootHostname, resolve);
      var next := if normalized.Some? && normalized.value !in visited && normalized.value !in queue
                  then queue + [normalized.value] else queue;
      Discover(next, visited, links[1..], pageUrl, rootHostname, resolve)
  }

  /** Discovering links only appends; it keeps the queue free of duplicates and of
      visited URLs; every appended URL is a same-site href normalised from one of the
      page's links against the page's own URL; and every link that normalises ends
      up visited or queued. */
  lemma {:induction false} DiscoverFacts(queue: seq<string>, visited: set<string>, links: seq<string>, pageUrl: string, rootHostname: string, resolve: Resolver)
    requires NoDup(queue) && forall q :: q in queue ==> q !in visited
    ensures var r := Discover(queue, visited, links, pageUrl, rootHostname, resolve);
      && queue <= r
      && NoDup(r)
      && (forall q :: q in r ==> q !in visited)
      && (forall k :: |queue| <= k < |r| ==>
            IsSameSiteHref(r[k], rootHostname) &&
            exists l :: l in links && GetNormalizedUrl(l, pageUrl, rootHostname, resolve) == Some(r[k]))
      && (forall l :: l in links && GetNormalizedUrl(l, pageUrl, rootHostname, resolve).Some? ==>
            GetNormalizedUrl(l, pageUrl, rootHostname, resolve).value in r ||
            GetNormalizedUrl(l, pageUrl, rootHostname, resolve).value in visited)
    decreases |links|
  {
    if links != [] {
      var normalized := GetNormalizedUrl(links[0], pageUrl, rootHostname, resolve);
      var pushed := normalized.Some? && normalized.value !in visited && normalized.value !in queue;
      var next := if pushed then queue + [normalized.value] else queue;
      if pushed {
        NormalizedIsSameSite(links[0], pageUrl, rootHostname, resolve);
      }
      DiscoverFacts(next, visited, links[1..], pageUrl, rootHostname, resolve);
      var r := Discover(queue, visited, links, pageUrl, rootHostname, resolve);
      assert r == Discover(next, visited, links[1..], pageUrl, rootHostname, resolve);
      forall k | |queue| <= k < |r|
        ensures IsSameSiteHref(r[k], rootHostname)
        ensures exists l :: l in links && GetNormalizedUrl(l, pageUrl, rootHostname, resolve) == Some(r[k])
      {
        if k < |next| {
          assert pushed && r[k] == next[k] == normalized.value;
          assert links[0] in links;
        } else {
          var l :| l in links[1..] && GetNormalizedUrl(l, pageUrl, rootHostname, resolve) == Some(r[k]);
          assert l in links;
        }
      }
      forall l | l in links && GetNormalizedUrl(l, pageUrl, rootHostname, resolve).Some?
        ensures GetNormalizedUrl(l, pageUrl, rootHostname, resolve).value in r ||
                GetNormalizedUrl(l, pageUrl, rootHostname, resolve).value in visited
      {
        if l == links[0] {
          var u := normalized.value;
          if u !in visited {
            assert u in next;
            assert u in r;
          }
        } else {
          assert l in links[1..];
        }
      }
    }
  }

  /** Where a queued URL was found: a raw link on a visited page. */
  datatype Discovery = Discovery(page: string, link: string)

  /** The crawl's variables, with the visiting order and the discovery map as ghost
      bookkeeping: `visitOrder` is `visited` in insertion order, `foundOn` says for every
      URL pushed after the start URL which page and raw link it came from. */
  datatype CrawlState = CrawlState(
    queue: seq<string>,
    visited: set<string>,
    visitOrder: seq<string>,
    results: seq<PageData>,
    foundOn: map<string, Discovery>)

  /** `d.link` is a raw link of page `d.page` and normalises, against that page's URL, to `u`. */
  ghost predicate IsFoundOn(env: Env, rootHostname: string, u: string, d: Discovery) {
    d.link in ScrapeOf(env, d.page).rawLinks && GetNormalizedUrl(d.link, d.page, rootHostname, env.resolve) == Some(u)
  }

  /** The queue holds no duplicates and nothing visited. */
  ghost predicate QueueOk(s: CrawlState) {
    NoDup(s.queue) && forall u :: u in s.queue ==> u !in s.visited
  }

  /** `visitOrder` lists `visited` once each. */
  ghost predicate OrderOk(s: CrawlState) {
    && NoDup(s.visitOrder)
    && (forall u :: u in s.visited <==> u in s.visitOrder)
    && |s.visited| == |s.visitOrder|
  }

  /** The start URL is queued first and visited first; if its scrape failed the crawl has nothing left. */
  ghost predicate StartOk(env: Env, start: string, s: CrawlState) {
    && (s.visitOrder == [] ==> s.queue == [start])
    && (s.visitOrder != [] ==> s.visitOrder[0] == start)
    && (start in s.visited && ScrapeOf(env, start).data.None? ==> s.queue == [] && s.visitOrder == [start])
  }

  /** Every URL other than the start URL was found on a visited page, and a visited
      URL on a page visited before it. */
  ghost predicate FoundOk(env: Env, rootHostname: string, start: string, s: CrawlState) {
    && (forall u :: u in s.foundOn ==> s.foundOn[u].page in s.visited && IsFoundOn(env, rootHostname, u, s.foundOn[u]))
    && (forall u :: (u in s.queue || u in s.visited) && u != start ==> u in s.foundOn)
    && (forall i :: 0 < i < |s.visitOrder| && s.visitOrder[i] in s.foundOn ==>
          s.foundOn[s.visitOrder[i]].page in s.visitOrder[..i])
  }

  ghost predicate Inv(env: Env, rootHostname: string, start: string, s: CrawlState) {
    && QueueOk(s)
    && OrderOk(s)
    && s.results == Fetched(env, s.visitOrder)
    && StartOk(env, start, s)
    && FoundOk(env, rootHostname, start, s)
  }

  /** Link `l` of page `p`, if it normalises, leads to a visited or queued URL. */
  ghost predicate LinkCovered(env: Env, rootHostname: string, s: CrawlState, p: string, l: string) {
    var n := GetNormalizedUrl(l, p, rootHostname, env.resolve);
    n.Some? ==> n.value in s.visited || n.value in s.queue
  }

  ghost predicate Covered(env: Env, rootHostname: string, s: CrawlState, p: string) {
    forall l :: l in ScrapeOf(env, p).rawLinks ==> LinkCovered(env, rootHostname, s, p, l)
  }

  /** Every visited page other than `current` has all its links visited or queued. */
  ghost predicate ClosedExcept(env: Env, rootHostname: string, s: CrawlState, current: string) {
    forall p :: p in s.visited && p != current ==> Covered(env, rootHostname, s, p)
  }

  /** Every visited page has all its links visited or queued. */
  ghost predicate Closed(env: Env, rootHostname: string, s: CrawlState) {
    forall p :: p in s.visited ==> Covered(env, rootHostname, s, p)
  }

  /** A URL once visited or queued stays visited or queued, so coverage is never lost. */
  lemma CoverMonotone(env: Env, rootHostname: string, s: CrawlState, t: CrawlState)
    requires forall u :: u in s.visited || u in s.queue ==> u in t.visited || u in t.queue
    ensures forall p :: Covered(env, rootHostname, s, p) ==> Covered(env, rootHostname, t, p)
  {
    forall p | Covered(env, rootHostname, s, p) ensures Covered(env, rootHostname, t, p) {
      forall l | l in ScrapeOf(env, p).rawLinks ensures LinkCovered(env, rootHostname, t, p, l) {
        assert LinkCovered(env, rootHostname, s, p, l);
      }
    }
  }

  /** Lines 200-210: take the head of the queue, mark it visited and scrape it,
      keeping the record when the scrape succeeds. */
  function VisitHead(env: Env, s: CrawlState): CrawlState
    requires s.queue != []
  {
    var current := s.queue[0];
    var data := ScrapeOf(env, current).data;
    CrawlState(s.queue[1..], s.visited + {current}, s.visitOrder + [current],
               s.results + (if data.Some? then [data.value] else []), s.foundOn)
  }

  /** Lines 213-221, one link: push the normalised link when it is new. */
  function PushLink(env: Env, rootHostname: string, s: CrawlState, current: string, link: string): CrawlState {
    var normalized := GetNormalizedUrl(link, current, rootHostname, env.resolve);
    if normalized.Some? && normalized.value !in s.visited && normalized.value !in s.queue
    then s.(queue := s.queue + [normalized.value], foundOn := s.foundOn[normalized.value := Discovery(current, link)])
    else s
  }

  /** Lines 213-221: push each link of `links` in turn. On the crawl's variables this
      is `Discover`; it also records where each pushed URL was found. */
  function PushAll(env: Env, rootHostname: string, s: CrawlState, current: string, links: seq<string>): (r: CrawlState)
    ensures r.queue == Discover(s.queue, s.visited, links, current, rootHostname, env.resolve)
    ensures r.visited == s.visited && r.visitOrder == s.visitOrder && r.results == s.results
    decreases |links|
  {
    if links == [] then s
    else PushAll(env, rootHostname, PushLink(env, rootHostname, s, current, links[0]), current, links[1..])
  }

  /** One pass of the `while` body (lines 200-222): a visited head is dropped
      (line 202); otherwise it is visited and, when its scrape succeeds, the raw links
      of the page are pushed. */
  function Step(env: Env, rootHostname: string, s: CrawlState): (r: CrawlState)
    requires s.queue != []
    ensures s.queue[0] in s.visited ==> r == s.(queue := s.queue[1..])
    ensures s.queue[0] !in s.visited ==>
      && r.visited == s.visited + {s.queue[0]} && |r.visited| == |s.visited| + 1
      && r.visitOrder == s.visitOrder + [s.queue[0]]
      && r.results == s.results + (if ScrapeOf(env, s.queue[0]).data.Some? then [ScrapeOf(env, s.queue[0]).data.value] else [])
  {
    var current := s.queue[0];
    if current in s.visited then s.(queue := s.queue[1..])
    else
      var t := VisitHead(env, s);
      var scraped := ScrapeOf(env, current);
      if scraped.data.Some? then PushAll(env, rootHostname, t, current, scraped.rawLinks) else t
  }

  /** The `while` loop of lines 199-224 from state `s`: step until the queue is empty
      or `budget` pages are visited. */
  function Crawled(env: Env, rootHostname: string, s: CrawlState, budget: int): CrawlState
    decreases budget - |s.visited|, |s.queue|
  {
    if s.queue == [] || |s.visited| >= budget then s
    else Crawled(env, rootHostname, Step(env, rootHostname, s), budget)
  }

  /** Lines 194-196: the start URL queued, nothing visited, no results. */
  function Initial(start: string): CrawlState {
    CrawlState([start], {}, [], [], map[])
  }

  /** The crawl only ever appends to the visiting order. */
  lemma {:induction false} CrawledExtends(env: Env, rootHostname: string, s: CrawlState, budget: int)
    ensures s.visitOrder <= Crawled(env, rootHostname, s, budget).visitOrder
    decreases budget - |s.visited|, |s.queue|
  {
    if s.queue != [] && |s.visited| < budget {
      CrawledExtends(env, rootHostname, Step(env, rootHostname, s), budget);
    }
  }

  /** A start page without links ends the crawl after one visit. */
  lemma CrawledLinkless(env: Env, rootHostname: string, start: string, budget: int)
    requires ScrapeOf(env, start).rawLinks == [] && budget >= 1
    ensures Crawled(env, rootHostname, Initial(start), budget).visitOrder == [start]
  {
    var t := Step(env, rootHostname, Initial(start));
    assert t.queue == [];
    assert t.visitOrder == [start];
  }

  /** Visiting a start page whose two links normalise to two new URLs queues both, in link order. */
  lemma FirstVisit(env: Env, rootHostname: string, start: string, la: string, lb: string, a: string, b: string)
    requires ScrapeOf(env, start).data.Some? && ScrapeOf(env, start).rawLinks == [la, lb]
    requires GetNormalizedUrl(la, start, rootHostname, env.resolve) == Some(a)
    requires GetNormalizedUrl(lb, start, rootHostname, env.resolve) == Some(b)
    requires start != a && start != b && a != b
    ensures var s1 := Step(env, rootHostname, Initial(start));
      s1.queue == [a, b] && s1.visited == {start} && s1.visitOrder == [start]
  {
    var links := [la, lb];
    assert links[1..] == [lb] && [lb][1..] == [];
    assert Discover([], {start}, links, start, rootHostname, env.resolve)
        == Discover([] + [a], {start}, [lb], start, rootHostname, env.resolve);
    assert [] + [a] == [a];
    assert Discover([a], {start}, [lb], start, rootHostname, env.resolve)
        == Discover([a] + [b], {start}, [], start, rootHostname, env.resolve);
  }

  /** Visiting the next URL keeps the URL queued behind it at the head: links found
      now are appended after it. */
  lemma NextVisit(env: Env, rootHostname: string, s: CrawlState, a: string, b: string)
    requires s.queue == [a, b] && a !in s.visited
    ensures var t := Step(env, rootHostname, s);
      t.queue != [] && t.queue[0] == b && t.visited == s.visited + {a} && t.visitOrder == s.visitOrder + [a]
  {
    var t := VisitHead(env, s);
    assert t.queue == [b];
    if ScrapeOf(env, a).data.Some? {
      var r := Discover([b], t.visited, ScrapeOf(env, a).rawLinks, a, rootHostname, env.resolve);
      if b !in t.visited {
        DiscoverFacts([b], t.visited, ScrapeOf(env, a).rawLinks, a, rootHostname, env.resolve);
        assert [b] <= r;
      } else {
        DiscoverPrefix([b], t.visited, ScrapeOf(env, a).rawLinks, a, rootHostname, env.resolve);
      }
    }
  }

  /** Discovering links only appends to the queue. */
  lemma {:induction false} DiscoverPrefix(queue: seq<string>, visited: set<string>, links: seq<string>, pageUrl: string, rootHostname: string, resolve: Resolver)
    ensures queue <= Discover(queue, visited, links, pageUrl, rootHostname, resolve)
    decreases |links|
  {
    if links != [] {
      var normalized := GetNormalizedUrl(links[0], pageUrl, rootHostname, resolve);
      var next := if normalized.Some? && normalized.value !in visited && normalized.value !in queue
                  then queue + [normalized.value] else queue;
      DiscoverPrefix(next, visited, links[1..], pageUrl, rootHostname, resolve);
    }
  }

  /** Pages are visited breadth first: the two links of the start page are both
      visited before any link found on the first of them. */
  lemma BreadthFirst(env: Env, rootHostname: string, start: string, la: string, lb: string, a: string, b: string, budget: int)
    requires ScrapeOf(env, start).data.Some? && ScrapeOf(env, start).rawLinks == [la, lb]
    requires GetNormalizedUrl(la, start, rootHostname, env.resolve) == Some(a)
    requires GetNormalizedUrl(lb, start, rootHostname, env.resolve) == Some(b)
    requires start != a && start != b && a != b && budget >= 3
    ensures |Crawled(env, rootHostname, Initial(start), budget).visitOrder| >= 3
    ensures Crawled(env, rootHostname, Initial(start), budget).visitOrder[..3] == [start, a, b]
  {
    var s0 := Initial(start);
    var s1 := Step(env, rootHostname, s0);
    FirstVisit(env, rootHostname, start, la, lb, a, b);
    var s2 := Step(env, rootHostname, s1);
    NextVisit(env, rootHostname, s1, a, b);
    assert |s2.visited| == 2 by {
      assert s2.visited == {start} + {a};
    }
    var s3 := Step(env, rootHostname, s2);
    assert s3.visitOrder == [start, a, b];
    assert Crawled(env, rootHostname, s0, budget) == Crawled(env, rootHostname, s1, budget);
    assert Crawled(env, rootHostname, s1, budget) == Crawled(env, rootHostname, s2, budget);
    assert Crawled(env, rootHostname, s2, budget) == Crawled(env, rootHostname, s3, budget);
    CrawledExtends(env, rootHostname, s3, budget);
  }

  /** Visiting the head keeps the invariant. */
  lemma VisitHeadInv(env: Env, rootHostname: string, start: string, s: CrawlState)
    requires WellFormed(env)
    requires Inv(env, rootHostname, start, s) && s.queue != []
    ensures s.queue[0] !in s.visited
    ensures Inv(env, rootHostname, start, VisitHead(env, s))
  {
    var t := VisitHead(env, s);
    VisitHeadQueue(s, t);
    VisitHeadOrder(s, t);
    assert t.visitOrder[..|t.visitOrder| - 1] == s.visitOrder;
    assert StartOk(env, start, t);
    VisitHeadEarlier(env, rootHostname, start, s, t);
    assert FoundOk(env, rootHostname, start, t);
  }

  /** The page a newly visited URL was found on was visited before it. */
  lemma VisitHeadEarlier(env: Env, rootHostname: string, start: string, s: CrawlState, t: CrawlState)
    requires QueueOk(s) && OrderOk(s) && StartOk(env, start, s) && FoundOk(env, rootHostname, start, s) && s.queue != []
    requires t.visitOrder == s.visitOrder + [s.queue[0]] && t.foundOn == s.foundOn
    ensures forall i :: 0 < i < |t.visitOrder| && t.visitOrder[i] in t.foundOn ==>
          t.foundOn[t.visitOrder[i]].page in t.visitOrder[..i]
  {
    var n := |s.visitOrder|;
    forall i | 0 < i < |t.visitOrder| && t.visitOrder[i] in t.foundOn
      ensures t.foundOn[t.visitOrder[i]].page in t.visitOrder[..i]
    {
      if i < n {
        assert t.visitOrder[i] == s.visitOrder[i] && t.visitOrder[..i] == s.visitOrder[..i];
      } else {
        assert t.visitOrder[..i] == s.visitOrder;
        assert s.foundOn[s.queue[0]].page in s.visited;
      }
    }
  }

  lemma VisitHeadQueue(s: CrawlState, t: CrawlState)
    requires QueueOk(s) && s.queue != []
    requires t.queue == s.queue[1..] && t.visited == s.visited + {s.queue[0]}
    ensures QueueOk(t)
    ensures forall u :: u in t.queue ==> u in s.queue
  {
    forall i, j | 0 <= i < j < |t.queue| ensures t.queue[i] != t.queue[j] {
      assert t.queue[i] == s.queue[i + 1] && t.queue[j] == s.queue[j + 1];
    }
    forall u | u in t.queue ensures u !in t.visited && u in s.queue {
      var k :| 0 <= k < |t.queue| && t.queue[k] == u;
      assert s.queue[k + 1] == u;
    }
  }

  lemma VisitHeadOrder(s: CrawlState, t: CrawlState)
    requires OrderOk(s) && QueueOk(s) && s.queue != []
    requires t.visited == s.visited + {s.queue[0]} && t.visitOrder == s.visitOrder + [s.queue[0]]
    ensures s.queue[0] !in s.visited
    ensures OrderOk(t)
  {
    assert |t.visited| == |t.visitOrder|;
    forall i, j | 0 <= i < j < |t.visitOrder| ensures t.visitOrder[i] != t.visitOrder[j] {
      if j == |s.visitOrder| {
        assert s.visitOrder[i] in s.visited;
      }
    }
  }

  /** Visiting the head leaves uncovered at most the page just visited, and not even
      that one when its scrape failed. */
  lemma VisitHeadCover(env: Env, rootHostname: string, s: CrawlState)
    requires WellFormed(env)
    requires Closed(env, rootHostname, s) && s.queue != []
    ensures var t := VisitHead(env, s);
      && ClosedExcept(env, rootHostname, t, s.queue[0])
      && (ScrapeOf(env, s.queue[0]).data.None? ==> Closed(env, rootHostname, t))
  {
    var t := VisitHead(env, s);
    forall u | u in s.visited || u in s.queue ensures u in t.visited || u in t.queue {
      if u in s.queue && u != s.queue[0] {
        var k :| 0 <= k < |s.queue| && s.queue[k] == u;
        assert t.queue[k - 1] == u;
      }
    }
    CoverMonotone(env, rootHostname, s, t);
    ScrapeFacts(env, s.queue[0]);
  }

  /** Pushing one link of a visited page keeps the invariant and covers that link. */
  lemma PushLinkStep(env: Env, rootHostname: string, start: string, s: CrawlState, current: string, link: string)
    requires WellFormed(env)
    requires Inv(env, rootHostname, start, s)
    requires current in s.visited && link in ScrapeOf(env, current).rawLinks
    ensures var t := PushLink(env, rootHostname, s, current, link);
      && Inv(env, rootHostname, start, t)
      && t.visited == s.visited && t.visitOrder == s.visitOrder && t.results == s.results
      && s.queue <= t.queue
      && LinkCovered(env, rootHostname, t, current, link)
      && (forall p :: Covered(env, rootHostname, s, p) ==> Covered(env, rootHostname, t, p))
  {
    var t := PushLink(env, rootHostname, s, current, link);
    if t != s {
      var u := GetNormalizedUrl(link, current, rootHostname, env.resolve).value;
      PushQueue(s.queue, s.visited, u);
      PushStart(env, start, s, t, current);
      assert IsFoundOn(env, rootHostname, u, Discovery(current, link));
      PushEarlier(s, t, u, Discovery(current, link));
      assert FoundOk(env, rootHostname, start, t);
    }
    CoverMonotone(env, rootHostname, s, t);
  }

  /** Recording a URL not yet visited leaves the discovery of every visited URL as it was. */
  lemma PushEarlier(s: CrawlState, t: CrawlState, u: string, d: Discovery)
    requires OrderOk(s) && u !in s.visited
    requires forall i :: 0 < i < |s.visitOrder| && s.visitOrder[i] in s.foundOn ==>
      s.foundOn[s.visitOrder[i]].page in s.visitOrder[..i]
    requires t.visitOrder == s.visitOrder && t.foundOn == s.foundOn[u := d]
    ensures forall i :: 0 < i < |t.visitOrder| && t.visitOrder[i] in t.foundOn ==>
      t.foundOn[t.visitOrder[i]].page in t.visitOrder[..i]
  {
    forall i | 0 < i < |t.visitOrder| && t.visitOrder[i] in t.foundOn
      ensures t.foundOn[t.visitOrder[i]].page in t.visitOrder[..i]
    {
      assert s.visitOrder[i] in s.visited;
    }
  }

  lemma PushQueue(queue: seq<string>, visited: set<string>, u: string)
    requires NoDup(queue) && forall q :: q in queue ==> q !in visited
    requires u !in visited && u !in queue
    ensures NoDup(queue + [u]) && forall q :: q in queue + [u] ==> q !in visited
  {
    var q := queue + [u];
    forall i, j | 0 <= i < j < |q| ensures q[i] != q[j] {
      if j == |queue| {
        assert q[i] in queue;
      }
    }
  }

  /** A page with links was scraped successfully, so a push never follows a failed start page. */
  lemma PushStart(env: Env, start: string, s: CrawlState, t: CrawlState, current: string)
    requires WellFormed(env)
    requires StartOk(env, start, s) && OrderOk(s)
    requires current in s.visited && ScrapeOf(env, current).rawLinks != []
    requires t.visited == s.visited && t.visitOrder == s.visitOrder && s.queue <= t.queue
    ensures StartOk(env, start, t)
  {
    ScrapeFacts(env, current);
    ScrapeFacts(env, start);
  }

  /** The state of one `crawlWebsite` call. */
  class Crawl {
    const env: Env
    const rootHostname: string
    const start: string
    var queue: seq<string>
    var visited: set<string>
    var results: seq<PageData>
    ghost var visitOrder: seq<string>
    ghost var foundOn: map<string, Discovery>

    ghost function State(): CrawlState
      reads this
    {
      CrawlState(queue, visited, visitOrder, results, foundOn)
    }

    ghost predicate Valid()
      reads this
    {
      WellFormed(env) && Inv(env, rootHostname, start, State())
    }

    /** Lines 188-196: the start URL, a queue holding just it, nothing visited, no results. */
    constructor (env: Env, baseUrl: string, rootHostname: string)
      requires WellFormed(env)
      ensures this.env == env && this.rootHostname == rootHostname
      ensures start == StartUrl(baseUrl, rootHostname, env.resolve)
      ensures queue == [start] && visited == {} && results == [] && visitOrder == [] && foundOn == map[]
      ensures Valid() && Closed(env, rootHostname, State())
    {
      this.env := env;
      this.rootHostname := rootHostname;
      var startUrl := StartUrl(baseUrl, rootHostname, env.resolve);
      this.start := startUrl;
      queue := [startUrl];
      visited := {};
      results := [];
      visitOrder := [];
      foundOn := map[];
    }

    /** The `for (const link of rawLinks)` loop for the page just scraped. */
    method EnqueueLinks(currentUrl: string, rawLinks: seq<string>)
      requires Valid()
      requires currentUrl in visited && rawLinks == ScrapeOf(env, currentUrl).rawLinks
      requires ClosedExcept(env, rootHostname, State(), currentUrl)
      modifies this
      ensures Valid() && Closed(env, rootHostname, State())
      ensures State() == PushAll(env, rootHostname, old(State()), currentUrl, rawLinks)
      ensures queue == Discover(old(queue), visited, rawLinks, currentUrl, rootHostname, env.resolve)
      ensures visited == old(visited) && visitOrder == old(visitOrder) && results == old(results)
    {
      ghost var s0 := State();
      for i := 0 to |rawLinks|
        invariant Valid()
        invariant visited == old(visited) && visitOrder == old(visitOrder) && results == old(results)
        invariant PushAll(env, rootHostname, State(), currentUrl, rawLinks[i..])
               == PushAll(env, rootHostname, s0, currentUrl, rawLinks)
        invariant forall p :: p in visited && p != currentUrl ==> Covered(env, rootHostname, State(), p)
        invariant forall j :: 0 <= j < i ==> LinkCovered(env, rootHostname, State(), currentUrl, rawLinks[j])
      {
        var link := rawLinks[i];
        assert rawLinks[i..][0] == link && rawLinks[i..][1..] == rawLinks[i + 1..];
        ghost var s := State();
        PushLinkStep(env, rootHostname, start, s, currentUrl, link);
        forall j | 0 <= j < i ensures LinkCovered(env, rootHostname, PushLink(env, rootHostname, s, currentUrl, link), currentUrl, rawLinks[j]) {
          assert LinkCovered(env, rootHostname, s, currentUrl, rawLinks[j]);
        }
        PushLinkOf(currentUrl, link);
      }
      assert rawLinks[|rawLinks|..] == [];
      forall l | l in rawLinks ensures LinkCovered(env, rootHostname, State(), currentUrl, l) {
        var j :| 0 <= j < |rawLinks| && rawLinks[j] == l;
      }
    }

    /** Lines 214-220, one link: push its normalisation when that is new. */
    method PushLinkOf(currentUrl: string, link: string)
      modifies this
      ensures State() == PushLink(env, rootHostname, old(State()), currentUrl, link)
    {
      var normalized := GetNormalizedUrl(link, currentUrl, rootHostname, env.resolve);
      if normalized.Some? && normalized.value !in visited && normalized.value !in queue {
        queue := queue + [normalized.value];
        foundOn := foundOn[normalized.value := Discovery(currentUrl, link)];
      }
    }

    /** Lines 200-210: dequeue the head, mark it visited, scrape it and keep its
        record when the scrape succeeds. */
    method Advance() returns (currentUrl: string, scraped: Scrape)
      requires WellFormed(env) && queue != [] && queue[0] !in visited
      modifies this
      ensures currentUrl == old(queue[0]) && scraped == ScrapeOf(env, currentUrl)
      ensures State() == VisitHead(env, old(State()))
    {
      currentUrl := queue[0];
      queue := queue[1..];
      // The source skips a dequeued URL that is already visited (line 202); the
      // queue never holds a visited URL (QueueOk), so that skip never fires.
      assert currentUrl !in visited;
      visited := visited + {currentUrl};
      visitOrder := visitOrder + [currentUrl];
      scraped := ScrapeStep(env, currentUrl);
      if scraped.data.Some? {
        results := results + [scraped.data.value];
      }
    }

    /** One pass of the `while` loop (lines 200-222): visit the head, then on
        success enqueue the page's links. */
    method Visit()
      requires Valid() && Closed(env, rootHostname, State()) && queue != []
      modifies this
      ensures Valid() && Closed(env, rootHostname, State())
      ensures State() == Step(env, rootHostname, old(State()))
      ensures visitOrder == old(visitOrder) + [old(queue[0])]
      ensures visited == old(visited) + {old(queue[0])} && |visited| == |old(visited)| + 1
    {
      ghost var s := State();
      VisitHeadInv(env, rootHostname, start, s);
      VisitHeadCover(env, rootHostname, s);
      var currentUrl, scraped := Advance();
      if scraped.data.Some? {
        EnqueueLinks(currentUrl, scraped.rawLinks);
      }
    }

    /** The `while` loop of lines 199-224: visit until the queue is empty or the
        budget of visited pages is reached. */
    method Run(maxPages: int)
      requires Valid() && Closed(env, rootHostname, State())
      modifies this
      ensures Valid() && Closed(env, rootHostname, State())
      ensures State() == Crawled(env, rootHostname, old(State()), maxPages)
      ensures old(visitOrder) <= visitOrder
      ensures queue == [] || |visited| >= maxPages
      ensures |visited| <= maxPages || visitOrder == old(visitOrder)
    {
      while queue != [] && |visited| < maxPages
        invariant Valid() && Closed(env, rootHostname, State())
        invariant Crawled(env, rootHostname, State(), maxPages) == Crawled(env, rootHostname, old(State()), maxPages)
        invariant old(visitOrder) <= visitOrder
        invariant |visited| <= maxPages || visitOrder == old(visitOrder)
        decreases maxPages - |visited|
      {
        Visit();
      }
    }
  }

  /** What `crawlWebsite` promises about the pages it visited, in visiting order. */
  ghost predicate CrawlOutcome(env: Env, baseUrl: string, budget: int, rootHostname: string, results: seq<PageData>, order: seq<string>) {
    var start := StartUrl(baseUrl, rootHostname, env.resolve);
    // the results are the successful scrapes, in the order the pages were fetched
    && results == Fetched(env, order)
    && NoDup(order)
    // the page budget
    && (|order| <= budget || order == [])
    // the start URL comes first
    && (budget >= 1 ==> order != [] && order[0] == start)
    // every other visited URL is a same-site href without fragment
    && (forall i :: 0 < i < |order| ==> IsSameSiteHref(order[i], rootHostname))
    // ... normalised from a raw link of a page visited before it
    && (forall i :: 0 < i < |order| ==> FoundBefore(env, rootHostname, order, i))
    // under budget, the crawl has visited every same-site link of every page it fetched
    && (|order| < budget ==>
          forall p, l :: p in order && l in ScrapeOf(env, p).rawLinks && GetNormalizedUrl(l, p, rootHostname, env.resolve).Some? ==>
            GetNormalizedUrl(l, p, rootHostname, env.resolve).value in order)
    // a failed start page ends the crawl with nothing
    && (ScrapeOf(env, start).data.None? ==> results == [])
  }

  /** `order[i]` is the normalisation of a raw link of a page visited before it. */
  ghost predicate FoundBefore(env: Env, rootHostname: string, order: seq<string>, i: int)
    requires 0 <= i < |order|
  {
    exists j, l :: 0 <= j < i && l in ScrapeOf(env, order[j]).rawLinks && GetNormalizedUrl(l, order[j], rootHostname, env.resolve) == Some(order[i])
  }

  /** Every visited URL but the first is a same-site URL found on a page visited before it. */
  lemma FoundEarlier(env: Env, rootHostname: string, start: string, s: CrawlState)
    requires OrderOk(s) && StartOk(env, start, s) && FoundOk(env, rootHostname, start, s)
    ensures forall i :: 0 < i < |s.visitOrder| ==> IsSameSiteHref(s.visitOrder[i], rootHostname)
    ensures forall i :: 0 < i < |s.visitOrder| ==> FoundBefore(env, rootHostname, s.visitOrder, i)
  {
    var order := s.visitOrder;
    forall i | 0 < i < |s.visitOrder|
      ensures IsSameSiteHref(s.visitOrder[i], rootHostname)
      ensures FoundBefore(env, rootHostname, s.visitOrder, i)
    {
      var u := order[i];
      assert u in s.visited;
      assert u != start by {
        assert order[0] == start && order[0] != order[i];
      }
      var d := s.foundOn[u];
      assert IsFoundOn(env, rootHostname, u, d);
      NormalizedIsSameSite(d.link, d.page, rootHostname, env.resolve);
      assert d.page in order[..i];
      var j :| 0 <= j < i && order[j] == d.page;
      assert d.link in ScrapeOf(env, order[j]).rawLinks && GetNormalizedUrl(d.link, order[j], rootHostname, env.resolve) == Some(u);
    }
  }

  /** With an empty queue, every normalisable link of a visited page leads to a visited page. */
  lemma ClosedWhenDrained(env: Env, rootHostname: string, s: CrawlState)
    requires OrderOk(s) && Closed(env, rootHostname, s) && s.queue == []
    ensures forall p, l :: p in s.visitOrder && l in ScrapeOf(env, p).rawLinks && GetNormalizedUrl(l, p, rootHostname, env.resolve).Some? ==>
      GetNormalizedUrl(l, p, rootHostname, env.resolve).value in s.visitOrder
  {
    forall p, l | p in s.visitOrder && l in ScrapeOf(env, p).rawLinks && GetNormalizedUrl(l, p, rootHostname, env.resolve).Some?
      ensures GetNormalizedUrl(l, p, rootHostname, env.resolve).value in s.visitOrder
    {
      assert p in s.visited && Covered(env, rootHostname, s, p);
      assert LinkCovered(env, rootHostname, s, p, l);
    }
  }

  /** Once the loop has stopped, the invariant gives what `crawlWebsite` promises. */
  lemma FinalOutcome(env: Env, baseUrl: string, budget: int, rootHostname: string, s: CrawlState)
    requires WellFormed(env)
    requires Inv(env, rootHostname, StartUrl(baseUrl, rootHostname, env.resolve), s) && Closed(env, rootHostname, s)
    requires s.queue == [] || |s.visited| >= budget
    requires |s.visited| <= budget || s.visitOrder == []
    ensures CrawlOutcome(env, baseUrl, budget, rootHostname, s.results, s.visitOrder)
  {
    var start := StartUrl(baseUrl, rootHostname, env.resolve);
    FoundEarlier(env, rootHostname, start, s);
    if |s.visitOrder| < budget {
      ClosedWhenDrained(env, rootHostname, s);
    }
    if ScrapeOf(env, start).data.None? && s.visitOrder != [] {
      assert s.visitOrder == [start];
      assert Fetched(env, s.visitOrder) == Fetched(env, []) + [];
    }
  }

  /** `crawlWebsite(baseUrl, maxPages)`: None when `new URL(baseUrl)` throws, before
      the crawl's try block; otherwise the results, with the visiting order as a witness. */
  method CrawlWebsite(fetch: string -> Option<Rendered>, resolve: Resolver, parseJson: string -> Option<Json>, baseUrl: string, maxPages: Option<int>)
    returns (results: Option<seq<PageData>>, ghost order: seq<string>)
    ensures results.None? <==> resolve(baseUrl, None).None?
    ensures results.Some? ==>
      var env := MakeEnv(fetch, resolve, parseJson);
      var rootHostname := resolve(baseUrl, None).value.host;
      var final := Crawled(env, rootHostname, Initial(StartUrl(baseUrl, rootHostname, resolve)), Budget(maxPages));
      && results.value == final.results && order == final.visitOrder
      && CrawlOutcome(env, baseUrl, Budget(maxPages), rootHostname, results.value, order)
  {
    var env := MakeEnv(fetch, resolve, parseJson);
    match resolve(baseUrl, None) {
      case None =>
        results := None;
        order := [];
      case Some(root) =>
        var crawl := new Crawl(env, baseUrl, root.host);
        assert crawl.State() == Initial(crawl.start);
        crawl.Run(Budget(maxPages));
        results := Some(crawl.results);
        order := crawl.visitOrder;
        FinalOutcome(env, baseUrl, Budget(maxPages), root.host, crawl.State());
    }
  }
}
