/**
 * `WebCrawler`: a breadth-first crawl from the base URL. The queue holds `(url, depth)` entries;
 * a worker takes one entry at a time, skips it when the URL was already visited or the page budget
 * is spent, and otherwise fetches the page and queues the unvisited links of a successful page
 * below the depth limit. The workers are modelled as one sequential worker; the browser is a
 * `World` of per-visit outcomes.
 */
module Crawler {
  import opened Common
  import opened Strings
  import opened Models
  import opened Urls
  import opened Fetch
  import opened CrawlerLinks

  /** The configuration values the crawler reads, with their defaults. */
  datatype Settings = Settings(
    maxDepth: int,
    maxPages: int,
    concurrentRequests: int,
    maxRetries: int,
    jsWaitTimeoutMs: int,
    waitForSelector: Option<string>)

  const DefaultSettings := Settings(3, 100, 3, 2, 3000, None)

  /** Everything outside the crawler that a fetch of `(url, depth)` depends on. */
  datatype World = World(
    visit: (string, int) -> Visit,
    resolve: (string, string) -> string,
    digest: string -> string,
    elapsedMs: (string, int) -> real,
    now: (string, int) -> Timestamp)

  type Entry = (string, int)

  /** The URLs of the pages crawled so far. */
  ghost function FetchedUrls(pages: seq<CrawledPage>): set<string> {
    set i | 0 <= i < |pages| :: UrlAt(pages, i)
  }

  /** The URLs crawled are the `url` fields of the pages. */
  lemma {:induction false} FetchedUrlsMeans(pages: seq<CrawledPage>)
    ensures FetchedUrls(pages) == set k | 0 <= k < |pages| :: pages[k].url
  {
    forall u ensures u in FetchedUrls(pages) <==> u in set k | 0 <= k < |pages| :: pages[k].url {
      if u in set k | 0 <= k < |pages| :: pages[k].url {
        var k :| 0 <= k < |pages| && pages[k].url == u;
        assert UrlAt(pages, k) == u;
      }
    }
  }

  /** A page whose links are followed: it loaded and lies above the depth limit. */
  predicate Spawns(page: CrawledPage, maxDepth: int) {
    page.status == Success && page.depth < maxDepth
  }

  /** The entries the link loop of one page queues: each link not yet visited, in order, at `depth`. */
  function NewEntries(links: seq<string>, visited: set<string>, depth: int): (r: seq<Entry>)
    ensures |r| <= |links|
  {
    if links == [] then []
    else
      var last := links[|links| - 1];
      NewEntries(links[..|links| - 1], visited, depth) + (if last in visited then [] else [(last, depth)])
  }

  /** The queued entries are exactly the unvisited links, at the given depth. */
  lemma {:induction false} NewEntriesMeans(links: seq<string>, visited: set<string>, depth: int)
    ensures forall e :: e in NewEntries(links, visited, depth) <==> e.0 in links && e.0 !in visited && e.1 == depth
  {
    if links != [] {
      var init := links[..|links| - 1];
      NewEntriesMeans(init, visited, depth);
      assert links == init + [links[|links| - 1]];
    }
  }

  /**
   * The state after the head entry of `queue` is crawled into a new last page: its URL is visited, and
   * when the page spawns, its links not yet visited are queued one level deeper.
   */
  ghost predicate CrawledHead(visited: set<string>, pages: seq<CrawledPage>, queue: seq<Entry>,
                              visited': set<string>, pages': seq<CrawledPage>, queue': seq<Entry>, maxDepth: int)
    requires queue != []
  {
    var n := |pages|;
    && |pages'| == n + 1 && pages'[..n] == pages
    && pages'[n].url == queue[0].0 && pages'[n].depth == queue[0].1
    && visited' == visited + {queue[0].0}
    && queue' == queue[1..] + (if Spawns(pages'[n], maxDepth) then NewEntries(pages'[n].links, visited', pages'[n].depth + 1) else [])
  }

  /** `count` copies of `parent`: the origins of the entries one page queues. */
  ghost function Fill(count: nat, parent: int): (r: seq<int>)
    ensures |r| == count && forall i | 0 <= i < count :: r[i] == parent
  {
    if count == 0 then [] else Fill(count - 1, parent) + [parent]
  }

  /**
   * Where a queue entry or a page came from: `parent == -1` for the base URL at depth 0, or the
   * index of an earlier page that spawns, whose links contain the URL one level deeper.
   */
  ghost predicate Origin(e: Entry, parent: int, pages: seq<CrawledPage>, baseUrl: string, maxDepth: int) {
    if parent < 0 then parent == -1 && e == (baseUrl, 0)
    else parent < |pages| && Spawns(pages[parent], maxDepth) && e.1 == pages[parent].depth + 1
         && e.0 in pages[parent].links
  }

  ghost predicate QueueOrigins(queue: seq<Entry>, origins: seq<int>, pages: seq<CrawledPage>, baseUrl: string, maxDepth: int) {
    |origins| == |queue| && forall i | 0 <= i < |queue| :: Origin(queue[i], origins[i], pages, baseUrl, maxDepth)
  }

  ghost predicate PageOrigins(pages: seq<CrawledPage>, origins: seq<int>, baseUrl: string, maxDepth: int) {
    |origins| == |pages|
    && forall k | 0 <= k < |pages| :: origins[k] < k && Origin((pages[k].url, pages[k].depth), origins[k], pages, baseUrl, maxDepth)
  }

  /** The URL of the `i`-th page; `DistinctUrls` is stated on it so that it is only unfolded where a proof names it. */
  ghost function UrlAt(pages: seq<CrawledPage>, i: int): string
    requires 0 <= i < |pages|
  {
    pages[i].url
  }

  ghost predicate DistinctUrls(pages: seq<CrawledPage>) {
    forall i, j | 0 <= i < j < |pages| :: UrlAt(pages, i) != UrlAt(pages, j)
  }

  /** No URL is crawled twice. */
  lemma {:induction false} DistinctUrlsMeans(pages: seq<CrawledPage>)
    requires DistinctUrls(pages)
    ensures forall i, j | 0 <= i < j < |pages| :: pages[i].url != pages[j].url
  {
    forall i, j | 0 <= i < j < |pages| ensures pages[i].url != pages[j].url {
      assert UrlAt(pages, i) != UrlAt(pages, j);
    }
  }

  /** While the budget lasts, every link of a spawning page is visited or waiting in the queue one level deeper. */
  ghost predicate Closed(pages: seq<CrawledPage>, visited: set<string>, queue: seq<Entry>, maxDepth: int, maxPages: int) {
    |pages| < maxPages ==>
      forall k, l | 0 <= k < |pages| && Spawns(pages[k], maxDepth) && l in pages[k].links ::
        l in visited || (l, pages[k].depth + 1) in queue
  }

  /** The crawler's state invariant, on values. */
  ghost predicate CrawlState(baseUrl: string, maxDepth: int, maxPages: int, visited: set<string>, pages: seq<CrawledPage>,
                             queue: seq<Entry>, queueOrigin: seq<int>, pageOrigin: seq<int>) {
    && visited == FetchedUrls(pages)
    && DistinctUrls(pages)
    && |pages| <= Max(maxPages, 0)
    && QueueOrigins(queue, queueOrigin, pages, baseUrl, maxDepth)
    && PageOrigins(pages, pageOrigin, baseUrl, maxDepth)
    && Closed(pages, visited, queue, maxDepth, maxPages)
  }

  /** Nothing crawled, visited or queued satisfies the invariant. */
  lemma {:induction false} InitialState(baseUrl: string, maxDepth: int, maxPages: int)
    ensures CrawlState(baseUrl, maxDepth, maxPages, {}, [], [], [], [])
  {
    assert FetchedUrls([]) == {};
  }

  /** Queueing the base URL keeps the invariant. */
  lemma {:induction false} SeedKeeps(baseUrl: string, maxDepth: int, maxPages: int, visited: set<string>, pages: seq<CrawledPage>,
                                     queue: seq<Entry>, queueOrigin: seq<int>, pageOrigin: seq<int>)
    requires CrawlState(baseUrl, maxDepth, maxPages, visited, pages, queue, queueOrigin, pageOrigin)
    ensures CrawlState(baseUrl, maxDepth, maxPages, visited, pages, queue + [(baseUrl, 0)], queueOrigin + [-1], pageOrigin)
  {
    var q', o' := queue + [(baseUrl, 0)], queueOrigin + [-1];
    forall i | 0 <= i < |q'| ensures Origin(q'[i], o'[i], pages, baseUrl, maxDepth) {
      if i < |queue| {
        assert q'[i] == queue[i] && o'[i] == queueOrigin[i];
      }
    }
    if |pages| < maxPages {
      forall k, l | 0 <= k < |pages| && Spawns(pages[k], maxDepth) && l in pages[k].links
        ensures l in visited || (l, pages[k].depth + 1) in q'
      {
        assert l in visited || (l, pages[k].depth + 1) in queue;
      }
    }
  }

  /** Discarding the head entry (URL already visited, or page budget spent) keeps the invariant. */
  lemma {:induction false} DiscardKeeps(baseUrl: string, maxDepth: int, maxPages: int, visited: set<string>, pages: seq<CrawledPage>,
                                        queue: seq<Entry>, queueOrigin: seq<int>, pageOrigin: seq<int>)
    requires CrawlState(baseUrl, maxDepth, maxPages, visited, pages, queue, queueOrigin, pageOrigin)
    requires queue != [] && (queue[0].0 in visited || |pages| >= maxPages)
    ensures CrawlState(baseUrl, maxDepth, maxPages, visited, pages, queue[1..], queueOrigin[1..], pageOrigin)
  {
    var q' := queue[1..];
    if |pages| < maxPages {
      forall k, l | 0 <= k < |pages| && Spawns(pages[k], maxDepth) && l in pages[k].links
        ensures l in visited || (l, pages[k].depth + 1) in q'
      {
        var e := (l, pages[k].depth + 1);
        assert l in visited || e in queue;
        if l !in visited {
          var i :| 0 <= i < |queue| && queue[i] == e;
          assert i != 0;
          assert q'[i - 1] == e;
        }
      }
    }
  }

  /** Recording a page for an unvisited URL keeps the visited set equal to the crawled URLs, all distinct. */
  lemma {:induction false} RecordKeepsUrls(visited: set<string>, pages: seq<CrawledPage>, page: CrawledPage)
    requires visited == FetchedUrls(pages) && DistinctUrls(pages) && page.url !in visited
    ensures visited + {page.url} == FetchedUrls(pages + [page]) && DistinctUrls(pages + [page])
  {
    var pages', n := pages + [page], |pages|;
    forall u ensures u in FetchedUrls(pages') <==> u in visited + {page.url} {
      if u in visited {
        var i :| 0 <= i < |pages| && UrlAt(pages, i) == u;
        assert UrlAt(pages', i) == u;
      }
      if u == page.url {
        assert UrlAt(pages', n) == u;
      }
      if u in FetchedUrls(pages') {
        var i :| 0 <= i < |pages'| && UrlAt(pages', i) == u;
        if i < n {
          assert UrlAt(pages, i) == u;
        }
      }
    }
    forall i, j | 0 <= i < j < |pages'| ensures UrlAt(pages', i) != UrlAt(pages', j) {
      if j == n {
        assert UrlAt(pages, i) in visited;
      } else {
        assert pages'[i] == pages[i] && pages'[j] == pages[j];
        assert UrlAt(pages, i) != UrlAt(pages, j);
      }
    }
  }

  /** An origin stays valid when pages are appended. */
  lemma {:induction false} OriginExtends(e: Entry, parent: int, pages: seq<CrawledPage>, more: seq<CrawledPage>, baseUrl: string, maxDepth: int)
    requires Origin(e, parent, pages, baseUrl, maxDepth)
    ensures Origin(e, parent, pages + more, baseUrl, maxDepth)
  {
    if parent >= 0 {
      assert (pages + more)[parent] == pages[parent];
    }
  }

  /** The new page inherits the origin of the entry it was fetched for. */
  lemma {:induction false} RecordKeepsPageOrigins(pages: seq<CrawledPage>, pageOrigin: seq<int>, page: CrawledPage, parent: int,
                                                  baseUrl: string, maxDepth: int)
    requires PageOrigins(pages, pageOrigin, baseUrl, maxDepth)
    requires Origin((page.url, page.depth), parent, pages, baseUrl, maxDepth)
    ensures PageOrigins(pages + [page], pageOrigin + [parent], baseUrl, maxDepth)
  {
    var pages', po' := pages + [page], pageOrigin + [parent];
    forall k | 0 <= k < |pages'|
      ensures po'[k] < k && Origin((pages'[k].url, pages'[k].depth), po'[k], pages', baseUrl, maxDepth)
    {
      if k < |pages| {
        assert pages'[k] == pages[k] && po'[k] == pageOrigin[k];
        OriginExtends((pages[k].url, pages[k].depth), pageOrigin[k], pages, [page], baseUrl, maxDepth);
      } else {
        assert pages'[k] == page && po'[k] == parent;
        OriginExtends((page.url, page.depth), parent, pages, [page], baseUrl, maxDepth);
      }
    }
  }

  /** The rest of the queue keeps its origins; the new entries come from the new page. */
  lemma {:induction false} RecordKeepsQueueOrigins(pages: seq<CrawledPage>, queue: seq<Entry>, queueOrigin: seq<int>, page: CrawledPage,
                                                   added: seq<Entry>, baseUrl: string, maxDepth: int)
    requires QueueOrigins(queue, queueOrigin, pages, baseUrl, maxDepth)
    requires added != [] ==> Spawns(page, maxDepth)
    requires forall e | e in added :: e.0 in page.links && e.1 == page.depth + 1
    ensures QueueOrigins(queue + added, queueOrigin + Fill(|added|, |pages|), pages + [page], baseUrl, maxDepth)
  {
    var pages', q', qo' := pages + [page], queue + added, queueOrigin + Fill(|added|, |pages|);
    forall i | 0 <= i < |q'| ensures Origin(q'[i], qo'[i], pages', baseUrl, maxDepth) {
      if i < |queue| {
        assert q'[i] == queue[i] && qo'[i] == queueOrigin[i];
        OriginExtends(queue[i], queueOrigin[i], pages, [page], baseUrl, maxDepth);
      } else {
        var j := i - |queue|;
        assert q'[i] == added[j] && qo'[i] == |pages|;
        assert added[j] in added;
        assert pages'[|pages|] == page;
      }
    }
  }

  /** Closure survives taking out the head entry, marking its URL visited and queueing the new page's unvisited links. */
  lemma {:induction false} RecordKeepsClosed(pages: seq<CrawledPage>, visited: set<string>, queue: seq<Entry>, page: CrawledPage,
                                             added: seq<Entry>, maxDepth: int, maxPages: int)
    requires Closed(pages, visited, queue, maxDepth, maxPages)
    requires queue != [] && page.url == queue[0].0
    requires Spawns(page, maxDepth) ==>
      forall l | l in page.links :: l in visited + {page.url} || (l, page.depth + 1) in added
    ensures Closed(pages + [page], visited + {page.url}, queue[1..] + added, maxDepth, maxPages)
  {
    var pages', visited', q' := pages + [page], visited + {page.url}, queue[1..] + added;
    if |pages'| < maxPages {
      forall k, l | 0 <= k < |pages'| && Spawns(pages'[k], maxDepth) && l in pages'[k].links
        ensures l in visited' || (l, pages'[k].depth + 1) in q'
      {
        var e := (l, pages'[k].depth + 1);
        if k < |pages| {
          assert pages'[k] == pages[k];
          if l !in visited && e != queue[0] {
            assert e in queue;
            var i :| 0 <= i < |queue| && queue[i] == e;
            assert q'[i - 1] == e;
          }
        } else if l !in visited' {
          assert pages'[k] == page;
          var j :| 0 <= j < |added| && added[j] == e;
          assert q'[|queue| - 1 + j] == e;
        }
      }
    }
  }

  /** Crawling the head entry into `page` and queueing its new links keeps the invariant. */
  lemma {:induction false} FetchKeeps(baseUrl: string, maxDepth: int, maxPages: int, visited: set<string>, pages: seq<CrawledPage>,
                                      queue: seq<Entry>, queueOrigin: seq<int>, pageOrigin: seq<int>, page: CrawledPage)
    requires CrawlState(baseUrl, maxDepth, maxPages, visited, pages, queue, queueOrigin, pageOrigin)
    requires queue != [] && queue[0].0 !in visited && |pages| < maxPages
    requires page.url == queue[0].0 && page.depth == queue[0].1
    ensures var visited' := visited + {page.url};
      var added := if Spawns(page, maxDepth) then NewEntries(page.links, visited', page.depth + 1) else [];
      CrawlState(baseUrl, maxDepth, maxPages, visited', pages + [page],
                 queue[1..] + added, queueOrigin[1..] + Fill(|added|, |pages|), pageOrigin + [queueOrigin[0]])
      && CrawledHead(visited, pages, queue, visited', pages + [page], queue[1..] + added, maxDepth)
  {
    var visited' := visited + {page.url};
    var added := if Spawns(page, maxDepth) then NewEntries(page.links, visited', page.depth + 1) else [];
    NewEntriesMeans(page.links, visited', page.depth + 1);
    RecordKeepsUrls(visited, pages, page);
    assert Origin(queue[0], queueOrigin[0], pages, baseUrl, maxDepth);
    RecordKeepsPageOrigins(pages, pageOrigin, page, queueOrigin[0], baseUrl, maxDepth);
    assert QueueOrigins(queue[1..], queueOrigin[1..], pages, baseUrl, maxDepth) by {
      forall i | 0 <= i < |queue| - 1 ensures Origin(queue[1..][i], queueOrigin[1..][i], pages, baseUrl, maxDepth) {
        assert queue[1..][i] == queue[i + 1] && queueOrigin[1..][i] == queueOrigin[i + 1];
      }
    }
    RecordKeepsQueueOrigins(pages, queue[1..], queueOrigin[1..], page, added, baseUrl, maxDepth);
    RecordKeepsClosed(pages, visited, queue, page, added, maxDepth, maxPages);
    HeadRecorded(visited, pages, queue, page, maxDepth);
  }

  /** Appending the page crawled from the head entry is one `CrawledHead` step. */
  lemma {:induction false} HeadRecorded(visited: set<string>, pages: seq<CrawledPage>, queue: seq<Entry>, page: CrawledPage, maxDepth: int)
    requires queue != [] && page.url == queue[0].0 && page.depth == queue[0].1
    ensures var visited' := visited + {page.url};
      var added := if Spawns(page, maxDepth) then NewEntries(page.links, visited', page.depth + 1) else [];
      CrawledHead(visited, pages, queue, visited', pages + [page], queue[1..] + added, maxDepth)
  {
    assert (pages + [page])[..|pages|] == pages && (pages + [page])[|pages|] == page;
  }

  /** A page's depth is at least 0 and at most the depth limit (or 0), by induction over its ancestry. */
  lemma {:induction false} DepthInRange(pages: seq<CrawledPage>, origins: seq<int>, baseUrl: string, maxDepth: int, k: int)
    requires PageOrigins(pages, origins, baseUrl, maxDepth) && 0 <= k < |pages|
    ensures 0 <= pages[k].depth <= Max(maxDepth, 0)
    decreases k
  {
    assert Origin((pages[k].url, pages[k].depth), origins[k], pages, baseUrl, maxDepth);
    if origins[k] >= 0 {
      DepthInRange(pages, origins, baseUrl, maxDepth, origins[k]);
    }
  }

  /** Every crawled page is the base URL at depth 0 or a link of an earlier spawning page, one level deeper; no page lies below the depth limit. */
  lemma {:induction false} PagesReachable(baseUrl: string, maxDepth: int, maxPages: int, visited: set<string>, pages: seq<CrawledPage>,
                       queue: seq<Entry>, queueOrigin: seq<int>, pageOrigin: seq<int>)
    requires CrawlState(baseUrl, maxDepth, maxPages, visited, pages, queue, queueOrigin, pageOrigin)
    ensures forall k | 0 <= k < |pages| ::
      (pages[k].url == baseUrl && pages[k].depth == 0)
      || (exists j | 0 <= j < k :: Spawns(pages[j], maxDepth) && pages[k].url in pages[j].links && pages[k].depth == pages[j].depth + 1)
    ensures forall k | 0 <= k < |pages| :: 0 <= pages[k].depth <= Max(maxDepth, 0)
    ensures pages != [] ==> pages[0].url == baseUrl && pages[0].depth == 0
  {
    forall k | 0 <= k < |pages|
      ensures (pages[k].url == baseUrl && pages[k].depth == 0)
        || (exists j | 0 <= j < k :: Spawns(pages[j], maxDepth) && pages[k].url in pages[j].links && pages[k].depth == pages[j].depth + 1)
      ensures 0 <= pages[k].depth <= Max(maxDepth, 0)
    {
      assert Origin((pages[k].url, pages[k].depth), pageOrigin[k], pages, baseUrl, maxDepth);
      DepthInRange(pages, pageOrigin, baseUrl, maxDepth, k);
    }
  }

  /** The fetch of entry `e` never returns. */
  predicate EntryHangs(settings: FetchSettings, world: World, e: Entry) {
    FetchHangs(settings, world.visit(e.0, e.1))
  }

  /** What a fetch promises of its page: SUCCESS, ERROR or TIMEOUT, and the links of a successful page are valid for the domain. */
  predicate PageFetched(page: CrawledPage, baseDomain: string) {
    && (page.status == Success || page.status == Error || page.status == Timeout)
    && (page.status == Success ==> forall l | l in page.links :: IsValidUrl(l, baseDomain))
  }

  /** The pages from index `from` on were fetched in this crawl: none of their fetches hung, and each kept its promises. */
  ghost predicate FetchedSince(pages: seq<CrawledPage>, from: nat, settings: FetchSettings, world: World, baseDomain: string) {
    forall k | from <= k < |pages| ::
      !EntryHangs(settings, world, (pages[k].url, pages[k].depth)) && PageFetched(pages[k], baseDomain)
  }

  /** What a drained crawl state says about the pages, in the terms `crawl`'s caller sees. */
  lemma {:induction false} DrainedState(baseUrl: string, maxDepth: int, maxPages: int, visited: set<string>, pages: seq<CrawledPage>,
                                        queueOrigin: seq<int>, pageOrigin: seq<int>, baseDomain: string, settings: FetchSettings,
                                        world: World, fromEmpty: bool)
    requires CrawlState(baseUrl, maxDepth, maxPages, visited, pages, [], queueOrigin, pageOrigin)
    requires fromEmpty ==> FetchedSince(pages, 0, settings, world, baseDomain)
    ensures forall i, j | 0 <= i < j < |pages| :: pages[i].url != pages[j].url
    ensures visited == set k | 0 <= k < |pages| :: pages[k].url
    ensures |pages| < maxPages ==>
      forall k, l | 0 <= k < |pages| && pages[k].status == Success && pages[k].depth < maxDepth && l in pages[k].links :: l in visited
    ensures pages != [] ==> pages[0].url == baseUrl && pages[0].depth == 0
    ensures fromEmpty ==> forall k | 0 < k < |pages| :: IsValidUrl(pages[k].url, baseDomain)
  {
    DistinctUrlsMeans(pages);
    FetchedUrlsMeans(pages);
    PagesReachable(baseUrl, maxDepth, maxPages, visited, pages, [], queueOrigin, pageOrigin);
    if |pages| < maxPages {
      forall k, l | 0 <= k < |pages| && pages[k].status == Success && pages[k].depth < maxDepth && l in pages[k].links
        ensures l in visited
      {
        assert Spawns(pages[k], maxDepth);
      }
    }
    if fromEmpty {
      PagesValid(baseUrl, maxDepth, maxPages, visited, pages, [], queueOrigin, pageOrigin, baseDomain);
      forall k | 0 < k < |pages| ensures IsValidUrl(pages[k].url, baseDomain) {
        assert pages[k].url != pages[0].url;
      }
    }
  }

  /** A sequence one longer than `pages` that starts with `pages` is `pages` and its last element. */
  lemma {:induction false} ExtendsByLast(pages: seq<CrawledPage>, pages': seq<CrawledPage>)
    requires |pages'| == |pages| + 1 && pages'[..|pages|] == pages
    ensures pages' == pages + [pages'[|pages|]]
  {
  }

  /** Appending a page whose fetch returned and kept its promises extends `FetchedSince`. */
  lemma {:induction false} FetchedSinceAppend(pages: seq<CrawledPage>, from: nat, settings: FetchSettings, world: World,
                                              baseDomain: string, page: CrawledPage)
    requires FetchedSince(pages, from, settings, world, baseDomain)
    requires !EntryHangs(settings, world, (page.url, page.depth)) && PageFetched(page, baseDomain)
    ensures FetchedSince(pages + [page], from, settings, world, baseDomain)
  {
    var ps := pages + [page];
    forall k | from <= k < |ps|
      ensures !EntryHangs(settings, world, (ps[k].url, ps[k].depth)) && PageFetched(ps[k], baseDomain)
    {
      if k < |pages| {
        assert ps[k] == pages[k];
      }
    }
  }

  /** Every page but the base URL was a link of a successful page, so its URL is valid for the domain. */
  lemma {:induction false} PagesValid(baseUrl: string, maxDepth: int, maxPages: int, visited: set<string>, pages: seq<CrawledPage>,
                                      queue: seq<Entry>, queueOrigin: seq<int>, pageOrigin: seq<int>, baseDomain: string)
    requires CrawlState(baseUrl, maxDepth, maxPages, visited, pages, queue, queueOrigin, pageOrigin)
    requires forall k | 0 <= k < |pages| :: PageFetched(pages[k], baseDomain)
    ensures forall k | 0 <= k < |pages| :: pages[k].url == baseUrl || IsValidUrl(pages[k].url, baseDomain)
  {
    forall k | 0 <= k < |pages| ensures pages[k].url == baseUrl || IsValidUrl(pages[k].url, baseDomain) {
      assert Origin((pages[k].url, pages[k].depth), pageOrigin[k], pages, baseUrl, maxDepth);
      if pageOrigin[k] >= 0 {
        assert PageFetched(pages[pageOrigin[k]], baseDomain);
      }
    }
  }

  /** Page depths never decrease. */
  ghost predicate DepthsSorted(pages: seq<CrawledPage>) {
    forall i, j | 0 <= i < j < |pages| :: pages[i].depth <= pages[j].depth
  }

  /** The queue is sorted by depth and holds at most two levels: the head's and the next. */
  ghost predicate QueueLevels(queue: seq<Entry>) {
    && (forall i, j | 0 <= i < j < |queue| :: queue[i].1 <= queue[j].1)
    && (forall j | 0 <= j < |queue| :: queue[j].1 <= queue[0].1 + 1)
  }

  /** Breadth-first order: the pages in depth order, the queue in levels, and no queued entry above the last page. */
  ghost predicate BfsOrder(pages: seq<CrawledPage>, queue: seq<Entry>) {
    && DepthsSorted(pages)
    && QueueLevels(queue)
    && (pages != [] && queue != [] ==> pages[|pages| - 1].depth <= queue[0].1)
  }

  /** Before any page is crawled, the queue holds only the base URL at depth 0, which is in order. */
  lemma {:induction false} SeedOrder(queue: seq<Entry>, origins: seq<int>, baseUrl: string, maxDepth: int)
    requires QueueOrigins(queue, origins, [], baseUrl, maxDepth)
    ensures BfsOrder([], queue)
  {
    forall j | 0 <= j < |queue| ensures queue[j].1 == 0 {
      assert Origin(queue[j], origins[j], [], baseUrl, maxDepth);
    }
  }

  /** Dropping the head entry keeps the order. */
  lemma {:induction false} SkipOrder(pages: seq<CrawledPage>, queue: seq<Entry>)
    requires BfsOrder(pages, queue) && queue != []
    ensures BfsOrder(pages, queue[1..])
  {
    QueueLevelsAppend(queue, []);
    assert queue[1..] + [] == queue[1..];
  }

  /** Taking the head off a queue in levels, and appending entries one level below the head, keeps it in levels. */
  lemma {:induction false} QueueLevelsAppend(queue: seq<Entry>, added: seq<Entry>)
    requires QueueLevels(queue) && queue != []
    requires forall i | 0 <= i < |added| :: added[i].1 == queue[0].1 + 1
    ensures var q := queue[1..] + added;
      && QueueLevels(q)
      && forall i | 0 <= i < |q| :: queue[0].1 <= q[i].1
  {
    var d := queue[0].1;
    var rest := queue[1..];
    var q := rest + added;
    forall i | 0 <= i < |q| ensures d <= q[i].1 <= d + 1 && (i >= |rest| ==> q[i].1 == d + 1) {
      if i < |rest| {
        assert q[i] == queue[i + 1];
      } else {
        assert q[i] == added[i - |rest|];
      }
    }
    forall i, j | 0 <= i < j < |q| ensures q[i].1 <= q[j].1 {
      if j < |rest| {
        assert q[i] == queue[i + 1] && q[j] == queue[j + 1];
      }
    }
  }

  /** A page at least as deep as every earlier one keeps the depths sorted. */
  lemma {:induction false} DepthsSortedAppend(pages: seq<CrawledPage>, page: CrawledPage)
    requires DepthsSorted(pages) && (pages != [] ==> pages[|pages| - 1].depth <= page.depth)
    ensures DepthsSorted(pages + [page])
  {
    var ps := pages + [page];
    forall i, j | 0 <= i < j < |ps| ensures ps[i].depth <= ps[j].depth {
      assert ps[i] == pages[i];
      if j < |pages| {
        assert ps[j] == pages[j];
      } else {
        assert pages[i].depth <= pages[|pages| - 1].depth;
      }
    }
  }

  /** Appending a page as deep as the head entry, and entries one level deeper behind the rest of the queue, keeps the order. */
  lemma {:induction false} AppendOrder(pages: seq<CrawledPage>, queue: seq<Entry>, page: CrawledPage, added: seq<Entry>)
    requires BfsOrder(pages, queue) && queue != [] && page.depth == queue[0].1
    requires forall i | 0 <= i < |added| :: added[i].1 == page.depth + 1
    ensures BfsOrder(pages + [page], queue[1..] + added)
  {
    QueueLevelsAppend(queue, added);
    DepthsSortedAppend(pages, page);
    var q := queue[1..] + added;
    if q != [] {
      assert page.depth <= q[0].1;
    }
    assert (pages + [page])[|pages|] == page;
  }

  /** Crawling the head entry keeps the order: its page is as deep as the head, and its links go one level deeper, behind the rest. */
  lemma {:induction false} CrawlOrder(visited: set<string>, pages: seq<CrawledPage>, queue: seq<Entry>,
                                      visited': set<string>, pages': seq<CrawledPage>, queue': seq<Entry>, maxDepth: int)
    requires BfsOrder(pages, queue) && queue != []
    requires CrawledHead(visited, pages, queue, visited', pages', queue', maxDepth)
    ensures BfsOrder(pages', queue')
  {
    var page := pages'[|pages|];
    var added := if Spawns(page, maxDepth) then NewEntries(page.links, visited', page.depth + 1) else [];
    forall i | 0 <= i < |added| ensures added[i].1 == page.depth + 1 {
      NewEntriesMeans(page.links, visited', page.depth + 1);
      assert added[i] in added;
    }
    assert pages' == pages + [page];
    AppendOrder(pages, queue, page, added);
  }

  class WebCrawler {
    const baseUrl: string
    const baseDomain: string
    const maxDepth: int
    const maxPages: int
    const concurrentRequests: int
    const fetchSettings: FetchSettings

    var visitedUrls: set<string>
    var crawledPages: seq<CrawledPage>
    var urlQueue: seq<Entry>
    /** The queue's count of entries taken out without `task_done` yet or never taken out; `join` waits for zero. */
    var unfinishedTasks: nat
    ghost var queueOrigin: seq<int>
    ghost var pageOrigin: seq<int>

    ghost predicate Valid()
      reads this
    {
      CrawlState(baseUrl, maxDepth, maxPages, visitedUrls, crawledPages, urlQueue, queueOrigin, pageOrigin)
      && unfinishedTasks == |urlQueue|
    }

    constructor (baseUrl: string, maxDepth: Option<int>, maxPages: Option<int>, concurrentRequests: Option<int>,
                 screenshotDir: Option<string>, captureScreenshots: bool, config: Settings)
      ensures this.baseUrl == RStripChar(baseUrl, '/') && baseDomain == Host(baseUrl)
      ensures this.maxDepth == OrDefault(maxDepth, config.maxDepth) && this.maxPages == OrDefault(maxPages, config.maxPages)
      ensures this.concurrentRequests == OrDefault(concurrentRequests, config.concurrentRequests)
      ensures fetchSettings == FetchSettings(config.maxRetries, config.jsWaitTimeoutMs, config.waitForSelector,
                                             captureScreenshots, screenshotDir)
      ensures visitedUrls == {} && crawledPages == [] && urlQueue == [] && unfinishedTasks == 0
      ensures Valid()
    {
      this.baseUrl := RStripChar(baseUrl, '/');
      baseDomain := Host(baseUrl);
      this.maxDepth := OrDefault(maxDepth, config.maxDepth);
      this.maxPages := OrDefault(maxPages, config.maxPages);
      this.concurrentRequests := OrDefault(concurrentRequests, config.concurrentRequests);
      fetchSettings := FetchSettings(config.maxRetries, config.jsWaitTimeoutMs, config.waitForSelector,
                                     captureScreenshots, screenshotDir);
      visitedUrls := {};
      crawledPages := [];
      urlQueue := [];
      unfinishedTasks := 0;
      queueOrigin := [];
      pageOrigin := [];
      InitialState(RStripChar(baseUrl, '/'), OrDefault(maxDepth, config.maxDepth), OrDefault(maxPages, config.maxPages));
    }

    /** The link loop of `_worker`: queue each link not yet visited, one level below `depth`. */
    method QueueLinks(links: seq<string>, depth: int, ghost parent: int)
      modifies this
      ensures urlQueue == old(urlQueue) + NewEntries(links, visitedUrls, depth + 1)
      ensures unfinishedTasks == old(unfinishedTasks) + |NewEntries(links, visitedUrls, depth + 1)|
      ensures queueOrigin == old(queueOrigin) + Fill(|NewEntries(links, visitedUrls, depth + 1)|, parent)
      ensures visitedUrls == old(visitedUrls) && crawledPages == old(crawledPages) && pageOrigin == old(pageOrigin)
    {
      for i := 0 to |links|
        invariant urlQueue == old(urlQueue) + NewEntries(links[..i], visitedUrls, depth + 1)
        invariant unfinishedTasks == old(unfinishedTasks) + |NewEntries(links[..i], visitedUrls, depth + 1)|
        invariant queueOrigin == old(queueOrigin) + Fill(|NewEntries(links[..i], visitedUrls, depth + 1)|, parent)
        invariant visitedUrls == old(visitedUrls) && crawledPages == old(crawledPages) && pageOrigin == old(pageOrigin)
      {
        assert links[..i + 1][..i] == links[..i];
        if links[i] !in visitedUrls {
          urlQueue := urlQueue + [(links[i], depth + 1)];
          unfinishedTasks := unfinishedTasks + 1;
          queueOrigin := queueOrigin + [parent];
        }
      }
      assert links[..|links|] == links;
    }

    /** The `_fetch_page` call of `_worker`, on the world's outcomes for this visit; None: it never returns. */
    method FetchEntry(url: string, depth: int, world: World) returns (page: Option<CrawledPage>)
      ensures page.None? <==> EntryHangs(fetchSettings, world, (url, depth))
      ensures page.Some? ==> page.value.url == url && page.value.depth == depth && PageFetched(page.value, baseDomain)
    {
      page := FetchPage(url, depth, baseDomain, fetchSettings, world.visit(url, depth), world.resolve,
                        world.digest, world.elapsedMs(url, depth), world.now(url, depth));
      if page.Some? && page.value.status == Success {
        var c := world.visit(url, depth).extraction.content;
        var candidates := Candidates(c.rawLinks, Normalizer(url, world.resolve), Validator(baseDomain));
        DedupMembers(candidates);
        CandidateMembers(c.rawLinks, Normalizer(url, world.resolve), Validator(baseDomain));
      }
    }

    /** The `continue` branch of `_worker`: the head entry is dropped and its task marked done. */
    method SkipHead()
      requires Valid() && urlQueue != [] && (urlQueue[0].0 in visitedUrls || |crawledPages| >= maxPages)
      modifies this
      ensures Valid()
      ensures visitedUrls == old(visitedUrls) && crawledPages == old(crawledPages) && urlQueue == old(urlQueue[1..])
    {
      DiscardKeeps(baseUrl, maxDepth, maxPages, visitedUrls, crawledPages, urlQueue, queueOrigin, pageOrigin);
      urlQueue := urlQueue[1..];
      queueOrigin := queueOrigin[1..];
      unfinishedTasks := unfinishedTasks - 1;
    }

    /** The crawling branch of `_worker`: mark the URL visited, fetch it, record the page, queue its links, call `task_done`. */
    /**
     * When the fetch never returns (`hung`), the worker blocks with the URL marked visited, the entry
     * taken from the queue and its task never marked done. The fetch reads only the crawler's
     * settings, so it is made here before the head entry is taken and marked visited.
     */
    method CrawlHead(world: World) returns (hung: bool)
      requires Valid() && urlQueue != [] && urlQueue[0].0 !in visitedUrls && |crawledPages| < maxPages
      modifies this
      ensures hung <==> EntryHangs(fetchSettings, world, old(urlQueue[0]))
      ensures !hung ==> Valid()
      ensures !hung ==> CrawledHead(old(visitedUrls), old(crawledPages), old(urlQueue), visitedUrls, crawledPages, urlQueue, maxDepth)
      ensures !hung ==> PageFetched(crawledPages[|crawledPages| - 1], baseDomain)
      ensures hung ==> (visitedUrls == old(visitedUrls) + {old(urlQueue[0].0)} && crawledPages == old(crawledPages)
                        && urlQueue == old(urlQueue[1..]) && unfinishedTasks == old(unfinishedTasks))
    {
      var (url, depth) := urlQueue[0];
      var fetched := FetchEntry(url, depth, world);
      if fetched.None? {
        urlQueue := urlQueue[1..];
        queueOrigin := queueOrigin[1..];
        visitedUrls := visitedUrls + {url};
        return true;
      }
      RecordHead(fetched.value);
      hung := false;
    }

    /** The rest of the crawling branch: mark the head URL visited, record its fetched page, queue its links, call `task_done`. */
    method RecordHead(page: CrawledPage)
      requires Valid() && urlQueue != [] && urlQueue[0].0 !in visitedUrls && |crawledPages| < maxPages
      requires page.url == urlQueue[0].0 && page.depth == urlQueue[0].1
      modifies this
      ensures Valid()
      ensures CrawledHead(old(visitedUrls), old(crawledPages), old(urlQueue), visitedUrls, crawledPages, urlQueue, maxDepth)
      ensures crawledPages == old(crawledPages) + [page]
    {
      var (url, depth) := urlQueue[0];
      ghost var visited0, pages0, queue0, queueOrigin0, pageOrigin0 := visitedUrls, crawledPages, urlQueue, queueOrigin, pageOrigin;
      urlQueue := urlQueue[1..];
      queueOrigin := queueOrigin[1..];
      visitedUrls := visitedUrls + {url};
      crawledPages := crawledPages + [page];
      pageOrigin := pageOrigin + [queueOrigin0[0]];
      ghost var added := if Spawns(page, maxDepth) then NewEntries(page.links, visited0 + {page.url}, page.depth + 1) else [];
      if page.status == Success && depth < maxDepth {
        QueueLinks(page.links, depth, |pages0|);
        assert urlQueue == queue0[1..] + added;
      } else {
        assert added == [];
        assert urlQueue == queue0[1..] + added;
        assert queueOrigin == queueOrigin0[1..] + Fill(|added|, |pages0|);
      }
      FetchKeeps(baseUrl, maxDepth, maxPages, visited0, pages0, queue0, queueOrigin0, pageOrigin0, page);
      assert CrawlState(baseUrl, maxDepth, maxPages, visitedUrls, crawledPages, urlQueue, queueOrigin, pageOrigin);
      assert CrawledHead(visited0, pages0, queue0, visitedUrls, crawledPages, urlQueue, maxDepth);
      unfinishedTasks := unfinishedTasks - 1;
    }

    /** One pass of `_worker`'s loop: take the head entry and crawl it unless it is visited or the budget is spent. */
    method ProcessNext(world: World) returns (hung: bool)
      requires Valid() && urlQueue != []
      modifies this
      ensures !hung ==> Valid()
      ensures old(urlQueue[0].0 in visitedUrls || |crawledPages| >= maxPages) ==>
        !hung && visitedUrls == old(visitedUrls) && crawledPages == old(crawledPages) && urlQueue == old(urlQueue[1..])
      ensures old(urlQueue[0].0 !in visitedUrls && |crawledPages| < maxPages) ==>
        (hung <==> EntryHangs(fetchSettings, world, old(urlQueue[0])))
      ensures old(urlQueue[0].0 !in visitedUrls && |crawledPages| < maxPages) && !hung ==>
        CrawledHead(old(visitedUrls), old(crawledPages), old(urlQueue), visitedUrls, crawledPages, urlQueue, maxDepth)
        && PageFetched(crawledPages[|crawledPages| - 1], baseDomain)
      ensures hung ==> (old(urlQueue[0].0 !in visitedUrls && |crawledPages| < maxPages)
                        && visitedUrls == old(visitedUrls) + {old(urlQueue[0].0)} && crawledPages == old(crawledPages)
                        && urlQueue == old(urlQueue[1..]))
    {
      if urlQueue[0].0 in visitedUrls || |crawledPages| >= maxPages {
        SkipHead();
        hung := false;
      } else {
        hung := CrawlHead(world);
      }
    }

    /** `crawl`'s first step: put the base URL at depth 0 on the queue. */
    method Seed()
      requires Valid()
      modifies this
      ensures Valid()
      ensures urlQueue == old(urlQueue) + [(baseUrl, 0)] && unfinishedTasks == old(unfinishedTasks) + 1
      ensures visitedUrls == old(visitedUrls) && crawledPages == old(crawledPages)
      ensures crawledPages == [] ==> BfsOrder(crawledPages, urlQueue)
    {
      SeedKeeps(baseUrl, maxDepth, maxPages, visitedUrls, crawledPages, urlQueue, queueOrigin, pageOrigin);
      urlQueue := urlQueue + [(baseUrl, 0)];
      queueOrigin := queueOrigin + [-1];
      unfinishedTasks := unfinishedTasks + 1;
      if crawledPages == [] {
        SeedOrder(urlQueue, queueOrigin, baseUrl, maxDepth);
      }
    }

    /**
     * The workers and `join`: process entries until the queue is drained or a fetch never returns
     * (`hung`, with `blocked` the entry whose fetch it was).
     */
    method RunWorkers(world: World, ghost fromEmpty: bool) returns (hung: bool, ghost blocked: Entry)
      requires Valid()
      requires fromEmpty ==> BfsOrder(crawledPages, urlQueue) && crawledPages == []
      modifies this
      ensures |old(crawledPages)| <= |crawledPages| && crawledPages[..|old(crawledPages)|] == old(crawledPages)
      ensures FetchedSince(crawledPages, |old(crawledPages)|, fetchSettings, world, baseDomain)
      ensures !hung ==> Valid() && urlQueue == []
      ensures !hung && fromEmpty ==> DepthsSorted(crawledPages)
      ensures !hung && fromEmpty && maxPages > 0 && (baseUrl, 0) in old(urlQueue) ==> crawledPages != []
      ensures hung ==> (EntryHangs(fetchSettings, world, blocked)
                        && blocked.0 !in FetchedUrls(crawledPages) && visitedUrls == FetchedUrls(crawledPages) + {blocked.0})
    {
      hung := false;
      blocked := (baseUrl, 0);
      ghost var seeded := fromEmpty && maxPages > 0 && (baseUrl, 0) in urlQueue;
      while urlQueue != [] && !hung
        invariant !hung ==> Valid()
        invariant |old(crawledPages)| <= |crawledPages| && crawledPages[..|old(crawledPages)|] == old(crawledPages)
        invariant !hung && seeded && crawledPages == [] ==> (baseUrl, 0) in urlQueue
        invariant !hung && fromEmpty ==> BfsOrder(crawledPages, urlQueue)
        invariant FetchedSince(crawledPages, |old(crawledPages)|, fetchSettings, world, baseDomain)
        invariant hung ==> (EntryHangs(fetchSettings, world, blocked)
                            && blocked.0 !in FetchedUrls(crawledPages) && visitedUrls == FetchedUrls(crawledPages) + {blocked.0})
        decreases Max(maxPages, 0) - |crawledPages|, |urlQueue|
      {
        ghost var visited0, pages0, queue0 := visitedUrls, crawledPages, urlQueue;
        hung := ProcessNext(world);
        if hung {
          blocked := queue0[0];
          assert crawledPages == pages0 && visited0 == FetchedUrls(pages0);
        } else if visited0 == visitedUrls {
          if fromEmpty {
            SkipOrder(pages0, queue0);
          }
        } else {
          assert CrawledHead(visited0, pages0, queue0, visitedUrls, crawledPages, urlQueue, maxDepth);
          ExtendsByLast(pages0, crawledPages);
          FetchedSinceAppend(pages0, |old(crawledPages)|, fetchSettings, world, baseDomain, crawledPages[|pages0|]);
          if fromEmpty {
            CrawlOrder(visited0, pages0, queue0, visitedUrls, crawledPages, urlQueue, maxDepth);
          }
        }
      }
    }

    /**
     * `crawl`: queue the base URL and work until the queue is drained, which is when `join` returns.
     * None: a fetch never returns, so neither does `join`.
     */
    method Crawl(world: World) returns (pages: Option<seq<CrawledPage>>)
      requires Valid()
      modifies this
      ensures pages.None? ==>
        exists e: Entry :: (EntryHangs(fetchSettings, world, e)
                            && e.0 !in (set k | 0 <= k < |crawledPages| :: crawledPages[k].url)
                            && visitedUrls == (set k | 0 <= k < |crawledPages| :: crawledPages[k].url) + {e.0})
      ensures pages.Some? ==> Valid() && pages.value == crawledPages && urlQueue == [] && unfinishedTasks == 0
      ensures |old(crawledPages)| <= |crawledPages| && crawledPages[..|old(crawledPages)|] == old(crawledPages)
      ensures FetchedSince(crawledPages, |old(crawledPages)|, fetchSettings, world, baseDomain)
      ensures pages.Some? ==> |pages.value| <= Max(maxPages, 0)
      ensures pages.Some? ==> forall i, j | 0 <= i < j < |pages.value| :: pages.value[i].url != pages.value[j].url
      ensures pages.Some? ==> visitedUrls == set k | 0 <= k < |pages.value| :: pages.value[k].url
      ensures pages.Some? && |pages.value| < maxPages ==>
        forall k, l | 0 <= k < |crawledPages| && crawledPages[k].status == Success && crawledPages[k].depth < maxDepth
                      && l in crawledPages[k].links :: l in visitedUrls
      ensures pages.Some? && old(crawledPages) == [] && maxPages > 0 ==>
        |crawledPages| > 0 && crawledPages[0].url == baseUrl && crawledPages[0].depth == 0
      ensures pages.Some? && old(crawledPages) == [] ==> forall k | 0 < k < |crawledPages| :: IsValidUrl(crawledPages[k].url, baseDomain)
      ensures pages.Some? && old(crawledPages) == [] ==>
        forall i, j | 0 <= i < j < |crawledPages| :: crawledPages[i].depth <= crawledPages[j].depth
    {
      Seed();
      ghost var wasEmpty := old(crawledPages) == [];
      var hung;
      ghost var blocked;
      hung, blocked := RunWorkers(world, wasEmpty);
      if hung {
        FetchedUrlsMeans(crawledPages);
        return None;
      }
      pages := Some(crawledPages);
      DrainedState(baseUrl, maxDepth, maxPages, visitedUrls, crawledPages, queueOrigin, pageOrigin, baseDomain,
                   fetchSettings, world, wasEmpty);
    }
  }
}
