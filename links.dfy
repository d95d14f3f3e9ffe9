/**
 * The link analyzer: it requests every link found on the crawled pages (HEAD, then GET when
 * HEAD is not allowed), remembers each answer, and reports the links that are broken.
 */
module Links {
  import opened Common
  import opened Strings
  import opened Models
  import opened Urls

  /** How one HTTP request ended: a status code, or one of the failures the analyzer tells apart. */
  datatype Response =
    | Status(code: int)
    | TimedOut
    | ConnectFailed(reason: string)
    | TooManyRedirects
    | Failed(reason: string)

  /** What `_check_url` returns and caches: `(status_code, error_message)`. */
  datatype Probe = Probe(status: Option<int>, error: Option<string>)

  /** The cached pair for one response. */
  function ProbeOfResponse(r: Response): (p: Probe)
    ensures r.Status? <==> p.error.None?
    ensures p.status.Some? <==> r.Status?
    ensures r.Status? ==> p.status == Some(r.code)
  {
    match r
    case Status(code) => Probe(Some(code), None)
    case TimedOut => Probe(None, Some("Connection timed out"))
    case ConnectFailed(reason) => Probe(None, Some("Connection failed: " + reason))
    case TooManyRedirects => Probe(None, Some("Too many redirects"))
    case Failed(reason) => Probe(None, Some("Error: " + reason))
  }

  /**
   * The answer for a URL: the HEAD response, or the GET response when HEAD says 405. A 405
   * is reported only when the GET also said 405.
   */
  function ProbeOf(head: string -> Response, get: string -> Response, url: string): (p: Probe)
    ensures p.status == Some(405) ==> get(url) == Status(405)
    ensures head(url) != Status(405) ==> p == ProbeOfResponse(head(url))
  {
    if head(url) == Status(405) then ProbeOfResponse(get(url)) else ProbeOfResponse(head(url))
  }

  /** Requests a fresh check sends: the HEAD, and the GET when HEAD says 405. */
  function RequestsFor(head: string -> Response, url: string): nat {
    if head(url) == Status(405) then 2 else 1
  }

  /** The issue kinds, each with the message the analyzer writes. */
  const NotFoundMessage: string := "Page not found (404)"
  const ForbiddenMessage: string := "Access forbidden (403)"
  const UnauthorizedMessage: string := "Authentication required (401)"

  /** A status that makes a link broken: 404, 403, 401, or any server error. */
  predicate BrokenStatus(code: int) {
    code == 404 || code == 403 || code == 401 || code >= 500
  }

  /** `_check_link`: the issue for a link, if its answer shows it broken. */
  function Classify(source: string, target: string, p: Probe): (r: Option<LinkIssue>)
    ensures r.Some? <==> Truthy(p.error) || (p.status.Some? && p.status.value != 0 && BrokenStatus(p.status.value))
    ensures r.Some? ==> r.value.sourceUrl == source && r.value.targetUrl == target && r.value.statusCode == p.status
    ensures r.Some? ==> r.value.errorMessage != ""
    ensures Truthy(p.error) ==> r.Some? && r.value.errorType == "connection_error" && r.value.errorMessage == p.error.value
  {
    var issue := (errorType: string, message: string) => Some(LinkIssue(source, target, p.status, errorType, message));
    if Truthy(p.error) then issue("connection_error", p.error.value)
    else if p.status.Some? && p.status.value != 0 then
      var code := p.status.value;
      if code == 404 then issue("not_found", NotFoundMessage)
      else if code == 403 then issue("forbidden", ForbiddenMessage)
      else if code == 401 then issue("unauthorized", UnauthorizedMessage)
      else if code >= 500 then issue("server_error", "Server error (" + IntToString(code) + ")")
      else None
    else None
  }

  /** The kind of issue a status code gives when no error message came with it. */
  lemma {:induction false} StatusKinds(source: string, target: string, code: int)
    ensures var r := Classify(source, target, Probe(Some(code), None));
      && (code == 404 ==> r.Some? && r.value.errorType == "not_found" && r.value.errorMessage == NotFoundMessage)
      && (code == 403 ==> r.Some? && r.value.errorType == "forbidden" && r.value.errorMessage == ForbiddenMessage)
      && (code == 401 ==> r.Some? && r.value.errorType == "unauthorized" && r.value.errorMessage == UnauthorizedMessage)
      && (code >= 500 ==> r.Some? && r.value.errorType == "server_error")
      && (code < 500 && code != 404 && code != 403 && code != 401 ==> r.None?)
  {
  }

  /** A status-free failure with an empty message, which no response produces, gives no issue either. */
  lemma {:induction false} NoAnswerNoIssue(source: string, target: string)
    ensures Classify(source, target, Probe(None, None)).None?
    ensures Classify(source, target, Probe(Some(0), None)).None?
  {
  }

  /** Every failed request is reported as a connection error; every status code is judged on its own. */
  lemma {:induction false} ResponseIssues(source: string, target: string, r: Response)
    ensures !r.Status? ==> Classify(source, target, ProbeOfResponse(r)).value.errorType == "connection_error"
    ensures r.Status? && r.code != 0 ==>
      (Classify(source, target, ProbeOfResponse(r)).Some? <==> BrokenStatus(r.code))
  {
    match r
    case ConnectFailed(reason) => assert ("Connection failed: " + reason)[0] == 'C';
    case Failed(reason) => assert ("Error: " + reason)[0] == 'E';
    case _ =>
  }

  /** A link is checked when it is internal, or when external links are checked too. */
  predicate Checked(link: string, domains: set<string>, checkExternal: bool) {
    Host(link) in domains || checkExternal
  }

  /** `_analyze_page_links`: the issues of a page's links, in link order. */
  function LinkIssues(source: string, links: seq<string>, domains: set<string>, checkExternal: bool,
                      head: string -> Response, get: string -> Response): (issues: seq<LinkIssue>)
    ensures |issues| <= |links|
  {
    if links == [] then []
    else
      var n := |links| - 1;
      var issue := Classify(source, links[n], ProbeOf(head, get, links[n]));
      LinkIssues(source, links[..n], domains, checkExternal, head, get)
        + (if Checked(links[n], domains, checkExternal) && issue.Some? then [issue.value] else [])
  }

  /** Each issue of a page comes from that page and one of its checked links. */
  lemma {:induction false} LinkIssuesFrom(source: string, links: seq<string>, domains: set<string>, checkExternal: bool,
                                          head: string -> Response, get: string -> Response)
    ensures forall issue | issue in LinkIssues(source, links, domains, checkExternal, head, get) ::
      && issue.sourceUrl == source && issue.targetUrl in links
      && Checked(issue.targetUrl, domains, checkExternal)
      && Classify(source, issue.targetUrl, ProbeOf(head, get, issue.targetUrl)) == Some(issue)
  {
    if links != [] {
      var n := |links| - 1;
      LinkIssuesFrom(source, links[..n], domains, checkExternal, head, get);
      forall issue | issue in LinkIssues(source, links[..n], domains, checkExternal, head, get)
        ensures issue.targetUrl in links
      {
        assert issue.targetUrl in links[..n];
      }
    }
  }

  /** The issues of a page's links are those of all but the last link, then the last link's own. */
  lemma {:induction false} LinkIssuesLast(source: string, links: seq<string>, domains: set<string>, checkExternal: bool,
                                          head: string -> Response, get: string -> Response)
    requires links != []
    ensures var n := |links| - 1;
      var issue := Classify(source, links[n], ProbeOf(head, get, links[n]));
      LinkIssues(source, links, domains, checkExternal, head, get)
        == LinkIssues(source, links[..n], domains, checkExternal, head, get)
          + (if Checked(links[n], domains, checkExternal) && issue.Some? then [issue.value] else [])
  {
  }

  /** Checking one more link appends that link's issue, if any. */
  lemma {:induction false} LinkIssuesStep(source: string, links: seq<string>, domains: set<string>, checkExternal: bool,
                                          head: string -> Response, get: string -> Response, i: int)
    requires 0 <= i < |links|
    ensures var issue := Classify(source, links[i], ProbeOf(head, get, links[i]));
      LinkIssues(source, links[..i + 1], domains, checkExternal, head, get)
        == LinkIssues(source, links[..i], domains, checkExternal, head, get)
          + (if Checked(links[i], domains, checkExternal) && issue.Some? then [issue.value] else [])
  {
    var prefix := links[..i + 1];
    assert prefix[..i] == links[..i] && prefix[i] == links[i];
    LinkIssuesLast(source, prefix, domains, checkExternal, head, get);
  }

  /** Every checked broken link of a page is reported. */
  lemma {:induction false} BrokenLinksReported(source: string, links: seq<string>, domains: set<string>, checkExternal: bool,
                                               head: string -> Response, get: string -> Response, i: int)
    requires 0 <= i < |links| && Checked(links[i], domains, checkExternal)
    requires Classify(source, links[i], ProbeOf(head, get, links[i])).Some?
    ensures Classify(source, links[i], ProbeOf(head, get, links[i])).value in LinkIssues(source, links, domains, checkExternal, head, get)
  {
    LinkIssuesStep(source, links, domains, checkExternal, head, get, i);
    LinkIssuesPrefix(source, links, domains, checkExternal, head, get, i + 1);
    var upto := LinkIssues(source, links[..i + 1], domains, checkExternal, head, get);
    var whole := LinkIssues(source, links, domains, checkExternal, head, get);
    var last := |upto| - 1;
    assert upto[last] == Classify(source, links[i], ProbeOf(head, get, links[i])).value;
    assert whole[last] == upto[last];
  }

  /** The issues of the first `k` links start the issues of all of them. */
  lemma {:induction false} LinkIssuesPrefix(source: string, links: seq<string>, domains: set<string>, checkExternal: bool,
                                            head: string -> Response, get: string -> Response, k: int)
    requires 0 <= k <= |links|
    ensures LinkIssues(source, links[..k], domains, checkExternal, head, get)
      <= LinkIssues(source, links, domains, checkExternal, head, get)
    decreases |links| - k
  {
    if k == |links| {
      assert links[..k] == links;
    } else {
      LinkIssuesStep(source, links, domains, checkExternal, head, get, k);
      LinkIssuesPrefix(source, links, domains, checkExternal, head, get, k + 1);
    }
  }

  /** The hosts (by `host`; `analyze` uses `Host`) of the pages fetched successfully, collected in page order. */
  function SuccessDomains(pages: seq<CrawledPage>, host: string -> string): (domains: set<string>)
    decreases |pages|
  {
    if pages == [] then {}
    else
      var n := |pages| - 1;
      SuccessDomains(pages[..n], host) + (if pages[n].status == Success then {host(pages[n].url)} else {})
  }

  /** The collected hosts are exactly the hosts of the pages fetched successfully. */
  lemma {:induction false} SuccessDomainsMeans(pages: seq<CrawledPage>, host: string -> string)
    ensures forall i | 0 <= i < |pages| && pages[i].status == Success :: host(pages[i].url) in SuccessDomains(pages, host)
    ensures forall d | d in SuccessDomains(pages, host) ::
      exists i | 0 <= i < |pages| :: pages[i].status == Success && host(pages[i].url) == d
    decreases |pages|
  {
    if pages != [] {
      var n := |pages| - 1;
      var init := pages[..n];
      SuccessDomainsMeans(init, host);
      forall i | 0 <= i < n && pages[i].status == Success ensures host(pages[i].url) in SuccessDomains(pages, host) {
        assert init[i] == pages[i];
      }
      forall d | d in SuccessDomains(pages, host)
        ensures exists i | 0 <= i < |pages| :: pages[i].status == Success && host(pages[i].url) == d
      {
        if d in SuccessDomains(init, host) {
          var i :| 0 <= i < n && init[i].status == Success && host(init[i].url) == d;
          assert init[i] == pages[i];
        } else {
          assert pages[n].status == Success && host(pages[n].url) == d;
        }
      }
    }
  }

  /** The pages whose links `analyze` looks at: fetched successfully, with at least one link. */
  predicate HasLinksToCheck(page: CrawledPage) {
    page.status == Success && page.links != []
  }

  /** `analyze`'s second loop: the issues of every page with links, in page order. */
  function SiteIssues(pages: seq<CrawledPage>, domains: set<string>, checkExternal: bool,
                      head: string -> Response, get: string -> Response): seq<LinkIssue>
  {
    if pages == [] then []
    else
      var n := |pages| - 1;
      SiteIssues(pages[..n], domains, checkExternal, head, get)
        + (if HasLinksToCheck(pages[n]) then LinkIssues(pages[n].url, pages[n].links, domains, checkExternal, head, get) else [])
  }

  /** Every issue comes from a page fetched successfully, and names one of that page's links. */
  lemma {:induction false} SiteIssuesFrom(pages: seq<CrawledPage>, domains: set<string>, checkExternal: bool,
                                          head: string -> Response, get: string -> Response)
    ensures forall issue | issue in SiteIssues(pages, domains, checkExternal, head, get) ::
      exists i | 0 <= i < |pages| :: HasLinksToCheck(pages[i]) && issue.sourceUrl == pages[i].url && issue.targetUrl in pages[i].links
  {
    if pages != [] {
      var n := |pages| - 1;
      SiteIssuesFrom(pages[..n], domains, checkExternal, head, get);
      LinkIssuesFrom(pages[n].url, pages[n].links, domains, checkExternal, head, get);
      forall issue | issue in SiteIssues(pages[..n], domains, checkExternal, head, get)
        ensures exists i | 0 <= i < |pages| :: HasLinksToCheck(pages[i]) && issue.sourceUrl == pages[i].url && issue.targetUrl in pages[i].links
      {
        var i :| 0 <= i < n && HasLinksToCheck(pages[..n][i]) && issue.sourceUrl == pages[..n][i].url && issue.targetUrl in pages[..n][i].links;
        assert pages[..n][i] == pages[i];
      }
    }
  }

  /** The first loop of `analyze`: the hosts of the pages fetched successfully. */
  method CollectDomains(pages: seq<CrawledPage>) returns (domains: set<string>)
    ensures domains == SuccessDomains(pages, Host)
  {
    domains := {};
    for i := 0 to |pages|
      invariant domains == SuccessDomains(pages[..i], Host)
    {
      assert pages[..i + 1][..i] == pages[..i];
      if pages[i].status == Success {
        domains := domains + {Host(pages[i].url)};
      }
    }
    assert pages[..|pages|] == pages;
  }

  /**
   * `LinkAnalyzer`. The HTTP client's requests are the `head` and `get` functions, and a link's
   * host is `Host`, the netloc of `urlparse`; `checked` is `_checked_urls`, and `requests` counts
   * the requests sent.
   */
  class LinkAnalyzer {
    const checkExternal: bool
    var clientStarted: bool
    var checked: map<string, Probe>
    var requests: nat

    /** Every cached answer is the one the network gives. */
    predicate Consistent(head: string -> Response, get: string -> Response)
      reads this
    {
      forall u | u in checked :: checked[u] == ProbeOf(head, get, u)
    }

    /** `check_external` when given, the configured default otherwise. */
    constructor(checkExternal: Option<bool>, defaultCheckExternal: bool)
      ensures this.checkExternal == checkExternal.GetOr(defaultCheckExternal)
      ensures !clientStarted && checked == map[] && requests == 0
    {
      this.checkExternal := checkExternal.GetOr(defaultCheckExternal);
      clientStarted := false;
      checked := map[];
      requests := 0;
    }

    method Start()
      modifies this
      ensures clientStarted && checked == old(checked) && requests == old(requests)
    {
      if !clientStarted {
        clientStarted := true;
      }
    }

    method Stop()
      modifies this
      ensures !clientStarted && checked == old(checked) && requests == old(requests)
    {
      if clientStarted {
        clientStarted := false;
      }
    }

    /**
     * `_check_url`: a URL already checked gets its cached answer and no request; any other is
     * requested and its answer stored.
     */
    method CheckUrl(url: string, head: string -> Response, get: string -> Response) returns (p: Probe)
      modifies this
      ensures clientStarted == old(clientStarted)
      ensures url in old(checked) ==> p == old(checked)[url] && checked == old(checked) && requests == old(requests)
      ensures url !in old(checked) ==>
        p == ProbeOf(head, get, url) && checked == old(checked)[url := p] && requests == old(requests) + RequestsFor(head, url)
      ensures old(Consistent(head, get)) ==> Consistent(head, get) && p == ProbeOf(head, get, url)
    {
      if url in checked {
        return checked[url];
      }
      var response := head(url);
      requests := requests + 1;
      if response == Status(405) {
        response := get(url);
        requests := requests + 1;
      }
      p := ProbeOfResponse(response);
      checked := checked[url := p];
    }

    /** `_check_link`. */
    method CheckLink(source: string, target: string, head: string -> Response, get: string -> Response)
      returns (r: Option<LinkIssue>)
      modifies this
      ensures clientStarted == old(clientStarted)
      ensures old(Consistent(head, get)) ==> Consistent(head, get) && r == Classify(source, target, ProbeOf(head, get, target))
    {
      var p := CheckUrl(target, head, get);
      r := Classify(source, target, p);
    }

    /** `_analyze_page_links`: check the page's links that are internal, or all when external links are checked. */
    method AnalyzePageLinks(page: CrawledPage, domains: set<string>, head: string -> Response, get: string -> Response)
      returns (issues: seq<LinkIssue>)
      modifies this
      ensures clientStarted == old(clientStarted)
      ensures old(Consistent(head, get)) ==>
        Consistent(head, get) && issues == LinkIssues(page.url, page.links, domains, checkExternal, head, get)
    {
      issues := [];
      ghost var consistent := Consistent(head, get);
      for i := 0 to |page.links|
        invariant clientStarted == old(clientStarted)
        invariant consistent ==> (Consistent(head, get)
          && issues == LinkIssues(page.url, page.links[..i], domains, checkExternal, head, get))
      {
        var link := page.links[i];
        LinkIssuesStep(page.url, page.links, domains, checkExternal, head, get, i);
        if !(Host(link) in domains) && !checkExternal {
          continue;
        }
        var r := CheckLink(page.url, link, head, get);
        if r.Some? {
          issues := issues + [r.value];
        }
      }
      assert page.links[..|page.links|] == page.links;
    }

    /**
     * `analyze`: collect the hosts of the pages fetched successfully, then check the links of
     * every such page that has links, in page order.
     */
    method Analyze(pages: seq<CrawledPage>, head: string -> Response, get: string -> Response)
      returns (issues: seq<LinkIssue>)
      modifies this
      ensures clientStarted
      ensures old(Consistent(head, get)) ==>
        Consistent(head, get) && issues == SiteIssues(pages, SuccessDomains(pages, Host), checkExternal, head, get)
    {
      Start();
      var domains := CollectDomains(pages);
      issues := [];
      ghost var consistent := Consistent(head, get);
      for i := 0 to |pages|
        invariant clientStarted
        invariant consistent ==> Consistent(head, get) && issues == SiteIssues(pages[..i], domains, checkExternal, head, get)
      {
        assert pages[..i + 1][..i] == pages[..i];
        if pages[i].status != Success || pages[i].links == [] {
          continue;
        }
        var pageIssues := AnalyzePageLinks(pages[i], domains, head, get);
        issues := issues + pageIssues;
      }
      assert pages[..|pages|] == pages;
    }

    /** `analyze_single_page`: a page fetched successfully with links, its own host as the only internal one. */
    method AnalyzeSinglePage(page: CrawledPage, head: string -> Response, get: string -> Response)
      returns (issues: seq<LinkIssue>)
      modifies this
      ensures clientStarted
      ensures !HasLinksToCheck(page) ==> issues == []
      ensures old(Consistent(head, get)) ==>
        Consistent(head, get) && issues == SiteIssues([page], {Host(page.url)}, checkExternal, head, get)
    {
      Start();
      if page.status != Success || page.links == [] {
        return [];
      }
      issues := AnalyzePageLinks(page, {Host(page.url)}, head, get);
      assert [page][..0] == [];
    }
  }

  /** Analysing one page on its own is analysing a crawl of that page alone. */
  lemma {:induction false} SinglePageIsSite(page: CrawledPage, checkExternal: bool, head: string -> Response, get: string -> Response)
    requires page.status == Success
    ensures SiteIssues([page], {Host(page.url)}, checkExternal, head, get)
         == SiteIssues([page], SuccessDomains([page], Host), checkExternal, head, get)
  {
    assert SuccessDomains([page], Host) == {Host(page.url)} by {
      assert [page][..0] == [];
    }
  }
}
