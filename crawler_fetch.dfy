/**
 * `WebCrawler._fetch_page`: navigate with retries, read the rendered page, filter its links,
 * optionally take a screenshot, and shape the outcome into a `CrawledPage`. Everything the
 * browser does is passed in as a `Visit`.
 */
module Fetch {
  import opened Common
  import opened Models
  import opened Browser
  import opened Urls
  import opened CrawlerLinks

  /** The settings `_fetch_page` reads. */
  datatype FetchSettings = FetchSettings(
    maxRetries: int,
    jsWaitMs: int,
    waitSelector: Option<string>,
    captureScreenshots: bool,
    screenshotDir: Option<string>)

  /** What the loader's `get_content`, `get_text`, `get_title` and `get_links` returned. */
  datatype Content = Content(html: string, text: string, title: string, rawLinks: seq<string>)

  /** Reading the rendered page either worked or raised a Playwright timeout or another exception. */
  datatype Extraction = Extracted(content: Content) | ExtractionTimedOut | ExtractionFailed(message: string)

  /**
   * The browser's side of one visit: per navigation attempt, what `page.goto` and the settle steps did
   * and the heights the lazy-loading scroll reads; then the reads and the screenshot.
   */
  datatype Visit = Visit(
    navigation: nat -> Navigation,
    settle: nat -> (SettleStep -> WaitOutcome),
    heights: nat -> PageHeights,
    extraction: Extraction,
    screenshot: WaitOutcome)

  const NavigationFailed: string := "Navigation failed"
  const TimedOutMessage: string := "Page load timed out"
  const BaseDelayMs: nat := 1000
  const MaxDelayMs: nat := 10000

  /**
   * The nested `navigate()`: `goto`, and an exception when it reports failure. An attempt whose `goto`
   * never returns is `Returned(false)`: like a return, it ends the retries, and the fetch hangs there.
   */
  function NavigateAttempt(settings: FetchSettings, visit: Visit): nat -> Outcome<bool> {
    (k: nat) =>
      match Goto(visit.navigation(k), settings.waitSelector, settings.jsWaitMs, visit.settle(k), visit.heights(k))
      case None => Returned(false)
      case Some((ok, _)) => if ok then Returned(true) else Raised(NavigationFailed)
  }

  /** Some navigation attempt within `max_retries` succeeded, and every earlier one raised. */
  predicate Navigated(settings: FetchSettings, visit: Visit) {
    var n := Max(settings.maxRetries, 0); var k := FirstSuccess(NavigateAttempt(settings, visit), n);
    k < n && NavigateAttempt(settings, visit)(k).value
  }

  /** Some navigation attempt within `max_retries` never returns, and every earlier one raised. */
  predicate FetchHangs(settings: FetchSettings, visit: Visit) {
    var n := Max(settings.maxRetries, 0); var k := FirstSuccess(NavigateAttempt(settings, visit), n);
    k < n && !NavigateAttempt(settings, visit)(k).value
  }

  /** The message of the exception `retry_with_backoff` ends with when no attempt succeeded. */
  function NavigationError(settings: FetchSettings): string {
    if settings.maxRetries <= 0 then RaiseNoneMessage else NavigationFailed
  }

  /** The raw links made absolute against `url` and normalised. */
  function Normalizer(url: string, resolve: (string, string) -> string): string -> string {
    l => Resolved(l, url, resolve)
  }

  function Validator(baseDomain: string): string -> bool {
    x => IsValidUrl(x, baseDomain)
  }

  /** Where the screenshot of `url` goes: the directory joined with the crawler's file name. */
  function ScreenshotPath(dir: string, url: string, digest: string -> string): string {
    dir + "/" + CrawlerFilename(url, "png", digest)
  }

  /**
   * `_fetch_page(url, depth, page)`. `resolve` is `urljoin`, `digest` the MD5 hex digest,
   * `elapsedMs` the response time the source measures and `now` the creation time of the record.
   * None: the call never returns.
   */
  method FetchPage(url: string, depth: int, baseDomain: string, settings: FetchSettings, visit: Visit,
                   resolve: (string, string) -> string, digest: string -> string, elapsedMs: real, now: Timestamp)
    returns (page: Option<CrawledPage>)
    ensures page.None? <==> FetchHangs(settings, visit)
    ensures page.Some? ==>
      var p := page.value;
      && p.url == url && p.depth == depth && p.crawledAt == now && p.responseTimeMs == Some(elapsedMs)
      && (p.status == Success || p.status == Error || p.status == Timeout)
    ensures page.Some? ==> (page.value.status == Success <==> Navigated(settings, visit) && visit.extraction.Extracted?)
    ensures page.Some? && !Navigated(settings, visit) ==>
      page.value.status == Error && page.value.errorMessage == Some(NavigationError(settings))
    ensures page.Some? && Navigated(settings, visit) && visit.extraction.ExtractionTimedOut? ==>
      page.value.status == Timeout && page.value.errorMessage == Some(TimedOutMessage)
    ensures page.Some? && Navigated(settings, visit) && visit.extraction.ExtractionFailed? ==>
      page.value.status == Error && page.value.errorMessage == Some(visit.extraction.message)
    ensures page.Some? && page.value.status != Success ==>
      var p := page.value;
      p.html.None? && p.links == [] && p.statusCode.None? && p.screenshotPath.None?
    ensures page.Some? && page.value.status == Success ==>
      var c := visit.extraction.content; var p := page.value;
      && p.statusCode == Some(200) && p.contentType == Some("text/html")
      && p.html == Some(c.html) && p.text == Some(c.text) && p.title == Some(c.title)
      && p.errorMessage.None?
      && p.links == Dedup(Candidates(c.rawLinks, Normalizer(url, resolve), Validator(baseDomain)))
    ensures page.Some? ==> (page.value.screenshotPath.Some? <==>
      page.value.status == Success && settings.captureScreenshots && settings.screenshotDir.Some? && visit.screenshot.Completed?)
    ensures page.Some? && page.value.screenshotPath.Some? ==>
      page.value.screenshotPath.value == ScreenshotPath(settings.screenshotDir.value, url, digest)
  {
    var attempt := NavigateAttempt(settings, visit);
    var outcome, calls, sleeps := RetryWithBackoff(attempt, settings.maxRetries, BaseDelayMs, MaxDelayMs);
    if outcome.Err? {
      return Some(FailedPage(url, Error, depth, outcome.error, elapsedMs, now));
    }
    if !outcome.value {
      return None;
    }
    match visit.extraction
    case ExtractionTimedOut =>
      page := Some(FailedPage(url, Timeout, depth, TimedOutMessage, elapsedMs, now));
    case ExtractionFailed(message) =>
      page := Some(FailedPage(url, Error, depth, message, elapsedMs, now));
    case Extracted(c) =>
      var links := FilterLinks(c.rawLinks, Normalizer(url, resolve), Validator(baseDomain));
      var screenshotPath: Option<string> := None;
      if settings.captureScreenshots && settings.screenshotDir.Some? {
        var path := ScreenshotPath(settings.screenshotDir.value, url, digest);
        if CaptureScreenshot(visit.screenshot) {
          screenshotPath := Some(path);
        }
      }
      page := Some(CrawledPage(url, Success, Some(200), Some("text/html"), Some(c.html), Some(c.text), Some(c.title),
                               links, depth, now, None, Some(elapsedMs), screenshotPath));
  }

  /** An HTTP error on every attempt makes the page an ERROR page ("Navigation failed"), never NOT_FOUND. */
  lemma {:induction false} HttpErrorsFail(settings: FetchSettings, visit: Visit)
    requires forall k :: visit.navigation(k).Responded? && visit.navigation(k).response.Some? && visit.navigation(k).response.value >= 400
    ensures !Navigated(settings, visit)
  {
  }

  /**
   * One attempt whose response is below 400 and whose settle steps neither abort nor hang is enough,
   * provided it comes within `max_retries` and no earlier attempt hangs.
   */
  lemma {:induction false} GoodAttemptNavigates(settings: FetchSettings, visit: Visit, k: nat)
    requires k < settings.maxRetries
    requires Goto(visit.navigation(k), settings.waitSelector, settings.jsWaitMs, visit.settle(k), visit.heights(k)) == Some((true, SettlePlan(settings.waitSelector, settings.jsWaitMs)))
    requires forall j :: 0 <= j < k ==> !ScrollHangs(visit.heights(j))
    ensures Navigated(settings, visit)
  {
    var f := NavigateAttempt(settings, visit);
    assert f(k).Returned?;
  }

  /** A page whose scroll never ends hangs the fetch as soon as an attempt gets a good response and settles. */
  lemma {:induction false} EndlessScrollHangs(settings: FetchSettings, visit: Visit)
    requires settings.maxRetries > 0
    requires Reached(visit.navigation(0)) && ScrollHangs(visit.heights(0))
    requires var plan := SettlePlan(settings.waitSelector, settings.jsWaitMs);
      forall i :: 0 <= i < |plan| ==> !Aborts(plan[i], visit.settle(0)(plan[i]))
    ensures FetchHangs(settings, visit)
  {
    var f := NavigateAttempt(settings, visit);
    assert f(0) == Returned(false);
  }
}
