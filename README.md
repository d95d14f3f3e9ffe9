# web-scanner, modelled in Dafny

This project models the core of `web-scanner`, a Python tool that audits a website. The tool:

- crawls a site breadth-first, following same-host links up to a depth and a page budget, with a headless browser;
- saves each page's text to a file;
- runs three analyzers over what it found:
  - grammar (LanguageTool);
  - OCR of screenshots (Tesseract);
  - broken links (HTTP probes);
- optionally runs AI analyses through the OpenRouter chat API;
- writes a JSON report, a plain-text summary and a static HTML report.

The model has one Dafny module per part of the tool:

| module | file | part of the tool it models |
|---|---|---|
| `Models` | models.dfy | the records passed between stages |
| `Urls`, `UrlRoundTrip` | urls.dfy, url_roundtrip.dfy | `urlparse` and the crawler's URL normalisation |
| `CrawlerLinks` | crawler_links.dfy | URL validity, link filtering and the crawler's file names |
| `Fetch` | crawler_fetch.dfy | how a fetch attempt becomes a crawled page |
| `Crawler` | crawler.dfy | the crawl frontier: class `WebCrawler` with its queue, visited set and page list |
| `Browser` | browser.dfy | retry with back-off, the page loader's settle steps, the lazy-loading scroll |
| `Extractors` | extractors.dfy | the extractors' file names and the text file's header |
| `Grammar` | grammar.dfy | header stripping and match conversion |
| `Ocr` | ocr.dfy | the word filter, placeholder and encoding checks, and the threshold |
| `Links` | links.dfy | link classification, the probe cache and link selection |
| `AiClient` | ai_client.dfy | prompts, messages, mime types and response parsing |
| `AiAnalyzer` | ai_analyzer.dfy | answer-to-issue mapping, task selection and batch alignment |
| `Storage` | storage.dfy | folder names, the JSON documents and the text summary |
| `HtmlReport` | html_report.dfy | the HTML report's statistics, ordering and truncation |

Three further modules are helpers: `Common` (Option and Result), `Strings` (Python string operations) and `Json` (JSON values).

The model's conventions:

- **Objects the source updates in place are classes.** `WebCrawler`, `GrammarAnalyzer`, `OcrAnalyzer`, `LinkAnalyzer`, `OpenRouterClient` and `AiAnalyzer` are classes with `modifies` clauses.
- **Loops are methods with invariants**, each proved against a function that specifies it.
- **Pure decisions are functions.**
- **Outside code is a parameter.** This covers the browser, HTTP, LanguageTool, Tesseract, the JSON decoder, `urljoin`, MD5, clocks and number formatting. Each is an oracle argument or a recorded outcome.

## Model

| member | source | states |
|---|---|---|
| Models.NewPage | src/web_scanner/models.py:19-35 | a page built from a URL and a status has no links, depth 0 and every optional field None (the defaults tests/test_models.py:48-57 relies on) |
| Models.FailedPage | src/web_scanner/crawler/crawler.py:198-216 | a failed fetch keeps its depth, message and elapsed time; it has no HTML, text, links, screenshot or status code (tests/test_models.py:36-46) |
| Models.NewExtractedData | src/web_scanner/models.py:38-46 | extracted data starts with every path None and empty metadata |
| Models.NewAiPageAnalysis | src/web_scanner/ai/analyzer.py:45-58 | an AI result starts with empty issue and correction lists, no summaries or score, and only the errors given |
| Models.NewReport | src/web_scanner/models.py:127-140 | a report starts with zero counts, empty lists and no completion time |
| Urls.SplitScheme | src/web_scanner/crawler/crawler.py:54 | `urlsplit`'s scheme step: a scheme is found iff the input has one; it is the lower-cased text before a `:`, the rest follows that `:`; with no scheme the input is unchanged |
| Urls.SplitNetloc | src/web_scanner/crawler/crawler.py:54 | after `//`, the netloc runs up to the first `/`, `?` or `#` and contains none of them |
| Urls.SplitParams | src/web_scanner/crawler/crawler.py:54 | the path kept is a prefix of the original path (the params start at the first `;` of its last segment) |
| Urls.Parse | src/web_scanner/crawler/crawler.py:54 | `urlparse`: no component contains the delimiter that ends it |
| Urls.Host | src/web_scanner/crawler/crawler.py:39 | the host of a URL contains none of `/`, `?`, `#` |
| Urls.HostIsNetloc | src/web_scanner/crawler/crawler.py:39 | that host is exactly the netloc `urlparse` returns |
| Urls.FixedWithQuery | src/web_scanner/crawler/crawler.py:52-58 | a normalised URL with a non-empty query parses back to the same components |
| Urls.FixedWithoutQuery | src/web_scanner/crawler/crawler.py:52-58 | a normalised URL without a query parses back to the same components |
| Urls.BareSchemeFixed | src/web_scanner/crawler/crawler.py:52-58 | `scheme:` normalises to itself |
| Urls.NormalizeIdempotent | src/web_scanner/crawler/crawler.py:52-58 | normalising twice equals normalising once, given a scheme, no `;` in the path, and a query that is not all slashes |
| UrlRoundTrip.ParseUnsplit | src/web_scanner/crawler/crawler.py:54-58 | round trip: parsing the composition of well-formed components gives those components back |
| UrlRoundTrip.NormalizeUnsplit | src/web_scanner/crawler/crawler.py:52-58 | normalising a well-formed URL drops the fragment and params, then strips trailing slashes from the composition |
| UrlRoundTrip.NormalizeKeeps | src/web_scanner/crawler/crawler.py:52-58 | a well-formed, fragment-free URL whose composition does not end in `/` normalises to itself |
| UrlRoundTrip.NormalizeRootExample | tests/test_crawler.py:10-16 | `https://example.com/` normalises to `https://example.com` |
| UrlRoundTrip.NormalizeFragmentExample | tests/test_crawler.py:10-16 | `https://example.com/page#section` loses its fragment |
| UrlRoundTrip.NormalizeQueryExample | tests/test_crawler.py:10-16 | `https://example.com/page?q=1` keeps its query |
| UrlRoundTrip.SlashQueryNotIdempotent | src/web_scanner/crawler/crawler.py:54-58 | a query made only of slashes leaves a bare `?`, which a second pass removes, so normalisation is not idempotent |
| UrlRoundTrip.SlashQueryExample | src/web_scanner/crawler/crawler.py:54-58 | `http://h/p?/` is an instance of that case |
| UrlRoundTrip.ParamsNotIdempotent | src/web_scanner/crawler/crawler.py:54-58 | `http://h/a;x/` keeps `;x` on the first pass and loses it on the second |
| CrawlerLinks.IsValidUrl | src/web_scanner/crawler/crawler.py:60-86 | valid iff the netloc is the start host, the scheme is http or https, and the lower-cased path ends in no skipped extension; it never fails |
| CrawlerLinks.HttpsValidity | src/web_scanner/crawler/crawler.py:60-86 | for `https://host/path`, valid iff the host is the start host and the path has no skipped extension |
| CrawlerLinks.ValidPageExample | tests/test_crawler.py:18-24 | a page on the start host is valid |
| CrawlerLinks.ValidAboutExample | tests/test_crawler.py:18-24 | `/about` on the start host is valid |
| CrawlerLinks.OtherHostExample | tests/test_crawler.py:18-24 | a page on another host is not valid |
| CrawlerLinks.ResourceRefused | src/web_scanner/crawler/crawler.py:74-86 | a path ending in any skipped extension is refused on the start host |
| CrawlerLinks.ImageExample | tests/test_crawler.py:26-33 | an image URL is refused |
| CrawlerLinks.StyleExample | tests/test_crawler.py:26-33 | a style sheet URL is refused |
| CrawlerLinks.ScriptExample | tests/test_crawler.py:26-33 | a script URL is refused |
| CrawlerLinks.DocumentExample | tests/test_crawler.py:26-33 | a PDF URL is refused |
| CrawlerLinks.DedupMembers | src/web_scanner/crawler/crawler.py:104-115 | de-duplication keeps exactly the input's elements |
| CrawlerLinks.DedupDistinct | src/web_scanner/crawler/crawler.py:104-115 | no element occurs twice after de-duplication |
| CrawlerLinks.DedupFirstOrder | src/web_scanner/crawler/crawler.py:104-115 | elements keep the order of their first occurrence |
| CrawlerLinks.CandidateMembers | src/web_scanner/crawler/crawler.py:104-115 | a URL is a candidate iff it is the normalised image of some raw link and is valid |
| CrawlerLinks.FilterLinks | src/web_scanner/crawler/crawler.py:104-115 | the filter loop returns exactly the de-duplicated valid normalised links |
| CrawlerLinks.FilteredLinks | src/web_scanner/crawler/crawler.py:104-115 | the filtered links have no duplicates, are exactly the kept images of the raw links, and follow first occurrence |
| CrawlerLinks.PathStem | src/web_scanner/crawler/crawler.py:90-94 | the path with outer `/` stripped, `index` when nothing is left, and no `/`, `?` or `&` remaining; otherwise the same length |
| CrawlerLinks.FilenameOf | src/web_scanner/crawler/crawler.py:90-102 | the name starts with the path stem and ends with `.` and the extension |
| CrawlerLinks.CrawlerFilename | src/web_scanner/crawler/crawler.py:88-102 | the crawler's file name for a URL is the file name of its parsed path and query, ending in `.` and the extension |
| Fetch.FetchPage | src/web_scanner/crawler/crawler.py:117-216 | never returns exactly when the first attempt that does not raise gets stuck in the lazy-loading scroll; otherwise a fetch yields SUCCESS, ERROR or TIMEOUT only; SUCCESS carries 200, `text/html` and the filtered links; HTTP errors give ERROR "Navigation failed"; the screenshot path is set only when the capture succeeded |
| Fetch.HttpErrorsFail | src/web_scanner/crawler/crawler.py:136-160 | an HTTP error on every attempt gives an ERROR page, never NOT_FOUND |
| Fetch.GoodAttemptNavigates | src/web_scanner/crawler/crawler.py:136-196 | one attempt below 400 whose settle steps complete, within the retry budget and after no stuck scroll, is enough to navigate |
| Fetch.EndlessScrollHangs | src/web_scanner/browser.py:192-211 | a first attempt that settles on a page of positive height with a viewport under 2 pixels makes the fetch hang |
| Crawler.NewEntriesMeans | src/web_scanner/crawler/crawler.py:241-244 | the queued entries are exactly the unvisited links, in order, one level deeper |
| Crawler.SeedKeeps | src/web_scanner/crawler/crawler.py:264 | queueing the base URL at depth 0 keeps the crawl invariant |
| Crawler.DiscardKeeps | src/web_scanner/crawler/crawler.py:226-228 | dropping a visited or over-budget entry keeps the invariant |
| Crawler.FetchKeeps | src/web_scanner/crawler/crawler.py:230-246 | crawling an entry and queueing its new links keeps the invariant: distinct URLs, the visited set equals the crawled URLs, and provenance holds |
| Crawler.DepthInRange | src/web_scanner/crawler/crawler.py:241-244 | every page's depth is between 0 and the depth limit |
| Crawler.PagesReachable | src/web_scanner/crawler/crawler.py:241-244 | every page is the base URL at depth 0 or a link of an earlier SUCCESS page one level up |
| Crawler.PagesValid | src/web_scanner/crawler/crawler.py:241-244 | when every fetched page kept its promises, every page other than the base URL has a URL valid for the start host |
| Crawler.SeedOrder | src/web_scanner/crawler/crawler.py:264 | with nothing crawled, the queue holds only the base URL at depth 0, which is in breadth-first order |
| Crawler.SkipOrder | src/web_scanner/crawler/crawler.py:226-228 | dropping the head entry keeps breadth-first order |
| Crawler.CrawlOrder | src/web_scanner/crawler/crawler.py:230-246 | crawling the head entry keeps breadth-first order: page depths never decrease and the queue spans at most two levels |
| Crawler.AppendOrder | src/web_scanner/crawler/crawler.py:238-244 | a page as deep as the head entry, with its links one level deeper behind the queue, keeps breadth-first order |
| Crawler.FetchedSinceAppend | src/web_scanner/crawler/crawler.py:237-238 | appending a page whose fetch returned and kept its promises keeps every newly crawled page so |
| Crawler.QueueLevelsAppend | src/web_scanner/crawler/crawler.py:238-244 | dropping the head entry and queueing entries one level below it keeps the queue sorted by depth within two levels |
| Crawler.DepthsSortedAppend | src/web_scanner/crawler/crawler.py:238 | appending a page no shallower than the last one keeps page depths sorted |
| Crawler.DrainedState | src/web_scanner/crawler/crawler.py:276-294 | once the queue is drained: distinct page URLs, the visited set equals the crawled URLs, every link of a page that spawns is visited while the budget lasts, the first page is the base URL at depth 0, and, from a fresh start, every later page has a URL valid for the start host |
| Crawler.WebCrawler.constructor | src/web_scanner/crawler/crawler.py:29-50 | trailing slashes stripped from the base URL, the host taken from it (the `urlparse` netloc, by `Urls.HostIsNetloc`), and 0 replaced by the defaults through `or` |
| Crawler.WebCrawler.QueueLinks | src/web_scanner/crawler/crawler.py:241-244 | appends exactly the unvisited links at the next depth, one task each |
| Crawler.WebCrawler.SkipHead | src/web_scanner/crawler/crawler.py:226-228 | drops the head entry and marks its task done, changing nothing else |
| Crawler.WebCrawler.FetchEntry | src/web_scanner/crawler/crawler.py:237 | never returns iff the fetch of the entry hangs; otherwise the entry's page, SUCCESS, ERROR or TIMEOUT, whose links are valid for the start host when it is SUCCESS |
| Crawler.WebCrawler.CrawlHead | src/web_scanner/crawler/crawler.py:230-246 | when the fetch never returns, the worker blocks with the URL visited, the entry taken and its task open; otherwise the URL is visited, its page appended and kept to its promises, its new links queued when it is SUCCESS and shallow enough, and `task_done` called |
| Crawler.WebCrawler.RecordHead | src/web_scanner/crawler/crawler.py:230-246 | marks the URL visited, appends the page, queues the page's new links when it is SUCCESS and shallow enough, and calls `task_done` |
| Crawler.WebCrawler.ProcessNext | src/web_scanner/crawler/crawler.py:218-246 | one pass of the worker: skip the head entry, or crawl it and block when its fetch never returns, keeping the invariant otherwise |
| Crawler.WebCrawler.Seed | src/web_scanner/crawler/crawler.py:264 | puts the base URL at depth 0 on the queue with one open task, keeping the invariant, and with nothing crawled the queue is in breadth-first order |
| Crawler.WebCrawler.RunWorkers | src/web_scanner/crawler/crawler.py:270-278 | runs worker passes until `join` returns with an empty queue or a fetch never returns (that entry's URL visited, not crawled); earlier pages are kept, every new page was fetched and kept its promises, and from a fresh start the depths are sorted |
| Crawler.WebCrawler.Crawl | src/web_scanner/crawler/crawler.py:248-294 | never returns iff some fetch hangs, with that URL visited and not crawled; otherwise ends with an empty queue and no open tasks; at most `max_pages` pages with distinct URLs; visited equals the crawled URLs; every new page is SUCCESS, ERROR or TIMEOUT and came from a fetch that returned; from a fresh start the first page is the base URL at depth 0, every later page has a valid URL, and depths never decrease |
| Browser.Delays | src/web_scanner/browser.py:285-293 | sleep `k` is `min(base * 2^k, max_delay)` |
| Browser.FirstSuccess | src/web_scanner/browser.py:280-282 | the first attempt that returns, or the number of attempts when all raise |
| Browser.RetryWithBackoff | src/web_scanner/browser.py:271-295 | calls at most `max_retries` times; returns the first success; sleeps only between attempts; re-raises the last failure, or raises `None` when there were no attempts |
| Browser.FirstSuccessStable | src/web_scanner/browser.py:280-282 | once a call has returned, raising the retry limit finds the same success |
| Browser.FailFailSucceed | src/web_scanner/browser.py:280-293 | fail, fail, succeed sleeps `base` and then `2*base` |
| Browser.DelaysCappedAndGrowing | src/web_scanner/browser.py:286 | no sleep exceeds `max_delay`, and the sleeps never shrink |
| Browser.SettlePlan | src/web_scanner/browser.py:165-190 | the selector wait (only with a selector), the network-idle wait, the fixed wait, then the scroll |
| Browser.RunSteps | src/web_scanner/browser.py:165-190 | runs the steps in order and stops after the first one that raises |
| Browser.Goto | src/web_scanner/browser.py:114-163 | never returns iff a response came with status below 400, the settle steps completed and the scroll loop cannot advance; otherwise true iff a response came with status below 400 and the settle steps completed |
| Browser.CaptureScreenshot | src/web_scanner/browser.py:253-268 | true iff the screenshot call did not raise |
| Browser.TriggerLazyLoading | src/web_scanner/browser.py:192-211 | scrolls to `step, 2*step, ...` until reaching the height, then back to 0; with a zero step on a page of positive height it reports the endless loop |
| Browser.ScrollFromShape | src/web_scanner/browser.py:199-204 | the positions strictly increase, are the multiples of the step, and stop at the first one at or past the height |
| Extractors.SafeName | src/web_scanner/extractors/base.py:45-46 | same length; every character is safe; safe characters are kept |
| Extractors.SafeNameKeepsSafe | src/web_scanner/extractors/base.py:45-46 | an already-safe name is unchanged |
| Extractors.PathName | src/web_scanner/extractors/base.py:34 | outer `/` stripped, inner `/` made `_`, `index` when empty |
| Extractors.QueryName | src/web_scanner/extractors/base.py:37 | `&` becomes `_` and `=` becomes `-`, nothing else changes |
| Extractors.Stem | src/web_scanner/extractors/base.py:36-46 | a non-empty stem of at most 200 safe characters, matching the raw stem position by position |
| Extractors.FileName | src/web_scanner/extractors/base.py:29-48 | the stem, a dot, then the extension |
| Extractors.FileNameSplits | src/web_scanner/extractors/base.py:48 | the first dot ends the stem and everything after it is the extension |
| Extractors.FileNameChars | src/web_scanner/extractors/base.py:45-48 | only safe characters, the dot and the extension's own characters appear |
| Extractors.UrlToFilenameShape | src/web_scanner/extractors/base.py:29-48 | for any URL: at most 200 safe characters, a dot, the extension |
| Extractors.UrlToFilenameChars | src/web_scanner/extractors/base.py:45-48 | no space survives (tests/test_extractors.py:52-58) |
| Extractors.AboutUrl | tests/test_extractors.py:19-24 | `https://example.com/about` gives `about.html` |
| Extractors.RootUrl | tests/test_extractors.py:26-31 | `https://example.com/` gives `index.html` |
| Extractors.BareUrl | tests/test_extractors.py:33-34 | `https://example.com` gives `index.html` |
| Extractors.NestedUrl | tests/test_extractors.py:36-41 | `/blog/post/123` gives `blog_post_123.txt` |
| Extractors.QueryUrl | tests/test_extractors.py:43-50 | `/search?q=test&page=1` gives `search_q-test_page-1.html` |
| Extractors.ExtractText | src/web_scanner/extractors/text_extractor.py:20-46 | None unless the page succeeded with non-empty text; otherwise the `URL`, optional `Title`, and `Crawled at` header, 80 dashes, a blank line and the text, under the text directory's file name |
| Grammar.StripHeader | src/web_scanner/analyzers/grammar_analyzer.py:59-63 | unchanged when the content holds no run of 80 dashes; otherwise shorter by at least the run (what follows the first run, stripped) |
| Grammar.HeaderRoundTrip | src/web_scanner/analyzers/grammar_analyzer.py:59-63 | the header the text extractor writes is stripped back to `text.strip()` when the URL, title and timestamp hold no dash run |
| Grammar.ExtractedTextRoundTrip | src/web_scanner/extractors/text_extractor.py:31-36 | the same round trip, stated on the file the extractor writes |
| Grammar.DashUrlBreaksRoundTrip | src/web_scanner/analyzers/grammar_analyzer.py:61-63 | with a URL that is itself a run of 80 dashes, the strip stops inside the header and the round trip fails |
| Grammar.Context | src/web_scanner/analyzers/grammar_analyzer.py:75-77 | a substring of the content, at most `length + 40` characters long, holding the error span when that lies inside the content, and exactly `length + 40` long away from the edges |
| Grammar.Suggestions | src/web_scanner/analyzers/grammar_analyzer.py:82 | the first five replacements, or none |
| Grammar.ToIssue | src/web_scanner/analyzers/grammar_analyzer.py:79-87 | message, offset, length, rule and category copied from the match |
| Grammar.IssuesOfAppend | src/web_scanner/analyzers/grammar_analyzer.py:70-88 | the issues of two runs of matches are the issues of each, in order |
| Grammar.IssuesOfOne | src/web_scanner/analyzers/grammar_analyzer.py:72-88 | a noisy match gives nothing; any other match gives exactly its own issue |
| Grammar.IssuesFromKeptMatches | src/web_scanner/analyzers/grammar_analyzer.py:70-88 | no issue comes from a noisy rule, and every issue is some match's issue |
| Grammar.KeptMatchesReported | src/web_scanner/analyzers/grammar_analyzer.py:70-88 | every match with a rule that is not noisy is reported |
| Grammar.ConvertMatches | src/web_scanner/analyzers/grammar_analyzer.py:69-88 | the loop returns the issues of the matches, in match order |
| Grammar.GrammarAnalyzer.Start | src/web_scanner/analyzers/grammar_analyzer.py:23-29 | creates the tool only when there is none |
| Grammar.GrammarAnalyzer.Stop | src/web_scanner/analyzers/grammar_analyzer.py:36-41 | closes and forgets the tool |
| Grammar.GrammarAnalyzer.Analyze | src/web_scanner/analyzers/grammar_analyzer.py:43-100 | fails when the tool cannot be created; otherwise the issues of the stripped file content, or none when reading or checking fails |
| Grammar.GrammarAnalyzer.AnalyzeText | src/web_scanner/analyzers/grammar_analyzer.py:102-149 | fails when the tool cannot be created; otherwise the issues of the raw text with no header strip, or none when checking fails |
| Ocr.KeptWords | src/web_scanner/analyzers/ocr_analyzer.py:55-59 | the words that are not blank and have positive confidence, in order |
| Ocr.KeptWordsComplete | src/web_scanner/analyzers/ocr_analyzer.py:55-59 | every word that passes the filter is kept |
| Ocr.KeptWordsSound | src/web_scanner/analyzers/ocr_analyzer.py:55-59 | every kept pair is one of the input pairs |
| Ocr.ExtractedBounds | src/web_scanner/analyzers/ocr_analyzer.py:61-64 | empty text iff confidence 0; confidence never negative; at most 1 when confidences are percentages |
| Ocr.ExtractText | src/web_scanner/analyzers/ocr_analyzer.py:32-68 | computes `Extracted`: the kept words joined by spaces and their mean confidence over 100; empty and 0 when the data is missing or a confidence is missing |
| Ocr.KeepWords | src/web_scanner/analyzers/ocr_analyzer.py:51-58 | the loop keeps exactly `KeptWords`, the non-blank words with a positive confidence, in order, and sums their confidences |
| Ocr.PlaceholderIssuesMeans | src/web_scanner/analyzers/ocr_analyzer.py:135-157 | a placeholder is reported exactly when the lower-cased text shows it, in list order, and nothing else is reported |
| Ocr.FirstMark | src/web_scanner/analyzers/ocr_analyzer.py:160-172 | the first listed encoding mark found in the text, case-sensitive |
| Ocr.FirstMarkIsFirst | src/web_scanner/analyzers/ocr_analyzer.py:160-172 | the mark found precedes every other mark that occurs |
| Ocr.FirstMarkAt | src/web_scanner/analyzers/ocr_analyzer.py:160-172 | a mark that occurs, with no earlier mark occurring, is the one reported |
| Ocr.NoMark | src/web_scanner/analyzers/ocr_analyzer.py:160-172 | a text holding none of the marks gets no encoding mark |
| Ocr.LongMarksNeverReported | src/web_scanner/analyzers/ocr_analyzer.py:160 | `â€™` and `â€œ` are never the mark reported |
| Ocr.EncodingIssues | src/web_scanner/analyzers/ocr_analyzer.py:160-172 | at most one encoding issue |
| Ocr.VisualIssues | src/web_scanner/analyzers/ocr_analyzer.py:130-174 | the placeholder issues, then at most one encoding issue: at most nine in all |
| Ocr.FinanceShowsNaN | src/web_scanner/analyzers/ocr_analyzer.py:143-148 | the case-insensitive check flags the ordinary word `finance` as the `NaN` placeholder |
| Ocr.CheckVisualTextIssues | src/web_scanner/analyzers/ocr_analyzer.py:130-174 | the two loops return exactly the visual issues |
| Ocr.GrammarOcrIssues | src/web_scanner/analyzers/ocr_analyzer.py:104-112 | each grammar issue becomes one `grammar` issue carrying its context and the OCR confidence |
| Ocr.ToOcrIssues | src/web_scanner/analyzers/ocr_analyzer.py:104-112 | the loop returns exactly `GrammarOcrIssues`: one `grammar` issue per grammar issue, in order |
| Ocr.ScreenshotIssuesShape | src/web_scanner/analyzers/ocr_analyzer.py:91-116 | no issues unless text was found with confidence at least 0.3; grammar issues come first, then at most nine visual ones |
| Ocr.VisualNotGrammar | src/web_scanner/analyzers/ocr_analyzer.py:130-174 | no visual issue has type `grammar` |
| Ocr.BatchAppend | src/web_scanner/analyzers/ocr_analyzer.py:176-185 | a batch is the per-screenshot analyses concatenated in path order |
| Ocr.OcrAnalyzer.Start | src/web_scanner/analyzers/ocr_analyzer.py:24-26 | starts the grammar analyzer |
| Ocr.OcrAnalyzer.Analyze | src/web_scanner/analyzers/ocr_analyzer.py:70-128 | fails when the grammar tool cannot be created; otherwise the screenshot's issues from the recognised text and confidence |
| Ocr.OcrAnalyzer.AnalyzeBatch | src/web_scanner/analyzers/ocr_analyzer.py:176-185 | the per-path issues concatenated |
| Links.ProbeOfResponse | src/web_scanner/analyzers/link_analyzer.py:52-68 | a response gives its status; each failure kind gives its fixed message |
| Links.ProbeOf | src/web_scanner/analyzers/link_analyzer.py:52-59 | any HEAD answer other than 405 is the answer; a 405 is replaced by the GET answer, so 405 is reported only when the GET also said 405 |
| Links.Classify | src/web_scanner/analyzers/link_analyzer.py:130-168 | an error message gives `connection_error`; 404, 403, 401 and 500 or more give their types and messages; anything else gives no issue |
| Links.StatusKinds | src/web_scanner/analyzers/link_analyzer.py:141-158 | the issue kind each status code gives when no message came with it |
| Links.NoAnswerNoIssue | src/web_scanner/analyzers/link_analyzer.py:138-168 | no status and no message gives no issue |
| Links.ResponseIssues | src/web_scanner/analyzers/link_analyzer.py:52-168 | every failed request is a connection error; every status is judged on its own |
| Links.LinkIssues | src/web_scanner/analyzers/link_analyzer.py:105-128 | at most one issue per link, in link order |
| Links.LinkIssuesFrom | src/web_scanner/analyzers/link_analyzer.py:112-126 | each issue names the page and one of its checked links |
| Links.BrokenLinksReported | src/web_scanner/analyzers/link_analyzer.py:112-126 | every checked broken link is reported |
| Links.LinkIssuesPrefix | src/web_scanner/analyzers/link_analyzer.py:112-126 | the issues of the first links are a prefix of the issues of all of them: checking more links never drops an issue |
| Links.SuccessDomainsMeans | src/web_scanner/analyzers/link_analyzer.py:86-92 | exactly the hosts of the SUCCESS pages |
| Links.CollectDomains | src/web_scanner/analyzers/link_analyzer.py:86-92 | the loop collects exactly the hosts of the SUCCESS pages |
| Links.SiteIssuesFrom | src/web_scanner/analyzers/link_analyzer.py:73-103 | every issue comes from a SUCCESS page and names one of its links |
| Links.LinkAnalyzer.constructor | src/web_scanner/analyzers/link_analyzer.py:19-23 | `check_external` when given, the default otherwise; no client and an empty cache |
| Links.LinkAnalyzer.Start | src/web_scanner/analyzers/link_analyzer.py:25-32 | opens a client only when there is none |
| Links.LinkAnalyzer.Stop | src/web_scanner/analyzers/link_analyzer.py:34-38 | closes and forgets the client |
| Links.LinkAnalyzer.CheckUrl | src/web_scanner/analyzers/link_analyzer.py:40-71 | a cached URL gets its stored answer and no request; any other is probed and its answer stored |
| Links.LinkAnalyzer.CheckLink | src/web_scanner/analyzers/link_analyzer.py:130-168 | the classification of the URL's answer |
| Links.LinkAnalyzer.AnalyzePageLinks | src/web_scanner/analyzers/link_analyzer.py:105-128 | checks the internal links, or all links when external ones are checked, and returns their issues in order |
| Links.LinkAnalyzer.Analyze | src/web_scanner/analyzers/link_analyzer.py:73-103 | the SUCCESS hosts, then each SUCCESS page with links in page order |
| Links.LinkAnalyzer.AnalyzeSinglePage | src/web_scanner/analyzers/link_analyzer.py:170-178 | nothing for a page that failed or has no links; otherwise its own host is the only internal one |
| Links.SinglePageIsSite | src/web_scanner/analyzers/link_analyzer.py:170-178 | one page analysed alone is a crawl of that page alone |
| AiClient.PromptFor | src/web_scanner/ai/client.py:302-359 | the prompt for a known analysis type; the general prompt otherwise |
| AiClient.TextSystemPrompt | src/web_scanner/ai/client.py:108-111 | a non-empty custom prompt wins; otherwise the prompt of the analysis type |
| AiClient.TextMessage | src/web_scanner/ai/client.py:113-116 | the intro, then at most the first 15000 characters of the text |
| AiClient.UrlContext | src/web_scanner/ai/client.py:166 | a `URL:` line only for a non-empty URL |
| AiClient.HtmlMessage | src/web_scanner/ai/client.py:166-170 | the optional URL line, the intro, then at most 20000 characters of HTML |
| AiClient.ImageMessage | src/web_scanner/ai/client.py:282-288 | the `Page URL:` line only for a non-empty URL, then the fixed request |
| AiClient.BaseName | src/web_scanner/ai/client.py:200 | the last `/`-separated component |
| AiClient.Suffix | src/web_scanner/ai/client.py:200 | from the last dot of the name, unless that dot starts or ends it |
| AiClient.MimeType | src/web_scanner/ai/client.py:199-207 | png, jpg and jpeg, gif, webp by the lower-cased suffix; `image/png` otherwise |
| AiClient.SuffixOfName | src/web_scanner/ai/client.py:200 | `dir/stem.ext` has suffix `.ext` |
| AiClient.UpperCaseSuffix | src/web_scanner/ai/client.py:200-207 | `shot.JPG` is sent as JPEG |
| AiClient.HiddenFileHasNoSuffix | src/web_scanner/ai/client.py:200-207 | a name whose only dot comes first is sent as PNG |
| AiClient.Candidate | src/web_scanner/ai/client.py:371 | the match of `\{[\s\S]*\}` |
| AiClient.CandidateExists | src/web_scanner/ai/client.py:371-372 | a candidate exists iff some `{` precedes some `}` |
| AiClient.CandidateIsOutermost | src/web_scanner/ai/client.py:371 | the candidate runs from the first `{` to the last `}`, inclusive |
| AiClient.ParseCompletion | src/web_scanner/ai/client.py:364-383 | the parsed candidate when it parses; otherwise empty issues with the text as summary and raw response |
| AiClient.NoChoices | src/web_scanner/ai/client.py:384-386 | a reply without `choices` gives the error dict of the `KeyError` |
| AiClient.EmptyChoices | src/web_scanner/ai/client.py:384-386 | an empty `choices` list gives the error dict of the `IndexError` |
| AiClient.NullContentRaises | src/web_scanner/ai/client.py:364-371 | a `null` content is not caught: the search raises |
| AiClient.ParsedIsObject | src/web_scanner/ai/client.py:361-386 | every answer returned is a dict |
| AiClient.RawAnswerShape | src/web_scanner/ai/client.py:379-383 | an answer without usable JSON carries empty issues and the text as its summary |
| AiClient.Answer | src/web_scanner/ai/client.py:76-89 | a failed request passes its error on; a reply is handed to the response parser, as `analyze_text` does at lines 118-119 |
| AiClient.OpenRouterClient.Init | src/web_scanner/ai/client.py:20-29 | the key, models and an unopened client |
| AiClient.OpenRouterClient.Create | src/web_scanner/ai/client.py:20-35 | fails with `ValueError` iff the key is empty |
| AiClient.OpenRouterClient.Start | src/web_scanner/ai/client.py:37-49 | opens a client only when there is none |
| AiClient.OpenRouterClient.Stop | src/web_scanner/ai/client.py:51-56 | closes and forgets the client |
| AiClient.OpenRouterClient.MakeRequest | src/web_scanner/ai/client.py:58-89 | opens the client if needed, then posts the payload |
| AiClient.TextRequest | src/web_scanner/ai/client.py:108-118 | the default model, the system prompt and the text message |
| AiClient.OpenRouterClient.AnalyzeText | src/web_scanner/ai/client.py:91-119 | posts the text request and parses the answer |
| AiClient.HtmlRequest | src/web_scanner/ai/client.py:166-172 | the default model, the HTML prompt and the HTML message |
| AiClient.OpenRouterClient.AnalyzeHtml | src/web_scanner/ai/client.py:121-173 | posts the HTML request and parses the answer |
| AiClient.ImageRequest | src/web_scanner/ai/client.py:282-299 | the vision model, the text part, then the inline image with its mime type |
| AiClient.OpenRouterClient.AnalyzeImage | src/web_scanner/ai/client.py:175-300 | a missing file gives the not-found dict and posts nothing; otherwise posts the image request |
| AiAnalyzer.IssueOf | src/web_scanner/ai/analyzer.py:214-226 | severity `info`, the source's category and an empty description by default; the source URL and type set |
| AiAnalyzer.CorrectionOf | src/web_scanner/ai/analyzer.py:304-313 | empty original, correction and explanation by default |
| AiAnalyzer.Elements | src/web_scanner/ai/analyzer.py:215 | what a `for` loop over the answer's value meets |
| AiAnalyzer.Convert | src/web_scanner/ai/analyzer.py:215-226 | converts in order and stops at the first failure |
| AiAnalyzer.ConvertStops | src/web_scanner/ai/analyzer.py:215-226 | after a failure, later elements change nothing |
| AiAnalyzer.ConvertAll | src/web_scanner/ai/analyzer.py:215-226 | all elements convert iff no failure is met, then one value each, in order |
| AiAnalyzer.VisualSummary | src/web_scanner/ai/analyzer.py:316-320 | a dict summary becomes its `overall_quality`, or its `str()` without one; any other value is kept |
| AiAnalyzer.AnalyzedAppends | src/web_scanner/ai/analyzer.py:203-334 | an analysis only appends, to its own list, to the corrections (screenshots only) and to the errors, which gain one entry with the analysis's prefix on failure |
| AiAnalyzer.DictsBecomeIssues | src/web_scanner/ai/analyzer.py:214-226 | a list of dicts gives one issue per dict, in order, and no error |
| AiAnalyzer.EmptyIssueDefaults | src/web_scanner/ai/analyzer.py:216-225 | an empty issue dict takes every default |
| AiAnalyzer.ConvertLoop | src/web_scanner/ai/analyzer.py:215-226 | the append loop computes `Convert` |
| AiAnalyzer.RecordAnalysis | src/web_scanner/ai/analyzer.py:203-334 | records one answer on the page's result as `Analyzed` says |
| AiAnalyzer.ScreenshotOf | src/web_scanner/ai/analyzer.py:134-138 | the extracted screenshot whenever there is one, even an empty path, else the page's own when it is a non-empty string |
| AiAnalyzer.Tasks | src/web_scanner/ai/analyzer.py:123-141 | text if enabled and non-empty, HTML likewise, screenshot if enabled and present, in that order |
| AiAnalyzer.ErrorsPerTask | src/web_scanner/ai/analyzer.py:143-147 | a page never carries more errors than analyses |
| AiAnalyzer.RunLoop | src/web_scanner/ai/analyzer.py:143-147 | the scheduled analyses run in order on one shared result |
| AiAnalyzer.ByUrl | src/web_scanner/ai/analyzer.py:169-172 | each URL maps to the last entry that carries it |
| AiAnalyzer.ByUrlLastWins | src/web_scanner/ai/analyzer.py:169-172 | a later entry overwrites an earlier one with the same URL |
| AiAnalyzer.BatchEntry | src/web_scanner/ai/analyzer.py:186-199 | the page's analysis, or a result holding only the exception's message |
| AiAnalyzer.AiAnalyzer.Start | src/web_scanner/ai/analyzer.py:81-90 | creates the client once; creation fails on an empty key |
| AiAnalyzer.AiAnalyzer.Stop | src/web_scanner/ai/analyzer.py:92-97 | stops and forgets the client |
| AiAnalyzer.AiAnalyzer.Analyze | src/web_scanner/ai/analyzer.py:99-103 | always reports nothing |
| AiAnalyzer.AiAnalyzer.AnalyzePage | src/web_scanner/ai/analyzer.py:105-147 | starts the client, then runs the selected analyses on one result |
| AiAnalyzer.AiAnalyzer.ExtractedMap | src/web_scanner/ai/analyzer.py:169-172 | the loop builds `ByUrl` |
| AiAnalyzer.AiAnalyzer.AnalyzeBatch | src/web_scanner/ai/analyzer.py:149-201 | fails when the client cannot start; otherwise one result per page, in page order, with the last extracted entry for its URL |
| AiAnalyzer.BatchAligned | src/web_scanner/ai/analyzer.py:186-201 | result `i` belongs to page `i` |
| Storage.SanitizeDomain | src/web_scanner/storage/manager.py:33-35 | same length; no `:`, `/` or `.` remains; other characters are kept |
| Storage.SanitizeIdempotent | src/web_scanner/storage/manager.py:33-35 | sanitising twice changes nothing more |
| Storage.FolderName | src/web_scanner/storage/manager.py:25-26 | the sanitised domain, `_`, then the timestamp |
| Storage.NewLayout | src/web_scanner/storage/manager.py:20-31 | the domain is the URL's netloc; the output directory is the folder under the given root (or the default); the report directory is the folder under the reports root |
| Storage.Directories | src/web_scanner/storage/manager.py:37-49 | six directories: the output root first, four directories inside it, the report directory last |
| Storage.MetadataOf | src/web_scanner/storage/manager.py:61-90 | `total_pages` is the page count; one record per page, in order, with `links_count` the number of links |
| Storage.IndexOf | src/web_scanner/storage/manager.py:92-116 | one record per entry, in order |
| Storage.DocumentOf | src/web_scanner/storage/manager.py:118-165 | each summary count is the length of the list it counts |
| Storage.SummaryHead | src/web_scanner/storage/manager.py:181-199 | the title block and counts: 17 lines |
| Storage.SummaryCountsAgree | src/web_scanner/storage/manager.py:124-131 | the summary's counts are the JSON report's counts |
| Storage.GrammarEntries | src/web_scanner/storage/manager.py:205-213 | one four-line entry per issue, numbered from 1 and headed by its message |
| Storage.LinkEntries | src/web_scanner/storage/manager.py:221-229 | one four-line entry per link issue, headed by its target |
| Storage.OcrEntries | src/web_scanner/storage/manager.py:237-244 | one four-line entry per OCR issue, headed by its type |
| Storage.FlattenFours | src/web_scanner/storage/manager.py:205-246 | four-line entries take four lines each; entry `k` starts at line `4k` |
| Storage.Shown | src/web_scanner/storage/manager.py:205 | the first 20 entries (the grammar section; lines 221 and 237 do the same for links and OCR) |
| Storage.Trailer | src/web_scanner/storage/manager.py:214-215 | the "more" line iff some entries were left out, then a blank line unless the section is the last (lines 230-231 and 245-246 repeat it for links and OCR) |
| Storage.SectionPresent | src/web_scanner/storage/manager.py:201-204 | a section is present iff it has entries, and then it starts with its title |
| Storage.SectionEntries | src/web_scanner/storage/manager.py:205-213 | listed entry `k` occupies lines `2 + 4k` to `5 + 4k` |
| Storage.SectionMore | src/web_scanner/storage/manager.py:214-215 | the line after 20 entries says how many more, iff there are more |
| Storage.SectionNumbered | src/web_scanner/storage/manager.py:201-246 | a section of numbered entries has the shape above |
| Storage.GrammarSectionShape | src/web_scanner/storage/manager.py:201-215 | present iff there are grammar issues; first 20 numbered from 1; "... and N more issues" iff more than 20 |
| Storage.LinkSectionShape | src/web_scanner/storage/manager.py:217-231 | the same for broken links |
| Storage.OcrSectionShape | src/web_scanner/storage/manager.py:233-246 | the same for OCR issues; it ends the summary |
| Storage.ExtendEntries | src/web_scanner/storage/manager.py:205-213 | the loop appends the listed entries one after another |
| Storage.ExtendSection | src/web_scanner/storage/manager.py:201-215 | appends one whole section |
| Storage.HumanReadableSummary | src/web_scanner/storage/manager.py:179-249 | the summary's lines, and the text written, which joins them with newlines |
| HtmlReport.TotalIssues | src/web_scanner/storage/html_report.py:14-18 | 0 iff the three lists are empty; each list's length is at most the total |
| HtmlReport.TotalAgreesWithSummary | src/web_scanner/storage/html_report.py:14-18 | the total is the sum of the three counts in the JSON report |
| HtmlReport.AllIssues | src/web_scanner/storage/html_report.py:31-33 | every page's AI issues, page after page |
| HtmlReport.CollectIssues | src/web_scanner/storage/html_report.py:31-33 | the gathering loop computes `AllIssues`; its length is the text + HTML + visual total |
| HtmlReport.CountsAddUp | src/web_scanner/storage/html_report.py:24-33 | the AI total is the number of issues the severity counts range over |
| HtmlReport.CountSeverity | src/web_scanner/storage/html_report.py:34-36 | counts the issues whose severity is exactly that string; never more than the issues |
| HtmlReport.Rank | src/web_scanner/storage/html_report.py:596 | critical 0, warning 1, info 2, anything else 3 |
| HtmlReport.OfRank | src/web_scanner/storage/html_report.py:596 | the issues of one rank, in order |
| HtmlReport.SortedByRank | src/web_scanner/storage/html_report.py:596 | the sorted issues never go down in rank |
| HtmlReport.SortIsStable | src/web_scanner/storage/html_report.py:596 | issues of equal rank keep their relative order |
| HtmlReport.SortIsPermutation | src/web_scanner/storage/html_report.py:596 | the sort is a permutation of the issues |
| HtmlReport.CountIsRankBlock | src/web_scanner/storage/html_report.py:34-36 | each severity count is the size of its rank block, the block the sort at line 596 puts in order |
| HtmlReport.SeveritiesPartition | src/web_scanner/storage/html_report.py:34-36 | the three counts plus the issues of other severities make all issues |
| HtmlReport.Scores | src/web_scanner/storage/html_report.py:39 | no score kept is None; none at all iff every page's score is None |
| HtmlReport.SumScores | src/web_scanner/storage/html_report.py:40 | the sum, defined iff every score is a number |
| HtmlReport.MeanScore | src/web_scanner/storage/html_report.py:40 | fails iff the sum fails; None iff there are no scores; otherwise mean times count is the sum |
| HtmlReport.ScoresInRange | src/web_scanner/storage/html_report.py:39 | scores from pages on the 0 to 10 scale are on it |
| HtmlReport.AverageInRange | src/web_scanner/storage/html_report.py:39-40 | with every score on the 0 to 10 scale, the mean exists and is on it too |
| HtmlReport.MeanOfScale | src/web_scanner/storage/html_report.py:39-40 | the mean of scores on the 0 to 10 scale exists and is on that scale |
| HtmlReport.Stats | src/web_scanner/storage/html_report.py:20-40 | empty iff there are no analyses; fails iff the score sum fails; counts taken from the collected issues and the rank blocks |
| HtmlReport.WholeSeconds | src/web_scanner/storage/html_report.py:45-46 | the elapsed time in whole seconds, truncated toward zero |
| HtmlReport.MinutesSeconds | src/web_scanner/storage/html_report.py:46 | the seconds part is in `[0, 60)` and minutes × 60 + seconds is the total |
| HtmlReport.Duration | src/web_scanner/storage/html_report.py:42-47 | empty iff the scan has not completed; otherwise ends in `s` |
| HtmlReport.DurationShape | src/web_scanner/storage/html_report.py:46-47 | `"{m}m {s}s"` when the minutes are non-zero, else `"{s}s"`, with `0 <= s < 60` |
| HtmlReport.NegativeDuration | src/web_scanner/storage/html_report.py:45-47 | a completion before the start shows negative minutes, since `divmod` floors |
| HtmlReport.FourthCardOf | src/web_scanner/storage/html_report.py:567-581 | the score card iff the average is present and non-zero; the error count otherwise |
| HtmlReport.GrammarCard | src/web_scanner/storage/html_report.py:703-711 | `category or 'Grammar'`; the suggestions line only with suggestions, at most three |
| HtmlReport.LinkCard | src/web_scanner/storage/html_report.py:735-743 | the target cut to 80 characters; `'Broken'` and `'Link is broken'` as fallbacks |
| HtmlReport.RenderCards | src/web_scanner/storage/html_report.py:702 | the loop renders the first `limit` items, in order (lines 734, 766 and 794 are the same loop for the other sections) |
| HtmlReport.GrammarSection | src/web_scanner/storage/html_report.py:696-725 | none iff no issues; the first 50; a note on the rest iff more than 50; the badge is the full count |
| HtmlReport.LinksSection | src/web_scanner/storage/html_report.py:728-757 | the same for broken links |
| HtmlReport.OcrSection | src/web_scanner/storage/html_report.py:760-785 | none iff no issues; the first 30 and never a note |
| HtmlReport.ErrorsSection | src/web_scanner/storage/html_report.py:788-809 | none iff no errors; every error, in order |
| HtmlReport.PageViewOf | src/web_scanner/storage/html_report.py:590-678 | the page's issues sorted by rank, its first 10 corrections, and the empty state iff it has no issues |
| HtmlReport.AiSection | src/web_scanner/storage/html_report.py:584-693 | nothing iff no AI analyses; a failure iff some page does not render (a non-string description, category, location, suggestion or correction text, an unhashable severity, a truthy non-numeric score, or a non-string `overall_quality`); otherwise one page view per analysis, in order, and the badges are the severity counts |
| HtmlReport.NullDescriptionFails | src/web_scanner/storage/html_report.py:600 | an AI issue whose description is `null` makes its page fail to render |
| HtmlReport.GenerateReport | src/web_scanner/storage/html_report.py:10-564 | fails iff the score sum raises or some AI page does not render, with the sum's failure first; each section is absent iff its list is empty; the AI pages, total, duration and fourth card as above |

## Left out

- **Browser and page internals.** `BrowserManager` and Playwright's `goto`, `evaluate`, `content`, `title` and `screenshot` are not modelled. The JavaScript bodies of `get_text` and `get_links` are not modelled either. Each fetch attempt's outcome (status, content, raw links, settle-step results) is an input.
- **Concurrency.**
  - The crawl is one sequential worker. With N workers the page-budget check comes before the fetch, so up to N−1 pages beyond `max_pages` are possible; the model does not capture that overshoot.
  - **Crawler.WebCrawler.Crawl**: the breadth-first order of page depths holds for the one sequential worker. With several workers the pages are appended in the order their fetches finish, which can interleave depths.
  - The semaphores, the 5-second queue timeout, worker cancellation and `asyncio.gather` are not modelled. The analyses of a page run in scheduling order on one shared result. `gather(return_exceptions=True)` is modelled by the per-page exception result of `analyze_batch`.
- **Foreign libraries are parameters.**
  - `urljoin` and the MD5 digest.
  - LanguageTool's matches and Tesseract's word data.
  - The HTTP responses and the OpenRouter reply.
  - `json.loads`.
  - Number formatting: `{:.2f}`, `{:.0%}`, `{:.1f}`.
  - `str()` and `isoformat()` of datetimes.
- **`urlparse`.** It is modelled by a simplified parser that follows CPython's `urlsplit` steps. It does not strip leading whitespace beyond C0 characters and does not validate IPv6 netlocs.
- **File I/O.** Directory creation, file writes, `json.dumps` serialisation, the HTML markup and the output of `html.escape` are not modelled. Where `html.escape` raises, on a value that is not a string, the report fails (`HtmlReport.PageRenders`). The model states the documents and lines that would be written, not the bytes.
- **Clocks.** `datetime.now()` is not modelled. Timestamps are integers in microseconds and are passed in.
- **Floats.** They are modelled as `real` with no rounding. This covers the OCR confidence, the score mean, `total_seconds` and response times.
- **Score classes and the score bar.** `_generate_ai_section`'s score class, score bar and score formatting are left out because they are presentation. The comparison that raises for a truthy score that is not a number is modelled.
- **Summary rendering.** The text the AI section makes of each summary (the `isinstance`/`str` conversion) is left out. Only its failure is modelled: a dict visual summary whose `overall_quality` is not a string makes `html.escape` raise.
- **Prompt texts.** They are opaque constants.
- **Settings.** Default construction from settings is not modelled, including the unset `openrouter_api_key`, `ai_model` and `ai_vision_model`. Configuration values are parameters.
- **`_is_valid_url`'s extension list.** `CrawlerLinks.SkipExtensions` has the 24 extensions the crawler lists.
- **Lower-casing.** `Strings.Lower` lower-cases ASCII letters only; Python's `str.lower` also folds non-ASCII letters.
- **Extractors.** `screenshot_extractor.py` and `html_extractor.py` are not part of this model, except where the text extractor shares their file names. Neither are `orchestrator.py` or `cli.py`.
- **Stale tests.** tests/test_crawler.py:35-90 tests methods the crawler does not have.
- **HtmlReport.Rank** gives rank 3 to every severity that is not one of the three names, including one that cannot be hashed. In Python such a severity (a list or a dict in the AI answer) makes the sort raise. The report models that failure through `PageRenders`, not through `Rank`.
- **HtmlReport.AiSection** and **HtmlReport.GenerateReport** fail with one fixed text, `RenderFailure`, on a page that does not render. Python's exception type (`TypeError` or `AttributeError`) and its message are not modelled.
- **HtmlReport.SumScores** and **HtmlReport.MeanScore** record a non-numeric score as the fixed failure text `SumFailure`. Python's exact `TypeError` message, which names the operand types, is not modelled.
- **HtmlReport.WholeSeconds** truncates an exact microsecond count. Python first converts to a float number of seconds, which can round for spans longer than about 285 years.
- **Browser.TriggerLazyLoading** returns an explicit "stuck" outcome where the source loops forever: a step of 0 on a page of positive height. `Browser.Goto`, `Fetch.FetchPage`, `Crawler.WebCrawler.FetchEntry` and `Crawler.WebCrawler.Crawl` return None in that case: the call never returns. The model does not say what a worker blocked this way leaves behind beyond its state at the moment it blocks.
- **Fetch.ScreenshotPath** joins the directory and the file name with one `/`. `pathlib`'s join also normalises the directory: `.` and empty components are dropped and a trailing `/` is not doubled. That normalisation is not modelled.
