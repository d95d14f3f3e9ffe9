/** The records every stage of the scanner passes along. */
module Models {
  import opened Common
  import opened Json

  /** A wall-clock instant, in microseconds; `datetime` arithmetic is done on these. */
  type Timestamp = int

  datatype PageStatus = Success | Error | Timeout | Blocked | NotFound {
    /** The enum's string value, as written into the crawl metadata. */
    function Value(): string {
      match this
      case Success => "success"
      case Error => "error"
      case Timeout => "timeout"
      case Blocked => "blocked"
      case NotFound => "not_found"
    }
  }

  datatype CrawledPage = CrawledPage(
    url: string,
    status: PageStatus,
    statusCode: Option<int>,
    contentType: Option<string>,
    html: Option<string>,
    text: Option<string>,
    title: Option<string>,
    links: seq<string>,
    depth: int,
    crawledAt: Timestamp,
    errorMessage: Option<string>,
    responseTimeMs: Option<real>,
    screenshotPath: Option<string>)

  /** `CrawledPage(url=..., status=...)`: every field the caller leaves out takes its declared default. */
  function NewPage(url: string, status: PageStatus, now: Timestamp): (p: CrawledPage)
    ensures p.url == url && p.status == status && p.crawledAt == now
    ensures p.links == [] && p.depth == 0
    ensures p.statusCode.None? && p.contentType.None? && p.html.None? && p.text.None? && p.title.None?
    ensures p.errorMessage.None? && p.responseTimeMs.None? && p.screenshotPath.None?
  {
    CrawledPage(url, status, None, None, None, None, None, [], 0, now, None, None, None)
  }

  /** A page whose fetch failed: only the depth, the message and the elapsed time are set. */
  function FailedPage(url: string, status: PageStatus, depth: int, message: string, elapsedMs: real, now: Timestamp): (p: CrawledPage)
    ensures p.url == url && p.status == status && p.depth == depth
    ensures p.errorMessage == Some(message) && p.responseTimeMs == Some(elapsedMs)
    ensures p.html.None? && p.text.None? && p.links == [] && p.screenshotPath.None? && p.statusCode.None?
  {
    NewPage(url, status, now).(depth := depth, errorMessage := Some(message), responseTimeMs := Some(elapsedMs))
  }

  datatype ExtractedData = ExtractedData(
    url: string,
    htmlPath: Option<string>,
    textPath: Option<string>,
    screenshotPath: Option<string>,
    metadata: map<string, Json>)

  /** `ExtractedData(url=...)`. */
  function NewExtractedData(url: string): (d: ExtractedData)
    ensures d.url == url && d.htmlPath.None? && d.textPath.None? && d.screenshotPath.None? && d.metadata == map[]
  {
    ExtractedData(url, None, None, None, map[])
  }

  datatype GrammarIssue = GrammarIssue(
    message: string,
    context: string,
    suggestions: seq<string>,
    offset: int,
    length: int,
    ruleId: string,
    category: string)

  datatype LinkIssue = LinkIssue(
    sourceUrl: string,
    targetUrl: string,
    statusCode: Option<int>,
    errorType: string,
    errorMessage: string)

  datatype OcrIssue = OcrIssue(
    screenshotPath: string,
    extractedText: string,
    issueType: string,
    description: string,
    confidence: real)

  /**
   * An issue reported by the language model. The fields read from the model's answer keep
   * whatever JSON value it sent (`JNull` is Python's `None`); the declared `str` types are
   * not enforced at run time.
   */
  datatype AiIssue = AiIssue(
    severity: Json,
    category: Json,
    description: Json,
    location: Json,
    suggestion: Json,
    original: Json,
    sourceUrl: Option<string>,
    sourceType: Option<string>,
    bbox: Json,
    evidence: Json,
    confidence: Json)

  datatype TextCorrection = TextCorrection(
    original: Json,
    correction: Json,
    explanation: Json,
    bbox: Json,
    confidence: Json)

  /** The AI result for one page; `errors` is the extra list the analyzer's result type carries. */
  datatype AiPageAnalysis = AiPageAnalysis(
    url: string,
    textIssues: seq<AiIssue>,
    htmlIssues: seq<AiIssue>,
    visualIssues: seq<AiIssue>,
    textCorrections: seq<TextCorrection>,
    textSummary: Json,
    htmlSummary: Json,
    visualSummary: Json,
    visualScore: Json,
    errors: seq<string>)

  /** `AIAnalysisResult(url=...)`, optionally with `errors`. */
  function NewAiPageAnalysis(url: string, errors: seq<string>): (a: AiPageAnalysis)
    ensures a.url == url && a.errors == errors
    ensures a.textIssues == [] && a.htmlIssues == [] && a.visualIssues == [] && a.textCorrections == []
    ensures a.textSummary == JNull && a.htmlSummary == JNull && a.visualSummary == JNull && a.visualScore == JNull
  {
    AiPageAnalysis(url, [], [], [], [], JNull, JNull, JNull, JNull, errors)
  }

  datatype AnalysisReport = AnalysisReport(
    baseUrl: string,
    scanStarted: Timestamp,
    scanCompleted: Option<Timestamp>,
    pagesCrawled: int,
    pagesAnalyzed: int,
    grammarIssues: seq<GrammarIssue>,
    linkIssues: seq<LinkIssue>,
    ocrIssues: seq<OcrIssue>,
    aiAnalyses: seq<AiPageAnalysis>,
    errors: seq<string>)

  /** `AnalysisReport(base_url=..., scan_started=...)`. */
  function NewReport(baseUrl: string, started: Timestamp): (r: AnalysisReport)
    ensures r.baseUrl == baseUrl && r.scanStarted == started && r.scanCompleted.None?
    ensures r.pagesCrawled == 0 && r.pagesAnalyzed == 0
    ensures r.grammarIssues == [] && r.linkIssues == [] && r.ocrIssues == [] && r.aiAnalyses == [] && r.errors == []
  {
    AnalysisReport(baseUrl, started, None, 0, 0, [], [], [], [], [])
  }
}
