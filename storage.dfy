/**
 * The storage manager: the per-scan folder name, the JSON records it writes (crawl metadata,
 * extraction index, analysis report) and the lines of the human-readable summary.
 * The file system, the clock and `datetime` formatting are parameters.
 */
module Storage {
  import opened Common
  import opened Strings
  import opened Json
  import opened Models

  // ---------------------------------------------------------------------------------------
  // Folders
  // ---------------------------------------------------------------------------------------

  /** `_sanitize_domain`: every `:`, `/` and `.` becomes `_`. */
  function SanitizeDomain(domain: string): (r: string)
    ensures |r| == |domain|
    ensures forall i | 0 <= i < |r| :: r[i] != ':' && r[i] != '/' && r[i] != '.'
    ensures forall i | 0 <= i < |r| :: domain[i] !in {':', '/', '.'} ==> r[i] == domain[i]
    ensures forall i | 0 <= i < |r| :: domain[i] in {':', '/', '.'} ==> r[i] == '_'
  {
    ReplaceChar(ReplaceChar(ReplaceChar(domain, ':', '_'), '/', '_'), '.', '_')
  }

  /** Sanitising twice changes nothing more. */
  lemma {:induction false} SanitizeIdempotent(domain: string)
    ensures SanitizeDomain(SanitizeDomain(domain)) == SanitizeDomain(domain)
  {
  }

  /** A path below a directory (`dir / name`). */
  function Below(dir: string, name: string): string {
    dir + "/" + name
  }

  /** Where one scan's files go. */
  datatype Layout = Layout(baseUrl: string, domain: string, outputDir: string, reportsDir: string)

  /** The unique folder of a scan: the sanitised domain, `_`, then the `%Y%m%d_%H%M%S` timestamp. */
  function FolderName(domain: string, timestamp: string): (f: string)
    ensures StartsWith(f, SanitizeDomain(domain) + "_") && EndsWith(f, timestamp)
  {
    AppendEnds(SanitizeDomain(domain) + "_", timestamp);
    SanitizeDomain(domain) + "_" + timestamp
  }

  /**
   * `StorageManager(base_url, output_dir)`: `netloc` is `urlparse(base_url).netloc`; the output root
   * is the given directory when there is one, the configured one otherwise.
   */
  function NewLayout(baseUrl: string, netloc: string, timestamp: string, outputDir: Option<string>,
                     defaultOutputDir: string, reportsRoot: string): (l: Layout)
    ensures l.baseUrl == baseUrl && l.domain == netloc
    ensures l.outputDir == Below(outputDir.GetOr(defaultOutputDir), FolderName(netloc, timestamp))
    ensures l.reportsDir == Below(reportsRoot, FolderName(netloc, timestamp))
  {
    var folder := FolderName(netloc, timestamp);
    Layout(baseUrl, netloc, Below(outputDir.GetOr(defaultOutputDir), folder), Below(reportsRoot, folder))
  }

  /** `_setup_directories`: the directories created, parents first. */
  function Directories(l: Layout): (ds: seq<string>)
    ensures |ds| == 6 && ds[0] == l.outputDir && ds[5] == l.reportsDir
    ensures forall i | 1 <= i < 5 :: StartsWith(ds[i], l.outputDir + "/")
  {
    var ds := [l.outputDir, Below(l.outputDir, "html"), Below(l.outputDir, "text"), Below(l.outputDir, "screenshots"),
               Below(l.outputDir, "metadata"), l.reportsDir];
    forall i | 1 <= i < 5 ensures StartsWith(ds[i], l.outputDir + "/") {
      AppendEnds(l.outputDir + "/", ds[i][|l.outputDir| + 1..]);
    }
    ds
  }

  // ---------------------------------------------------------------------------------------
  // JSON records
  // ---------------------------------------------------------------------------------------

  /** One page of the crawl metadata; `crawledAt` is already rendered by `isoformat`. */
  datatype PageRecord = PageRecord(
    url: string, status: string, statusCode: Option<int>, title: Option<string>, depth: int,
    linksCount: int, responseTimeMs: Option<real>, crawledAt: string, errorMessage: Option<string>)

  function RecordOf(page: CrawledPage, isoformat: Timestamp -> string): (r: PageRecord)
    ensures r.url == page.url && r.status == page.status.Value() && r.linksCount == |page.links|
    ensures r.statusCode == page.statusCode && r.title == page.title && r.depth == page.depth
    ensures r.responseTimeMs == page.responseTimeMs && r.errorMessage == page.errorMessage
  {
    PageRecord(page.url, page.status.Value(), page.statusCode, page.title, page.depth, |page.links|,
               page.responseTimeMs, isoformat(page.crawledAt), page.errorMessage)
  }

  /** `crawl_metadata.json`. */
  datatype CrawlMetadata = CrawlMetadata(baseUrl: string, domain: string, crawledAt: string, totalPages: int, pages: seq<PageRecord>)

  /** `save_crawl_metadata`'s document: the page count and one record per page, in page order. */
  function MetadataOf(l: Layout, pages: seq<CrawledPage>, now: Timestamp, isoformat: Timestamp -> string): (m: CrawlMetadata)
    ensures m.totalPages == |pages| == |m.pages|
    ensures forall i | 0 <= i < |pages| :: m.pages[i] == RecordOf(pages[i], isoformat)
    ensures forall i | 0 <= i < |pages| :: m.pages[i].url == pages[i].url && m.pages[i].linksCount == |pages[i].links|
  {
    CrawlMetadata(l.baseUrl, l.domain, isoformat(now), |pages|,
                  seq(|pages|, i requires 0 <= i < |pages| => RecordOf(pages[i], isoformat)))
  }

  /** One page of the extraction index; absent paths stay absent (`null`). */
  datatype IndexRecord = IndexRecord(url: string, htmlPath: Option<string>, textPath: Option<string>,
                                     screenshotPath: Option<string>, metadata: map<string, Json>)

  /** `extraction_index.json`. */
  datatype ExtractionIndex = ExtractionIndex(baseUrl: string, extractedAt: string, totalPages: int, pages: seq<IndexRecord>)

  /** `save_extracted_data_index`'s document. */
  function IndexOf(l: Layout, data: seq<ExtractedData>, now: Timestamp, isoformat: Timestamp -> string): (x: ExtractionIndex)
    ensures x.totalPages == |data| == |x.pages|
    ensures forall i | 0 <= i < |data| :: x.pages[i].url == data[i].url && x.pages[i].metadata == data[i].metadata
    ensures forall i | 0 <= i < |data| ::
      (x.pages[i].htmlPath == data[i].htmlPath && x.pages[i].textPath == data[i].textPath
       && x.pages[i].screenshotPath == data[i].screenshotPath)
  {
    ExtractionIndex(l.baseUrl, isoformat(now), |data|,
                    seq(|data|, i requires 0 <= i < |data| =>
                      IndexRecord(data[i].url, data[i].htmlPath, data[i].textPath, data[i].screenshotPath, data[i].metadata)))
  }

  /** The `summary` object of the analysis report. */
  datatype ReportCounts = ReportCounts(pagesCrawled: int, pagesAnalyzed: int, grammarIssues: int, linkIssues: int,
                                       ocrIssues: int, errors: int)

  /** `analysis_report.json`: the counts, then every issue and error (each issue as its fields). */
  datatype ReportDocument = ReportDocument(
    baseUrl: string, scanStarted: string, scanCompleted: Option<string>, summary: ReportCounts,
    grammarIssues: seq<GrammarIssue>, linkIssues: seq<LinkIssue>, ocrIssues: seq<OcrIssue>, errors: seq<string>)

  /** `save_analysis_report`'s document: each count is the length of the list it counts. */
  function DocumentOf(report: AnalysisReport, isoformat: Timestamp -> string): (d: ReportDocument)
    ensures d.summary.grammarIssues == |report.grammarIssues| == |d.grammarIssues|
    ensures d.summary.linkIssues == |report.linkIssues| == |d.linkIssues|
    ensures d.summary.ocrIssues == |report.ocrIssues| == |d.ocrIssues|
    ensures d.summary.errors == |report.errors| == |d.errors|
    ensures d.summary.pagesCrawled == report.pagesCrawled && d.summary.pagesAnalyzed == report.pagesAnalyzed
    ensures d.scanCompleted.None? <==> report.scanCompleted.None?
  {
    ReportDocument(
      report.baseUrl, isoformat(report.scanStarted),
      if report.scanCompleted.Some? then Some(isoformat(report.scanCompleted.value)) else None,
      ReportCounts(report.pagesCrawled, report.pagesAnalyzed, |report.grammarIssues|, |report.linkIssues|,
                   |report.ocrIssues|, |report.errors|),
      report.grammarIssues, report.linkIssues, report.ocrIssues, report.errors)
  }

  /** The files written, below the scan's folders. */
  function MetadataPath(l: Layout): string { Below(Below(l.outputDir, "metadata"), "crawl_metadata.json") }
  function IndexPath(l: Layout): string { Below(Below(l.outputDir, "metadata"), "extraction_index.json") }
  function ReportPath(l: Layout): string { Below(l.reportsDir, "analysis_report.json") }
  function SummaryPath(l: Layout): string { Below(l.reportsDir, "summary.txt") }

  // ---------------------------------------------------------------------------------------
  // The human-readable summary
  // ---------------------------------------------------------------------------------------

  /** How many issues of each kind the summary lists. */
  const Listed := 20

  function Rule(c: char, n: nat): string { Repeat(c, n) }

  /** `str(report.scan_completed)`, which is `None` before the scan ends. */
  function ShowOptional(t: Option<Timestamp>, show: Timestamp -> string): string {
    if t.Some? then show(t.value) else "None"
  }

  /** The title block and the counts; `show` is `str()` of a `datetime`. */
  function SummaryHead(report: AnalysisReport, show: Timestamp -> string): (h: seq<string>)
    ensures |h| == 17 && h[1] == "WEB SCANNER ANALYSIS REPORT" && h[16] == ""
  {
    [Rule('=', 80), "WEB SCANNER ANALYSIS REPORT", Rule('=', 80), "",
     "Website: " + report.baseUrl,
     "Scan Started: " + show(report.scanStarted),
     "Scan Completed: " + ShowOptional(report.scanCompleted, show),
     "", "SUMMARY", Rule('-', 40),
     "Pages Crawled: " + IntToString(report.pagesCrawled),
     "Pages Analyzed: " + IntToString(report.pagesAnalyzed),
     "Grammar Issues: " + IntToString(|report.grammarIssues|),
     "Broken Links: " + IntToString(|report.linkIssues|),
     "OCR Issues: " + IntToString(|report.ocrIssues|),
     "Errors: " + IntToString(|report.errors|),
     ""]
  }

  /** The counts in the summary's head are the counts of the JSON report written beside it. */
  lemma {:induction false} SummaryCountsAgree(report: AnalysisReport, show: Timestamp -> string, isoformat: Timestamp -> string)
    ensures var h, c := SummaryHead(report, show), DocumentOf(report, isoformat).summary;
      && h[10] == "Pages Crawled: " + IntToString(c.pagesCrawled)
      && h[11] == "Pages Analyzed: " + IntToString(c.pagesAnalyzed)
      && h[12] == "Grammar Issues: " + IntToString(c.grammarIssues)
      && h[13] == "Broken Links: " + IntToString(c.linkIssues)
      && h[14] == "OCR Issues: " + IntToString(c.ocrIssues)
      && h[15] == "Errors: " + IntToString(c.errors)
  {
  }

  /** The number that starts entry `i` (counting from 1). */
  function Numbered(i: nat, text: string): (line: string)
    ensures StartsWith(line, IntToString(i) + ". ")
  {
    AppendEnds(IntToString(i) + ". ", text);
    IntToString(i) + ". " + text
  }

  /** The four lines of grammar issue number `i`. */
  function GrammarEntry(i: nat, issue: GrammarIssue): (e: seq<string>)
    ensures |e| == 4 && StartsWith(e[0], IntToString(i) + ". ")
  {
    [Numbered(i, issue.message), "   Context: ..." + issue.context + "...",
     "   Suggestions: " + Join(", ", issue.suggestions[..Min(3, |issue.suggestions|)]), ""]
  }

  /** The four lines of broken link number `i`. */
  function LinkEntry(i: nat, issue: LinkIssue): (e: seq<string>)
    ensures |e| == 4 && StartsWith(e[0], IntToString(i) + ". ")
  {
    [Numbered(i, issue.targetUrl), "   Source: " + issue.sourceUrl,
     "   Error: " + issue.errorType + " - " + issue.errorMessage, ""]
  }

  /** The four lines of OCR issue number `i`; `fixed2` is the `{:.2f}` format. */
  function OcrEntry(i: nat, issue: OcrIssue, fixed2: real -> string): (e: seq<string>)
    ensures |e| == 4 && StartsWith(e[0], IntToString(i) + ". ")
  {
    [Numbered(i, issue.issueType), "   Description: " + issue.description, "   Confidence: " + fixed2(issue.confidence), ""]
  }

  /** Every entry, numbered from 1 (`enumerate(..., 1)`). */
  function GrammarEntries(issues: seq<GrammarIssue>): (es: seq<seq<string>>)
    ensures |es| == |issues|
    ensures forall k | 0 <= k < |es| :: |es[k]| == 4 && es[k][0] == Numbered(k + 1, issues[k].message)
  {
    seq(|issues|, i requires 0 <= i < |issues| => GrammarEntry(i + 1, issues[i]))
  }

  function LinkEntries(issues: seq<LinkIssue>): (es: seq<seq<string>>)
    ensures |es| == |issues|
    ensures forall k | 0 <= k < |es| :: |es[k]| == 4 && es[k][0] == Numbered(k + 1, issues[k].targetUrl)
  {
    seq(|issues|, i requires 0 <= i < |issues| => LinkEntry(i + 1, issues[i]))
  }

  function OcrEntries(issues: seq<OcrIssue>, fixed2: real -> string): (es: seq<seq<string>>)
    ensures |es| == |issues|
    ensures forall k | 0 <= k < |es| :: |es[k]| == 4 && es[k][0] == Numbered(k + 1, issues[k].issueType)
  {
    seq(|issues|, i requires 0 <= i < |issues| => OcrEntry(i + 1, issues[i], fixed2))
  }

  /** The lines of consecutive entries (`lines.extend` for each). */
  function Flatten(entries: seq<seq<string>>): (lines: seq<string>)
    decreases |entries|
  {
    if entries == [] then [] else Flatten(entries[..|entries| - 1]) + entries[|entries| - 1]
  }

  /** Entries of four lines each take four lines each, and entry `k` starts at line `4k`. */
  lemma {:induction false} FlattenFours(entries: seq<seq<string>>)
    requires forall k | 0 <= k < |entries| :: |entries[k]| == 4
    ensures |Flatten(entries)| == 4 * |entries|
    ensures forall k | 0 <= k < |entries| :: Flatten(entries)[4 * k..4 * k + 4] == entries[k]
    decreases |entries|
  {
    if entries != [] {
      var init := entries[..|entries| - 1];
      FlattenFours(init);
      var f := Flatten(init);
      assert Flatten(entries) == f + entries[|entries| - 1];
      forall k | 0 <= k < |entries| ensures Flatten(entries)[4 * k..4 * k + 4] == entries[k] {
        if k < |init| {
          assert f[4 * k..4 * k + 4] == init[k];
        }
      }
    }
  }

  /** `   ... and N more issues`. */
  function MoreLine(n: int): string {
    "   ... and " + IntToString(n) + " more issues"
  }

  const SectionRule := Rule('-', 40)

  /** The entries a section lists: the first 20. */
  function Shown(entries: seq<seq<string>>): (shown: seq<seq<string>>)
    ensures |shown| == Min(Listed, |entries|) && shown == entries[..|shown|]
  {
    entries[..Min(Listed, |entries|)]
  }

  /** What follows the entries: the "more" line when some were left out, and a blank line unless the section is the last. */
  function Trailer(entries: seq<seq<string>>, last: bool): (t: seq<string>)
    ensures |t| == (if |entries| > Listed then 1 else 0) + (if last then 0 else 1)
    ensures |entries| > Listed ==> t[0] == MoreLine(|entries| - Listed)
  {
    (if |entries| > Listed then [MoreLine(|entries| - Listed)] else []) + (if last then [] else [""])
  }

  /** A section of the summary: nothing when there are no entries; otherwise the title, a rule, the listed entries and the trailer. */
  function Section(title: string, entries: seq<seq<string>>, last: bool): seq<string> {
    if entries == [] then [] else [title, SectionRule] + Flatten(Shown(entries)) + Trailer(entries, last)
  }

  /** A section is present exactly when it has entries, and then it starts with its title. */
  lemma {:induction false} SectionPresent(title: string, entries: seq<seq<string>>, last: bool)
    ensures Section(title, entries, last) == [] <==> entries == []
    ensures entries != [] ==> Section(title, entries, last)[0] == title
  {
  }

  /** Listed entry `k` of a section whose entries have four lines occupies lines `2 + 4k` to `5 + 4k`. */
  lemma {:induction false} SectionEntries(title: string, entries: seq<seq<string>>, last: bool)
    requires forall k | 0 <= k < |entries| :: |entries[k]| == 4
    ensures forall k | 0 <= k < Min(Listed, |entries|) ::
      (6 + 4 * k <= |Section(title, entries, last)| && Section(title, entries, last)[2 + 4 * k..6 + 4 * k] == entries[k])
  {
    if entries != [] {
      var shown := Shown(entries);
      FlattenFours(shown);
      var f := Flatten(shown);
      var s := Section(title, entries, last);
      assert s[2..2 + |f|] == f;
      forall k | 0 <= k < |shown| ensures s[2 + 4 * k..6 + 4 * k] == entries[k] {
        assert f[4 * k..4 * k + 4] == shown[k];
      }
    }
  }

  /** The line after the 20 listed entries says how many more there are, exactly when there are more. */
  lemma {:induction false} SectionMore(title: string, entries: seq<seq<string>>, last: bool)
    requires forall k | 0 <= k < |entries| :: |entries[k]| == 4
    ensures entries != [] ==> |Section(title, entries, last)| == 2 + 4 * Min(Listed, |entries|) + |Trailer(entries, last)|
    ensures |entries| > Listed ==>
      (|Section(title, entries, last)| > 2 + 4 * Listed && Section(title, entries, last)[2 + 4 * Listed] == MoreLine(|entries| - Listed))
  {
    if entries != [] {
      FlattenFours(Shown(entries));
    }
  }

  /** The whole summary; the OCR section is the last and has no blank line after it. */
  function SummaryLines(report: AnalysisReport, show: Timestamp -> string, fixed2: real -> string): seq<string> {
    SummaryHead(report, show)
    + Section("GRAMMAR ISSUES", GrammarEntries(report.grammarIssues), false)
    + Section("BROKEN LINKS", LinkEntries(report.linkIssues), false)
    + Section("OCR ISSUES (from screenshots)", OcrEntries(report.ocrIssues, fixed2), true)
  }

  /** What every section lists: present exactly when non-empty, entry `k` headed by its number, a "more" line past 20. */
  ghost predicate NumberedSection(s: seq<string>, keys: seq<string>)
  {
    && (s == [] <==> keys == [])
    && (forall k | 0 <= k < Min(Listed, |keys|) :: 2 + 4 * k < |s| && s[2 + 4 * k] == Numbered(k + 1, keys[k]))
    && (|keys| > Listed ==> |s| > 2 + 4 * Listed && s[2 + 4 * Listed] == MoreLine(|keys| - Listed))
  }

  /** A section whose entry `k` starts with `Numbered(k + 1, keys[k])` has the shape above. */
  lemma {:induction false} SectionNumbered(title: string, entries: seq<seq<string>>, last: bool, keys: seq<string>)
    requires |keys| == |entries|
    requires forall k | 0 <= k < |entries| :: |entries[k]| == 4 && entries[k][0] == Numbered(k + 1, keys[k])
    ensures NumberedSection(Section(title, entries, last), keys)
  {
    SectionPresent(title, entries, last);
    SectionEntries(title, entries, last);
    SectionMore(title, entries, last);
    var s := Section(title, entries, last);
    forall k | 0 <= k < Min(Listed, |keys|) ensures s[2 + 4 * k] == Numbered(k + 1, keys[k]) {
      assert s[2 + 4 * k..6 + 4 * k] == entries[k];
    }
  }

  /** The grammar section: present exactly when there are grammar issues, each headed by its message. */
  lemma {:induction false} GrammarSectionShape(issues: seq<GrammarIssue>)
    ensures NumberedSection(Section("GRAMMAR ISSUES", GrammarEntries(issues), false),
                            seq(|issues|, k requires 0 <= k < |issues| => issues[k].message))
  {
    SectionNumbered("GRAMMAR ISSUES", GrammarEntries(issues), false, seq(|issues|, k requires 0 <= k < |issues| => issues[k].message));
  }

  /** The broken-links section: present exactly when there are link issues, each headed by its target. */
  lemma {:induction false} LinkSectionShape(issues: seq<LinkIssue>)
    ensures NumberedSection(Section("BROKEN LINKS", LinkEntries(issues), false),
                            seq(|issues|, k requires 0 <= k < |issues| => issues[k].targetUrl))
  {
    SectionNumbered("BROKEN LINKS", LinkEntries(issues), false, seq(|issues|, k requires 0 <= k < |issues| => issues[k].targetUrl));
  }

  /** The OCR section: present exactly when there are OCR issues, each headed by its type; it ends the summary. */
  lemma {:induction false} OcrSectionShape(issues: seq<OcrIssue>, fixed2: real -> string)
    ensures NumberedSection(Section("OCR ISSUES (from screenshots)", OcrEntries(issues, fixed2), true),
                            seq(|issues|, k requires 0 <= k < |issues| => issues[k].issueType))
  {
    SectionNumbered("OCR ISSUES (from screenshots)", OcrEntries(issues, fixed2), true,
                    seq(|issues|, k requires 0 <= k < |issues| => issues[k].issueType));
  }

  /** Appending the listed entries one after another. */
  method ExtendEntries(lines: seq<string>, shown: seq<seq<string>>) returns (out: seq<string>)
    ensures out == lines + Flatten(shown)
  {
    out := lines;
    for i := 0 to |shown|
      invariant out == lines + Flatten(shown[..i])
    {
      assert shown[..i + 1][..i] == shown[..i];
      out := out + shown[i];
    }
    assert shown[..|shown|] == shown;
  }

  /** `lines.extend` of one section: its title and rule, the listed entries one by one, and the trailer. */
  method ExtendSection(lines: seq<string>, title: string, entries: seq<seq<string>>, last: bool) returns (out: seq<string>)
    ensures out == lines + Section(title, entries, last)
  {
    if entries == [] {
      return lines;
    }
    var shown := Shown(entries);
    var head := [title, SectionRule];
    out := ExtendEntries(lines + head, shown);
    var tail := Trailer(entries, last);
    out := out + tail;
    assert out == lines + (head + Flatten(shown) + tail);
  }

  /** `_save_human_readable_summary`: the lines, and the text written, which joins them with newlines. */
  method HumanReadableSummary(report: AnalysisReport, show: Timestamp -> string, fixed2: real -> string)
    returns (lines: seq<string>, text: string)
    ensures lines == SummaryLines(report, show, fixed2)
    ensures text == Join("\n", lines)
  {
    lines := SummaryHead(report, show);
    lines := ExtendSection(lines, "GRAMMAR ISSUES", GrammarEntries(report.grammarIssues), false);
    lines := ExtendSection(lines, "BROKEN LINKS", LinkEntries(report.linkIssues), false);
    lines := ExtendSection(lines, "OCR ISSUES (from screenshots)", OcrEntries(report.ocrIssues, fixed2), true);
    text := Join("\n", lines);
  }
}
