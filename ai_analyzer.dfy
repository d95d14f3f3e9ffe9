/**
 * The AI analyzer: turns the dictionaries the language model answers with into `AIIssue`s and
 * `TextCorrection`s, records them on the page's result, chooses which analyses a page gets,
 * and keeps one result per page in a batch.
 *
 * Each answer is a parameter (`ask`): the dict that `OpenRouterClient.analyze_*` returns, or
 * the message of the exception it raised. The three analyses of a page run one after another.
 */
module AiAnalyzer {
  import opened Common
  import opened Strings
  import opened Json
  import opened Models
  import AiClient

  /** Which of the three analyses an answer belongs to. */
  datatype Source = TextSource | HtmlSource | ScreenshotSource {
    /** The `source_type` each issue carries. */
    function Name(): string {
      match this
      case TextSource => "text"
      case HtmlSource => "html"
      case ScreenshotSource => "screenshot"
    }

    /** The category of an issue dict that has none. */
    function DefaultCategory(): string {
      match this
      case TextSource => "Text"
      case HtmlSource => "HTML"
      case ScreenshotSource => "Visual"
    }

    /** The start of the error recorded when the analysis raises. */
    function FailurePrefix(): string {
      match this
      case TextSource => "Text analysis failed: "
      case HtmlSource => "HTML analysis failed: "
      case ScreenshotSource => "Screenshot analysis failed: "
    }
  }

  /** `d.get(key)` on a dict. */
  function Field(d: map<string, Json>, key: string): Json {
    Get(d, key, JNull)
  }

  /** The `AttributeError` of calling `.get` on something that is not a dict. */
  function NoGet(j: Json): string {
    "'" + TypeName(j) + "' object has no attribute 'get'"
  }

  /** `AIIssue(...)` from one element of the answer's `issues`. */
  function IssueOf(item: Json, url: string, source: Source): (r: Result<AiIssue, string>)
    ensures r.Ok? <==> item.JObject?
    ensures r.Ok? ==> r.value.sourceUrl == Some(url) && r.value.sourceType == Some(source.Name())
    ensures r.Ok? ==> r.value.severity == (if "severity" in item.fields then item.fields["severity"] else JStr("info"))
    ensures r.Ok? ==> r.value.category == (if "category" in item.fields then item.fields["category"] else JStr(source.DefaultCategory()))
    ensures r.Ok? ==> r.value.description == (if "description" in item.fields then item.fields["description"] else JStr(""))
    ensures r.Ok? && source != TextSource ==> r.value.original == JNull
    ensures r.Ok? && source != ScreenshotSource ==> r.value.bbox == JNull && r.value.evidence == JNull && r.value.confidence == JNull
  {
    match item
    case JObject(d) =>
      var visual := source == ScreenshotSource;
      Ok(AiIssue(
        severity := Get(d, "severity", JStr("info")),
        category := Get(d, "category", JStr(source.DefaultCategory())),
        description := Get(d, "description", JStr("")),
        location := Field(d, "location"),
        suggestion := Field(d, "suggestion"),
        original := if source == TextSource then Field(d, "original") else JNull,
        sourceUrl := Some(url),
        sourceType := Some(source.Name()),
        bbox := if visual then Field(d, "bbox") else JNull,
        evidence := if visual then Field(d, "evidence") else JNull,
        confidence := if visual then Field(d, "confidence") else JNull))
    case _ => Err(NoGet(item))
  }

  /** `TextCorrection(...)` from one element of the answer's `text_corrections`. */
  function CorrectionOf(item: Json): (r: Result<TextCorrection, string>)
    ensures r.Ok? <==> item.JObject?
    ensures r.Ok? ==> r.value.original == (if "original" in item.fields then item.fields["original"] else JStr(""))
    ensures r.Ok? ==> r.value.correction == (if "correction" in item.fields then item.fields["correction"] else JStr(""))
    ensures r.Ok? ==> r.value.explanation == (if "explanation" in item.fields then item.fields["explanation"] else JStr(""))
  {
    match item
    case JObject(d) =>
      Ok(TextCorrection(Get(d, "original", JStr("")), Get(d, "correction", JStr("")), Get(d, "explanation", JStr("")),
                        Field(d, "bbox"), Field(d, "confidence")))
    case _ => Err(NoGet(item))
  }

  /**
   * What a `for` loop over a value of the answer meets before its first `.get`: the elements of a
   * list; no element at all for an empty dict or string; a key or a character (a `str`, which has
   * no `.get`) for a non-empty one; and a `TypeError` for a number, a boolean or `null`.
   */
  function Elements(j: Json): (r: Result<seq<Json>, string>)
    ensures j.JArray? ==> r == Ok(j.items)
    ensures r.Ok? ==> j.JArray? || r.value == []
  {
    match j
    case JArray(items) => Ok(items)
    case JObject(d) => if d == map[] then Ok([]) else Err(NoGet(JStr("")))
    case JStr(s) => if s == "" then Ok([]) else Err(NoGet(JStr("")))
    case _ => Err("'" + TypeName(j) + "' object is not iterable")
  }

  /** The values appended before the first element that fails to convert, and that failure. */
  datatype Converted<T> = Converted(done: seq<T>, failure: Option<string>)

  /** Converting elements in order and stopping at the first failure, as the append loops do. */
  function Convert<T>(items: seq<Json>, f: Json -> Result<T, string>): (c: Converted<T>)
    ensures |c.done| <= |items|
    ensures forall i | 0 <= i < |c.done| :: f(items[i]) == Ok(c.done[i])
    ensures c.failure.None? ==> |c.done| == |items|
    ensures c.failure.Some? ==> |c.done| < |items| && f(items[|c.done|]) == Err(c.failure.value)
    decreases |items|
  {
    if items == [] then Converted([], None)
    else
      var c := Convert(items[..|items| - 1], f);
      if c.failure.Some? then c
      else match f(items[|items| - 1])
        case Err(e) => Converted(c.done, Some(e))
        case Ok(x) => Converted(c.done + [x], None)
  }

  /** Once a conversion has failed on a prefix, the elements after it change nothing. */
  lemma {:induction false} ConvertStops<T>(items: seq<Json>, n: nat, f: Json -> Result<T, string>)
    requires n <= |items|
    requires Convert(items[..n], f).failure.Some?
    ensures Convert(items, f) == Convert(items[..n], f)
    decreases |items| - n
  {
    if n < |items| {
      ConvertStops(items[..|items| - 1], n, f);
      assert items[..|items| - 1][..n] == items[..n];
    } else {
      assert items[..n] == items;
    }
  }

  /** Every element converts exactly when no failure is met, and then each becomes one value, in order. */
  lemma {:induction false} ConvertAll<T>(items: seq<Json>, f: Json -> Result<T, string>)
    requires forall i | 0 <= i < |items| :: f(items[i]).Ok?
    ensures Convert(items, f).failure.None?
    ensures Convert(items, f).done == seq(|items|, i requires 0 <= i < |items| => f(items[i]).value)
  {
  }

  function IssueFn(url: string, source: Source): Json -> Result<AiIssue, string> {
    item => IssueOf(item, url, source)
  }

  /** The issue list a source writes to. */
  function IssuesFor(result: AiPageAnalysis, source: Source): seq<AiIssue> {
    match source
    case TextSource => result.textIssues
    case HtmlSource => result.htmlIssues
    case ScreenshotSource => result.visualIssues
  }

  /** `result.<source>_issues.append(...)` for each of `issues`. */
  function AddIssues(result: AiPageAnalysis, source: Source, issues: seq<AiIssue>): (r: AiPageAnalysis)
    ensures IssuesFor(r, source) == IssuesFor(result, source) + issues
    ensures forall s :: s != source ==> IssuesFor(r, s) == IssuesFor(result, s)
    ensures r.url == result.url && r.errors == result.errors && r.textCorrections == result.textCorrections
  {
    match source
    case TextSource => result.(textIssues := result.textIssues + issues)
    case HtmlSource => result.(htmlIssues := result.htmlIssues + issues)
    case ScreenshotSource => result.(visualIssues := result.visualIssues + issues)
  }

  /** `after` is `before`, or `before` with one more entry that starts with `prefix`. */
  predicate ErrorsGrow(before: seq<string>, after: seq<string>, prefix: string) {
    after == before
    || (|after| == |before| + 1 && after[..|before|] == before && StartsWith(after[|before|], prefix))
  }

  /** The `except` clause: one error naming the analysis, and nothing else. */
  function Failed(result: AiPageAnalysis, source: Source, message: string): (r: AiPageAnalysis)
    ensures |r.errors| == |result.errors| + 1 && ErrorsGrow(result.errors, r.errors, source.FailurePrefix())
    ensures r.url == result.url && r.textCorrections == result.textCorrections
    ensures forall s :: IssuesFor(r, s) == IssuesFor(result, s)
  {
    var r := result.(errors := result.errors + [source.FailurePrefix() + message]);
    AppendEnds(source.FailurePrefix(), message);
    assert r.errors[..|result.errors|] == result.errors;
    r
  }

  /** A dict-valued visual summary becomes its `overall_quality`, or its `str()` when it has none. */
  function VisualSummary(summary: Json, repr: Json -> string): (v: Json)
    ensures summary.JObject? && "overall_quality" in summary.fields ==> v == summary.fields["overall_quality"]
    ensures summary.JObject? && "overall_quality" !in summary.fields ==> v == JStr(repr(summary))
    ensures !summary.JObject? ==> v == summary
  {
    match summary
    case JObject(d) => Get(d, "overall_quality", JStr(repr(summary)))
    case _ => summary
  }

  /** The summary fields a successful analysis sets. */
  function WithSummary(result: AiPageAnalysis, source: Source, answer: map<string, Json>, repr: Json -> string): (r: AiPageAnalysis)
    ensures r.url == result.url && r.errors == result.errors && r.textCorrections == result.textCorrections
    ensures forall s :: IssuesFor(r, s) == IssuesFor(result, s)
  {
    match source
    case TextSource => result.(textSummary := Field(answer, "summary"))
    case HtmlSource => result.(htmlSummary := Field(answer, "summary"))
    case ScreenshotSource =>
      result.(visualSummary := VisualSummary(Field(answer, "summary"), repr), visualScore := Field(answer, "overall_score"))
  }

  /** The elements under `key`, none when the key is absent (`if key in analysis`). */
  function ElementsAt(answer: map<string, Json>, key: string): Result<seq<Json>, string> {
    if key in answer then Elements(answer[key]) else Ok([])
  }

  /** After the issues: a screenshot answer's corrections and then its summary; other answers' summary. */
  function Finish(result: AiPageAnalysis, source: Source, answer: map<string, Json>, repr: Json -> string): (r: AiPageAnalysis)
    ensures r.url == result.url
  {
    if source != ScreenshotSource then WithSummary(result, source, answer, repr)
    else
      var items := ElementsAt(answer, "text_corrections");
      if items.Err? then Failed(result, source, items.error)
      else
        var c := Convert(items.value, CorrectionOf);
        var r := result.(textCorrections := result.textCorrections + c.done);
        if c.failure.Some? then Failed(r, source, c.failure.value) else WithSummary(r, source, answer, repr)
  }

  /** The result after one `_analyze_text`, `_analyze_html` or `_analyze_screenshot`. */
  function Analyzed(source: Source, answer: Result<map<string, Json>, string>, url: string, result: AiPageAnalysis,
                    repr: Json -> string): (r: AiPageAnalysis)
    ensures r.url == result.url
  {
    match answer
    case Err(e) => Failed(result, source, e)
    case Ok(d) =>
      var items := ElementsAt(d, "issues");
      if items.Err? then Failed(result, source, items.error)
      else
        var c := Convert(items.value, IssueFn(url, source));
        var r := AddIssues(result, source, c.done);
        if c.failure.Some? then Failed(r, source, c.failure.value) else Finish(r, source, d, repr)
  }

  /** What follows the issues only sets summaries, appends corrections, or records one error. */
  lemma {:induction false} FinishAppends(result: AiPageAnalysis, source: Source, answer: map<string, Json>, repr: Json -> string)
    ensures var r := Finish(result, source, answer, repr);
      && r.url == result.url
      && (forall s :: IssuesFor(r, s) == IssuesFor(result, s))
      && ErrorsGrow(result.errors, r.errors, source.FailurePrefix())
      && (source != ScreenshotSource ==> r.textCorrections == result.textCorrections)
  {
  }

  /**
   * An analysis only appends: to its own issue list, to the corrections (screenshots only) and to
   * the errors, which gain one entry naming the analysis when it fails and none otherwise.
   */
  lemma {:induction false} AnalyzedAppends(source: Source, answer: Result<map<string, Json>, string>, url: string, result: AiPageAnalysis,
                        repr: Json -> string)
    ensures var r := Analyzed(source, answer, url, result, repr);
      && r.url == result.url
      && (forall s :: s != source ==> IssuesFor(r, s) == IssuesFor(result, s))
      && |IssuesFor(result, source)| <= |IssuesFor(r, source)|
      && IssuesFor(r, source)[..|IssuesFor(result, source)|] == IssuesFor(result, source)
      && ErrorsGrow(result.errors, r.errors, source.FailurePrefix())
      && (source != ScreenshotSource ==> r.textCorrections == result.textCorrections)
  {
    if answer.Ok? {
      var d := answer.value;
      var items := ElementsAt(d, "issues");
      if items.Ok? {
        var c := Convert(items.value, IssueFn(url, source));
        var withIssues := AddIssues(result, source, c.done);
        assert IssuesFor(withIssues, source)[..|IssuesFor(result, source)|] == IssuesFor(result, source);
        if c.failure.None? {
          FinishAppends(withIssues, source, d, repr);
        }
      }
    }
  }

  /** An answer whose `issues` is a list of dicts yields one issue per dict, in order, and on success no error. */
  lemma {:induction false} DictsBecomeIssues(source: Source, d: map<string, Json>, items: seq<Json>, url: string, result: AiPageAnalysis,
                          repr: Json -> string)
    requires "issues" in d && d["issues"] == JArray(items)
    requires forall i | 0 <= i < |items| :: items[i].JObject?
    ensures var r := Analyzed(source, Ok(d), url, result, repr);
      IssuesFor(r, source) == IssuesFor(result, source) + seq(|items|, i requires 0 <= i < |items| => IssueOf(items[i], url, source).value)
    ensures source != ScreenshotSource ==> Analyzed(source, Ok(d), url, result, repr).errors == result.errors
  {
    ConvertAll(items, IssueFn(url, source));
  }

  /** An issue dict with no keys gets every default: severity `info`, the source's category, an empty description. */
  lemma {:induction false} EmptyIssueDefaults(url: string, source: Source)
    ensures IssueOf(JObject(map[]), url, source).Ok?
    ensures var i := IssueOf(JObject(map[]), url, source).value;
      i.severity == JStr("info") && i.category == JStr(source.DefaultCategory()) && i.description == JStr("")
      && i.location == JNull && i.suggestion == JNull
  {
  }

  /** The append loop over the elements: converts them in order and stops at the first that fails. */
  method ConvertLoop<T>(xs: seq<Json>, f: Json -> Result<T, string>) returns (done: seq<T>, failure: Option<string>)
    ensures Converted(done, failure) == Convert(xs, f)
  {
    done := [];
    for i := 0 to |xs|
      invariant Convert(xs[..i], f) == Converted(done, None)
    {
      assert xs[..i + 1][..i] == xs[..i];
      var x := f(xs[i]);
      if x.Err? {
        ConvertStops(xs, i + 1, f);
        return done, Some(x.error);
      }
      done := done + [x.value];
    }
    assert xs[..|xs|] == xs;
    failure := None;
  }

  /** `_analyze_text`, `_analyze_html` and `_analyze_screenshot`, recording one answer on the page's result. */
  method RecordAnalysis(source: Source, answer: Result<map<string, Json>, string>, url: string, result: AiPageAnalysis,
                        repr: Json -> string)
    returns (res: AiPageAnalysis)
    ensures res == Analyzed(source, answer, url, result, repr)
  {
    if answer.Err? {
      return Failed(result, source, answer.error);
    }
    var d := answer.value;
    var items := ElementsAt(d, "issues");
    if items.Err? {
      return Failed(result, source, items.error);
    }
    var issues, failure := ConvertLoop(items.value, IssueFn(url, source));
    res := AddIssues(result, source, issues);
    if failure.Some? {
      return Failed(res, source, failure.value);
    }
    if source != ScreenshotSource {
      return WithSummary(res, source, d, repr);
    }
    var corrections := ElementsAt(d, "text_corrections");
    if corrections.Err? {
      return Failed(res, source, corrections.error);
    }
    var done, failed := ConvertLoop(corrections.value, CorrectionOf);
    res := res.(textCorrections := res.textCorrections + done);
    if failed.Some? {
      return Failed(res, source, failed.value);
    }
    res := WithSummary(res, source, d, repr);
  }

  // ---------------------------------------------------------------------------------------
  // Pages and batches
  // ---------------------------------------------------------------------------------------

  /** One analysis of a page and the input it is given. */
  datatype Task = TextTask(text: string) | HtmlTask(html: string) | ScreenshotTask(path: string) {
    function Source(): Source {
      match this
      case TextTask(_) => TextSource
      case HtmlTask(_) => HtmlSource
      case ScreenshotTask(_) => ScreenshotSource
    }
  }

  /**
   * The screenshot to analyse: the extracted one when there is one (a `Path`, which is never
   * falsy, even when empty), otherwise the page's own when it is a non-empty string.
   */
  function ScreenshotOf(page: CrawledPage, extracted: Option<ExtractedData>): (p: Option<string>)
    ensures extracted.Some? && extracted.value.screenshotPath.Some? ==> p == extracted.value.screenshotPath
    ensures !(extracted.Some? && extracted.value.screenshotPath.Some?) ==>
      p == (if Truthy(page.screenshotPath) then page.screenshotPath else None)
  {
    if extracted.Some? && extracted.value.screenshotPath.Some? then extracted.value.screenshotPath
    else if Truthy(page.screenshotPath) then page.screenshotPath
    else None
  }

  /** The analyses `analyze_page` schedules, in the order it schedules them. */
  function Tasks(page: CrawledPage, extracted: Option<ExtractedData>, text: bool, html: bool, screenshots: bool): (ts: seq<Task>)
    ensures |ts| <= 3
    ensures (exists t | t in ts :: t.TextTask?) <==> text && Truthy(page.text)
    ensures (exists t | t in ts :: t.HtmlTask?) <==> html && Truthy(page.html)
    ensures (exists t | t in ts :: t.ScreenshotTask?) <==> screenshots && ScreenshotOf(page, extracted).Some?
    ensures forall t | t in ts :: t.TextTask? ==> t.text == page.text.value
    ensures forall t | t in ts :: t.HtmlTask? ==> t.html == page.html.value
    ensures forall t | t in ts :: t.ScreenshotTask? ==> Some(t.path) == ScreenshotOf(page, extracted)
  {
    var shot := ScreenshotOf(page, extracted);
    var a := if text && Truthy(page.text) then [TextTask(page.text.value)] else [];
    var b := if html && Truthy(page.html) then [HtmlTask(page.html.value)] else [];
    var c := if screenshots && shot.Some? then [ScreenshotTask(shot.value)] else [];
    assert forall t | t in a + b + c :: t in a || t in b || t in c;
    assert a != [] ==> a[0] in a + b + c;
    assert b != [] ==> b[0] in a + b + c;
    assert c != [] ==> c[0] in a + b + c;
    a + b + c
  }

  /** The result after running `tasks` in order against the answers `ask` gives for `url`. */
  function RunTasks(tasks: seq<Task>, url: string, ask: (Task, string) -> Result<map<string, Json>, string>,
                    repr: Json -> string): (r: AiPageAnalysis)
    ensures r.url == url
    decreases |tasks|
  {
    if tasks == [] then NewAiPageAnalysis(url, [])
    else
      var t := tasks[|tasks| - 1];
      var r := RunTasks(tasks[..|tasks| - 1], url, ask, repr);
      Analyzed(t.Source(), ask(t, url), url, r, repr)
  }

  /** Each analysis adds at most one error, so a page never carries more errors than analyses. */
  lemma {:induction false} ErrorsPerTask(tasks: seq<Task>, url: string, ask: (Task, string) -> Result<map<string, Json>, string>,
                                         repr: Json -> string)
    ensures |RunTasks(tasks, url, ask, repr).errors| <= |tasks|
    decreases |tasks|
  {
    if tasks != [] {
      var t := tasks[|tasks| - 1];
      ErrorsPerTask(tasks[..|tasks| - 1], url, ask, repr);
      AnalyzedAppends(t.Source(), ask(t, url), url, RunTasks(tasks[..|tasks| - 1], url, ask, repr), repr);
    }
  }

  /** The scheduled analyses, each recording its answer on the one result they share. */
  method RunLoop(tasks: seq<Task>, url: string, ask: (Task, string) -> Result<map<string, Json>, string>,
                 repr: Json -> string) returns (result: AiPageAnalysis)
    ensures result == RunTasks(tasks, url, ask, repr)
  {
    result := NewAiPageAnalysis(url, []);
    for i := 0 to |tasks|
      invariant result == RunTasks(tasks[..i], url, ask, repr)
    {
      assert tasks[..i + 1][..i] == tasks[..i];
      result := RecordAnalysis(tasks[i].Source(), ask(tasks[i], url), url, result, repr);
    }
    assert tasks[..|tasks|] == tasks;
  }

  /** `extracted_map`: each URL maps to the last entry that carries it. */
  function ByUrl(data: seq<ExtractedData>): (m: map<string, ExtractedData>)
    ensures forall u :: u in m <==> exists i | 0 <= i < |data| :: data[i].url == u
    ensures forall u | u in m :: m[u].url == u
    decreases |data|
  {
    if data == [] then map[]
    else
      var last := data[|data| - 1];
      var m := ByUrl(data[..|data| - 1]);
      assert forall i | 0 <= i < |data| - 1 :: data[..|data| - 1][i] == data[i];
      m[last.url := last]
  }

  /** A later entry overwrites an earlier one with the same URL. */
  lemma {:induction false} ByUrlLastWins(data: seq<ExtractedData>, i: nat)
    requires i < |data|
    requires forall j | i < j < |data| :: data[j].url != data[i].url
    ensures ByUrl(data)[data[i].url] == data[i]
    decreases |data|
  {
    if i < |data| - 1 {
      var prefix := data[..|data| - 1];
      assert forall j | i < j < |prefix| :: prefix[j] == data[j];
      ByUrlLastWins(prefix, i);
    }
  }

  /** `extracted_map.get(page.url)`. */
  function ExtractedFor(m: map<string, ExtractedData>, url: string): Option<ExtractedData> {
    if url in m then Some(m[url]) else None
  }

  /** The entry a batch gives a page: its analysis, or a result holding only the exception's message. */
  function BatchEntry(page: CrawledPage, outcome: Result<AiPageAnalysis, string>): (r: AiPageAnalysis)
    ensures r.url == page.url || outcome.Ok?
    ensures outcome.Err? ==> r == NewAiPageAnalysis(page.url, [outcome.error])
    ensures outcome.Ok? ==> r == outcome.value
  {
    match outcome
    case Ok(a) => a
    case Err(e) => NewAiPageAnalysis(page.url, [e])
  }

  class AiAnalyzer {
    const apiKey: string
    const textEnabled: bool
    const htmlEnabled: bool
    const screenshotsEnabled: bool
    /** Whether `_client` holds a started `OpenRouterClient`. */
    var clientStarted: bool

    /** A client can only have been created with a key. */
    predicate Valid()
      reads this
    {
      clientStarted ==> apiKey != ""
    }

    constructor(apiKey: string, analyzeText: bool, analyzeHtml: bool, analyzeScreenshots: bool)
      ensures this.apiKey == apiKey && textEnabled == analyzeText && htmlEnabled == analyzeHtml
      ensures screenshotsEnabled == analyzeScreenshots
      ensures !clientStarted && Valid()
    {
      this.apiKey := apiKey;
      textEnabled := analyzeText;
      htmlEnabled := analyzeHtml;
      screenshotsEnabled := analyzeScreenshots;
      clientStarted := false;
    }

    /** `start`: creates the client once; creating it raises when the key is empty. */
    method Start() returns (error: Option<string>)
      requires Valid()
      modifies this
      ensures Valid()
      ensures error.None? <==> apiKey != ""
      ensures error.Some? ==> error.value == AiClient.MissingKeyMessage
      ensures clientStarted == (old(clientStarted) || apiKey != "")
    {
      if !clientStarted {
        if apiKey == "" {
          return Some(AiClient.MissingKeyMessage);
        }
        clientStarted := true;
      }
      return None;
    }

    method Stop()
      modifies this
      ensures !clientStarted && Valid()
    {
      clientStarted := false;
    }

    /** `analyze`: kept for the analyzer interface; it reports nothing. */
    method Analyze() returns (issues: seq<AiIssue>)
      ensures issues == []
    {
      issues := [];
    }

    /** What `analyze_page` returns for `page` when the client starts. */
    function PageAnalysis(page: CrawledPage, extracted: Option<ExtractedData>,
                          ask: (Task, string) -> Result<map<string, Json>, string>, repr: Json -> string): (r: AiPageAnalysis)
      ensures r.url == page.url
    {
      RunTasks(Tasks(page, extracted, textEnabled, htmlEnabled, screenshotsEnabled), page.url, ask, repr)
    }

    /** `analyze_page`: starts the client, then runs the selected analyses in order on one shared result. */
    method AnalyzePage(page: CrawledPage, extracted: Option<ExtractedData>,
                       ask: (Task, string) -> Result<map<string, Json>, string>, repr: Json -> string)
      returns (r: Result<AiPageAnalysis, string>)
      requires Valid()
      modifies this
      ensures Valid() && clientStarted == (old(clientStarted) || apiKey != "")
      ensures r.Err? <==> apiKey == ""
      ensures r.Ok? ==> r.value == PageAnalysis(page, extracted, ask, repr)
    {
      var error := Start();
      if error.Some? {
        return Err(error.value);
      }
      var tasks := Tasks(page, extracted, textEnabled, htmlEnabled, screenshotsEnabled);
      var result := RunLoop(tasks, page.url, ask, repr);
      return Ok(result);
    }

    /** `analyze_batch`'s map from URL to extracted data. */
    static method ExtractedMap(data: seq<ExtractedData>) returns (m: map<string, ExtractedData>)
      ensures m == ByUrl(data)
    {
      m := map[];
      for i := 0 to |data|
        invariant m == ByUrl(data[..i])
      {
        assert data[..i + 1][..i] == data[..i];
        m := m[data[i].url := data[i]];
      }
      assert data[..|data|] == data;
    }

    /**
     * `analyze_batch`: raises when the client cannot start; otherwise exactly one result per
     * page, in page order, each analysed with the last extracted entry for its URL.
     */
    method AnalyzeBatch(pages: seq<CrawledPage>, data: seq<ExtractedData>,
                        ask: (Task, string) -> Result<map<string, Json>, string>, repr: Json -> string)
      returns (r: Result<seq<AiPageAnalysis>, string>)
      requires Valid()
      modifies this
      ensures Valid()
      ensures r.Err? <==> apiKey == ""
      ensures r.Ok? ==> |r.value| == |pages|
      ensures r.Ok? ==> forall i | 0 <= i < |pages| ::
        r.value[i] == PageAnalysis(pages[i], ExtractedFor(ByUrl(data), pages[i].url), ask, repr)
    {
      var error := Start();
      if error.Some? {
        return Err(error.value);
      }
      var extracted := ExtractedMap(data);
      var results: seq<AiPageAnalysis> := [];
      for i := 0 to |pages|
        invariant Valid() && clientStarted
        invariant |results| == i
        invariant forall j | 0 <= j < i :: results[j] == PageAnalysis(pages[j], ExtractedFor(extracted, pages[j].url), ask, repr)
      {
        var outcome := AnalyzePage(pages[i], ExtractedFor(extracted, pages[i].url), ask, repr);
        results := results + [BatchEntry(pages[i], outcome)];
      }
      return Ok(results);
    }
  }

  /** Every result of a batch belongs to the page at the same position. */
  lemma {:induction false} BatchAligned(a: AiAnalyzer, pages: seq<CrawledPage>, results: seq<AiPageAnalysis>, data: seq<ExtractedData>,
                     ask: (Task, string) -> Result<map<string, Json>, string>, repr: Json -> string)
    requires |results| == |pages|
    requires forall i | 0 <= i < |pages| :: results[i] == a.PageAnalysis(pages[i], ExtractedFor(ByUrl(data), pages[i].url), ask, repr)
    ensures forall i | 0 <= i < |pages| :: results[i].url == pages[i].url
  {
  }
}
