/**
 * The grammar analyzer: it strips the text extractor's metadata header, hands the text to
 * LanguageTool and turns the matches it reports into grammar issues.
 */
module Grammar {
  import opened Common
  import opened Strings
  import opened Models
  import opened Extractors

  /** No run of 80 dashes, the header separator, occurs in `s`. */
  predicate NoDashRun(s: string) {
    !Contains(s, Separator)
  }

  /** A run of 80 dashes contains `---`, so the first of the two header tests adds nothing. */
  lemma {:induction false} RunHasDashes(content: string)
    ensures Contains(content, Separator) ==> Contains(content, "---")
  {
    if Contains(content, Separator) {
      var k :| 0 <= k <= |content| && OccursAt(content, Separator, k);
      assert content[k..k + 3] == content[k..k + 80][..3];
      assert OccursAt(content, "---", k);
    }
  }

  /**
   * The header strip in `analyze`: when `---` occurs and the text splits on a run of 80 dashes,
   * what follows the first run, stripped; otherwise the text unchanged.
   */
  function StripHeader(content: string): (r: string)
    ensures NoDashRun(content) ==> r == content
    ensures !NoDashRun(content) ==> |r| <= |content| - |Separator|
  {
    RunHasDashes(content);
    if Contains(content, "---") && Contains(content, Separator) then
      var k := Find(content, Separator);
      Strip(content[k + |Separator|..])
    else content
  }

  /** A string shorter than the separator cannot hold it. */
  lemma {:induction false} ShortNoRun(s: string)
    requires |s| < |Separator|
    ensures NoDashRun(s)
  {
  }

  /** Two pieces without a dash run, joined at a character that is not a dash, have none either. */
  lemma {:induction false} NoRunJoin(a: string, b: string)
    requires NoDashRun(a) && NoDashRun(b)
    requires (a != [] && a[|a| - 1] != '-') || (b != [] && b[0] != '-')
    ensures NoDashRun(a + b)
  {
    var s := a + b;
    forall j | 0 <= j <= |s| ensures !OccursAt(s, Separator, j) {
      if j + 80 <= |a| {
        assert s[j..j + 80] == a[j..j + 80];
        assert !OccursAt(a, Separator, j);
      } else if |a| <= j {
        if j + 80 <= |s| {
          assert s[j..j + 80] == b[j - |a|..j - |a| + 80];
        }
        assert !OccursAt(b, Separator, j - |a|);
      } else if j + 80 <= |s| {
        var p := if a != [] && a[|a| - 1] != '-' then |a| - 1 else |a|;
        assert s[j..j + 80][p - j] == s[p] != '-';
      }
    }
  }

  /** A title line, `Title: <title>\n`, has no dash run when the title has none. */
  lemma {:induction false} TitleLineNoRun(title: string)
    requires NoDashRun(title)
    ensures NoDashRun("Title: " + title + "\n")
  {
    ShortNoRun("Title: ");
    ShortNoRun("\n");
    NoRunJoin("Title: ", title);
    NoRunJoin("Title: " + title, "\n");
  }

  /** The metadata lines have no dash run when the URL, the title and the timestamp have none. */
  lemma {:induction false} HeaderLinesNoRun(url: string, title: Option<string>, crawledAt: string)
    requires NoDashRun(url) && NoDashRun(crawledAt)
    requires Truthy(title) ==> NoDashRun(title.value)
    ensures NoDashRun(HeaderLines(url, title, crawledAt))
  {
    var titleLine := if Truthy(title) then "Title: " + title.value + "\n" else "";
    if Truthy(title) {
      TitleLineNoRun(title.value);
    } else {
      ShortNoRun(titleLine);
    }
    ShortNoRun("URL: ");
    ShortNoRun("\n");
    ShortNoRun("Crawled at: ");
    var a := "URL: " + url;
    NoRunJoin("URL: ", url);
    NoRunJoin(a, "\n");
    NoRunJoin(a + "\n", titleLine);
    var b := a + "\n" + titleLine;
    assert b[|b| - 1] == '\n';
    NoRunJoin(b, "Crawled at: ");
    NoRunJoin(b + "Crawled at: ", crawledAt);
    NoRunJoin(b + "Crawled at: " + crawledAt, "\n");
  }

  /** The first dash run of `prefix + Separator + rest` is the separator itself when `prefix` has none and does not end in a dash. */
  lemma {:induction false} FirstRunAt(prefix: string, rest: string)
    requires NoDashRun(prefix)
    requires prefix == [] || prefix[|prefix| - 1] != '-'
    ensures Find(prefix + Separator + rest, Separator) == |prefix|
  {
    var s := prefix + Separator + rest;
    assert s[|prefix|..|prefix| + 80] == Separator;
    assert OccursAt(s, Separator, |prefix|);
    forall j | 0 <= j < |prefix| ensures !OccursAt(s, Separator, j) {
      if j + 80 <= |prefix| {
        assert s[j..j + 80] == prefix[j..j + 80];
        assert !OccursAt(prefix, Separator, j);
      } else {
        assert s[j..j + 80][|prefix| - 1 - j] == prefix[|prefix| - 1] != '-';
      }
    }
  }

  /** Past the first dash run, the strip keeps `rest` stripped. */
  lemma {:induction false} StripAfterRun(prefix: string, rest: string)
    requires NoDashRun(prefix)
    requires prefix == [] || prefix[|prefix| - 1] != '-'
    ensures StripHeader(prefix + Separator + rest) == Strip(rest)
  {
    var content := prefix + Separator + rest;
    FirstRunAt(prefix, rest);
    assert content[|prefix|..|prefix| + 3] == "---";
    assert OccursAt(content, "---", |prefix|);
    assert content[|prefix| + 80..] == rest;
  }

  /** The blank line after the separator is whitespace that the strip removes. */
  lemma {:induction false} BlankLineStrip(text: string)
    ensures Strip("\n\n" + text) == Strip(text)
  {
    assert IsSpace('\n');
    StripSpacePrefix("\n\n", text);
  }

  lemma {:induction false} JoinRest(a: string, b: string, c: string)
    ensures a + b + c == a + (b + c)
  {
  }

  /** Stripping the header from `prefix + Separator + "\n\n" + text` gives back `text.strip()`. */
  lemma {:induction false} StripAfterSeparator(prefix: string, text: string)
    requires NoDashRun(prefix)
    requires prefix == [] || prefix[|prefix| - 1] != '-'
    ensures StripHeader(prefix + Separator + "\n\n" + text) == Strip(text)
  {
    var rest := "\n\n" + text;
    JoinRest(prefix + Separator, "\n\n", text);
    StripAfterRun(prefix, rest);
    BlankLineStrip(text);
  }

  /**
   * The header round trip: what the text extractor writes, the grammar analyzer reads back as
   * the page text with surrounding whitespace removed, as long as no dash run hides in the
   * URL, the title or the timestamp.
   */
  lemma {:induction false} HeaderRoundTrip(url: string, title: Option<string>, crawledAt: string, text: string)
    requires NoDashRun(url) && NoDashRun(crawledAt)
    requires Truthy(title) ==> NoDashRun(title.value)
    ensures StripHeader(TextHeader(url, title, crawledAt) + text) == Strip(text)
  {
    var lines := HeaderLines(url, title, crawledAt);
    HeaderLinesNoRun(url, title, crawledAt);
    assert lines[|lines| - 1] == '\n';
    StripAfterSeparator(lines, text);
  }

  /** The same round trip, stated on the file the text extractor produces for a page. */
  lemma {:induction false} ExtractedTextRoundTrip(page: CrawledPage, outputDir: string, isoformat: Timestamp -> string, written: bool)
    requires ExtractText(page, outputDir, isoformat, written).Some?
    requires NoDashRun(page.url) && NoDashRun(isoformat(page.crawledAt))
    requires Truthy(page.title) ==> NoDashRun(page.title.value)
    ensures StripHeader(ExtractText(page, outputDir, isoformat, written).value.content) == Strip(page.text.value)
  {
    HeaderRoundTrip(page.url, page.title, isoformat(page.crawledAt), page.text.value);
  }

  /** A string that starts with a non-space keeps, once stripped, its first `n` characters up to a non-space. */
  lemma {:induction false} StripKeepsHead(s: string, n: nat)
    requires 0 < n <= |s| && !IsSpace(s[0]) && !IsSpace(s[n - 1])
    ensures StartsWith(Strip(s), s[..n])
  {
    assert LStrip(s) == s;
  }

  /** A header without a title, regrouped around the URL. */
  lemma {:induction false} UntitledHeader(url: string, crawledAt: string, text: string)
    ensures TextHeader(url, None, crawledAt) + text
         == "URL: " + url + ("\n" + ("Crawled at: " + crawledAt + "\n" + Separator + "\n\n" + text))
  {
  }

  /** With a URL that is itself a dash run, the strip keeps everything from the `Crawled at` line on. */
  lemma {:induction false} DashUrlStrip(crawledAt: string, text: string)
    ensures StripHeader(TextHeader(Separator, None, crawledAt) + text)
         == Strip("Crawled at: " + crawledAt + "\n" + Separator + "\n\n" + text)
  {
    var body := "Crawled at: " + crawledAt + "\n" + Separator + "\n\n" + text;
    UntitledHeader(Separator, crawledAt, text);
    ShortNoRun("URL: ");
    StripAfterRun("URL: ", "\n" + body);
    StripSpacePrefix("\n", body);
  }

  /** The `Crawled at` line survives the strip. */
  lemma {:induction false} CrawledLineKept(text: string)
    ensures StartsWith(Strip("Crawled at: " + "t" + "\n" + Separator + "\n\n" + text), "Crawled at: t")
  {
    var body := "Crawled at: " + "t" + "\n" + Separator + "\n\n" + text;
    assert body[..13] == "Crawled at: t";
    StripKeepsHead(body, 13);
  }

  /**
   * Without the side condition the round trip fails: when the URL is itself a dash run, the
   * strip stops inside the URL and the text handed to LanguageTool starts with the
   * `Crawled at` line.
   */
  lemma {:induction false} DashUrlBreaksRoundTrip(text: string)
    ensures StartsWith(StripHeader(TextHeader(Separator, None, "t") + text), "Crawled at: t")
  {
    DashUrlStrip("t", text);
    CrawledLineKept(text);
  }

  /** A match LanguageTool reports: where the error is, what it says, and the replacements it offers. */
  datatype Match = Match(
    message: string,
    offset: int,
    errorLength: int,
    replacements: seq<string>,
    ruleId: string,
    category: string)

  /** The two rules the analyzer ignores as too noisy. */
  predicate Noisy(ruleId: string) {
    ruleId == "WHITESPACE_RULE" || ruleId == "COMMA_PARENTHESIS_WHITESPACE"
  }

  /** Characters of context kept on each side of an error. */
  const ContextRadius: int := 20

  /**
   * `content[max(0, offset - 20) : min(len(content), offset + errorLength + 20)]`: a piece of
   * the text around the error, at most 40 characters longer than the error, that holds the
   * whole error span.
   */
  function Context(content: string, offset: int, errorLength: int): (ctx: string)
    ensures Contains(content, ctx)
    ensures 0 <= offset && 0 <= errorLength ==> |ctx| <= errorLength + 2 * ContextRadius
    ensures 0 <= offset && 0 <= errorLength && offset + errorLength <= |content| ==>
      Contains(ctx, content[offset..offset + errorLength])
    ensures ContextRadius <= offset && 0 <= errorLength && offset + errorLength + ContextRadius <= |content| ==>
      |ctx| == errorLength + 2 * ContextRadius
  {
    var ctx := PySlice(content, Max(0, offset - ContextRadius), Min(|content|, offset + errorLength + ContextRadius));
    var start := SliceBound(|content|, Max(0, offset - ContextRadius));
    assert OccursAt(content, ctx, start);
    if 0 <= offset && 0 <= errorLength && offset + errorLength <= |content| then
      SliceOfSlice(content, ctx, start, offset, offset + errorLength);
      ctx
    else ctx
  }

  /** A piece `r` of `s` found at `a` holds every piece of `s` that lies inside it. */
  lemma {:induction false} SliceOfSlice(s: string, r: string, a: nat, i: nat, j: nat)
    requires a + |r| <= |s| && r == s[a..a + |r|]
    requires a <= i <= j <= a + |r|
    ensures OccursAt(r, s[i..j], i - a)
  {
    forall k | 0 <= k < j - i
      ensures r[i - a..j - a][k] == s[i..j][k]
    {
      assert r[i - a + k] == s[a..a + |r|][i - a + k];
    }
    assert r[i - a..j - a] == s[i..j];
  }

  /** `replacements[:5] if replacements else []`: the first five replacements. */
  function Suggestions(replacements: seq<string>): (s: seq<string>)
    ensures |s| == Min(5, |replacements|)
    ensures s == replacements[..|s|]
  {
    if replacements != [] then (if |replacements| < 5 then replacements else replacements[..5]) else []
  }

  /** The grammar issue one kept match becomes. */
  function ToIssue(content: string, m: Match): (issue: GrammarIssue)
    ensures issue.message == m.message && issue.offset == m.offset && issue.length == m.errorLength
    ensures issue.ruleId == m.ruleId && issue.category == m.category
    ensures issue.context == Context(content, m.offset, m.errorLength)
    ensures issue.suggestions == Suggestions(m.replacements)
  {
    GrammarIssue(m.message, Context(content, m.offset, m.errorLength), Suggestions(m.replacements),
                 m.offset, m.errorLength, m.ruleId, m.category)
  }

  /** The issues for a list of matches: one per match whose rule is not noisy, in match order. */
  function IssuesOf(content: string, matches: seq<Match>): (issues: seq<GrammarIssue>)
    ensures |issues| <= |matches|
  {
    if matches == [] then []
    else
      var last := matches[|matches| - 1];
      IssuesOf(content, matches[..|matches| - 1]) + (if Noisy(last.ruleId) then [] else [ToIssue(content, last)])
  }

  /** The issues of two runs of matches are the issues of each, in order. */
  lemma {:induction false} IssuesOfAppend(content: string, a: seq<Match>, b: seq<Match>)
    ensures IssuesOf(content, a + b) == IssuesOf(content, a) + IssuesOf(content, b)
    decreases |b|
  {
    if b == [] {
      assert a + b == a;
    } else {
      var b' := b[..|b| - 1];
      assert (a + b)[..|a + b| - 1] == a + b';
      IssuesOfAppend(content, a, b');
    }
  }

  /** A single match gives no issue when its rule is noisy and exactly its own issue otherwise. */
  lemma {:induction false} IssuesOfOne(content: string, m: Match)
    ensures IssuesOf(content, [m]) == if Noisy(m.ruleId) then [] else [ToIssue(content, m)]
  {
    assert [m][..0] == [];
  }

  /** No issue comes from a noisy rule, and every issue is the issue of some match. */
  lemma {:induction false} IssuesFromKeptMatches(content: string, matches: seq<Match>)
    ensures forall issue | issue in IssuesOf(content, matches) ::
      !Noisy(issue.ruleId) && exists m | m in matches :: issue == ToIssue(content, m)
  {
    if matches != [] {
      var init := matches[..|matches| - 1];
      IssuesFromKeptMatches(content, init);
      forall issue | issue in IssuesOf(content, init)
        ensures exists m | m in matches :: issue == ToIssue(content, m)
      {
        var m :| m in init && issue == ToIssue(content, m);
        assert m in matches;
      }
    }
  }

  /** Every match whose rule is not noisy is reported. */
  lemma {:induction false} KeptMatchesReported(content: string, matches: seq<Match>, i: int)
    requires 0 <= i < |matches| && !Noisy(matches[i].ruleId)
    ensures ToIssue(content, matches[i]) in IssuesOf(content, matches)
  {
    assert matches == matches[..i] + [matches[i]] + matches[i + 1..];
    IssuesOfAppend(content, matches[..i] + [matches[i]], matches[i + 1..]);
    IssuesOfAppend(content, matches[..i], [matches[i]]);
    IssuesOfOne(content, matches[i]);
  }

  /** The conversion loop of `analyze` and `analyze_text`: skip the noisy rules, convert the rest in order. */
  method ConvertMatches(content: string, matches: seq<Match>) returns (issues: seq<GrammarIssue>)
    ensures issues == IssuesOf(content, matches)
  {
    issues := [];
    for i := 0 to |matches|
      invariant issues == IssuesOf(content, matches[..i])
    {
      var m := matches[i];
      assert matches[..i + 1][..i] == matches[..i];
      if Noisy(m.ruleId) {
        continue;
      }
      issues := issues + [ToIssue(content, m)];
    }
    assert matches[..|matches|] == matches;
  }

  /**
   * `GrammarAnalyzer`: it owns the LanguageTool instance, created on first use. The tool's
   * `check` and the file read are passed in; a failure of either is the `Err` they return.
   */
  class GrammarAnalyzer {
    const language: string
    /** `_tool is not None`. */
    var toolStarted: bool

    constructor(language: string)
      ensures this.language == language && !toolStarted
    {
      this.language := language;
      toolStarted := false;
    }

    /** `start`: create the tool unless one exists; `initOk` is whether creating it succeeds. */
    method Start(initOk: bool) returns (ok: bool)
      modifies this
      ensures toolStarted == (old(toolStarted) || initOk)
      ensures ok == toolStarted
    {
      if !toolStarted {
        if initOk {
          toolStarted := true;
        }
      }
      ok := toolStarted;
    }

    /** `stop`: close the tool and forget it. */
    method Stop()
      modifies this
      ensures !toolStarted
    {
      if toolStarted {
        toolStarted := false;
      }
    }

    /**
     * `analyze`: read the file, strip the header, check the text, convert the matches. A tool
     * that cannot be created fails the call (the `start` sits outside the `try`); a read or
     * check failure gives no issues.
     */
    method Analyze(file: Result<string, string>, check: string -> Result<seq<Match>, string>, initOk: bool)
      returns (r: Result<seq<GrammarIssue>, string>)
      modifies this
      ensures toolStarted == (old(toolStarted) || initOk)
      ensures r.Err? <==> !toolStarted
      ensures r.Ok? && file.Err? ==> r.value == []
      ensures r.Ok? && file.Ok? ==>
        var content := StripHeader(file.value);
        r.value == if check(content).Ok? then IssuesOf(content, check(content).value) else []
    {
      var ok := Start(initOk);
      if !ok {
        return Err("LanguageTool could not be started");
      }
      if file.Err? {
        return Ok([]);
      }
      var content := StripHeader(file.value);
      var matches := check(content);
      if matches.Err? {
        return Ok([]);
      }
      var issues := ConvertMatches(content, matches.value);
      return Ok(issues);
    }

    /** `analyze_text`: the same conversion on raw text, with no header strip. */
    method AnalyzeText(text: string, check: string -> Result<seq<Match>, string>, initOk: bool)
      returns (r: Result<seq<GrammarIssue>, string>)
      modifies this
      ensures toolStarted == (old(toolStarted) || initOk)
      ensures r.Err? <==> !toolStarted
      ensures r.Ok? ==> r.value == if check(text).Ok? then IssuesOf(text, check(text).value) else []
    {
      var ok := Start(initOk);
      if !ok {
        return Err("LanguageTool could not be started");
      }
      var matches := check(text);
      if matches.Err? {
        return Ok([]);
      }
      var issues := ConvertMatches(text, matches.value);
      return Ok(issues);
    }
  }
}
