/**
 * The static HTML report: the statistics it shows (issue totals, AI severity counts, the average
 * visual score, the scan duration), the choice of the fourth statistics card, the order in which
 * AI issues are listed, and what each section shows (which entries, how many, and the "more" note).
 * The markup itself, `html.escape` and number formatting are not modelled: a section is modelled
 * by the entries it renders.
 */
module HtmlReport {
  import opened Common
  import opened Strings
  import opened Json
  import opened Models
  import Storage

  // ---------------------------------------------------------------------------------------
  // Totals
  // ---------------------------------------------------------------------------------------

  /** `total_issues`: the grammar, link and OCR issues together (AI issues are counted apart). */
  function TotalIssues(report: AnalysisReport): (t: nat)
    ensures t == 0 <==> report.grammarIssues == [] && report.linkIssues == [] && report.ocrIssues == []
    ensures |report.grammarIssues| <= t && |report.linkIssues| <= t && |report.ocrIssues| <= t
  {
    |report.grammarIssues| + |report.linkIssues| + |report.ocrIssues|
  }

  /** The HTML total is the sum of the three counts the JSON report's summary records. */
  lemma {:induction false} TotalAgreesWithSummary(report: AnalysisReport, isoformat: Timestamp -> string)
    ensures var c := Storage.DocumentOf(report, isoformat).summary;
      TotalIssues(report) == c.grammarIssues + c.linkIssues + c.ocrIssues
  {
  }

  // ---------------------------------------------------------------------------------------
  // AI issues: collecting, counting by severity, ranking
  // ---------------------------------------------------------------------------------------

  /** One page's AI issues in the order the report lists them before sorting: text, HTML, visual. */
  function PageIssues(a: AiPageAnalysis): seq<AiIssue> {
    a.textIssues + a.htmlIssues + a.visualIssues
  }

  /** Every page's AI issues, page after page (`all_issues.extend(...)` for each analysis). */
  function AllIssues(analyses: seq<AiPageAnalysis>): (all: seq<AiIssue>)
    ensures analyses != [] ==> all == AllIssues(analyses[..|analyses| - 1]) + PageIssues(analyses[|analyses| - 1])
    decreases |analyses|
  {
    if analyses == [] then [] else AllIssues(analyses[..|analyses| - 1]) + PageIssues(analyses[|analyses| - 1])
  }

  /** The loop that gathers the AI issues of every page. */
  method CollectIssues(analyses: seq<AiPageAnalysis>) returns (all: seq<AiIssue>)
    ensures all == AllIssues(analyses)
    ensures |all| == TextCount(analyses) + HtmlCount(analyses) + VisualCount(analyses)
  {
    all := [];
    for i := 0 to |analyses|
      invariant all == AllIssues(analyses[..i])
    {
      assert analyses[..i + 1][..i] == analyses[..i];
      all := all + analyses[i].textIssues + analyses[i].htmlIssues + analyses[i].visualIssues;
    }
    assert analyses[..|analyses|] == analyses;
    CountsAddUp(analyses);
  }

  /** `sum(len(a.text_issues) for a in ...)`, and the same for HTML and visual issues. */
  function TextCount(analyses: seq<AiPageAnalysis>): nat
    decreases |analyses|
  {
    if analyses == [] then 0 else TextCount(analyses[..|analyses| - 1]) + |analyses[|analyses| - 1].textIssues|
  }

  function HtmlCount(analyses: seq<AiPageAnalysis>): nat
    decreases |analyses|
  {
    if analyses == [] then 0 else HtmlCount(analyses[..|analyses| - 1]) + |analyses[|analyses| - 1].htmlIssues|
  }

  function VisualCount(analyses: seq<AiPageAnalysis>): nat
    decreases |analyses|
  {
    if analyses == [] then 0 else VisualCount(analyses[..|analyses| - 1]) + |analyses[|analyses| - 1].visualIssues|
  }

  /** The AI total (text + HTML + visual counts) is the number of issues the severity counts run over. */
  lemma {:induction false} CountsAddUp(analyses: seq<AiPageAnalysis>)
    ensures TextCount(analyses) + HtmlCount(analyses) + VisualCount(analyses) == |AllIssues(analyses)|
    decreases |analyses|
  {
    if analyses != [] {
      CountsAddUp(analyses[..|analyses| - 1]);
    }
  }

  /** `sum(1 for i in all_issues if i.severity == severity)`. */
  function CountSeverity(issues: seq<AiIssue>, severity: string): (n: nat)
    ensures n <= |issues|
  {
    if issues == [] then 0
    else (if issues[0].severity == JStr(severity) then 1 else 0) + CountSeverity(issues[1..], severity)
  }

  /** The sort key `{"critical": 0, "warning": 1, "info": 2}.get(severity, 3)`. */
  function Rank(severity: Json): (r: nat)
    ensures r <= 3
    ensures r == 0 <==> severity == JStr("critical")
    ensures r == 1 <==> severity == JStr("warning")
    ensures r == 2 <==> severity == JStr("info")
  {
    if severity == JStr("critical") then 0
    else if severity == JStr("warning") then 1
    else if severity == JStr("info") then 2
    else 3
  }

  /** The issues of one rank, in their original order. */
  function OfRank(issues: seq<AiIssue>, k: nat): (r: seq<AiIssue>)
    ensures |r| <= |issues|
    ensures forall i | 0 <= i < |r| :: Rank(r[i].severity) == k
    ensures k > 3 ==> r == []
  {
    if issues == [] then []
    else (if Rank(issues[0].severity) == k then [issues[0]] else []) + OfRank(issues[1..], k)
  }

  /** `sorted(all_issues, key=rank)`: a stable sort on a key with four values. */
  function SortByRank(issues: seq<AiIssue>): seq<AiIssue> {
    OfRank(issues, 0) + OfRank(issues, 1) + OfRank(issues, 2) + OfRank(issues, 3)
  }

  /** The sorted issues never go down in rank. */
  lemma {:induction false} SortedByRank(issues: seq<AiIssue>)
    ensures var s := SortByRank(issues);
      forall i, j | 0 <= i < j < |s| :: Rank(s[i].severity) <= Rank(s[j].severity)
  {
    var a, b, c, d := OfRank(issues, 0), OfRank(issues, 1), OfRank(issues, 2), OfRank(issues, 3);
    var s := a + b + c + d;
    forall i | 0 <= i < |s|
      ensures Rank(s[i].severity) == if i < |a| then 0 else if i < |a| + |b| then 1 else if i < |a| + |b| + |c| then 2 else 3
    {
      if i < |a| {
        assert s[i] == a[i];
      } else if i < |a| + |b| {
        assert s[i] == b[i - |a|];
      } else if i < |a| + |b| + |c| {
        assert s[i] == c[i - |a| - |b|];
      } else {
        assert s[i] == d[i - |a| - |b| - |c|];
      }
    }
  }

  /** Selecting a rank distributes over concatenation. */
  lemma {:induction false} OfRankAppend(xs: seq<AiIssue>, ys: seq<AiIssue>, k: nat)
    ensures OfRank(xs + ys, k) == OfRank(xs, k) + OfRank(ys, k)
    decreases |xs|
  {
    if xs == [] {
      assert xs + ys == ys;
    } else {
      assert (xs + ys)[1..] == xs[1..] + ys;
      OfRankAppend(xs[1..], ys, k);
    }
  }

  /** Selecting rank `k` among issues of rank `j` keeps them all when `j == k` and none otherwise. */
  lemma {:induction false} OfRankTwice(xs: seq<AiIssue>, j: nat, k: nat)
    ensures OfRank(OfRank(xs, j), k) == if j == k then OfRank(xs, j) else []
    decreases |xs|
  {
    if xs != [] {
      OfRankTwice(xs[1..], j, k);
      if Rank(xs[0].severity) == j {
        var ys := OfRank(xs, j);
        assert ys == [xs[0]] + OfRank(xs[1..], j);
        assert ys[0] == xs[0] && ys[1..] == OfRank(xs[1..], j);
      } else {
        assert OfRank(xs, j) == OfRank(xs[1..], j);
      }
    }
  }

  /** The sort is stable: the issues of each rank keep their relative order. */
  lemma {:induction false} SortIsStable(issues: seq<AiIssue>, k: nat)
    ensures OfRank(SortByRank(issues), k) == OfRank(issues, k)
  {
    var a, b, c, d := OfRank(issues, 0), OfRank(issues, 1), OfRank(issues, 2), OfRank(issues, 3);
    OfRankAppend(a + b + c, d, k);
    OfRankAppend(a + b, c, k);
    OfRankAppend(a, b, k);
    var a', b', c', d' := OfRank(a, k), OfRank(b, k), OfRank(c, k), OfRank(d, k);
    assert OfRank(SortByRank(issues), k) == a' + b' + c' + d';
    OfRankTwice(issues, 0, k);
    OfRankTwice(issues, 1, k);
    OfRankTwice(issues, 2, k);
    OfRankTwice(issues, 3, k);
    if k == 0 {
      assert a' + b' + c' + d' == a;
    } else if k == 1 {
      assert a' + b' + c' + d' == b;
    } else if k == 2 {
      assert a' + b' + c' + d' == c;
    } else if k == 3 {
      assert a' + b' + c' + d' == d;
    } else {
      assert a' + b' + c' + d' == [];
    }
  }

  /** Each issue occurs in the block of its rank as often as in the whole, and not at all in the others. */
  lemma {:induction false} OfRankCount(xs: seq<AiIssue>, k: nat, x: AiIssue)
    ensures multiset(OfRank(xs, k))[x] == if Rank(x.severity) == k then multiset(xs)[x] else 0
    decreases |xs|
  {
    if xs != [] {
      OfRankCount(xs[1..], k, x);
      assert xs == [xs[0]] + xs[1..];
      assert OfRank(xs, k) == (if Rank(xs[0].severity) == k then [xs[0]] else []) + OfRank(xs[1..], k);
    }
  }

  /** The sort only reorders: it is a permutation of the issues. */
  lemma {:induction false} SortIsPermutation(issues: seq<AiIssue>)
    ensures multiset(SortByRank(issues)) == multiset(issues)
    ensures |SortByRank(issues)| == |issues|
  {
    var a, b, c, d := OfRank(issues, 0), OfRank(issues, 1), OfRank(issues, 2), OfRank(issues, 3);
    var s := SortByRank(issues);
    forall x ensures multiset(s)[x] == multiset(issues)[x] {
      OfRankCount(issues, 0, x);
      OfRankCount(issues, 1, x);
      OfRankCount(issues, 2, x);
      OfRankCount(issues, 3, x);
      assert multiset(s)[x] == multiset(a)[x] + multiset(b)[x] + multiset(c)[x] + multiset(d)[x];
    }
    assert multiset(s) == multiset(issues);
    assert |multiset(s)| == |multiset(issues)|;
  }

  /** A severity count is the size of the matching rank's block. */
  lemma {:induction false} CountIsRankBlock(xs: seq<AiIssue>)
    ensures CountSeverity(xs, "critical") == |OfRank(xs, 0)|
    ensures CountSeverity(xs, "warning") == |OfRank(xs, 1)|
    ensures CountSeverity(xs, "info") == |OfRank(xs, 2)|
    decreases |xs|
  {
    if xs != [] {
      CountIsRankBlock(xs[1..]);
    }
  }

  /** The three severity counts and the issues of any other severity add up to all issues. */
  lemma {:induction false} SeveritiesPartition(xs: seq<AiIssue>)
    ensures CountSeverity(xs, "critical") + CountSeverity(xs, "warning") + CountSeverity(xs, "info") + |OfRank(xs, 3)|
            == |xs|
  {
    CountIsRankBlock(xs);
    SortIsPermutation(xs);
  }

  // ---------------------------------------------------------------------------------------
  // Visual scores
  // ---------------------------------------------------------------------------------------

  /** The scores that are not `None`, page by page. */
  function Scores(analyses: seq<AiPageAnalysis>): (scores: seq<Json>)
    ensures |scores| <= |analyses|
    ensures forall i | 0 <= i < |scores| :: scores[i] != JNull
    ensures scores == [] <==> forall i | 0 <= i < |analyses| :: analyses[i].visualScore == JNull
  {
    if analyses == [] then []
    else (if analyses[0].visualScore != JNull then [analyses[0].visualScore] else []) + Scores(analyses[1..])
  }

  /** A number as Python adds it: integers, floats and booleans (`True` is 1). */
  function Number(j: Json): (r: Option<real>)
    ensures r.Some? <==> j.JInt? || j.JReal? || j.JBool?
  {
    match j
    case JInt(i) => Some(i as real)
    case JReal(x) => Some(x)
    case JBool(b) => Some(if b then 1.0 else 0.0)
    case _ => None
  }

  /** `sum(scores)`: `None` where Python's `+` raises on a value that is not a number. */
  function SumScores(scores: seq<Json>): (s: Option<real>)
    ensures s.Some? <==> forall i | 0 <= i < |scores| :: Number(scores[i]).Some?
  {
    if scores == [] then Some(0.0)
    else
      var head, rest := Number(scores[0]), SumScores(scores[1..]);
      if head.Some? && rest.Some? then Some(head.value + rest.value) else None
  }

  /** Scores on the 0 to 10 scale add up to at most 10 per score. */
  lemma {:induction false} SumInRange(scores: seq<Json>)
    requires forall i | 0 <= i < |scores| :: Number(scores[i]).Some? && 0.0 <= Number(scores[i]).value <= 10.0
    ensures SumScores(scores).Some?
    ensures 0.0 <= SumScores(scores).value <= 10.0 * |scores| as real
  {
    if scores != [] {
      SumInRange(scores[1..]);
    }
  }

  const SumFailure := "unsupported operand type(s) for +"

  /** `sum(scores) / len(scores) if scores else None`, failing where the sum raises. */
  function MeanScore(scores: seq<Json>): (m: Result<Option<real>, string>)
    ensures m.Err? <==> SumScores(scores).None?
    ensures m == Ok(None) <==> scores == []
    ensures m.Ok? && m.value.Some? ==> m.value.value * |scores| as real == SumScores(scores).value
  {
    var sum := SumScores(scores);
    if sum.None? then Err(SumFailure)
    else if scores == [] then Ok(None)
    else Ok(Some(sum.value / |scores| as real))
  }

  /** Pages whose scores are absent or on the 0 to 10 scale give only scores on that scale. */
  lemma {:induction false} ScoresInRange(analyses: seq<AiPageAnalysis>)
    requires forall i | 0 <= i < |analyses| :: OnScale(analyses[i].visualScore)
    ensures forall i | 0 <= i < |Scores(analyses)| :: Number(Scores(analyses)[i]).Some? && 0.0 <= Number(Scores(analyses)[i]).value <= 10.0
  {
    if analyses != [] {
      ScoresInRange(analyses[1..]);
    }
  }

  /** A score that is absent, or a number from 0 to 10. */
  predicate OnScale(score: Json) {
    score == JNull || (Number(score).Some? && 0.0 <= Number(score).value <= 10.0)
  }

  /** When every score present is on the 0 to 10 scale, their mean exists and is on it too. */
  lemma {:induction false} AverageInRange(analyses: seq<AiPageAnalysis>)
    requires forall i | 0 <= i < |analyses| :: OnScale(analyses[i].visualScore)
    ensures MeanScore(Scores(analyses)).Ok?
    ensures MeanScore(Scores(analyses)).value.Some? ==> 0.0 <= MeanScore(Scores(analyses)).value.value <= 10.0
  {
    ScoresInRange(analyses);
    MeanOfScale(Scores(analyses));
  }

  /** The mean of numbers from 0 to 10 exists and is from 0 to 10. */
  lemma {:induction false} MeanOfScale(scores: seq<Json>)
    requires forall i | 0 <= i < |scores| :: Number(scores[i]).Some? && 0.0 <= Number(scores[i]).value <= 10.0
    ensures MeanScore(scores).Ok?
    ensures MeanScore(scores).value.Some? ==> 0.0 <= MeanScore(scores).value.value <= 10.0
  {
    SumInRange(scores);
    if scores != [] {
      MeanBound(SumScores(scores).value, |scores| as real);
    }
  }

  /** A mean of values from 0 to 10 is from 0 to 10. */
  lemma {:induction false} MeanBound(sum: real, n: real)
    requires n > 0.0 && 0.0 <= sum <= 10.0 * n
    ensures 0.0 <= sum / n <= 10.0
  {
  }

  /** The statistics of the AI section. */
  datatype AiStats = AiStats(
    pages: nat, textIssues: nat, htmlIssues: nat, visualIssues: nat, total: nat,
    critical: nat, warning: nat, info: nat, avgScore: Option<real>)

  /**
   * `ai_stats`: `None` (the empty dict) when there are no AI analyses; an error where summing
   * the scores raises; otherwise the counts and the mean of the scores that are present.
   */
  function Stats(analyses: seq<AiPageAnalysis>): (r: Result<Option<AiStats>, string>)
    ensures r == Ok(None) <==> analyses == []
    ensures r.Err? <==> analyses != [] && MeanScore(Scores(analyses)).Err?
    ensures r.Ok? && r.value.Some? ==>
      var s, all := r.value.value, AllIssues(analyses);
      && s.pages == |analyses| && s.total == s.textIssues + s.htmlIssues + s.visualIssues == |all|
      && s.critical == |OfRank(all, 0)| && s.warning == |OfRank(all, 1)| && s.info == |OfRank(all, 2)|
      && s.avgScore == MeanScore(Scores(analyses)).value
  {
    if analyses == [] then Ok(None)
    else
      var mean := MeanScore(Scores(analyses));
      if mean.Err? then Err(mean.error)
      else
        var all := AllIssues(analyses);
        CountsAddUp(analyses);
        CountIsRankBlock(all);
        var t, h, v := TextCount(analyses), HtmlCount(analyses), VisualCount(analyses);
        Ok(Some(AiStats(|analyses|, t, h, v, t + h + v,
                        CountSeverity(all, "critical"), CountSeverity(all, "warning"), CountSeverity(all, "info"),
                        mean.value)))
  }

  // ---------------------------------------------------------------------------------------
  // Duration and the fourth card
  // ---------------------------------------------------------------------------------------

  /** `int(delta.total_seconds())`: the elapsed microseconds in whole seconds, truncated toward zero. */
  function WholeSeconds(delta: int): (w: int)
    ensures delta >= 0 ==> w >= 0 && w * 1000000 <= delta < (w + 1) * 1000000
    ensures delta < 0 ==> w <= 0 && (w - 1) * 1000000 < delta <= w * 1000000
  {
    if delta >= 0 then delta / 1000000 else -((-delta) / 1000000)
  }

  /** `divmod(seconds, 60)`, which floors: the seconds part is in `[0, 60)` even for a negative span. */
  function MinutesSeconds(total: int): (ms: (int, int))
    ensures 0 <= ms.1 < 60 && ms.0 * 60 + ms.1 == total
    ensures total >= 0 ==> ms.0 >= 0
  {
    (total / 60, total % 60)
  }

  /** The duration shown: nothing before the scan completes; minutes only when there are some. */
  function Duration(started: Timestamp, completed: Option<Timestamp>): (d: string)
    ensures completed.None? ==> d == ""
    ensures completed.Some? ==> d != [] && d[|d| - 1] == 's'
  {
    if completed.None? then ""
    else
      var ms := MinutesSeconds(WholeSeconds(completed.value - started));
      if ms.0 != 0 then IntToString(ms.0) + "m " + IntToString(ms.1) + "s" else IntToString(ms.1) + "s"
  }

  /** A completed scan always shows its seconds (below 60) last, after the whole minutes if any. */
  lemma {:induction false} DurationShape(started: Timestamp, completed: Timestamp)
    requires started <= completed
    ensures exists m: nat, s: nat | s < 60 && m * 60 + s == WholeSeconds(completed - started) ::
      Duration(started, Some(completed)) == (if m > 0 then IntToString(m) + "m " + IntToString(s) + "s" else IntToString(s) + "s")
  {
    var total := WholeSeconds(completed - started);
    var ms := MinutesSeconds(total);
    DurationText(started, completed, total, ms);
    var m: nat, s: nat := ms.0, ms.1;
    assert s < 60 && m * 60 + s == total;
  }

  /** The text of a completed span, read off its minutes and seconds. */
  lemma {:induction false} DurationText(started: Timestamp, completed: Timestamp, total: int, ms: (int, int))
    requires total == WholeSeconds(completed - started) && ms == MinutesSeconds(total)
    ensures Duration(started, Some(completed))
         == (if ms.0 != 0 then IntToString(ms.0) + "m " + IntToString(ms.1) + "s" else IntToString(ms.1) + "s")
  {
  }

  /** A completion recorded before the start shows negative minutes, since `divmod` floors. */
  lemma NegativeDuration()
    ensures Duration(1000000, Some(0)) == "-1m 59s"
  {
    assert WholeSeconds(-1000000) == -1;
    assert MinutesSeconds(-1) == (-1, 59);
    assert IntToString(-1) == "-1";
    assert IntToString(59) == "59";
  }

  /** The fourth statistics card. */
  datatype FourthCard = ScoreCard(score: real) | ErrorsCard(count: nat)

  /** `_generate_fourth_stat_card`: the average score when it is truthy (present and not 0), else the error count. */
  function FourthCardOf(stats: Option<AiStats>, report: AnalysisReport): (c: FourthCard)
    ensures c.ScoreCard? <==> stats.Some? && stats.value.avgScore.Some? && stats.value.avgScore.value != 0.0
    ensures c.ScoreCard? ==> c.score == stats.value.avgScore.value
    ensures c.ErrorsCard? ==> c.count == |report.errors|
  {
    if stats.Some? && stats.value.avgScore.Some? && stats.value.avgScore.value != 0.0 then ScoreCard(stats.value.avgScore.value)
    else ErrorsCard(|report.errors|)
  }

  // ---------------------------------------------------------------------------------------
  // Sections
  // ---------------------------------------------------------------------------------------

  /** One rendered entry: its title, its category tag and the lines below them. */
  datatype Card = Card(title: string, category: string, details: seq<string>)

  /** A section: the count in its badge, the entries it renders and the number the "more" note mentions. */
  datatype SectionView = SectionView(badge: nat, cards: seq<Card>, more: Option<nat>)

  /** A grammar issue: `category or 'Grammar'`; the suggestions line only when there are suggestions (at most three). */
  function GrammarCard(issue: GrammarIssue): (c: Card)
    ensures c.title == issue.message
    ensures c.category == (if issue.category == "" then "Grammar" else issue.category)
    ensures |c.details| == (if issue.suggestions == [] then 1 else 2)
  {
    Card(issue.message, if issue.category == "" then "Grammar" else issue.category,
         ["..." + issue.context + "..."]
         + (if issue.suggestions == [] then []
            else ["Suggestions: " + Join(", ", issue.suggestions[..Min(3, |issue.suggestions|)])]))
  }

  /** A broken link: the target cut to 80 characters, `error_type or 'Broken'`, `error_message or 'Link is broken'`. */
  function LinkCard(issue: LinkIssue): (c: Card)
    ensures |c.title| <= 80 && StartsWith(issue.targetUrl, c.title)
    ensures c.category == (if issue.errorType == "" then "Broken" else issue.errorType)
    ensures |c.details| == 2 && c.details[1] == (if issue.errorMessage == "" then "Link is broken" else issue.errorMessage)
  {
    AppendEnds(Take(issue.targetUrl, 80), issue.targetUrl[|Take(issue.targetUrl, 80)|..]);
    Card(Take(issue.targetUrl, 80), if issue.errorType == "" then "Broken" else issue.errorType,
         ["Source: " + issue.sourceUrl, if issue.errorMessage == "" then "Link is broken" else issue.errorMessage])
  }

  /** An OCR issue; `percent` is the `{:.0%}` format. */
  function OcrCard(issue: OcrIssue, percent: real -> string): (c: Card)
    ensures c.title == issue.issueType && c.details == [issue.description]
  {
    Card(issue.issueType, "OCR (" + percent(issue.confidence) + " confidence)", [issue.description])
  }

  /** An error: only its text. */
  function ErrorCard(error: string): (c: Card)
    ensures c.details == [error]
  {
    Card("", "", [error])
  }

  /** The `issues_html += ...` loop over the first `limit` items. */
  method RenderCards<T>(items: seq<T>, limit: nat, card: T -> Card) returns (cards: seq<Card>)
    ensures |cards| == Min(limit, |items|)
    ensures forall i | 0 <= i < |cards| :: cards[i] == card(items[i])
  {
    cards := [];
    var n := Min(limit, |items|);
    for i := 0 to n
      invariant |cards| == i
      invariant forall j | 0 <= j < i :: cards[j] == card(items[j])
    {
      cards := cards + [card(items[i])];
    }
  }

  /** What every section promises: nothing for no items, otherwise the full count and the first `limit` items. */
  ghost predicate Shows<T>(v: Option<SectionView>, items: seq<T>, limit: nat, card: T -> Card) {
    && (v.None? <==> items == [])
    && (v.Some? ==>
          && v.value.badge == |items|
          && |v.value.cards| == Min(limit, |items|)
          && (forall i | 0 <= i < |v.value.cards| :: v.value.cards[i] == card(items[i])))
  }

  /** `_generate_grammar_section`: the first 50, with a note on the rest exactly when there are more than 50. */
  method GrammarSection(report: AnalysisReport) returns (v: Option<SectionView>)
    ensures Shows(v, report.grammarIssues, 50, GrammarCard)
    ensures v.Some? ==> (v.value.more.Some? <==> |report.grammarIssues| > 50)
    ensures v.Some? && v.value.more.Some? ==> |v.value.cards| + v.value.more.value == v.value.badge
  {
    var issues := report.grammarIssues;
    if issues == [] {
      return None;
    }
    var cards := RenderCards(issues, 50, GrammarCard);
    var more := if |issues| > 50 then Some(|issues| - 50) else None;
    v := Some(SectionView(|issues|, cards, more));
  }

  /** `_generate_links_section`: the first 50 broken links, with a note on the rest exactly when there are more than 50. */
  method LinksSection(report: AnalysisReport) returns (v: Option<SectionView>)
    ensures Shows(v, report.linkIssues, 50, LinkCard)
    ensures v.Some? ==> (v.value.more.Some? <==> |report.linkIssues| > 50)
    ensures v.Some? && v.value.more.Some? ==> |v.value.cards| + v.value.more.value == v.value.badge
  {
    var issues := report.linkIssues;
    if issues == [] {
      return None;
    }
    var cards := RenderCards(issues, 50, LinkCard);
    var more := if |issues| > 50 then Some(|issues| - 50) else None;
    v := Some(SectionView(|issues|, cards, more));
  }

  /** `_generate_ocr_section`: the first 30 OCR issues and no note, however many there are. */
  method OcrSection(report: AnalysisReport, percent: real -> string) returns (v: Option<SectionView>)
    ensures Shows(v, report.ocrIssues, 30, (issue: OcrIssue) => OcrCard(issue, percent))
    ensures v.Some? ==> v.value.more.None?
  {
    var issues := report.ocrIssues;
    if issues == [] {
      return None;
    }
    var cards := RenderCards(issues, 30, (issue: OcrIssue) => OcrCard(issue, percent));
    v := Some(SectionView(|issues|, cards, None));
  }

  /** `_generate_errors_section`: every error, in order. */
  method ErrorsSection(report: AnalysisReport) returns (v: Option<SectionView>)
    ensures Shows(v, report.errors, |report.errors|, ErrorCard)
    ensures v.Some? ==> v.value.more.None? && |v.value.cards| == v.value.badge
  {
    var errors := report.errors;
    if errors == [] {
      return None;
    }
    var cards := RenderCards(errors, |errors|, ErrorCard);
    v := Some(SectionView(|errors|, cards, None));
  }

  /** One page of the AI section: its issues sorted by rank, its first ten text corrections, and the empty state when it has no issues. */
  datatype PageView = PageView(url: string, issues: seq<AiIssue>, corrections: seq<TextCorrection>, noIssues: bool)

  /** The AI section: the three severity badges (0 when a count is missing) and one view per page. */
  datatype AiView = AiView(critical: nat, warning: nat, info: nat, pages: seq<PageView>)

  function PageViewOf(a: AiPageAnalysis): (p: PageView)
    ensures p.url == a.url && p.issues == SortByRank(PageIssues(a))
    ensures |p.corrections| == Min(10, |a.textCorrections|) && p.corrections == a.textCorrections[..|p.corrections|]
    ensures p.noIssues <==> PageIssues(a) == []
  {
    var sorted := SortByRank(PageIssues(a));
    SortIsPermutation(PageIssues(a));
    PageView(a.url, sorted, a.textCorrections[..Min(10, |a.textCorrections|)], sorted == [])
  }

  /**
   * An AI issue renders when `html.escape` gets strings: the description (sliced to 100) and the
   * category always, the location and the suggestion when they are truthy; and its severity can be
   * looked up in the rank dict of the sort.
   */
  predicate IssueRenders(issue: AiIssue) {
    && issue.description.JStr? && issue.category.JStr?
    && (IsTruthy(issue.location) ==> issue.location.JStr?)
    && (IsTruthy(issue.suggestion) ==> issue.suggestion.JStr?)
    && Hashable(issue.severity)
  }

  /** A text correction among the first ten renders when its original, correction and explanation are strings. */
  predicate CorrectionRenders(c: TextCorrection) {
    c.original.JStr? && c.correction.JStr? && c.explanation.JStr?
  }

  /**
   * A page of the AI section renders: a truthy score can be compared with 8, 6 and 4; every issue
   * renders; a truthy dict visual summary has a string `overall_quality` when it has one at all;
   * and the first ten text corrections render. Anything else raises `TypeError` or `AttributeError`.
   */
  predicate PageRenders(a: AiPageAnalysis) {
    && (IsTruthy(a.visualScore) ==> Number(a.visualScore).Some?)
    && (forall k | 0 <= k < |PageIssues(a)| :: IssueRenders(PageIssues(a)[k]))
    && (IsTruthy(a.visualSummary) && a.visualSummary.JObject? && "overall_quality" in a.visualSummary.fields ==>
          a.visualSummary.fields["overall_quality"].JStr?)
    && (forall k | 0 <= k < Min(10, |a.textCorrections|) :: CorrectionRenders(a.textCorrections[k]))
  }

  /** The failure text for a page that does not render (Python's own message names the offending type). */
  const RenderFailure := "AI analysis value of the wrong type"

  /**
   * `_generate_ai_section`: nothing without AI analyses; a failure at the first page that does not
   * render; otherwise one page view per analysis, in order.
   */
  method AiSection(report: AnalysisReport, stats: Option<AiStats>) returns (r: Result<Option<AiView>, string>)
    ensures r.Err? <==> exists i | 0 <= i < |report.aiAnalyses| :: !PageRenders(report.aiAnalyses[i])
    ensures r.Err? ==> r.error == RenderFailure
    ensures r.Ok? ==> (r.value.None? <==> report.aiAnalyses == [])
    ensures r.Ok? && r.value.Some? ==> |r.value.value.pages| == |report.aiAnalyses|
    ensures r.Ok? && r.value.Some? ==>
      forall i | 0 <= i < |r.value.value.pages| :: r.value.value.pages[i] == PageViewOf(report.aiAnalyses[i])
    ensures r.Ok? && r.value.Some? && stats.Some? ==>
      var v := r.value.value;
      v.critical == stats.value.critical && v.warning == stats.value.warning && v.info == stats.value.info
    ensures r.Ok? && r.value.Some? && stats.None? ==> r.value.value.critical == 0 && r.value.value.warning == 0 && r.value.value.info == 0
  {
    var analyses := report.aiAnalyses;
    if analyses == [] {
      return Ok(None);
    }
    var pages: seq<PageView> := [];
    for i := 0 to |analyses|
      invariant |pages| == i
      invariant forall j | 0 <= j < i :: PageRenders(analyses[j]) && pages[j] == PageViewOf(analyses[j])
    {
      if !PageRenders(analyses[i]) {
        return Err(RenderFailure);
      }
      pages := pages + [PageViewOf(analyses[i])];
    }
    var v := if stats.Some? then AiView(stats.value.critical, stats.value.warning, stats.value.info, pages)
             else AiView(0, 0, 0, pages);
    r := Ok(Some(v));
  }

  /** An AI issue whose description is `null`, as a parsed answer may give, makes its page fail to render. */
  lemma {:induction false} NullDescriptionFails(a: AiPageAnalysis, k: int)
    requires 0 <= k < |a.textIssues| && a.textIssues[k].description == JNull
    ensures !PageRenders(a)
  {
    assert PageIssues(a)[k] == a.textIssues[k];
  }

  // ---------------------------------------------------------------------------------------
  // The whole report
  // ---------------------------------------------------------------------------------------

  /** What the report shows, section by section (`None` is a section that renders as nothing). */
  datatype ReportView = ReportView(
    totalIssues: nat, stats: Option<AiStats>, duration: string, fourth: FourthCard,
    ai: Option<AiView>, grammar: Option<SectionView>, links: Option<SectionView>,
    ocr: Option<SectionView>, errors: Option<SectionView>)

  /**
   * `generate_html_report`, up to the markup: it fails where the score sum raises, and otherwise
   * where a page of the AI section does not render.
   */
  method GenerateReport(report: AnalysisReport, percent: real -> string) returns (r: Result<ReportView, string>)
    ensures r.Err? <==> Stats(report.aiAnalyses).Err? || exists i | 0 <= i < |report.aiAnalyses| :: !PageRenders(report.aiAnalyses[i])
    ensures r.Err? && Stats(report.aiAnalyses).Err? ==> r.error == Stats(report.aiAnalyses).error
    ensures r.Err? && Stats(report.aiAnalyses).Ok? ==> r.error == RenderFailure
    ensures r.Ok? ==> r.value.stats == Stats(report.aiAnalyses).value
    ensures r.Ok? && r.value.ai.Some? ==> |r.value.ai.value.pages| == |report.aiAnalyses|
    ensures r.Ok? && r.value.ai.Some? ==>
      forall i | 0 <= i < |report.aiAnalyses| :: r.value.ai.value.pages[i] == PageViewOf(report.aiAnalyses[i])
    ensures r.Ok? ==> r.value.totalIssues == TotalIssues(report)
    ensures r.Ok? ==> r.value.duration == Duration(report.scanStarted, report.scanCompleted)
    ensures r.Ok? ==> r.value.fourth == FourthCardOf(r.value.stats, report)
    ensures r.Ok? ==> (r.value.ai.None? <==> report.aiAnalyses == [])
    ensures r.Ok? ==> (r.value.grammar.None? <==> report.grammarIssues == []) && (r.value.links.None? <==> report.linkIssues == [])
    ensures r.Ok? ==> (r.value.ocr.None? <==> report.ocrIssues == []) && (r.value.errors.None? <==> report.errors == [])
  {
    var stats := Stats(report.aiAnalyses);
    if stats.Err? {
      return Err(stats.error);
    }
    var ai := AiSection(report, stats.value);
    if ai.Err? {
      return Err(ai.error);
    }
    var grammar := GrammarSection(report);
    var links := LinksSection(report);
    var ocr := OcrSection(report, percent);
    var errors := ErrorsSection(report);
    r := Ok(ReportView(TotalIssues(report), stats.value, Duration(report.scanStarted, report.scanCompleted),
                       FourthCardOf(stats.value, report), ai.value, grammar, links, ocr, errors));
  }
}
