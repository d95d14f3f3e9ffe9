/**
 * The OCR analyzer: it reads the words Tesseract finds in a screenshot, checks them with the
 * grammar analyzer and looks for placeholder text and mis-decoded characters.
 */
module Ocr {
  import opened Common
  import opened Strings
  import opened Models
  import opened Grammar

  /** Below this average confidence the recognised text is ignored. */
  const MinConfidence: real := 0.3
  const PlaceholderConfidence: real := 0.9
  const EncodingConfidence: real := 0.8

  /** A pattern that should never be visible on a page, and what its presence means. */
  datatype Placeholder = Placeholder(pattern: string, description: string)

  const Placeholders: seq<Placeholder> := [
    Placeholder("Lorem ipsum", "Placeholder text detected"),
    Placeholder("TODO:", "TODO marker visible to users"),
    Placeholder("FIXME:", "FIXME marker visible to users"),
    Placeholder("XXX", "XXX marker visible to users"),
    Placeholder("[object Object]", "JavaScript object rendered as text"),
    Placeholder("undefined", "Undefined value displayed"),
    Placeholder("null", "Null value displayed"),
    Placeholder("NaN", "NaN value displayed")
  ]

  /** UTF-8 text decoded as Windows-1252: `â€`, `Ã¢`, `Ã©`, `â€™`, `â€œ`, in the order they are tried. */
  const EncodingMarks: seq<string> := [
    "\U{00E2}\U{20AC}",
    "\U{00C3}\U{00A2}",
    "\U{00C3}\U{00A9}",
    "\U{00E2}\U{20AC}\U{2122}",
    "\U{00E2}\U{20AC}\U{0153}"
  ]

  // ---------------------------------------------------------------------------------------
  // Text extraction

  /** A word Tesseract reports is kept when it is not blank and its confidence is positive. */
  predicate KeepWord(word: string, conf: int) {
    !IsBlank(word) && conf > 0
  }

  /** The kept words with their confidences, in order. */
  function KeptWords(words: seq<string>, confs: seq<int>): (kept: seq<(string, int)>)
    requires |words| <= |confs|
    ensures |kept| <= |words|
    ensures forall k | 0 <= k < |kept| :: KeepWord(kept[k].0, kept[k].1)
  {
    if words == [] then []
    else
      var n := |words| - 1;
      KeptWords(words[..n], confs[..n]) + (if KeepWord(words[n], confs[n]) then [(words[n], confs[n])] else [])
  }

  /** Every word that passes the filter is kept. */
  lemma {:induction false} KeptWordsComplete(words: seq<string>, confs: seq<int>)
    requires |words| <= |confs|
    ensures forall i | 0 <= i < |words| :: KeepWord(words[i], confs[i]) ==> (words[i], confs[i]) in KeptWords(words, confs)
  {
    if words != [] {
      var n := |words| - 1;
      KeptWordsComplete(words[..n], confs[..n]);
      forall i | 0 <= i < n && KeepWord(words[i], confs[i])
        ensures (words[i], confs[i]) in KeptWords(words, confs)
      {
        assert words[..n][i] == words[i] && confs[..n][i] == confs[i];
      }
    }
  }

  /** Every kept pair is one of the input pairs. */
  lemma {:induction false} KeptWordsSound(words: seq<string>, confs: seq<int>)
    requires |words| <= |confs|
    ensures forall pair | pair in KeptWords(words, confs) :: exists i | 0 <= i < |words| :: pair == (words[i], confs[i])
  {
    if words != [] {
      var n := |words| - 1;
      KeptWordsSound(words[..n], confs[..n]);
      forall pair | pair in KeptWords(words, confs)
        ensures exists i | 0 <= i < |words| :: pair == (words[i], confs[i])
      {
        if pair in KeptWords(words[..n], confs[..n]) {
          var i :| 0 <= i < n && pair == (words[..n][i], confs[..n][i]);
          assert pair == (words[i], confs[i]);
        } else {
          assert pair == (words[n], confs[n]);
        }
      }
    }
  }

  function Words(kept: seq<(string, int)>): (ws: seq<string>)
    ensures |ws| == |kept| && forall k | 0 <= k < |kept| :: ws[k] == kept[k].0
  {
    if kept == [] then [] else Words(kept[..|kept| - 1]) + [kept[|kept| - 1].0]
  }

  function SumConfidence(kept: seq<(string, int)>): int {
    if kept == [] then 0 else SumConfidence(kept[..|kept| - 1]) + kept[|kept| - 1].1
  }

  /** The mean confidence of the kept words, scaled to 0..1; 0 when none was kept. */
  function MeanConfidence(kept: seq<(string, int)>): real {
    if kept == [] then 0.0 else SumConfidence(kept) as real / |kept| as real / 100.0
  }

  /**
   * `_extract_text_from_image`: the kept words joined by spaces and their mean confidence.
   * `data` is what Tesseract returned (words and their confidences), `None` when the image
   * could not be opened or read; a confidence list shorter than the word list makes the
   * indexing fail. Every failure gives `("", 0.0)`.
   */
  function Extracted(data: Option<(seq<string>, seq<int>)>): (string, real)
  {
    if data.None? || |data.value.1| < |data.value.0| then ("", 0.0)
    else
      var kept := KeptWords(data.value.0, data.value.1);
      (Join(" ", Words(kept)), MeanConfidence(kept))
  }

  /** The sum of positive confidences is positive, and at most 100 per word when each is. */
  lemma {:induction false} SumBounds(kept: seq<(string, int)>)
    requires forall k | 0 <= k < |kept| :: kept[k].1 > 0
    ensures kept != [] ==> SumConfidence(kept) > 0
    ensures (forall k | 0 <= k < |kept| :: kept[k].1 <= 100) ==> SumConfidence(kept) <= 100 * |kept|
  {
    if kept != [] {
      SumBounds(kept[..|kept| - 1]);
    }
  }

  /** A mean of at most 100 per item, scaled by 1/100, is at most 1. */
  lemma {:induction false} DivBound(sum: int, n: int)
    requires 0 < n && 0 < sum <= 100 * n
    ensures 0.0 < sum as real / n as real / 100.0 <= 1.0
  {
    assert sum as real <= 100.0 * n as real;
    assert sum as real / n as real <= 100.0;
  }

  /** The joined text is empty exactly when no word was kept, which is when the mean is 0. */
  lemma {:induction false} JoinedEmptyIff(kept: seq<(string, int)>)
    requires forall k | 0 <= k < |kept| :: KeepWord(kept[k].0, kept[k].1)
    ensures Join(" ", Words(kept)) == "" <==> kept == []
    ensures MeanConfidence(kept) == 0.0 <==> kept == []
  {
    if kept != [] {
      assert Words(kept)[0] == kept[0].0;
      assert kept[0].0 != "";
      SumBounds(kept);
      PositiveMean(SumConfidence(kept), |kept|);
    }
  }

  lemma {:induction false} PositiveMean(sum: int, n: int)
    requires 0 < n && 0 < sum
    ensures 0.0 < sum as real / n as real / 100.0
  {
  }

  /** With percentages as confidences, the mean is at most 1. */
  lemma {:induction false} MeanAtMostOne(kept: seq<(string, int)>)
    requires forall k | 0 <= k < |kept| :: KeepWord(kept[k].0, kept[k].1) && kept[k].1 <= 100
    ensures 0.0 <= MeanConfidence(kept) <= 1.0
  {
    SumBounds(kept);
    if kept != [] {
      DivBound(SumConfidence(kept), |kept|);
    }
  }

  /**
   * No text and a zero confidence go together, the confidence is never negative, and it is at
   * most 1 when Tesseract's confidences are percentages.
   */
  lemma {:induction false} ExtractedBounds(data: Option<(seq<string>, seq<int>)>)
    ensures Extracted(data).0 == "" <==> Extracted(data).1 == 0.0
    ensures 0.0 <= Extracted(data).1
    ensures data.Some? && (forall i | 0 <= i < |data.value.1| :: data.value.1[i] <= 100) ==> Extracted(data).1 <= 1.0
  {
    if data.Some? && |data.value.0| <= |data.value.1| {
      var kept := KeptWords(data.value.0, data.value.1);
      JoinedEmptyIff(kept);
      SumBounds(kept);
      if forall i | 0 <= i < |data.value.1| :: data.value.1[i] <= 100 {
        KeptWordsSound(data.value.0, data.value.1);
        forall k | 0 <= k < |kept| ensures kept[k].1 <= 100 {
          assert kept[k] in kept;
        }
        MeanAtMostOne(kept);
      }
    }
  }

  /** `_extract_text_from_image`: the words Tesseract found, filtered, joined and averaged. */
  method ExtractText(data: Option<(seq<string>, seq<int>)>) returns (text: string, confidence: real)
    ensures text == Extracted(data).0 && confidence == Extracted(data).1
  {
    if data.None? {
      return "", 0.0;
    }
    var words, confs := data.value.0, data.value.1;
    if |confs| < |words| {
      // The loop would fail at the first word without a confidence.
      return "", 0.0;
    }
    var kept, sum := KeepWords(words, confs);
    text := Join(" ", Words(kept));
    confidence := if kept == [] then 0.0 else sum as real / |kept| as real / 100.0;
  }

  /** The loop over the words: it collects the kept words with their confidences, and sums the confidences. */
  method KeepWords(words: seq<string>, confs: seq<int>) returns (kept: seq<(string, int)>, sum: int)
    requires |words| <= |confs|
    ensures kept == KeptWords(words, confs) && sum == SumConfidence(kept)
  {
    kept, sum := [], 0;
    for i := 0 to |words|
      invariant kept == KeptWords(words[..i], confs[..i]) && sum == SumConfidence(kept)
    {
      KeptSumStep(words, confs, i, kept, sum);
      if Strip(words[i]) != "" && confs[i] > 0 {
        kept := kept + [(words[i], confs[i])];
        sum := sum + confs[i];
      }
    }
    assert words[..|words|] == words;
    KeptPrefix(words, confs);
  }

  /** One more word: the filter decides on it alone. */
  lemma {:induction false} KeptStep(words: seq<string>, confs: seq<int>, i: int)
    requires 0 <= i < |words| <= |confs|
    ensures KeptWords(words[..i + 1], confs[..i + 1])
         == KeptWords(words[..i], confs[..i]) + (if KeepWord(words[i], confs[i]) then [(words[i], confs[i])] else [])
  {
    assert words[..i + 1][..i] == words[..i] && confs[..i + 1][..i] == confs[..i];
  }

  /** One pass of the loop keeps the kept words and their confidence sum in step with the filter. */
  lemma {:induction false} KeptSumStep(words: seq<string>, confs: seq<int>, i: int, kept: seq<(string, int)>, sum: int)
    requires 0 <= i < |words| <= |confs|
    requires kept == KeptWords(words[..i], confs[..i]) && sum == SumConfidence(kept)
    ensures var keep := Strip(words[i]) != "" && confs[i] > 0;
      var kept' := if keep then kept + [(words[i], confs[i])] else kept;
      kept' == KeptWords(words[..i + 1], confs[..i + 1])
      && (if keep then sum + confs[i] else sum) == SumConfidence(kept')
  {
    KeptStep(words, confs, i);
    StripBlank(words[i]);
    if KeepWord(words[i], confs[i]) {
      var grown := kept + [(words[i], confs[i])];
      assert grown[..|grown| - 1] == kept;
      assert SumConfidence(grown) == sum + confs[i];
    }
  }

  /** Confidences past the last word are never read. */
  lemma {:induction false} KeptPrefix(words: seq<string>, confs: seq<int>)
    requires |words| <= |confs|
    ensures KeptWords(words, confs[..|words|]) == KeptWords(words, confs)
  {
    if words != [] {
      var n := |words| - 1;
      assert confs[..|words|][..n] == confs[..n];
      KeptPrefix(words[..n], confs[..n]);
      assert confs[..n][..n] == confs[..n];
    }
  }

  // ---------------------------------------------------------------------------------------
  // Placeholder and encoding checks

  /** The text shows a placeholder: its pattern occurs, ignoring case. */
  predicate Shows(text: string, p: Placeholder) {
    Contains(Lower(text), Lower(p.pattern))
  }

  function PlaceholderIssue(path: string, p: Placeholder): (issue: OcrIssue)
    ensures issue.extractedText == p.pattern && issue.description == p.description
    ensures issue.issueType == "placeholder_text" && issue.confidence == PlaceholderConfidence
  {
    OcrIssue(path, p.pattern, "placeholder_text", p.description, PlaceholderConfidence)
  }

  function EncodingIssue(path: string, mark: string): (issue: OcrIssue)
    ensures issue.extractedText == mark && issue.issueType == "encoding_issue" && issue.confidence == EncodingConfidence
  {
    OcrIssue(path, mark, "encoding_issue", "Possible character encoding problem detected", EncodingConfidence)
  }

  /** One issue per placeholder the text shows, in list order. */
  function PlaceholderIssues(text: string, path: string, ps: seq<Placeholder>): (issues: seq<OcrIssue>)
    ensures |issues| <= |ps|
  {
    if ps == [] then []
    else
      var last := ps[|ps| - 1];
      PlaceholderIssues(text, path, ps[..|ps| - 1]) + (if Shows(text, last) then [PlaceholderIssue(path, last)] else [])
  }

  /** Checking one more placeholder appends its issue when the text shows it. */
  lemma {:induction false} PlaceholderStep(text: string, path: string, ps: seq<Placeholder>, i: int)
    requires 0 <= i < |ps|
    ensures PlaceholderIssues(text, path, ps[..i + 1])
      == PlaceholderIssues(text, path, ps[..i]) + (if Shows(text, ps[i]) then [PlaceholderIssue(path, ps[i])] else [])
  {
    var prefix := ps[..i + 1];
    assert prefix[..i] == ps[..i] && prefix[i] == ps[i];
  }

  /** A placeholder is reported exactly when the text shows it, and nothing else is reported. */
  lemma {:induction false} PlaceholderIssuesMeans(text: string, path: string, ps: seq<Placeholder>)
    ensures forall p | p in ps :: PlaceholderIssue(path, p) in PlaceholderIssues(text, path, ps) <==> Shows(text, p)
    ensures forall issue | issue in PlaceholderIssues(text, path, ps) ::
      exists p | p in ps :: Shows(text, p) && issue == PlaceholderIssue(path, p)
  {
    if ps != [] {
      var init := ps[..|ps| - 1];
      PlaceholderIssuesMeans(text, path, init);
      forall p | p in ps
        ensures PlaceholderIssue(path, p) in PlaceholderIssues(text, path, ps) <==> Shows(text, p)
      {
        if p != ps[|ps| - 1] {
          assert p in init;
        }
      }
      forall issue | issue in PlaceholderIssues(text, path, ps)
        ensures exists p | p in ps :: Shows(text, p) && issue == PlaceholderIssue(path, p)
      {
        if issue in PlaceholderIssues(text, path, init) {
          var p :| p in init && Shows(text, p) && issue == PlaceholderIssue(path, p);
          assert p in ps;
        }
      }
    }
  }

  /** The first encoding mark, in list order, that occurs in the text (case matters). */
  function FirstMark(text: string, marks: seq<string>): (r: Option<string>)
    ensures r.Some? ==> r.value in marks && Contains(text, r.value)
    ensures r.None? <==> forall m | m in marks :: !Contains(text, m)
  {
    if marks == [] then None
    else if Contains(text, marks[0]) then Some(marks[0])
    else FirstMark(text, marks[1..])
  }

  /** The mark found comes before every other mark that occurs. */
  lemma {:induction false} FirstMarkIsFirst(text: string, marks: seq<string>, i: int)
    requires 0 <= i < |marks| && Contains(text, marks[i])
    ensures exists j | 0 <= j <= i :: FirstMark(text, marks) == Some(marks[j]) && forall k | 0 <= k < j :: !Contains(text, marks[k])
  {
    if !Contains(text, marks[0]) {
      FirstMarkIsFirst(text, marks[1..], i - 1);
      var j :| 0 <= j <= i - 1 && FirstMark(text, marks[1..]) == Some(marks[1..][j])
        && forall k | 0 <= k < j :: !Contains(text, marks[1..][k]);
      assert forall k | 1 <= k < j + 1 :: marks[k] == marks[1..][k - 1];
    }
  }

  /** The first mark the text holds, scanning in order, is the one found. */
  lemma {:induction false} FirstMarkAt(text: string, marks: seq<string>, i: int)
    requires 0 <= i < |marks| && Contains(text, marks[i])
    requires forall k | 0 <= k < i :: !Contains(text, marks[k])
    ensures FirstMark(text, marks) == Some(marks[i])
  {
    if i > 0 {
      assert !Contains(text, marks[0]);
      assert forall k | 0 <= k < i - 1 :: marks[1..][k] == marks[k + 1];
      FirstMarkAt(text, marks[1..], i - 1);
    }
  }

  /** A text that holds none of the marks has no first mark. */
  lemma {:induction false} NoMark(text: string, marks: seq<string>)
    requires forall k | 0 <= k < |marks| :: !Contains(text, marks[k])
    ensures FirstMark(text, marks) == None
  {
    forall m | m in marks ensures !Contains(text, m) {
      var k :| 0 <= k < |marks| && marks[k] == m;
    }
  }

  /** A string that holds `b` holds every prefix of `b`. */
  lemma {:induction false} ContainsPrefix(text: string, a: string, b: string)
    requires StartsWith(b, a) && Contains(text, b)
    ensures Contains(text, a)
  {
    var i :| 0 <= i <= |text| && OccursAt(text, b, i);
    assert text[i..i + |a|] == b[..|a|];
    assert OccursAt(text, a, i);
  }

  /** `â€` is a prefix of `â€™` and `â€œ`, so neither of those two is ever the mark reported. */
  lemma {:induction false} LongMarksNeverReported(text: string)
    ensures FirstMark(text, EncodingMarks) != Some(EncodingMarks[3])
    ensures FirstMark(text, EncodingMarks) != Some(EncodingMarks[4])
  {
    var marks := EncodingMarks;
    assert StartsWith(marks[3], marks[0]) && StartsWith(marks[4], marks[0]);
    if Contains(text, marks[3]) {
      ContainsPrefix(text, marks[0], marks[3]);
    }
    if Contains(text, marks[4]) {
      ContainsPrefix(text, marks[0], marks[4]);
    }
  }

  /** At most one encoding issue: the first mark found. */
  function EncodingIssues(text: string, path: string): (issues: seq<OcrIssue>)
    ensures |issues| <= 1
    ensures issues != [] <==> exists m | m in EncodingMarks :: Contains(text, m)
  {
    match FirstMark(text, EncodingMarks)
    case None => []
    case Some(m) => [EncodingIssue(path, m)]
  }

  /** `_check_visual_text_issues`: the placeholder issues, then at most one encoding issue; at most nine in all. */
  function VisualIssues(text: string, path: string): (issues: seq<OcrIssue>)
    ensures |issues| <= |Placeholders| + 1
  {
    PlaceholderIssues(text, path, Placeholders) + EncodingIssues(text, path)
  }

  /** Ordinary words trip the case-insensitive check: `finance` shows the `NaN` placeholder. */
  lemma FinanceShowsNaN()
    ensures Shows("Finance", Placeholders[7])
  {
    LowerFinance();
    LowerNaN();
    assert "finance"[2..5] == "nan";
    assert OccursAt("finance", "nan", 2);
  }

  lemma LowerFinance() ensures Lower("Finance") == "finance" {}
  lemma LowerNaN() ensures Lower("NaN") == "nan" {}

  /** The loops of `_check_visual_text_issues`; the encoding loop stops at the first mark found. */
  method CheckVisualTextIssues(text: string, path: string) returns (issues: seq<OcrIssue>)
    ensures issues == VisualIssues(text, path)
  {
    issues := [];
    var textLower := Lower(text);
    for i := 0 to |Placeholders|
      invariant issues == PlaceholderIssues(text, path, Placeholders[..i])
    {
      var p := Placeholders[i];
      PlaceholderStep(text, path, Placeholders, i);
      if Contains(textLower, Lower(p.pattern)) {
        issues := issues + [PlaceholderIssue(path, p)];
      }
    }
    assert Placeholders[..|Placeholders|] == Placeholders;
    ghost var placeholders := issues;
    for i := 0 to |EncodingMarks|
      invariant issues == placeholders
      invariant forall k | 0 <= k < i :: !Contains(text, EncodingMarks[k])
    {
      if Contains(text, EncodingMarks[i]) {
        FirstMarkAt(text, EncodingMarks, i);
        issues := issues + [EncodingIssue(path, EncodingMarks[i])];
        return;
      }
    }
    NoMark(text, EncodingMarks);
  }

  // ---------------------------------------------------------------------------------------
  // Whole screenshots

  /** The grammar issues LanguageTool's answer gives for the text; a failed check gives none. */
  function GrammarIssuesOf(text: string, check: string -> Result<seq<Match>, string>): seq<GrammarIssue> {
    if check(text).Ok? then IssuesOf(text, check(text).value) else []
  }

  /** Each grammar issue becomes one `grammar` OCR issue with the OCR confidence. */
  function GrammarOcrIssues(path: string, gs: seq<GrammarIssue>, confidence: real): (issues: seq<OcrIssue>)
    ensures |issues| == |gs|
    ensures forall i | 0 <= i < |gs| ::
      issues[i] == OcrIssue(path, gs[i].context, "grammar", gs[i].message, confidence)
  {
    if gs == [] then []
    else GrammarOcrIssues(path, gs[..|gs| - 1], confidence) + [OcrIssue(path, gs[|gs| - 1].context, "grammar", gs[|gs| - 1].message, confidence)]
  }

  /** Converting one more grammar issue appends its OCR issue. */
  lemma {:induction false} GrammarOcrStep(path: string, gs: seq<GrammarIssue>, confidence: real, i: int)
    requires 0 <= i < |gs|
    ensures GrammarOcrIssues(path, gs[..i + 1], confidence)
      == GrammarOcrIssues(path, gs[..i], confidence) + [OcrIssue(path, gs[i].context, "grammar", gs[i].message, confidence)]
  {
    var prefix := gs[..i + 1];
    assert prefix[..i] == gs[..i] && prefix[i] == gs[i];
  }

  /** The loop of `analyze` that turns each grammar issue into a `grammar` OCR issue. */
  method ToOcrIssues(path: string, gs: seq<GrammarIssue>, confidence: real) returns (issues: seq<OcrIssue>)
    ensures issues == GrammarOcrIssues(path, gs, confidence)
  {
    issues := [];
    for i := 0 to |gs|
      invariant issues == GrammarOcrIssues(path, gs[..i], confidence)
    {
      GrammarOcrStep(path, gs, confidence, i);
      issues := issues + [OcrIssue(path, gs[i].context, "grammar", gs[i].message, confidence)];
    }
    assert gs[..|gs|] == gs;
  }

  /** What `analyze` reports for one screenshot, once the grammar tool is running. */
  function ScreenshotIssues(path: string, text: string, confidence: real, check: string -> Result<seq<Match>, string>): seq<OcrIssue> {
    if text == "" || confidence < MinConfidence then []
    else GrammarOcrIssues(path, GrammarIssuesOf(text, check), confidence) + VisualIssues(text, path)
  }

  /**
   * A screenshot yields issues only when text was recognised with confidence at least 0.3;
   * the grammar issues come first, then at most nine visual ones.
   */
  lemma {:induction false} ScreenshotIssuesShape(path: string, text: string, confidence: real, check: string -> Result<seq<Match>, string>)
    ensures var issues := ScreenshotIssues(path, text, confidence, check);
      && (issues != [] ==> text != "" && MinConfidence <= confidence)
      && |issues| <= |GrammarIssuesOf(text, check)| + 9
      && forall i, j | 0 <= i < j < |issues| :: issues[j].issueType == "grammar" ==> issues[i].issueType == "grammar"
  {
    if text != "" && MinConfidence <= confidence {
      var gs := GrammarOcrIssues(path, GrammarIssuesOf(text, check), confidence);
      var vs := VisualIssues(text, path);
      VisualNotGrammar(text, path);
      var issues := gs + vs;
      forall i, j | 0 <= i < j < |issues| && issues[j].issueType == "grammar"
        ensures issues[i].issueType == "grammar"
      {
        assert j < |gs|;
      }
    }
  }

  /** No visual issue is a grammar issue. */
  lemma {:induction false} VisualNotGrammar(text: string, path: string)
    ensures forall issue | issue in VisualIssues(text, path) :: issue.issueType != "grammar"
  {
    PlaceholderIssuesMeans(text, path, Placeholders);
  }

  /** `analyze_batch`: the issues of every screenshot, concatenated in path order. */
  function BatchIssues(paths: seq<string>, ocr: string -> Option<(seq<string>, seq<int>)>,
                       check: string -> Result<seq<Match>, string>): seq<OcrIssue>
  {
    if paths == [] then []
    else
      BatchIssues(paths[..|paths| - 1], ocr, check) + PathIssues(paths[|paths| - 1], ocr, check)
  }

  /** The batch is the per-screenshot analysis of each part, one part after the other. */
  lemma {:induction false} BatchAppend(a: seq<string>, b: seq<string>, ocr: string -> Option<(seq<string>, seq<int>)>,
                                       check: string -> Result<seq<Match>, string>)
    ensures BatchIssues(a + b, ocr, check) == BatchIssues(a, ocr, check) + BatchIssues(b, ocr, check)
    decreases |b|
  {
    if b == [] {
      assert a + b == a;
    } else {
      var init := b[..|b| - 1];
      assert (a + b)[..|a + b| - 1] == a + init && (a + b)[|a + b| - 1] == b[|b| - 1];
      BatchLast(a + b, ocr, check);
      BatchLast(b, ocr, check);
      BatchAppend(a, init, ocr, check);
      SeqAssoc(BatchIssues(a, ocr, check), BatchIssues(init, ocr, check), PathIssues(b[|b| - 1], ocr, check));
    }
  }

  /** The issues of one screenshot, as the batch finds them. */
  function PathIssues(path: string, ocr: string -> Option<(seq<string>, seq<int>)>,
                      check: string -> Result<seq<Match>, string>): seq<OcrIssue>
  {
    ScreenshotIssues(path, Extracted(ocr(path)).0, Extracted(ocr(path)).1, check)
  }

  /** A non-empty batch is the batch of all but the last path, then the last path's issues. */
  lemma {:induction false} BatchLast(paths: seq<string>, ocr: string -> Option<(seq<string>, seq<int>)>,
                                     check: string -> Result<seq<Match>, string>)
    requires paths != []
    ensures BatchIssues(paths, ocr, check) == BatchIssues(paths[..|paths| - 1], ocr, check) + PathIssues(paths[|paths| - 1], ocr, check)
  {
  }

  lemma {:induction false} SeqAssoc<T>(x: seq<T>, y: seq<T>, z: seq<T>)
    ensures (x + y) + z == x + (y + z)
  {
  }

  /** `OCRAnalyzer`, which shares the grammar analyzer's LanguageTool instance. */
  class OcrAnalyzer {
    const grammar: GrammarAnalyzer
    const tesseractLang: string

    constructor(tesseractLang: string, grammarLanguage: string)
      ensures this.tesseractLang == tesseractLang && fresh(grammar)
      ensures grammar.language == grammarLanguage && !grammar.toolStarted
    {
      this.tesseractLang := tesseractLang;
      grammar := new GrammarAnalyzer(grammarLanguage);
    }

    /** `start` and `stop` start and stop the grammar analyzer. */
    method Start(initOk: bool) returns (ok: bool)
      modifies grammar
      ensures grammar.toolStarted == (old(grammar.toolStarted) || initOk) && ok == grammar.toolStarted
    {
      ok := grammar.Start(initOk);
    }

    method Stop()
      modifies grammar
      ensures !grammar.toolStarted
    {
      grammar.Stop();
    }

    /**
     * `analyze`: recognise the text, give up on empty or unsure text, then report the grammar
     * issues in it followed by the visual ones. `data` is Tesseract's answer for the image and
     * `check` LanguageTool's; a grammar tool that cannot be started fails the call.
     */
    method Analyze(path: string, data: Option<(seq<string>, seq<int>)>, check: string -> Result<seq<Match>, string>, initOk: bool)
      returns (r: Result<seq<OcrIssue>, string>)
      modifies grammar
      ensures grammar.toolStarted == (old(grammar.toolStarted) || initOk)
      ensures r.Err? <==> !grammar.toolStarted
      ensures r.Ok? ==> r.value == ScreenshotIssues(path, Extracted(data).0, Extracted(data).1, check)
    {
      var ok := Start(initOk);
      if !ok {
        return Err("LanguageTool could not be started");
      }
      var text, confidence := ExtractText(data);
      if text == "" || confidence < MinConfidence {
        return Ok([]);
      }
      var grammarResult := grammar.AnalyzeText(text, check, initOk);
      var issues := ToOcrIssues(path, grammarResult.value, confidence);
      var visual := CheckVisualTextIssues(text, path);
      issues := issues + visual;
      return Ok(issues);
    }

    /** `analyze_batch`: every screenshot in turn, the issues concatenated. */
    method AnalyzeBatch(paths: seq<string>, ocr: string -> Option<(seq<string>, seq<int>)>,
                        check: string -> Result<seq<Match>, string>, initOk: bool)
      returns (r: Result<seq<OcrIssue>, string>)
      modifies grammar
      ensures grammar.toolStarted == (old(grammar.toolStarted) || initOk)
      ensures r.Err? <==> !grammar.toolStarted
      ensures r.Ok? ==> r.value == BatchIssues(paths, ocr, check)
    {
      var ok := Start(initOk);
      if !ok {
        return Err("LanguageTool could not be started");
      }
      var all: seq<OcrIssue> := [];
      for i := 0 to |paths|
        invariant grammar.toolStarted
        invariant all == BatchIssues(paths[..i], ocr, check)
      {
        var issues := Analyze(paths[i], ocr(paths[i]), check, initOk);
        assert paths[..i + 1][..i] == paths[..i];
        all := all + issues.value;
      }
      assert paths[..|paths|] == paths;
      return Ok(all);
    }
  }
}
