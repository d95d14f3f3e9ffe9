/**
 * The extractors' file naming (`BaseExtractor._url_to_filename`) and the text extractor's
 * metadata header (`TextExtractor.extract`). Writing the file is not modelled; whether the
 * write succeeded is a parameter.
 */
module Extractors {
  import opened Common
  import opened Strings
  import opened Urls
  import opened UrlRoundTrip
  import opened Models

  /** The stem is cut to this many characters before it is sanitised. */
  const MaxStemLength: nat := 200

  /** The characters of `safe_chars`: ASCII letters, digits, `-` and `_`. */
  predicate IsSafeChar(c: char) {
    IsAsciiAlpha(c) || IsAsciiDigit(c) || c == '-' || c == '_'
  }

  function SafeChar(c: char): (d: char)
    ensures IsSafeChar(d)
    ensures IsSafeChar(c) ==> d == c
  {
    if IsSafeChar(c) then c else '_'
  }

  /** The generator join: each character outside `safe_chars` becomes `_`. */
  function SafeName(s: string): (r: string)
    ensures |r| == |s|
    ensures forall i | 0 <= i < |s| :: r[i] == SafeChar(s[i])
  {
    if s == [] then [] else [SafeChar(s[0])] + SafeName(s[1..])
  }

  /** Sanitising leaves a name that is already safe unchanged. */
  lemma {:induction false} SafeNameKeepsSafe(s: string)
    requires forall i | 0 <= i < |s| :: IsSafeChar(s[i])
    ensures SafeName(s) == s
  {
  }

  /** The path with its outer `/` stripped and inner `/` turned into `_`, or `index` when that leaves nothing. */
  function PathName(path: string): (name: string)
    ensures name != [] && '/' !in name
    ensures StripChar(path, '/') == "" ==> name == "index"
    ensures StripChar(path, '/') != "" ==> |name| == |StripChar(path, '/')|
  {
    var t := StripChar(path, '/');
    var n := ReplaceChar(t, '/', '_');
    ReplacedAway(t, '/', '_');
    if n != "" then n else "index"
  }

  /** After `s.replace(a, b)` with `a != b`, no `a` is left. */
  lemma {:induction false} ReplacedAway(s: string, a: char, b: char)
    requires a != b
    ensures a !in ReplaceChar(s, a, b)
  {
    var r := ReplaceChar(s, a, b);
    forall i | 0 <= i < |r| ensures r[i] != a {
      assert r[i] == (if s[i] == a then b else s[i]);
    }
  }

  /** The query with `&` turned into `_` and `=` into `-`. */
  function QueryName(query: string): (r: string)
    ensures |r| == |query| && '&' !in r && '=' !in r
    ensures forall i | 0 <= i < |query| :: r[i] == if query[i] == '&' then '_' else if query[i] == '=' then '-' else query[i]
  {
    ReplaceChar(ReplaceChar(query, '&', '_'), '=', '-')
  }

  /** The stem before truncation: the path name, then `_` and the query name when the query is non-empty. */
  function RawStem(path: string, query: string): string {
    PathName(path) + (if query != "" then "_" + QueryName(query) else "")
  }

  /** The stem after truncation and sanitising: non-empty, at most 200 safe characters, position by position the raw stem's. */
  function Stem(path: string, query: string): (stem: string)
    ensures stem != [] && |stem| == Min(|RawStem(path, query)|, MaxStemLength)
    ensures forall i | 0 <= i < |stem| :: IsSafeChar(stem[i]) && stem[i] == SafeChar(RawStem(path, query)[i])
  {
    SafeName(Take(RawStem(path, query), MaxStemLength))
  }

  /** The file name for a parsed path and query: the stem, a dot, the extension. */
  function FileName(path: string, query: string, extension: string): (name: string)
    ensures StartsWith(name, Stem(path, query)) && EndsWith(name, "." + extension)
    ensures |name| == |Stem(path, query)| + 1 + |extension|
  {
    var stem := Stem(path, query);
    AppendEnds(stem, "." + extension);
    stem + ("." + extension)
  }

  /** The shape of a file name: at most 200 safe characters, then the first dot, then the extension. */
  predicate NameShape(name: string, extension: string) {
    var k := FindChar(name, '.');
    && 0 < k <= MaxStemLength && k < |name| && name[k + 1..] == extension
    && forall i | 0 <= i < k :: IsSafeChar(name[i])
  }

  /** The first dot of a file name ends the stem, and everything after it is the extension. */
  lemma {:induction false} FileNameSplits(path: string, query: string, extension: string)
    ensures var name, stem := FileName(path, query, extension), Stem(path, query);
      FindChar(name, '.') == |stem| && name[|stem| + 1..] == extension && |stem| <= MaxStemLength
    ensures NameShape(FileName(path, query, extension), extension)
  {
    SafeStemShape(Stem(path, query), extension);
  }

  /** A short, non-empty, safe stem followed by `.` and an extension has the shape of a file name. */
  lemma {:induction false} SafeStemShape(stem: string, extension: string)
    requires 0 < |stem| <= MaxStemLength && forall i | 0 <= i < |stem| :: IsSafeChar(stem[i])
    ensures var name := stem + ("." + extension);
      FindChar(name, '.') == |stem| && name[|stem| + 1..] == extension
    ensures NameShape(stem + ("." + extension), extension)
  {
    var name := stem + ("." + extension);
    assert '.' !in stem by {
      forall j | 0 <= j < |stem| ensures stem[j] != '.' { assert IsSafeChar(stem[j]); }
    }
    DotSplit(stem, extension);
    assert forall j | 0 <= j < |stem| :: name[j] == stem[j];
  }

  /** The first dot of `stem.ext` is the one after a dot-free stem. */
  lemma {:induction false} DotSplit(stem: string, ext: string)
    requires '.' !in stem
    ensures FindChar(stem + ("." + ext), '.') == |stem|
    ensures (stem + ("." + ext))[|stem| + 1..] == ext
  {
    assert stem + ("." + ext) == stem + ['.'] + ext;
    FindCharAt(stem, '.', ext);
  }

  /** No character outside `safe_chars`, `.` and the extension's own appears in a file name; in particular no space. */
  lemma {:induction false} FileNameChars(path: string, query: string, extension: string, c: char)
    requires !IsSafeChar(c) && c != '.' && c !in extension
    ensures c !in FileName(path, query, extension)
  {
    var name, stem := FileName(path, query, extension), Stem(path, query);
    assert name == stem + ("." + extension);
    assert c !in stem;
  }

  /** `BaseExtractor._url_to_filename(url, extension)`: the file name of the URL's parsed path and query. */
  function UrlToFilename(url: string, extension: string): string {
    var parsed := Parse(url);
    FileName(parsed.path, parsed.query, extension)
  }

  /** The name is at most 200 safe characters, a dot, and the extension. */
  lemma {:induction false} UrlToFilenameShape(url: string, extension: string)
    ensures NameShape(UrlToFilename(url, extension), extension)
  {
    var parsed := Parse(url);
    FileNameSplits(parsed.path, parsed.query, extension);
  }

  /** No space, or any other character outside the safe set, the dot and the extension, survives. */
  lemma {:induction false} UrlToFilenameChars(url: string, extension: string, c: char)
    requires !IsSafeChar(c) && c != '.' && c !in extension
    ensures c !in UrlToFilename(url, extension)
  {
    FileNameChars(Parse(url).path, Parse(url).query, extension, c);
  }

  // ----- the extractor tests -----

  predicate AllSafe(s: string) {
    forall i | 0 <= i < |s| :: IsSafeChar(s[i])
  }

  lemma {:induction false} AllSafeAppend(a: string, b: string)
    requires AllSafe(a) && AllSafe(b)
    ensures AllSafe(a + b)
  {
  }

  /** A short, safe raw stem is the file name's stem as it is. */
  lemma {:induction false} NameOfSafeStem(path: string, query: string, extension: string, stem: string)
    requires RawStem(path, query) == stem && |stem| <= MaxStemLength && AllSafe(stem)
    ensures FileName(path, query, extension) == stem + "." + extension
  {
    SafeNameKeepsSafe(stem);
    assert Take(stem, MaxStemLength) == stem;
    var name := FileName(path, query, extension);
    assert name[..|stem|] == stem && name[|stem|..] == "." + extension;
    assert name == name[..|stem|] + name[|stem|..];
  }

  /** A path whose stripped form has no inner `/` is its own path name. */
  lemma {:induction false} PathNameOfFlat(path: string, stripped: string)
    requires StripChar(path, '/') == stripped && stripped != "" && '/' !in stripped
    ensures PathName(path) == stripped
  {
    var n := ReplaceChar(stripped, '/', '_');
    assert n == stripped by {
      forall i | 0 <= i < |n| ensures n[i] == stripped[i] {
        assert stripped[i] != '/';
      }
    }
  }

  lemma AboutStrip() ensures StripChar("/about", '/') == "about" {
    StripOneLead("/about", '/');
    assert "/about"[1..] == "about";
  }
  lemma AboutSafe() ensures AllSafe("about") {}

  lemma AboutName()
    ensures FileName("/about", "", "html") == "about" + "." + "html"
  {
    AboutStrip();
    AboutSafe();
    PathNameOfFlat("/about", "about");
    NameOfSafeStem("/about", "", "html", "about");
  }

  lemma RootStrip() ensures StripChar("/", '/') == "" {}
  lemma BareStrip() ensures StripChar("", '/') == "" {}
  lemma IndexSafe() ensures AllSafe("index") {}

  lemma RootName()
    ensures FileName("/", "", "html") == "index" + "." + "html"
  {
    RootStrip();
    IndexSafe();
    NameOfSafeStem("/", "", "html", "index");
  }

  lemma BareName()
    ensures FileName("", "", "html") == "index" + "." + "html"
  {
    BareStrip();
    IndexSafe();
    NameOfSafeStem("", "", "html", "index");
  }

  lemma NestedStrip() ensures StripChar("/blog/post/123", '/') == "blog/post/123" {
    StripOneLead("/blog/post/123", '/');
    assert "/blog/post/123"[1..] == "blog/post/123";
  }
  lemma NestedSplit() ensures "blog/post/123" == "blog" + "/" + "post" + "/" + "123" {}
  lemma BlogKept() ensures ReplaceChar("blog", '/', '_') == "blog" {}
  lemma PostKept() ensures ReplaceChar("post", '/', '_') == "post" {}
  lemma DigitsKept() ensures ReplaceChar("123", '/', '_') == "123" {}
  lemma SlashReplaced() ensures ReplaceChar("/", '/', '_') == "_" {}
  lemma BlogSafe() ensures AllSafe("blog") {}
  lemma PostSafe() ensures AllSafe("post") {}
  lemma DigitsSafe() ensures AllSafe("123") {}
  lemma UnderscoreSafe() ensures AllSafe("_") {}
  lemma NestedJoin() ensures "blog" + "_" + "post" + "_" + "123" == "blog_post_123" {}

  lemma NestedReplaced()
    ensures ReplaceChar("blog/post/123", '/', '_') == "blog_post_123"
  {
    NestedSplit();
    BlogKept();
    PostKept();
    DigitsKept();
    SlashReplaced();
    ReplaceAppend("blog" + "/" + "post" + "/", "123", '/', '_');
    ReplaceAppend("blog" + "/" + "post", "/", '/', '_');
    ReplaceAppend("blog" + "/", "post", '/', '_');
    ReplaceAppend("blog", "/", '/', '_');
    NestedJoin();
  }

  lemma NestedSafe()
    ensures AllSafe("blog_post_123")
  {
    BlogSafe();
    PostSafe();
    DigitsSafe();
    UnderscoreSafe();
    AllSafeAppend("blog", "_");
    AllSafeAppend("blog" + "_", "post");
    AllSafeAppend("blog" + "_" + "post", "_");
    AllSafeAppend("blog" + "_" + "post" + "_", "123");
    NestedJoin();
  }

  lemma {:induction false} NestedPathName(path: string)
    requires path == "/blog/post/123"
    ensures PathName(path) == "blog_post_123"
  {
    NestedStrip();
    NestedReplaced();
  }

  lemma {:induction false} NestedName(path: string)
    requires path == "/blog/post/123"
    ensures FileName(path, "", "txt") == "blog_post_123" + "." + "txt"
  {
    NestedPathName(path);
    NestedSafe();
    NameOfSafeStem(path, "", "txt", "blog_post_123");
  }

  lemma SearchStrip() ensures StripChar("/search", '/') == "search" {
    StripOneLead("/search", '/');
    assert "/search"[1..] == "search";
  }
  lemma QuerySplit() ensures "q=test&page=1" == "q=test" + "&" + "page=1" {}
  lemma FirstPair() ensures QueryName("q=test") == "q-test" {}
  lemma Ampersand() ensures QueryName("&") == "_" {}
  lemma SecondPair() ensures QueryName("page=1") == "page-1" {}
  lemma SearchSafe() ensures AllSafe("search") {}
  lemma FirstPairSafe() ensures AllSafe("q-test") {}
  lemma SecondPairSafe() ensures AllSafe("page-1") {}
  lemma SearchJoin() ensures "search" + ("_" + ("q-test" + "_" + "page-1")) == "search_q-test_page-1" {}

  lemma {:induction false} QueryNameAppend(a: string, b: string)
    ensures QueryName(a + b) == QueryName(a) + QueryName(b)
  {
    ReplaceAppend(a, b, '&', '_');
    ReplaceAppend(ReplaceChar(a, '&', '_'), ReplaceChar(b, '&', '_'), '=', '-');
  }

  lemma SearchQueryName()
    ensures QueryName("q=test&page=1") == "q-test" + "_" + "page-1"
  {
    QuerySplit();
    FirstPair();
    Ampersand();
    SecondPair();
    QueryNameAppend("q=test" + "&", "page=1");
    QueryNameAppend("q=test", "&");
  }

  lemma SearchStemSafe()
    ensures AllSafe("search_q-test_page-1")
  {
    SearchSafe();
    FirstPairSafe();
    SecondPairSafe();
    UnderscoreSafe();
    AllSafeAppend("q-test", "_");
    AllSafeAppend("q-test" + "_", "page-1");
    AllSafeAppend("search", "_");
    AllSafeAppend("search" + "_", "q-test" + "_" + "page-1");
    assert "search" + "_" + ("q-test" + "_" + "page-1") == "search_q-test_page-1";
  }

  lemma SearchPathName()
    ensures PathName("/search") == "search"
  {
    SearchStrip();
    PathNameOfFlat("/search", "search");
  }

  lemma {:induction false} SearchRawStem(path: string, query: string)
    requires path == "/search" && query == "q=test&page=1"
    ensures RawStem(path, query) == "search_q-test_page-1"
  {
    SearchPathName();
    SearchQueryName();
    assert RawStem(path, query) == "search" + ("_" + ("q-test" + "_" + "page-1"));
    SearchJoin();
  }

  lemma {:induction false} SearchName(path: string, query: string)
    requires path == "/search" && query == "q=test&page=1"
    ensures FileName(path, query, "html") == "search_q-test_page-1" + "." + "html"
  {
    SearchRawStem(path, query);
    SearchStemSafe();
    NameOfSafeStem(path, query, "html", "search_q-test_page-1");
  }

  // ----- the same tests on whole URLs -----

  /** `urlparse` of a well-formed URL, restricted to the two components the file name uses. */
  lemma {:induction false} ParsedPathAndQuery(url: string, u: Url)
    requires WellFormed(u) && url == Unsplit(u)
    ensures Parse(url).path == u.path && Parse(url).query == u.query
  {
    ParseUnsplit(u);
  }

  lemma AboutWellFormed() ensures WellFormed(Url("https", "example.com", "/about", "", "", "")) { ExampleSchemeAndHost(); }
  lemma AboutUnsplit() ensures Unsplit(Url("https", "example.com", "/about", "", "", "")) == "https://example.com/about" {}

  lemma {:induction false} AboutUrl(url: string)
    requires url == "https://example.com/about"
    ensures UrlToFilename(url, "html") == "about" + "." + "html"
  {
    AboutWellFormed();
    AboutUnsplit();
    ParsedPathAndQuery(url, Url("https", "example.com", "/about", "", "", ""));
    AboutName();
  }

  lemma RootWellFormed() ensures WellFormed(Url("https", "example.com", "/", "", "", "")) { ExampleSchemeAndHost(); }
  lemma RootUnsplit() ensures Unsplit(Url("https", "example.com", "/", "", "", "")) == "https://example.com/" {}

  lemma {:induction false} RootUrl(url: string)
    requires url == "https://example.com/"
    ensures UrlToFilename(url, "html") == "index" + "." + "html"
  {
    RootWellFormed();
    RootUnsplit();
    ParsedPathAndQuery(url, Url("https", "example.com", "/", "", "", ""));
    RootName();
  }

  lemma BareWellFormed() ensures WellFormed(Url("https", "example.com", "", "", "", "")) { ExampleSchemeAndHost(); }
  lemma BareUnsplit() ensures Unsplit(Url("https", "example.com", "", "", "", "")) == "https://example.com" {}

  lemma {:induction false} BareUrl(url: string)
    requires url == "https://example.com"
    ensures UrlToFilename(url, "html") == "index" + "." + "html"
  {
    BareWellFormed();
    BareUnsplit();
    ParsedPathAndQuery(url, Url("https", "example.com", "", "", "", ""));
    BareName();
  }

  lemma NestedWellFormed() ensures WellFormed(Url("https", "example.com", "/blog/post/123", "", "", "")) { ExampleSchemeAndHost(); }
  lemma NestedUnsplit() ensures Unsplit(Url("https", "example.com", "/blog/post/123", "", "", "")) == "https://example.com/blog/post/123" {}

  lemma {:induction false} NestedUrl(url: string)
    requires url == "https://example.com/blog/post/123"
    ensures UrlToFilename(url, "txt") == "blog_post_123" + "." + "txt"
  {
    NestedWellFormed();
    NestedUnsplit();
    ParsedPathAndQuery(url, Url("https", "example.com", "/blog/post/123", "", "", ""));
    NestedName("/blog/post/123");
  }

  lemma SearchWellFormed() ensures WellFormed(Url("https", "example.com", "/search", "", "q=test&page=1", "")) { ExampleSchemeAndHost(); }
  lemma SearchUnsplit()
    ensures Unsplit(Url("https", "example.com", "/search", "", "q=test&page=1", "")) == "https://example.com/search?q=test&page=1"
  {
  }

  lemma {:induction false} QueryUrl(url: string)
    requires url == "https://example.com/search?q=test&page=1"
    ensures UrlToFilename(url, "html") == "search_q-test_page-1" + "." + "html"
  {
    SearchWellFormed();
    SearchUnsplit();
    ParsedPathAndQuery(url, Url("https", "example.com", "/search", "", "q=test&page=1", ""));
    SearchName("/search", "q=test&page=1");
  }

  // ----- TextExtractor -----

  /** The run of 80 dashes that ends the metadata header. */
  const Separator: string := Repeat('-', 80)

  /** The metadata lines: the URL, the title when it is truthy, and the crawl time. */
  function HeaderLines(url: string, title: Option<string>, crawledAt: string): string {
    "URL: " + url + "\n" + (if Truthy(title) then "Title: " + title.value + "\n" else "")
    + "Crawled at: " + crawledAt + "\n"
  }

  /** The whole header: the metadata lines, the separator and a blank line. */
  function TextHeader(url: string, title: Option<string>, crawledAt: string): string {
    HeaderLines(url, title, crawledAt) + Separator + "\n\n"
  }

  /** A text file the extractor writes: where it goes and what it holds. */
  datatype TextFile = TextFile(path: string, content: string)

  /**
   * `TextExtractor.extract(page)`. `outputDir` is the extractor's output directory, `isoformat`
   * renders the crawl time, and `written` says whether the write succeeded (a failed write yields None).
   */
  function ExtractText(page: CrawledPage, outputDir: string, isoformat: Timestamp -> string, written: bool): (r: Option<TextFile>)
    ensures r.Some? <==> page.status == Success && Truthy(page.text) && written
    ensures r.Some? ==> r.value.path == outputDir + "/text/" + UrlToFilename(page.url, "txt")
    ensures r.Some? ==> r.value.content == TextHeader(page.url, page.title, isoformat(page.crawledAt)) + page.text.value
  {
    if page.status != Success || !Truthy(page.text) then None
    else if !written then None
    else Some(TextFile(outputDir + "/text/" + UrlToFilename(page.url, "txt"),
                       TextHeader(page.url, page.title, isoformat(page.crawledAt)) + page.text.value))
  }
}
