/**
 * The crawler's link handling: which URLs it accepts (`_is_valid_url`), how it turns the raw
 * links of a page into the list it queues (`_filter_links`), and the file name it gives a
 * page's screenshot (`_url_to_filename`).
 */
module CrawlerLinks {
  import opened Strings
  import opened Urls
  import opened UrlRoundTrip

  /** The path suffixes `_is_valid_url` refuses (24 of them). */
  const SkipExtensions: seq<string> := [
    ".pdf", ".jpg", ".jpeg", ".png", ".gif", ".svg", ".ico",
    ".css", ".js", ".xml", ".json", ".zip", ".tar", ".gz",
    ".mp3", ".mp4", ".avi", ".mov", ".webm", ".woff", ".woff2",
    ".ttf", ".eot", ".map"]

  /** `any(s.endswith(x) for x in suffixes)`. */
  predicate EndsWithAny(s: string, suffixes: seq<string>) {
    suffixes != [] && (EndsWith(s, suffixes[0]) || EndsWithAny(s, suffixes[1..]))
  }

  lemma {:induction false} EndsWithAnyMeans(s: string, suffixes: seq<string>)
    ensures EndsWithAny(s, suffixes) <==> exists i | 0 <= i < |suffixes| :: EndsWith(s, suffixes[i])
  {
    if suffixes != [] {
      EndsWithAnyMeans(s, suffixes[1..]);
      if exists i | 0 <= i < |suffixes| :: EndsWith(s, suffixes[i]) {
        var i :| 0 <= i < |suffixes| && EndsWith(s, suffixes[i]);
        if i > 0 {
          assert suffixes[1..][i - 1] == suffixes[i];
        }
      }
    }
  }

  predicate HasSkipExtension(path: string) {
    EndsWithAny(path, SkipExtensions)
  }

  /** The three conditions `_is_valid_url` checks on the parsed URL. */
  predicate Accepted(u: Url, baseDomain: string) {
    && u.netloc == baseDomain
    && (u.scheme == "http" || u.scheme == "https")
    && !HasSkipExtension(Lower(u.path))
  }

  /**
   * `_is_valid_url`: same host as the start URL, http or https, and a lower-cased path that ends
   * in none of the skipped extensions. It is total: the source's `except` branch is never taken
   * in this model.
   */
  function IsValidUrl(url: string, baseDomain: string): (ok: bool)
    ensures ok <==> Accepted(Parse(url), baseDomain)
  {
    var parsed := Parse(url);
    if parsed.netloc != baseDomain then false
    else if parsed.scheme != "http" && parsed.scheme != "https" then false
    else if HasSkipExtension(Lower(parsed.path)) then false
    else true
  }

  // ----- de-duplication in order of first occurrence -----

  /** `xs` with every element after its first occurrence dropped. */
  function Dedup(xs: seq<string>): seq<string>
  {
    if xs == [] then []
    else
      var d := Dedup(xs[..|xs| - 1]);
      if xs[|xs| - 1] in d then d else d + [xs[|xs| - 1]]
  }

  lemma {:induction false} DedupSnoc(xs: seq<string>, y: string)
    ensures Dedup(xs + [y]) == if y in Dedup(xs) then Dedup(xs) else Dedup(xs) + [y]
  {
    assert (xs + [y])[..|xs|] == xs;
  }

  /** The de-duplicated list holds exactly the elements of the input. */
  lemma {:induction false} DedupMembers(xs: seq<string>)
    ensures forall x :: x in Dedup(xs) <==> x in xs
  {
    if xs != [] {
      var init := xs[..|xs| - 1];
      DedupMembers(init);
      assert xs == init + [xs[|xs| - 1]];
    }
  }

  /** No element occurs twice in the de-duplicated list. */
  lemma {:induction false} DedupDistinct(xs: seq<string>)
    ensures forall i, j :: 0 <= i < j < |Dedup(xs)| ==> Dedup(xs)[i] != Dedup(xs)[j]
  {
    if xs != [] {
      DedupDistinct(xs[..|xs| - 1]);
    }
  }

  /** Index of the first occurrence of `x` in `xs`. */
  function FirstIndex(xs: seq<string>, x: string): (k: nat)
    requires x in xs
    ensures k < |xs| && xs[k] == x
    ensures forall j :: 0 <= j < k ==> xs[j] != x
  {
    if xs[0] == x then 0 else 1 + FirstIndex(xs[1..], x)
  }

  lemma {:induction false} FirstIndexSnoc(xs: seq<string>, y: string, x: string)
    requires x in xs + [y]
    ensures x in xs ==> FirstIndex(xs + [y], x) == FirstIndex(xs, x)
    ensures x !in xs ==> FirstIndex(xs + [y], x) == |xs|
  {
    var k := FirstIndex(xs + [y], x);
    if x in xs {
      var m := FirstIndex(xs, x);
      assert (xs + [y])[m] == x;
    }
  }

  /** The de-duplicated list keeps the order in which the elements first occur in the input. */
  lemma {:induction false} DedupFirstOrder(xs: seq<string>)
    ensures forall x | x in Dedup(xs) :: x in xs
    ensures forall i, j | 0 <= i < j < |Dedup(xs)| ::
      FirstIndex(xs, Dedup(xs)[i]) < FirstIndex(xs, Dedup(xs)[j])
  {
    DedupMembers(xs);
    if xs != [] {
      var init := xs[..|xs| - 1];
      var y := xs[|xs| - 1];
      assert xs == init + [y];
      DedupFirstOrder(init);
      DedupMembers(init);
      var d := Dedup(init);
      var e := Dedup(xs);
      forall i, j | 0 <= i < j < |e|
        ensures FirstIndex(xs, e[i]) < FirstIndex(xs, e[j])
      {
        FirstIndexSnoc(init, y, e[i]);
        FirstIndexSnoc(init, y, e[j]);
        if j < |d| {
          assert e[i] == d[i] && e[j] == d[j];
        } else {
          assert e[j] == y && y !in d && e[i] == d[i];
        }
      }
    }
  }

  // ----- _filter_links -----

  /** A raw link made absolute against the page URL (`urljoin`, a parameter) and normalised. */
  function Resolved(link: string, currentUrl: string, resolve: (string, string) -> string): string {
    Normalize(resolve(currentUrl, link))
  }

  /** The images under `norm` of `links` that satisfy `keep`, in input order, duplicates kept. */
  function Candidates(links: seq<string>, norm: string -> string, keep: string -> bool): seq<string>
  {
    if links == [] then []
    else
      var c := Candidates(links[..|links| - 1], norm, keep);
      var n := norm(links[|links| - 1]);
      if keep(n) then c + [n] else c
  }

  /** The images under `norm` of all the links, in order. */
  function Images(links: seq<string>, norm: string -> string): (r: seq<string>)
    ensures |r| == |links|
    ensures forall i :: 0 <= i < |links| ==> r[i] == norm(links[i])
  {
    if links == [] then [] else Images(links[..|links| - 1], norm) + [norm(links[|links| - 1])]
  }

  /** A URL is a candidate iff it is the image of some raw link and is kept. */
  lemma {:induction false} CandidateMembers(links: seq<string>, norm: string -> string, keep: string -> bool)
    ensures forall x :: x in Candidates(links, norm, keep) <==> keep(x) && x in Images(links, norm)
  {
    if links != [] {
      var init := links[..|links| - 1];
      CandidateMembers(init, norm, keep);
    }
  }

  /** One more raw link adds its image to the candidates iff it is kept. */
  lemma {:induction false} CandidatesSnoc(links: seq<string>, i: nat, norm: string -> string, keep: string -> bool)
    requires i < |links|
    ensures keep(norm(links[i])) ==> Candidates(links[..i + 1], norm, keep) == Candidates(links[..i], norm, keep) + [norm(links[i])]
    ensures !keep(norm(links[i])) ==> Candidates(links[..i + 1], norm, keep) == Candidates(links[..i], norm, keep)
  {
    assert links[..i + 1][..i] == links[..i];
  }

  /**
   * `_filter_links`. `norm` is what the crawler applies to each raw link (`urljoin` against the
   * page URL, then `_normalize_url`: see `Resolved`) and `keep` is `_is_valid_url`; a link is
   * kept when it is valid and not already in the list.
   */
  method FilterLinks(links: seq<string>, norm: string -> string, keep: string -> bool) returns (filtered: seq<string>)
    ensures filtered == Dedup(Candidates(links, norm, keep))
  {
    filtered := [];
    for i := 0 to |links|
      invariant filtered == Dedup(Candidates(links[..i], norm, keep))
    {
      var normalized := norm(links[i]);
      CandidatesSnoc(links, i, norm, keep);
      if keep(normalized) {
        DedupSnoc(Candidates(links[..i], norm, keep), normalized);
        if normalized !in filtered {
          filtered := filtered + [normalized];
        }
      }
    }
    assert links[..|links|] == links;
  }

  /**
   * What `_filter_links` promises: no duplicates; exactly the kept images of the raw links; in
   * the order of their first occurrence.
   */
  lemma {:induction false} FilteredLinks(links: seq<string>, norm: string -> string, keep: string -> bool)
    ensures var c := Candidates(links, norm, keep); var f := Dedup(c);
      && (forall i, j :: 0 <= i < j < |f| ==> f[i] != f[j])
      && (forall x :: x in f <==> keep(x) && x in Images(links, norm))
      && (forall x | x in f :: x in c)
      && (forall i, j | 0 <= i < j < |f| :: FirstIndex(c, f[i]) < FirstIndex(c, f[j]))
  {
    var c := Candidates(links, norm, keep);
    DedupDistinct(c);
    DedupMembers(c);
    DedupFirstOrder(c);
    CandidateMembers(links, norm, keep);
  }

  // ----- the test cases of `_is_valid_url` -----

  lemma ExampleHostFacts()
    ensures IsParsedScheme("https")
    ensures '/' !in "example.com" && '?' !in "example.com" && '#' !in "example.com" && NoUnsafe("example.com")
  {
  }

  lemma OtherHostFacts()
    ensures '/' !in "other.com" && '?' !in "other.com" && '#' !in "other.com" && NoUnsafe("other.com")
  {
  }

  lemma {:induction false} UnsplitSimple(host: string, path: string)
    ensures Unsplit(Url("https", host, path, "", "", "")) == "https://" + host + path
  {
  }

  /** `urlparse` of `https://<host><path>` for a plain host and path. */
  lemma {:induction false} ParseSimple(url: string, host: string, path: string)
    requires url == "https://" + host + path
    requires '/' !in host && '?' !in host && '#' !in host && NoUnsafe(host)
    requires path != [] && path[0] == '/' && '?' !in path && '#' !in path && ';' !in path && NoUnsafe(path)
    ensures Parse(url) == Url("https", host, path, "", "", "")
  {
    ExampleHostFacts();
    UnsplitSimple(host, path);
    ParseUnsplit(Url("https", host, path, "", "", ""));
  }

  /** A lower-case path is its own `lower()`. */
  lemma {:induction false} LowerPlain(path: string)
    requires forall i | 0 <= i < |path| :: !IsAsciiUpper(path[i])
    ensures Lower(path) == path
  {
    LowerOfLower(path);
  }

  /** A path with no query, fragment or parameter delimiters and no upper-case letters. */
  predicate PlainPath(path: string) {
    && path != [] && path[0] == '/' && '?' !in path && '#' !in path && ';' !in path && NoUnsafe(path)
    && forall i | 0 <= i < |path| :: !IsAsciiUpper(path[i])
  }

  /**
   * For `https://host/path` with a plain host and a plain lower-case path, `_is_valid_url` holds
   * iff the host is the start host and the path ends in none of the skipped extensions.
   */
  lemma {:induction false} HttpsValidity(url: string, host: string, path: string, baseDomain: string)
    requires url == "https://" + host + path
    requires '/' !in host && '?' !in host && '#' !in host && NoUnsafe(host)
    requires PlainPath(path)
    ensures IsValidUrl(url, baseDomain) <==> host == baseDomain && !HasSkipExtension(path)
  {
    ExampleHostFacts();
    ParseSimple(url, host, path);
    LowerPlain(path);
  }

  /** No string whose last two characters differ from those of every extension has a skipped extension. */
  lemma {:induction false} NotEndsWithAnyBySuffix(s: string, xs: seq<string>, k: nat)
    requires k <= |s|
    requires forall i | 0 <= i < |xs| :: k <= |xs[i]| && xs[i][|xs[i]| - k..] != s[|s| - k..]
    ensures !EndsWithAny(s, xs)
  {
    if xs != [] {
      NotEndsWithAnyBySuffix(s, xs[1..], k);
    }
  }

  lemma {:induction false} EndsWithAnyAt(s: string, xs: seq<string>, k: nat)
    requires k < |xs| && EndsWith(s, xs[k])
    ensures EndsWithAny(s, xs)
  {
    EndsWithAnyMeans(s, xs);
  }

  lemma NoExtensionEndsInGe()
    ensures forall i | 0 <= i < |SkipExtensions| :: 2 <= |SkipExtensions[i]| && SkipExtensions[i][|SkipExtensions[i]| - 2..] != "ge"
  {
  }

  lemma NoExtensionEndsInUt()
    ensures forall i | 0 <= i < |SkipExtensions| :: 2 <= |SkipExtensions[i]| && SkipExtensions[i][|SkipExtensions[i]| - 2..] != "ut"
  {
  }

  lemma PagePlain()
    ensures PlainPath("/page")
  {
  }

  lemma PageNoSkip()
    ensures !HasSkipExtension("/page")
  {
    NoExtensionEndsInGe();
    assert "/page"[3..] == "ge";
    NotEndsWithAnyBySuffix("/page", SkipExtensions, 2);
  }

  lemma AboutPlain()
    ensures PlainPath("/about")
  {
  }

  lemma AboutNoSkip()
    ensures !HasSkipExtension("/about")
  {
    NoExtensionEndsInUt();
    assert "/about"[4..] == "ut";
    NotEndsWithAnyBySuffix("/about", SkipExtensions, 2);
  }

  lemma ExampleUrls()
    ensures "https://example.com/page" == "https://" + "example.com" + "/page"
    ensures "https://example.com/about" == "https://" + "example.com" + "/about"
    ensures "https://other.com/page" == "https://" + "other.com" + "/page"
  {
  }

  /** The crawler's tests: pages on the start host are valid, pages elsewhere are not. */
  lemma {:induction false} ValidPageExample(url: string)
    requires url == "https://example.com/page"
    ensures IsValidUrl(url, "example.com")
  {
    ExampleHostFacts();
    PagePlain();
    PageNoSkip();
    ExampleUrls();
    HttpsValidity(url, "example.com", "/page", "example.com");
  }

  lemma {:induction false} ValidAboutExample(url: string)
    requires url == "https://example.com/about"
    ensures IsValidUrl(url, "example.com")
  {
    ExampleHostFacts();
    AboutPlain();
    AboutNoSkip();
    ExampleUrls();
    HttpsValidity(url, "example.com", "/about", "example.com");
  }

  lemma {:induction false} OtherHostExample(url: string)
    requires url == "https://other.com/page"
    ensures !IsValidUrl(url, "example.com")
  {
    OtherHostFacts();
    PagePlain();
    PageNoSkip();
    ExampleUrls();
    HttpsValidity(url, "other.com", "/page", "example.com");
  }

  /** A plain path ending in skipped extension number `k` makes a refused URL on the start host. */
  lemma {:induction false} ResourceRefused(url: string, path: string, k: nat)
    requires url == "https://example.com" + path
    requires PlainPath(path) && k < |SkipExtensions| && EndsWith(path, SkipExtensions[k])
    ensures !IsValidUrl(url, "example.com")
  {
    ExampleHostFacts();
    EndsWithAnyAt(path, SkipExtensions, k);
    HttpsValidity(url, "example.com", path, "example.com");
  }

  /** The crawler's resource tests: images, style sheets, scripts and PDFs are refused. */
  lemma {:induction false} ImageExample(url: string)
    requires url == "https://example.com/image.png"
    ensures !IsValidUrl(url, "example.com")
  {
    assert PlainPath("/image.png") && EndsWith("/image.png", SkipExtensions[3]);
    ResourceRefused(url, "/image.png", 3);
  }

  lemma {:induction false} StyleExample(url: string)
    requires url == "https://example.com/style.css"
    ensures !IsValidUrl(url, "example.com")
  {
    assert PlainPath("/style.css") && EndsWith("/style.css", SkipExtensions[7]);
    ResourceRefused(url, "/style.css", 7);
  }

  lemma {:induction false} ScriptExample(url: string)
    requires url == "https://example.com/script.js"
    ensures !IsValidUrl(url, "example.com")
  {
    assert PlainPath("/script.js") && EndsWith("/script.js", SkipExtensions[8]);
    ResourceRefused(url, "/script.js", 8);
  }

  lemma {:induction false} DocumentExample(url: string)
    requires url == "https://example.com/doc.pdf"
    ensures !IsValidUrl(url, "example.com")
  {
    assert PlainPath("/doc.pdf") && EndsWith("/doc.pdf", SkipExtensions[0]);
    ResourceRefused(url, "/doc.pdf", 0);
  }

  // ----- WebCrawler._url_to_filename -----

  /** The path part of the crawler's file name: slashes trimmed (`index` when nothing is left), `/`, `?`, `&` made `_`. */
  function PathStem(path: string): (stem: string)
    ensures stem != []
    ensures '/' !in stem && '?' !in stem && '&' !in stem
    ensures StripChar(path, '/') == "" ==> stem == "index"
    ensures StripChar(path, '/') != "" ==> |stem| == |StripChar(path, '/')|
  {
    var trimmed := StripChar(path, '/');
    var p := if trimmed != "" then trimmed else "index";
    var noSlash := ReplaceChar(p, '/', '_');
    var noQuery := ReplaceChar(noSlash, '?', '_');
    var stem := ReplaceChar(noQuery, '&', '_');
    assert forall i | 0 <= i < |stem| :: stem[i] != '/' && stem[i] != '?' && stem[i] != '&' by {
      forall i | 0 <= i < |stem| ensures stem[i] != '/' && stem[i] != '?' && stem[i] != '&' {
        assert noSlash[i] != '/';
      }
    }
    stem
  }

  /** The file name built from a path and a query: the path's stem first, the extension last. */
  function FilenameOf(path: string, query: string, extension: string, digest: string -> string): (name: string)
    ensures StartsWith(name, PathStem(path))
    ensures EndsWith(name, "." + extension)
  {
    var stem := PathStem(path);
    var hash := if query != "" then "_" + Take(digest(query), 8) else "";
    var tail := hash + ("." + extension);
    AppendEnds(stem, tail);
    AppendEnds(hash, "." + extension);
    EndsWithLonger(stem, tail, "." + extension);
    stem + tail
  }

  /**
   * `WebCrawler._url_to_filename`. `digest` stands for the hexadecimal MD5 of the query, which
   * is not modelled; its first eight characters are appended when the query is non-empty.
   */
  function CrawlerFilename(url: string, extension: string, digest: string -> string): (name: string)
    ensures EndsWith(name, "." + extension)
    ensures name == FilenameOf(Parse(url).path, Parse(url).query, extension, digest)
  {
    var parsed := Parse(url);
    FilenameOf(parsed.path, parsed.query, extension, digest)
  }
}
