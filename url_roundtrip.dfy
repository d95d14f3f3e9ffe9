/**
 * `urlparse` inverts the composition `scheme://netloc path ?query #fragment` on well-formed
 * components, and what that says about `_normalize_url` on concrete URLs.
 */
module UrlRoundTrip {
  import opened Strings
  import opened Urls

  /** `#fragment`, or nothing when the fragment is empty. */
  function FragmentPart(fragment: string): string {
    if fragment != "" then "#" + fragment else ""
  }

  /** `urlunsplit` for an absolute URL with a netloc and no params. */
  function Unsplit(u: Url): string {
    u.scheme + "://" + (u.netloc + (u.path + QueryPart(u.query) + FragmentPart(u.fragment)))
  }

  /** Components `urlparse` returns unchanged after `Unsplit`. */
  predicate WellFormed(u: Url) {
    IsParsedScheme(u.scheme)
    && '/' !in u.netloc && '?' !in u.netloc && '#' !in u.netloc && NoUnsafe(u.netloc)
    && (u.path == "" || u.path[0] == '/')
    && '?' !in u.path && '#' !in u.path && ';' !in u.path && NoUnsafe(u.path)
    && u.params == ""
    && '#' !in u.query && NoUnsafe(u.query)
    && NoUnsafe(u.fragment)
  }

  /** A tail that starts at a delimiter leaves the netloc where it is. */
  lemma {:induction false} NetlocEndAtDelimiter(t: string)
    requires t == [] || t[0] == '/' || t[0] == '?' || t[0] == '#'
    ensures NetlocEnd(t) == 0
  {
  }

  /** Appending a fragment-free, unsafe-free string and an optional fragment keeps strings clean. */
  lemma {:induction false} CleanTail(p: string, q: string, f: string)
    requires '#' !in p && NoUnsafe(p) && '#' !in q && NoUnsafe(q) && NoUnsafe(f)
    ensures var pq := p + QueryPart(q); '#' !in pq && NoUnsafe(pq) && NoUnsafe(pq + FragmentPart(f))
  {
    var qp := QueryPart(q);
    var fp := FragmentPart(f);
    assert '#' !in qp && NoUnsafe(qp) && NoUnsafe(fp);
  }

  /** The fragment step of `urlsplit` on `rest #fragment`. */
  lemma {:induction false} FragmentSplit(pq: string, f: string)
    requires '#' !in pq
    ensures SplitOnce(pq + FragmentPart(f), '#') == (pq, f)
  {
    var fp := FragmentPart(f);
    if f != "" {
      assert fp == ['#'] + f;
      assert pq + fp == pq + ['#'] + f;
      SplitOnceAt(pq, '#', f);
    } else {
      assert pq + fp == pq;
    }
  }

  /** The query step of `urlsplit` on `path ?query`. */
  lemma {:induction false} QuerySplit(p: string, q: string)
    requires '?' !in p
    ensures SplitOnce(p + QueryPart(q), '?') == (p, q)
  {
    var qp := QueryPart(q);
    if q != "" {
      assert qp == ['?'] + q;
      assert p + qp == p + ['?'] + q;
      SplitOnceAt(p, '?', q);
    } else {
      assert p + qp == p;
    }
  }

  /** `ParseAfterScheme` read off its individual steps. */
  lemma {:induction false} AfterSchemeSteps(sch: string, rest: string, net: string, t: string, pq: string, f: string, p: string, q: string)
    requires SplitNetloc(rest) == (net, t) && SplitOnce(t, '#') == (pq, f) && SplitOnce(pq, '?') == (p, q)
    ensures ';' !in p ==> ParseAfterScheme(sch, rest) == Url(sch, net, p, "", q, f)
    ensures sch in UsesParams && ';' in p ==>
      ParseAfterScheme(sch, rest) == Url(sch, net, SplitParams(p).0, SplitParams(p).1, q, f)
  {
  }

  /** The netloc step of `urlsplit` on `//netloc tail` when the tail starts at a delimiter. */
  lemma {:induction false} NetlocSplit(net: string, t: string)
    requires '/' !in net && '?' !in net && '#' !in net
    requires t == [] || t[0] == '/' || t[0] == '?' || t[0] == '#'
    ensures SplitNetloc("//" + (net + t)) == (net, t)
  {
    var x := net + t;
    var rest := "//" + x;
    assert rest[..2] == "//" && rest[2..] == x;
    NetlocEndOfPrefixed(net, t);
    NetlocEndAtDelimiter(t);
    SliceOfAppend(net, t, 0);
  }

  /** The steps after the scheme recover netloc, path, query and fragment. */
  lemma {:induction false} AfterSchemeOfUnsplit(u: Url)
    requires WellFormed(u)
    ensures ParseAfterScheme(u.scheme, "//" + (u.netloc + (u.path + QueryPart(u.query) + FragmentPart(u.fragment)))) == u
  {
    var qp := QueryPart(u.query);
    var fp := FragmentPart(u.fragment);
    var pq := u.path + qp;
    var t := pq + fp;
    assert t == [] || t[0] == '/' || t[0] == '?' || t[0] == '#' by {
      if u.path == "" {
        assert t == qp + fp;
      } else {
        assert t[0] == u.path[0];
      }
    }
    NetlocSplit(u.netloc, t);
    CleanTail(u.path, u.query, u.fragment);
    FragmentSplit(pq, u.fragment);
    QuerySplit(u.path, u.query);
    AfterSchemeSteps(u.scheme, "//" + (u.netloc + t), u.netloc, t, pq, u.fragment, u.path, u.query);
  }

  /** Round trip: `urlparse(urlunsplit(u)) == u` for well-formed components. */
  lemma {:induction false} ParseUnsplit(u: Url)
    requires WellFormed(u)
    ensures Parse(Unsplit(u)) == u
  {
    var x := u.netloc + (u.path + QueryPart(u.query) + FragmentPart(u.fragment));
    CleanTail(u.path, u.query, u.fragment);
    assert NoUnsafe("//" + x);
    assert Unsplit(u) == u.scheme + [':'] + ("//" + x);
    SchemeSplitAt(u.scheme, "//" + x);
    AfterSchemeOfUnsplit(u);
  }

  /** `_normalize_url` of a well-formed URL: the fragment goes, then trailing slashes. */
  lemma {:induction false} NormalizeUnsplit(u: Url)
    requires WellFormed(u)
    ensures Normalize(Unsplit(u)) == RStripChar(Compose(u.scheme, u.netloc, u.path, u.query), '/')
  {
    ParseUnsplit(u);
  }

  /** A well-formed URL whose composition does not end in `/` normalises to that composition. */
  lemma {:induction false} NormalizeKeeps(u: Url)
    requires WellFormed(u)
    requires var c := Compose(u.scheme, u.netloc, u.path, u.query); c[|c| - 1] != '/'
    ensures Normalize(Unsplit(u)) == Compose(u.scheme, u.netloc, u.path, u.query)
  {
    NormalizeUnsplit(u);
  }

  lemma ExampleSchemeAndHost()
    ensures IsParsedScheme("https")
    ensures '/' !in "example.com" && '?' !in "example.com" && '#' !in "example.com" && NoUnsafe("example.com")
  {
  }

  lemma RootExampleWellFormed()
    ensures WellFormed(Url("https", "example.com", "/", "", "", ""))
  {
    ExampleSchemeAndHost();
  }

  lemma RootExampleUnsplit()
    ensures Unsplit(Url("https", "example.com", "/", "", "", "")) == "https://example.com/"
  {
  }

  lemma RootExampleCompose()
    ensures Compose("https", "example.com", "/", "") == "https://example.com" + "/"
  {
  }

  /** The crawler's normalisation test: a lone trailing `/` goes. */
  lemma NormalizeRootExample()
    ensures Normalize("https://example.com/") == "https://example.com"
  {
    RootExampleWellFormed();
    RootExampleUnsplit();
    RootExampleCompose();
    NormalizeUnsplit(Url("https", "example.com", "/", "", "", ""));
    StripOneSlash("https://example.com");
  }

  /** One trailing `/` after a character that is not `/` is all `rstrip("/")` removes. */
  lemma {:induction false} StripOneSlash(a: string)
    requires a != [] && a[|a| - 1] != '/'
    ensures RStripChar(a + "/", '/') == a
  {
    assert (a + "/")[..|a|] == a;
  }

  lemma FragmentExampleWellFormed()
    ensures WellFormed(Url("https", "example.com", "/page", "", "", "section"))
  {
    ExampleSchemeAndHost();
  }

  lemma FragmentExampleUnsplit()
    ensures Unsplit(Url("https", "example.com", "/page", "", "", "section")) == "https://example.com/page#section"
  {
  }

  lemma FragmentExampleCompose()
    ensures Compose("https", "example.com", "/page", "") == "https://example.com/page"
  {
  }

  /** The crawler's normalisation test: the fragment goes. */
  lemma NormalizeFragmentExample()
    ensures Normalize("https://example.com/page#section") == "https://example.com/page"
  {
    FragmentExampleWellFormed();
    FragmentExampleUnsplit();
    FragmentExampleCompose();
    NormalizeKeeps(Url("https", "example.com", "/page", "", "", "section"));
  }

  lemma QueryExampleWellFormed()
    ensures WellFormed(Url("https", "example.com", "/page", "", "q=1", ""))
  {
    ExampleSchemeAndHost();
  }

  lemma QueryExampleUnsplit()
    ensures Unsplit(Url("https", "example.com", "/page", "", "q=1", "")) == "https://example.com/page?q=1"
  {
  }

  lemma QueryExampleCompose()
    ensures Compose("https", "example.com", "/page", "q=1") == "https://example.com/page?q=1"
  {
  }

  /** The crawler's normalisation test: the query stays. */
  lemma NormalizeQueryExample()
    ensures Normalize("https://example.com/page?q=1") == "https://example.com/page?q=1"
  {
    QueryExampleWellFormed();
    QueryExampleUnsplit();
    QueryExampleCompose();
    NormalizeKeeps(Url("https", "example.com", "/page", "", "q=1", ""));
  }

  /** `urlparse` of `urlunsplit(u) + "?"`: an empty query mark is dropped. */
  lemma {:induction false} ParseEmptyQueryMark(u: Url)
    requires WellFormed(u) && u.query == "" && u.fragment == ""
    ensures Parse(Unsplit(u) + "?") == u
  {
    var pq := u.path + "?";
    var x := u.netloc + pq;
    assert Unsplit(u) + "?" == u.scheme + [':'] + ("//" + x);
    assert NoUnsafe("//" + x);
    SchemeSplitAt(u.scheme, "//" + x);
    assert pq[0] == '/' || pq[0] == '?';
    NetlocSplit(u.netloc, pq);
    FragmentSplit(pq, "");
    assert pq + FragmentPart("") == pq;
    assert pq == u.path + ['?'] + "";
    SplitOnceAt(u.path, '?', "");
    AfterSchemeSteps(u.scheme, "//" + x, u.netloc, pq, pq, "", u.path, "");
  }

  /** First pass on a slash-only query: the slashes go, the `?` stays. */
  lemma {:induction false} SlashQueryFirstPass(u: Url)
    requires WellFormed(u) && u.query != "" && RStripChar(u.query, '/') == ""
    ensures Normalize(Unsplit(u)) == Compose(u.scheme, u.netloc, u.path, "") + "?"
  {
    NormalizeUnsplit(u);
    StripSlashQuery(u.scheme, u.netloc, u.path, u.query);
  }

  /** Stripping trailing slashes from a composition whose query is all slashes stops at the `?`. */
  lemma {:induction false} StripSlashQuery(sch: string, net: string, path: string, q: string)
    requires q != "" && RStripChar(q, '/') == ""
    ensures RStripChar(Compose(sch, net, path, q), '/') == Compose(sch, net, path, "") + "?"
  {
    var head := sch + "://" + (net + path);
    var pre := head + "?";
    assert QueryPart(q) == "?" + q && QueryPart("") == "";
    assert Compose(sch, net, path, q) == pre + q;
    assert Compose(sch, net, path, "") == head;
    RStripCharAppend(pre, q, '/');
    assert RStripChar(pre, '/') == pre;
  }

  /** Second pass: a bare `?` after a URL that does not end in `/` is dropped. */
  lemma {:induction false} BareMarkSecondPass(u: Url)
    requires WellFormed(u) && u.query == "" && u.fragment == ""
    requires var c := Compose(u.scheme, u.netloc, u.path, ""); c[|c| - 1] != '/'
    ensures var c := Compose(u.scheme, u.netloc, u.path, ""); Normalize(c + "?") == c
  {
    var c := Compose(u.scheme, u.netloc, u.path, "");
    assert Unsplit(u) == c;
    ParseEmptyQueryMark(u);
  }

  /**
   * Normalisation is not idempotent: a query made only of slashes leaves a bare `?`, which a
   * second pass removes (`http://h/p?/` gives `http://h/p?`, then `http://h/p`).
   */
  lemma {:induction false} SlashQueryNotIdempotent(u: Url)
    requires WellFormed(u) && u.query != "" && RStripChar(u.query, '/') == ""
    requires var c := Compose(u.scheme, u.netloc, u.path, ""); c[|c| - 1] != '/'
    ensures var c := Compose(u.scheme, u.netloc, u.path, "");
      Normalize(Unsplit(u)) == c + "?" && Normalize(c + "?") == c && Normalize(Normalize(Unsplit(u))) != Normalize(Unsplit(u))
  {
    var c := Compose(u.scheme, u.netloc, u.path, "");
    SlashQueryFirstPass(u);
    BareMarkSecondPass(Url(u.scheme, u.netloc, u.path, "", "", ""));
    assert |c + "?"| != |c|;
  }

  lemma SlashQueryExampleFacts()
    ensures IsParsedScheme("http")
    ensures WellFormed(Url("http", "h", "/p", "", "/", ""))
    ensures Unsplit(Url("http", "h", "/p", "", "/", "")) == "http://h/p?/"
    ensures Compose("http", "h", "/p", "") == "http://h/p"
    ensures "http://h/p" + "?" == "http://h/p?"
    ensures RStripChar("/", '/') == ""
  {
  }

  /** `http://h/p?/` is an instance: its query is a single slash. */
  lemma SlashQueryExample()
    ensures Normalize("http://h/p?/") == "http://h/p?" && Normalize("http://h/p?") == "http://h/p"
  {
    SlashQueryExampleFacts();
    SlashQueryNotIdempotent(Url("http", "h", "/p", "", "/", ""));
  }

  /** `urlparse` of `scheme://netloc path` with no query or fragment, `;params` included. */
  lemma {:induction false} ParsePathOnly(sch: string, net: string, path: string)
    requires IsParsedScheme(sch)
    requires '/' !in net && '?' !in net && '#' !in net && NoUnsafe(net)
    requires (path == "" || path[0] == '/') && '?' !in path && '#' !in path && NoUnsafe(path)
    ensures var u := Parse(sch + "://" + (net + path));
      u.scheme == sch && u.netloc == net && u.query == "" && u.fragment == ""
      && (sch in UsesParams && ';' in path ==> u.path == SplitParams(path).0 && u.params == SplitParams(path).1)
  {
    var x := net + path;
    assert NoUnsafe("//" + x);
    assert sch + "://" + x == sch + [':'] + ("//" + x);
    SchemeSplitAt(sch, "//" + x);
    NetlocSplit(net, path);
    FragmentSplit(path, "");
    QuerySplit(path, "");
    assert path + FragmentPart("") == path && path + QueryPart("") == path;
    AfterSchemeSteps(sch, "//" + x, net, path, path, "", path, "");
  }

  lemma ParamsExampleFacts()
    ensures IsParsedScheme("http") && "http" in UsesParams
    ensures '/' !in "h" && '?' !in "h" && '#' !in "h" && NoUnsafe("h")
    ensures '?' !in "/a;x/" && '#' !in "/a;x/" && NoUnsafe("/a;x/") && ';' in "/a;x/"
    ensures '?' !in "/a;x" && '#' !in "/a;x" && NoUnsafe("/a;x") && ';' in "/a;x"
    ensures "http://h/a;x/" == "http" + "://" + ("h" + "/a;x/")
    ensures "http://h/a;x" == "http" + "://" + ("h" + "/a;x")
  {
    assert "/a;x/"[2] == ';' && "/a;x"[2] == ';';
  }

  /** The last segment of `/a;x/` is empty, so no params are split off. */
  lemma SplitParamsTrailingSlash()
    ensures SplitParams("/a;x/") == ("/a;x/", "")
  {
    var p := "/a;x/";
    assert RFindChar(p, '/') == 4;
    assert p[4..] == "/";
    assert FindChar("/", ';') == 1;
  }

  /** In `/a;x` the last segment is the whole path, so `;x` is split off as params. */
  lemma SplitParamsInSegment()
    ensures SplitParams("/a;x") == ("/a", "x")
  {
    var p := "/a;x";
    assert p[0] == '/' && p[1] == 'a' && p[2] == ';' && p[3] == 'x';
    var k := RFindChar(p, '/');
    assert k == 0;
    assert p[0..] == p;
    assert FindChar(p, ';') == 2;
    assert p[..2] == "/a" && p[3..] == "x";
  }

  lemma ParamsExampleCompose()
    ensures Compose("http", "h", "/a;x/", "") == "http://h/a;x" + "/"
    ensures Compose("http", "h", "/a", "") == "http://h/a"
    ensures "http://h/a;x"[|"http://h/a;x"| - 1] != '/' && "http://h/a"[|"http://h/a"| - 1] != '/'
  {
  }

  /**
   * Normalisation is not idempotent when a path holds `;`: `http://h/a;x/` keeps `;x` on the first
   * pass, because its last segment is empty, and loses it on the second.
   */
  lemma ParamsNotIdempotent()
    ensures Normalize("http://h/a;x/") == "http://h/a;x"
    ensures Normalize("http://h/a;x") == "http://h/a"
  {
    ParamsExampleFacts();
    SplitParamsTrailingSlash();
    SplitParamsInSegment();
    ParamsExampleCompose();
    ParsePathOnly("http", "h", "/a;x/");
    ParsePathOnly("http", "h", "/a;x");
    StripOneSlash("http://h/a;x");
  }
}
