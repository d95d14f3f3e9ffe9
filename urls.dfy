/**
 * `urllib.parse.urlparse` (CPython 3.12) and the crawler's URL handling: normalisation,
 * the crawlability test and the link filter.
 */
module Urls {
  import opened Strings

  /** The six components `urlparse` returns. */
  datatype Url = Url(scheme: string, netloc: string, path: string, params: string, query: string, fragment: string)

  /** Characters allowed in a scheme: ASCII letters, digits, `+`, `-` and `.`. */
  predicate IsSchemeChar(c: char) {
    IsAsciiAlpha(c) || IsAsciiDigit(c) || c == '+' || c == '-' || c == '.'
  }

  /** The C0 controls and space, which `urlsplit` strips from the front of a URL. */
  predicate IsC0OrSpace(c: char) { c <= ' ' }

  /** No tab, carriage return or line feed: `urlsplit` deletes these anywhere in a URL. */
  predicate NoUnsafe(s: string) { '\t' !in s && '\r' !in s && '\n' !in s }

  /** Schemes whose last path segment may carry `;params`. */
  const UsesParams: set<string> :=
    {"", "ftp", "hdl", "prospero", "http", "imap", "https", "shttp", "rtsp", "rtspu",
     "sip", "sips", "mms", "sftp", "tel"}

  function LStripC0(s: string): (r: string)
    ensures |r| <= |s| && r == s[|s| - |r|..]
    ensures r == [] || !IsC0OrSpace(r[0])
  {
    if s != [] && IsC0OrSpace(s[0]) then LStripC0(s[1..]) else s
  }

  function RemoveUnsafe(s: string): (r: string)
    ensures NoUnsafe(r)
    ensures NoUnsafe(s) ==> r == s
  {
    if s == [] then []
    else (if s[0] in "\t\r\n" then [] else [s[0]]) + RemoveUnsafe(s[1..])
  }

  /** The clean-up `urlsplit` applies before splitting. */
  function Sanitize(url: string): (s: string)
    ensures NoUnsafe(s)
  {
    RemoveUnsafe(LStripC0(url))
  }

  /** Index of the first of `/`, `?`, `#` in `s`, or `|s|`. */
  function NetlocEnd(s: string): (d: nat)
    ensures d <= |s|
    ensures forall i :: 0 <= i < d ==> s[i] != '/' && s[i] != '?' && s[i] != '#'
    ensures d < |s| ==> s[d] == '/' || s[d] == '?' || s[d] == '#'
  {
    if s == [] then 0
    else if s[0] == '/' || s[0] == '?' || s[0] == '#' then 0
    else 1 + NetlocEnd(s[1..])
  }

  /** A scheme as `urlparse` returns it when it finds one: a letter, then scheme characters, all lower-case. */
  predicate IsParsedScheme(s: string) {
    s != [] && IsAsciiAlpha(s[0]) && (forall i :: 0 <= i < |s| ==> IsSchemeChar(s[i]) && !IsAsciiUpper(s[i]))
  }

  /** A scheme is split off at the first `:` when what precedes it is a non-empty run of scheme characters starting with a letter. */
  predicate HasScheme(s: string) {
    var i := FindChar(s, ':');
    0 < i < |s| && IsAsciiAlpha(s[0]) && forall k :: 0 <= k < i ==> IsSchemeChar(s[k])
  }

  /** The scheme step of `urlsplit`: (lower-cased scheme, rest), or ("", s). */
  function SplitScheme(s: string): (r: (string, string))
    ensures HasScheme(s) <==> r.0 != []
    ensures r.0 == [] ==> r.1 == s
    ensures r.0 != [] ==>
              IsParsedScheme(r.0) && |r.0| < |s| && s[|r.0|] == ':'
              && r.1 == s[|r.0| + 1..] && r.0 == Lower(s[..|r.0|])
    ensures NoUnsafe(s) ==> NoUnsafe(r.1)
  {
    if HasScheme(s) then
      var i := FindChar(s, ':');
      var sch := Lower(s[..i]);
      assert IsParsedScheme(sch) by {
        forall j | 0 <= j < |sch| ensures IsSchemeChar(sch[j]) && !IsAsciiUpper(sch[j]) {
          assert IsSchemeChar(s[j]);
        }
      }
      (sch, s[i + 1..])
    else ("", s)
  }

  /** The netloc step of `urlsplit`: after `//`, the netloc runs to the first `/`, `?` or `#`. */
  function SplitNetloc(rest: string): (r: (string, string))
    ensures '/' !in r.0 && '?' !in r.0 && '#' !in r.0
    ensures |rest| >= 2 && rest[..2] == "//" ==> rest == "//" + r.0 + r.1 && r.0 == rest[2..][..NetlocEnd(rest[2..])]
    ensures !(|rest| >= 2 && rest[..2] == "//") ==> r.0 == [] && r.1 == rest
    ensures NoUnsafe(rest) ==> NoUnsafe(r.0) && NoUnsafe(r.1)
  {
    if |rest| >= 2 && rest[..2] == "//" then
      var t := rest[2..];
      var d := NetlocEnd(t);
      assert rest == "//" + t[..d] + t[d..];
      (t[..d], t[d..])
    else ("", rest)
  }

  /** `s.split(c, 1)` read as (before, after), or (s, "") when `c` does not occur. */
  function SplitOnce(s: string, c: char): (r: (string, string))
    ensures c !in s ==> r == (s, "")
    ensures c in s ==> s == r.0 + [c] + r.1 && c !in r.0
    ensures NoUnsafe(s) ==> NoUnsafe(r.0) && NoUnsafe(r.1)
  {
    var i := FindChar(s, c);
    if i < |s| then (s[..i], s[i + 1..]) else (s, "")
  }

  /** `_splitparams`: the parameters start at the first `;` of the last path segment. */
  function SplitParams(path: string): (r: (string, string))
    ensures |r.0| <= |path| && r.0 == path[..|r.0|]
    ensures NoUnsafe(path) ==> NoUnsafe(r.0)
  {
    var slash := RFindChar(path, '/');
    var start := if slash < 0 then 0 else slash;
    var i := start + FindChar(path[start..], ';');
    if i < |path| then (path[..i], path[i + 1..]) else (path, "")
  }

  /** `urlparse(url)`. No component contains the delimiter that ends it. */
  function Parse(url: string): (u: Url)
    ensures '/' !in u.netloc && '?' !in u.netloc && '#' !in u.netloc
    ensures '?' !in u.path && '#' !in u.path && '#' !in u.query
    ensures NoUnsafe(u.netloc) && NoUnsafe(u.path) && NoUnsafe(u.query)
    ensures u.scheme == [] || IsParsedScheme(u.scheme)
  {
    var (scheme, rest) := SplitScheme(Sanitize(url));
    ParseAfterScheme(scheme, rest)
  }

  /** The steps of `urlparse` after the scheme: netloc, fragment, query, then params. */
  function ParseAfterScheme(scheme: string, rest: string): (u: Url)
    ensures u.scheme == scheme
    ensures '/' !in u.netloc && '?' !in u.netloc && '#' !in u.netloc
    ensures '?' !in u.path && '#' !in u.path && '#' !in u.query
    ensures NoUnsafe(rest) ==> NoUnsafe(u.netloc) && NoUnsafe(u.path) && NoUnsafe(u.query)
  {
    var (netloc, afterNetloc) := SplitNetloc(rest);
    var (beforeFragment, fragment) := SplitOnce(afterNetloc, '#');
    var (beforeQuery, query) := SplitOnce(beforeFragment, '?');
    var (path, params) := if scheme in UsesParams && ';' in beforeQuery then SplitParams(beforeQuery) else (beforeQuery, "");
    Url(scheme, netloc, path, params, query, fragment)
  }

  /** The netloc `urlparse` finds, computed without the steps that split the rest of the URL. */
  function Host(url: string): (h: string)
    ensures '/' !in h && '?' !in h && '#' !in h
  {
    SplitNetloc(SplitScheme(Sanitize(url)).1).0
  }

  /** `Host` is the netloc component of `urlparse`. */
  lemma {:induction false} HostIsNetloc(url: string)
    ensures Host(url) == Parse(url).netloc
  {
  }

  /** The string `_normalize_url` builds before stripping trailing slashes. */
  function Compose(scheme: string, netloc: string, path: string, query: string): string {
    scheme + "://" + (netloc + path + QueryPart(query))
  }

  /** `?query`, or nothing when the query is empty. */
  function QueryPart(query: string): string {
    if query != "" then "?" + query else ""
  }

  /** `WebCrawler._normalize_url`: scheme, host, path and query kept, params and fragment dropped, every trailing `/` removed. */
  function Normalize(url: string): string {
    var p := Parse(url);
    RStripChar(Compose(p.scheme, p.netloc, p.path, p.query), '/')
  }

  lemma {:induction false} RStripCharAppend(a: string, b: string, c: char)
    ensures RStripChar(b, c) != [] ==> RStripChar(a + b, c) == a + RStripChar(b, c)
    ensures RStripChar(b, c) == [] ==> RStripChar(a + b, c) == RStripChar(a, c)
    decreases |b|
  {
    if b == [] {
      assert a + b == a;
    } else if b[|b| - 1] == c {
      assert (a + b)[..|a + b| - 1] == a + b[..|b| - 1];
      RStripCharAppend(a, b[..|b| - 1], c);
    } else {
      assert RStripChar(b, c) == b;
    }
  }

  /** `urlsplit` finds the scheme `sch` in `sch + "://" + y` and leaves `//` + y. */
  lemma {:induction false} SchemeOfComposed(sch: string, y: string)
    requires IsParsedScheme(sch) && NoUnsafe(y)
    ensures SplitScheme(Sanitize(sch + "://" + y)) == (sch, "//" + y)
  {
    assert sch + "://" + y == sch + [':'] + ("//" + y);
    SchemeSplitAt(sch, "//" + y);
  }

  /** `urlsplit` cuts `scheme:rest` at the colon. */
  lemma {:induction false} SchemeSplitAt(sch: string, rest: string)
    requires IsParsedScheme(sch) && NoUnsafe(rest)
    ensures SplitScheme(Sanitize(sch + [':'] + rest)) == (sch, rest)
  {
    var s := sch + [':'] + rest;
    SchemeClean(sch);
    assert s[0] == sch[0];
    assert LStripC0(s) == s;
    assert NoUnsafe(s);
    FindCharAt(sch, ':', rest);
    assert s[..|sch|] == sch && s[|sch| + 1..] == rest;
    LowerOfLower(sch);
  }

  /** The rest of `urlparse` on `//` + y when `y` has no fragment. */
  lemma {:induction false} AfterSchemeOfComposed(sch: string, y: string)
    requires '#' !in y
    ensures var u := ParseAfterScheme(sch, "//" + y);
      var d := NetlocEnd(y);
      var (bq, q) := SplitOnce(y[d..], '?');
      u.netloc == y[..d] && u.query == q && u.fragment == ""
      && (';' !in bq ==> u.path == bq)
  {
    assert ("//" + y)[2..] == y;
    var d := NetlocEnd(y);
    assert '#' !in y[d..];
  }

  /** The components a second pass must find again for normalisation to be a fixed point. */
  predicate StableParts(sch: string, net: string, path: string, query: string) {
    IsParsedScheme(sch)
    && '/' !in net && '?' !in net && '#' !in net && NoUnsafe(net)
    && '?' !in path && '#' !in path && ';' !in path && NoUnsafe(path)
    && '#' !in query && NoUnsafe(query)
    && (query == "" || RStripChar(query, '/') != "")
  }

  /** Trailing-slash stripping of `scheme://t`, split at the `//`. */
  lemma {:induction false} StripComposed(sch: string, t: string)
    ensures RStripChar(t, '/') != [] ==> RStripChar(sch + "://" + t, '/') == sch + "://" + RStripChar(t, '/')
    ensures RStripChar(t, '/') == [] ==> RStripChar(sch + "://" + t, '/') == sch + ":"
  {
    RStripCharAppend(sch + "://", t, '/');
    var a := sch + "://";
    var b := sch + ":/";
    var c := sch + ":";
    assert a[..|a| - 1] == b && RStripChar(a, '/') == RStripChar(b, '/');
    assert b[..|b| - 1] == c && RStripChar(b, '/') == RStripChar(c, '/');
    assert RStripChar(c, '/') == c;
  }

  lemma {:induction false} FindCharAt(a: string, c: char, b: string)
    requires c !in a
    ensures FindChar(a + [c] + b, c) == |a|
  {
    var s := a + [c] + b;
    var k := FindChar(s, c);
    assert s[|a|] == c;
    assert forall j :: 0 <= j < |a| ==> s[j] == a[j];
  }

  lemma {:induction false} SplitOnceAt(a: string, c: char, b: string)
    requires c !in a
    ensures SplitOnce(a + [c] + b, c) == (a, b)
  {
    var s := a + [c] + b;
    FindCharAt(a, c, b);
    assert s[..|a|] == a;
    assert s[|a| + 1..] == b;
  }

  /** `urlparse` of `scheme://y` is the after-scheme parse of `//y`. */
  lemma {:induction false} ParseOfComposed(sch: string, y: string)
    requires IsParsedScheme(sch) && NoUnsafe(y)
    ensures Parse(sch + "://" + y) == ParseAfterScheme(sch, "//" + y)
  {
    SchemeOfComposed(sch, y);
  }

  /** `scheme://y` is its own normal form when `y` splits into a netloc and a rest that reparse to the same string. */
  lemma {:induction false} FixedComposed(sch: string, y: string, d: nat, bq: string, q: string)
    requires IsParsedScheme(sch) && NoUnsafe(y) && '#' !in y
    requires d == NetlocEnd(y) && SplitOnce(y[d..], '?') == (bq, q) && ';' !in bq
    requires y[..d] + bq + QueryPart(q) == y
    requires y != [] && y[|y| - 1] != '/'
    ensures Normalize(sch + "://" + y) == sch + "://" + y
  {
    var v := sch + "://" + y;
    ParseOfComposed(sch, y);
    AfterSchemeOfComposed(sch, y);
    var u := Parse(v);
    assert u.scheme == sch && u.netloc == y[..d] && u.path == bq && u.query == q;
    assert Normalize(v) == RStripChar(Compose(sch, y[..d], bq, q), '/');
    assert Compose(sch, y[..d], bq, q) == v;
    assert v[|v| - 1] != '/';
  }

  /** A prefix without `/`, `?` or `#` lies inside the netloc. */
  lemma {:induction false} NetlocEndOfPrefixed(net: string, rest: string)
    requires '/' !in net && '?' !in net && '#' !in net
    ensures NetlocEnd(net + rest) == |net| + NetlocEnd(rest)
    decreases |net|
  {
    if net == [] {
      assert net + rest == rest;
    } else {
      assert (net + rest)[1..] == net[1..] + rest;
      NetlocEndOfPrefixed(net[1..], rest);
    }
  }

  /** The netloc ends inside `p` when `p` is followed by an optional `?query`, and the query splits off again. */
  lemma {:induction false} PathQuerySplit(p: string, q: string)
    requires '?' !in p
    ensures var r := p + QueryPart(q); var e := NetlocEnd(r);
      e <= |p| && r[e..] == p[e..] + QueryPart(q) && SplitOnce(p[e..] + QueryPart(q), '?') == (p[e..], q)
  {
    var t := QueryPart(q);
    var r := p + t;
    var e := NetlocEnd(r);
    if q != "" {
      assert r[|p|] == t[0] == '?';
      SuffixOfAppend(p, t, e);
      NoCharSuffix(p, e, '?');
      var b := p[e..];
      assert b + t == b + ['?'] + q;
      SplitOnceAt(b, '?', q);
    } else {
      assert r == p;
    }
  }

  /** Slicing `a + b` from a point inside `a`. */
  lemma {:induction false} SuffixOfAppend(a: string, b: string, e: nat)
    requires e <= |a|
    ensures (a + b)[e..] == a[e..] + b
  {
  }

  /** Slicing `a + b` at a point inside `b`. */
  lemma {:induction false} SliceOfAppend(a: string, b: string, e: nat)
    requires e <= |b|
    ensures (a + b)[..|a| + e] == a + b[..e] && (a + b)[|a| + e..] == b[e..]
  {
  }

  /** Cutting `net + (p + t)` at a point inside `p` and putting it back together. */
  lemma {:induction false} CutInside(net: string, p: string, t: string, e: nat)
    requires e <= |p|
    ensures var y := net + (p + t); y[..|net| + e] + p[e..] + t == y && y[|net| + e..] == p[e..] + t
  {
    SliceOfAppend(net, p + t, e);
    assert (p + t)[..e] == p[..e];
    assert p[..e] + p[e..] == p;
    assert net + p[..e] + p[e..] + t == net + (p + t);
  }

  /** A character absent from a string is absent from its suffixes. */
  lemma {:induction false} NoCharSuffix(p: string, e: nat, c: char)
    requires e <= |p| && c !in p
    ensures c !in p[e..]
  {
    assert forall k :: 0 <= k < |p| - e ==> p[e..][k] == p[e + k];
  }

  /** Where `urlsplit` cuts `net + p + QueryPart(q)` into netloc, path and query. */
  lemma {:induction false} PartsSplit(net: string, p: string, q: string) returns (d: nat, bq: string)
    requires '/' !in net && '?' !in net && '#' !in net
    requires '?' !in p && ';' !in p
    ensures var y := net + (p + QueryPart(q));
      d == NetlocEnd(y) && d <= |y| && SplitOnce(y[d..], '?') == (bq, q) && ';' !in bq
      && y[..d] + bq + QueryPart(q) == y
  {
    var t := QueryPart(q);
    var r := p + t;
    var y := net + r;
    NetlocEndOfPrefixed(net, r);
    PathQuerySplit(p, q);
    var e := NetlocEnd(r);
    CutInside(net, p, t, e);
    NoCharSuffix(p, e, ';');
    bq := p[e..];
    d := |net| + e;
    assert y[d..] == bq + t;
    assert SplitOnce(y[d..], '?') == SplitOnce(bq + t, '?');
  }

  /** `scheme://net + p` is its own normal form when `p` is a query-free path followed by an optional query. */
  lemma {:induction false} FixedFromParts(sch: string, net: string, p: string, q: string)
    requires IsParsedScheme(sch)
    requires '/' !in net && '?' !in net && '#' !in net && NoUnsafe(net)
    requires '?' !in p && '#' !in p && ';' !in p && NoUnsafe(p)
    requires '#' !in q && NoUnsafe(q)
    requires var y := net + (p + QueryPart(q)); y != [] && y[|y| - 1] != '/'
    ensures var v := sch + "://" + (net + (p + QueryPart(q))); Normalize(v) == v
  {
    var d, bq := PartsSplit(net, p, q);
    SafeParts(net, p, q);
    FixedComposed(sch, net + (p + QueryPart(q)), d, bq, q);
  }

  /** Gluing fragment-free, unsafe-free parts gives a fragment-free, unsafe-free string. */
  lemma {:induction false} SafeParts(net: string, p: string, q: string)
    requires '#' !in net && NoUnsafe(net) && '#' !in p && NoUnsafe(p) && '#' !in q && NoUnsafe(q)
    ensures var y := net + (p + QueryPart(q)); '#' !in y && NoUnsafe(y)
  {
    var t := QueryPart(q);
    assert '#' !in t && NoUnsafe(t);
  }

  /** A normalised URL with a non-empty query is found again by a second pass. */
  lemma {:induction false} FixedWithQuery(sch: string, net: string, path: string, query: string)
    requires StableParts(sch, net, path, query) && query != ""
    ensures var v := RStripChar(Compose(sch, net, path, query), '/'); Normalize(v) == v
  {
    StripQuery(sch, net, path, query);
    StrippedClean(query);
    FixedFromParts(sch, net, path, RStripChar(query, '/'));
  }

  /** Stripping trailing slashes from a composed URL with a non-empty query strips them from the query only. */
  lemma {:induction false} StripQuery(sch: string, net: string, path: string, query: string)
    requires RStripChar(query, '/') != ""
    ensures var y := net + (path + QueryPart(RStripChar(query, '/')));
      && RStripChar(Compose(sch, net, path, query), '/') == sch + "://" + y
      && y != [] && y[|y| - 1] != '/'
  {
    var q' := RStripChar(query, '/');
    var np := net + path;
    QueryJoin(np, query);
    StripAfter(sch, np + "?", query);
    QueryJoin(np, q');
    AppendAssoc(net, path, QueryPart(q'));
  }

  /** A non-empty query joins a string behind a `?`. */
  lemma {:induction false} QueryJoin(s: string, q: string)
    requires q != ""
    ensures s + QueryPart(q) == (s + "?") + q
  {
  }

  lemma {:induction false} AppendAssoc(a: string, b: string, c: string)
    ensures a + b + c == a + (b + c)
  {
  }

  /** A normalised URL without a query is found again by a second pass. */
  lemma {:induction false} FixedWithoutQuery(sch: string, net: string, path: string)
    requires StableParts(sch, net, path, "")
    ensures var v := RStripChar(Compose(sch, net, path, ""), '/'); Normalize(v) == v
  {
    var p' := RStripChar(path, '/');
    StripPath(sch, net, path);
    PrefixClean(path, p');
    if net + (p' + QueryPart("")) == [] {
      BareSchemeFixed(sch);
    } else {
      FixedFromParts(sch, net, p', "");
    }
  }

  /** Stripping trailing slashes from a composed URL without a query strips them from the path, or leaves `scheme:`. */
  lemma {:induction false} StripPath(sch: string, net: string, path: string)
    requires '/' !in net
    ensures var p' := RStripChar(path, '/'); var y := net + (p' + QueryPart(""));
      var v := RStripChar(Compose(sch, net, path, ""), '/');
      && |p'| <= |path| && p' == path[..|p'|]
      && (y == [] ==> v == sch + ":")
      && (y != [] ==> v == sch + "://" + y && y[|y| - 1] != '/')
  {
    var np := net + path;
    var p' := RStripChar(path, '/');
    NoQuery(np);
    NoQuery(p');
    RStripAbsent(net, '/');
    RStripCharAppend(net, path, '/');
    assert RStripChar(np, '/') == net + p' by {
      if p' == [] { assert net + p' == net; }
    }
    StripComposed(sch, np);
  }

  /** An empty query adds nothing. */
  lemma {:induction false} NoQuery(s: string)
    ensures s + QueryPart("") == s
  {
  }

  /** Stripping a character the string does not hold leaves it as it is. */
  lemma {:induction false} RStripAbsent(s: string, c: char)
    requires c !in s
    ensures RStripChar(s, c) == s
  {
    if s != [] {
      assert s[|s| - 1] in s;
    }
  }

  /** Trailing slashes of `scheme://a + t` come from `t` alone when `t` is not all slashes. */
  lemma {:induction false} StripAfter(sch: string, a: string, t: string)
    requires RStripChar(t, '/') != []
    ensures var t' := RStripChar(t, '/');
      RStripChar(sch + "://" + (a + t), '/') == sch + "://" + (a + t') && (a + t')[|a + t'| - 1] != '/'
  {
    var t' := RStripChar(t, '/');
    RStripCharAppend(a, t, '/');
    assert RStripChar(a + t, '/') == a + t';
    StripComposed(sch, a + t);
  }

  /** A trailing-slash strip keeps out what the string keeps out. */
  lemma {:induction false} StrippedClean(s: string)
    requires '#' !in s && NoUnsafe(s)
    ensures var r := RStripChar(s, '/'); '#' !in r && NoUnsafe(r)
  {
    var r := RStripChar(s, '/');
    assert forall k :: 0 <= k < |r| ==> r[k] == s[k];
  }

  /** A prefix of a path keeps the path's absent characters absent. */
  lemma {:induction false} PrefixClean(path: string, p: string)
    requires |p| <= |path| && p == path[..|p|]
    requires '?' !in path && '#' !in path && ';' !in path && NoUnsafe(path)
    ensures '?' !in p && '#' !in p && ';' !in p && NoUnsafe(p)
  {
    assert forall k :: 0 <= k < |p| ==> p[k] == path[k];
  }

  /** A parsed scheme holds no character `urlsplit` deletes or splits on. */
  lemma {:induction false} SchemeClean(sch: string)
    requires IsParsedScheme(sch)
    ensures NoUnsafe(sch) && ':' !in sch && !IsC0OrSpace(sch[0])
  {
    assert forall i :: 0 <= i < |sch| ==> IsSchemeChar(sch[i]);
  }

  /** `urlparse("scheme:")` finds the scheme and nothing else. */
  lemma {:induction false} ParseBareScheme(sch: string)
    requires IsParsedScheme(sch)
    ensures Parse(sch + ":") == Url(sch, "", "", "", "", "")
  {
    assert sch + ":" == sch + [':'] + "";
    SchemeSplitAt(sch, "");
    EmptyAfterScheme(sch);
  }

  lemma {:induction false} EmptyAfterScheme(sch: string)
    ensures ParseAfterScheme(sch, "") == Url(sch, "", "", "", "", "")
  {
    assert SplitNetloc("") == ("", "");
    assert SplitOnce("", '#') == ("", "");
    assert SplitOnce("", '?') == ("", "");
  }

  /** `scheme:` normalises to itself. */
  lemma {:induction false} BareSchemeFixed(sch: string)
    requires IsParsedScheme(sch)
    ensures Normalize(sch + ":") == sch + ":"
  {
    ParseBareScheme(sch);
    BareComposed(sch);
  }

  /** `scheme://` loses both slashes to the trailing-slash strip. */
  lemma {:induction false} BareComposed(sch: string)
    ensures RStripChar(Compose(sch, "", "", ""), '/') == sch + ":"
  {
    StripComposed(sch, "");
    assert "" + ("" + QueryPart("")) == "";
  }

  /**
   * Normalising twice gives what normalising once gives, provided the URL has a scheme, its path
   * keeps no `;` and its query, when present, is not made only of slashes.
   */
  lemma {:induction false} NormalizeIdempotent(url: string)
    requires var p := Parse(url); p.scheme != "" && ';' !in p.path && (p.query == "" || RStripChar(p.query, '/') != "")
    ensures Normalize(Normalize(url)) == Normalize(url)
  {
    var p := Parse(url);
    if p.query == "" {
      FixedWithoutQuery(p.scheme, p.netloc, p.path);
    } else {
      FixedWithQuery(p.scheme, p.netloc, p.path, p.query);
    }
  }
}
