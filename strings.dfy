/** Python string operations the scanner relies on, with Python's semantics. */
module Strings {

  /** ASCII upper-case letters; `str.lower` is modelled on these only. */
  predicate IsAsciiUpper(c: char) { 'A' <= c <= 'Z' }
  predicate IsAsciiLower(c: char) { 'a' <= c <= 'z' }
  predicate IsAsciiAlpha(c: char) { IsAsciiUpper(c) || IsAsciiLower(c) }
  predicate IsAsciiDigit(c: char) { '0' <= c <= '9' }

  function LowerChar(c: char): (d: char)
    ensures !IsAsciiUpper(d)
    ensures !IsAsciiUpper(c) ==> d == c
  {
    if IsAsciiUpper(c) then (c as int + 32) as char else c
  }

  /** `s.lower()` restricted to ASCII letters. */
  function Lower(s: string): (r: string)
    ensures |r| == |s|
    ensures forall i :: 0 <= i < |s| ==> r[i] == LowerChar(s[i])
  {
    if s == [] then [] else [LowerChar(s[0])] + Lower(s[1..])
  }

  lemma {:induction false} LowerIdempotent(s: string)
    ensures Lower(Lower(s)) == Lower(s)
  {
  }

  lemma {:induction false} LowerOfLower(s: string)
    requires forall i :: 0 <= i < |s| ==> !IsAsciiUpper(s[i])
    ensures Lower(s) == s
  {
  }

  lemma {:induction false} LowerAppend(a: string, b: string)
    ensures Lower(a + b) == Lower(a) + Lower(b)
  {
  }

  /** The characters for which Python's `str.isspace()` holds. */
  predicate IsSpace(c: char) {
    var n := c as int;
    (9 <= n <= 13) || (28 <= n <= 32) || n == 0x85 || n == 0xA0 || n == 0x1680
    || (0x2000 <= n <= 0x200A) || n == 0x2028 || n == 0x2029 || n == 0x202F
    || n == 0x205F || n == 0x3000
  }

  /** `s.lstrip()`. */
  function LStrip(s: string): (r: string)
    ensures |r| <= |s| && r == s[|s| - |r|..]
    ensures r == [] || !IsSpace(r[0])
    ensures forall i :: 0 <= i < |s| - |r| ==> IsSpace(s[i])
  {
    if s != [] && IsSpace(s[0]) then LStrip(s[1..]) else s
  }

  /** `s.rstrip()`. */
  function RStrip(s: string): (r: string)
    ensures |r| <= |s| && r == s[..|r|]
    ensures r == [] || !IsSpace(r[|r| - 1])
    ensures forall i :: |r| <= i < |s| ==> IsSpace(s[i])
  {
    if s != [] && IsSpace(s[|s| - 1]) then RStrip(s[..|s| - 1]) else s
  }

  /** `s.strip()`. */
  function Strip(s: string): string {
    RStrip(LStrip(s))
  }

  /** Every character is whitespace: `s.strip()` is empty, as `StripBlank` shows. */
  predicate IsBlank(s: string) {
    forall i | 0 <= i < |s| :: IsSpace(s[i])
  }

  /** A blank string strips to nothing. */
  lemma {:induction false} LStripBlank(s: string)
    requires IsBlank(s)
    ensures LStrip(s) == ""
  {
  }

  /** A string that strips to nothing is blank. */
  lemma {:induction false} StripEmptyBlank(s: string)
    requires Strip(s) == ""
    ensures IsBlank(s)
  {
    var l := LStrip(s);
    assert forall i | 0 <= i < |l| :: IsSpace(l[i]);
    assert forall i | |s| - |l| <= i < |s| :: s[i] == l[i - (|s| - |l|)];
  }

  /** `s.strip()` is empty exactly when `s` is blank. */
  lemma {:induction false} StripBlank(s: string)
    ensures Strip(s) == "" <==> IsBlank(s)
  {
    if IsBlank(s) {
      LStripBlank(s);
    }
    if Strip(s) == "" {
      StripEmptyBlank(s);
    }
  }

  /** Leading whitespace does not change what `strip` returns. */
  lemma {:induction false} StripSpacePrefix(w: string, s: string)
    requires forall i :: 0 <= i < |w| ==> IsSpace(w[i])
    ensures Strip(w + s) == Strip(s)
  {
    if w != [] {
      assert (w + s)[1..] == w[1..] + s;
      assert LStrip(w + s) == LStrip(w[1..] + s);
      StripSpacePrefix(w[1..], s);
    } else {
      assert w + s == s;
    }
  }

  /** `s.rstrip(c)` for a single character. */
  function RStripChar(s: string, c: char): (r: string)
    ensures |r| <= |s| && forall i :: 0 <= i < |r| ==> r[i] == s[i]
    ensures r == [] || r[|r| - 1] != c
    ensures forall i :: |r| <= i < |s| ==> s[i] == c
  {
    if s != [] && s[|s| - 1] == c then RStripChar(s[..|s| - 1], c) else s
  }

  /** `s.lstrip(c)` for a single character. */
  function LStripChar(s: string, c: char): (r: string)
    ensures |r| <= |s| && forall i :: 0 <= i < |r| ==> r[i] == s[|s| - |r| + i]
    ensures r == [] || r[0] != c
    ensures forall i :: 0 <= i < |s| - |r| ==> s[i] == c
  {
    if s != [] && s[0] == c then LStripChar(s[1..], c) else s
  }

  /** `s.strip(c)` for a single character. */
  function StripChar(s: string, c: char): string {
    RStripChar(LStripChar(s, c), c)
  }

  /** One leading `c`, and none at the end: stripping `c` drops just that first character. */
  lemma {:induction false} StripOneLead(s: string, c: char)
    requires |s| >= 2 && s[0] == c && s[1] != c && s[|s| - 1] != c
    ensures StripChar(s, c) == s[1..]
  {
    assert LStripChar(s[1..], c) == s[1..];
    assert LStripChar(s, c) == s[1..];
  }

  /** `s.replace(a, b)` for single characters. */
  function ReplaceChar(s: string, a: char, b: char): (r: string)
    ensures |r| == |s|
    ensures forall i :: 0 <= i < |s| ==> r[i] == (if s[i] == a then b else s[i])
  {
    if s == [] then [] else [if s[0] == a then b else s[0]] + ReplaceChar(s[1..], a, b)
  }

  /** `replace` works piece by piece. */
  lemma {:induction false} ReplaceAppend(a: string, b: string, x: char, y: char)
    ensures ReplaceChar(a + b, x, y) == ReplaceChar(a, x, y) + ReplaceChar(b, x, y)
  {
  }

  /** Index of the first `c` in `s`, or `|s|` when there is none (`s.find(c)` with -1 read as `|s|`). */
  function FindChar(s: string, c: char): (k: nat)
    ensures k <= |s|
    ensures forall j :: 0 <= j < k ==> s[j] != c
    ensures k < |s| ==> s[k] == c
  {
    if s == [] then 0 else if s[0] == c then 0 else 1 + FindChar(s[1..], c)
  }

  /** Index of the last `c` in `s`, or -1 (`s.rfind(c)`). */
  function RFindChar(s: string, c: char): (k: int)
    ensures -1 <= k < |s|
    ensures forall j :: k < j < |s| ==> s[j] != c
    ensures k >= 0 ==> s[k] == c
  {
    if s == [] then -1 else if s[|s| - 1] == c then |s| - 1 else RFindChar(s[..|s| - 1], c)
  }

  /** `pat` occurs in `s` at position `i`. */
  predicate OccursAt(s: string, pat: string, i: int) {
    0 <= i && i + |pat| <= |s| && s[i..i + |pat|] == pat
  }

  /** Python's `pat in s`. */
  predicate Contains(s: string, pat: string) {
    exists i | 0 <= i <= |s| :: OccursAt(s, pat, i)
  }

  /** `s.startswith(p)` and `s.endswith(p)`. */
  predicate StartsWith(s: string, p: string) { |p| <= |s| && s[..|p|] == p }
  predicate EndsWith(s: string, p: string) { |p| <= |s| && s[|s| - |p|..] == p }

  /** A concatenation starts with its first part and ends with its second. */
  lemma {:induction false} AppendEnds(a: string, b: string)
    ensures StartsWith(a + b, a) && EndsWith(a + b, b)
  {
    assert (a + b)[..|a|] == a;
    assert (a + b)[|a + b| - |b|..] == b;
  }

  /** A suffix of `b` is a suffix of `a + b`. */
  lemma {:induction false} EndsWithLonger(a: string, b: string, p: string)
    requires EndsWith(b, p)
    ensures EndsWith(a + b, p)
  {
    assert (a + b)[|a + b| - |p|..] == b[|b| - |p|..];
  }

  /** Every tail of a string is a suffix of it. */
  lemma {:induction false} TailEnds(s: string, k: nat)
    requires k <= |s|
    ensures EndsWith(s, s[k..])
  {
  }

  /** A slice of `s` read off its tail `s[1..]`. */
  lemma {:induction false} TailSlice(s: string, j: nat, n: nat)
    requires 1 <= j && j + n <= |s|
    ensures s[1..][j - 1..j - 1 + n] == s[j..j + n]
  {
    var a, b := s[1..][j - 1..j - 1 + n], s[j..j + n];
    forall k | 0 <= k < n
      ensures a[k] == b[k]
    {
      assert a[k] == s[1..][j - 1 + k];
    }
  }

  /** Index of the first occurrence of `pat` in `s`, or `|s|` when there is none (`s.find(pat)`). */
  function Find(s: string, pat: string): (k: nat)
    ensures k <= |s|
    ensures k < |s| || pat == [] ==> OccursAt(s, pat, k)
    ensures forall j :: 0 <= j < k ==> !OccursAt(s, pat, j)
    ensures k == |s| && pat != [] ==> !Contains(s, pat)
    decreases |s|
  {
    if |s| < |pat| then
      assert forall j :: 0 <= j ==> !OccursAt(s, pat, j);
      |s|
    else if s[..|pat|] == pat then 0
    else
      var k := Find(s[1..], pat);
      assert forall j :: 1 <= j <= |s| ==> (OccursAt(s, pat, j) <==> OccursAt(s[1..], pat, j - 1)) by {
        forall j | 1 <= j <= |s| ensures OccursAt(s, pat, j) <==> OccursAt(s[1..], pat, j - 1) {
          if j + |pat| <= |s| {
            TailSlice(s, j, |pat|);
          }
        }
      }
      if k == |s| - 1 && pat != [] then |s| else 1 + k
  }

  /** `s[:n]` for a non-negative `n`. */
  function Take(s: string, n: nat): (r: string)
    ensures |r| == if n < |s| then n else |s|
    ensures r == s[..|r|]
  {
    if n < |s| then s[..n] else s
  }

  /** Where Python puts a slice bound `i` in a string of length `n`: negative bounds count from the end, then both ends are clamped. */
  function SliceBound(n: nat, i: int): (b: nat)
    ensures b <= n
    ensures 0 <= i <= n ==> b == i
  {
    if i < 0 then (if i + n < 0 then 0 else i + n) else if i < n then i else n
  }

  /** Python's `s[i:j]` for any integer bounds. */
  function PySlice(s: string, i: int, j: int): (r: string)
    ensures SliceBound(|s|, i) + |r| <= |s|
    ensures r == s[SliceBound(|s|, i)..SliceBound(|s|, i) + |r|]
    ensures |r| == if SliceBound(|s|, i) < SliceBound(|s|, j) then SliceBound(|s|, j) - SliceBound(|s|, i) else 0
  {
    var a, b := SliceBound(|s|, i), SliceBound(|s|, j);
    if a < b then s[a..b] else ""
  }

  /** `c * n`. */
  function Repeat(c: char, n: nat): (r: string)
    ensures |r| == n
    ensures forall i :: 0 <= i < n ==> r[i] == c
  {
    seq(n, _ => c)
  }

  function DigitChar(d: nat): char
    requires d < 10
  {
    "0123456789"[d]
  }

  /** `str(n)` for a natural number. */
  function NatToString(n: nat): (r: string)
    ensures r != []
    ensures forall i :: 0 <= i < |r| ==> IsAsciiDigit(r[i])
    decreases n
  {
    if n < 10 then [DigitChar(n)] else NatToString(n / 10) + [DigitChar(n % 10)]
  }

  /** `str(i)` for an integer. */
  function IntToString(i: int): string {
    if i < 0 then "-" + NatToString(-i) else NatToString(i)
  }

  /** `sep.join(xs)`. */
  function Join(sep: string, xs: seq<string>): (r: string)
    ensures xs != [] ==> StartsWith(r, xs[0])
    ensures xs == [] ==> r == ""
  {
    if xs == [] then "" else if |xs| == 1 then xs[0] else xs[0] + sep + Join(sep, xs[1..])
  }
}
