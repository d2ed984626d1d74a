/** The parts of Python's `str` behaviour the program relies on: whitespace
    stripping and splitting, ASCII case mapping, prefix and substring checks,
    one-character replacement and joining. */
module Text {

  /** `str.isspace()` for one character; the regular-expression class `\s`
      of a `str` pattern is the same set. */
  predicate IsSpace(c: char) {
    c == ' ' || ('\t' <= c <= '\r') || ('\U{1c}' <= c <= '\U{1f}')
    || c == '\U{85}' || c == '\U{a0}' || c == '\U{1680}'
    || ('\U{2000}' <= c <= '\U{200a}') || c == '\U{2028}' || c == '\U{2029}'
    || c == '\U{202f}' || c == '\U{205f}' || c == '\U{3000}'
  }

  predicate NotSpace(c: char) { !IsSpace(c) }

  /** A token of `str.split()`: non-empty, with no whitespace. */
  predicate Word(t: string) {
    t != [] && forall j :: 0 <= j < |t| ==> NotSpace(t[j])
  }

  predicate IsDigit(c: char) { '0' <= c <= '9' }

  predicate IsAsciiLetter(c: char) { 'a' <= c <= 'z' || 'A' <= c <= 'Z' }

  /** Length of the longest prefix of `s` whose characters all satisfy `p`. */
  function PrefixLen(s: string, p: char -> bool): (n: nat)
    ensures n <= |s|
    ensures forall i :: 0 <= i < n ==> p(s[i])
    ensures n == |s| || !p(s[n])
  {
    if |s| > 0 && p(s[0]) then 1 + PrefixLen(s[1..], p) else 0
  }

  /** A run of characters satisfying `p` at the front is counted in full, and
      the count goes on into what follows it. */
  lemma {:induction false} PrefixLenAppend(a: string, b: string, p: char -> bool)
    requires forall i :: 0 <= i < |a| ==> p(a[i])
    ensures PrefixLen(a + b, p) == |a| + PrefixLen(b, p)
  {
    if |a| > 0 {
      assert (a + b)[1..] == a[1..] + b;
      PrefixLenAppend(a[1..], b, p);
    } else {
      assert a + b == b;
    }
  }

  /** Length of the longest suffix of `s` whose characters all satisfy `p`. */
  function SuffixLen(s: string, p: char -> bool): (n: nat)
    ensures n <= |s|
    ensures forall i :: |s| - n <= i < |s| ==> p(s[i])
    ensures n == |s| || !p(s[|s| - n - 1])
  {
    if |s| > 0 && p(s[|s| - 1]) then 1 + SuffixLen(s[..|s| - 1], p) else 0
  }

  /** `str.lstrip(chars)`, with the set of stripped characters given by `p`. */
  function TrimStart(s: string, p: char -> bool): (r: string)
    ensures r == s[PrefixLen(s, p)..]
    ensures r == [] || !p(r[0])
  {
    s[PrefixLen(s, p)..]
  }

  /** `str.rstrip(chars)`, with the set of stripped characters given by `p`. */
  function TrimEnd(s: string, p: char -> bool): (r: string)
    ensures r == s[..|s| - SuffixLen(s, p)]
    ensures r == [] || !p(r[|r| - 1])
  {
    s[..|s| - SuffixLen(s, p)]
  }

  /** `str.strip(chars)`: both ends, and nothing but characters satisfying `p`
      is removed. */
  function Trim(s: string, p: char -> bool): (r: string)
    ensures |r| <= |s|
    ensures r == [] || (!p(r[0]) && !p(r[|r| - 1]))
    ensures r == s[PrefixLen(s, p)..|s| - SuffixLen(s[PrefixLen(s, p)..], p)]
  {
    TrimEnd(TrimStart(s, p), p)
  }

  /** `str.strip()` with no argument. */
  function Strip(s: string): (r: string)
    ensures |r| <= |s|
    ensures r == [] || (!IsSpace(r[0]) && !IsSpace(r[|r| - 1]))
    ensures r == s[PrefixLen(s, IsSpace)..|s| - SuffixLen(s[PrefixLen(s, IsSpace)..], IsSpace)]
  {
    Trim(s, IsSpace)
  }

  /** A run of characters satisfying `p` at the back is counted in full, and
      the count goes on into what precedes it. */
  lemma {:induction false} SuffixLenAppend(a: string, b: string, p: char -> bool)
    requires forall i :: 0 <= i < |b| ==> p(b[i])
    ensures SuffixLen(a + b, p) == |b| + SuffixLen(a, p)
  {
    if |b| > 0 {
      assert (a + b)[..|a + b| - 1] == a + b[..|b| - 1];
      SuffixLenAppend(a, b[..|b| - 1], p);
    } else {
      assert a + b == a;
    }
  }

  /** Trimming takes off exactly the padding: text whose ends are outside
      the set comes back out of any padding made of the set. */
  lemma TrimPadded(a: string, s: string, b: string, p: char -> bool)
    requires forall i :: 0 <= i < |a| ==> p(a[i])
    requires forall i :: 0 <= i < |b| ==> p(b[i])
    requires s == [] || (!p(s[0]) && !p(s[|s| - 1]))
    ensures Trim(a + s + b, p) == s
  {
    PrefixLenAppend(a, s + b, p);
    assert a + s + b == a + (s + b);
    assert (a + s + b)[|a|..] == s + b;
    SuffixLenAppend(s, b, p);
    if s == [] {
      PrefixLenAppend(b, [], p);
      assert b + [] == b && s + b == b;
    } else {
      assert PrefixLen(s + b, p) == 0 by { assert (s + b)[0] == s[0]; }
      assert SuffixLen(s, p) == 0;
      assert (s + b)[..|s|] == s;
    }
  }

  /** `str.strip()` is idempotent. */
  lemma StripIdempotent(s: string)
    ensures Strip(Strip(s)) == Strip(s)
  {
    TrimPadded([], Strip(s), [], IsSpace);
    assert [] + Strip(s) + [] == Strip(s);
  }

  /** `str.lstrip()` with no argument. */
  function LStrip(s: string): (r: string)
    ensures r == [] || !IsSpace(r[0])
    ensures forall c :: c in r ==> c in s
  {
    TrimStart(s, IsSpace)
  }

  predicate IsQuote(c: char) { c == '"' }

  predicate IsApostrophe(c: char) { c == '\'' }

  /** `str.lower()` for one character, on the ASCII letters. */
  function LowerChar(c: char): (d: char)
    ensures 'A' <= c <= 'Z' ==> 'a' <= d <= 'z'
    ensures !('A' <= c <= 'Z') ==> d == c
  {
    if 'A' <= c <= 'Z' then (c as int + 32) as char else c
  }

  /** `str.upper()` for one character, on the ASCII letters. */
  function UpperChar(c: char): (d: char)
    ensures 'a' <= c <= 'z' ==> 'A' <= d <= 'Z'
    ensures !('a' <= c <= 'z') ==> d == c
  {
    if 'a' <= c <= 'z' then (c as int - 32) as char else c
  }

  function Lower(s: string): (r: string)
    ensures |r| == |s|
    ensures forall i :: 0 <= i < |s| ==> r[i] == LowerChar(s[i])
  {
    seq(|s|, i requires 0 <= i < |s| => LowerChar(s[i]))
  }

  function Upper(s: string): (r: string)
    ensures |r| == |s|
    ensures forall i :: 0 <= i < |s| ==> r[i] == UpperChar(s[i])
  {
    seq(|s|, i requires 0 <= i < |s| => UpperChar(s[i]))
  }

  /** Equality after `str.lower()` on both sides. */
  predicate EqualsIgnoreCase(a: string, b: string) {
    Lower(a) == Lower(b)
  }

  predicate StartsWith(s: string, p: string) {
    |p| <= |s| && s[..|p|] == p
  }

  predicate EndsWith(s: string, p: string) {
    |p| <= |s| && s[|s| - |p|..] == p
  }

  /** The substring check `sub in s`. */
  predicate Contains(s: string, sub: string)
    decreases |s|
  {
    StartsWith(s, sub) || (|s| > 0 && Contains(s[1..], sub))
  }

  /** `s.replace(c, rep)` for a one-character `c`: every occurrence of `c` is
      replaced, left to right, and nothing else changes. */
  function ReplaceChar(s: string, c: char, rep: string): (r: string)
    ensures c !in s ==> r == s
    ensures c !in rep ==> c !in r
    ensures forall x :: x in r ==> x in s || x in rep
  {
    if s == [] then []
    else (if s[0] == c then rep else [s[0]]) + ReplaceChar(s[1..], c, rep)
  }

  /** Replacing a character by a single character rewrites it in place. */
  lemma {:induction false} ReplaceCharAt(s: string, c: char, d: char)
    ensures |ReplaceChar(s, c, [d])| == |s|
    ensures forall i :: 0 <= i < |s| ==> ReplaceChar(s, c, [d])[i] == if s[i] == c then d else s[i]
  {
    if s != [] {
      ReplaceCharAt(s[1..], c, d);
      var head := if s[0] == c then [d] else [s[0]];
      assert ReplaceChar(s, c, [d]) == head + ReplaceChar(s[1..], c, [d]);
      forall i | 0 < i < |s| ensures ReplaceChar(s, c, [d])[i] == if s[i] == c then d else s[i] {
        assert s[i] == s[1..][i - 1];
      }
    }
  }

  /** Replacing works piece by piece. */
  lemma {:induction false} ReplaceConcat(a: string, b: string, c: char, rep: string)
    ensures ReplaceChar(a + b, c, rep) == ReplaceChar(a, c, rep) + ReplaceChar(b, c, rep)
  {
    if a == [] {
      assert a + b == b;
    } else {
      assert (a + b)[0] == a[0];
      assert (a + b)[1..] == a[1..] + b;
      ReplaceConcat(a[1..], b, c, rep);
    }
  }

  /** Dropping the one occurrence of `c` between two parts free of it. */
  lemma ReplaceDrop(a: string, c: char, b: string)
    requires c !in a && c !in b
    ensures ReplaceChar(a + [c] + b, c, "") == a + b
  {
    var l := ReplaceChar(a, c, "");
    assert l == a;
    var m := ReplaceChar(b, c, "");
    assert m == b;
    var one := ReplaceChar([c], c, "");
    assert one == [];
    ReplaceConcat([c], b, c, "");
    var cb := ReplaceChar([c] + b, c, "");
    assert cb == b;
    ReplaceConcat(a, [c] + b, c, "");
    assert a + [c] + b == a + ([c] + b);
  }

  /** A string with no upper-case ASCII letter is its own lower case. */
  lemma LowerKeeps(s: string)
    requires forall i :: 0 <= i < |s| ==> !('A' <= s[i] <= 'Z')
    ensures Lower(s) == s
  {
  }

  /** `str.split()` with no argument: the maximal runs of non-whitespace
      characters, in order. */
  function Split(s: string): (tokens: seq<string>)
    ensures forall i :: 0 <= i < |tokens| ==> Word(tokens[i])
    decreases |s|
  {
    var t := LStrip(s);
    if t == [] then []
    else
      var k := PrefixLen(t, NotSpace);
      [t[..k]] + Split(t[k..])
  }

  /** A word followed by whitespace or nothing is the first token. */
  lemma SplitWord(w: string, rest: string)
    requires Word(w) && (rest == [] || IsSpace(rest[0]))
    ensures Split(w + rest) == [w] + Split(rest)
  {
    var s := w + rest;
    assert s[0] == w[0];
    assert LStrip(s) == s;
    PrefixLenAppend(w, rest, NotSpace);
    assert PrefixLen(s, NotSpace) == |w|;
    assert s[..|w|] == w && s[|w|..] == rest;
  }

  /** Leading whitespace does not change the tokens. */
  lemma SplitSpace(c: char, x: string)
    requires IsSpace(c)
    ensures Split([c] + x) == Split(x)
  {
    assert ([c] + x)[1..] == x;
    assert LStrip([c] + x) == LStrip(x);
  }

  /** `' '.join(words).split()` gives the words back. */
  lemma {:induction false} SplitJoin(ts: seq<string>)
    requires forall i :: 0 <= i < |ts| ==> Word(ts[i])
    ensures Split(Join(" ", ts)) == ts
  {
    if |ts| == 1 {
      var w := ts[0];
      SplitWord(w, []);
      assert w + [] == w;
    } else if |ts| > 1 {
      var w, rest := ts[0], ts[1..];
      forall i | 0 <= i < |rest| ensures Word(rest[i]) {
        assert rest[i] == ts[i + 1];
      }
      SplitJoin(rest);
      SplitJoinCons(w, rest);
      assert [w] + rest == ts;
    }
  }

  lemma SplitJoinCons(w: string, ts: seq<string>)
    requires Word(w) && ts != [] && Split(Join(" ", ts)) == ts
    ensures Split(Join(" ", [w] + ts)) == [w] + ts
  {
    var j := Join(" ", ts);
    JoinCons(w, ts);
    SplitWord(w, [' '] + j);
    SplitSpace(' ', j);
  }

  lemma JoinCons(w: string, ts: seq<string>)
    requires ts != []
    ensures Join(" ", [w] + ts) == w + ([' '] + Join(" ", ts))
  {
    var l := [w] + ts;
    assert l[0] == w && l[1..] == ts;
    assert Join(" ", l) == w + " " + Join(" ", ts);
  }

  /** `sep.join(tokens)`. */
  function Join(sep: string, tokens: seq<string>): (r: string)
    ensures |tokens| == 1 ==> r == tokens[0]
  {
    if tokens == [] then []
    else if |tokens| == 1 then tokens[0]
    else tokens[0] + sep + Join(sep, tokens[1..])
  }
}
