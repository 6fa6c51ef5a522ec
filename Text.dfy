/**
 * String helpers used by the three scripts: Python's `strip`, `lstrip(chars)`,
 * `rstrip(chars)`, `startswith`, `endswith`, the `in` substring test,
 * `sep.join(...)`, `s.split(sep)` for one separator character, and the word
 * count `len(s.split())`.
 *
 * Python's argument-less `strip()` and `split()` use Unicode whitespace; here
 * whitespace is the fixed set of the ten characters below U+0080 that Python
 * counts as whitespace.
 */
module Text {

  /** The characters below U+0080 that Python's argument-less `strip()`/`split()` remove. */
  const Whitespace: set<char> :=
    {' ', '\t', '\n', '\r', '\U{000B}', '\U{000C}', '\U{001C}', '\U{001D}', '\U{001E}', '\U{001F}'}

  predicate IsSpace(c: char) {
    c in Whitespace
  }

  /** Every character of `s` is drawn from `cs`. */
  predicate AllIn(s: string, cs: set<char>) {
    forall i :: 0 <= i < |s| ==> s[i] in cs
  }

  /** Python `s.lstrip(cs)`: drop the longest prefix made of characters in `cs`. */
  function LStripSet(s: string, cs: set<char>): string {
    if s != [] && s[0] in cs then LStripSet(s[1..], cs) else s
  }

  /** What `lstrip` leaves is a suffix; what it drops is drawn from `cs`; what it leaves does not start with one of `cs`. */
  lemma {:induction false} LStripSetSpec(s: string, cs: set<char>)
    ensures |LStripSet(s, cs)| <= |s| && LStripSet(s, cs) == s[|s| - |LStripSet(s, cs)|..]
    ensures AllIn(s[..|s| - |LStripSet(s, cs)|], cs)
    ensures LStripSet(s, cs) == [] || LStripSet(s, cs)[0] !in cs
  {
    if s != [] && s[0] in cs {
      LStripSetSpec(s[1..], cs);
      var r := LStripSet(s[1..], cs);
      assert s[1..][..|s[1..]| - |r|] == s[1..|s| - |r|];
    }
  }

  /** `lstrip` removes a prefix drawn from `cs` up to a character outside `cs`. */
  lemma {:induction false} LStripSetPrefix(p: string, body: string, cs: set<char>)
    requires AllIn(p, cs) && (body == [] || body[0] !in cs)
    ensures LStripSet(p + body, cs) == body
  {
    if p == [] {
      assert p + body == body;
    } else {
      assert (p + body)[1..] == p[1..] + body;
      LStripSetPrefix(p[1..], body, cs);
    }
  }

  /** Python `s.rstrip(cs)`: drop the longest suffix made of characters in `cs`. */
  function RStripSet(s: string, cs: set<char>): string {
    if s != [] && s[|s| - 1] in cs then RStripSet(s[..|s| - 1], cs) else s
  }

  /** What `rstrip` leaves is a prefix; what it drops is drawn from `cs`; what it leaves does not end with one of `cs`. */
  lemma {:induction false} RStripSetSpec(s: string, cs: set<char>)
    ensures |RStripSet(s, cs)| <= |s| && RStripSet(s, cs) == s[..|RStripSet(s, cs)|]
    ensures AllIn(s[|RStripSet(s, cs)|..], cs)
    ensures RStripSet(s, cs) == [] || RStripSet(s, cs)[|RStripSet(s, cs)| - 1] !in cs
  {
    if s != [] && s[|s| - 1] in cs {
      var init := s[..|s| - 1];
      RStripSetSpec(init, cs);
      var r := RStripSet(init, cs);
      assert RStripSet(s, cs) == r && |r| <= |init|;
      assert s[..|r|] == init[..|r|];
      assert init[|r|..] == s[|r|..|s| - 1];
      assert s[|r|..] == init[|r|..] + [s[|s| - 1]];
    }
  }

  /** `rstrip` removes a suffix drawn from `cs` back to a character outside `cs`. */
  lemma {:induction false} RStripSetSuffix(body: string, w: string, cs: set<char>)
    requires AllIn(w, cs) && (body == [] || body[|body| - 1] !in cs)
    ensures RStripSet(body + w, cs) == body
    decreases |w|
  {
    if w == [] {
      assert body + w == body;
    } else {
      assert (body + w)[..|body + w| - 1] == body + w[..|w| - 1];
      RStripSetSuffix(body, w[..|w| - 1], cs);
    }
  }

  /** Python `s.strip()`. */
  function Strip(s: string): string {
    RStripSet(LStripSet(s, Whitespace), Whitespace)
  }

  /** The result of `strip()` has no whitespace at either end, and is empty exactly when the input is all whitespace. */
  lemma StripSpec(s: string)
    ensures Strip(s) == [] || (!IsSpace(Strip(s)[0]) && !IsSpace(Strip(s)[|Strip(s)| - 1]))
    ensures Strip(s) == [] <==> AllIn(s, Whitespace)
  {
    var l := LStripSet(s, Whitespace);
    var r := RStripSet(l, Whitespace);
    LStripSetSpec(s, Whitespace);
    RStripSetSpec(l, Whitespace);
    if r != [] {
      assert r[0] == l[0];
    }
    if r == [] {
      assert l[|r|..] == l;
      assert s == s[..|s| - |l|] + l;
      AllInConcat(s[..|s| - |l|], l, Whitespace);
    }
  }

  lemma AllInConcat(a: string, b: string, cs: set<char>)
    ensures AllIn(a + b, cs) <==> AllIn(a, cs) && AllIn(b, cs)
  {
    if AllIn(a, cs) && AllIn(b, cs) {
      forall i | 0 <= i < |a + b| ensures (a + b)[i] in cs {
        if i >= |a| { assert (a + b)[i] == b[i - |a|]; }
      }
    }
    if AllIn(a + b, cs) {
      forall i | 0 <= i < |a| ensures a[i] in cs {
        assert (a + b)[i] == a[i];
      }
      forall i | 0 <= i < |b| ensures b[i] in cs {
        assert (a + b)[|a| + i] == b[i];
      }
    }
  }

  /** A string whose ends are not whitespace is its own strip. */
  lemma StripNoop(s: string)
    requires s == [] || (!IsSpace(s[0]) && !IsSpace(s[|s| - 1]))
    ensures Strip(s) == s
  {
  }

  /** Whitespace around a string with visible ends does not survive `strip()`. */
  lemma StripPadded(w1: string, s: string, w2: string)
    requires s != [] && !IsSpace(s[0]) && !IsSpace(s[|s| - 1])
    requires AllIn(w1, Whitespace) && AllIn(w2, Whitespace)
    ensures Strip(w1 + s + w2) == s
  {
    assert w1 + s + w2 == w1 + (s + w2);
    LStripSetPrefix(w1, s + w2, Whitespace);
    RStripSetSuffix(s, w2, Whitespace);
  }

  function StartsWith(s: string, prefix: string): bool {
    |prefix| <= |s| && s[..|prefix|] == prefix
  }

  function EndsWith(s: string, suffix: string): bool {
    |suffix| <= |s| && s[|s| - |suffix|..] == suffix
  }

  /** `sub` occurs in `s` starting at index `i`. */
  predicate OccursAt(s: string, sub: string, i: int) {
    0 <= i <= |s| - |sub| && s[i..i + |sub|] == sub
  }

  /** Python `sub in s`. */
  predicate Contains(s: string, sub: string) {
    exists i | 0 <= i <= |s| - |sub| :: OccursAt(s, sub, i)
  }

  /** Python `sep.join(xs)`. */
  function Join(sep: string, xs: seq<string>): string {
    if xs == [] then ""
    else if |xs| == 1 then xs[0]
    else xs[0] + sep + Join(sep, xs[1..])
  }

  /** A join of non-empty items is empty exactly when there are no items. */
  lemma {:induction false} JoinEmptyIff(sep: string, xs: seq<string>)
    requires forall i :: 0 <= i < |xs| ==> xs[i] != ""
    ensures Join(sep, xs) == "" <==> xs == []
  {
    if |xs| >= 2 {
      assert |Join(sep, xs)| >= |xs[0]| > 0;
    }
  }

  /** Python `s.split(sep)` for a one-character separator. */
  function SplitOn(s: string, sep: char): (parts: seq<string>)
    ensures |parts| >= 1
  {
    if s == [] then [""]
    else
      var rest := SplitOn(s[1..], sep);
      if s[0] == sep then [""] + rest
      else [[s[0]] + rest[0]] + rest[1..]
  }

  /** Splitting `a + [sep] + b` where `a` holds no separator yields `a` then the parts of `b`. */
  lemma {:induction false} SplitOnCons(a: string, sep: char, b: string)
    requires sep !in a
    ensures SplitOn(a + [sep] + b, sep) == [a] + SplitOn(b, sep)
    ensures SplitOn(a, sep) == [a]
  {
    if a == [] {
      assert a + [sep] + b == [sep] + b;
    } else {
      assert (a + [sep] + b)[1..] == a[1..] + [sep] + b;
      SplitOnCons(a[1..], sep, b);
      assert [a[0]] + a[1..] == a;
    }
  }

  /** Splitting undoes joining when no item contains the separator. */
  lemma {:induction false} SplitJoin(sep: char, xs: seq<string>)
    requires xs != []
    requires forall i :: 0 <= i < |xs| ==> sep !in xs[i]
    ensures SplitOn(Join([sep], xs), sep) == xs
  {
    if |xs| == 1 {
      SplitOnCons(xs[0], sep, "");
    } else {
      SplitJoin(sep, xs[1..]);
      SplitOnCons(xs[0], sep, Join([sep], xs[1..]));
      assert [xs[0]] + xs[1..] == xs;
    }
  }

  /** Drop the leading run of non-whitespace characters (one word). */
  function SkipWord(s: string): (r: string)
    ensures |r| < |s| || s == [] || IsSpace(s[0])
    ensures |r| <= |s|
  {
    if s == [] || IsSpace(s[0]) then s else SkipWord(s[1..])
  }

  /** Python `len(s.split())`: the number of maximal runs of non-whitespace characters. */
  function WordCount(s: string): (n: nat)
    ensures n == 0 <==> AllIn(s, Whitespace)
    ensures n <= |s|
    decreases |s|
  {
    if s == [] then 0
    else if IsSpace(s[0]) then
      var n := WordCount(s[1..]);
      assert AllIn(s[1..], Whitespace) ==> AllIn(s, Whitespace);
      n
    else 1 + WordCount(SkipWord(s))
  }
}
