/**
 * The web-gathering half of `process_company`, written identically in both
 * research scripts: collect the links of every search query, drop repeated
 * links keeping the first, scrape each link and concatenate the non-empty
 * texts under a source label. Also the output file name both scripts derive
 * from the company name.
 *
 * The search engine and the scraper are parameters: `search(q, n)` is the
 * list of links the search returns for query `q` asked for `n` results (empty
 * on a request failure), and `scrape(url)` the visible text of the page (empty on
 * any failure). The one-second pauses between requests are a ghost log.
 */
module Gather {
  import opened Text
  import opened Order

  // ---------------------------------------------------------------- search

  /** `all_urls` after `for q in queries: all_urls.extend(search(q, count))`. */
  function Collected(queries: seq<string>, search: (string, nat) -> seq<string>, count: nat): seq<string> {
    if queries == [] then []
    else Collected(queries[..|queries| - 1], search, count) + search(queries[|queries| - 1], count)
  }

  lemma CollectedSnoc(queries: seq<string>, search: (string, nat) -> seq<string>, count: nat, i: nat)
    requires i < |queries|
    ensures Collected(queries[..i + 1], search, count) == Collected(queries[..i], search, count) + search(queries[i], count)
  {
    var done := queries[..i + 1];
    assert done[..|done| - 1] == queries[..i] && done[|done| - 1] == queries[i];
  }

  /** A link is collected exactly when some query's search returned it. */
  lemma {:induction false} CollectedFrom(queries: seq<string>, search: (string, nat) -> seq<string>, count: nat, u: string)
    ensures u in Collected(queries, search, count) <==> exists q :: q in queries && u in search(q, count)
  {
    if queries != [] {
      var init := queries[..|queries| - 1];
      CollectedFrom(init, search, count, u);
      assert queries == init + [queries[|queries| - 1]];
    }
  }

  /** No search returned anything: nothing is collected. */
  lemma {:induction false} CollectedEmpty(queries: seq<string>, search: (string, nat) -> seq<string>, count: nat)
    requires forall q :: q in queries ==> search(q, count) == []
    ensures Collected(queries, search, count) == []
  {
    if queries != [] {
      CollectedEmpty(queries[..|queries| - 1], search, count);
    }
  }

  /** One second between any two requests, as a log of sleeps. */
  function Pauses(n: nat): (ps: seq<nat>)
    ensures |ps| == n && forall i :: 0 <= i < n ==> ps[i] == 1
  {
    if n == 0 then [] else Pauses(n - 1) + [1]
  }

  /** The search loop of `process_company`. */
  method CollectUrls(queries: seq<string>, search: (string, nat) -> seq<string>, count: nat)
    returns (allUrls: seq<string>, ghost pauses: seq<nat>)
    ensures allUrls == Collected(queries, search, count)
    ensures pauses == Pauses(|queries|)
  {
    allUrls := [];
    pauses := [];
    for i := 0 to |queries|
      invariant allUrls == Collected(queries[..i], search, count)
      invariant pauses == Pauses(i)
    {
      CollectedSnoc(queries, search, count, i);
      allUrls := allUrls + search(queries[i], count);
      pauses := pauses + [1];
    }
    assert queries[..|queries|] == queries;
  }

  // ---------------------------------------------------------------- dedup

  predicate NoDuplicates(s: seq<string>) {
    forall i, j :: 0 <= i < j < |s| ==> s[i] != s[j]
  }

  /** Where `x` first occurs in `xs`. */
  function FirstIndex(xs: seq<string>, x: string): (i: nat)
    requires x in xs
    ensures i < |xs| && xs[i] == x && x !in xs[..i]
  {
    if xs[0] == x then 0 else 1 + FirstIndex(xs[1..], x)
  }

  lemma FirstIndexInPrefix(xs: seq<string>, k: nat, x: string)
    requires k <= |xs| && x in xs[..k]
    ensures x in xs && FirstIndex(xs, x) == FirstIndex(xs[..k], x)
  {
  }

  /** Python `list(dict.fromkeys(xs))`. */
  function Dedup(xs: seq<string>): seq<string> {
    if xs == [] then []
    else
      var d := Dedup(xs[..|xs| - 1]);
      if xs[|xs| - 1] in d then d else d + [xs[|xs| - 1]]
  }

  /**
   * The distinct elements of `xs`, each once, in the order of their first
   * occurrences.
   */
  lemma {:induction false} DedupSpec(xs: seq<string>)
    ensures NoDuplicates(Dedup(xs))
    ensures forall x :: x in Dedup(xs) <==> x in xs
    ensures forall i, j :: 0 <= i < j < |Dedup(xs)| ==> FirstIndex(xs, Dedup(xs)[i]) < FirstIndex(xs, Dedup(xs)[j])
  {
    if xs != [] {
      var init := xs[..|xs| - 1];
      var x := xs[|xs| - 1];
      DedupSpec(init);
      var d := Dedup(init);
      assert xs == init + [x];
      forall y | y in d ensures FirstIndex(xs, y) == FirstIndex(init, y) {
        FirstIndexInPrefix(xs, |xs| - 1, y);
      }
      if x !in d {
        assert FirstIndex(xs, x) == |xs| - 1;
      }
    }
  }

  /** `dict.fromkeys` leaves a list without repeats as it is, so deduplicating twice changes nothing. */
  lemma {:induction false} DedupNoDuplicates(xs: seq<string>)
    requires NoDuplicates(xs)
    ensures Dedup(xs) == xs
  {
    if xs != [] {
      var init := xs[..|xs| - 1];
      DedupNoDuplicates(init);
    }
  }

  lemma DedupExample()
    ensures Dedup(["a", "b", "a", "c", "b"]) == ["a", "b", "c"]
  {
    var s1, s2, s3, s4, s5 := ["a"], ["a", "b"], ["a", "b", "a"], ["a", "b", "a", "c"], ["a", "b", "a", "c", "b"];
    assert s2[..1] == s1 && s3[..2] == s2 && s4[..3] == s3 && s5[..4] == s4;
    assert s1[..0] == [];
    assert Dedup(s1) == ["a"];
    assert Dedup(s2) == ["a", "b"];
    assert Dedup(s3) == ["a", "b"];
    assert Dedup(s4) == ["a", "b", "c"];
  }

  // ---------------------------------------------------------------- context

  /** The labelled chunk appended for one page. */
  function Block(url: string, content: string): string {
    "\n\n--- Nguồn: " + url + " ---\n" + content
  }

  /** `full_context` after scraping every url: one block per page whose text is non-empty. */
  function Context(urls: seq<string>, scrape: string -> string): string {
    if urls == [] then ""
    else
      var content := scrape(urls[|urls| - 1]);
      Context(urls[..|urls| - 1], scrape) + (if content != "" then Block(urls[|urls| - 1], content) else "")
  }

  lemma ContextSnoc(urls: seq<string>, scrape: string -> string, i: nat)
    requires i < |urls|
    ensures Context(urls[..i + 1], scrape)
         == Context(urls[..i], scrape) + (if scrape(urls[i]) != "" then Block(urls[i], scrape(urls[i])) else "")
  {
    var done := urls[..i + 1];
    assert done[..|done| - 1] == urls[..i] && done[|done| - 1] == urls[i];
  }

  /** The scraping loop of `process_company`. */
  method BuildContext(urls: seq<string>, scrape: string -> string)
    returns (context: string, ghost pauses: seq<nat>)
    ensures context == Context(urls, scrape)
    ensures pauses == Pauses(|urls|)
  {
    context := "";
    pauses := [];
    for i := 0 to |urls|
      invariant context == Context(urls[..i], scrape)
      invariant pauses == Pauses(i)
    {
      ContextSnoc(urls, scrape, i);
      var content := scrape(urls[i]);
      if content != "" {
        context := context + Block(urls[i], content);
      }
      pauses := pauses + [1];
    }
    assert urls[..|urls|] == urls;
  }

  /** Every page among `urls` scraped to the empty text. */
  predicate AllBlank(urls: seq<string>, scrape: string -> string) {
    forall i :: 0 <= i < |urls| ==> scrape(urls[i]) == ""
  }

  /** A block is never blank: its label is visible. */
  lemma BlockVisible(url: string, content: string)
    ensures !AllIn(Block(url, content), Whitespace)
  {
    var b := Block(url, content);
    assert b == "\n\n" + ("--- Nguồn: " + url + " ---\n" + content);
    assert b[2] == '-';
  }

  lemma {:induction false} ContextAllSpace(urls: seq<string>, scrape: string -> string)
    ensures AllIn(Context(urls, scrape), Whitespace) <==> AllBlank(urls, scrape)
  {
    if urls != [] {
      var init := urls[..|urls| - 1];
      var last := urls[|urls| - 1];
      var content := scrape(last);
      var tail := if content != "" then Block(last, content) else "";
      ContextAllSpace(init, scrape);
      assert Context(urls, scrape) == Context(init, scrape) + tail;
      AllInConcat(Context(init, scrape), tail, Whitespace);
      if content != "" { BlockVisible(last, content); }
      assert AllBlank(urls, scrape) <==> AllBlank(init, scrape) && content == "" by {
        if AllBlank(init, scrape) && content == "" {
          forall i | 0 <= i < |urls| ensures scrape(urls[i]) == "" {
            if i < |urls| - 1 { assert urls[i] == init[i]; }
          }
        }
      }
    }
  }

  /**
   * The context is blank (so the scraped analysis is skipped) exactly when
   * every page scraped to the empty text.
   */
  lemma ContextBlank(urls: seq<string>, scrape: string -> string)
    ensures Strip(Context(urls, scrape)) == "" <==> AllBlank(urls, scrape)
  {
    ContextAllSpace(urls, scrape);
    StripSpec(Context(urls, scrape));
  }

  // ---------------------------------------------------------------- file name

  /** The characters the regular-expression substitution deletes: backslash, slash, star, question mark, colon, double quote, angle brackets, bar. */
  const Forbidden: set<char> := {'\\', '/', '*', '?', ':', '\"', '<', '>', '|'}

  predicate SafeChar(c: char) {
    c !in Forbidden && c != ' '
  }

  /** The forbidden characters deleted (`re.sub`), then every space replaced by an underscore. */
  function SafeFilename(name: string): (r: string)
    ensures forall i :: 0 <= i < |r| ==> SafeChar(r[i])
    ensures |r| <= |name|
  {
    if name == [] then ""
    else if name[0] in Forbidden then SafeFilename(name[1..])
    else [if name[0] == ' ' then '_' else name[0]] + SafeFilename(name[1..])
  }

  /** Every character of `name` may appear in a file name. */
  predicate AllSafe(name: string) {
    forall i :: 0 <= i < |name| ==> SafeChar(name[i])
  }

  /** A name is left as it is exactly when it is already safe. */
  lemma {:induction false} SafeFilenameFixed(name: string)
    ensures SafeFilename(name) == name <==> AllSafe(name)
  {
    if name != [] {
      SafeFilenameFixed(name[1..]);
      var s := SafeFilename(name);
      if name[0] in Forbidden {
        assert |s| < |name|;
      } else {
        assert s == [if name[0] == ' ' then '_' else name[0]] + SafeFilename(name[1..]);
        assert AllSafe(name) <==> SafeChar(name[0]) && AllSafe(name[1..]) by {
          if SafeChar(name[0]) && AllSafe(name[1..]) {
            forall i | 0 <= i < |name| ensures SafeChar(name[i]) {
              if i > 0 { assert name[i] == name[1..][i - 1]; }
            }
          }
        }
        assert s == name <==> s[0] == name[0] && s[1..] == name[1..];
      }
    }
  }

  /** Sanitizing twice changes nothing. */
  lemma SafeFilenameIdempotent(name: string)
    ensures SafeFilename(SafeFilename(name)) == SafeFilename(name)
  {
    SafeFilenameFixed(SafeFilename(name));
  }

  lemma SafeFilenameExample()
    ensures SafeFilename("A/B: C") == "AB_C"
  {
  }

  /**
   * `f"{safe_filename}{extension}"`: a stem of safe characters, no longer than
   * the name and the name itself when that is already safe, then the extension.
   */
  function OutputFilename(name: string, extension: string): (r: string)
    ensures EndsWith(r, extension) && |r| - |extension| <= |name|
    ensures AllSafe(r[..|r| - |extension|])
    ensures AllSafe(name) ==> r == name + extension
  {
    SafeFilenameFixed(name);
    var stem := SafeFilename(name);
    assert (stem + extension)[..|stem|] == stem;
    stem + extension
  }
}
