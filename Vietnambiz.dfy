/**
 * The Vietnambiz crawler: the article links of a listing page, the text of
 * an article, and its summary by the model with retries on rate limits.
 *
 * The HTTP requests and the HTML parser are outside the model. A page is the
 * list of anchors the parser selects (`h3.title a`), or None when the request
 * failed; an article is the list of its paragraphs, each the list of its text
 * nodes, or None when the request failed or the content body is missing.
 */
module Vietnambiz {
  import opened Wrappers
  import opened Text
  import opened Retry

  // ------------------------------------------------------------ text nodes

  /** `get_text(strip=True)`: every text node stripped, the pieces concatenated. */
  function StrippedText(pieces: seq<string>): string {
    if pieces == [] then "" else Strip(pieces[0]) + StrippedText(pieces[1..])
  }

  /** The text is empty exactly when every text node is blank. */
  lemma {:induction false} StrippedTextEmpty(pieces: seq<string>)
    ensures StrippedText(pieces) == "" <==> forall i :: 0 <= i < |pieces| ==> AllIn(pieces[i], Whitespace)
  {
    if pieces != [] {
      StrippedTextEmpty(pieces[1..]);
      StripSpec(pieces[0]);
      assert forall i :: 1 <= i < |pieces| ==> pieces[i] == pieces[1..][i - 1];
    }
  }

  // ----------------------------------------------------------------- links

  /** An anchor as the parser gives it: its text nodes and its `href`, if any. */
  datatype Anchor = Anchor(pieces: seq<string>, href: Option<string>)

  /** One entry of the crawl result, `{"title": ..., "url": ...}`. */
  datatype Lead = Lead(title: string, url: string)

  const SiteRoot: string := "https://vietnambiz.vn"

  /** `a.get("href", "")`. */
  function HrefOf(a: Anchor): string {
    match a.href
    case None => ""
    case Some(h) => h
  }

  /** A link that does not start with "http" is taken relative to the site root. */
  function CompleteUrl(href: string): string {
    if StartsWith(href, "http") then href else SiteRoot + href
  }

  /**
   * The completed link always starts with "http", is the link itself when
   * that already did, and otherwise is the site root followed by the link.
   * Completing twice changes nothing.
   */
  lemma CompleteUrlSpec(href: string)
    ensures StartsWith(CompleteUrl(href), "http") && CompleteUrl(href) != ""
    ensures StartsWith(href, "http") <==> CompleteUrl(href) == href
    ensures !StartsWith(href, "http") ==>
      StartsWith(CompleteUrl(href), SiteRoot) && EndsWith(CompleteUrl(href), href)
    ensures CompleteUrl(CompleteUrl(href)) == CompleteUrl(href)
  {
    var u := CompleteUrl(href);
    if !StartsWith(href, "http") {
      assert u[..|SiteRoot|] == SiteRoot;
      assert u[..4] == SiteRoot[..4];
      assert u[|u| - |href|..] == href;
    }
  }

  /** What one anchor contributes: a lead when both its title and its url are non-empty. */
  function LeadOf(a: Anchor): Option<Lead> {
    var title := StrippedText(a.pieces);
    var url := CompleteUrl(HrefOf(a));
    if title != "" && url != "" then Some(Lead(title, url)) else None
  }

  /** The leads of the anchors, in anchor order. */
  function Leads(anchors: seq<Anchor>): seq<Lead> {
    if anchors == [] then []
    else
      var last := anchors[|anchors| - 1];
      Leads(anchors[..|anchors| - 1]) + (match LeadOf(last) case Some(l) => [l] case None => [])
  }

  /** An anchor yields a lead exactly when some text node of it is not blank; the url test never drops one. */
  lemma LeadOfSpec(a: Anchor)
    ensures LeadOf(a).Some? <==> StrippedText(a.pieces) != ""
    ensures LeadOf(a).Some? ==>
      LeadOf(a).value.title == StrippedText(a.pieces) && LeadOf(a).value.url == CompleteUrl(HrefOf(a))
  {
    CompleteUrlSpec(HrefOf(a));
  }

  /** The crawl keeps anchor order: two runs of anchors give the leads of the first, then those of the second. */
  lemma {:induction false} LeadsAppend(xs: seq<Anchor>, ys: seq<Anchor>)
    ensures Leads(xs + ys) == Leads(xs) + Leads(ys)
    decreases |ys|
  {
    if ys == [] {
      assert xs + ys == xs;
    } else {
      var init := ys[..|ys| - 1];
      LeadsAppend(xs, init);
      assert (xs + ys)[..|xs + ys| - 1] == xs + init;
    }
  }

  /** At most one lead per anchor; every lead has a non-empty title and an absolute url. */
  lemma {:induction false} LeadsSpec(anchors: seq<Anchor>)
    ensures |Leads(anchors)| <= |anchors|
    ensures forall l :: l in Leads(anchors) ==> l.title != "" && StartsWith(l.url, "http")
  {
    if anchors != [] {
      var init, last := anchors[..|anchors| - 1], anchors[|anchors| - 1];
      LeadsSpec(init);
      LeadOfSpec(last);
      CompleteUrlSpec(HrefOf(last));
    }
  }

  /** The leads are exactly those of the anchors with a non-blank title. */
  lemma {:induction false} LeadsFrom(anchors: seq<Anchor>)
    ensures forall l :: l in Leads(anchors) <==> exists a :: a in anchors && LeadOf(a) == Some(l)
  {
    if anchors != [] {
      var init, last := anchors[..|anchors| - 1], anchors[|anchors| - 1];
      LeadsFrom(init);
      assert anchors == init + [last];
      forall l | l in Leads(anchors)
        ensures exists a :: a in anchors && LeadOf(a) == Some(l)
      {
        if l in Leads(init) {
          var a :| a in init && LeadOf(a) == Some(l);
          assert a in anchors;
        } else {
          assert LeadOf(last) == Some(l);
        }
      }
      forall l, a | a in anchors && LeadOf(a) == Some(l)
        ensures l in Leads(anchors)
      {
        if a in init {
          assert l in Leads(init);
        } else {
          assert a == last;
        }
      }
    }
  }

  lemma LeadsSnoc(anchors: seq<Anchor>, i: nat)
    requires i < |anchors|
    ensures Leads(anchors[..i + 1])
         == Leads(anchors[..i]) + (match LeadOf(anchors[i]) case Some(l) => [l] case None => [])
  {
    var done := anchors[..i + 1];
    assert done[..|done| - 1] == anchors[..i] && done[|done| - 1] == anchors[i];
  }

  /** `crawl_vietnambiz_page(page_url)`, where `page` is what the parser selected, or None when the request failed. */
  method CrawlPage(page: Option<seq<Anchor>>) returns (leads: seq<Lead>)
    ensures page.None? ==> leads == []
    ensures page.Some? ==> leads == Leads(page.value)
  {
    leads := [];
    if page.None? {
      return;
    }
    var anchors := page.value;
    var i := 0;
    while i < |anchors|
      invariant i <= |anchors|
      invariant leads == Leads(anchors[..i])
    {
      var a := anchors[i];
      var title := StrippedText(a.pieces);
      var href := HrefOf(a);
      var url := if StartsWith(href, "http") then href else SiteRoot + href;
      if title != "" && url != "" {
        leads := leads + [Lead(title, url)];
      }
      LeadsSnoc(anchors, i);
      i := i + 1;
    }
    assert anchors[..i] == anchors;
  }

  // -------------------------------------------------------------- articles

  /** The texts of the paragraphs that are not blank, in order. */
  function NonBlankTexts(paragraphs: seq<seq<string>>): seq<string> {
    if paragraphs == [] then []
    else
      var t := StrippedText(paragraphs[0]);
      (if t != "" then [t] else []) + NonBlankTexts(paragraphs[1..])
  }

  /** Every kept text is non-empty and comes from a paragraph; every non-blank paragraph's text is kept. */
  lemma {:induction false} NonBlankTextsSpec(paragraphs: seq<seq<string>>)
    ensures forall i :: 0 <= i < |NonBlankTexts(paragraphs)| ==> NonBlankTexts(paragraphs)[i] != ""
    ensures forall t :: t in NonBlankTexts(paragraphs) <==>
      t != "" && exists p :: p in paragraphs && StrippedText(p) == t
    ensures |NonBlankTexts(paragraphs)| <= |paragraphs|
  {
    if paragraphs != [] {
      var head, rest := paragraphs[0], paragraphs[1..];
      NonBlankTextsSpec(rest);
      assert paragraphs == [head] + rest;
      forall t | t in NonBlankTexts(paragraphs)
        ensures exists p :: p in paragraphs && StrippedText(p) == t
      {
        if t !in NonBlankTexts(rest) {
          assert StrippedText(head) == t;
        } else {
          var p :| p in rest && StrippedText(p) == t;
          assert p in paragraphs;
        }
      }
      forall t, p | t != "" && p in paragraphs && StrippedText(p) == t
        ensures t in NonBlankTexts(paragraphs)
      {
        if p != head {
          assert p in rest;
        }
      }
    }
  }

  /**
   * `extract_article_content(article_url)`: the non-blank paragraph texts
   * joined by newlines; "" when the request failed or the body is missing.
   */
  function ArticleText(body: Option<seq<seq<string>>>): string {
    match body
    case None => ""
    case Some(paragraphs) => Join("\n", NonBlankTexts(paragraphs))
  }

  /** The article text is empty exactly when there is no body or every paragraph is blank. */
  lemma ArticleTextEmpty(body: Option<seq<seq<string>>>)
    ensures ArticleText(body) == "" <==>
      body.None? || forall p :: p in body.value ==> StrippedText(p) == ""
  {
    if body.Some? {
      var ts := NonBlankTexts(body.value);
      NonBlankTextsSpec(body.value);
      JoinEmptyIff("\n", ts);
      if ts != [] {
        assert ts[0] in ts;
        var p :| p in body.value && StrippedText(p) == ts[0];
      } else {
        forall p | p in body.value
          ensures StrippedText(p) == ""
        {
          assert StrippedText(p) != "" ==> StrippedText(p) in ts;
        }
      }
    }
  }

  /**
   * Splitting the article text at its newlines gives back the paragraph
   * texts, blank ones removed, when no paragraph text holds a newline.
   */
  lemma ArticleTextSplit(paragraphs: seq<seq<string>>)
    requires forall p :: p in paragraphs ==> '\n' !in StrippedText(p)
    requires NonBlankTexts(paragraphs) != []
    ensures SplitOn(ArticleText(Some(paragraphs)), '\n') == NonBlankTexts(paragraphs)
  {
    var ts := NonBlankTexts(paragraphs);
    NonBlankTextsSpec(paragraphs);
    forall i | 0 <= i < |ts|
      ensures '\n' !in ts[i]
    {
      assert ts[i] in ts;
    }
    SplitJoin('\n', ts);
  }

  // ------------------------------------------------------------- summaries

  /** Below this many words the text is not sent to the model. */
  const MinWords: nat := 50

  const TooShortMessage: string := "Nội dung không đủ dài để tóm tắt."
  const UnknownErrorMessage: string := "Lỗi tóm tắt do một vấn đề không xác định."
  const ExhaustedMessage: string := "Lỗi tóm tắt do hết giới hạn truy cập."

  /** An error whose text mentions "429" or "ResourceExhausted" is a rate limit and is retried. */
  predicate QuotaError(message: string) {
    Contains(message, "429") || Contains(message, "ResourceExhausted")
  }

  function Limited(model: nat -> Reply): nat -> bool {
    (i: nat) => model(i).Raised? && QuotaError(model(i).message)
  }

  /** What an attempt that is not rate limited returns: the stripped answer, or the fixed unknown-error message. */
  function Outcome(model: nat -> Reply): nat -> string {
    (i: nat) => match model(i)
      case Answered(text) => Strip(text)
      case Raised(_) => UnknownErrorMessage
  }

  /** `summarize_content_with_retry(text)` without the loop. */
  function Expected(text: string, model: nat -> Reply): Run<string> {
    if WordCount(text) < MinWords then Run(TooShortMessage, 0, [])
    else Schedule(Limited(model), Outcome(model), ExhaustedMessage)
  }

  /** `summarize_content_with_retry(text)`, where `model(i)` is the reply to the i-th call. */
  method SummarizeWithRetry(text: string, model: nat -> Reply)
    returns (summary: string, calls: nat, ghost sleeps: seq<nat>)
    ensures summary == Expected(text, model).result && calls == Expected(text, model).calls
    ensures sleeps == Expected(text, model).sleeps
  {
    calls, sleeps := 0, [];
    if text == "" || WordCount(text) < MinWords {
      return TooShortMessage, calls, sleeps;
    }
    ghost var limited, outcome := Limited(model), Outcome(model);
    var delay := InitialDelay;
    var attempt := 0;
    while attempt < MaxRetries
      invariant attempt <= MaxRetries && calls == attempt
      invariant delay == DelayAt(attempt) && sleeps == Backoff(attempt)
      invariant forall j :: 0 <= j < attempt ==> limited(j)
    {
      var reply := model(attempt);
      calls := calls + 1;
      match reply {
        case Answered(answer) =>
          ScheduleSettles(limited, outcome, ExhaustedMessage, attempt);
          return Strip(answer), calls, sleeps;
        case Raised(message) =>
          if Contains(message, "429") || Contains(message, "ResourceExhausted") {
            sleeps := sleeps + [delay];
            delay := delay * 2;
          } else {
            ScheduleSettles(limited, outcome, ExhaustedMessage, attempt);
            return UnknownErrorMessage, calls, sleeps;
          }
      }
      attempt := attempt + 1;
    }
    FirstSettledIs(limited, MaxRetries);
    summary := ExhaustedMessage;
  }

  /** The model is called exactly when the text has at least fifty words, and never more than three times. */
  lemma ShortTextNotSent(text: string, model: nat -> Reply)
    ensures Expected(text, model).calls == 0 <==> WordCount(text) < MinWords
    ensures Expected(text, model).calls == 0 ==>
      Expected(text, model).result == TooShortMessage && Expected(text, model).sleeps == []
    ensures Expected(text, model).calls <= MaxRetries
    ensures text == "" ==> Expected(text, model).result == TooShortMessage
  {
    ScheduleCalls(Limited(model), Outcome(model), ExhaustedMessage);
  }

  /**
   * The waits are 60, 120 and 240 seconds in that order, each after a
   * rate-limited attempt; all three happen exactly when three attempts were
   * rate limited, and then the summary is the exhaustion message.
   */
  lemma SummarySleeps(text: string, model: nat -> Reply)
    requires WordCount(text) >= MinWords
    ensures var run := Expected(text, model);
      && run.sleeps == [60, 120, 240][..|run.sleeps|]
      && (forall i :: 0 <= i < |run.sleeps| ==> model(i).Raised? && QuotaError(model(i).message))
      && (|run.sleeps| == MaxRetries <==>
            forall i :: 0 <= i < MaxRetries ==> model(i).Raised? && QuotaError(model(i).message))
      && (|run.sleeps| == MaxRetries ==> run.result == ExhaustedMessage && run.calls == MaxRetries)
  {
    var limited := Limited(model);
    ScheduleSleeps(limited, Outcome(model), ExhaustedMessage);
    ScheduleExhausted(limited, Outcome(model), ExhaustedMessage);
    ScheduleCalls(limited, Outcome(model), ExhaustedMessage);
  }

  /**
   * After `k` rate-limited attempts, an answer ends the run with that answer
   * stripped, and any other error with the unknown-error message: no further
   * call, no further wait.
   */
  lemma SummarySettles(text: string, model: nat -> Reply, k: nat)
    requires WordCount(text) >= MinWords
    requires k < MaxRetries
    requires forall j :: 0 <= j < k ==> model(j).Raised? && QuotaError(model(j).message)
    requires model(k).Answered? || !QuotaError(model(k).message)
    ensures Expected(text, model).calls == k + 1 && Expected(text, model).sleeps == Backoff(k)
    ensures model(k).Answered? ==> Expected(text, model).result == Strip(model(k).text)
    ensures model(k).Raised? ==> Expected(text, model).result == UnknownErrorMessage
  {
    var limited := Limited(model);
    forall j | 0 <= j < k
      ensures limited(j)
    {
    }
    ScheduleSettles(limited, Outcome(model), ExhaustedMessage, k);
  }

  /**
   * The summary is one of the three fixed messages or the stripped answer of
   * the last call made.
   */
  lemma SummaryKinds(text: string, model: nat -> Reply)
    ensures var run := Expected(text, model);
      || run.result in {TooShortMessage, UnknownErrorMessage, ExhaustedMessage}
      || (run.calls > 0 && model(run.calls - 1).Answered? && run.result == Strip(model(run.calls - 1).text))
  {
  }
}
