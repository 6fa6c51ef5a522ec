/**
 * test.py: company trend analysis on the nested schema. The web gathering is
 * the one of main.py with other queries and three results per query; the
 * model is asked twice, and the two answers are merged into a record with a
 * basic-information section and a trend section, which is written as JSON.
 *
 * As in main.py, `model(i)` is the reply to the i-th call of one retry loop,
 * `json.loads` is `parse`, `time.sleep` is a ghost log of delays and
 * `datetime.now()` arrives as the formatted `timestamp`.
 */
module CompanyTrend {
  import opened Wrappers
  import opened Text
  import opened Order
  import opened Json
  import opened Retry
  import Gather

  // ---------------------------------------------------------------- answer cleaning

  /** The characters `lstrip("```json")` removes: any of them, in any order, not the prefix. */
  const LeftFence: set<char> := {'`', 'j', 's', 'o', 'n'}

  /** The characters `rstrip("```")` removes. */
  const RightFence: set<char> := {'`'}

  /** `response.text.strip().lstrip("```json").rstrip("```")`. */
  function StripFenceChars(raw: string): string {
    RStripSet(LStripSet(Strip(raw), LeftFence), RightFence)
  }

  /**
   * The cleaned answer does not start with a backtick or one of the letters
   * j, s, o, n, and does not end with a backtick.
   */
  lemma StripFenceCharsSpec(raw: string)
    ensures var r := StripFenceChars(raw);
      r == [] || (r[0] !in LeftFence && r[|r| - 1] != '`')
  {
    var l := LStripSet(Strip(raw), LeftFence);
    LStripSetSpec(Strip(raw), LeftFence);
    RStripSetSpec(l, RightFence);
  }

  /**
   * A fenced answer comes back out when its body starts with none of the
   * fence characters and does not end with a backtick (a JSON object, which
   * starts with a brace, always qualifies).
   */
  lemma FencedRoundTrip(w1: string, body: string, w2: string)
    requires AllIn(w1, Whitespace) && AllIn(w2, Whitespace)
    requires body != [] && body[0] !in LeftFence && body[|body| - 1] != '`'
    ensures StripFenceChars(w1 + "```json" + body + "```" + w2) == body
  {
    var t := "```json" + body + "```";
    assert w1 + "```json" + body + "```" + w2 == w1 + t + w2;
    assert t[0] == '`' && t[|t| - 1] == '`';
    StripPadded(w1, t, w2);
    assert t == "```json" + (body + "```");
    assert AllIn("```json", LeftFence) && AllIn("```", RightFence);
    LStripSetPrefix("```json", body + "```", LeftFence);
    RStripSetSuffix(body, "```", RightFence);
  }

  /** The character-set semantics eats the leading letters of an unfenced `null`. */
  lemma NullLosesItsLetter()
    ensures StripFenceChars("null") == "ull"
  {
    StripNoop("null");
    assert "null"[1..] == "ull";
  }

  // ---------------------------------------------------------------- retry loop

  /** How one pass through the `try` block ends: a decoded object, or the message of what was raised. */
  datatype Attempt = Decoded(obj: Object) | Failed(message: string)

  function AttemptOf(reply: Reply, parse: string -> ParseResult): Attempt {
    match reply
    case Raised(m) => Failed(m)
    case Answered(text) =>
      match parse(StripFenceChars(text))
      case Parsed(obj) => Decoded(obj)
      case Malformed(m) => Failed(m)
  }

  /** `"429" in str(e)`. */
  predicate RateLimited(a: Attempt) {
    a.Failed? && Contains(a.message, "429")
  }

  function Limited(model: nat -> Reply, parse: string -> ParseResult): nat -> bool {
    (i: nat) => RateLimited(AttemptOf(model(i), parse))
  }

  /**
   * The local `response` after the first `n` calls: the text of the most
   * recent call that answered, if any. A call that raised leaves the earlier
   * value in place.
   */
  function LastAnswer(model: nat -> Reply, n: nat): Option<string> {
    if n == 0 then None
    else if model(n - 1).Answered? then Some(model(n - 1).text)
    else LastAnswer(model, n - 1)
  }

  const NoResponse: string := "Không có phản hồi"
  const QuotaMessage: string := "Hết giới hạn API sau nhiều lần thử."

  /** `response.text if 'response' in locals() else 'Không có phản hồi'`. */
  function RawOf(response: Option<string>): string {
    match response
    case None => NoResponse
    case Some(text) => text
  }

  /** What attempt i returns when it ends the loop. */
  function Outcome(model: nat -> Reply, parse: string -> ParseResult): nat -> Object {
    (i: nat) =>
      match AttemptOf(model(i), parse)
      case Decoded(obj) => obj
      case Failed(m) => ErrorWithRaw(m, RawOf(LastAnswer(model, i + 1)))
  }

  /** `_call_gemini_with_retry` of test.py, stated without the loop. */
  function Expected(model: nat -> Reply, parse: string -> ParseResult): Run<Object> {
    Schedule(Limited(model, parse), Outcome(model, parse), ErrorRecord(QuotaMessage))
  }

  lemma AttemptAt(model: nat -> Reply, parse: string -> ParseResult, i: nat)
    ensures Limited(model, parse)(i) == RateLimited(AttemptOf(model(i), parse))
    ensures AttemptOf(model(i), parse).Decoded? ==> Outcome(model, parse)(i) == AttemptOf(model(i), parse).obj
    ensures AttemptOf(model(i), parse).Failed? ==>
      Outcome(model, parse)(i) == ErrorWithRaw(AttemptOf(model(i), parse).message, RawOf(LastAnswer(model, i + 1)))
  {
  }

  /** `_call_gemini_with_retry(prompt)`, where `model(i)` is the reply to the i-th call. */
  method CallWithRetry(model: nat -> Reply, parse: string -> ParseResult)
    returns (r: Object, calls: nat, ghost sleeps: seq<nat>)
    ensures r == Expected(model, parse).result && calls == Expected(model, parse).calls
    ensures sleeps == Expected(model, parse).sleeps
  {
    ghost var limited, outcome := Limited(model, parse), Outcome(model, parse);
    var response: Option<string> := None;
    var delay := InitialDelay;
    calls, sleeps := 0, [];
    var attempt := 0;
    while attempt < MaxRetries
      invariant attempt <= MaxRetries && calls == attempt
      invariant delay == DelayAt(attempt) && sleeps == Backoff(attempt)
      invariant response == LastAnswer(model, attempt)
      invariant forall j :: 0 <= j < attempt ==> limited(j)
    {
      var reply := model(attempt);
      calls := calls + 1;
      if reply.Answered? {
        response := Some(reply.text);
      }
      assert response == LastAnswer(model, attempt + 1);
      AttemptAt(model, parse, attempt);
      var message: string;
      match AttemptOf(reply, parse) {
        case Decoded(obj) =>
          ScheduleSettles(limited, outcome, ErrorRecord(QuotaMessage), attempt);
          return obj, calls, sleeps;
        case Failed(m) =>
          message := m;
      }
      if Contains(message, "429") {
        sleeps := sleeps + [delay];
        delay := delay * 2;
      } else {
        ScheduleSettles(limited, outcome, ErrorRecord(QuotaMessage), attempt);
        return ErrorWithRaw(message, RawOf(response)), calls, sleeps;
      }
      attempt := attempt + 1;
    }
    FirstSettledIs(limited, MaxRetries);
    r := ErrorRecord(QuotaMessage);
  }

  /**
   * The first failure without "429" ends the loop at once with its own
   * message, whatever its kind, and the raw text of the latest answer.
   */
  lemma StopsAtFirstOtherFailure(model: nat -> Reply, parse: string -> ParseResult, k: nat)
    requires k < MaxRetries
    requires forall j :: 0 <= j < k ==> RateLimited(AttemptOf(model(j), parse))
    requires AttemptOf(model(k), parse).Failed? && !RateLimited(AttemptOf(model(k), parse))
    ensures Expected(model, parse) ==
      Run(ErrorWithRaw(AttemptOf(model(k), parse).message, RawOf(LastAnswer(model, k + 1))), k + 1, Backoff(k))
  {
    ScheduleSettles(Limited(model, parse), Outcome(model, parse), ErrorRecord(QuotaMessage), k);
  }

  /** No `response` exists exactly when every one of the first `n` calls raised. */
  lemma {:induction false} LastAnswerNone(model: nat -> Reply, n: nat)
    ensures LastAnswer(model, n) == None <==> forall j :: 0 <= j < n ==> model(j).Raised?
  {
    if n > 0 {
      LastAnswerNone(model, n - 1);
    }
  }

  /** `response` holds the text of call `j` when `j` answered and every later call raised. */
  lemma {:induction false} LastAnswerLatest(model: nat -> Reply, n: nat, j: nat)
    requires j < n && model(j).Answered?
    requires forall i :: j < i < n ==> model(i).Raised?
    ensures LastAnswer(model, n) == Some(model(j).text)
  {
    if j < n - 1 {
      LastAnswerLatest(model, n - 1, j);
    }
  }

  /**
   * An earlier answer survives a later failure of the call itself: a decoder
   * error mentioning 429 on the first call, then an API error without it,
   * reports the API error with the first call's text as its raw response.
   */
  lemma RawResponseFromEarlierCall(model: nat -> Reply, parse: string -> ParseResult)
    requires model(0).Answered? && parse(StripFenceChars(model(0).text)).Malformed?
    requires Contains(parse(StripFenceChars(model(0).text)).message, "429")
    requires model(1).Raised? && !Contains(model(1).message, "429")
    ensures Expected(model, parse) == Run(ErrorWithRaw(model(1).message, model(0).text), 2, [60])
  {
    StopsAtFirstOtherFailure(model, parse, 1);
    LastAnswerLatest(model, 2, 0);
    BackoffSchedule(1);
  }

  /** When no call up to the deciding one answered, the raw response is the placeholder. */
  lemma NoAnswerNoRaw(model: nat -> Reply, parse: string -> ParseResult, k: nat)
    requires k < MaxRetries
    requires forall j :: 0 <= j <= k ==> model(j).Raised?
    requires forall j :: 0 <= j < k ==> Contains(model(j).message, "429")
    requires !Contains(model(k).message, "429")
    ensures Expected(model, parse) == Run(ErrorWithRaw(model(k).message, NoResponse), k + 1, Backoff(k))
  {
    StopsAtFirstOtherFailure(model, parse, k);
    LastAnswerNone(model, k + 1);
  }

  // ---------------------------------------------------------------- the two analyses

  const NoContentMessage: string := "Không có nội dung web-scrape để phân tích."

  /** `analyze_scraped_content_with_gemini`: a blank context is answered without calling the model. */
  function ScrapedRun(context: string, model: nat -> Reply, parse: string -> ParseResult): (run: Run<Object>)
    ensures run.calls == 0 <==> Strip(context) == ""
  {
    if Strip(context) == "" then Run(ErrorRecord(NoContentMessage), 0, [])
    else
      ScheduleCalls(Limited(model, parse), Outcome(model, parse), ErrorRecord(QuotaMessage));
      Expected(model, parse)
  }

  method AnalyzeScraped(context: string, model: nat -> Reply, parse: string -> ParseResult)
    returns (r: Object, calls: nat, ghost sleeps: seq<nat>)
    ensures r == ScrapedRun(context, model, parse).result && calls == ScrapedRun(context, model, parse).calls
    ensures sleeps == ScrapedRun(context, model, parse).sleeps
  {
    if Strip(context) == "" {
      return ErrorRecord(NoContentMessage), 0, [];
    }
    r, calls, sleeps := CallWithRetry(model, parse);
  }

  // ---------------------------------------------------------------- merge

  const BaseSection: string := "thong_tin_co_ban"
  const TrendSection: string := "phan_tich_xu_huong"
  const BaseKeys: seq<string> := ["ten_giam_doc", "dia_chi", "mo_hinh_kd", "email", "ten_mien", "doi_tac_khach_hang"]
  const TrendKeys: seq<string> := ["diem_tich_cuc", "thach_thuc_diem_tieu_cuc", "ke_hoach_tuong_lai"]
  const TrendSummaryKey: string := "tom_tat_xu_huong"

  /** `sorted(list(set(a).union(set(b))))`: empty strings stay. */
  function UnionList(a: seq<string>, b: seq<string>): seq<string> {
    SortedUnique(a + b)
  }

  /** The union list is strictly sorted and holds exactly the strings of either list, the empty one included. */
  lemma UnionListSpec(a: seq<string>, b: seq<string>)
    ensures StrictlySorted(UnionList(a, b))
    ensures forall x :: x in UnionList(a, b) <==> x in a || x in b
  {
    var r := UnionList(a, b);
    SortedUniqueSpec(a + b);
    assert forall x :: x in r <==> x in Elems(r);
    assert forall x :: x in a + b <==> x in Elems(a + b);
  }

  /** The union list does not depend on which source is which. */
  lemma UnionListSymmetric(a: seq<string>, b: seq<string>)
    ensures UnionList(a, b) == UnionList(b, a)
  {
    assert Elems(a + b) == Elems(b + a) by {
      assert forall x :: x in a + b <==> x in b + a;
    }
    SortedUniqueBySet(a + b, b + a);
  }

  /** The union fields for `keys` of two sections, as one merge loop leaves them after those keys. */
  function UnionFields(s: Object, d: Object, keys: seq<string>): Object {
    if keys == [] then map[]
    else
      var k := keys[|keys| - 1];
      UnionFields(s, d, keys[..|keys| - 1])[k := Strs(UnionList(GetList(s, k), GetList(d, k)))]
  }

  /** The union fields hold exactly the given keys, each with the union of its two lists. */
  lemma {:induction false} UnionFieldsAt(s: Object, d: Object, keys: seq<string>, k: string)
    ensures k in UnionFields(s, d, keys) <==> k in keys
    ensures k in keys ==> UnionFields(s, d, keys)[k] == Strs(UnionList(GetList(s, k), GetList(d, k)))
  {
    if keys != [] {
      var init, last := keys[..|keys| - 1], keys[|keys| - 1];
      UnionFieldsAt(s, d, init, k);
      var v := Strs(UnionList(GetList(s, last), GetList(d, last)));
      assert UnionFields(s, d, keys) == UnionFields(s, d, init)[last := v];
      assert k in keys <==> k in init || k == last by {
        assert keys == init + [last];
      }
      if k != last && k in init {
        assert UnionFields(s, d, keys)[k] == UnionFields(s, d, init)[k];
      }
    }
  }

  /** `summary2 if summary2 else summary1`. */
  function PreferredSummary(s: Object, d: Object): string {
    var summary1 := GetStr(GetObj(s, TrendSection), TrendSummaryKey, "");
    var summary2 := GetStr(GetObj(d, TrendSection), TrendSummaryKey, "");
    if summary2 != "" then summary2 else summary1
  }

  /** The basic-information section of the merge of two usable sources. */
  function BaseOf(s: Object, d: Object): Object {
    UnionFields(GetObj(s, BaseSection), GetObj(d, BaseSection), BaseKeys)
  }

  /** The trend section of the merge of two usable sources. */
  function TrendOf(s: Object, d: Object): Object {
    UnionFields(GetObj(s, TrendSection), GetObj(d, TrendSection), TrendKeys)[TrendSummaryKey := Str(PreferredSummary(s, d))]
  }

  /** `merge_data(scraped_data, direct_data)` of test.py, as a value. */
  function MergedNested(scraped: Object, direct: Object): Object {
    var s := AsSource(scraped);
    var d := AsSource(direct);
    map[BaseSection := Obj(BaseOf(s, d)), TrendSection := Obj(TrendOf(s, d))]
  }

  lemma UnionFieldsSnoc(s: Object, d: Object, keys: seq<string>, i: nat)
    requires i < |keys|
    ensures UnionFields(s, d, keys[..i + 1])
         == UnionFields(s, d, keys[..i])[keys[i] := Strs(UnionList(GetList(s, keys[i]), GetList(d, keys[i])))]
  {
    var done := keys[..i + 1];
    assert done[..|done| - 1] == keys[..i] && done[|done| - 1] == keys[i];
  }

  /** One merge loop: the union list of every key of two sections. */
  method UnionLists(s: Object, d: Object, keys: seq<string>) returns (fields: Object)
    ensures fields == UnionFields(s, d, keys)
  {
    fields := map[];
    for i := 0 to |keys|
      invariant fields == UnionFields(s, d, keys[..i])
    {
      var key := keys[i];
      UnionFieldsSnoc(s, d, keys, i);
      fields := fields[key := Strs(UnionList(GetList(s, key), GetList(d, key)))];
    }
    assert keys[..|keys|] == keys;
  }

  /** `merge_data(scraped_data, direct_data)`: the two loops, then the summary. */
  method MergeNested(scraped: Object, direct: Object) returns (merged: Object)
    ensures merged == MergedNested(scraped, direct)
  {
    var s := AsSource(scraped);
    var d := AsSource(direct);
    var base := UnionLists(GetObj(s, BaseSection), GetObj(d, BaseSection), BaseKeys);
    var trend := UnionLists(GetObj(s, TrendSection), GetObj(d, TrendSection), TrendKeys);
    var summary1 := GetStr(GetObj(s, TrendSection), TrendSummaryKey, "");
    var summary2 := GetStr(GetObj(d, TrendSection), TrendSummaryKey, "");
    trend := trend[TrendSummaryKey := Str(if summary2 != "" then summary2 else summary1)];
    merged := map[BaseSection := Obj(base), TrendSection := Obj(trend)];
  }

  lemma BaseSectionOf(scraped: Object, direct: Object)
    ensures GetObj(MergedNested(scraped, direct), BaseSection) == BaseOf(AsSource(scraped), AsSource(direct))
  {
  }

  lemma TrendSectionOf(scraped: Object, direct: Object)
    ensures GetObj(MergedNested(scraped, direct), TrendSection) == TrendOf(AsSource(scraped), AsSource(direct))
  {
  }

  lemma SummaryKeyApart(k: string)
    requires k in TrendKeys
    ensures k != TrendSummaryKey
  {
    assert k == TrendKeys[0] || k == TrendKeys[1] || k == TrendKeys[2];
  }

  /** A trend list is read past the summary entry. */
  lemma TrendListOf(s: Object, d: Object, k: string)
    requires k != TrendSummaryKey
    ensures GetList(TrendOf(s, d), k) == GetList(UnionFields(GetObj(s, TrendSection), GetObj(d, TrendSection), TrendKeys), k)
  {
  }

  /**
   * Whatever the inputs, errors included, the merge has both sections, the
   * six basic keys in the first and the three trend keys plus the summary in
   * the second.
   */
  lemma NestedShape(scraped: Object, direct: Object, k: string)
    ensures MergedNested(scraped, direct).Keys == {BaseSection, TrendSection}
    ensures k in GetObj(MergedNested(scraped, direct), BaseSection) <==> k in BaseKeys
    ensures k in GetObj(MergedNested(scraped, direct), TrendSection) <==> k in TrendKeys || k == TrendSummaryKey
  {
    var s, d := AsSource(scraped), AsSource(direct);
    UnionFieldsAt(GetObj(s, BaseSection), GetObj(d, BaseSection), BaseKeys, k);
    UnionFieldsAt(GetObj(s, TrendSection), GetObj(d, TrendSection), TrendKeys, k);
  }

  /**
   * Every basic list of the merge is strictly sorted and holds exactly the
   * strings, the empty one included, of that key in either usable source.
   */
  lemma BaseListField(scraped: Object, direct: Object, k: string)
    requires k in BaseKeys
    ensures var items := GetList(GetObj(MergedNested(scraped, direct), BaseSection), k);
      && StrictlySorted(items)
      && forall x :: x in items <==>
           x in GetList(GetObj(AsSource(scraped), BaseSection), k) || x in GetList(GetObj(AsSource(direct), BaseSection), k)
  {
    var s, d := GetObj(AsSource(scraped), BaseSection), GetObj(AsSource(direct), BaseSection);
    BaseSectionOf(scraped, direct);
    UnionFieldsAt(s, d, BaseKeys, k);
    UnionListSpec(GetList(s, k), GetList(d, k));
  }

  /** The same for every trend list. */
  lemma TrendListField(scraped: Object, direct: Object, k: string)
    requires k in TrendKeys
    ensures var items := GetList(GetObj(MergedNested(scraped, direct), TrendSection), k);
      && StrictlySorted(items)
      && forall x :: x in items <==>
           x in GetList(GetObj(AsSource(scraped), TrendSection), k) || x in GetList(GetObj(AsSource(direct), TrendSection), k)
  {
    var s, d := GetObj(AsSource(scraped), TrendSection), GetObj(AsSource(direct), TrendSection);
    TrendSectionOf(scraped, direct);
    SummaryKeyApart(k);
    TrendListOf(AsSource(scraped), AsSource(direct), k);
    UnionFieldsAt(s, d, TrendKeys, k);
    var items := GetList(GetObj(MergedNested(scraped, direct), TrendSection), k);
    assert items == UnionList(GetList(s, k), GetList(d, k));
    UnionListSpec(GetList(s, k), GetList(d, k));
  }

  /**
   * The trend summary is the direct one when that is non-empty and the
   * scraped one otherwise, possibly empty: no combination, no placeholder.
   */
  lemma SummaryPreference(scraped: Object, direct: Object)
    ensures var summary := GetStr(GetObj(MergedNested(scraped, direct), TrendSection), TrendSummaryKey, "");
      && (GetStr(GetObj(AsSource(direct), TrendSection), TrendSummaryKey, "") != "" ==>
            summary == GetStr(GetObj(AsSource(direct), TrendSection), TrendSummaryKey, ""))
      && (GetStr(GetObj(AsSource(direct), TrendSection), TrendSummaryKey, "") == "" ==>
            summary == GetStr(GetObj(AsSource(scraped), TrendSection), TrendSummaryKey, ""))
  {
  }

  /** An error marker merges like the empty record, on either side. */
  lemma NestedIgnoresErrors(scraped: Object, direct: Object)
    ensures IsError(scraped) ==> MergedNested(scraped, direct) == MergedNested(map[], direct)
    ensures IsError(direct) ==> MergedNested(scraped, direct) == MergedNested(scraped, map[])
  {
  }

  /** Swapping the sources changes no basic list. */
  lemma BaseListsSymmetric(scraped: Object, direct: Object, k: string)
    ensures GetList(GetObj(MergedNested(scraped, direct), BaseSection), k)
         == GetList(GetObj(MergedNested(direct, scraped), BaseSection), k)
  {
    var s, d := GetObj(AsSource(scraped), BaseSection), GetObj(AsSource(direct), BaseSection);
    BaseSectionOf(scraped, direct);
    BaseSectionOf(direct, scraped);
    UnionFieldsAt(s, d, BaseKeys, k);
    UnionFieldsAt(d, s, BaseKeys, k);
    UnionListSymmetric(GetList(s, k), GetList(d, k));
  }

  /** Swapping the sources changes no trend list. */
  lemma TrendListsSymmetric(scraped: Object, direct: Object, k: string)
    requires k != TrendSummaryKey
    ensures GetList(GetObj(MergedNested(scraped, direct), TrendSection), k)
         == GetList(GetObj(MergedNested(direct, scraped), TrendSection), k)
  {
    var s, d := GetObj(AsSource(scraped), TrendSection), GetObj(AsSource(direct), TrendSection);
    TrendSectionOf(scraped, direct);
    TrendSectionOf(direct, scraped);
    TrendListOf(AsSource(scraped), AsSource(direct), k);
    TrendListOf(AsSource(direct), AsSource(scraped), k);
    UnionFieldsAt(s, d, TrendKeys, k);
    UnionFieldsAt(d, s, TrendKeys, k);
    UnionListSymmetric(GetList(s, k), GetList(d, k));
  }

  /** Two error markers merge to the empty skeleton: every list empty, the summary empty. */
  lemma BothErrors(scraped: Object, direct: Object, k: string)
    requires IsError(scraped) && IsError(direct)
    ensures GetList(GetObj(MergedNested(scraped, direct), BaseSection), k) == []
    ensures GetList(GetObj(MergedNested(scraped, direct), TrendSection), k) == []
    ensures GetStr(GetObj(MergedNested(scraped, direct), TrendSection), TrendSummaryKey, "") == ""
  {
    var e: Object := map[];
    assert AsSource(scraped) == e && AsSource(direct) == e;
    assert GetObj(e, BaseSection) == e && GetObj(e, TrendSection) == e;
    var m := MergedNested(scraped, direct);
    assert GetObj(m, BaseSection) == UnionFields(e, e, BaseKeys);
    assert GetObj(m, TrendSection) == UnionFields(e, e, TrendKeys)[TrendSummaryKey := Str("")];
    var none: seq<string> := [];
    assert GetList(e, k) == none && none + none == none;
    assert UnionList(none, none) == none;
    UnionFieldsAt(e, e, BaseKeys, k);
    UnionFieldsAt(e, e, TrendKeys, k);
  }

  /** The same basic list "" and "x" from the two sources merge to ["", "x"]: the empty string is kept. */
  lemma EmptyStringKept()
    ensures UnionList([""], ["x", ""]) == ["", "x"]
  {
    var r := UnionList([""], ["x", ""]);
    UnionListSpec([""], ["x", ""]);
    var want := ["", "x"];
    assert Less("", "x");
    assert forall x :: x in Elems(r) <==> x in r;
    assert Elems(want) == {"", "x"};
    SortedUniqueness(r, want);
  }

  // ---------------------------------------------------------------- process_company

  /** The six search queries for a company. */
  function Queries(name: string): seq<string> {
    var quoted := "\"" + name + "\"";
    [quoted + " báo cáo thường niên", quoted + " kết quả kinh doanh gần đây", quoted + " kế hoạch phát triển",
     quoted + " tin tức sự kiện", quoted + " phân tích cổ phiếu", quoted + " định hướng chiến lược"]
  }

  /** `search_google_for_urls(q)` with its default of three results. */
  const ResultsPerQuery: nat := 3

  const QueryKey: string := "ten_cong_ty_query"
  const TimeKey: string := "thoi_gian_quet"

  /** The scraped context built for a company from the search and scrape results. */
  function GatheredContext(name: string, search: (string, nat) -> seq<string>, scrape: string -> string): string {
    Gather.Context(Gather.Dedup(Gather.Collected(Queries(name), search, ResultsPerQuery)), scrape)
  }

  /** The record `save_data_to_json` writes: the merge plus the query and the time. */
  function Record(name: string, scraped: Object, direct: Object, timestamp: string): Object {
    MergedNested(scraped, direct)[QueryKey := Str(name)][TimeKey := Str(timestamp)]
  }

  /**
   * The record always has exactly the two sections, the query and the time,
   * the query being the company name as typed.
   */
  lemma RecordShape(name: string, scraped: Object, direct: Object, timestamp: string)
    ensures Record(name, scraped, direct, timestamp).Keys == {BaseSection, TrendSection, QueryKey, TimeKey}
    ensures GetStr(Record(name, scraped, direct, timestamp), QueryKey, "") == name
    ensures GetStr(Record(name, scraped, direct, timestamp), TimeKey, "") == timestamp
  {
    NestedShape(scraped, direct, "");
  }

  /**
   * `process_company(company_name)`: returns the file name and the record
   * `save_data_to_json` would write, with the log of every pause of the run: one
   * second per query and per link, then the back-off waits of the two analyses.
   */
  method ProcessCompany(name: string, search: (string, nat) -> seq<string>, scrape: string -> string,
                        scrapedModel: nat -> Reply, directModel: nat -> Reply,
                        parse: string -> ParseResult, timestamp: string)
    returns (filename: string, record: Object, ghost sleeps: seq<nat>)
    ensures filename == Gather.OutputFilename(name, ".json")
    ensures record == Record(name, ScrapedRun(GatheredContext(name, search, scrape), scrapedModel, parse).result,
                             Expected(directModel, parse).result, timestamp)
    ensures sleeps == Gather.Pauses(|Queries(name)|)
                    + Gather.Pauses(|Gather.Dedup(Gather.Collected(Queries(name), search, ResultsPerQuery))|)
                    + ScrapedRun(GatheredContext(name, search, scrape), scrapedModel, parse).sleeps
                    + Expected(directModel, parse).sleeps
  {
    ghost var searchPauses, scrapePauses, scrapedSleeps, directSleeps;
    var allUrls;
    allUrls, searchPauses := Gather.CollectUrls(Queries(name), search, ResultsPerQuery);
    var uniqueUrls := Gather.Dedup(allUrls);
    var context;
    context, scrapePauses := Gather.BuildContext(uniqueUrls, scrape);

    var scraped, scrapedCalls, directCalls;
    scraped, scrapedCalls, scrapedSleeps := AnalyzeScraped(context, scrapedModel, parse);
    var direct;
    direct, directCalls, directSleeps := CallWithRetry(directModel, parse);
    sleeps := searchPauses + scrapePauses + scrapedSleeps + directSleeps;

    assert context == GatheredContext(name, search, scrape);
    record := MergeNested(scraped, direct);
    record := record[QueryKey := Str(name)];
    record := record[TimeKey := Str(timestamp)];
    filename := Gather.OutputFilename(name, ".json");
  }
}
