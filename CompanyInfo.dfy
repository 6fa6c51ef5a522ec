/**
 * main.py: company research on the flat schema. For one company name the
 * script searches the web, scrapes the pages, asks the model twice (once on
 * the scraped text, once on its own knowledge), merges the two JSON answers
 * and writes one CSV row.
 *
 * The model is `model(i)`, the reply to the i-th call of one retry loop, and
 * `json.loads` is `parse`; `time.sleep` is a ghost log of delays and
 * `datetime.now()` arrives as the formatted `timestamp`.
 */
module CompanyInfo {
  import opened Text
  import opened Order
  import opened Json
  import opened Retry
  import Gather

  // ---------------------------------------------------------------- answer cleaning

  const JsonFence: string := "```json"
  const Fence: string := "```"

  /**
   * The clean-up before `json.loads`: strip, drop a leading "```json" if
   * present, then drop a trailing "```" if present.
   */
  function StripFence(raw: string): string {
    Unfence(Strip(raw))
  }

  /** The marker removal on the stripped text. */
  function Unfence(t: string): string {
    var a := if StartsWith(t, JsonFence) then t[|JsonFence|..] else t;
    if EndsWith(a, Fence) then a[..|a| - |Fence|] else a
  }

  lemma UnfenceFenced(body: string)
    ensures Unfence(JsonFence + body + Fence) == body
  {
    var t := JsonFence + body + Fence;
    assert t[..|JsonFence|] == JsonFence;
    var a := t[|JsonFence|..];
    assert a == body + Fence;
    assert a[|a| - |Fence|..] == Fence;
    assert a[..|a| - |Fence|] == body;
  }

  /** An answer with neither marker is only stripped; the clean-up never lengthens the text. */
  lemma StripFenceUnmarked(raw: string)
    ensures !StartsWith(Strip(raw), JsonFence) && !EndsWith(Strip(raw), Fence) ==> StripFence(raw) == Strip(raw)
    ensures |StripFence(raw)| <= |Strip(raw)|
  {
  }

  /** Whatever the model wraps in a json code fence, with any surrounding whitespace, comes back out. */
  lemma UnfenceRoundTrip(w1: string, body: string, w2: string)
    requires AllIn(w1, Whitespace) && AllIn(w2, Whitespace)
    ensures StripFence(w1 + JsonFence + body + Fence + w2) == body
  {
    var t := JsonFence + body + Fence;
    assert w1 + JsonFence + body + Fence + w2 == w1 + t + w2;
    assert t[0] == '`' && t[|t| - 1] == '`';
    StripPadded(w1, t, w2);
    UnfenceFenced(body);
  }

  // ---------------------------------------------------------------- retry loop

  /** How one pass through the `try` block of `_call_gemini_with_retry` ends. */
  datatype Attempt =
    | Decoded(obj: Object)                     // json.loads succeeded
    | ApiError(message: string)                // generate_content raised
    | JsonError(message: string, raw: string)  // json.loads raised; raw is response.text

  function AttemptOf(reply: Reply, parse: string -> ParseResult): Attempt {
    match reply
    case Raised(m) => ApiError(m)
    case Answered(text) =>
      match parse(StripFence(text))
      case Parsed(obj) => Decoded(obj)
      case Malformed(m) => JsonError(m, text)
  }

  /** `"429" in str(e)`: the handler waits and tries again. */
  predicate RateLimited(a: Attempt) {
    !a.Decoded? && Contains(a.message, "429")
  }

  /** Attempt i of the loop is rate limited. */
  function Limited(model: nat -> Reply, parse: string -> ParseResult): nat -> bool {
    (i: nat) => RateLimited(AttemptOf(model(i), parse))
  }

  const JsonErrorMessage: string := "Lỗi phân tích JSON từ Gemini."
  const UnknownErrorPrefix: string := "Lỗi Gemini không xác định: "
  const QuotaMessage: string := "Hết giới hạn truy cập API sau nhiều lần thử."

  /** What the loop returns from an attempt that is not rate limited. */
  function Settle(a: Attempt): Object {
    match a
    case Decoded(obj) => obj
    case JsonError(_, raw) => ErrorWithRaw(JsonErrorMessage, raw)
    case ApiError(m) => ErrorRecord(UnknownErrorPrefix + m)
  }

  /** What attempt i returns when it ends the loop. */
  function Outcome(model: nat -> Reply, parse: string -> ParseResult): nat -> Object {
    (i: nat) => Settle(AttemptOf(model(i), parse))
  }

  /**
   * The behaviour of `_call_gemini_with_retry`, stated without the loop: the
   * first attempt that is not rate limited decides the result, after one
   * backoff sleep per earlier attempt; three rate-limited attempts give the
   * quota error.
   */
  function Expected(model: nat -> Reply, parse: string -> ParseResult): Run<Object> {
    Schedule(Limited(model, parse), Outcome(model, parse), ErrorRecord(QuotaMessage))
  }

  /** `_call_gemini_with_retry(prompt)`, where `model(i)` is the reply to the i-th call. */
  method CallWithRetry(model: nat -> Reply, parse: string -> ParseResult)
    returns (r: Object, calls: nat, ghost sleeps: seq<nat>)
    ensures r == Expected(model, parse).result && calls == Expected(model, parse).calls
    ensures sleeps == Expected(model, parse).sleeps
  {
    ghost var limited, outcome := Limited(model, parse), Outcome(model, parse);
    var delay := InitialDelay;
    calls, sleeps := 0, [];
    var attempt := 0;
    while attempt < MaxRetries
      invariant attempt <= MaxRetries && calls == attempt
      invariant delay == DelayAt(attempt) && sleeps == Backoff(attempt)
      invariant forall j :: 0 <= j < attempt ==> limited(j)
    {
      var reply := model(attempt);
      calls := calls + 1;
      var failure: Attempt;
      match reply {
        case Answered(text) =>
          var cleaned := StripFence(text);
          match parse(cleaned) {
            case Parsed(obj) =>
              ScheduleSettles(limited, outcome, ErrorRecord(QuotaMessage), attempt);
              return obj, calls, sleeps;
            case Malformed(m) =>
              failure := JsonError(m, text);
          }
        case Raised(m) =>
          failure := ApiError(m);
      }
      assert failure == AttemptOf(model(attempt), parse);
      if Contains(failure.message, "429") {
        sleeps := sleeps + [delay];
        delay := delay * 2;
      } else if failure.JsonError? {
        ScheduleSettles(limited, outcome, ErrorRecord(QuotaMessage), attempt);
        return ErrorWithRaw(JsonErrorMessage, failure.raw), calls, sleeps;
      } else {
        ScheduleSettles(limited, outcome, ErrorRecord(QuotaMessage), attempt);
        return ErrorRecord(UnknownErrorPrefix + failure.message), calls, sleeps;
      }
      attempt := attempt + 1;
    }
    FirstSettledIs(limited, MaxRetries);
    r := ErrorRecord(QuotaMessage);
  }

  /**
   * The first attempt that fails without "429" (a malformed answer or any
   * other error) ends the loop at once: no further call, no further sleep.
   * A malformed answer carries the model's raw text; any other error its
   * message behind the fixed prefix.
   */
  lemma StopsAtFirstOtherFailure(model: nat -> Reply, parse: string -> ParseResult, k: nat)
    requires k < MaxRetries
    requires forall j :: 0 <= j < k ==> RateLimited(AttemptOf(model(j), parse))
    requires !RateLimited(AttemptOf(model(k), parse)) && !AttemptOf(model(k), parse).Decoded?
    ensures Expected(model, parse).calls == k + 1 && Expected(model, parse).sleeps == Backoff(k)
    ensures IsError(Expected(model, parse).result)
    ensures AttemptOf(model(k), parse).JsonError? ==>
      Expected(model, parse).result == ErrorWithRaw(JsonErrorMessage, model(k).text)
    ensures AttemptOf(model(k), parse).ApiError? ==>
      Expected(model, parse).result == ErrorRecord(UnknownErrorPrefix + model(k).message)
  {
    ScheduleSettles(Limited(model, parse), Outcome(model, parse), ErrorRecord(QuotaMessage), k);
  }

  /** Two rate-limited calls and then an answer that decodes: that answer, after sleeping 60 and then 120. */
  lemma TwoRateLimitsThenSuccess(model: nat -> Reply, parse: string -> ParseResult, obj: Object)
    requires model(0).Raised? && Contains(model(0).message, "429")
    requires model(1).Raised? && Contains(model(1).message, "429")
    requires model(2).Answered? && parse(StripFence(model(2).text)) == Parsed(obj)
    ensures Expected(model, parse) == Run(obj, 3, [60, 120])
  {
    ScheduleSettles(Limited(model, parse), Outcome(model, parse), ErrorRecord(QuotaMessage), 2);
    BackoffSchedule(2);
  }

  /**
   * The "429" test also reads decoder messages, so a malformed answer whose
   * decoder message happens to mention 429 (say, "Expecting value: line 1
   * column 430 (char 429)") is waited on and retried like a quota error.
   */
  lemma DecoderMessageWith429Retried(model: nat -> Reply, parse: string -> ParseResult)
    requires model(0).Answered? && parse(StripFence(model(0).text)).Malformed?
    requires Contains(parse(StripFence(model(0).text)).message, "429")
    ensures Expected(model, parse).calls >= 2 && Expected(model, parse).sleeps[0] == 60
  {
    var limited := Limited(model, parse);
    assert limited(0);
    var k := FirstSettled(limited, 0);
    assert k != 0;
    BackoffSchedule(k);
  }

  // ---------------------------------------------------------------- the two analyses

  const NoContentMessage: string := "Không có nội dung web-scrape để phân tích."

  /** `analyze_scraped_content_with_gemini`: a blank context is answered without calling the model. */
  function ScrapedRun(context: string, model: nat -> Reply, parse: string -> ParseResult): (run: Run<Object>)
    ensures run.calls == 0 <==> Strip(context) == ""
  {
    if Strip(context) == "" then Run(ErrorRecord(NoContentMessage), 0, [])
    else
      ScheduleCalls(Limited(model, parse), Outcome(model, parse), ErrorRecord(QuotaMessage));
      Expected(model, parse)
  }

  method AnalyzeScraped(context: string, model: nat -> Reply, parse: string -> ParseResult)
    returns (r: Object, calls: nat, ghost sleeps: seq<nat>)
    ensures r == ScrapedRun(context, model, parse).result && calls == ScrapedRun(context, model, parse).calls
    ensures sleeps == ScrapedRun(context, model, parse).sleeps
  {
    if Strip(context) == "" {
      return ErrorRecord(NoContentMessage), 0, [];
    }
    r, calls, sleeps := CallWithRetry(model, parse);
  }

  // ---------------------------------------------------------------- merge

  const ListKeys: seq<string> := ["ten_giam_doc", "dia_chi", "mo_hinh_kd", "email", "ten_mien"]
  const SummaryKey: string := "tom_tat"
  const WebHeader: string := "--- TÓM TẮT TỪ PHÂN TÍCH WEB ---\n"
  const GeminiHeader: string := "--- TÓM TẮT TỪ KIẾN THỨC GEMINI ---\n"
  const NoSummary: string := "Không tạo được tóm tắt."

  /** `[item for item in xs if item]`. */
  function DropEmpty(xs: seq<string>): seq<string> {
    if xs == [] then [] else (if xs[0] != "" then [xs[0]] else []) + DropEmpty(xs[1..])
  }

  /** The filter keeps exactly the non-empty items. */
  lemma {:induction false} DropEmptySpec(xs: seq<string>)
    ensures forall x :: x in DropEmpty(xs) <==> x in xs && x != ""
  {
    if xs != [] {
      DropEmptySpec(xs[1..]);
      assert xs == [xs[0]] + xs[1..];
    }
  }

  /**
   * One list field of the merge: `set(a)` updated with `b`, the empty
   * strings dropped, sorted.
   */
  function MergedList(a: seq<string>, b: seq<string>): seq<string> {
    SortedUnique(DropEmpty(a + b))
  }

  /**
   * The merged list is strictly sorted, so each string appears once, and
   * holds exactly the non-empty strings of either list.
   */
  lemma MergedListSpec(a: seq<string>, b: seq<string>)
    ensures StrictlySorted(MergedList(a, b))
    ensures forall x :: x in MergedList(a, b) <==> x != "" && (x in a || x in b)
  {
    var r := MergedList(a, b);
    SortedUniqueSpec(DropEmpty(a + b));
    DropEmptySpec(a + b);
    assert forall x :: x in r <==> x in Elems(r);
    assert forall x :: x in DropEmpty(a + b) <==> x in Elems(DropEmpty(a + b));
  }

  /** The merged list does not depend on which source is which. */
  lemma MergedListSymmetric(a: seq<string>, b: seq<string>)
    ensures MergedList(a, b) == MergedList(b, a)
  {
    MergedListSpec(a, b);
    MergedListSpec(b, a);
    var r, r' := MergedList(a, b), MergedList(b, a);
    assert forall x :: x in Elems(r) <==> x in r;
    assert forall x :: x in Elems(r') <==> x in r';
    SortedUniqueness(r, r');
  }

  /** A source's summary after `.get("tom_tat", "").strip()`. */
  function SummaryOf(o: Object): string {
    Strip(GetStr(o, SummaryKey, ""))
  }

  /** `final_summary` before its final strip: the labelled blocks of the non-empty summaries, web first. */
  function Combined(ss: string, sd: string): string {
    (if ss != "" then WebHeader + ss + "\n\n" else "") + (if sd != "" then GeminiHeader + sd else "")
  }

  /** `final_summary.strip() or "Không tạo được tóm tắt."`. */
  function Finished(combined: string): string {
    if Strip(combined) != "" then Strip(combined) else NoSummary
  }

  /** The `tom_tat` of the merge. */
  function ResolvedSummary(scraped: Object, direct: Object): string {
    Finished(Combined(SummaryOf(scraped), SummaryOf(direct)))
  }

  /** A stripped, non-empty summary behind a header survives the final strip. */
  predicate Trimmed(s: string) {
    s != [] && !IsSpace(s[|s| - 1])
  }

  lemma SummaryWebOnly(ss: string)
    requires Trimmed(ss)
    ensures Finished(Combined(ss, "")) == WebHeader + ss
  {
    var s := WebHeader + ss;
    assert s[0] == '-' && s[|s| - 1] == ss[|ss| - 1];
    assert Combined(ss, "") == "" + s + "\n\n";
    StripPadded("", s, "\n\n");
  }

  lemma SummaryDirectOnly(sd: string)
    requires Trimmed(sd)
    ensures Finished(Combined("", sd)) == GeminiHeader + sd
  {
    var s := GeminiHeader + sd;
    assert s[0] == '-' && s[|s| - 1] == sd[|sd| - 1];
    assert Combined("", sd) == s;
    StripNoop(s);
  }

  lemma SummaryBoth(ss: string, sd: string)
    requires Trimmed(ss) && Trimmed(sd)
    ensures Finished(Combined(ss, sd)) == WebHeader + ss + "\n\n" + GeminiHeader + sd
  {
    var s := WebHeader + ss + "\n\n" + GeminiHeader + sd;
    assert s[0] == '-' && s[|s| - 1] == sd[|sd| - 1];
    assert Combined(ss, sd) == s;
    StripNoop(s);
  }

  /**
   * The four cases of the summary, for summaries that went through
   * `.strip()`: the placeholder when both are empty, one labelled block when
   * one is, and the web block before the model block when both are present.
   */
  lemma SummaryCases(ss: string, sd: string)
    requires ss == "" || Trimmed(ss)
    requires sd == "" || Trimmed(sd)
    ensures ss == "" && sd == "" ==> Finished(Combined(ss, sd)) == NoSummary
    ensures ss == "" && sd != "" ==> Finished(Combined(ss, sd)) == GeminiHeader + sd
    ensures ss != "" && sd == "" ==> Finished(Combined(ss, sd)) == WebHeader + ss
    ensures ss != "" && sd != "" ==> Finished(Combined(ss, sd)) == WebHeader + ss + "\n\n" + GeminiHeader + sd
  {
    if ss == "" && sd == "" {
      assert Combined(ss, sd) == "";
    } else if ss != "" && sd == "" {
      SummaryWebOnly(ss);
    } else if ss == "" && sd != "" {
      SummaryDirectOnly(sd);
    } else {
      SummaryBoth(ss, sd);
    }
  }

  /** A summary after `.strip()` is empty or ends in a visible character, as SummaryCases requires. */
  lemma SummaryOfTrimmed(o: Object)
    ensures SummaryOf(o) == "" || Trimmed(SummaryOf(o))
  {
    StripSpec(GetStr(o, SummaryKey, ""));
  }

  /** The merged list fields for `keys`, as the loop of `merge_data` leaves them after those keys. */
  function ListFields(s: Object, d: Object, keys: seq<string>): Object {
    if keys == [] then map[]
    else
      var k := keys[|keys| - 1];
      ListFields(s, d, keys[..|keys| - 1])[k := Strs(MergedList(GetList(s, k), GetList(d, k)))]
  }

  /** The list fields hold exactly the given keys, each with the merge of its two lists. */
  lemma {:induction false} ListFieldsAt(s: Object, d: Object, keys: seq<string>, k: string)
    ensures k in ListFields(s, d, keys) <==> k in keys
    ensures k in keys ==> ListFields(s, d, keys)[k] == Strs(MergedList(GetList(s, k), GetList(d, k)))
  {
    if keys != [] {
      var init, last := keys[..|keys| - 1], keys[|keys| - 1];
      ListFieldsAt(s, d, init, k);
      var v := Strs(MergedList(GetList(s, last), GetList(d, last)));
      assert ListFields(s, d, keys) == ListFields(s, d, init)[last := v];
      assert k in keys <==> k in init || k == last by {
        assert keys == init + [last];
      }
      if k != last && k in init {
        assert ListFields(s, d, keys)[k] == ListFields(s, d, init)[k];
      }
    }
  }

  /** `merge_data(scraped_data, direct_data)`, as a value. */
  function Merged(scraped: Object, direct: Object): Object {
    var s := AsSource(scraped);
    var d := AsSource(direct);
    ListFields(s, d, ListKeys)[SummaryKey := Str(ResolvedSummary(s, d))]
  }

  lemma ListFieldsSnoc(s: Object, d: Object, keys: seq<string>, i: nat)
    requires i < |keys|
    ensures ListFields(s, d, keys[..i + 1])
         == ListFields(s, d, keys[..i])[keys[i] := Strs(MergedList(GetList(s, keys[i]), GetList(d, keys[i])))]
  {
    var done := keys[..i + 1];
    assert done[..|done| - 1] == keys[..i] && done[|done| - 1] == keys[i];
  }

  /** The loop of `merge_data` over the list keys. */
  method MergeLists(s: Object, d: Object, keys: seq<string>) returns (fields: Object)
    ensures fields == ListFields(s, d, keys)
  {
    fields := map[];
    for i := 0 to |keys|
      invariant fields == ListFields(s, d, keys[..i])
    {
      var key := keys[i];
      ListFieldsSnoc(s, d, keys, i);
      fields := fields[key := Strs(MergedList(GetList(s, key), GetList(d, key)))];
    }
    assert keys[..|keys|] == keys;
  }

  /** `merge_data(scraped_data, direct_data)`. */
  method MergeData(scraped: Object, direct: Object) returns (merged: Object)
    ensures merged == Merged(scraped, direct)
  {
    var s := AsSource(scraped);
    var d := AsSource(direct);
    merged := MergeLists(s, d, ListKeys);
    merged := merged[SummaryKey := Str(ResolvedSummary(s, d))];
  }

  /** The merged record has the five list keys and the summary key, and nothing else. */
  lemma MergedKeys(scraped: Object, direct: Object, k: string)
    ensures k in Merged(scraped, direct) <==> k in ListKeys || k == SummaryKey
    ensures Merged(scraped, direct)[SummaryKey] == Str(ResolvedSummary(AsSource(scraped), AsSource(direct)))
  {
    ListFieldsAt(AsSource(scraped), AsSource(direct), ListKeys, k);
  }

  /**
   * Every merged list is strictly sorted (so free of repeats) and holds
   * exactly the non-empty strings of that key in either source that is not
   * an error marker.
   */
  lemma MergedListField(scraped: Object, direct: Object, k: string)
    requires k in ListKeys
    ensures k in Merged(scraped, direct) && Merged(scraped, direct)[k].Strs?
    ensures StrictlySorted(Merged(scraped, direct)[k].items)
    ensures forall x :: x in Merged(scraped, direct)[k].items <==>
      x != "" && (x in GetList(AsSource(scraped), k) || x in GetList(AsSource(direct), k))
  {
    var s, d := AsSource(scraped), AsSource(direct);
    ListFieldsAt(s, d, ListKeys, k);
    assert k != SummaryKey;
    assert Merged(scraped, direct)[k] == Strs(MergedList(GetList(s, k), GetList(d, k)));
    MergedListSpec(GetList(s, k), GetList(d, k));
  }

  /**
   * A string where the schema has a list is merged character by character:
   * with `{"email": t}` on one side and no email on the other, the merged
   * emails are exactly the distinct characters of `t`, each as a string.
   */
  lemma StringUnderListKey(scraped: Object, direct: Object, k: string, t: string)
    requires k in ListKeys && !IsError(scraped) && k in scraped && scraped[k] == Str(t)
    requires k !in direct
    ensures forall x :: x in GetList(Merged(scraped, direct), k) <==> |x| == 1 && x[0] in t
  {
    MergedListField(scraped, direct, k);
    var cs := GetList(AsSource(scraped), k);
    assert cs == Chars(t);
    assert GetList(AsSource(direct), k) == [];
    forall x | |x| == 1 && x[0] in t
      ensures x in cs
    {
      var i :| 0 <= i < |t| && t[i] == x[0];
      assert cs[i] == x;
    }
  }

  /** An error marker merges like the empty record, on either side. */
  lemma MergeIgnoresErrors(scraped: Object, direct: Object)
    ensures IsError(scraped) ==> Merged(scraped, direct) == Merged(map[], direct)
    ensures IsError(direct) ==> Merged(scraped, direct) == Merged(scraped, map[])
  {
  }

  /** Swapping the sources changes no list field. */
  lemma MergeListsSymmetric(scraped: Object, direct: Object, k: string)
    requires k in ListKeys
    ensures GetList(Merged(scraped, direct), k) == GetList(Merged(direct, scraped), k)
  {
    var s, d := AsSource(scraped), AsSource(direct);
    ListFieldsAt(s, d, ListKeys, k);
    ListFieldsAt(d, s, ListKeys, k);
    assert k != SummaryKey;
    MergedListSymmetric(GetList(s, k), GetList(d, k));
  }

  /** Emails "a@x.com" and "b@x.com", "a@x.com" merge to the sorted pair. */
  lemma MergeListExample()
    ensures MergedList(["a@x.com"], ["b@x.com", "a@x.com"]) == ["a@x.com", "b@x.com"]
  {
    var r := MergedList(["a@x.com"], ["b@x.com", "a@x.com"]);
    MergedListSpec(["a@x.com"], ["b@x.com", "a@x.com"]);
    var want := ["a@x.com", "b@x.com"];
    assert Less("a@x.com", "b@x.com");
    assert forall x :: x in Elems(r) <==> x in r;
    assert Elems(want) == {"a@x.com", "b@x.com"};
    SortedUniqueness(r, want);
  }

  /** Both summaries are kept, web first. */
  lemma MergeSummaryExample()
    ensures ResolvedSummary(map[SummaryKey := Str("S")], map[SummaryKey := Str("D")])
         == WebHeader + "S\n\n" + GeminiHeader + "D"
  {
    var s: Object := map[SummaryKey := Str("S")];
    var d: Object := map[SummaryKey := Str("D")];
    assert GetStr(s, SummaryKey, "") == "S" && GetStr(d, SummaryKey, "") == "D";
    StripNoop("S");
    StripNoop("D");
    SummaryBoth("S", "D");
  }

  // ---------------------------------------------------------------- output row

  /** The placeholders of the five list columns, in `ListKeys` order. */
  const Placeholders: seq<string> := ["Chưa rõ", "Không có", "Không rõ", "Không tìm thấy", "Không có"]
  const MissingSummary: string := "Không có tóm tắt."

  /** One list column: the items joined by newlines, or the placeholder when that is empty. */
  function ListCell(m: Object, i: nat): string
    requires i < |ListKeys|
  {
    var joined := Join("\n", GetList(m, ListKeys[i]));
    if joined != "" then joined else Placeholders[i]
  }

  function ErrorMessage(scraped: Object, direct: Object): string {
    "Lỗi Scrape: " + GetStr(scraped, "error", "N/A") + "\nLỗi Direct: " + GetStr(direct, "error", "N/A")
  }

  /** The row of a merged record. */
  function MergedRowOf(name: string, m: Object, timestamp: string): seq<string> {
    [name, GetStr(m, SummaryKey, MissingSummary),
     ListCell(m, 0), ListCell(m, 1), ListCell(m, 2), ListCell(m, 3), ListCell(m, 4),
     timestamp]
  }

  lemma RowCells(name: string, m: Object, timestamp: string)
    ensures MergedRowOf(name, m, timestamp)[1] == GetStr(m, SummaryKey, MissingSummary)
    ensures forall i :: 0 <= i < |ListKeys| ==> MergedRowOf(name, m, timestamp)[i + 2] == ListCell(m, i)
  {
    var row := MergedRowOf(name, m, timestamp);
    assert row[2] == ListCell(m, 0) && row[3] == ListCell(m, 1) && row[4] == ListCell(m, 2);
    assert row[5] == ListCell(m, 3) && row[6] == ListCell(m, 4);
  }

  /** The CSV row `process_company` writes: name, summary, five list columns, timestamp. */
  function Row(name: string, scraped: Object, direct: Object, timestamp: string): (row: seq<string>)
    ensures |row| == 8 && row[0] == name && row[7] == timestamp
  {
    if IsError(scraped) && IsError(direct) then
      [name, ErrorMessage(scraped, direct), "", "", "", "", "", timestamp]
    else
      MergedRowOf(name, Merged(scraped, direct), timestamp)
  }

  /** Both analyses failed: the error row, with both messages and five empty cells. */
  lemma ErrorRow(name: string, scraped: Object, direct: Object, timestamp: string)
    requires IsError(scraped) && IsError(direct)
    ensures Row(name, scraped, direct, timestamp)[1] == ErrorMessage(scraped, direct)
    ensures forall i :: 2 <= i < 7 ==> Row(name, scraped, direct, timestamp)[i] == ""
  {
  }

  /**
   * A list column is its placeholder when the list is empty and its newline
   * join otherwise, which splits back into the list when no item holds a
   * newline.
   */
  lemma ListCellCases(m: Object, i: nat)
    requires i < |ListKeys| && "" !in GetList(m, ListKeys[i])
    ensures var items := GetList(m, ListKeys[i]);
      && (items == [] ==> ListCell(m, i) == Placeholders[i])
      && (items != [] ==> ListCell(m, i) == Join("\n", items))
      && (items != [] && (forall j :: 0 <= j < |items| ==> '\n' !in items[j]) ==>
            SplitOn(ListCell(m, i), '\n') == items)
  {
    var items := GetList(m, ListKeys[i]);
    JoinEmptyIff("\n", items);
    if items != [] && (forall j :: 0 <= j < |items| ==> '\n' !in items[j]) {
      SplitJoin('\n', items);
    }
  }

  /**
   * Otherwise the summary column is the resolved summary (the merge always
   * sets it, so the row's own fallback never shows) and each list column is
   * the cell of the merged list.
   */
  lemma MergedRow(name: string, scraped: Object, direct: Object, timestamp: string)
    requires !(IsError(scraped) && IsError(direct))
    ensures Row(name, scraped, direct, timestamp)[1] == ResolvedSummary(AsSource(scraped), AsSource(direct))
    ensures forall i :: 0 <= i < |ListKeys| ==>
      Row(name, scraped, direct, timestamp)[i + 2] == ListCell(Merged(scraped, direct), i)
  {
    var m := Merged(scraped, direct);
    MergedKeys(scraped, direct, SummaryKey);
    assert GetStr(m, SummaryKey, MissingSummary) == ResolvedSummary(AsSource(scraped), AsSource(direct));
    RowCells(name, m, timestamp);
    assert Row(name, scraped, direct, timestamp) == MergedRowOf(name, m, timestamp);
  }

  /**
   * A list column of a merged row shows its placeholder exactly when neither
   * usable source holds a non-empty string under that key, and otherwise the
   * newline join of the merged list.
   */
  lemma RowListColumn(name: string, scraped: Object, direct: Object, timestamp: string, i: nat)
    requires !(IsError(scraped) && IsError(direct)) && i < |ListKeys|
    ensures var items := GetList(Merged(scraped, direct), ListKeys[i]);
      && (items == [] <==> forall x :: x in GetList(AsSource(scraped), ListKeys[i]) || x in GetList(AsSource(direct), ListKeys[i]) ==> x == "")
      && Row(name, scraped, direct, timestamp)[i + 2] == (if items == [] then Placeholders[i] else Join("\n", items))
  {
    var k := ListKeys[i];
    MergedRow(name, scraped, direct, timestamp);
    MergedListField(scraped, direct, k);
    var items := GetList(Merged(scraped, direct), k);
    assert items != [] ==> items[0] in items;
    ListCellCases(Merged(scraped, direct), i);
  }

  // ---------------------------------------------------------------- process_company

  /** The six search queries for a company. */
  function Queries(name: string): seq<string> {
    var quoted := "\"" + name + "\"";
    [quoted + " địa chỉ chi nhánh", quoted + " hệ thống cửa hàng", quoted + " ngành nghề kinh doanh",
     quoted + " giới thiệu công ty", quoted + " masothue.com", quoted + " linkedin"]
  }

  const ResultsPerQuery: nat := 2

  /** The scraped context built for a company from the search and scrape results. */
  function GatheredContext(name: string, search: (string, nat) -> seq<string>, scrape: string -> string): string {
    Gather.Context(Gather.Dedup(Gather.Collected(Queries(name), search, ResultsPerQuery)), scrape)
  }

  /**
   * `process_company(company_name)`: returns the file name and the row
   * `save_data_to_csv` would write, with the log of every pause of the run: one
   * second per query and per link, then the back-off waits of the two analyses.
   */
  method ProcessCompany(name: string, search: (string, nat) -> seq<string>, scrape: string -> string,
                        scrapedModel: nat -> Reply, directModel: nat -> Reply,
                        parse: string -> ParseResult, timestamp: string)
    returns (filename: string, row: seq<string>, ghost sleeps: seq<nat>)
    ensures filename == Gather.OutputFilename(name, ".csv")
    ensures row == Row(name, ScrapedRun(GatheredContext(name, search, scrape), scrapedModel, parse).result,
                       Expected(directModel, parse).result, timestamp)
    ensures sleeps == Gather.Pauses(|Queries(name)|)
                    + Gather.Pauses(|Gather.Dedup(Gather.Collected(Queries(name), search, ResultsPerQuery))|)
                    + ScrapedRun(GatheredContext(name, search, scrape), scrapedModel, parse).sleeps
                    + Expected(directModel, parse).sleeps
  {
    ghost var searchPauses, scrapePauses, scrapedSleeps, directSleeps;
    var allUrls;
    allUrls, searchPauses := Gather.CollectUrls(Queries(name), search, ResultsPerQuery);
    var uniqueUrls := Gather.Dedup(allUrls);
    var context;
    context, scrapePauses := Gather.BuildContext(uniqueUrls, scrape);

    var scraped, scrapedCalls, directCalls;
    scraped, scrapedCalls, scrapedSleeps := AnalyzeScraped(context, scrapedModel, parse);
    var direct;
    direct, directCalls, directSleeps := CallWithRetry(directModel, parse);
    sleeps := searchPauses + scrapePauses + scrapedSleeps + directSleeps;

    filename := Gather.OutputFilename(name, ".csv");
    if IsError(scraped) && IsError(direct) {
      row := [name, ErrorMessage(scraped, direct), "", "", "", "", "", timestamp];
      return;
    }
    var merged := MergeData(scraped, direct);
    var summary := GetStr(merged, SummaryKey, MissingSummary);
    row := [name, summary, ListCell(merged, 0), ListCell(merged, 1), ListCell(merged, 2),
            ListCell(merged, 3), ListCell(merged, 4), timestamp];
  }

  /**
   * No search result for any query: the scraped analysis is skipped with its
   * error, and if the direct analysis failed too, the error row carries both
   * messages.
   */
  lemma NoSearchResults(name: string, search: (string, nat) -> seq<string>, scrape: string -> string,
                        scrapedModel: nat -> Reply, direct: Object, parse: string -> ParseResult, timestamp: string)
    requires forall q :: search(q, ResultsPerQuery) == []
    requires IsError(direct)
    ensures ScrapedRun(GatheredContext(name, search, scrape), scrapedModel, parse).calls == 0
    ensures Row(name, ScrapedRun(GatheredContext(name, search, scrape), scrapedModel, parse).result, direct, timestamp)
         == [name, "Lỗi Scrape: " + NoContentMessage + "\nLỗi Direct: " + GetStr(direct, "error", "N/A"),
             "", "", "", "", "", timestamp]
  {
    Gather.CollectedEmpty(Queries(name), search, ResultsPerQuery);
    assert GatheredContext(name, search, scrape) == "";
    assert Strip("") == "";
  }
}
