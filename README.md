# Sale-Super-Agent in Dafny

Sale-Super-Agent researches a Vietnamese company in three steps:
- It searches the web for the company, scrapes the pages it finds, and joins their text into one labelled context.
- It asks the Gemini model twice for a JSON record, once about that context and once from the model's own knowledge.
- It merges the two answers into one record and saves it. main.py saves a CSV row with company facts. test.py saves a nested JSON record of facts and trend analysis.

A third script, crawler/vietnambiz.py, crawls a listing page of vietnambiz.vn, extracts article text and has the model summarize it.

This project models the logic of those three scripts:
- **The retry loops around the model.** There are at most three calls. After a rate-limited failure the loop waits 60, 120, then 240 seconds. Which failures are retried, and what each failure returns, follow each script.
- **Cleaning the answer before `json.loads`.**
  - main.py removes a literal "```json" prefix and "```" suffix.
  - test.py uses the character-set `lstrip`/`rstrip`.
- **The search and scrape loops of `process_company`.** These cover the order-preserving URL dedup (`dict.fromkeys`), the labelled context, and the output file name.
- **The merge of the two analyses.**
  - main.py takes a sorted union without empty strings, with a two-header summary.
  - test.py takes a sorted union that keeps the empty string, in two nested sections, and prefers the direct summary.
- **The CSV row of main.py** and the JSON record of test.py.
- **The crawler.**
  - The absolute-link rule and the lead filter.
  - The newline join of non-blank paragraphs.
  - The 50-word guard and the summary retry.

The model is outside the program. It is a function `model: nat -> Reply`, where `model(i)` is what the i-th `generate_content` call returned or raised. `json.loads` is likewise a function from text to `Parsed(object)` or `Malformed(message)`. The Google search and the page scraper are also functions, from query and result count to a list of links and from link to page text. A page's parsed HTML is given as the anchors or paragraphs the parser selected. `time.sleep` calls are recorded in a ghost list of delays. The current time is a parameter.

Each loop is a `method` proved equal to a function that states the same computation without the loop: `Expected`, `ScrapedRun`, `Collected`, `Context`, `ListFields`, `UnionFields`, `Leads`. The properties the scripts promise are lemmas about those functions.

Modules:
- `Wrappers`: Option.
- `Text`: Python `strip`, `lstrip(chars)`, `rstrip(chars)`, `startswith`, `endswith`, `in`, `join`, `split(sep)`, and the word count `len(s.split())`.
- `Order`: string order, and `sorted(set(...))` as the strictly sorted list of the distinct elements.
- `Json`: values, objects, `.get` with defaults, and error markers.
- `Retry`: the shared backoff schedule.
- `Gather`: search, dedup, context and file name.
- `CompanyInfo`: main.py.
- `CompanyTrend`: test.py.
- `Vietnambiz`: the crawler.

## Model

| member | source | states |
|---|---|---|
| Text.StripSpec | main.py:97 | the result of `strip()` has no whitespace at either end, and is empty exactly when the input is all whitespace |
| Text.LStripSetSpec | test.py:65 | `lstrip(chars)` leaves a suffix of its input; everything it removed is in `chars`; what remains does not start with one of `chars` |
| Text.RStripSetSpec | test.py:65 | `rstrip(chars)` leaves a prefix of its input; everything it removed is in `chars`; what remains does not end with one of `chars` |
| Text.LStripSetPrefix | test.py:65 | `lstrip(chars)` removes exactly a prefix drawn from `chars` that is followed by a character outside `chars` |
| Text.RStripSetSuffix | test.py:65 | `rstrip(chars)` removes exactly a suffix drawn from `chars` that is preceded by a character outside `chars` |
| Text.StripPadded | main.py:97 | whitespace around a string with visible ends is removed and nothing else |
| Text.JoinEmptyIff | main.py:276-285 | a newline join of non-empty items is empty exactly when there are no items (so the placeholder shows only for an empty list) |
| Text.SplitJoin | main.py:275-280 | splitting a join at its separator gives back the items when no item contains the separator |
| Text.WordCount | crawler/vietnambiz.py:80 | `len(text.split())` is zero exactly when the text is all whitespace and never exceeds the length |
| Order.InsertSpec | main.py:189 | inserting into a strictly sorted list keeps it strictly sorted and adds exactly the new element |
| Order.SortedUniqueSpec | main.py:186-189 | `sorted(set(xs))` is strictly sorted and holds exactly the elements of `xs` |
| Order.SortedUniqueness | main.py:189 | two strictly sorted lists with the same elements are equal, so the sorted output does not depend on set order |
| Json.ErrorWithRaw | main.py:111 | the error marker carries the message under "error" and the raw answer under "raw_response" |
| Retry.BackoffSchedule | main.py:90-108 | the waits are 60, 120, 240 seconds, each twice the one before |
| Retry.BackoffPrefix | main.py:105-108 | the waits of a shorter run are a prefix of the waits of a longer one |
| Retry.FirstSettledIs | main.py:93-114 | the attempt that ends the loop is the first one that is not rate limited, or the third attempt when all are |
| Retry.ScheduleCalls | main.py:90-117 | a retry loop calls the model one to three times and sleeps once after every call but the last, unless all three were rate limited |
| Retry.ScheduleSleeps | main.py:105-108 | the sleeps are 60, 120, 240 in order, and the i-th sleep follows the i-th attempt, which was rate limited |
| Retry.ScheduleExhausted | main.py:116-117 | all three sleeps happen exactly when all three attempts are rate limited, and then the quota error is returned |
| Retry.ScheduleSettles | main.py:103-114 | the first attempt that is not rate limited ends the loop with its own outcome, after the earlier sleeps only |
| Gather.CollectUrls | main.py:245-248 | the search loop appends each query's results in query order and pauses once per query |
| Gather.CollectedFrom | main.py:246-247 | a link is collected exactly when some query's search returned it |
| Gather.CollectedEmpty | main.py:246-247 | no search results means no links |
| Gather.DedupSpec | main.py:250 | `list(dict.fromkeys(urls))` holds each link once, exactly the links of the input, in the order of their first occurrence |
| Gather.DedupNoDuplicates | main.py:250 | a list without duplicates is left unchanged |
| Gather.DedupExample | main.py:250 | ["a","b","a","c","b"] deduplicates to ["a","b","c"] |
| Gather.BuildContext | main.py:253-258 | the scrape loop appends one labelled block per page with non-empty text, in link order, and pauses once per link |
| Gather.BlockVisible | main.py:257 | a labelled block is never blank |
| Gather.ContextAllSpace | main.py:253-258 | the context is all whitespace exactly when every page scraped to the empty text |
| Gather.ContextBlank | main.py:125 | `context.strip()` is empty exactly when every page scraped to the empty text |
| Gather.SafeFilename | main.py:210-211 | the sanitized name has no forbidden character and no space, and is no longer than the name |
| Gather.SafeFilenameFixed | main.py:210-211 | a name is left unchanged exactly when it already has no forbidden character and no space |
| Gather.SafeFilenameIdempotent | main.py:210-211 | sanitizing twice gives the same name as sanitizing once |
| Gather.SafeFilenameExample | main.py:210-211 | "A/B: C" becomes "AB_C" |
| Gather.OutputFilename | main.py:212 | the output file name is a stem of safe characters, no longer than the company name and equal to it when the name is already safe, followed by the extension |
| CompanyInfo.UnfenceFenced | main.py:98-101 | an answer of the form "```json" + body + "```" is cleaned to the body |
| CompanyInfo.UnfenceRoundTrip | main.py:97-101 | a fenced answer with whitespace around it is cleaned to its body, whatever the body is |
| CompanyInfo.StripFenceUnmarked | main.py:97-101 | an answer without the prefix or the suffix is only stripped, and cleaning never lengthens the stripped answer |
| CompanyInfo.CallWithRetry | main.py:86-117 | the retry loop returns exactly the result, the number of calls and the sleeps of the schedule: a parse success returns the object; a failure whose message contains "429" sleeps and retries; a JSON error returns the marker with the raw answer; any other error returns the marker with its message; three rate limits return the quota error |
| CompanyInfo.StopsAtFirstOtherFailure | main.py:109-114 | the first failure without "429" ends the loop at once; a JSON error carries the raw text, and any other error carries its message behind the fixed prefix |
| CompanyInfo.TwoRateLimitsThenSuccess | main.py:93-108 | two rate limits and then a parsable answer give the object after three calls and waits of 60 and 120 |
| CompanyInfo.DecoderMessageWith429Retried | main.py:105 | a JSON error whose message contains "429" is retried like a rate limit |
| CompanyInfo.ScrapedRun | main.py:125-126 | the scraped analysis calls the model exactly when the stripped context is non-empty |
| CompanyInfo.AnalyzeScraped | main.py:120-146 | a blank context gives the no-content error with no call; otherwise the result is that of the retry loop |
| CompanyInfo.DropEmptySpec | main.py:189 | the filter keeps exactly the non-empty items |
| CompanyInfo.MergedListSpec | main.py:184-189 | a merged list is strictly sorted and holds exactly the non-empty strings of either source's list |
| CompanyInfo.MergedListSymmetric | main.py:186-189 | a merged list does not depend on which source is which |
| CompanyInfo.SummaryWebOnly | main.py:196-201 | only a scraped summary gives the web header followed by that summary |
| CompanyInfo.SummaryDirectOnly | main.py:198-201 | only a direct summary gives the Gemini header followed by that summary |
| CompanyInfo.SummaryBoth | main.py:195-201 | both summaries give the web block, a blank line, then the Gemini block |
| CompanyInfo.SummaryCases | main.py:192-201 | every stripped pair of summaries falls into one of four cases; when both are empty the result is "Không tạo được tóm tắt." |
| CompanyInfo.SummaryOfTrimmed | main.py:192-193 | a stripped summary is empty or ends in a visible character |
| CompanyInfo.ListFieldsAt | main.py:183-189 | the list loop sets exactly the list keys, each to the merge of that key's two lists |
| CompanyInfo.MergeLists | main.py:184-189 | the loop over the list keys builds exactly those fields |
| CompanyInfo.MergeData | main.py:172-203 | `merge_data` returns the list fields and the resolved summary of the two analyses, with error markers read as empty |
| CompanyInfo.MergedKeys | main.py:180-201 | the merged record has the five list keys and "tom_tat", and no other key |
| CompanyInfo.MergedListField | main.py:184-189 | each merged list field is a strictly sorted list of exactly the non-empty strings of that key in either usable analysis |
| CompanyInfo.StringUnderListKey | main.py:186-189 | a string where a list belongs is merged through `set(...)` character by character: the merged list holds exactly its distinct characters |
| CompanyInfo.MergeIgnoresErrors | main.py:177-178 | an analysis carrying "error" merges exactly as the empty record |
| CompanyInfo.MergeListsSymmetric | main.py:186-189 | swapping the two analyses leaves every list field unchanged |
| CompanyInfo.MergeListExample | main.py:184-189 | emails ["a@x.com"] and ["b@x.com","a@x.com"] merge to ["a@x.com","b@x.com"] |
| CompanyInfo.MergeSummaryExample | main.py:192-201 | summaries "S" and "D" give the web block for S followed by the Gemini block for D |
| CompanyInfo.Row | main.py:265-287 | the row has eight cells, the company name first and the timestamp last |
| CompanyInfo.ErrorRow | main.py:265-268 | when both analyses failed, the row holds both error messages and five empty cells |
| CompanyInfo.ListCellCases | main.py:275-285 | a list cell is the placeholder for an empty list, the newline join otherwise, and splits back into the items |
| CompanyInfo.MergedRow | main.py:272-287 | otherwise the summary cell is the resolved summary and each list cell is built from the merged list |
| CompanyInfo.RowListColumn | main.py:276-285 | a list cell shows its placeholder exactly when neither usable analysis has a non-empty string under that key |
| CompanyInfo.ProcessCompany | main.py:230-289 | `process_company` writes to the sanitized "<name>.csv" the row built from the scraped analysis of the gathered context and the direct analysis; its pauses are one second per query and per unique link, then the scraped and the direct back-off waits, in that order |
| CompanyInfo.NoSearchResults | main.py:265-268 | with no search results and a failed direct analysis, the scraped analysis makes no call and the row is the error row with the no-content message |
| CompanyTrend.StripFenceCharsSpec | test.py:65 | the cleaned answer does not start with a backtick or one of j, s, o, n, and does not end with a backtick |
| CompanyTrend.FencedRoundTrip | test.py:65 | a fenced answer whose body starts with none of those characters and does not end with a backtick is cleaned to the body |
| CompanyTrend.NullLosesItsLetter | test.py:65 | the character-set strip turns the answer "null" into "ull" |
| CompanyTrend.CallWithRetry | test.py:59-75 | the retry loop returns exactly the result, calls and sleeps of the schedule: a failure without "429" returns its message with the last answer text seen so far, or "Không có phản hồi" when there was none |
| CompanyTrend.StopsAtFirstOtherFailure | test.py:72-74 | the first failure without "429" ends the loop at once, with the raw text of the latest answer |
| CompanyTrend.LastAnswerNone | test.py:74 | no raw answer exists exactly when every call so far raised |
| CompanyTrend.LastAnswerLatest | test.py:74 | the raw answer is that of the latest call that answered |
| CompanyTrend.RawResponseFromEarlierCall | test.py:62-74 | after an answer that fails to parse with "429", a later error without "429" carries the earlier answer as raw_response |
| CompanyTrend.NoAnswerNoRaw | test.py:74 | when every call raised, the error carries "Không có phản hồi" |
| CompanyTrend.ScrapedRun | test.py:81-82 | the scraped analysis calls the model exactly when the stripped context is non-empty |
| CompanyTrend.AnalyzeScraped | test.py:78-118 | a blank context gives the no-content error with no call; otherwise the result is that of the retry loop |
| CompanyTrend.UnionListSpec | test.py:157-159 | a union list is strictly sorted and holds exactly the strings of either list, the empty string included |
| CompanyTrend.UnionListSymmetric | test.py:157-159 | a union list does not depend on which source is which |
| CompanyTrend.UnionFieldsAt | test.py:155-166 | the merge loops set exactly the given keys, each to the union of that key's two lists |
| CompanyTrend.UnionLists | test.py:156-166 | each loop builds exactly those fields |
| CompanyTrend.MergeNested | test.py:146-172 | `merge_data` returns the two merged sections, with error markers read as empty |
| CompanyTrend.NestedShape | test.py:152-170 | the merge has exactly the two sections; the base section has the six base keys, and the trend section has the three trend keys plus "tom_tat_xu_huong" |
| CompanyTrend.BaseListField | test.py:155-159 | each base list is strictly sorted and holds exactly the strings of that key in either usable analysis |
| CompanyTrend.TrendListField | test.py:162-166 | each trend list is strictly sorted and holds exactly the strings of that key in either usable analysis |
| CompanyTrend.SummaryPreference | test.py:168-170 | the trend summary is the direct one when that is non-empty and the scraped one otherwise |
| CompanyTrend.NestedIgnoresErrors | test.py:149-150 | an analysis carrying "error" merges exactly as the empty record |
| CompanyTrend.BaseListsSymmetric | test.py:157-159 | swapping the analyses leaves every base list unchanged |
| CompanyTrend.TrendListsSymmetric | test.py:164-166 | swapping the analyses leaves every trend list unchanged |
| CompanyTrend.BothErrors | test.py:149-170 | two error markers merge to empty lists and an empty summary |
| CompanyTrend.EmptyStringKept | test.py:159 | [""] and ["x",""] merge to ["","x"]: the empty string survives |
| CompanyTrend.RecordShape | test.py:217-219 | the saved record has the two sections, the query name and the time, and nothing else |
| CompanyTrend.ProcessCompany | test.py:186-221 | `process_company` writes to the sanitized "<name>.json" the merge of the scraped and direct analyses, plus the name and the time; its pauses are one second per query and per unique link, then the scraped and the direct back-off waits, in that order |
| Vietnambiz.StrippedTextEmpty | crawler/vietnambiz.py:44 | `get_text(strip=True)` is empty exactly when every text node is blank |
| Vietnambiz.CompleteUrlSpec | crawler/vietnambiz.py:47 | the completed link starts with "http"; it is the href itself exactly when the href already did, and otherwise it is the site root followed by the href; completing twice changes nothing |
| Vietnambiz.LeadOfSpec | crawler/vietnambiz.py:44-49 | an anchor yields a lead exactly when its stripped title is non-empty (the url test never fails), with that title and the completed link |
| Vietnambiz.LeadsAppend | crawler/vietnambiz.py:43-49 | the leads keep anchor order: two runs of anchors give the leads of the first, then those of the second |
| Vietnambiz.LeadsSpec | crawler/vietnambiz.py:42-51 | there is at most one lead per anchor, and every lead has a non-empty title and a link starting with "http" |
| Vietnambiz.LeadsFrom | crawler/vietnambiz.py:43-49 | the leads are exactly the leads of the anchors |
| Vietnambiz.CrawlPage | crawler/vietnambiz.py:26-51 | a failed request gives no leads; otherwise the loop returns the leads of the selected anchors |
| Vietnambiz.NonBlankTextsSpec | crawler/vietnambiz.py:68-70 | the kept texts are exactly the non-blank paragraph texts, never more than the paragraphs |
| Vietnambiz.ArticleTextEmpty | crawler/vietnambiz.py:59-74 | the article text is empty exactly when the body is missing or the request failed, or every paragraph is blank |
| Vietnambiz.ArticleTextSplit | crawler/vietnambiz.py:70 | splitting the article text at newlines gives back the non-blank paragraph texts when none holds a newline |
| Vietnambiz.SummarizeWithRetry | crawler/vietnambiz.py:76-106 | the summary, calls and sleeps are those of the schedule, after the word guard |
| Vietnambiz.ShortTextNotSent | crawler/vietnambiz.py:80-81 | the model is called exactly when the text has at least fifty words, and at most three times; a short or empty text gives "Nội dung không đủ dài để tóm tắt." |
| Vietnambiz.SummarySleeps | crawler/vietnambiz.py:88-106 | the waits are 60, 120, 240, each after an error mentioning "429" or "ResourceExhausted"; three such errors give "Lỗi tóm tắt do hết giới hạn truy cập." after three calls |
| Vietnambiz.SummarySettles | crawler/vietnambiz.py:91-103 | after rate limits, an answer returns its text stripped, and any other error returns "Lỗi tóm tắt do một vấn đề không xác định.", with no further call |
| Vietnambiz.SummaryKinds | crawler/vietnambiz.py:76-106 | the summary is one of the three fixed messages or the stripped answer of the last call |

## Behaviour worth knowing

- test.py's merge keeps the empty string in its lists, because `sorted(list(s1.union(s2)))` has no filter. main.py's merge drops it.
- When both analyses fail, main.py writes an error row instead of a merged record.
- test.py's trend summary is the direct one when that is non-empty, and otherwise the scraped one, which may be "". No placeholder is used.
- test.py cleans the answer with `lstrip("```json")`. This removes any leading run of the characters `` ` ``, j, s, o and n, not the literal prefix (see `CompanyTrend.NullLosesItsLetter`). A JSON object starts with "{", so objects are unaffected.
- A string that the model's answer puts where a list belongs is merged character by character, because `set(...)` iterates it (see `CompanyInfo.StringUnderListKey`).

## Left out

- HTTP requests, the Google Custom Search API and BeautifulSoup. `search_google_for_urls`, `scrape_website_content`, the request in `crawl_vietnambiz_page` and the one in `extract_article_content` are functions given as parameters or already-parsed inputs. Their internals (the removal of script/style elements, the selectors, timeouts and status checks) are not modelled.
- The Gemini client and the prompts. A call is the reply `model(i)`. The prompt text is not modelled.
- `json.loads` is a given function. Its result is always a JSON object (Python would also accept a non-object top-level value, which the scripts then index as a dict).
- Json.GetList: the model's JSON values are strings, lists of strings and objects, with no null, number or boolean. So a list holding those cannot be given. main.py:189's `if item` drops null, 0 and False before `sorted`. main.py raises whenever a truthy non-string survives `if item`: at `sorted` when strings are also present, and otherwise at the newline join (main.py:276-280). test.py:159 raises for null or any number mixed with strings. A null, number or boolean directly under a list key makes `set(...)` raise TypeError in both scripts (main.py:186-187, test.py:157-158 and 164-165), and that error escapes `process_company`. A list holding an object or a list makes `set(...)` raise TypeError in both scripts, because those are unhashable. An object under a list key reads as [] in the model, where Python's `set(...)` takes its keys.
- Json.GetStr: a value that is not a string under a string key reads as the default. Python differs by site. `.strip()` at main.py:192-193 raises on it. test.py:168-170 stores a truthy non-string summary as it is, and null when both summaries are null. main.py:267 formats any "error" value into the message, where the model writes "N/A".
- Json.GetObj: a value that is not an object under a section key reads as {} in the model, where the chained `.get` at test.py:157-169 raises.
- `response.text` raising inside the except handler is not modelled: the text of an answer is always available.
- Whitespace for `strip()` and `split()` is the ten characters below U+0080 that Python treats as whitespace. Python also treats U+0085, U+00A0, U+1680, U+2000 to U+200A, U+2028, U+2029, U+202F, U+205F and U+3000 as whitespace, which the model does not.
- `get_text(strip=True)` is modelled as the concatenation of the stripped text nodes. Which nodes exist is decided by the parser and is an input.
- `time.sleep` is a ghost list of delays. This includes the one-second pauses between searches and between scrapes.
- `datetime.now().strftime(...)` is a timestamp parameter.
- `save_data_to_csv` and `save_data_to_json` write files. The model returns the file name and the row or record they would write. Its header row, CSV quoting, and the JSON key order and indentation, are not modelled.
- The `.env` loading, API key checks and `exit()` at start-up, and the interactive `run_manual_mode` loop, are environment handling and are left out.
- Print statements are left out.
- testt.py is not part of this model: it only calls the crawler and writes a CSV.
- utils/save_csv.py is not part of this model: it is file output.
- The crawler's summary retry is modelled. Its caller (testt.py) is not.
