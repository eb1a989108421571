/**
 * The web-search service of the backend (backend/src/services/webSearchService.ts):
 * the trigger test that decides whether a message needs fresh information,
 * the mock search that returns up to three canned results about the query,
 * and the summary text built from the results. The clock reading is a
 * parameter and the locale date rendering a function parameter; the thrown
 * failure of the search is the flag `failed`.
 */
module WebSearch {
  import opened Wrappers
  import opened Text
  import opened Decimal

  /** `WebSearchResult`. */
  datatype WebSearchResult = WebSearchResult(title: string, url: string, snippet: string, publishedDate: Option<string>)

  /** `WebSearchResponse`; the timestamp is a clock reading in milliseconds. */
  datatype WebSearchResponse = WebSearchResponse(query: string, results: seq<WebSearchResult>, timestamp: int)

  /** The three canned results, in their fixed order, about `query`. */
  function MockResults(query: string): (rs: seq<WebSearchResult>)
    ensures |rs| == 3
    ensures forall i :: 0 <= i < |rs| ==> |query| <= |rs[i].title| && rs[i].title[..|query|] == query
    ensures forall i :: 0 <= i < |rs| ==> |query| <= |rs[i].snippet| && rs[i].snippet[..|query|] == query
  {
    [ WebSearchResult(query + "に関する最新情報 - 2025年版", "https://example.com/latest-info",
                      query + "についての2025年最新の動向とトレンド。業界エキスパートによる詳細な分析と将来予測を含む。",
                      Some("2025-08-14")),
      WebSearchResult(query + "の実践ガイド - 専門家が解説", "https://example.com/practical-guide",
                      query + "を効果的に活用するための実践的なアプローチ。成功事例とベストプラクティスを交えた包括的なガイド。",
                      Some("2025-08-13")),
      WebSearchResult(query + "の最新研究と市場動向", "https://example.com/market-trends",
                      query + "に関する最新の学術研究と市場分析。データドリブンな洞察と今後の展望について。",
                      Some("2025-08-12")) ]
  }

  /** Where JavaScript's `s.slice(0, end)` stops: a negative end counts from the back. */
  function SliceEnd(len: nat, end: int): (n: nat)
    ensures n <= len
    ensures 0 <= end ==> n == if end < len then end else len
    ensures end < 0 ==> n == if len + end > 0 then len + end else 0
  {
    if end < 0 then (if len + end > 0 then len + end else 0)
    else if end < len then end
    else len
  }

  /**
   * `search(query, maxResults)` at clock `now`: the canned results cut to
   * `maxResults`, or no results when the search throws.
   */
  function Search(query: string, now: int, failed: bool, maxResults: int := 5): (r: WebSearchResponse)
    ensures r.query == query && r.timestamp == now
    ensures failed ==> r.results == []
    ensures !failed ==> |r.results| == SliceEnd(3, maxResults)
    ensures !failed ==> r.results == MockResults(query)[..|r.results|]
  {
    if failed then WebSearchResponse(query, [], now)
    else WebSearchResponse(query, MockResults(query)[..SliceEnd(3, maxResults)], now)
  }

  /** With a non-negative limit, a successful search returns min(3, limit) results. */
  lemma SearchCount(query: string, now: int, maxResults: nat)
    ensures |Search(query, now, false, maxResults).results| == if maxResults < 3 then maxResults else 3
  {
  }

  /** The default limit of five keeps all three canned results, in order. */
  lemma SearchDefaultKeepsAll(query: string, now: int)
    ensures Search(query, now, false).results == MockResults(query)
  {
  }

  /** The text returned when there is nothing to summarise. */
  const NoInformation: string := "最新の情報を取得できませんでした。"

  /** The summary's first line, for the rendered date. */
  function Header(date: string): string {
    "最新情報（" + date + "時点）:"
  }

  /** The summary line of the result at `index` (counted from zero, printed from one). */
  function SummaryLine(index: nat, result: WebSearchResult): string {
    NatToString(index + 1) + ". " + result.title + ": " + result.snippet
  }

  /** One summary line per result, numbered in order. */
  function SummaryLines(results: seq<WebSearchResult>): (lines: seq<string>)
    ensures |lines| == |results|
    ensures forall i :: 0 <= i < |results| ==> lines[i] == SummaryLine(i, results[i])
  {
    seq(|results|, i requires 0 <= i < |results| => SummaryLine(i, results[i]))
  }

  /**
   * `summarizeResults(response)`; `localeDate` renders a clock reading as
   * `toLocaleDateString` does.
   */
  function SummarizeResults(response: WebSearchResponse, localeDate: int -> string): string {
    if |response.results| == 0 then NoInformation
    else Header(localeDate(response.timestamp)) + "\n" + Join(SummaryLines(response.results), "\n")
  }

  /** A failed search is summarised as the fixed "no information" text. */
  lemma FailedSearchSummary(query: string, now: int, maxResults: int, localeDate: int -> string)
    ensures SummarizeResults(Search(query, now, true, maxResults), localeDate) == NoInformation
  {
  }

  /** A single result gives the header and the line numbered 1. */
  lemma SummarizeOne(query: string, result: WebSearchResult, now: int, localeDate: int -> string)
    ensures SummarizeResults(WebSearchResponse(query, [result], now), localeDate)
            == Header(localeDate(now)) + "\n" + "1. " + result.title + ": " + result.snippet
  {
    assert SummaryLines([result]) == [SummaryLine(0, result)];
    assert NatToString(1) == "1";
  }

  /**
   * One more result adds exactly one line at the end, numbered one past the
   * previous count; the summary of n results is the header and n numbered lines.
   */
  lemma {:induction false} SummarizeSnoc(query: string, results: seq<WebSearchResult>, result: WebSearchResult,
                                        now: int, localeDate: int -> string)
    requires results != []
    ensures SummarizeResults(WebSearchResponse(query, results + [result], now), localeDate)
            == SummarizeResults(WebSearchResponse(query, results, now), localeDate)
               + "\n" + SummaryLine(|results|, result)
  {
    var lines, line := SummaryLines(results), SummaryLine(|results|, result);
    var more := SummaryLines(results + [result]);
    assert more == lines + [line] by {
      assert |more| == |lines + [line]|;
      forall i | 0 <= i < |more| ensures more[i] == (lines + [line])[i] {
        if i < |results| {
          assert (results + [result])[i] == results[i];
        }
      }
    }
    JoinSnoc(lines, "\n", line);
    var h := Header(localeDate(now)) + "\n";
    calc {
      SummarizeResults(WebSearchResponse(query, results + [result], now), localeDate);
      h + Join(lines + [line], "\n");
      h + (Join(lines, "\n") + "\n" + line);
      { assert h + (Join(lines, "\n") + "\n" + line) == (h + Join(lines, "\n")) + "\n" + line; }
      SummarizeResults(WebSearchResponse(query, results, now), localeDate) + "\n" + line;
    }
  }

  /** A non-empty summary starts with its header line. */
  lemma SummaryStartsWithHeader(response: WebSearchResponse, localeDate: int -> string)
    requires response.results != []
    ensures var h := Header(localeDate(response.timestamp)) + "\n";
            |h| <= |SummarizeResults(response, localeDate)| && SummarizeResults(response, localeDate)[..|h|] == h
  {
  }

  /** The triggers of `shouldPerformSearch`. */
  function SearchTriggers(): seq<string> {
    ["最新", "現在", "今", "トレンド", "2024", "2025", "最近", "新しい", "アップデート", "変化", "動向"]
  }

  /** `shouldPerformSearch(message)`. */
  predicate ShouldPerformSearch(message: string) {
    ContainsSome(Lower(message), SearchTriggers())
  }

  /** The triggers have no capitals, so the test is a substring test on the lowered message. */
  lemma ShouldPerformSearchIff(message: string)
    ensures ShouldPerformSearch(message) <==>
              exists k :: 0 <= k < |SearchTriggers()| && Contains(Lower(message), SearchTriggers()[k])
  {
    forall k | 0 <= k < |SearchTriggers()| ensures Lower(SearchTriggers()[k]) == SearchTriggers()[k] {
      LowerWithoutCapitals(SearchTriggers()[k]);
    }
  }

  /** '最新のAI' asks for fresh information. */
  lemma ShouldPerformSearchExample()
    ensures ShouldPerformSearch("最新のAI")
  {
    ShouldPerformSearchIff("最新のAI");
    var m := Lower("最新のAI");
    assert m[0] == '最' && m[1] == '新';
    assert m[0..2] == SearchTriggers()[0];
    OccurrenceContained(m, SearchTriggers()[0], 0);
  }

  /** 'こんにちは' does not. */
  lemma NoSearchExample()
    ensures !ShouldPerformSearch("こんにちは")
  {
    ShouldPerformSearchIff("こんにちは");
    LowerWithoutCapitals("こんにちは");
    forall k | 0 <= k < |SearchTriggers()| ensures !Contains("こんにちは", SearchTriggers()[k]) {
      AbsentCharNotContained("こんにちは", SearchTriggers()[k], 0);
    }
  }
}
