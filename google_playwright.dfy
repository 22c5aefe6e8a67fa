/** The Google Trends Playwright scraper: one result per keyword, with the
    series extracted in the page, the Python fallback series when the page
    script gave nothing, and a mock series plus an error text when any step
    raised. A series is a list of values aligned with the day table. */
module GooglePlaywright {
  import opened Prelude
  import opened Text
  import opened Urls
  import opened TrendsExtraction

  const TrendsSource := "google_trends"
  const ErrorPrefix := "Scraping error: "

  /** The five selectors `extract_related_keywords` tries, in order. */
  function RelatedSelectors(keywordType: string): (sels: seq<string>)
    ensures |sels| == 5
  {
    var kind := AsciiLower(keywordType);
    ["div[title='Related " + kind + "'] + div", ".fe-related-searches", ".related-entities",
     "div:contains('Related " + kind + "')", ".trends-widget"]
  }

  /** What one selector attempt meets: the wait times out, the page script
      raises, or it returns the list of item texts. */
  datatype SelectorProbe = WaitTimedOut | ScriptRaised | Items(texts: seq<string>)

  /** `items.length` on the list the page script returns: the list reaches
      Python as a `list`, which has no `length` attribute, so the lookup
      raises AttributeError. */
  function ListLength(items: seq<string>): (r: Outcome<nat>)
    ensures r.Raised?
  {
    Raised
  }

  /** `extract_related_keywords`: waits for each selector in order. A
      non-empty item list meets `items.length`, which raises; the handler
      moves on to the next selector, so no attempt ever stores its items,
      every selector is waited for and the answer is always empty. */
  method ExtractRelatedKeywords(keywordType: string, probes: seq<SelectorProbe>)
    returns (results: seq<string>, waited: seq<string>)
    requires |probes| == |RelatedSelectors(keywordType)|
    ensures results == []
    ensures waited == RelatedSelectors(keywordType)
  {
    results := [];
    waited := [];
    var selectors := RelatedSelectors(keywordType);
    var i := 0;
    while i < |selectors|
      invariant 0 <= i <= |selectors|
      invariant results == []
      invariant waited == selectors[..i]
    {
      waited := waited + [selectors[i]];
      match probes[i] {
        case WaitTimedOut =>
        case ScriptRaised =>
        case Items(texts) =>
          if |texts| > 0 {
            match ListLength(texts) {
              case Returned(n) =>
                if n > 0 {
                  results := texts;
                  break;
                }
              case Raised =>
            }
          }
      }
      i := i + 1;
    }
  }

  /** What one keyword's scrape meets: a step before the result raised with
      the given message, or the page loaded with the given contents. */
  datatype KeywordRun =
    | Failed(message: string)
    | Loaded(page: TrendsPage, queryProbes: seq<SelectorProbe>, topicProbes: seq<SelectorProbe>)

  predicate WellFormedRun(run: KeywordRun)
  {
    run.Loaded? ==> |run.queryProbes| == 5 && |run.topicProbes| == 5
  }

  datatype Related = Related(queries: seq<string>, topics: seq<string>)

  /** A result dictionary: the related lists and screenshot are present on
      success only, the error on failure only. */
  datatype TrendsResult = TrendsResult(
    keyword: string, source: string, data: seq<int>,
    related: Option<Related>, screenshot: Option<string>, error: Option<string>)

  predicate InRange(data: seq<int>)
  {
    forall i :: 0 <= i < |data| ==> 0 <= data[i] <= 100
  }

  /** The series the row matching produces before filling. */
  function Applied(keys: seq<string>, year: nat, page: TrendsPage): seq<int>
  {
    RowsApplied(keys, year, page.rows, seq(|keys|, _ => 0))
  }

  /** What the result for one keyword must be. */
  predicate ResultFor(keyword: string, keys: seq<string>, year: nat, run: KeywordRun, res: TrendsResult)
  {
    res.keyword == keyword && res.source == TrendsSource && |res.data| == |keys|
    && match run
       case Failed(message) =>
         res.error == Some(ErrorPrefix + message) && res.related.None? && res.screenshot.None? && InRange(res.data)
       case Loaded(page, _, _) =>
         res.error.None? && res.screenshot == Some(TrendsScreenshotPath(keyword))
         && res.related == Some(Related([], []))
         && if !page.scriptRaises && page.hasChart && AnyPositive(Applied(keys, year, page))
            then res.data == ForwardFilled(Applied(keys, year, page))
            else InRange(res.data)
  }

  /** The body of the per-keyword `try`. */
  method ScrapeKeyword(keyword: string, keys: seq<string>, year: nat, run: KeywordRun) returns (res: TrendsResult)
    requires WellFormedRun(run)
    ensures ResultFor(keyword, keys, year, run, res)
  {
    match run
    case Failed(message) =>
      var mock := ClampedSeries(|keys|);
      res := TrendsResult(keyword, TrendsSource, mock, None, None, Some(ErrorPrefix + message));
    case Loaded(page, queryProbes, topicProbes) =>
      var screenshotPath := TrendsScreenshotPath(keyword);
      var trendData := ExtractInPage(keys, year, page);
      var relatedQueries, _ := ExtractRelatedKeywords("QUERIES", queryProbes);
      var relatedTopics, _ := ExtractRelatedKeywords("TOPICS", topicProbes);
      var data: seq<int>;
      if trendData.None? {
        data := ClampedSeries(|keys|);
      } else {
        data := trendData.value;
      }
      res := TrendsResult(keyword, TrendsSource, data, Some(Related(relatedQueries, relatedTopics)),
                          Some(screenshotPath), None);
  }

  /** `scrape`: the session is initialised first, outside the per-keyword
      handler, so a failing initialisation raises; otherwise there is one
      result per keyword, in order. */
  method Scrape(keywords: seq<string>, keys: seq<string>, year: nat, initOk: bool, runs: seq<KeywordRun>)
    returns (r: Outcome<seq<TrendsResult>>)
    requires |runs| == |keywords|
    requires forall i :: 0 <= i < |runs| ==> WellFormedRun(runs[i])
    ensures r.Returned? <==> initOk
    ensures r.Returned? ==> |r.value| == |keywords|
    ensures r.Returned? ==> forall i :: 0 <= i < |keywords| ==> ResultFor(keywords[i], keys, year, runs[i], r.value[i])
  {
    if !initOk {
      return Raised;
    }
    var results: seq<TrendsResult> := [];
    var i := 0;
    while i < |keywords|
      invariant 0 <= i <= |keywords| && |results| == i
      invariant forall j :: 0 <= j < i ==> ResultFor(keywords[j], keys, year, runs[j], results[j])
    {
      var res := ScrapeKeyword(keywords[i], keys, year, runs[i]);
      results := results + [res];
      i := i + 1;
    }
    r := Returned(results);
  }

  /** Every series a result carries is either the filled extracted one or
      lies in 0..100; with a well-formed day table it always has 91 values. */
  lemma ResultSeriesShape(keyword: string, keys: seq<string>, year: nat, run: KeywordRun, res: TrendsResult)
    requires ValidDayTable(keys) && ResultFor(keyword, keys, year, run, res)
    ensures |res.data| == 91
    ensures res.error.Some? ==> InRange(res.data) && res.error.value[..|ErrorPrefix|] == ErrorPrefix
    ensures forall i :: 0 <= i < |res.data| ==> res.data[i] >= 0
  {
    if run.Loaded? && !run.page.scriptRaises && run.page.hasChart && AnyPositive(Applied(keys, year, run.page)) {
      var applied := Applied(keys, year, run.page);
      forall j | 0 <= j < |applied| ensures applied[j] >= 0 {
        AppliedNonNegative(keys, year, run.page.rows, j);
      }
      forall i | 0 <= i < |res.data| ensures res.data[i] >= 0 {
        FilledNonNegative(applied, i);
      }
    }
  }

  /** Row values are digit strings, so an applied series is never negative. */
  lemma {:induction false} AppliedNonNegative(keys: seq<string>, year: nat, rows: seq<string>, j: nat)
    requires j < |keys|
    ensures RowsApplied(keys, year, rows, seq(|keys|, _ => 0))[j] >= 0
  {
    var zeros := seq(|keys|, _ => 0);
    if RowsApplied(keys, year, rows, zeros)[j] != zeros[j] {
      RowsAppliedChangesOnlyKeys(keys, year, rows, zeros, j);
    }
  }

  /** Filling copies values, so a non-negative series stays non-negative. */
  lemma FilledNonNegative(s: seq<int>, i: nat)
    requires i < |s| && forall j :: 0 <= j < |s| ==> s[j] >= 0
    ensures ForwardFilled(s)[i] >= 0
  {
    if s[i] == 0 && LastNonzero(s[..i]) != 0 {
      LastNonzeroIsEntry(s[..i]);
    }
  }
}
