/** Scraper dispatch: `get_scraper` maps a source configuration's name and
    scrape method to one of a closed set of scraper kinds. */
module Dispatch {
  import opened Prelude
  import opened Text

  datatype ScraperKind =
    | GoogleTrendsPlaywright | TwitterPlaywright
    | GoogleTrends | Twitter | Reddit | HackerNews | Instagram | YouTube
    | News | Pinterest | LinkedIn | Amazon | Ebay | Otto

  /** The two keys of a source configuration that dispatch reads; None is a
      missing key. */
  datatype SourceConfig = SourceConfig(name: Option<string>, scrapeMethod: Option<string>)

  predicate IsPlaywrightKind(k: ScraperKind)
  {
    k == GoogleTrendsPlaywright || k == TwitterPlaywright
  }

  /** `source_config.get("name", "").lower()`. */
  function SourceType(c: SourceConfig): string
  {
    AsciiLower(if c.name.Some? then c.name.value else "")
  }

  /** `source_config.get("scrape_method", "playwright").lower()`. */
  function ScrapeMethod(c: SourceConfig): string
  {
    AsciiLower(if c.scrapeMethod.Some? then c.scrapeMethod.value else "playwright")
  }

  /** The "api" branch and the branch for every other method: twelve named
      sources, anything else TwitterScraper. */
  function ApiScraper(sourceType: string): ScraperKind
  {
    if sourceType == "google_trends" then GoogleTrends
    else if sourceType == "twitter" then Twitter
    else if sourceType == "reddit" then Reddit
    else if sourceType == "hackernews" then HackerNews
    else if sourceType == "instagram" then Instagram
    else if sourceType == "youtube" then YouTube
    else if sourceType == "news" then News
    else if sourceType == "pinterest" then Pinterest
    else if sourceType == "linkedin" then LinkedIn
    else if sourceType == "amazon" then Amazon
    else if sourceType == "ebay" then Ebay
    else if sourceType == "otto" then Otto
    else Twitter
  }

  /** `get_scraper`: the if/elif chain, with the "api" branch and the
      catch-all branch written out separately as the source has them. */
  function GetScraper(c: SourceConfig): ScraperKind
  {
    var sourceType := SourceType(c);
    var scrapeMethod := ScrapeMethod(c);
    if scrapeMethod == "playwright" then
      if sourceType == "google_trends" then GoogleTrendsPlaywright
      else if sourceType == "twitter" then TwitterPlaywright
      else TwitterPlaywright
    else if scrapeMethod == "api" then
      ApiScraper(sourceType)
    else
      ApiScraper(sourceType)
  }

  /** Reference table for the non-Playwright methods: each named source maps
      to its own scraper. */
  const ApiTable: map<string, ScraperKind> := map[
    "google_trends" := GoogleTrends, "twitter" := Twitter, "reddit" := Reddit,
    "hackernews" := HackerNews, "instagram" := Instagram, "youtube" := YouTube,
    "news" := News, "pinterest" := Pinterest, "linkedin" := LinkedIn,
    "amazon" := Amazon, "ebay" := Ebay, "otto" := Otto]

  /** Under "playwright" (also when the method is missing) only the two
      Playwright scrapers are chosen: Google Trends for "google_trends" and
      the Twitter Playwright scraper for every other name. */
  lemma PlaywrightDispatch(c: SourceConfig)
    requires ScrapeMethod(c) == "playwright"
    ensures IsPlaywrightKind(GetScraper(c))
    ensures GetScraper(c) == GoogleTrendsPlaywright <==> SourceType(c) == "google_trends"
  {
  }

  /** A missing method means "playwright", and a missing name means "", which
      falls back to the Twitter Playwright scraper. */
  lemma MissingKeysDefault()
    ensures GetScraper(SourceConfig(None, None)) == TwitterPlaywright
  {
    assert SourceType(SourceConfig(None, None)) == "";
    assert ScrapeMethod(SourceConfig(None, None)) == "playwright";
  }

  /** Every method other than "playwright" dispatches through the reference
      table, with TwitterScraper for any name outside it. */
  lemma {:induction false} NonPlaywrightMatchesTable(c: SourceConfig)
    requires ScrapeMethod(c) != "playwright"
    ensures GetScraper(c) == if SourceType(c) in ApiTable then ApiTable[SourceType(c)] else Twitter
    ensures !IsPlaywrightKind(GetScraper(c))
  {
    var t := SourceType(c);
    if t !in ApiTable {
      assert t != "google_trends" && t != "twitter" && t != "reddit" && t != "hackernews";
      assert t != "instagram" && t != "youtube" && t != "news" && t != "pinterest";
      assert t != "linkedin" && t != "amazon" && t != "ebay" && t != "otto";
    }
  }

  /** "api", "mock", "simple" and every other non-Playwright method resolve
      alike for the same name. */
  lemma NonPlaywrightMethodsAgree(c: SourceConfig, d: SourceConfig)
    requires ScrapeMethod(c) != "playwright" && ScrapeMethod(d) != "playwright"
    requires SourceType(c) == SourceType(d)
    ensures GetScraper(c) == GetScraper(d)
  {
    NonPlaywrightMatchesTable(c);
    NonPlaywrightMatchesTable(d);
  }

  /** Dispatch is case-insensitive: lower-casing the name and the method
      beforehand changes nothing. */
  lemma CaseInsensitive(c: SourceConfig)
    ensures var lowered := SourceConfig(
        if c.name.Some? then Some(AsciiLower(c.name.value)) else None,
        if c.scrapeMethod.Some? then Some(AsciiLower(c.scrapeMethod.value)) else None);
      GetScraper(lowered) == GetScraper(c)
  {
    var lowered := SourceConfig(
      if c.name.Some? then Some(AsciiLower(c.name.value)) else None,
      if c.scrapeMethod.Some? then Some(AsciiLower(c.scrapeMethod.value)) else None);
    if c.name.Some? {
      AsciiLowerIdempotent(c.name.value);
    }
    if c.scrapeMethod.Some? {
      AsciiLowerIdempotent(c.scrapeMethod.value);
    }
    assert SourceType(lowered) == SourceType(c);
    assert ScrapeMethod(lowered) == ScrapeMethod(c);
  }
}
