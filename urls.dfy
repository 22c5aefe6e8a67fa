/** URL and screenshot-file naming for Google Trends and Twitter searches,
    shared by the hybrid manager and the two Playwright scrapers. Keywords are
    encoded by replacing spaces only. */
module Urls {
  import opened Text

  /** Google Trends keyword encoding: `keyword.replace(" ", "+")`. */
  function PlusEncode(keyword: string): (e: string)
    ensures ' ' !in e
  {
    ReplaceChar(keyword, ' ', "+")
  }

  /** Twitter keyword (and Trends timeframe) encoding: `replace(" ", "%20")`. */
  function Percent20Encode(s: string): (e: string)
    ensures ' ' !in e
  {
    ReplaceChar(s, ' ', "%20")
  }

  /** Reads "%20" back as a space; the partner of Percent20Encode. */
  function Percent20Decode(s: string): string
  {
    if |s| >= 3 && s[..3] == "%20" then " " + Percent20Decode(s[3..])
    else if s == [] then []
    else [s[0]] + Percent20Decode(s[1..])
  }

  /** A keyword without '+' is recovered from its Trends encoding. */
  lemma PlusEncodeRoundTrip(keyword: string)
    requires '+' !in keyword
    ensures ReplaceChar(PlusEncode(keyword), '+', " ") == keyword
  {
    ReplaceCharRoundTrip(keyword, ' ', '+');
  }

  /** A keyword without '%' is recovered from its Twitter encoding. */
  lemma {:induction false} Percent20RoundTrip(s: string)
    requires '%' !in s
    ensures Percent20Decode(Percent20Encode(s)) == s
  {
    if s != [] {
      var head := if s[0] == ' ' then "%20" else [s[0]];
      var tail := Percent20Encode(s[1..]);
      assert Percent20Encode(s) == head + tail;
      Percent20RoundTrip(s[1..]);
      if s[0] == ' ' {
        assert (head + tail)[..3] == "%20" && (head + tail)[3..] == tail;
      } else {
        assert (head + tail)[0] == s[0] && (head + tail)[1..] == tail;
      }
    }
  }

  /** `get_google_trends_data`'s explore URL. */
  function ManagerTrendsUrl(keyword: string, country: string, timeframe: string): string
  {
    "https://trends.google.com/trends/explore?date=" + Percent20Encode(timeframe)
      + "&geo=" + country + "&q=" + PlusEncode(keyword) + "&hl=tr"
  }

  /** The Trends Playwright scraper's URL: last three months, Turkey. */
  function ScraperTrendsUrl(keyword: string): string
  {
    "https://trends.google.com.tr/trends/explore?date=today%203-m&geo=TR&q=" + PlusEncode(keyword) + "&hl=tr"
  }

  /** Twitter search URL, top results. */
  function TwitterSearchUrl(keyword: string): string
  {
    "https://twitter.com/search?q=" + Percent20Encode(keyword) + "&src=typed_query&f=top"
  }

  /** The manager's and the scraper's Trends screenshot file. */
  function TrendsScreenshotPath(keyword: string): (path: string)
    ensures ' ' !in path
    ensures "google_trends_" <= path && |path| == |keyword| + 18
    ensures path[|path| - 4..] == ".png"
  {
    UnderscoreLength(keyword);
    "google_trends_" + ReplaceChar(keyword, ' ', "_") + ".png"
  }

  /** The manager's and the scraper's Twitter screenshot file. */
  function TwitterScreenshotPath(keyword: string): (path: string)
    ensures ' ' !in path
    ensures "twitter_" <= path && |path| == |keyword| + 12
    ensures path[|path| - 4..] == ".png"
  {
    UnderscoreLength(keyword);
    "twitter_" + ReplaceChar(keyword, ' ', "_") + ".png"
  }

  /** Replacing spaces by underscores keeps the length. */
  lemma {:induction false} UnderscoreLength(s: string)
    ensures |ReplaceChar(s, ' ', "_")| == |s|
  {
    if s != [] {
      UnderscoreLength(s[1..]);
    }
  }

  /** The screenshot name determines the keyword when the keyword has no
      underscore. */
  lemma TrendsScreenshotDeterminesKeyword(a: string, b: string)
    requires '_' !in a && '_' !in b
    requires TrendsScreenshotPath(a) == TrendsScreenshotPath(b)
    ensures a == b
  {
    var ea := ReplaceChar(a, ' ', "_");
    var eb := ReplaceChar(b, ' ', "_");
    assert ea == TrendsScreenshotPath(a)[14..|TrendsScreenshotPath(a)| - 4];
    assert eb == TrendsScreenshotPath(b)[14..|TrendsScreenshotPath(b)| - 4];
    ReplaceCharRoundTrip(a, ' ', '_');
    ReplaceCharRoundTrip(b, ' ', '_');
  }
}
