/** The news scraper: mock articles only, `limit` per keyword, with a drawn
    outlet and sentiment. */
module NewsScraperModel {
  import opened Prelude
  import opened Text
  import opened MockCommon

  const NewsSource := "news"
  const NewsOutlets := ["CNN", "BBC", "Reuters", "Bloomberg", "The Guardian", "New York Times", "Washington Post"]
  const Sentiments := ["positive", "neutral", "negative"]

  datatype Article = Article(
    title: string, description: string, outlet: string, publishedAt: string, url: string, sentiment: string)

  function ArticleTitle(keyword: string, i: nat): (t: string)
    ensures Contains(t, keyword)
  {
    var tail := " hakkında son gelişmeler " + NatToString(i);
    ContainsMiddle("Haber: ", keyword, tail);
    "Haber: " + keyword + tail
  }

  function ArticleDescription(keyword: string, i: nat): (t: string)
    ensures Contains(t, keyword)
  {
    var tail := " ile ilgili önemli gelişmeler yaşanıyor. Bu gelişme " + NatToString(i) + " numaralı gelişme.";
    ContainsMiddle("", keyword, tail);
    assert "" + keyword + tail == keyword + tail;
    keyword + tail
  }

  function ArticleUrl(i: nat): string
  {
    "https://example-news.com/article" + NatToString(i)
  }

  /** The i-th article of a keyword: its fixed fields, an outlet from the
      list and one of the three sentiments. */
  predicate ArticleOf(keyword: string, i: nat, a: Article)
  {
    a.title == ArticleTitle(keyword, i)
    && a.description == ArticleDescription(keyword, i)
    && a.outlet in NewsOutlets
    && a.publishedAt == PaddedStamp(i)
    && a.url == ArticleUrl(i)
    && a.sentiment in Sentiments
  }

  /** One iteration of the inner loop. */
  method DrawArticle(keyword: string, i: nat) returns (a: Article)
    ensures ArticleOf(keyword, i, a)
  {
    var outlet := Choice(NewsOutlets);
    var sentiment := Choice(Sentiments);
    a := Article(ArticleTitle(keyword, i), ArticleDescription(keyword, i), outlet, PaddedStamp(i), ArticleUrl(i), sentiment);
  }

  /** The inner loop: `for i in range(limit)`. */
  method Articles(keyword: string, limit: int) returns (articles: seq<Article>)
    ensures |articles| == RangeCount(limit)
    ensures forall i :: 0 <= i < |articles| ==> ArticleOf(keyword, i, articles[i])
  {
    articles := [];
    var i := 0;
    while i < limit
      invariant 0 <= i && |articles| == i && (limit >= 0 ==> i <= limit) && (limit < 0 ==> i == 0)
      invariant forall j :: 0 <= j < i ==> ArticleOf(keyword, j, articles[j])
    {
      var a := DrawArticle(keyword, i);
      articles := articles + [a];
      i := i + 1;
    }
  }

  /** The result of one keyword. */
  predicate ResultOf(keyword: string, limit: int, r: ScrapeResult<Article>)
  {
    r.keyword == keyword && r.source == NewsSource && r.error.None? && r.data.Some?
    && |r.data.value| == RangeCount(limit)
    && forall i :: 0 <= i < |r.data.value| ==> ArticleOf(keyword, i, r.data.value[i])
  }

  /** `scrape`: one result per keyword, in order, never an error. */
  method Scrape(keywords: seq<string>, limit: int) returns (results: seq<ScrapeResult<Article>>)
    ensures |results| == |keywords|
    ensures forall k :: 0 <= k < |keywords| ==> ResultOf(keywords[k], limit, results[k])
  {
    results := [];
    var k := 0;
    while k < |keywords|
      invariant 0 <= k <= |keywords| && |results| == k
      invariant forall j :: 0 <= j < k ==> ResultOf(keywords[j], limit, results[j])
    {
      var articles := Articles(keywords[k], limit);
      results := results + [ScrapeResult(keywords[k], NewsSource, Some(articles), None)];
      k := k + 1;
    }
  }

  /** Every article of a result mentions its keyword in both title and
      description, and articles with the same url are the same article. */
  lemma ArticlesIdentified(keyword: string, limit: int, r: ScrapeResult<Article>)
    requires ResultOf(keyword, limit, r)
    ensures forall i :: 0 <= i < |r.data.value| ==> Contains(r.data.value[i].title, keyword) && Contains(r.data.value[i].description, keyword)
    ensures forall i, j :: 0 <= i < |r.data.value| && 0 <= j < |r.data.value| && r.data.value[i].url == r.data.value[j].url ==> i == j
  {
    var d := r.data.value;
    forall i | 0 <= i < |d| ensures Contains(d[i].title, keyword) && Contains(d[i].description, keyword) {
      assert ArticleOf(keyword, i, d[i]);
    }
    forall i, j | 0 <= i < |d| && 0 <= j < |d| && d[i].url == d[j].url ensures i == j {
      assert ArticleOf(keyword, i, d[i]) && ArticleOf(keyword, j, d[j]);
      TrailingIndexDetermines("https://example-news.com/article", i, j);
    }
  }

  /** For the first 99 articles, `published_at` carries the day i + 1 as two
      digits. */
  lemma PublishedDay(keyword: string, i: nat, a: Article)
    requires ArticleOf(keyword, i, a) && i < 99
    ensures |a.publishedAt| == 20 && AllDigits(a.publishedAt[8..10]) && DigitsValue(a.publishedAt[8..10]) == i + 1
  {
    PaddedStampDay(i);
  }
}
