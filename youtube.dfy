/** The YouTube scraper: mock videos only, `limit` per keyword, with drawn
    counts. */
module YouTubeScraperModel {
  import opened Prelude
  import opened Text
  import opened MockCommon

  const YouTubeSource := "youtube"
  const WatchPrefix := "https://youtube.com/watch?v="

  datatype Video = Video(
    id: string, title: string, viewCount: int, likeCount: int, commentCount: int,
    channel: string, publishedAt: string, url: string)

  function VideoId(keyword: string, i: nat): string
  {
    "video_" + NatToString(i) + "_" + Underscored(keyword)
  }

  /** The i-th video of a keyword: its fixed fields, counts within the drawn
      ranges, and a url that ends with the video's own id. */
  predicate VideoOf(keyword: string, i: nat, v: Video)
  {
    v.id == VideoId(keyword, i)
    && v.title == "YouTube: " + keyword + " hakkında video " + NatToString(i)
    && 1000 <= v.viewCount <= 1000000 && 100 <= v.likeCount <= 50000 && 10 <= v.commentCount <= 5000
    && v.channel == "Channel" + NatToString(i)
    && v.publishedAt == PaddedStamp(i)
    && v.url == WatchPrefix + v.id
  }

  /** One iteration of the inner loop. */
  method DrawVideo(keyword: string, i: nat) returns (v: Video)
    ensures VideoOf(keyword, i, v)
  {
    var vidId := VideoId(keyword, i);
    var views := RandInt(1000, 1000000);
    var likes := RandInt(100, 50000);
    var comments := RandInt(10, 5000);
    v := Video(vidId, "YouTube: " + keyword + " hakkında video " + NatToString(i), views, likes, comments,
               "Channel" + NatToString(i), PaddedStamp(i), WatchPrefix + vidId);
  }

  /** The inner loop: `for i in range(limit)`. */
  method Videos(keyword: string, limit: int) returns (videos: seq<Video>)
    ensures |videos| == RangeCount(limit)
    ensures forall i :: 0 <= i < |videos| ==> VideoOf(keyword, i, videos[i])
  {
    videos := [];
    var i := 0;
    while i < limit
      invariant 0 <= i && |videos| == i && (limit >= 0 ==> i <= limit) && (limit < 0 ==> i == 0)
      invariant forall j :: 0 <= j < i ==> VideoOf(keyword, j, videos[j])
    {
      var v := DrawVideo(keyword, i);
      videos := videos + [v];
      i := i + 1;
    }
  }

  /** The result of one keyword. */
  predicate ResultOf(keyword: string, limit: int, r: ScrapeResult<Video>)
  {
    r.keyword == keyword && r.source == YouTubeSource && r.error.None? && r.data.Some?
    && |r.data.value| == RangeCount(limit)
    && forall i :: 0 <= i < |r.data.value| ==> VideoOf(keyword, i, r.data.value[i])
  }

  /** `scrape`: one result per keyword, in order, never an error. */
  method Scrape(keywords: seq<string>, limit: int) returns (results: seq<ScrapeResult<Video>>)
    ensures |results| == |keywords|
    ensures forall k :: 0 <= k < |keywords| ==> ResultOf(keywords[k], limit, results[k])
  {
    results := [];
    var k := 0;
    while k < |keywords|
      invariant 0 <= k <= |keywords| && |results| == k
      invariant forall j :: 0 <= j < k ==> ResultOf(keywords[j], limit, results[j])
    {
      var videos := Videos(keywords[k], limit);
      results := results + [ScrapeResult(keywords[k], YouTubeSource, Some(videos), None)];
      k := k + 1;
    }
  }

  /** Within one result, videos with the same id, or the same url, are the
      same video; and the id can be read back off the url. */
  lemma VideosIdentified(keyword: string, limit: int, r: ScrapeResult<Video>)
    requires ResultOf(keyword, limit, r)
    ensures forall i :: 0 <= i < |r.data.value| ==> r.data.value[i].url[|WatchPrefix|..] == r.data.value[i].id
    ensures forall i, j :: 0 <= i < |r.data.value| && 0 <= j < |r.data.value| && r.data.value[i].url == r.data.value[j].url ==> i == j
  {
    var d := r.data.value;
    forall i | 0 <= i < |d| ensures d[i].url[|WatchPrefix|..] == d[i].id {
      assert VideoOf(keyword, i, d[i]);
    }
    forall i, j | 0 <= i < |d| && 0 <= j < |d| && d[i].url == d[j].url ensures i == j {
      assert VideoOf(keyword, i, d[i]) && VideoOf(keyword, j, d[j]);
      assert d[i].id == d[i].url[|WatchPrefix|..] == d[j].url[|WatchPrefix|..] == d[j].id;
      IndexedNameDetermines("video_", i, j, '_', Underscored(keyword));
    }
  }

  /** For the first 99 videos, `published_at` carries the day i + 1 as two
      digits. */
  lemma PublishedDay(keyword: string, i: nat, v: Video)
    requires VideoOf(keyword, i, v) && i < 99
    ensures |v.publishedAt| == 20 && AllDigits(v.publishedAt[8..10]) && DigitsValue(v.publishedAt[8..10]) == i + 1
  {
    PaddedStampDay(i);
  }
}
