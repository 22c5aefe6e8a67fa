/** The Hacker News scraper: one search per keyword; the hits of a 200
    reply, and five fixed mock hits on any other status or on an exception.
    Every result carries data and none carries an error. */
module HackerNewsScraperModel {
  import opened Prelude
  import opened Text
  import opened MockCommon

  const HackerNewsSource := "hackernews"

  datatype Hit = Hit(title: string, points: int, numComments: int, url: string, createdAt: string)

  /** The i-th mock hit: points twice its comment count, both growing with
      i, a title naming the keyword and an item url naming i. */
  function MockHit(keyword: string, i: nat): (h: Hit)
    ensures h.points == 10 * (i + 1) && h.numComments == 5 * (i + 1)
    ensures Contains(h.title, keyword)
  {
    var tail := " hakkında örnek başlık " + NatToString(i);
    ContainsMiddle("HackerNews: ", keyword, tail);
    Hit("HackerNews: " + keyword + tail, 10 * (i + 1), 5 * (i + 1),
        "https://news.ycombinator.com/item?id=" + NatToString(i), ZeroPrefixedStamp(i))
  }

  /** The five mock hits of a keyword. */
  function MockHits(keyword: string): (hs: seq<Hit>)
    ensures |hs| == 5 && forall j :: 0 <= j < 5 ==> hs[j] == MockHit(keyword, j)
  {
    seq(5, j requires 0 <= j => MockHit(keyword, j))
  }

  /** Different mock hits have different urls. */
  lemma MockHitUrlsDistinct(keyword: string, i: nat, j: nat)
    requires MockHit(keyword, i).url == MockHit(keyword, j).url
    ensures i == j
  {
    TrailingIndexDetermines("https://news.ycombinator.com/item?id=", i, j);
  }

  /** What one keyword's search meets: a reply with a status and, for 200,
      the hits of its JSON; or an exception. */
  datatype SearchReply = Reply(status: int, hits: seq<Hit>) | SearchRaised

  /** The hits reported for one keyword. */
  function HitsFor(keyword: string, reply: SearchReply): seq<Hit>
  {
    if reply.Reply? && reply.status == 200 then reply.hits else MockHits(keyword)
  }

  /** The mock loop of either handler. */
  method BuildMockHits(keyword: string) returns (hits: seq<Hit>)
    ensures hits == MockHits(keyword)
  {
    hits := [];
    var i := 0;
    while i < 5
      invariant 0 <= i <= 5 && hits == MockHits(keyword)[..i]
    {
      hits := hits + [MockHit(keyword, i)];
      i := i + 1;
    }
  }

  /** `scrape`: one result per keyword, in order, with data and no error. */
  method Scrape(keywords: seq<string>, replies: seq<SearchReply>) returns (results: seq<ScrapeResult<Hit>>)
    requires |replies| == |keywords|
    ensures |results| == |keywords|
    ensures forall k :: 0 <= k < |keywords| ==>
      results[k] == ScrapeResult(keywords[k], HackerNewsSource, Some(HitsFor(keywords[k], replies[k])), None)
  {
    results := [];
    var k := 0;
    while k < |keywords|
      invariant 0 <= k <= |keywords| && |results| == k
      invariant forall j :: 0 <= j < k ==>
        results[j] == ScrapeResult(keywords[j], HackerNewsSource, Some(HitsFor(keywords[j], replies[j])), None)
    {
      var hits;
      match replies[k] {
        case Reply(status, json) =>
          if status == 200 {
            hits := json;
          } else {
            hits := BuildMockHits(keywords[k]);
          }
        case SearchRaised =>
          hits := BuildMockHits(keywords[k]);
      }
      results := results + [ScrapeResult(keywords[k], HackerNewsSource, Some(hits), None)];
      k := k + 1;
    }
  }

  /** A keyword whose search did not give a 200 reply gets the five mock
      hits, whose points and comment counts grow with the index. */
  lemma FailedSearchGivesMockHits(keyword: string, reply: SearchReply)
    requires !(reply.Reply? && reply.status == 200)
    ensures |HitsFor(keyword, reply)| == 5
    ensures forall i :: 0 <= i < 5 ==> HitsFor(keyword, reply)[i].points == 2 * HitsFor(keyword, reply)[i].numComments == 10 * (i + 1)
    ensures forall i :: 0 <= i < 5 ==> Contains(HitsFor(keyword, reply)[i].title, keyword)
  {
    var hs := HitsFor(keyword, reply);
    forall i | 0 <= i < 5 ensures hs[i].points == 2 * hs[i].numComments == 10 * (i + 1) && Contains(hs[i].title, keyword) {
      assert hs[i] == MockHit(keyword, i);
    }
  }
}
