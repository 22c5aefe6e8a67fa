/** The Instagram scraper: mock posts when the access token or the business
    id is unset; otherwise the same posts built inside a handler that, on an
    exception, appends an error result for every keyword after the results
    already appended. */
module InstagramScraperModel {
  import opened Prelude
  import opened Text
  import opened MockCommon

  const InstagramSource := "instagram"
  const PostTypes := ["image", "video", "carousel"]

  datatype InstagramPost = InstagramPost(
    id: string, kind: string, likesCount: int, commentsCount: int, caption: string, createdTime: string)

  /** `keyword.replace(" ", "")`. */
  function Hashtag(keyword: string): string
  {
    Unspaced(keyword)
  }

  function PostId(keyword: string, i: nat): string
  {
    "post_" + NatToString(i) + "_" + Hashtag(keyword)
  }

  /** The caption embeds "#" and the hashtag. */
  function Caption(keyword: string, i: nat): (c: string)
    ensures Contains(c, "#" + Hashtag(keyword))
  {
    var head := "Örnek post " + NatToString(i) + " ile ";
    ContainsMiddle(head, "#" + Hashtag(keyword), " hashtagi");
    head + ("#" + Hashtag(keyword)) + " hashtagi"
  }

  /** The i-th post of a keyword: its fixed fields, a type from the three,
      and counts within the drawn ranges. The creation time is the
      zero-prefixed stamp, which stops being a date from i = 9 on. */
  predicate PostOf(keyword: string, i: nat, p: InstagramPost)
  {
    p.id == PostId(keyword, i)
    && p.kind in PostTypes
    && 10 <= p.likesCount <= 1000 && 0 <= p.commentsCount <= 100
    && p.caption == Caption(keyword, i)
    && p.createdTime == ZeroPrefixedStamp(i)
  }

  /** One iteration of either inner loop. */
  method DrawPost(keyword: string, i: nat) returns (p: InstagramPost)
    ensures PostOf(keyword, i, p)
  {
    var kind := Choice(PostTypes);
    var likes := RandInt(10, 1000);
    var comments := RandInt(0, 100);
    p := InstagramPost(PostId(keyword, i), kind, likes, comments, Caption(keyword, i), ZeroPrefixedStamp(i));
  }

  /** `for i in range(limit)`. */
  method Posts(keyword: string, limit: int) returns (posts: seq<InstagramPost>)
    ensures |posts| == RangeCount(limit)
    ensures forall i :: 0 <= i < |posts| ==> PostOf(keyword, i, posts[i])
  {
    posts := [];
    var i := 0;
    while i < limit
      invariant 0 <= i && |posts| == i && (limit >= 0 ==> i <= limit) && (limit < 0 ==> i == 0)
      invariant forall j :: 0 <= j < i ==> PostOf(keyword, j, posts[j])
    {
      var p := DrawPost(keyword, i);
      posts := posts + [p];
      i := i + 1;
    }
  }

  /** The successful result of one keyword. */
  predicate ResultOf(keyword: string, limit: int, r: ScrapeResult<InstagramPost>)
  {
    r.keyword == keyword && r.source == InstagramSource && r.error.None? && r.data.Some?
    && |r.data.value| == RangeCount(limit)
    && forall i :: 0 <= i < |r.data.value| ==> PostOf(keyword, i, r.data.value[i])
  }

  /** The mock branch is taken when either credential is unset or empty. */
  predicate MockBranch(accessToken: Option<string>, businessId: Option<string>)
  {
    !Truthy(accessToken) || !Truthy(businessId)
  }

  /** An exception inside the real-API handler: raised while handling the
      keyword at index `at`, with the given text. */
  datatype Failure = Failure(at: nat, message: string)

  /** How many keywords the real-API loop finishes. */
  function Finished(keywords: seq<string>, failure: Option<Failure>): (n: nat)
    ensures n <= |keywords|
  {
    if failure.Some? && failure.value.at < |keywords| then failure.value.at else |keywords|
  }

  /** `scrape`. Both branches give one post list of `limit` posts per
      keyword; a failure in the real-API branch keeps the finished results
      and then appends one error result for every keyword. */
  method Scrape(keywords: seq<string>, limit: int, accessToken: Option<string>, businessId: Option<string>,
                failure: Option<Failure>)
    returns (results: seq<ScrapeResult<InstagramPost>>)
    ensures MockBranch(accessToken, businessId) || Finished(keywords, failure) == |keywords| ==>
      |results| == |keywords| && forall k :: 0 <= k < |keywords| ==> ResultOf(keywords[k], limit, results[k])
    ensures !MockBranch(accessToken, businessId) && Finished(keywords, failure) < |keywords| ==>
      var n := Finished(keywords, failure);
      |results| == n + |keywords|
      && (forall k :: 0 <= k < n ==> ResultOf(keywords[k], limit, results[k]))
      && forall k :: 0 <= k < |keywords| ==> results[n + k] == ErrorResult(keywords[k], InstagramSource, failure.value.message)
  {
    results := [];
    var k := 0;
    var stop := if MockBranch(accessToken, businessId) then |keywords| else Finished(keywords, failure);
    while k < stop
      invariant 0 <= k <= stop <= |keywords| && |results| == k
      invariant forall j :: 0 <= j < k ==> ResultOf(keywords[j], limit, results[j])
    {
      var posts := Posts(keywords[k], limit);
      results := results + [ScrapeResult(keywords[k], InstagramSource, Some(posts), None)];
      k := k + 1;
    }
    if stop < |keywords| {
      var done := results;
      results := AppendErrorResults(done, keywords, InstagramSource, failure.value.message);
      assert forall j :: 0 <= j < k ==> results[j] == done[j];
    }
  }

  /** Within one result, posts with the same id are the same post, and every
      caption carries the hashtag. */
  lemma PostsIdentified(keyword: string, limit: int, r: ScrapeResult<InstagramPost>)
    requires ResultOf(keyword, limit, r)
    ensures forall i, j :: 0 <= i < |r.data.value| && 0 <= j < |r.data.value| && r.data.value[i].id == r.data.value[j].id ==> i == j
    ensures forall i :: 0 <= i < |r.data.value| ==> Contains(r.data.value[i].caption, "#" + Hashtag(keyword))
  {
    var d := r.data.value;
    forall i, j | 0 <= i < |d| && 0 <= j < |d| && d[i].id == d[j].id ensures i == j {
      assert PostOf(keyword, i, d[i]) && PostOf(keyword, j, d[j]);
      IndexedNameDetermines("post_", i, j, '_', Hashtag(keyword));
    }
    forall i | 0 <= i < |d| ensures Contains(d[i].caption, "#" + Hashtag(keyword)) {
      assert PostOf(keyword, i, d[i]);
    }
  }

  /** From the tenth post on, the creation time has 21 characters and a
      three-digit day. */
  lemma CreatedTimeOverflows(keyword: string, i: nat, p: InstagramPost)
    requires PostOf(keyword, i, p) && 9 <= i < 99
    ensures |p.createdTime| == 21 && p.createdTime[8] == '0'
  {
    ZeroPrefixedStampOverflows(i);
  }
}
