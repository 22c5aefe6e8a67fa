/** The LinkedIn scraper: mock posts only, `limit` per keyword, with drawn
    author titles and engagement counts. */
module LinkedInScraperModel {
  import opened Prelude
  import opened Text
  import opened MockCommon

  const LinkedInSource := "linkedin"
  const Industries := ["Technology", "Finance", "Healthcare", "Education", "Marketing", "Retail", "Manufacturing"]
  const JobTitles := ["Manager", "Director", "CEO", "Developer", "Analyst", "Specialist", "Consultant"]

  datatype Engagement = Engagement(likes: int, comments: int, shares: int)

  datatype LinkedInPost = LinkedInPost(
    id: string, title: string, author: string, authorTitle: string, engagement: Engagement,
    publishedAt: string, industryRelevance: string, url: string)

  function PostId(keyword: string, i: nat): string
  {
    "post_" + NatToString(i) + "_" + Underscored(keyword)
  }

  function PostUrl(i: nat): string
  {
    "https://linkedin.com/post/" + NatToString(i)
  }

  function AuthorTitle(job: string, industry: string): string
  {
    job + " at " + industry + " Company"
  }

  /** The i-th post of a keyword: its fixed fields, a job and an industry
      from the two lists, and engagement counts within the drawn ranges. */
  predicate PostOf(keyword: string, i: nat, p: LinkedInPost)
  {
    p.id == PostId(keyword, i)
    && p.title == "LinkedIn: " + keyword + " hakkında profesyonel içerik " + NatToString(i)
    && p.author == "Professional" + NatToString(i)
    && (exists job, industry :: job in JobTitles && industry in Industries && p.authorTitle == AuthorTitle(job, industry))
    && 10 <= p.engagement.likes <= 1000 && 0 <= p.engagement.comments <= 200 && 0 <= p.engagement.shares <= 100
    && p.publishedAt == PaddedStamp(i)
    && p.industryRelevance in Industries
    && p.url == PostUrl(i)
  }

  /** One iteration of the inner loop. */
  method DrawPost(keyword: string, i: nat) returns (p: LinkedInPost)
    ensures PostOf(keyword, i, p)
  {
    var job := Choice(JobTitles);
    var industry := Choice(Industries);
    var likes := RandInt(10, 1000);
    var comments := RandInt(0, 200);
    var shares := RandInt(0, 100);
    var relevance := Choice(Industries);
    p := LinkedInPost(PostId(keyword, i), "LinkedIn: " + keyword + " hakkında profesyonel içerik " + NatToString(i),
                      "Professional" + NatToString(i), AuthorTitle(job, industry), Engagement(likes, comments, shares),
                      PaddedStamp(i), relevance, PostUrl(i));
  }

  /** The inner loop: `for i in range(limit)`. */
  method Posts(keyword: string, limit: int) returns (posts: seq<LinkedInPost>)
    ensures |posts| == RangeCount(limit)
    ensures forall i :: 0 <= i < |posts| ==> PostOf(keyword, i, posts[i])
  {
    posts := [];
    var i := 0;
    while i < limit
      invariant 0 <= i && |posts| == i && (limit >= 0 ==> i <= limit) && (limit < 0 ==> i == 0)
      invariant forall j :: 0 <= j < i ==> PostOf(keyword, j, posts[j])
    {
      var p := DrawPost(keyword, i);
      posts := posts + [p];
      i := i + 1;
    }
  }

  /** The result of one keyword. */
  predicate ResultOf(keyword: string, limit: int, r: ScrapeResult<LinkedInPost>)
  {
    r.keyword == keyword && r.source == LinkedInSource && r.error.None? && r.data.Some?
    && |r.data.value| == RangeCount(limit)
    && forall i :: 0 <= i < |r.data.value| ==> PostOf(keyword, i, r.data.value[i])
  }

  /** `scrape`: one result per keyword, in order, never an error. */
  method Scrape(keywords: seq<string>, limit: int) returns (results: seq<ScrapeResult<LinkedInPost>>)
    ensures |results| == |keywords|
    ensures forall k :: 0 <= k < |keywords| ==> ResultOf(keywords[k], limit, results[k])
  {
    results := [];
    var k := 0;
    while k < |keywords|
      invariant 0 <= k <= |keywords| && |results| == k
      invariant forall j :: 0 <= j < k ==> ResultOf(keywords[j], limit, results[j])
    {
      var posts := Posts(keywords[k], limit);
      results := results + [ScrapeResult(keywords[k], LinkedInSource, Some(posts), None)];
      k := k + 1;
    }
  }

  /** Within one result, posts with the same id or the same url are the same
      post. */
  lemma PostsIdentified(keyword: string, limit: int, r: ScrapeResult<LinkedInPost>)
    requires ResultOf(keyword, limit, r)
    ensures forall i, j :: 0 <= i < |r.data.value| && 0 <= j < |r.data.value| && r.data.value[i].id == r.data.value[j].id ==> i == j
    ensures forall i, j :: 0 <= i < |r.data.value| && 0 <= j < |r.data.value| && r.data.value[i].url == r.data.value[j].url ==> i == j
  {
    var d := r.data.value;
    forall i, j | 0 <= i < |d| && 0 <= j < |d| && d[i].id == d[j].id ensures i == j {
      assert PostOf(keyword, i, d[i]) && PostOf(keyword, j, d[j]);
      IndexedNameDetermines("post_", i, j, '_', Underscored(keyword));
    }
    forall i, j | 0 <= i < |d| && 0 <= j < |d| && d[i].url == d[j].url ensures i == j {
      assert PostOf(keyword, i, d[i]) && PostOf(keyword, j, d[j]);
      TrailingIndexDetermines("https://linkedin.com/post/", i, j);
    }
  }

  /** For the first 99 posts, `published_at` carries the day i + 1 as two
      digits. */
  lemma PublishedDay(keyword: string, i: nat, p: LinkedInPost)
    requires PostOf(keyword, i, p) && i < 99
    ensures |p.publishedAt| == 20 && AllDigits(p.publishedAt[8..10]) && DigitsValue(p.publishedAt[8..10]) == i + 1
  {
    PaddedStampDay(i);
  }
}
