/** The Reddit scraper: five fixed mock posts per keyword when no client id
    is configured; otherwise an OAuth token request and one search per
    keyword, where any failure appends an error result for every keyword
    after the results already appended. */
module RedditScraperModel {
  import opened Prelude
  import opened Text
  import opened MockCommon

  const RedditSource := "reddit"
  const PlaceholderClientId := "YOUR_CLIENT_ID"
  const TokenMissing := "Reddit token alınamadı"

  datatype Post = Post(title: string, score: int, comments: int, url: string, createdUtc: string)

  /** The i-th mock post: its score is twice its comment count, both grow
      with i, and its title names the keyword. */
  function MockPost(keyword: string, i: nat): (p: Post)
    ensures p.score == 10 * (i + 1) && p.comments == 5 * (i + 1)
    ensures Contains(p.title, keyword)
  {
    var title := "Reddit: " + keyword + " hakkında örnek post " + NatToString(i);
    ContainsMiddle("Reddit: ", keyword, " hakkında örnek post " + NatToString(i));
    assert title == "Reddit: " + keyword + (" hakkında örnek post " + NatToString(i));
    Post(title, 10 * (i + 1), 5 * (i + 1), "https://reddit.com/r/example/post" + NatToString(i), ZeroPrefixedStamp(i))
  }

  /** The five mock posts of a keyword. */
  function MockPosts(keyword: string): (ps: seq<Post>)
    ensures |ps| == 5 && forall j :: 0 <= j < 5 ==> ps[j] == MockPost(keyword, j)
  {
    seq(5, j requires 0 <= j => MockPost(keyword, j))
  }

  /** Different mock posts of one keyword have different urls. */
  lemma MockPostUrlsDistinct(keyword: string, i: nat, j: nat)
    requires MockPost(keyword, i).url == MockPost(keyword, j).url
    ensures i == j
  {
    TrailingIndexDetermines("https://reddit.com/r/example/post", i, j);
  }

  /** The mock branch is taken when the client id is unset, empty or the
      placeholder. */
  predicate MockBranch(clientId: Option<string>)
  {
    !Truthy(clientId) || clientId == Some(PlaceholderClientId)
  }

  /** The mock loop: five posts per keyword whatever the limit. */
  method MockScrape(keywords: seq<string>) returns (results: seq<ScrapeResult<Post>>)
    ensures |results| == |keywords|
    ensures forall i :: 0 <= i < |keywords| ==>
      results[i] == ScrapeResult(keywords[i], RedditSource, Some(MockPosts(keywords[i])), None)
  {
    results := [];
    var k := 0;
    while k < |keywords|
      invariant 0 <= k <= |keywords| && |results| == k
      invariant forall i :: 0 <= i < k ==>
        results[i] == ScrapeResult(keywords[i], RedditSource, Some(MockPosts(keywords[i])), None)
    {
      var posts: seq<Post> := [];
      var i := 0;
      while i < 5
        invariant 0 <= i <= 5 && posts == MockPosts(keywords[k])[..i]
      {
        posts := posts + [MockPost(keywords[k], i)];
        i := i + 1;
      }
      assert posts == MockPosts(keywords[k]);
      results := results + [ScrapeResult(keywords[k], RedditSource, Some(posts), None)];
      k := k + 1;
    }
  }

  /** The token request: it raises, or its JSON has an `access_token`
      (possibly missing). */
  datatype TokenReply = TokenRaised(message: string) | TokenJson(accessToken: Option<string>)

  /** One keyword's search: it raises, or gives the posts of its JSON. */
  datatype SearchReply = SearchRaised(message: string) | SearchJson(posts: seq<Post>)

  /** The message of a failed token step, if it failed. */
  function TokenFailure(token: TokenReply): Option<string>
  {
    match token
    case TokenRaised(message) => Some(message)
    case TokenJson(accessToken) => if Truthy(accessToken) then None else Some(TokenMissing)
  }

  /** Number of searches that succeed before the first one that raises. */
  function LeadingSuccesses(searches: seq<SearchReply>): (k: nat)
    ensures k <= |searches|
    ensures forall j :: 0 <= j < k ==> searches[j].SearchJson?
    ensures k < |searches| ==> searches[k].SearchRaised?
  {
    if searches == [] || searches[0].SearchRaised? then 0 else 1 + LeadingSuccesses(searches[1..])
  }

  /** The search loop, stopping at the first failure: the results so far
      and the failure message. */
  method Searches(keywords: seq<string>, searches: seq<SearchReply>)
    returns (results: seq<ScrapeResult<Post>>, failure: Option<string>)
    requires |searches| == |keywords|
    ensures |results| == LeadingSuccesses(searches)
    ensures forall i :: 0 <= i < |results| ==>
      results[i] == ScrapeResult(keywords[i], RedditSource, Some(searches[i].posts), None)
    ensures failure.None? <==> |results| == |keywords|
    ensures failure.Some? ==> failure.value == searches[|results|].message
  {
    results := [];
    failure := None;
    var i := 0;
    while i < |keywords|
      invariant 0 <= i <= |keywords| && |results| == i && i <= LeadingSuccesses(searches)
      invariant forall j :: 0 <= j < i ==>
        results[j] == ScrapeResult(keywords[j], RedditSource, Some(searches[j].posts), None)
    {
      match searches[i]
      case SearchRaised(message) =>
        failure := Some(message);
        return;
      case SearchJson(posts) =>
        results := results + [ScrapeResult(keywords[i], RedditSource, Some(posts), None)];
        i := i + 1;
    }
  }

  /** What the real-API branch returns: a failing token step gives one
      error result per keyword; a failing search keeps the results already
      appended and then appends one error result for every keyword. */
  predicate RealResults(keywords: seq<string>, token: TokenReply, searches: seq<SearchReply>,
                        results: seq<ScrapeResult<Post>>)
    requires |searches| == |keywords|
  {
    && (TokenFailure(token).Some? ==> (|results| == |keywords|
      && forall j :: 0 <= j < |keywords| ==> results[j] == ErrorResult(keywords[j], RedditSource, TokenFailure(token).value)))
    && (TokenFailure(token).None? ==> (var k := LeadingSuccesses(searches);
      |results| >= k
      && (forall j :: 0 <= j < k ==> results[j] == ScrapeResult(keywords[j], RedditSource, Some(searches[j].posts), None))
      && (k == |keywords| ==> |results| == k)
      && (k < |keywords| ==> (|results| == k + |keywords|
          && forall j :: 0 <= j < |keywords| ==> results[k + j] == ErrorResult(keywords[j], RedditSource, searches[k].message)))))
  }

  /** The real-API branch: the token step, then the search loop. */
  method RealScrape(keywords: seq<string>, token: TokenReply, searches: seq<SearchReply>)
    returns (results: seq<ScrapeResult<Post>>)
    requires |searches| == |keywords|
    ensures RealResults(keywords, token, searches, results)
  {
    var failure := TokenFailure(token);
    if failure.Some? {
      results := AppendErrorResults([], keywords, RedditSource, failure.value);
      return;
    }
    var done;
    done, failure := Searches(keywords, searches);
    results := done;
    if failure.Some? {
      results := AppendErrorResults(done, keywords, RedditSource, failure.value);
    }
  }

  /** `scrape`: the mock branch or the real-API branch. */
  method Scrape(keywords: seq<string>, clientId: Option<string>, token: TokenReply, searches: seq<SearchReply>)
    returns (results: seq<ScrapeResult<Post>>)
    requires |searches| == |keywords|
    ensures MockBranch(clientId) ==> |results| == |keywords| && forall i :: 0 <= i < |keywords| ==>
      results[i].keyword == keywords[i] && results[i].source == RedditSource && results[i].error.None?
      && results[i].data == Some(MockPosts(keywords[i]))
    ensures !MockBranch(clientId) ==> RealResults(keywords, token, searches, results)
    ensures !MockBranch(clientId) ==> |keywords| <= |results| <= 2 * |keywords|
    ensures forall r :: r in results ==> r.source == RedditSource && (r.data.Some? <==> r.error.None?)
  {
    if MockBranch(clientId) {
      results := MockScrape(keywords);
    } else {
      results := RealScrape(keywords, token, searches);
      forall i | 0 <= i < |results| ensures results[i].source == RedditSource && (results[i].data.Some? <==> results[i].error.None?) {
        var k := LeadingSuccesses(searches);
        if TokenFailure(token).Some? {
          assert results[i] == ErrorResult(keywords[i], RedditSource, TokenFailure(token).value);
        } else if i < k {
          assert results[i] == ScrapeResult(keywords[i], RedditSource, Some(searches[i].posts), None);
        } else {
          assert results[k + (i - k)] == ErrorResult(keywords[i - k], RedditSource, searches[k].message);
        }
      }
    }
  }

  /** When a search after the first one raises, the first keyword is
      reported twice: once with its posts and once with the error. */
  lemma FirstKeywordReportedTwice(keywords: seq<string>, token: TokenReply, searches: seq<SearchReply>,
                                  results: seq<ScrapeResult<Post>>)
    requires |searches| == |keywords| && TokenFailure(token).None?
    requires 0 < LeadingSuccesses(searches) < |keywords|
    requires var k := LeadingSuccesses(searches);
      |results| == k + |keywords|
      && (forall j :: 0 <= j < k ==> results[j] == ScrapeResult(keywords[j], RedditSource, Some(searches[j].posts), None))
      && forall j :: 0 <= j < |keywords| ==> results[k + j] == ErrorResult(keywords[j], RedditSource, searches[k].message)
    ensures var k := LeadingSuccesses(searches);
      results[0].keyword == results[k].keyword == keywords[0] && results[0].data.Some? && results[k].error.Some?
  {
    var k := LeadingSuccesses(searches);
    assert results[k + 0] == ErrorResult(keywords[0], RedditSource, searches[k].message);
  }
}
