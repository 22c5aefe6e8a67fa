/** The Twitter API scraper: five mock tweet texts per keyword while the
    bearer token is unset or the placeholder, which the shipped code always
    uses; otherwise one recent-search request per keyword, each ending in
    exactly one result. */
module TwitterApiModel {
  import opened Prelude
  import opened Text

  const TwitterSource := "twitter"
  /** The token the source hard-codes: the placeholder itself. */
  const ConfiguredToken := "YOUR_TWITTER_BEARER_TOKEN"

  /** A tweet of a 200 reply; `metrics` is `public_metrics`, or empty when
      the tweet has none. */
  datatype ApiTweet = ApiTweet(id: string, text: string, createdAt: string, metrics: map<string, int>)

  /** A tweet as the JSON reply gives it. */
  datatype TweetJson = TweetJson(id: string, text: string, createdAt: string, publicMetrics: Option<map<string, int>>)

  /** What one keyword's request meets: a reply with a status, its JSON
      `data` list (when present) and its body text; or an exception. */
  datatype SearchReply =
    | Reply(status: nat, data: Option<seq<TweetJson>>, body: string)
    | RequestRaised(message: string)

  /** A result: tweets on success; an error and, for a bad status, the body
      as details. The mock branch's tweets are plain strings. */
  datatype TwitterResult = TwitterResult(
    keyword: string, source: string, texts: Option<seq<string>>, tweets: Option<seq<ApiTweet>>,
    error: Option<string>, details: Option<string>)

  predicate MockBranch(token: Option<string>)
  {
    !Truthy(token) || token == Some(ConfiguredToken)
  }

  predicate EndsWith(s: string, suffix: string)
  {
    |suffix| <= |s| && s[|s| - |suffix|..] == suffix
  }

  /** "Örnek Tweet {i} hakkında {keyword}": it ends with the keyword. */
  function MockText(keyword: string, i: nat): (t: string)
    ensures EndsWith(t, keyword)
  {
    "Örnek Tweet " + NatToString(i) + " hakkında " + keyword
  }

  function MockTexts(keyword: string): (ts: seq<string>)
    ensures |ts| == 5 && forall j :: 0 <= j < 5 ==> ts[j] == MockText(keyword, j)
  {
    seq(5, j requires 0 <= j => MockText(keyword, j))
  }

  function TweetOf(t: TweetJson): ApiTweet
  {
    ApiTweet(t.id, t.text, t.createdAt, if t.publicMetrics.Some? then t.publicMetrics.value else map[])
  }

  /** The tweets of a 200 reply, one per JSON entry, in order. */
  function TweetsOf(json: seq<TweetJson>): (ts: seq<ApiTweet>)
    ensures |ts| == |json| && forall j :: 0 <= j < |json| ==> ts[j] == TweetOf(json[j])
  {
    seq(|json|, j requires 0 <= j < |json| => TweetOf(json[j]))
  }

  /** The result one reply gives. */
  function ReplyResult(keyword: string, reply: SearchReply): TwitterResult
  {
    match reply
    case RequestRaised(message) => TwitterResult(keyword, TwitterSource, None, None, Some("Exception: " + message), None)
    case Reply(status, data, body) =>
      if status == 200 then
        var json := if data.Some? then data.value else [];
        TwitterResult(keyword, TwitterSource, None, Some(TweetsOf(json)), None, None)
      else
        TwitterResult(keyword, TwitterSource, None, None, Some("API Error: " + NatToString(status)), Some(body))
  }

  /** The tweet loop of a 200 reply. */
  method ReadTweets(json: seq<TweetJson>) returns (tweets: seq<ApiTweet>)
    ensures tweets == TweetsOf(json)
  {
    tweets := [];
    var j := 0;
    while j < |json|
      invariant 0 <= j <= |json| && tweets == TweetsOf(json)[..j]
    {
      tweets := tweets + [TweetOf(json[j])];
      j := j + 1;
    }
  }

  /** `scrape`: the mock branch gives the five texts per keyword; the API
      branch gives the result of each keyword's reply. Either way there is
      exactly one result per keyword, in order. */
  method Scrape(keywords: seq<string>, token: Option<string>, replies: seq<SearchReply>)
    returns (results: seq<TwitterResult>)
    requires |replies| == |keywords|
    ensures |results| == |keywords|
    ensures token == Some(ConfiguredToken) || token == None || token == Some("") ==>
      forall k :: 0 <= k < |keywords| ==> results[k].texts == Some(MockTexts(keywords[k])) && results[k].error.None?
    ensures MockBranch(token) ==> forall k :: 0 <= k < |keywords| ==>
      results[k] == TwitterResult(keywords[k], TwitterSource, Some(MockTexts(keywords[k])), None, None, None)
    ensures !MockBranch(token) ==> forall k :: 0 <= k < |keywords| ==> results[k] == ReplyResult(keywords[k], replies[k])
  {
    results := [];
    if MockBranch(token) {
      var k := 0;
      while k < |keywords|
        invariant 0 <= k <= |keywords| && |results| == k
        invariant forall j :: 0 <= j < k ==>
          results[j] == TwitterResult(keywords[j], TwitterSource, Some(MockTexts(keywords[j])), None, None, None)
      {
        results := results + [TwitterResult(keywords[k], TwitterSource, Some(MockTexts(keywords[k])), None, None, None)];
        k := k + 1;
      }
      return;
    }
    var k := 0;
    while k < |keywords|
      invariant 0 <= k <= |keywords| && |results| == k
      invariant forall j :: 0 <= j < k ==> results[j] == ReplyResult(keywords[j], replies[j])
    {
      var res;
      match replies[k] {
        case RequestRaised(message) =>
          res := TwitterResult(keywords[k], TwitterSource, None, None, Some("Exception: " + message), None);
        case Reply(status, data, body) =>
          if status == 200 {
            var tweets := ReadTweets(if data.Some? then data.value else []);
            res := TwitterResult(keywords[k], TwitterSource, None, Some(tweets), None, None);
          } else {
            res := TwitterResult(keywords[k], TwitterSource, None, None, Some("API Error: " + NatToString(status)), Some(body));
          }
      }
      results := results + [res];
      k := k + 1;
    }
  }

  /** Mock results carry no error and five texts, each ending with its
      keyword. */
  lemma MockResultsEndWithKeyword(keywords: seq<string>, results: seq<TwitterResult>)
    requires |results| == |keywords|
    requires forall k :: 0 <= k < |keywords| ==>
      results[k] == TwitterResult(keywords[k], TwitterSource, Some(MockTexts(keywords[k])), None, None, None)
    ensures forall k :: 0 <= k < |keywords| ==>
      (results[k].error.None? && results[k].texts.Some? && |results[k].texts.value| == 5
       && forall i :: 0 <= i < 5 ==> EndsWith(results[k].texts.value[i], keywords[k]))
  {
    forall k | 0 <= k < |keywords| ensures results[k].error.None? && results[k].texts.Some? && |results[k].texts.value| == 5
      && forall i :: 0 <= i < 5 ==> EndsWith(results[k].texts.value[i], keywords[k])
    {
      var ts := MockTexts(keywords[k]);
      assert forall i :: 0 <= i < 5 ==> ts[i] == MockText(keywords[k], i);
    }
  }

  /** In the API branch a result carries an error exactly when its reply was
      not a 200; a bad status keeps the body as details and names the
      status, which can be read back from the error. */
  lemma ReplyResultError(keyword: string, reply: SearchReply)
    ensures ReplyResult(keyword, reply).keyword == keyword
    ensures ReplyResult(keyword, reply).error.Some? <==> !(reply.Reply? && reply.status == 200)
    ensures ReplyResult(keyword, reply).tweets.Some? <==> ReplyResult(keyword, reply).error.None?
    ensures reply.Reply? && reply.status != 200 ==>
      ReplyResult(keyword, reply).details == Some(reply.body)
      && DigitsValue(ReplyResult(keyword, reply).error.value[|"API Error: "|..]) == reply.status
  {
    if reply.Reply? && reply.status != 200 {
      DigitsValueOfNatToString(reply.status);
      assert ReplyResult(keyword, reply).error.value[|"API Error: "|..] == NatToString(reply.status);
    }
  }
}
