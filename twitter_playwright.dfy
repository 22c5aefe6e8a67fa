/** The Twitter Playwright scraper: one result per keyword. As written,
    every keyword ends in the error result with simulated tweets: either a
    page step raises, or formatting the extraction script does, because the
    f-string that builds it reads the not yet assigned local `i`. The
    extraction as evidently intended (tweets read from the page's tweet
    elements, or from the raw HTML when none were read, or simulated tweets
    when both gave nothing) is modelled beside it. */
module TwitterPlaywright {
  import opened Prelude
  import opened Text
  import opened Urls

  const TwitterSource := "twitter"
  const ErrorPrefix := "Scraping error: "

  /** `str(e)` of the UnboundLocalError that reading the unassigned local
      `i` raises (Python 3.11 wording). */
  const UnboundMessage := "cannot access local variable 'i' where it is not associated with a value"

  datatype Metrics = Metrics(reply: nat, retweet: nat, like: nat, view: nat)

  datatype Tweet = Tweet(username: string, text: string, timestamp: string, metrics: Metrics)

  /** A tweet element as the in-page script reads it: whether reading it
      throws, the text of its username and tweet-text sub-elements when
      present, its time element's datetime attribute when present, and the
      text of each engagement element. */
  datatype TweetElement = TweetElement(
    raises: bool, usernameText: Option<string>, bodyText: Option<string>,
    datetime: Option<string>, engagement: seq<string>)

  /** The elements the selectors find: the `article`/`div` tweet elements,
      the number of further tweet-text elements, and the legacy elements. */
  datatype TweetPage = TweetPage(primary: seq<TweetElement>, textOnlyCount: nat, legacy: seq<TweetElement>)

  /** The tweet elements strategy 1 walks: the current markup when the
      combined selector finds anything, the legacy markup otherwise. */
  function SelectedElements(p: TweetPage): (es: seq<TweetElement>)
    ensures es == p.primary || es == p.legacy
    ensures |p.primary| + p.textOnlyCount == 0 ==> es == p.legacy
  {
    if |p.primary| + p.textOnlyCount > 0 then p.primary else p.legacy
  }

  /** `Math.min(found, limit)` as a loop bound. */
  function Cap(found: nat, limit: int): (n: nat)
    ensures n <= found && n <= (if limit < 0 then 0 else limit)
    ensures n == found || (n == limit && limit >= 0) || (n == 0 && limit < 0)
  {
    if limit < found then (if limit < 0 then 0 else limit) else found
  }

  /** `text.match(/(\d+)/)` from position p: the value of the first run of
      digits. */
  function FirstNumberFrom(t: string, p: nat): (v: Option<nat>)
    requires p <= |t|
    ensures v.None? <==> forall i :: p <= i < |t| ==> !IsDigit(t[i])
    decreases |t| - p
  {
    if p == |t| then None
    else if IsDigit(t[p]) then
      var run := t[p..p + DigitRun(t, p)];
      assert AllDigits(run) by {
        forall i | 0 <= i < |run| ensures IsDigit(run[i]) {
          assert run[i] == t[p + i];
        }
      }
      Some(DigitsValue(run))
    else FirstNumberFrom(t, p + 1)
  }

  /** The count an engagement text shows, 0 when it has no digits. */
  function CountOf(t: string): nat
  {
    match FirstNumberFrom(t, 0)
    case None => 0
    case Some(v) => v
  }

  datatype EngagementKind = ReplyKind | RetweetKind | LikeKind | ViewKind | OtherKind

  /** Which metric a trimmed engagement text sets; earlier tests win. */
  function KindOf(t: string): EngagementKind
  {
    if Contains(t, "reply") || Contains(t, "yanıt") then ReplyKind
    else if Contains(t, "Retweet") || Contains(t, "retweet") then RetweetKind
    else if Contains(t, "Like") || Contains(t, "beğen") then LikeKind
    else if Contains(t, "View") || Contains(t, "görüntüle") then ViewKind
    else OtherKind
  }

  function Trim(s: string): string
  {
    Strip(s, IsJsWhitespace)
  }

  /** The metrics after one engagement element. */
  function ApplyEngagement(m: Metrics, raw: string): Metrics
  {
    var t := Trim(raw);
    match KindOf(t)
    case ReplyKind => m.(reply := CountOf(t))
    case RetweetKind => m.(retweet := CountOf(t))
    case LikeKind => m.(like := CountOf(t))
    case ViewKind => m.(view := CountOf(t))
    case OtherKind => m
  }

  const ZeroMetrics := Metrics(0, 0, 0, 0)

  /** The metrics after all engagement elements, in order. */
  function EngagementMetrics(texts: seq<string>): Metrics
  {
    if texts == [] then ZeroMetrics
    else ApplyEngagement(EngagementMetrics(texts[..|texts| - 1]), texts[|texts| - 1])
  }

  /** The engagement loop of the in-page script. */
  method ReadMetrics(texts: seq<string>) returns (m: Metrics)
    ensures m == EngagementMetrics(texts)
  {
    m := ZeroMetrics;
    var k := 0;
    while k < |texts|
      invariant 0 <= k <= |texts|
      invariant m == EngagementMetrics(texts[..k])
    {
      assert texts[..k + 1][..k] == texts[..k];
      m := ApplyEngagement(m, texts[k]);
      k := k + 1;
    }
    assert texts[..k] == texts;
  }

  /** The reply count is the count of the last reply text; a metric no text
      mentions stays 0. */
  lemma {:induction false} LastReplyTextWins(texts: seq<string>, k: nat)
    requires k < |texts| && KindOf(Trim(texts[k])) == ReplyKind
    requires forall j :: k < j < |texts| ==> KindOf(Trim(texts[j])) != ReplyKind
    ensures EngagementMetrics(texts).reply == CountOf(Trim(texts[k]))
  {
    if k < |texts| - 1 {
      LastReplyTextWins(texts[..|texts| - 1], k);
    }
  }

  lemma {:induction false} NoReplyTextIsZero(texts: seq<string>)
    requires forall j :: 0 <= j < |texts| ==> KindOf(Trim(texts[j])) != ReplyKind
    ensures EngagementMetrics(texts).reply == 0
  {
    if texts != [] {
      NoReplyTextIsZero(texts[..|texts| - 1]);
    }
  }

  /** The tweet read from element i: empty names and texts become
      "User{i}" and "Tweet {i}", a missing datetime becomes now. */
  function TweetOf(e: TweetElement, i: nat, now: string): (t: Tweet)
    ensures t.username != [] && t.text != []
    ensures e.usernameText.Some? && Trim(e.usernameText.value) != [] ==> t.username == Trim(e.usernameText.value)
    ensures e.usernameText.None? ==> t.username == "User" + NatToString(i)
    ensures e.bodyText.Some? && Trim(e.bodyText.value) != [] ==> t.text == Trim(e.bodyText.value)
    ensures e.bodyText.None? ==> t.text == "Tweet " + NatToString(i)
  {
    var username := if e.usernameText.Some? then Trim(e.usernameText.value) else "";
    var text := if e.bodyText.Some? then Trim(e.bodyText.value) else "";
    var timestamp := if e.datetime.Some? && e.datetime.value != "" then e.datetime.value else now;
    Tweet(if username != "" then username else "User" + NatToString(i),
          if text != "" then text else "Tweet " + NatToString(i),
          timestamp, EngagementMetrics(e.engagement))
  }

  /** The tweets of the first n elements, skipping those that throw. */
  function Strategy1Tweets(es: seq<TweetElement>, n: nat, now: string): seq<Tweet>
    requires n <= |es|
  {
    if n == 0 then []
    else Strategy1Tweets(es, n - 1, now) + (if es[n - 1].raises then [] else [TweetOf(es[n - 1], n - 1, now)])
  }

  /** Strategy 1 yields at most n tweets, exactly n when no element throws,
      and each has a non-empty name and text. */
  lemma {:induction false} Strategy1Bounds(es: seq<TweetElement>, n: nat, now: string)
    requires n <= |es|
    ensures |Strategy1Tweets(es, n, now)| <= n
    ensures (forall i :: 0 <= i < n ==> !es[i].raises) ==> |Strategy1Tweets(es, n, now)| == n
    ensures forall t :: t in Strategy1Tweets(es, n, now) ==> t.username != [] && t.text != []
  {
    if n > 0 {
      Strategy1Bounds(es, n - 1, now);
    }
  }

  /** The in-page element loop (strategy 1). */
  method Strategy1(page: TweetPage, limit: int, now: string) returns (tweets: seq<Tweet>)
    ensures var es := SelectedElements(page); tweets == Strategy1Tweets(es, Cap(|es|, limit), now)
  {
    var es := SelectedElements(page);
    var n := Cap(|es|, limit);
    tweets := [];
    var i := 0;
    while i < n
      invariant 0 <= i <= n
      invariant tweets == Strategy1Tweets(es, i, now)
    {
      if !es[i].raises {
        var m := ReadMetrics(es[i].engagement);
        var username := if es[i].usernameText.Some? then Trim(es[i].usernameText.value) else "";
        var text := if es[i].bodyText.Some? then Trim(es[i].bodyText.value) else "";
        var timestamp := if es[i].datetime.Some? && es[i].datetime.value != "" then es[i].datetime.value else now;
        var tweet := Tweet(if username != "" then username else "User" + NatToString(i),
                           if text != "" then text else "Tweet " + NatToString(i), timestamp, m);
        assert tweet == TweetOf(es[i], i, now);
        tweets := tweets + [tweet];
      }
      i := i + 1;
    }
  }

  /** Position of the first c in s. */
  function FirstIndex(s: string, c: char): (k: nat)
    requires c in s
    ensures k < |s| && s[k] == c && c !in s[..k]
  {
    if s[0] == c then 0 else 1 + FirstIndex(s[1..], c)
  }

  /** No '<' is followed, anywhere later, by a '>'. */
  predicate NoTagLeft(t: string)
  {
    forall i, j :: 0 <= i < j < |t| && t[i] == '<' ==> t[j] != '>'
  }

  /** `re.sub(r'<[^>]*>', '', s)`: from left to right, every '<' with a
      later '>' is removed together with everything up to the first such
      '>'. */
  function StripTags(s: string): string
    decreases |s|
  {
    if s == [] then []
    else if s[0] == '<' && '>' in s[1..] then StripTags(s[1..][FirstIndex(s[1..], '>') + 1..])
    else [s[0]] + StripTags(s[1..])
  }

  /** After tag removal no '<' is followed by a '>', and a string with no
      '>' (or no '<') has nothing removed. */
  lemma {:induction false} StripTagsFacts(s: string)
    ensures NoTagLeft(StripTags(s))
    ensures '>' !in s ==> StripTags(s) == s
    ensures '<' !in s ==> StripTags(s) == s
    decreases |s|
  {
    if s == [] {
    } else if s[0] == '<' && '>' in s[1..] {
      StripTagsFacts(s[1..][FirstIndex(s[1..], '>') + 1..]);
    } else {
      var rest := StripTags(s[1..]);
      assert StripTags(s) == [s[0]] + rest;
      StripTagsFacts(s[1..]);
      assert s[0] == '<' ==> '>' !in rest;
      NoTagLeftCons(s[0], rest);
      assert ('>' !in s || '<' !in s) ==> rest == s[1..] by {
        assert '>' !in s ==> '>' !in s[1..];
        assert '<' !in s ==> '<' !in s[1..];
      }
      assert s == [s[0]] + s[1..];
    }
  }

  /** A kept character in front of a tag-free rest leaves it tag-free,
      unless it opens a tag that the rest closes. */
  lemma NoTagLeftCons(x: char, rest: string)
    requires NoTagLeft(rest) && (x == '<' ==> '>' !in rest)
    ensures NoTagLeft([x] + rest)
  {
    var t := [x] + rest;
    forall i, j | 0 <= i < j < |t| && t[i] == '<' ensures t[j] != '>' {
      assert t[j] == rest[j - 1];
      if i > 0 {
        assert t[i] == rest[i - 1];
      }
    }
  }

  /** Trimming keeps a string free of tags. */
  lemma NoTagLeftAfterStrip(s: string)
    requires NoTagLeft(s)
    ensures NoTagLeft(Strip(s, IsPyWhitespace))
  {
    StripIsSlice(s, IsPyWhitespace);
    var i, j :| 0 <= i <= j <= |s| && Strip(s, IsPyWhitespace) == s[i..j];
    var t := s[i..j];
    forall a, b | 0 <= a < b < |t| && t[a] == '<' ensures t[b] != '>' {
      assert t[a] == s[i + a] && t[b] == s[i + b];
    }
  }

  /** A matched fragment after tag removal and `strip()`. */
  function Clean(s: string): string
  {
    Strip(StripTags(s), IsPyWhitespace)
  }

  /** A cleaned fragment holds no tag and has no surrounding whitespace. */
  lemma CleanHasNoTag(s: string)
    ensures NoTagLeft(Clean(s))
    ensures Clean(s) == [] || (!IsPyWhitespace(Clean(s)[0]) && !IsPyWhitespace(Clean(s)[|Clean(s)| - 1]))
  {
    StripTagsFacts(s);
    NoTagLeftAfterStrip(StripTags(s));
  }

  predicate FallbackMetrics(m: Metrics)
  {
    m.reply <= 50 && m.retweet <= 100 && m.like <= 500 && 1000 <= m.view <= 10000
  }

  /** The fallback tweet for the i-th tweet-text match. */
  predicate FallbackEntry(texts: seq<string>, users: seq<string>, now: string, i: nat, t: Tweet)
    requires i < |texts|
  {
    t.text == Clean(texts[i])
    && t.username == Clean(if i < |users| then users[i] else "User" + NatToString(i))
    && t.timestamp == now && FallbackMetrics(t.metrics)
  }

  /** Every tweet so far is the fallback tweet of its match. */
  predicate FallbackPrefix(texts: seq<string>, users: seq<string>, now: string, tweets: seq<Tweet>)
  {
    |tweets| <= |texts| && forall i :: 0 <= i < |tweets| ==> FallbackEntry(texts, users, now, i, tweets[i])
  }

  lemma FallbackPrefixAppend(texts: seq<string>, users: seq<string>, now: string, tweets: seq<Tweet>, t: Tweet)
    requires FallbackPrefix(texts, users, now, tweets) && |tweets| < |texts|
    requires FallbackEntry(texts, users, now, |tweets|, t)
    ensures FallbackPrefix(texts, users, now, tweets + [t])
  {
    assert forall j :: 0 <= j < |tweets| ==> (tweets + [t])[j] == tweets[j];
  }

  /** What the HTML fallback yields for the given regex matches. */
  predicate FallbackTweets(texts: seq<string>, users: seq<string>, limit: int, now: string, tweets: seq<Tweet>)
  {
    |tweets| == Cap(|texts|, limit) && FallbackPrefix(texts, users, now, tweets)
  }

  /** The HTML fallback loop over the tweet-text matches. */
  method HtmlFallback(texts: seq<string>, users: seq<string>, limit: int, now: string) returns (tweets: seq<Tweet>)
    ensures FallbackTweets(texts, users, limit, now, tweets)
  {
    var n := Cap(|texts|, limit);
    tweets := [];
    var i := 0;
    while i < n
      invariant 0 <= i <= n && |tweets| == i
      invariant FallbackPrefix(texts, users, now, tweets)
    {
      var t := FallbackTweetAt(texts, users, now, i);
      FallbackPrefixAppend(texts, users, now, tweets, t);
      tweets := tweets + [t];
      i := i + 1;
    }
  }

  /** One iteration of the fallback loop: the metrics are drawn. */
  method FallbackTweetAt(texts: seq<string>, users: seq<string>, now: string, i: nat) returns (t: Tweet)
    requires i < |texts|
    ensures FallbackEntry(texts, users, now, i, t)
  {
    var username := if i < |users| then users[i] else "User" + NatToString(i);
    var reply := RandInt(0, 50);
    var retweet := RandInt(0, 100);
    var like := RandInt(0, 500);
    var view := RandInt(1000, 10000);
    t := Tweet(Clean(username), Clean(texts[i]), now, Metrics(reply, retweet, like, view));
  }

  /** Formatting the strategy-1 script. It is an f-string whose only
      single-brace fields are the `{i}` of the JavaScript `${i}` in the
      "User"/"Tweet" defaults. `i` is a local of the same function, assigned
      only by the later HTML fallback loop, so evaluating the f-string
      raises UnboundLocalError. */
  function ScriptText(limit: int): (r: Outcome<string>)
    ensures r.Raised?
  {
    Raised
  }

  /** `try_multiple_tweet_extraction_methods` as written: the script cannot
      be formatted, so the call raises before anything reaches the page. */
  method ExtractTweets(page: TweetPage, texts: seq<string>, users: seq<string>, limit: int, now: string)
    returns (r: Outcome<seq<Tweet>>)
    ensures r.Raised?
  {
    match ScriptText(limit) {
      case Raised =>
        r := Raised;
      case Returned(_) =>
        var tweets := IntendedExtractTweets(page, texts, users, limit, now);
        r := Returned(tweets);
    }
  }

  /** `try_multiple_tweet_extraction_methods` as evidently intended, with
      the JavaScript `${i}` escaped: strategy 1, and the HTML fallback only
      when strategy 1 gave nothing. */
  method IntendedExtractTweets(page: TweetPage, texts: seq<string>, users: seq<string>, limit: int, now: string)
    returns (tweets: seq<Tweet>)
    ensures var es := SelectedElements(page); var first := Strategy1Tweets(es, Cap(|es|, limit), now);
      if first != [] then tweets == first else FallbackTweets(texts, users, limit, now, tweets)
  {
    tweets := Strategy1(page, limit, now);
    if |tweets| == 0 {
      tweets := HtmlFallback(texts, users, limit, now);
    }
  }

  /** The ten phrase templates, each built around the keyword. */
  function TweetPhrases(keyword: string): (ps: seq<string>)
    ensures |ps| == 10
    ensures forall p :: p in ps ==> Contains(p, keyword)
  {
    ContainsMiddle("Bu konuda düşüncelerim: ", keyword, "");
    ContainsMiddle("Bugün ", keyword, " hakkında yeni bir şey öğrendim.");
    ContainsMiddle("", keyword, " konusunda herkesin bilmesi gereken şeyler...");
    ContainsMiddle("Son günlerde herkes ", keyword, " konuşuyor.");
    ContainsMiddle("", keyword, " ile ilgili deneyimlerim");
    ContainsMiddle("Sizce de ", keyword, " çok önemli değil mi?");
    ContainsMiddle("", keyword, " hakkında bir makale okudum");
    ContainsMiddle("Yeni trend: ", keyword, "");
    ContainsMiddle("", keyword, " üzerine birkaç düşünce");
    ContainsMiddle("Arkadaşlar ", keyword, " hakkında ne düşünüyorsunuz?");
    ["Bu konuda düşüncelerim: " + keyword + "",
     "Bugün " + keyword + " hakkında yeni bir şey öğrendim.",
     "" + keyword + " konusunda herkesin bilmesi gereken şeyler...",
     "Son günlerde herkes " + keyword + " konuşuyor.",
     "" + keyword + " ile ilgili deneyimlerim",
     "Sizce de " + keyword + " çok önemli değil mi?",
     "" + keyword + " hakkında bir makale okudum",
     "Yeni trend: " + keyword + "",
     "" + keyword + " üzerine birkaç düşünce",
     "Arkadaşlar " + keyword + " hakkında ne düşünüyorsunuz?"]
  }

  predicate IsLowerLetter(c: char)
  {
    'a' <= c <= 'z'
  }

  /** A simulated username: five random lower-case letters, '_' and the
      index, or "User" and a number in 1000..9999. */
  predicate SimulatedUsername(u: string, i: nat)
  {
    (|u| >= 5 && (forall k :: 0 <= k < 5 ==> IsLowerLetter(u[k])) && u[5..] == "_" + NatToString(i))
    || exists n :: 1000 <= n <= 9999 && u == "User" + NatToString(n)
  }

  /** The i-th simulated tweet for the keyword. */
  predicate SimulatedEntry(keyword: string, i: nat, t: Tweet)
  {
    t.text in TweetPhrases(keyword) && SimulatedUsername(t.username, i)
  }

  /** What `generate_simulated_tweets(keyword, count)` yields. */
  predicate SimulatedFor(keyword: string, count: int, tweets: seq<Tweet>)
  {
    |tweets| == RangeCount(count) && forall i :: 0 <= i < |tweets| ==> SimulatedEntry(keyword, i, tweets[i])
  }

  /** Every simulated tweet mentions the keyword. */
  lemma SimulatedMentionKeyword(keyword: string, count: int, tweets: seq<Tweet>)
    requires SimulatedFor(keyword, count, tweets)
    ensures forall t :: t in tweets ==> Contains(t.text, keyword)
  {
  }

  /** `generate_simulated_tweets`: the username style, phrase, time offset
      and engagement factors are drawn; the metrics are non-negative because
      the popularity ratio is. */
  method GenerateSimulatedTweets(keyword: string, count: int) returns (tweets: seq<Tweet>)
    ensures SimulatedFor(keyword, count, tweets)
  {
    var n := RangeCount(count);
    tweets := [];
    var i := 0;
    while i < n
      invariant 0 <= i <= n && |tweets| == i
      invariant forall j :: 0 <= j < i ==> SimulatedEntry(keyword, j, tweets[j])
    {
      var t := SimulatedTweetAt(keyword, i);
      tweets := tweets + [t];
      i := i + 1;
    }
  }

  /** One iteration of the simulation loop. */
  method SimulatedTweetAt(keyword: string, i: nat) returns (t: Tweet)
    ensures SimulatedEntry(keyword, i, t)
  {
    var lettersStyle: bool :| true;
    var username: string;
    if lettersStyle {
      var letters := "";
      while |letters| < 5
        invariant |letters| <= 5 && forall k :: 0 <= k < |letters| ==> IsLowerLetter(letters[k])
      {
        var c := Choice("abcdefghijklmnopqrstuvwxyz");
        letters := letters + [c];
      }
      username := letters + "_" + NatToString(i);
      assert username[5..] == "_" + NatToString(i);
    } else {
      var number := RandInt(1000, 9999);
      username := "User" + NatToString(number);
    }
    var text := Choice(TweetPhrases(keyword));
    var timestamp: string :| true;
    var reply: nat, retweet: nat, like: nat, view: nat :| true;
    t := Tweet(username, text, timestamp, Metrics(reply, retweet, like, view));
  }

  /** What one keyword's scrape meets: a step raised with the given
      message, or the page loaded and showed these elements and matches. */
  datatype KeywordRun =
    | Failed(message: string)
    | Loaded(page: TweetPage, textMatches: seq<string>, usernameMatches: seq<string>, now: string)

  datatype TwitterResult = TwitterResult(
    keyword: string, source: string, data: seq<Tweet>, screenshot: Option<string>, error: Option<string>)

  /** The tweets a loaded page would yield with the intended extraction:
      strategy 1's when it read any, else the HTML fallback's when it
      matched any, else simulated ones. */
  predicate LoadedData(keyword: string, limit: int, page: TweetPage, texts: seq<string>, users: seq<string>,
                       now: string, data: seq<Tweet>)
  {
    var es := SelectedElements(page);
    var first := Strategy1Tweets(es, Cap(|es|, limit), now);
    if first != [] then data == first
    else if Cap(|texts|, limit) > 0 then FallbackTweets(texts, users, limit, now, data)
    else SimulatedFor(keyword, limit, data)
  }

  /** What the result for one keyword is, as written: the error result
      with simulated tweets, carrying the message of the step that raised,
      which for a loaded page is the script formatting. */
  predicate ResultFor(keyword: string, limit: int, run: KeywordRun, res: TwitterResult)
  {
    res.keyword == keyword && res.source == TwitterSource
    && res.screenshot.None? && SimulatedFor(keyword, limit, res.data)
    && match run
       case Failed(message) => res.error == Some(ErrorPrefix + message)
       case Loaded(_, _, _, _) => res.error == Some(ErrorPrefix + UnboundMessage)
  }

  /** What the result for one keyword would be with the intended
      extraction. */
  predicate IntendedResultFor(keyword: string, limit: int, run: KeywordRun, res: TwitterResult)
  {
    res.keyword == keyword && res.source == TwitterSource
    && match run
       case Failed(message) =>
         res.error == Some(ErrorPrefix + message) && res.screenshot.None? && SimulatedFor(keyword, limit, res.data)
       case Loaded(page, texts, users, now) =>
         res.error.None? && res.screenshot == Some(TwitterScreenshotPath(keyword))
         && LoadedData(keyword, limit, page, texts, users, now, res.data)
  }

  /** Each result so far belongs to its keyword and run. */
  predicate ResultsFor(keywords: seq<string>, limit: int, runs: seq<KeywordRun>, results: seq<TwitterResult>)
    requires |runs| == |keywords|
  {
    |results| <= |keywords| && forall j :: 0 <= j < |results| ==> ResultFor(keywords[j], limit, runs[j], results[j])
  }

  lemma ResultsAppend(keywords: seq<string>, limit: int, runs: seq<KeywordRun>, results: seq<TwitterResult>, res: TwitterResult)
    requires |runs| == |keywords| && ResultsFor(keywords, limit, runs, results) && |results| < |keywords|
    requires ResultFor(keywords[|results|], limit, runs[|results|], res)
    ensures ResultsFor(keywords, limit, runs, results + [res])
  {
    assert forall j :: 0 <= j < |results| ==> (results + [res])[j] == results[j];
  }

  /** The body of the per-keyword `try`, with its handler. */
  method ScrapeKeyword(keyword: string, limit: int, run: KeywordRun) returns (res: TwitterResult)
    ensures ResultFor(keyword, limit, run, res)
  {
    match run
    case Failed(message) =>
      var simulated := GenerateSimulatedTweets(keyword, limit);
      res := TwitterResult(keyword, TwitterSource, simulated, None, Some(ErrorPrefix + message));
    case Loaded(page, texts, users, now) =>
      var screenshotPath := TwitterScreenshotPath(keyword);
      var extracted := ExtractTweets(page, texts, users, limit, now);
      match extracted {
        case Raised =>
          var simulated := GenerateSimulatedTweets(keyword, limit);
          res := TwitterResult(keyword, TwitterSource, simulated, None, Some(ErrorPrefix + UnboundMessage));
        case Returned(tweetData) =>
          if |tweetData| == 0 {
            tweetData := GenerateSimulatedTweets(keyword, limit);
          }
          res := TwitterResult(keyword, TwitterSource, tweetData, Some(screenshotPath), None);
      }
  }

  /** The per-keyword body with the intended extraction. */
  method IntendedScrapeKeyword(keyword: string, limit: int, run: KeywordRun) returns (res: TwitterResult)
    ensures IntendedResultFor(keyword, limit, run, res)
  {
    match run
    case Failed(message) =>
      var simulated := GenerateSimulatedTweets(keyword, limit);
      res := TwitterResult(keyword, TwitterSource, simulated, None, Some(ErrorPrefix + message));
    case Loaded(page, texts, users, now) =>
      var screenshotPath := TwitterScreenshotPath(keyword);
      var tweetData := IntendedExtractTweets(page, texts, users, limit, now);
      if |tweetData| == 0 {
        tweetData := GenerateSimulatedTweets(keyword, limit);
      }
      res := TwitterResult(keyword, TwitterSource, tweetData, Some(screenshotPath), None);
  }

  /** On a page whose steps all succeed, the code as written reports the
      formatting error without a screenshot, where the intended extraction
      returns an error-free result with the screenshot path. */
  lemma LoadedRunEndsInError(keyword: string, limit: int, run: KeywordRun, res: TwitterResult, intended: TwitterResult)
    requires run.Loaded? && ResultFor(keyword, limit, run, res) && IntendedResultFor(keyword, limit, run, intended)
    ensures res.error == Some(ErrorPrefix + UnboundMessage) && res.screenshot.None?
    ensures intended.error.None? && intended.screenshot == Some(TwitterScreenshotPath(keyword))
    ensures res != intended
  {
  }

  /** `scrape`: the session is initialised first, outside the per-keyword
      handler, so a failing initialisation raises; otherwise there is one
      result per keyword, in order. */
  method Scrape(keywords: seq<string>, limit: int, initOk: bool, runs: seq<KeywordRun>)
    returns (r: Outcome<seq<TwitterResult>>)
    requires |runs| == |keywords|
    ensures r.Returned? <==> initOk
    ensures r.Returned? ==> |r.value| == |keywords|
    ensures r.Returned? ==> ResultsFor(keywords, limit, runs, r.value)
    ensures r.Returned? ==> forall j :: 0 <= j < |keywords| ==>
      r.value[j].error.Some? && r.value[j].screenshot.None? && SimulatedFor(keywords[j], limit, r.value[j].data)
  {
    if !initOk {
      return Raised;
    }
    var results: seq<TwitterResult> := [];
    var i := 0;
    while i < |keywords|
      invariant 0 <= i <= |keywords| && |results| == i
      invariant ResultsFor(keywords, limit, runs, results)
    {
      var res := ScrapeKeyword(keywords[i], limit, runs[i]);
      ResultsAppend(keywords, limit, runs, results, res);
      results := results + [res];
      i := i + 1;
    }
    r := Returned(results);
  }

  /** A scraped result is never empty when the limit is positive; it is
      always an error result whose tweets mention the keyword. */
  lemma ResultNonEmpty(keyword: string, limit: int, run: KeywordRun, res: TwitterResult)
    requires limit > 0 && ResultFor(keyword, limit, run, res)
    ensures res.data != []
    ensures res.error.Some? && forall t :: t in res.data ==> Contains(t.text, keyword)
  {
    SimulatedMentionKeyword(keyword, limit, res.data);
  }

  /** With the intended extraction, a result is still never empty when the
      limit is positive, and a failed keyword carries tweets that mention
      it. */
  lemma IntendedResultNonEmpty(keyword: string, limit: int, run: KeywordRun, res: TwitterResult)
    requires limit > 0 && IntendedResultFor(keyword, limit, run, res)
    ensures res.data != []
    ensures res.error.Some? ==> forall t :: t in res.data ==> Contains(t.text, keyword)
  {
    if run.Failed? {
      SimulatedMentionKeyword(keyword, limit, res.data);
    }
  }
}
