# KeyTrendAn scraping core in Dafny

KeyTrendAn collects keyword trends from several sources and stores them in SQLite. This project models the parts of it that carry logic:

- **The hybrid scraping manager.** Every manager shares one Playwright driver and one browser, held in module globals. Each manager also has its own browsing context, page and browser type. The model covers launch-once reuse, the one-shot Chromium fallback and the Chromium recovery after a page failure. It also covers the login helpers and stored sessions, the Trends and Twitter page visits, and the close operations.
- **The Playwright base scraper and the plain HTTP base scraper.** This covers their configuration, their session lifecycle over nullable handles, navigation with pacing delays, and text and attribute extraction.
- **Scraper dispatch** (`get_scraper`). It maps a source name and scrape method to a closed set of scraper kinds.
- **The two Playwright scrapers, for Google Trends and Twitter.** Each gives one result per keyword, in order. The model covers:
  - the in-page Trends extraction: "date value" row matching, "D Aaa" normalisation with Turkish month abbreviations, storing only under known days, forward fill, and the clamped mock series;
  - the related-keyword search;
  - tweet extraction. As written, every Twitter keyword ends in the error result with simulated tweets (see "## Findings"). The extraction as evidently intended is modelled beside it: the element strategy, then the HTML fallback with tag stripping, then simulated tweets.
- **The eleven API/mock scrapers** (Reddit, Hacker News, Twitter API, Instagram, LinkedIn, Pinterest, YouTube, News, Amazon, eBay, Otto). For each: the records they generate, the error results they append, and how identifiers and URLs are formed.
- **`Database.get_trends`.** The SQL text and its parameter list grow together, one clause at a time.

How the model handles things outside its reach:

- **Browser, HTTP and filesystem calls** become outcome parameters: a flag saying whether the call succeeds, or the reply it gives. Browser objects are classes with `open` flags, and a page keeps a log of the calls made on it. A close or stop that raises leaves its handle set and ends the close sequence.
- **Random draws** (`random.randint`, `random.choice`) return an arbitrary value inside the stated range.
- **Environment credentials** are parameters.

Where the prose description of the system and the code disagree, the model follows the code:

- **Simulated data is not deterministic.** The description calls it deterministic per keyword. The code uses the per-process salted `hash(keyword)` and the unseeded `random` module, so the model promises nothing about reproducibility.
- **Source quirks are reproduced as written.**
  - `extract_related_keywords` always returns an empty list, because it reads `.length` on a Python list.
  - `navigate` returns None after a failed selector wait, because it slices an un-awaited coroutine.
  - eBay bids are drawn for every listing, because the condition is the always-true literal "Auction".
  - From the tenth record on, Instagram stamps have a three-digit day, such as "2023-01-010".
  - The Twitter Playwright scraper never extracts tweets. The script of `try_multiple_tweet_extraction_methods` is an f-string (src/scraper/playwright/twitter.py:78), and its JavaScript `${i}` defaults (lines 146-147) are read as Python fields naming the function's own local `i`. That local is only assigned by the later fallback loop, so formatting raises UnboundLocalError. `scrape` then reports "Scraping error: …" with simulated tweets and no screenshot for every keyword.

## Model

| member | source | states |
|---|---|---|
| HybridManager.Registry.constructor | src/scraper/hybrid_manager.py:11-12 | Both shared globals, driver and browser, start out as None. |
| HybridManager.HybridScrapingManager.constructor | src/scraper/hybrid_manager.py:21-32 | A new manager has no context and no page, keeps the session directory and keep-open flag, and holds the lower-cased browser type. |
| HybridManager.KindFor | src/scraper/hybrid_manager.py:65-91 | "firefox" launches Firefox and "webkit" launches WebKit. Every other type launches Chromium. Each case is an if-and-only-if. |
| HybridManager.LaunchAttempts | src/scraper/hybrid_manager.py:63-119 | The configured engine is launched once. Exactly one Chromium launch follows, and only when the first launch fails. |
| HybridManager.HybridScrapingManager.EnsureDriver | src/scraper/hybrid_manager.py:49-50 | An existing shared driver is reused unchanged. Otherwise a fresh driver is started, and a failing start leaves none. |
| HybridManager.HybridScrapingManager.EnsureBrowser | src/scraper/hybrid_manager.py:53-119 | An existing shared browser is reused, with no launch and no change of type. Otherwise the driver records exactly the launch attempts above. It succeeds if and only if one of them succeeds, with a browser of the configured or the Chromium kind. A successful fallback sets the type to "chromium", and total failure leaves no browser. |
| HybridManager.HybridScrapingManager.EnsureShared | src/scraper/hybrid_manager.py:49-119 | Succeeds exactly when the driver was held or starts and the browser was held or one of its two launches succeeds. A held driver or browser is kept, and a held browser keeps the type and adds no launch. A new browser has the configured kind, or Chromium after the fallback, which also sets the type to "chromium"; the driver's launch log gains exactly `LaunchAttempts`. |
| HybridManager.HybridScrapingManager.OpenContext | src/scraper/hybrid_manager.py:122-138 | The context carries the stored state only when a session name is given and its file exists. If that creation raises, a context without options is made. It fails only when both creations fail. |
| HybridManager.HybridScrapingManager.OpenPage | src/scraper/hybrid_manager.py:140-199 | If the page and its script succeed, nothing else changes. Otherwise the recovery runs: the old shared browser is closed, then exactly one Chromium relaunch follows with a new option-less context and page, and the type becomes "chromium" when the recovery succeeds. Success is exactly: the close (when a browser was held), the relaunch, the context and the page all succeed. A raising close leaves the browser, the context and the launches as they were. |
| HybridManager.HybridScrapingManager.OpenContextAndPage | src/scraper/hybrid_manager.py:121-199 | Succeeds exactly when a context could be made and the page, or its recovery, succeeded. On success the page belongs to the context, and the context belongs to the current shared browser. |
| HybridManager.HybridScrapingManager.InitBrowser | src/scraper/hybrid_manager.py:44-199 | Returns normally exactly when `InitSucceeds` holds for the globals it found and the outcomes, including the recovery close. It keeps an existing driver, and keeps an existing browser unless the page recovery replaced it. On success it holds an open context and page on the shared browser, of the configured kind or Chromium after a fallback or recovery. Without recovery, the context has the stored-state options when the first creation succeeded and none otherwise, and the type is "chromium" exactly after a launch fallback. The launch log gains the launch attempts and, after a recovery, one more Chromium launch. |
| HybridManager.HybridScrapingManager.Enter | src/scraper/hybrid_manager.py:38-39 | `init_browser` with no session name, with all of its postcondition. |
| HybridManager.HybridScrapingManager.WaitForUserLogin | src/scraper/hybrid_manager.py:201-231 | True if and only if there is a page and both the navigation and the selector wait succeed. The calls made stop at the first failure. |
| HybridManager.HybridScrapingManager.SaveSession | src/scraper/hybrid_manager.py:233-237 | The session file is written only when there is a context. A failing write raises, and nothing else is written. |
| HybridManager.HybridScrapingManager.Login | src/scraper/hybrid_manager.py:239-263 | The result is `LoginResult`: the login's success (page held, navigation and selector wait succeeded), or a raise when the session write fails after a successful login with a context. The stored files are `LoginFiles`: the named session file is added exactly after a successful login with a context and a successful write. The page log gains exactly the navigation and the selector wait, stopping at the first failure. |
| HybridManager.HybridScrapingManager.TwitterLogin | src/scraper/hybrid_manager.py:239-250 | The same three facts as `Login`, with "twitter_session", "https://twitter.com/login" and the primary-column selector fixed. |
| HybridManager.HybridScrapingManager.GoogleLogin | src/scraper/hybrid_manager.py:252-263 | The same three facts as `Login`, with "google_session", "https://accounts.google.com" and the alternative-action selector fixed. |
| HybridManager.LoginResult | src/scraper/hybrid_manager.py:239-263 | Raises exactly when the login succeeded, a context is held and the write fails; otherwise returns the login's success. |
| HybridManager.LoginFiles | src/scraper/hybrid_manager.py:239-263 | Only the session file can be added, and it is present afterwards exactly when it was before or the login and the write both succeeded with a context. |
| HybridManager.HybridScrapingManager.GetGoogleTrendsData | src/scraper/hybrid_manager.py:265-345 | Gives a screenshot path if and only if all four page calls succeed. The path is the Trends screenshot name and the data is the script's value; otherwise the result is (None, None). The page log is the calls up to the first failure, with the explore URL. |
| HybridManager.HybridScrapingManager.GetTwitterData | src/scraper/hybrid_manager.py:347-462 | Gives a screenshot path if and only if all ten page calls succeed: the visit, the three page-downs, the screenshot and the script. The path is the Twitter screenshot name; otherwise the result is ([], None). |
| HybridManager.HybridScrapingManager.CloseContext | src/scraper/hybrid_manager.py:464-472 | Closes and clears the page, then the context; the globals are untouched. Returns normally exactly when each close that is attempted succeeds. A raising page close leaves the page and the context in place; a raising context close leaves the context in place. |
| HybridManager.HybridScrapingManager.Exit | src/scraper/hybrid_manager.py:41-42 | Leaving closes only the context and page, with the same outcome as `CloseContext`. On a normal return both are closed and cleared; a raising page close keeps the page, and any raise keeps the context. |
| HybridManager.HybridScrapingManager.Close | src/scraper/hybrid_manager.py:474-489 | Closes the context and page, then, when keep-open is off, the shared browser and driver. Returns normally exactly when every attempted close or stop succeeds. A close that raises ends the sequence and leaves its handle set: the page after a raising page close, the context after a raising page or context close, the browser after a raising browser close, the driver on any raise. The globals are untouched when keep-open is on or the context close raised. On a normal return without keep-open, both globals are None and the old driver is stopped. |
| HybridManager.CloseAllBrowsers | src/scraper/hybrid_manager.py:493-502 | Returns normally exactly when the browser close (if one is held) and the driver stop (if one is held) succeed. A raising browser close leaves both globals unchanged; a raising stop leaves the driver set. On a normal return both globals are None and each one that was set is closed or stopped. |
| Handles.Page.CallAll | src/scraper/hybrid_manager.py:219-224 | A run of awaited page calls inside one `try` succeeds exactly when every call succeeds. The page log grows by the calls made up to and including the first failure. |
| Handles.AttemptedStopsAt | src/scraper/hybrid_manager.py:219-224 | In a run of awaited calls, a failure at step n means exactly the first n + 1 calls were made. |
| Urls.PlusEncode | src/scraper/hybrid_manager.py:269 | The Trends keyword encoding leaves no space. |
| Urls.PlusEncodeRoundTrip | src/scraper/playwright/google.py:24 | A keyword without '+' is recovered from its Trends encoding. |
| Urls.Percent20Encode | src/scraper/playwright/twitter.py:21 | The Twitter keyword encoding leaves no space. |
| Urls.Percent20RoundTrip | src/scraper/hybrid_manager.py:351 | A keyword without '%' is recovered from its "%20" encoding. |
| Urls.TrendsScreenshotPath | src/scraper/hybrid_manager.py:279 | "google_trends_" + keyword with spaces as '_' + ".png": no space, the prefix, the suffix, and the keyword's length plus 18. |
| Urls.TwitterScreenshotPath | src/scraper/hybrid_manager.py:366 | "twitter_" + keyword with spaces as '_' + ".png": no space, the prefix, the suffix, and the keyword's length plus 12. |
| Urls.TrendsScreenshotDeterminesKeyword | src/scraper/playwright/google.py:58 | For keywords without '_', the screenshot name determines the keyword. |
| PlaywrightBase.StringOr | src/scraper/playwright/base.py:145-148 | Python `a or b` on an optional string: a when it is non-empty, b otherwise. |
| PlaywrightBase.IntOr | src/scraper/playwright/base.py:129 | Python `a or b` on an optional integer: a when it is present and non-zero, b otherwise. |
| PlaywrightBase.PlaywrightBaseScraper.constructor | src/scraper/playwright/base.py:14-31 | The wait selector is "body" and the timeout 60000 unless `extra_params` gives them. The user agent is one of the four listed. No handle is held. |
| PlaywrightBase.PlaywrightBaseScraper.InitSession | src/scraper/playwright/base.py:40-113 | Creates an HTTP session only when there is none. When there is no driver it starts the driver, a Chromium browser, a context with the chosen user agent and an empty-log page; success is exactly `SessionSucceeds`, and exactly the handles created before the first failing step (`HandlesCreated`) are set, the page included when only its init script fails. When a driver is held, it returns normally and keeps every handle, so a re-init after a partial failure returns normally without a page. |
| PlaywrightBase.PlaywrightBaseScraper.OpenContextAndPage | src/scraper/playwright/base.py:58-113 | Succeeds exactly when the context, its init script, the page and its init script all succeed. The context is created, on the given browser with the chosen user agent, exactly when its creation succeeds; the page exactly when the context, its script and the page creation succeed. Otherwise each is unchanged. |
| PlaywrightBase.HandlesCreated | src/scraper/playwright/base.py:40-113 | At most four handles; all four exactly when the driver, browser, context, context script and page steps succeed, and always four after a full success. |
| PlaywrightBase.PlaywrightBaseScraper.InitSessionTwice | src/scraper/playwright/base.py:40-113 | On a fresh scraper whose first init fails after the driver starts but before the page exists, the first call raises and the second returns normally with a driver and no page; after a full success both return normally with a page. |
| PlaywrightBase.PlaywrightBaseScraper.Navigate | src/scraper/playwright/base.py:120-167 | Uses the argument selector and timeout when truthy, the configured ones otherwise. It returns the response only when the visit, the scroll and any selector wait succeed, and None otherwise. The logged calls and the delays are as drawn, each delay in its range. |
| PlaywrightBase.PlaywrightBaseScraper.AwaitSelector | src/scraper/playwright/base.py:145-160 | Settles exactly when there is no selector or the wait succeeds. A failed wait logs two screenshots; the second comes from the handler that the coroutine slice sends to the outer one. |
| PlaywrightBase.PlaywrightBaseScraper.ExtractText | src/scraper/playwright/base.py:169-185 | Multiple mode gives the text of every match, in order. Single mode gives the first match's text, or None when nothing matches. Without a page, or when the query raises, the result is None or []. |
| PlaywrightBase.PlaywrightBaseScraper.ExtractAttribute | src/scraper/playwright/base.py:187-203 | As text extraction, reading the attribute of each match, which is None where it is absent. |
| PlaywrightBase.PlaywrightBaseScraper.Close | src/scraper/playwright/base.py:227-250 | Releases page, context, browser, driver and session in that order, skipping handles that are None. A raising close stops the sequence, so exactly the handles before it are closed and cleared. |
| PlaywrightBase.PlaywrightBaseScraper.ClosePage | src/scraper/playwright/base.py:230-232 | Raises exactly when a page is held and its close fails; otherwise the page is closed and cleared. |
| PlaywrightBase.PlaywrightBaseScraper.CloseContext | src/scraper/playwright/base.py:234-236 | The same for the context. |
| PlaywrightBase.PlaywrightBaseScraper.CloseBrowser | src/scraper/playwright/base.py:238-240 | The same for the browser. |
| PlaywrightBase.PlaywrightBaseScraper.StopDriver | src/scraper/playwright/base.py:242-244 | The same for the driver, which is stopped. |
| PlaywrightBase.PlaywrightBaseScraper.CloseSession | src/scraper/playwright/base.py:246-248 | The same for the HTTP session. |
| PlaywrightBase.PlaywrightBaseScraper.Enter | src/scraper/playwright/base.py:33-35 | Entering is `InitSession`, with all of its postcondition: a session is held, a held driver means a normal return with every handle kept, and otherwise the handles created and the success are as `InitSession` states. |
| PlaywrightBase.PlaywrightBaseScraper.Exit | src/scraper/playwright/base.py:37-38 | Leaving is `Close`, with all of its postcondition: each handle released before the raising close (`Released`) is closed or stopped and cleared, every other handle stays set, and without a raise no handle is left. |
| BaseScraperModel.BaseScraper.constructor | src/scraper/base.py:6-8 | A new scraper has no session. |
| BaseScraperModel.BaseScraper.InitSession | src/scraper/base.py:17-19 | Creates a session only when there is none, so repeated calls keep the same one. |
| BaseScraperModel.BaseScraper.Close | src/scraper/base.py:25-28 | Nothing happens when there is no session. Otherwise the session close is attempted: on success the session is closed and cleared, and a raising close leaves it in place. Returns normally exactly in those two successful cases. |
| BaseScraperModel.BaseScraper.Enter | src/scraper/base.py:10-12 | Entering leaves a session held, the existing one if there was one. |
| BaseScraperModel.BaseScraper.Exit | src/scraper/base.py:14-15 | Leaving closes and clears the session, with the same outcome as `Close`. |
| Dispatch.PlaywrightDispatch | src/scraper/__init__.py:28-37 | Under "playwright" only the two Playwright scrapers are chosen. It is the Google one if and only if the name is "google_trends". |
| Dispatch.MissingKeysDefault | src/scraper/__init__.py:24-25 | A configuration with neither key gets the Twitter Playwright scraper. |
| Dispatch.NonPlaywrightMatchesTable | src/scraper/__init__.py:40-97 | Every other method agrees with the twelve-entry reference table, and gives TwitterScraper for any other name, never a Playwright scraper. |
| Dispatch.NonPlaywrightMethodsAgree | src/scraper/__init__.py:70-97 | "api", "mock" and every other non-Playwright method resolve alike for the same name. |
| Dispatch.CaseInsensitive | src/scraper/__init__.py:24-25 | Lower-casing the name and the method beforehand changes nothing. |
| TrendsExtraction.MonthIndexFrom | src/scraper/playwright/google.py:109 | The first month abbreviation that the text starts with, or -1 when none does. |
| TrendsExtraction.AsciiAbbreviationSkipsShubAndAgu | src/scraper/playwright/google.py:92-93 | The pattern matches only ASCII letters, so "Şub" and "Ağu" are never found. |
| TrendsExtraction.IndexOf | src/scraper/playwright/google.py:118 | A date's position among the table keys, or -1 exactly when it is not a key. |
| TrendsExtraction.SpaceRun | src/scraper/playwright/google.py:92 | The maximal run of whitespace at a position. |
| TrendsExtraction.ValueAt | src/scraper/playwright/google.py:92 | The `\s+(\d{1,3})` part gives a value of at most 999. |
| TrendsExtraction.MatchAt | src/scraper/playwright/google.py:92 | A match at a position is well formed: an ISO date, or one or two day digits with three ASCII letters. |
| TrendsExtraction.FirstMatch | src/scraper/playwright/google.py:96 | The leftmost match of a row is well formed. |
| TrendsExtraction.NormalizeDayMonth | src/scraper/playwright/google.py:102-115 | With a known month, "D Aaa" becomes an ISO date with the year. Its month field denotes the month's position plus one, and its day field denotes the day. |
| TrendsExtraction.UnknownMonthNotIso | src/scraper/playwright/google.py:109-118 | With an unknown month the date stays "D Aaa", which is never a table day. |
| TrendsExtraction.RowEntry | src/scraper/playwright/google.py:95-115 | A matching row contributes a value of at most 999. |
| TrendsExtraction.RowsAppliedChangesOnlyKeys | src/scraper/playwright/google.py:95-122 | A day's value changes only when some row's normalised date is exactly that day, and it then holds that row's value. |
| TrendsExtraction.ApplyRows | src/scraper/playwright/google.py:95-122 | The row loop updating the value array in place ends in the row-by-row specification. |
| TrendsExtraction.ForwardFilled | src/scraper/playwright/google.py:124-134 | Filling keeps the length and leaves every nonzero entry unchanged. |
| TrendsExtraction.ForwardFill | src/scraper/playwright/google.py:125-134 | The in-place loop over the sorted days ends in the forward-filled series. |
| TrendsExtraction.LeadingZerosStay | src/scraper/playwright/google.py:128-134 | Zeros before the first nonzero entry stay zero. |
| TrendsExtraction.ZeroTakesMostRecent | src/scraper/playwright/google.py:128-134 | A zero after a nonzero entry takes the most recent nonzero value. |
| TrendsExtraction.ForwardFillIdempotent | src/scraper/playwright/google.py:124-134 | Filling a filled series changes nothing. |
| TrendsExtraction.FillKeepsAnyPositive | src/scraper/playwright/google.py:137 | Filling creates no positive value, so the "some value > 0" test gives the same answer before and after. |
| TrendsExtraction.Clamp | src/scraper/playwright/google.py:150 | Clamping lands in 0..100 and leaves values already there unchanged. |
| TrendsExtraction.ClampedSeries | src/scraper/playwright/google.py:143-152 | A mock series has one value per day, each in 0..100. |
| TrendsExtraction.ExtractInPage | src/scraper/playwright/google.py:67-157 | The script gives null exactly when it raises. With a chart and some positive value it gives the filled series; otherwise a series over the same days within 0..100. |
| GooglePlaywright.RelatedSelectors | src/scraper/playwright/google.py:207-213 | The five selectors tried, in order. |
| GooglePlaywright.ExtractRelatedKeywords | src/scraper/playwright/google.py:200-255 | Every path ends in the empty list, and all five selectors are waited for, in order, since no attempt stores its items. |
| GooglePlaywright.ListLength | src/scraper/playwright/google.py:246 | `items.length` on the returned Python list always raises. |
| GooglePlaywright.ScrapeKeyword | src/scraper/playwright/google.py:21-196 | A raised step gives "Scraping error: " + message with a mock series in 0..100, and no related lists or screenshot. A loaded page gives the screenshot, empty related lists, and the extracted series, or a series within 0..100. |
| GooglePlaywright.Scrape | src/scraper/playwright/google.py:16-198 | A failing session start raises. Otherwise there is one result per keyword, in order, each as described for a single keyword. |
| GooglePlaywright.ResultSeriesShape | src/scraper/playwright/google.py:164-196 | With a well-formed day table every series has 91 values, none negative. An error result's series lies in 0..100 and its error starts with "Scraping error: ". |
| TwitterPlaywright.SelectedElements | src/scraper/playwright/twitter.py:81-83 | Intended extraction: the current markup's elements, or the legacy ones when the combined selector finds nothing. |
| TwitterPlaywright.Cap | src/scraper/playwright/twitter.py:86 | Intended extraction: `Math.min(found, limit)` as a loop bound: at most both, and equal to one of them (0 for a negative limit). |
| TwitterPlaywright.FirstNumberFrom | src/scraper/playwright/twitter.py:130 | Intended extraction: there is no number exactly when no digit follows the position. |
| TwitterPlaywright.ReadMetrics | src/scraper/playwright/twitter.py:124-142 | Intended extraction: the engagement loop ends in the metrics of all elements, in order. |
| TwitterPlaywright.LastReplyTextWins | src/scraper/playwright/twitter.py:127-131 | Intended extraction: the reply count is the count shown by the last reply text. |
| TwitterPlaywright.NoReplyTextIsZero | src/scraper/playwright/twitter.py:116-131 | Intended extraction: a metric that no text mentions stays 0. |
| TwitterPlaywright.TweetOf | src/scraper/playwright/twitter.py:90-150 | Intended extraction: the name and text are never empty. They are the trimmed element texts when those are non-empty, and "User{i}" / "Tweet {i}" when the element is missing. |
| TwitterPlaywright.Strategy1Bounds | src/scraper/playwright/twitter.py:86-153 | Intended extraction: strategy 1 yields at most the capped count, exactly that many when no element throws, and every tweet has a name and a text. |
| TwitterPlaywright.Strategy1 | src/scraper/playwright/twitter.py:78-157 | Intended extraction: the element loop yields the strategy-1 tweets of the first capped elements. |
| TwitterPlaywright.StripTagsFacts | src/scraper/playwright/twitter.py:175-176 | After tag removal no '<' is followed by a '>'. A text without '<' or without '>' is unchanged. |
| TwitterPlaywright.NoTagLeftAfterStrip | src/scraper/playwright/twitter.py:179-180 | Trimming keeps a text free of tags. |
| TwitterPlaywright.CleanHasNoTag | src/scraper/playwright/twitter.py:175-180 | A cleaned fragment holds no tag and has no surrounding whitespace. |
| TwitterPlaywright.HtmlFallback | src/scraper/playwright/twitter.py:164-190 | Intended extraction: yields `min(len(text_matches), limit)` tweets. Each one is cleaned, takes the matching username or "User{i}", carries the current time and has metrics in the drawn ranges. |
| TwitterPlaywright.FallbackTweetAt | src/scraper/playwright/twitter.py:170-188 | Intended extraction: one fallback tweet: reply 0..50, retweet 0..100, like 0..500, view 1000..10000. |
| TwitterPlaywright.ExtractTweets | src/scraper/playwright/twitter.py:75-157 | As written: always raises, because formatting the strategy-1 script (`ScriptText`) raises before anything reaches the page. |
| TwitterPlaywright.ScriptText | src/scraper/playwright/twitter.py:78-157 | Evaluating the f-string raises: its `{i}` fields (lines 146-147) read a local that only the later loop at line 170 assigns. |
| TwitterPlaywright.IntendedExtractTweets | src/scraper/playwright/twitter.py:75-192 | Intended extraction: strategy 1's tweets when it read any; otherwise the HTML fallback's tweets. |
| TwitterPlaywright.TweetPhrases | src/scraper/playwright/twitter.py:211-222 | Ten phrases, each containing the keyword. |
| TwitterPlaywright.SimulatedMentionKeyword | src/scraper/playwright/twitter.py:211-224 | Every simulated tweet mentions the keyword. |
| TwitterPlaywright.GenerateSimulatedTweets | src/scraper/playwright/twitter.py:194-248 | Exactly `count` tweets (none for a negative count). Each text is one of the phrases, and each name is five lower-case letters + "_" + index, or "User" + a number in 1000..9999. |
| TwitterPlaywright.SimulatedTweetAt | src/scraper/playwright/twitter.py:204-246 | One simulated tweet as above. |
| TwitterPlaywright.ScrapeKeyword | src/scraper/playwright/twitter.py:19-71 | As written: every keyword gives simulated tweets, no screenshot, and "Scraping error: " + the message of the step that raised; for a page whose steps all succeed that is the UnboundLocalError of the script formatting. |
| TwitterPlaywright.IntendedScrapeKeyword | src/scraper/playwright/twitter.py:19-71 | Intended extraction: a raised step gives simulated tweets and "Scraping error: " + message. A loaded page gives the screenshot and, in order of preference, the strategy-1 tweets, then the fallback tweets, then simulated tweets. |
| TwitterPlaywright.LoadedRunEndsInError | src/scraper/playwright/twitter.py:19-78 | For a page whose steps all succeed, the result as written carries the formatting error and no screenshot, while the intended one carries no error and the screenshot path, so the two always differ. |
| TwitterPlaywright.Scrape | src/scraper/playwright/twitter.py:14-73 | A failing session start raises. Otherwise there is one result per keyword, in order, and every result is an error result with simulated tweets and no screenshot. |
| TwitterPlaywright.ResultNonEmpty | src/scraper/playwright/twitter.py:47-71 | With a positive limit no result is empty, and every result is an error result whose tweets mention the keyword. |
| TwitterPlaywright.IntendedResultNonEmpty | src/scraper/playwright/twitter.py:47-71 | Intended extraction: with a positive limit no result is empty, and a failed keyword still carries tweets that mention it. |
| MockCommon.AppendErrorResults | src/scraper/reddit.py:99-105 | Keeps the results so far and appends one error result per keyword, in order. |
| MockCommon.Underscored | src/scraper/linkedin.py:30 | Replacing spaces by '_' leaves no space. |
| MockCommon.Unspaced | src/scraper/instagram.py:24 | Removing spaces leaves no space. |
| MockCommon.Dashed | src/scraper/otto.py:29 | Replacing spaces by '-' leaves no space. |
| MockCommon.ShortCode | src/scraper/amazon.py:30 | At most three characters, no space and no lower-case ASCII letter. |
| MockCommon.PaddedStampDay | src/scraper/linkedin.py:39 | For the first 99 records the zero-padded stamp is 20 characters, and its two day digits denote i + 1. |
| MockCommon.ZeroPrefixedStampOverflows | src/scraper/instagram.py:35 | From the tenth record on, the "0"-prefixed day has three digits: 21 characters, with '0' at the day's start. |
| MockCommon.TenthStamp | src/scraper/instagram.py:35 | The tenth stamp is "2023-01-010T12:00:00Z". |
| MockCommon.IndexedNameDetermines | src/scraper/amazon.py:30 | An identifier of the form prefix + str(i) + non-digit + tail determines i. |
| MockCommon.TrailingIndexDetermines | src/scraper/reddit.py:33 | An identifier of the form prefix + str(i) determines i. |
| RedditScraperModel.MockPost | src/scraper/reddit.py:29-35 | Score is 10·(i+1) and comments 5·(i+1), and the title names the keyword. |
| RedditScraperModel.MockPosts | src/scraper/reddit.py:28-35 | Exactly five mock posts, post j being the j-th. |
| RedditScraperModel.MockPostUrlsDistinct | src/scraper/reddit.py:33 | Different mock posts have different URLs. |
| RedditScraperModel.MockScrape | src/scraper/reddit.py:25-42 | One result per keyword, in order: source "reddit", no error, and the five mock posts whatever the limit. |
| RedditScraperModel.LeadingSuccesses | src/scraper/reddit.py:76-97 | The number of searches before the first one that raises. |
| RedditScraperModel.Searches | src/scraper/reddit.py:76-97 | One result per successful search, in order, stopping at the first that raises. The failure is reported exactly when it stops early. |
| RedditScraperModel.RealScrape | src/scraper/reddit.py:45-105 | Satisfies `RealResults`: a failed token step gives one error result per keyword. A raising search keeps the results so far and then appends one error result for every keyword. |
| RedditScraperModel.Scrape | src/scraper/reddit.py:13-107 | The mock branch gives exactly the mock results. The real branch gives exactly `RealResults` (the error results after a token failure, the posts of the leading successful searches and then one error result per keyword after a raising search), so between one and two results per keyword. Every result has source "reddit" and carries data exactly when it carries no error. |
| RedditScraperModel.FirstKeywordReportedTwice | src/scraper/reddit.py:93-105 | When a search after the first raises, the first keyword is reported twice: once with posts and once with the error. |
| HackerNewsScraperModel.MockHit | src/scraper/hackernews.py:40-46 | Points are 10·(i+1) and comments 5·(i+1), and the title names the keyword. |
| HackerNewsScraperModel.MockHits | src/scraper/hackernews.py:38-46 | Exactly five mock hits, hit j being the j-th. |
| HackerNewsScraperModel.MockHitUrlsDistinct | src/scraper/hackernews.py:44 | Different mock hits have different URLs. |
| HackerNewsScraperModel.BuildMockHits | src/scraper/hackernews.py:55-63 | The mock loop builds exactly the five mock hits. |
| HackerNewsScraperModel.Scrape | src/scraper/hackernews.py:12-69 | One result per keyword, in order: source "hackernews", no error, and the reply's hits on status 200, the mock hits otherwise. |
| HackerNewsScraperModel.FailedSearchGivesMockHits | src/scraper/hackernews.py:36-69 | A non-200 status or an exception gives five hits, with points twice the comments and equal to 10·(i+1), each naming the keyword. |
| TwitterApiModel.MockText | src/scraper/twitter.py:22 | Each mock text ends with the keyword. |
| TwitterApiModel.MockTexts | src/scraper/twitter.py:22 | Exactly five mock texts. |
| TwitterApiModel.TweetsOf | src/scraper/twitter.py:40-48 | One tweet per JSON entry, in order. |
| TwitterApiModel.ReadTweets | src/scraper/twitter.py:40-48 | The reading loop gives exactly those tweets. |
| TwitterApiModel.Scrape | src/scraper/twitter.py:8-71 | One result per keyword. The configured placeholder token always selects the mock branch, which gives the five mock texts. Otherwise each result is that of its reply. |
| TwitterApiModel.MockResultsEndWithKeyword | src/scraper/twitter.py:18-24 | Mock results carry no error and five texts that end with the keyword. |
| TwitterApiModel.ReplyResultError | src/scraper/twitter.py:30-69 | A result has an error exactly when the reply is not status 200, and tweets exactly when it has no error. A non-200 error carries the body as details and its suffix reads back as the status. |
| InstagramScraperModel.Caption | src/scraper/instagram.py:34 | The caption contains "#" + the keyword without spaces. |
| InstagramScraperModel.DrawPost | src/scraper/instagram.py:29-36 | Each post has the fixed id and caption, a type from the list, likes in 10..1000, comments in 0..100 and the "0"-prefixed stamp. |
| InstagramScraperModel.Posts | src/scraper/instagram.py:27-36 | Exactly `limit` posts (none for a negative limit), post i being the i-th. |
| InstagramScraperModel.Finished | src/scraper/instagram.py:47-70 | The number of keywords completed before the failure is at most the number of keywords. |
| InstagramScraperModel.Scrape | src/scraper/instagram.py:13-80 | In the mock branch, or with no failure, there is one full result per keyword. After a failure, the completed results come first, followed by one error result for every keyword. |
| InstagramScraperModel.PostsIdentified | src/scraper/instagram.py:30-34 | Post ids within a result are distinct, and every caption carries the hashtag. |
| InstagramScraperModel.CreatedTimeOverflows | src/scraper/instagram.py:35 | From the tenth post on, the created time has a three-digit day and is not a date. |
| LinkedInScraperModel.DrawPost | src/scraper/linkedin.py:29-41 | Each post has the fixed id, title, author and URL, a "{job} at {industry} Company" title from the lists, engagement in its ranges, the padded stamp and an industry from the list. |
| LinkedInScraperModel.Posts | src/scraper/linkedin.py:27-42 | Exactly `limit` posts, post i being the i-th. |
| LinkedInScraperModel.Scrape | src/scraper/linkedin.py:25-48 | One result per keyword, in order, with source "linkedin" and its posts. |
| LinkedInScraperModel.PostsIdentified | src/scraper/linkedin.py:30-41 | Within a result, ids and URLs are distinct. |
| LinkedInScraperModel.PublishedDay | src/scraper/linkedin.py:39 | For the first 99 posts the publication day's two digits denote i + 1. |
| PinterestScraperModel.DrawPin | src/scraper/pinterest.py:27-37 | Each pin has the fixed id, title, description and URL, a category from the list, counts in their ranges and the padded stamp. |
| PinterestScraperModel.Pins | src/scraper/pinterest.py:25-37 | Exactly `limit` pins, pin i being the i-th. |
| PinterestScraperModel.Scrape | src/scraper/pinterest.py:23-43 | One result per keyword, in order, with source "pinterest" and its pins. |
| PinterestScraperModel.PinsIdentified | src/scraper/pinterest.py:28-36 | Within a result, ids and URLs are distinct. |
| PinterestScraperModel.CreatedDay | src/scraper/pinterest.py:35 | For the first 99 pins the creation day's two digits denote i + 1. |
| YouTubeScraperModel.DrawVideo | src/scraper/youtube.py:25-35 | Each video has the fixed id, title and channel, counts in their ranges, the padded stamp, and the watch URL of its own id. |
| YouTubeScraperModel.Videos | src/scraper/youtube.py:23-35 | Exactly `limit` videos, video i being the i-th. |
| YouTubeScraperModel.Scrape | src/scraper/youtube.py:21-41 | One result per keyword, in order, with source "youtube" and its videos. |
| YouTubeScraperModel.VideosIdentified | src/scraper/youtube.py:25-34 | The URL ends with the video's id, and URLs within a result are distinct. |
| YouTubeScraperModel.PublishedDay | src/scraper/youtube.py:33 | For the first 99 videos the publication day's two digits denote i + 1. |
| NewsScraperModel.ArticleTitle | src/scraper/news.py:28 | The title contains the keyword. |
| NewsScraperModel.ArticleDescription | src/scraper/news.py:29 | The description contains the keyword. |
| NewsScraperModel.DrawArticle | src/scraper/news.py:27-35 | Each article has the fixed title, description and URL, an outlet and a sentiment from the lists, and the padded stamp. |
| NewsScraperModel.Articles | src/scraper/news.py:25-35 | Exactly `limit` articles, article i being the i-th. |
| NewsScraperModel.Scrape | src/scraper/news.py:23-41 | One result per keyword, in order, with source "news" and its articles. |
| NewsScraperModel.ArticlesIdentified | src/scraper/news.py:28-32 | Every title and description names the keyword, and URLs within a result are distinct. |
| NewsScraperModel.PublishedDay | src/scraper/news.py:31 | For the first 99 articles the publication day's two digits denote i + 1. |
| AmazonScraperModel.DrawProduct | src/scraper/amazon.py:28-40 | Each product has the fixed asin, title and brand, reviews in 0..5000, a category and availability from the lists, and the URL of its own asin. |
| AmazonScraperModel.Products | src/scraper/amazon.py:26-40 | Exactly `limit` products, product i being the i-th. |
| AmazonScraperModel.Scrape | src/scraper/amazon.py:24-46 | One result per keyword, in order, with source "amazon" and its products. |
| AmazonScraperModel.AsinDetermines | src/scraper/amazon.py:30 | The asin determines the record index. |
| AmazonScraperModel.ProductsIdentified | src/scraper/amazon.py:30-39 | Every asin ends with the keyword's short code, and URLs within a result are distinct. |
| EbayScraperModel.DrawListing | src/scraper/ebay.py:28-40 | Each listing has the fixed id, title and location, a condition and type from the lists, bids in 0..30 whatever the type, and the URL of its own id. |
| EbayScraperModel.Listings | src/scraper/ebay.py:26-40 | Exactly `limit` listings, listing i being the i-th. |
| EbayScraperModel.Scrape | src/scraper/ebay.py:24-46 | One result per keyword, in order, with source "ebay" and its listings. |
| EbayScraperModel.ItemIdDetermines | src/scraper/ebay.py:30 | The item id determines the record index. |
| EbayScraperModel.ListingsIdentified | src/scraper/ebay.py:30-39 | Within a result, item ids and URLs are distinct. |
| OttoScraperModel.DrawProduct | src/scraper/otto.py:27-39 | Each product has the fixed id, title, brand and URL, reviews in 0..1000, a category from the list and "{1..10} Werktage". |
| OttoScraperModel.Products | src/scraper/otto.py:25-39 | Exactly `limit` products, product i being the i-th. |
| OttoScraperModel.Scrape | src/scraper/otto.py:23-45 | One result per keyword, in order, with source "otto" and its products. |
| OttoScraperModel.ProductsIdentified | src/scraper/otto.py:29-38 | Within a result, product ids and URLs are distinct. |
| DatabaseModel.AddFilter | src/database.py:59-68 | One step extends the statement and the parameters by the same filter. |
| DatabaseModel.GetTrends | src/database.py:55-70 | The statement and the parameters built step by step are those of the filter list for the arguments. |
| DatabaseModel.SelectHasNoPlaceholder | src/database.py:56 | The fixed SELECT has no placeholder. |
| DatabaseModel.NicheHasOnePlaceholder | src/database.py:60 | The niche clause has one placeholder. |
| DatabaseModel.KeywordHasOnePlaceholder | src/database.py:64 | The keyword clause has one placeholder. |
| DatabaseModel.DaysHasOnePlaceholder | src/database.py:67 | The day-window clause has one placeholder. |
| DatabaseModel.OrderHasNoPlaceholder | src/database.py:70 | The ordering has no placeholder. |
| DatabaseModel.PlaceholdersMatchParams | src/database.py:56-70 | The statement has as many '?' as parameters. The placeholder of filter i is preceded by exactly i others, so it binds parameter i. |
| DatabaseModel.FiltersFollowArguments | src/database.py:59-68 | The niche filter is present if and only if the niche is truthy, and is then first. The keyword filter is present if and only if the keyword is truthy, binding "%keyword%". The day window is always last and binds `days`. |
| DatabaseModel.QueryShape | src/database.py:56-70 | The statement starts with the fixed SELECT and ends with the ordering. Its length tells which optional filters it carries. |
| DatabaseModel.QueryDeterminesFilters | src/database.py:59-65 | Two calls give the same statement only when they agree on which filters are on. |

## Left out

- Playwright, aiohttp, SQLite and the filesystem are not modelled. Each call is an outcome parameter. Session-file existence is the set of files in `SessionStore`. Executing the SQL and decoding the rows (`json.loads`) are not modelled.
- Environment variables and credentials (`os.getenv`, `load_dotenv`) are parameters. The Twitter API bearer token is a parameter too; its only configured value is the placeholder.
- Logging, `print` output and the console messages of the login helpers are left out: they have no effect on state.
- The anti-detection init scripts, the mouse/scroll simulation scripts and `os.makedirs` are left out. They are fixed text and side effects with no logic.
- `PlaywrightBaseScraper.evaluate` is not modelled. None of the modelled scrapers calls it; they call the page directly.
- `take_screenshot` appears only as the screenshot calls in a page's log; the image data is not modelled.
- The real Reddit, Hacker News and Twitter API requests are not modelled: the search URLs, headers, limits and token request body. Their replies are parameters.
- Float-valued data is left out: prices, ratings, shipping, seller ratings, relevance scores, the sine/noise curves of the Trends mock and fallback series, and the engagement multipliers of simulated tweets.
- `datetime.now()` and `new Date()` are not modelled. The 91-day table is a given ascending sequence of ISO dates, the year for "D Aaa" dates is a parameter, and "now" is a string parameter. The page script's UTC days and Python's local days are taken to be the same table.
- Case mapping covers ASCII letters only: `str.lower`, `str.upper` and `toLowerCase` on other letters are not modelled.
- The regular-expression searches over raw HTML (`re.findall`) are given as their lists of matches.
- JSON values are typed records. A missing or ill-typed field that would raise is modelled as a raised request, or as `Failed` for the Playwright scrapers.
- GooglePlaywright.ScrapeKeyword: the mock and fallback series are only stated to lie in 0..100, because their values come from floating-point curves.
- TrendsExtraction.ExtractInPage: the in-page mock series is only stated to lie in 0..100, for the same reason.
- TrendsExtraction.ClampedSeries: each value is some clamped value, not the source's curve.
- TwitterPlaywright.GenerateSimulatedTweets: timestamps are not constrained, because they come from the clock. Metric values are not constrained beyond being non-negative, because they are floating-point products.
- TwitterPlaywright.HtmlFallback: every fallback tweet carries the one clock value `now` of its keyword run, although the code reads `datetime.now().isoformat()` per tweet; the element strategy uses the same value for `new Date().toISOString()`, whose format differs. The clock is a parameter, so the model does not tell these readings apart.
- The Twitter formatting error's text (`UnboundMessage`) is the Python 3.11 wording of the UnboundLocalError; earlier versions say "local variable 'i' referenced before assignment".
- TwitterPlaywright.ScrapeKeyword: the page calls of the per-keyword body are not logged. A keyword run is either a raised step with its message or the page contents the scripts see.
- GooglePlaywright.ScrapeKeyword: the page calls of the per-keyword body are not logged, for the same reason.
- HybridManager.HybridScrapingManager.GetGoogleTrendsData: the value of the in-page script (console widgets or random fallback) is a parameter, not modelled.
- HybridManager.HybridScrapingManager.GetTwitterData: the tweets extracted by the in-page script are a parameter, not modelled.
- InstagramScraperModel.Scrape: the exception in the real branch is a parameter naming the keyword it interrupts and its message. Nothing in that branch raises by itself, apart from the draws.
- OttoScraperModel.DrawProduct: `sale_price` is the boolean of whether a sale price is set, because the price itself is floating point.
- The mock scrapers' `init_session` call is modelled once, by `BaseScraperModel.BaseScraper.InitSession`. The scrape methods are module-level methods over their inputs.
- Reproducibility of simulated data is not claimed, because the code uses a salted `hash` and an unseeded `random`.
- Concurrency is not modelled: the async code runs sequentially.

## Findings

| source | as written | input that shows it | evidently intended | confidence | as-written member | corrected member |
|---|---|---|---|---|---|---|
| src/scraper/playwright/twitter.py:78, 146-147 | The strategy-1 script is an f-string whose JavaScript `${i}` defaults are read as Python fields naming the local `i`, which only the fallback loop at line 170 assigns, so formatting raises UnboundLocalError and every keyword gets the error result. | Any keyword whose navigation, wait, screenshot and scroll steps succeed, e.g. `Loaded(TweetPage([], 0, []), [], [], now)` with limit 10. | The braces escaped as `${{i}}`: strategy 1, then the HTML fallback, then simulated tweets, with the screenshot and no error. | not executed | TwitterPlaywright.ExtractTweets, TwitterPlaywright.LoadedRunEndsInError | TwitterPlaywright.IntendedExtractTweets, TwitterPlaywright.IntendedScrapeKeyword |
