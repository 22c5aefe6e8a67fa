/** The Playwright base scraper: its configuration (wait selector, timeout,
    user agent), the session lifecycle over nullable handles, navigation
    with pacing delays, and element text/attribute extraction. */
module PlaywrightBase {
  import opened Prelude
  import opened Handles

  const DefaultWaitSelector := "body"
  const DefaultTimeout := 60000

  /** The user agents a scraper picks from. */
  const UserAgents: seq<string> := [
    "Mozilla/5.0 (Windows NT 10.0; Win64; x64) AppleWebKit/537.36 (KHTML, like Gecko) Chrome/91.0.4472.124 Safari/537.36",
    "Mozilla/5.0 (Macintosh; Intel Mac OS X 10_15_7) AppleWebKit/605.1.15 (KHTML, like Gecko) Version/14.1.1 Safari/605.1.15",
    "Mozilla/5.0 (Windows NT 10.0; Win64; x64; rv:89.0) Gecko/20100101 Firefox/89.0",
    "Mozilla/5.0 (X11; Linux x86_64) AppleWebKit/537.36 (KHTML, like Gecko) Chrome/92.0.4515.107 Safari/537.36"
  ]

  /** The two keys of `extra_params` the scraper reads; None is a missing key
      (or a missing `extra_params`). */
  datatype ExtraParams = ExtraParams(waitSelector: Option<string>, timeout: Option<int>)

  /** Python `a or b` for an optional string argument. */
  function StringOr(a: Option<string>, b: string): (r: string)
    ensures Truthy(a) ==> r == a.value
    ensures !Truthy(a) ==> r == b
  {
    if Truthy(a) then a.value else b
  }

  /** Python `a or b` for an optional integer argument (0 is falsy). */
  function IntOr(a: Option<int>, b: int): (r: int)
    ensures a.Some? && a.value != 0 ==> r == a.value
    ensures a.None? || a.value == 0 ==> r == b
  {
    if a.Some? && a.value != 0 then a.value else b
  }

  /** Outcomes of the calls `init_session` makes, in order. */
  datatype SessionOutcomes = SessionOutcomes(
    startOk: bool, launchOk: bool, contextOk: bool, contextScriptOk: bool, pageOk: bool, pageScriptOk: bool)

  predicate SessionSucceeds(o: SessionOutcomes)
  {
    o.startOk && o.launchOk && o.contextOk && o.contextScriptOk && o.pageOk && o.pageScriptOk
  }

  /** How many of driver, browser, context and page a first `init_session`
      creates before its first failing call: nothing guards the calls, so
      the handles created so far stay set. */
  function HandlesCreated(o: SessionOutcomes): (n: nat)
    ensures n <= 4
    ensures SessionSucceeds(o) ==> n == 4
    ensures n == 4 ==> o.startOk && o.launchOk && o.contextOk && o.contextScriptOk && o.pageOk
  {
    if !o.startOk then 0
    else if !o.launchOk then 1
    else if !o.contextOk then 2
    else if !o.contextScriptOk || !o.pageOk then 3
    else 4
  }

  /** What the page's `goto` returns: a response (None when Playwright gives
      none) or an exception. */
  datatype Response = Response(status: int)

  /** Outcomes of the calls `navigate` makes that can fail. */
  datatype NavOutcomes = NavOutcomes(goto: Outcome<Option<Response>>, scrollOk: bool, selectorOk: bool)

  /** The pacing delays of `navigate`: before the navigation, after it, after
      the scroll, and at the end. */
  predicate NavDelaysInRange(d: seq<int>)
  {
    |d| == 4 && 1000 <= d[0] <= 3000 && 2000 <= d[1] <= 5000 && 500 <= d[2] <= 1500 && 1000 <= d[3] <= 3000
  }

  /** The calls `navigate` makes on a page, given the timeout and selector it
      uses, the outcomes and the delays drawn. A failed navigation or scroll
      ends in one screenshot; a failed selector wait ends in two, because the
      logging line after the first screenshot slices an un-awaited coroutine
      and the TypeError it raises reaches the outer handler. */
  function NavigateCalls(url: string, timeout: int, selector: string, o: NavOutcomes, d: seq<int>): seq<PageCall>
    requires |d| == 4
  {
    var afterNavigation := if !o.scrollOk then [Screenshot(None)]
      else [WaitForTimeout(d[2])] + SelectorWaitCalls(timeout, selector, o.selectorOk, d[3]);
    [WaitForTimeout(d[0]), Goto(url, Some(timeout))]
    + if o.goto.Raised? then [Screenshot(None)]
      else [WaitForTimeout(d[1]), Evaluate(None)] + afterNavigation
  }

  /** The end of `navigate`: the selector wait when there is a selector, then
      the last delay, or the two screenshots when the wait fails. */
  function SelectorWaitCalls(timeout: int, selector: string, selectorOk: bool, lastDelay: int): seq<PageCall>
  {
    (if selector != "" then [WaitForSelector(selector, Some(timeout))] else [])
    + if selector != "" && !selectorOk then [Screenshot(None), Screenshot(None)] else [WaitForTimeout(lastDelay)]
  }

  /** What `extract_text` and `extract_attribute` return: one optional value,
      or the list of values for `multiple=True`. */
  datatype Extracted = Single(value: Option<string>) | Many(values: seq<Option<string>>)

  /** The handles `close` releases, in the order it releases them. */
  datatype Resource = PageRes | ContextRes | BrowserRes | DriverRes | SessionRes

  function Rank(r: Resource): nat
  {
    match r
    case PageRes => 0
    case ContextRes => 1
    case BrowserRes => 2
    case DriverRes => 3
    case SessionRes => 4
  }

  /** `close` releases r unless the close of a held resource at or before r
      raised (failAt names the one whose close raises). */
  predicate Released(r: Resource, failAt: Option<Resource>, held: set<Resource>)
  {
    !(failAt.Some? && failAt.value in held && Rank(failAt.value) <= Rank(r))
  }

  class PlaywrightBaseScraper {
    const waitSelector: string
    const timeout: int
    const userAgent: string
    var session: HttpSession?
    var driver: Driver?
    var browser: Browser?
    var context: Context?
    var page: Page?

    /** `PlaywrightBaseScraper(source_config)`: "body" and 60000 unless
        `extra_params` says otherwise, and one of the four user agents. */
    constructor (extra: ExtraParams)
      ensures waitSelector == (if extra.waitSelector.Some? then extra.waitSelector.value else DefaultWaitSelector)
      ensures timeout == (if extra.timeout.Some? then extra.timeout.value else DefaultTimeout)
      ensures userAgent in UserAgents
      ensures session == null && driver == null && browser == null && context == null && page == null
    {
      var agent := Choice(UserAgents);
      waitSelector := if extra.waitSelector.Some? then extra.waitSelector.value else DefaultWaitSelector;
      timeout := if extra.timeout.Some? then extra.timeout.value else DefaultTimeout;
      userAgent := agent;
      session := null;
      driver := null;
      browser := null;
      context := null;
      page := null;
    }

    /** The handles currently held. */
    function Held(): set<Resource>
      reads this
    {
      (if page != null then {PageRes} else {}) + (if context != null then {ContextRes} else {})
      + (if browser != null then {BrowserRes} else {}) + (if driver != null then {DriverRes} else {})
      + (if session != null then {SessionRes} else {})
    }

    /** `init_session`: an HTTP session only when there is none, and the
        driver, a Chromium browser, a context and a page only when there is
        no driver. The first failing call raises and leaves the handles set
        so far in place; since the driver is then set, a later call skips
        the whole block and returns normally, without a page if none was
        created. */
    method InitSession(o: SessionOutcomes) returns (ok: bool)
      modifies this`session, this`driver, this`browser, this`context, this`page
      ensures old(session) != null ==> session == old(session)
      ensures old(session) == null ==> session != null && fresh(session) && session.open
      ensures old(driver) != null ==>
        ok && driver == old(driver) && browser == old(browser) && context == old(context) && page == old(page)
      ensures old(driver) == null ==> ok == SessionSucceeds(o)
      ensures old(driver) == null ==>
        (driver != null <==> HandlesCreated(o) >= 1) && (HandlesCreated(o) >= 1 ==> fresh(driver))
      ensures old(driver) == null && HandlesCreated(o) < 2 ==> browser == old(browser)
      ensures old(driver) == null && HandlesCreated(o) >= 2 ==>
        browser != null && fresh(browser) && browser.kind == Chromium
      ensures old(driver) == null && HandlesCreated(o) < 3 ==> context == old(context)
      ensures old(driver) == null && HandlesCreated(o) >= 3 ==> context != null && fresh(context)
      ensures old(driver) == null && HandlesCreated(o) < 4 ==> page == old(page)
      ensures old(driver) == null && HandlesCreated(o) == 4 ==> page != null && fresh(page) && page.owner == context
      ensures old(driver) == null && ok ==>
        driver != null && fresh(driver) && driver.launches == [Chromium]
        && browser != null && fresh(browser) && browser.kind == Chromium
        && context != null && fresh(context) && context.owner == browser
        && context.options == Configured(None, Some(userAgent))
        && page != null && fresh(page) && page.owner == context && page.log == []
    {
      if session == null {
        session := new HttpSession();
      }
      ok := true;
      if driver == null {
        if !o.startOk {
          return false;
        }
        driver := new Driver();
        var b := driver.Launch(Chromium, o.launchOk);
        if b == null {
          return false;
        }
        browser := b;
        ok := OpenContextAndPage(b, o);
      }
    }

    /** The part of `init_session` after the browser launch: the context
        with the chosen user agent and its init script, then the page and
        its init script. A failing step raises and keeps what was set. */
    method OpenContextAndPage(b: Browser, o: SessionOutcomes) returns (ok: bool)
      modifies this`context, this`page
      ensures ok == (o.contextOk && o.contextScriptOk && o.pageOk && o.pageScriptOk)
      ensures !o.contextOk ==> context == old(context)
      ensures o.contextOk ==>
        context != null && fresh(context) && context.owner == b && context.options == Configured(None, Some(userAgent))
      ensures !(o.contextOk && o.contextScriptOk && o.pageOk) ==> page == old(page)
      ensures o.contextOk && o.contextScriptOk && o.pageOk ==>
        page != null && fresh(page) && page.owner == context && page.log == []
    {
      var c := b.NewContext(Configured(None, Some(userAgent)), o.contextOk);
      if c == null {
        return false;
      }
      context := c;
      if !o.contextScriptOk {
        return false;
      }
      var p := c.NewPage(o.pageOk);
      if p == null {
        return false;
      }
      page := p;
      ok := o.pageScriptOk;
    }

    /** `navigate(url, wait_selector, timeout)`: the argument selector and
        timeout when truthy, the configured ones otherwise. Returns the
        navigation's response, or None on any failure, a failed selector
        wait included; delays are the pacing delays drawn. */
    method Navigate(url: string, waitSelectorArg: Option<string>, timeoutArg: Option<int>, o: NavOutcomes)
      returns (response: Option<Response>, ghost delays: seq<int>)
      modifies page
      ensures NavDelaysInRange(delays)
      ensures var selector := StringOr(waitSelectorArg, waitSelector);
        response == if page != null && o.goto.Returned? && o.scrollOk && (selector == "" || o.selectorOk)
          then o.goto.value else None
      ensures page != null ==> (page.log == old(page.log)
        + NavigateCalls(url, IntOr(timeoutArg, timeout), StringOr(waitSelectorArg, waitSelector), o, delays))
    {
      var d0, d1, d2 := 1000, 2000, 500;
      ghost var d3 := 1000;
      if page == null {
        return None, [d0, d1, d2, d3];
      }
      var t := IntOr(timeoutArg, timeout);
      var selector := StringOr(waitSelectorArg, waitSelector);
      d0 := RandInt(1000, 3000);
      page.Call(WaitForTimeout(d0));
      page.Call(Goto(url, Some(t)));
      if o.goto.Raised? {
        page.Call(Screenshot(None));
        return None, [d0, d1, d2, d3];
      }
      d1 := RandInt(2000, 5000);
      page.Call(WaitForTimeout(d1));
      page.Call(Evaluate(None));
      if !o.scrollOk {
        page.Call(Screenshot(None));
        return None, [d0, d1, d2, d3];
      }
      d2 := RandInt(500, 1500);
      page.Call(WaitForTimeout(d2));
      var settled;
      settled, d3 := AwaitSelector(t, selector, o.selectorOk);
      response := if settled then o.goto.value else None;
      delays := [d0, d1, d2, d3];
    }

    /** The selector wait at the end of `navigate`; settled is false when
        the wait fails and `navigate` will return None. */
    method AwaitSelector(timeout: int, selector: string, selectorOk: bool) returns (settled: bool, ghost lastDelay: int)
      requires page != null
      modifies page
      ensures 1000 <= lastDelay <= 3000
      ensures settled == (selector == "" || selectorOk)
      ensures page.log == old(page.log) + SelectorWaitCalls(timeout, selector, selectorOk, lastDelay)
    {
      lastDelay := 1000;
      if selector != "" {
        page.Call(WaitForSelector(selector, Some(timeout)));
        if !selectorOk {
          page.Call(Screenshot(None));
          page.Call(Screenshot(None));
          return false, lastDelay;
        }
      }
      var d := RandInt(1000, 3000);
      lastDelay := d;
      page.Call(WaitForTimeout(d));
      settled := true;
    }

    /** `extract_text(selector, multiple)`: the text of the first match
        (None when nothing matches) or of every match; None or [] when the
        query raises or there is no page. */
    method ExtractText(selector: string, multiple: bool, queryOk: bool) returns (r: Extracted, ghost delay: int)
      modifies page
      ensures 500 <= delay <= 1500
      ensures multiple <==> r.Many?
      ensures page == null || !queryOk ==> r == if multiple then Many([]) else Single(None)
      ensures page != null && queryOk && multiple ==>
        |r.values| == |page.Matches(selector)|
        && forall i :: 0 <= i < |r.values| ==> r.values[i] == page.Matches(selector)[i].text
      ensures page != null && queryOk && !multiple ==>
        r.value == if page.Matches(selector) == [] then None else page.Matches(selector)[0].text
      ensures page != null ==> page.log == old(page.log) + [WaitForTimeout(delay), Query(selector)]
    {
      delay := 500;
      if page == null {
        return if multiple then Many([]) else Single(None), delay;
      }
      var d := RandInt(500, 1500);
      delay := d;
      page.Call(WaitForTimeout(d));
      page.Call(Query(selector));
      var found := page.Matches(selector);
      if !queryOk {
        r := if multiple then Many([]) else Single(None);
      } else if multiple {
        r := Many(seq(|found|, i requires 0 <= i < |found| => found[i].text));
      } else {
        r := Single(if found == [] then None else found[0].text);
      }
    }

    /** `extract_attribute(selector, attribute, multiple)`: as
        `extract_text`, reading an attribute (None where it is absent). */
    method ExtractAttribute(selector: string, attribute: string, multiple: bool, queryOk: bool)
      returns (r: Extracted, ghost delay: int)
      modifies page
      ensures 500 <= delay <= 1500
      ensures multiple <==> r.Many?
      ensures page == null || !queryOk ==> r == if multiple then Many([]) else Single(None)
      ensures page != null && queryOk && multiple ==>
        |r.values| == |page.Matches(selector)|
        && forall i :: 0 <= i < |r.values| ==> r.values[i] == AttributeOf(page.Matches(selector)[i], attribute)
      ensures page != null && queryOk && !multiple ==>
        r.value == if page.Matches(selector) == [] then None else AttributeOf(page.Matches(selector)[0], attribute)
      ensures page != null ==> page.log == old(page.log) + [WaitForTimeout(delay), Query(selector)]
    {
      delay := 500;
      if page == null {
        return if multiple then Many([]) else Single(None), delay;
      }
      var d := RandInt(500, 1500);
      delay := d;
      page.Call(WaitForTimeout(d));
      page.Call(Query(selector));
      var found := page.Matches(selector);
      if !queryOk {
        r := if multiple then Many([]) else Single(None);
      } else if multiple {
        r := Many(seq(|found|, i requires 0 <= i < |found| => AttributeOf(found[i], attribute)));
      } else {
        r := Single(if found == [] then None else AttributeOf(found[0], attribute));
      }
    }

    /** `close`: releases the page, context, browser, driver and session in
        that order, skipping the ones already None and clearing each one
        released; the first close that raises ends the sequence (the
        exception is logged and swallowed). */
    method Close(failAt: Option<Resource>)
      modifies this`page, this`context, this`browser, this`driver, this`session, page, context, browser, driver, session
      ensures Released(PageRes, failAt, old(Held())) ==> page == null && (old(page) != null ==> !old(page).open)
      ensures !Released(PageRes, failAt, old(Held())) ==> page == old(page)
      ensures Released(ContextRes, failAt, old(Held())) ==>
        context == null && (old(context) != null ==> !old(context).open)
      ensures !Released(ContextRes, failAt, old(Held())) ==> context == old(context)
      ensures Released(BrowserRes, failAt, old(Held())) ==>
        browser == null && (old(browser) != null ==> !old(browser).open)
      ensures !Released(BrowserRes, failAt, old(Held())) ==> browser == old(browser)
      ensures Released(DriverRes, failAt, old(Held())) ==>
        driver == null && (old(driver) != null ==> !old(driver).running)
      ensures !Released(DriverRes, failAt, old(Held())) ==> driver == old(driver)
      ensures Released(SessionRes, failAt, old(Held())) ==>
        session == null && (old(session) != null ==> !old(session).open)
      ensures !Released(SessionRes, failAt, old(Held())) ==> session == old(session)
    {
      var raised := ClosePage(failAt == Some(PageRes));
      if raised {
        return;
      }
      raised := CloseContext(failAt == Some(ContextRes));
      if raised {
        return;
      }
      raised := CloseBrowser(failAt == Some(BrowserRes));
      if raised {
        return;
      }
      raised := StopDriver(failAt == Some(DriverRes));
      if raised {
        return;
      }
      raised := CloseSession(failAt == Some(SessionRes));
    }

    /** One step of `close`: raised is true when the handle is held and its
        close raises, which leaves it in place. */
    method ClosePage(fails: bool) returns (raised: bool)
      modifies this`page, page
      ensures raised == (old(page) != null && fails)
      ensures raised ==> page == old(page)
      ensures !raised ==> page == null && (old(page) != null ==> !old(page).open)
    {
      raised := page != null && fails;
      if page != null && !fails {
        page.Close();
        page := null;
      }
    }

    method CloseContext(fails: bool) returns (raised: bool)
      modifies this`context, context
      ensures raised == (old(context) != null && fails)
      ensures raised ==> context == old(context)
      ensures !raised ==> context == null && (old(context) != null ==> !old(context).open)
    {
      raised := context != null && fails;
      if context != null && !fails {
        context.Close();
        context := null;
      }
    }

    method CloseBrowser(fails: bool) returns (raised: bool)
      modifies this`browser, browser
      ensures raised == (old(browser) != null && fails)
      ensures raised ==> browser == old(browser)
      ensures !raised ==> browser == null && (old(browser) != null ==> !old(browser).open)
    {
      raised := browser != null && fails;
      if browser != null && !fails {
        browser.Close();
        browser := null;
      }
    }

    method StopDriver(fails: bool) returns (raised: bool)
      modifies this`driver, driver
      ensures raised == (old(driver) != null && fails)
      ensures raised ==> driver == old(driver)
      ensures !raised ==> driver == null && (old(driver) != null ==> !old(driver).running)
    {
      raised := driver != null && fails;
      if driver != null && !fails {
        driver.Stop();
        driver := null;
      }
    }

    method CloseSession(fails: bool) returns (raised: bool)
      modifies this`session, session
      ensures raised == (old(session) != null && fails)
      ensures raised ==> session == old(session)
      ensures !raised ==> session == null && (old(session) != null ==> !old(session).open)
    {
      raised := session != null && fails;
      if session != null && !fails {
        session.Close();
        session := null;
      }
    }

    /** `__aenter__`. */
    method Enter(o: SessionOutcomes) returns (ok: bool)
      modifies this`session, this`driver, this`browser, this`context, this`page
      ensures old(session) != null ==> session == old(session)
      ensures old(session) == null ==> session != null && fresh(session) && session.open
      ensures old(driver) != null ==>
        ok && driver == old(driver) && browser == old(browser) && context == old(context) && page == old(page)
      ensures old(driver) == null ==> ok == SessionSucceeds(o)
      ensures old(driver) == null ==>
        (driver != null <==> HandlesCreated(o) >= 1) && (HandlesCreated(o) >= 1 ==> fresh(driver))
      ensures old(driver) == null && HandlesCreated(o) < 2 ==> browser == old(browser)
      ensures old(driver) == null && HandlesCreated(o) >= 2 ==>
        browser != null && fresh(browser) && browser.kind == Chromium
      ensures old(driver) == null && HandlesCreated(o) < 3 ==> context == old(context)
      ensures old(driver) == null && HandlesCreated(o) >= 3 ==> context != null && fresh(context)
      ensures old(driver) == null && HandlesCreated(o) < 4 ==> page == old(page)
      ensures old(driver) == null && HandlesCreated(o) == 4 ==> page != null && fresh(page) && page.owner == context
      ensures old(driver) == null && ok ==>
        driver != null && fresh(driver) && driver.launches == [Chromium]
        && browser != null && fresh(browser) && browser.kind == Chromium
        && context != null && fresh(context) && context.owner == browser
        && context.options == Configured(None, Some(userAgent))
        && page != null && fresh(page) && page.owner == context && page.log == []
      ensures session != null
    {
      ok := InitSession(o);
    }

    /** Two `init_session` calls in a row on a fresh scraper: when the first
        raises after starting the driver but before creating the page, the
        second skips the whole block and returns normally, still without a
        page. */
    method InitSessionTwice(first: SessionOutcomes, second: SessionOutcomes) returns (ok1: bool, ok2: bool)
      requires driver == null && page == null
      modifies this`session, this`driver, this`browser, this`context, this`page
      ensures 1 <= HandlesCreated(first) < 4 ==> !ok1 && ok2 && driver != null && page == null
      ensures SessionSucceeds(first) ==> ok1 && ok2 && page != null
    {
      ok1 := InitSession(first);
      ok2 := InitSession(second);
    }

    /** `__aexit__`. */
    method Exit(failAt: Option<Resource>)
      modifies this`page, this`context, this`browser, this`driver, this`session, page, context, browser, driver, session
      ensures failAt.None? ==> page == null && context == null && browser == null && driver == null && session == null
      ensures Released(PageRes, failAt, old(Held())) ==> page == null && (old(page) != null ==> !old(page).open)
      ensures !Released(PageRes, failAt, old(Held())) ==> page == old(page)
      ensures Released(ContextRes, failAt, old(Held())) ==>
        context == null && (old(context) != null ==> !old(context).open)
      ensures !Released(ContextRes, failAt, old(Held())) ==> context == old(context)
      ensures Released(BrowserRes, failAt, old(Held())) ==>
        browser == null && (old(browser) != null ==> !old(browser).open)
      ensures !Released(BrowserRes, failAt, old(Held())) ==> browser == old(browser)
      ensures Released(DriverRes, failAt, old(Held())) ==>
        driver == null && (old(driver) != null ==> !old(driver).running)
      ensures !Released(DriverRes, failAt, old(Held())) ==> driver == old(driver)
      ensures Released(SessionRes, failAt, old(Held())) ==>
        session == null && (old(session) != null ==> !old(session).open)
      ensures !Released(SessionRes, failAt, old(Held())) ==> session == old(session)
    {
      Close(failAt);
    }
  }

  /** `element.get_attribute(name)`: None when the attribute is absent. */
  function AttributeOf(e: Element, name: string): Option<string>
  {
    if name in e.attributes then Some(e.attributes[name]) else None
  }
}
