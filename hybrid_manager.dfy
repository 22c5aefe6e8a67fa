/** The hybrid scraping manager: one Playwright driver and one browser that
    every manager shares (the module globals `_playwright` and `_browser`),
    and per manager a browsing context, a page and the browser kind in use.
    Every call into Playwright takes an outcome parameter saying whether it
    succeeds; a failure that the source does not catch makes the method
    return `ok == false` (the exception propagates to the caller). */
module HybridManager {
  import opened Prelude
  import opened Text
  import opened Urls
  import opened Handles

  /** The module globals `_playwright` and `_browser`. */
  class Registry {
    var driver: Driver?
    var browser: Browser?

    constructor ()
      ensures driver == null && browser == null
    {
      driver := null;
      browser := null;
    }
  }

  /** The stored-session files on disk, by path. */
  class SessionStore {
    var files: set<string>

    constructor (files: set<string>)
      ensures this.files == files
    {
      this.files := files;
    }

    /** `context.storage_state(path=p)` writing the file p. */
    method Write(path: string)
      modifies this
      ensures files == old(files) + {path}
    {
      files := files + {path};
    }
  }

  function SessionPath(dir: string, name: string): string
  {
    dir + "/" + name
  }

  const DefaultSessionDir := "browser_sessions"
  const DefaultBrowserType := "chromium"
  const LoginTimeout := 300000
  const DefaultCountry := "TR"
  const DefaultTimeframe := "today 3-m"

  /** The engine the first launch attempt uses: any type other than
      "firefox" and "webkit" launches Chromium. */
  function KindFor(browserType: string): (k: BrowserKind)
    ensures k == Firefox <==> browserType == "firefox"
    ensures k == Webkit <==> browserType == "webkit"
    ensures k == Chromium <==> browserType != "firefox" && browserType != "webkit"
  {
    if browserType == "firefox" then Firefox
    else if browserType == "webkit" then Webkit
    else Chromium
  }

  /** The launches `init_browser` attempts when no browser is shared yet: the
      configured engine, and exactly one Chromium launch if that fails. */
  function LaunchAttempts(browserType: string, launchOk: bool): (attempts: seq<BrowserKind>)
    ensures |attempts| == if launchOk then 1 else 2
    ensures attempts[0] == KindFor(browserType)
    ensures !launchOk ==> attempts[1] == Chromium
  {
    if launchOk then [KindFor(browserType)] else [KindFor(browserType), Chromium]
  }

  /** Outcomes of the Playwright calls `init_browser` may make, in the order
      the source makes them. */
  datatype InitOutcomes = InitOutcomes(
    startOk: bool,        // async_playwright().start()
    launchOk: bool,       // launch of the configured engine
    fallbackOk: bool,     // the Chromium fallback launch
    contextOk: bool,      // new_context with the configured options
    plainContextOk: bool, // new_context() without options
    pageOk: bool,         // context.new_page()
    scriptOk: bool,       // page.add_init_script(...)
    closeOk: bool,        // _browser.close() before the Chromium relaunch
    relaunchOk: bool,     // Chromium relaunch after a page failure
    recontextOk: bool,    // new_context() on the relaunched browser
    repageOk: bool)       // new_page() on that context

  /** Whether `init_browser` returns normally, given which globals were set
      when it was called. */
  predicate InitSucceeds(hadDriver: bool, hadBrowser: bool, o: InitOutcomes)
  {
    (hadDriver || o.startOk)
    && (hadBrowser || o.launchOk || o.fallbackOk)
    && (o.contextOk || o.plainContextOk)
    && ((o.pageOk && o.scriptOk) || (o.closeOk && o.relaunchOk && o.recontextOk && o.repageOk))
  }

  class HybridScrapingManager {
    const registry: Registry
    const store: SessionStore
    const sessionDir: string
    const keepOpen: bool
    var context: Context?
    var page: Page?
    var browserType: string

    /** `HybridScrapingManager(session_dir, keep_open, browser_type)`; the
        browser type is lower-cased. */
    constructor (registry: Registry, store: SessionStore, sessionDir: string, keepOpen: bool, browserType: string)
      ensures this.registry == registry && this.store == store
      ensures this.sessionDir == sessionDir && this.keepOpen == keepOpen
      ensures context == null && page == null
      ensures this.browserType == AsciiLower(browserType)
    {
      this.registry := registry;
      this.store := store;
      this.sessionDir := sessionDir;
      this.keepOpen := keepOpen;
      context := null;
      page := null;
      this.browserType := AsciiLower(browserType);
    }

    /** The stored state a new context loads: the session file, only when a
        session name is given and that file exists. */
    function StoredState(sessionName: Option<string>): Option<string>
      reads store
    {
      if Truthy(sessionName) && SessionPath(sessionDir, sessionName.value) in store.files
      then Some(SessionPath(sessionDir, sessionName.value))
      else None
    }

    /** Starts the shared driver only when there is none. */
    method EnsureDriver(startOk: bool) returns (ok: bool)
      modifies registry`driver
      ensures old(registry.driver) != null ==> ok && registry.driver == old(registry.driver)
      ensures old(registry.driver) == null ==> ok == startOk
      ensures old(registry.driver) == null && ok ==>
        registry.driver != null && fresh(registry.driver) && registry.driver.launches == []
      ensures !ok ==> registry.driver == null
    {
      ok := true;
      if registry.driver == null {
        if startOk {
          var d := new Driver();
          registry.driver := d;
        } else {
          ok := false;
        }
      }
    }

    /** Launches the shared browser only when there is none: the configured
        engine first, then exactly one Chromium attempt, which on success
        also sets the browser type to "chromium". */
    method EnsureBrowser(launchOk: bool, fallbackOk: bool) returns (ok: bool)
      requires registry.driver != null
      modifies registry`browser, registry.driver`launches, this`browserType
      ensures old(registry.browser) != null ==>
        ok && registry.browser == old(registry.browser) && browserType == old(browserType)
        && registry.driver.launches == old(registry.driver.launches)
      ensures old(registry.browser) == null ==>
        registry.driver.launches == old(registry.driver.launches) + LaunchAttempts(old(browserType), launchOk)
        && ok == (launchOk || fallbackOk)
        && browserType == (if !launchOk && fallbackOk then "chromium" else old(browserType))
      ensures old(registry.browser) == null && ok ==>
        registry.browser != null && fresh(registry.browser) && registry.browser.open
        && registry.browser.kind == (if launchOk then KindFor(old(browserType)) else Chromium)
      ensures !ok ==> registry.browser == null
    {
      ok := true;
      if registry.browser == null {
        var b := registry.driver.Launch(KindFor(browserType), launchOk);
        if b != null {
          registry.browser := b;
        } else {
          b := registry.driver.Launch(Chromium, fallbackOk);
          if b != null {
            registry.browser := b;
            browserType := "chromium";
          } else {
            ok := false;
          }
        }
      }
    }

    /** Creates this manager's context on the shared browser, with the stored
        state when there is one; if that raises, a context without options. */
    method OpenContext(sessionName: Option<string>, contextOk: bool, plainContextOk: bool) returns (ok: bool)
      requires registry.browser != null
      modifies this`context
      ensures ok == (contextOk || plainContextOk)
      ensures ok ==> (context != null && fresh(context) && context.open && context.owner == registry.browser
        && context.options == (if contextOk then Configured(StoredState(sessionName), None) else NoOptions))
      ensures !ok ==> context == old(context)
    {
      var c := registry.browser.NewContext(Configured(StoredState(sessionName), None), contextOk);
      if c == null {
        c := registry.browser.NewContext(NoOptions, plainContextOk);
      }
      ok := c != null;
      if ok {
        context := c;
      }
    }

    /** Opens the page. If the page or its init script fails, the shared
        browser is closed and replaced by a fresh Chromium browser with a new
        option-less context and page, and the browser type becomes
        "chromium". The close is not guarded: when it raises, the shared
        browser stays set and nothing is relaunched. */
    method OpenPage(pageOk: bool, scriptOk: bool, closeOk: bool, relaunchOk: bool, recontextOk: bool, repageOk: bool)
      returns (ok: bool)
      requires registry.driver != null && context != null
      modifies this`page, this`context, this`browserType, registry`browser, registry.browser
      modifies registry.driver`launches
      ensures pageOk && scriptOk ==>
        ok && page != null && fresh(page) && page.open && page.owner == context
        && context == old(context) && context.open == old(context.open) && registry.browser == old(registry.browser)
        && browserType == old(browserType) && registry.driver.launches == old(registry.driver.launches)
      ensures !(pageOk && scriptOk) ==>
        ok == ((old(registry.browser) == null || closeOk) && relaunchOk && recontextOk && repageOk)
      ensures !(pageOk && scriptOk) && old(registry.browser) != null && !closeOk ==>
        registry.browser == old(registry.browser) && context == old(context)
        && registry.driver.launches == old(registry.driver.launches)
      ensures !(pageOk && scriptOk) && (old(registry.browser) == null || closeOk) ==>
        (old(registry.browser) != null ==> !old(registry.browser).open)
        && registry.driver.launches == old(registry.driver.launches) + [Chromium]
        && (relaunchOk <==> registry.browser != null)
      ensures !(pageOk && scriptOk) && (old(registry.browser) == null || closeOk) && relaunchOk ==>
        registry.browser != null && fresh(registry.browser) && registry.browser.kind == Chromium && registry.browser.open
      ensures !(pageOk && scriptOk) && ok ==>
        context != null && fresh(context) && context.open && context.owner == registry.browser
        && context.options == NoOptions
        && page != null && fresh(page) && page.open && page.owner == context && browserType == "chromium"
      ensures !ok ==> browserType == old(browserType)
    {
      var p := context.NewPage(pageOk);
      if p != null {
        page := p;
        if scriptOk {
          return true;
        }
      }
      if registry.browser != null {
        if !closeOk {
          return false;
        }
        registry.browser.Close();
        registry.browser := null;
      }
      var b := registry.driver.Launch(Chromium, relaunchOk);
      if b == null {
        return false;
      }
      registry.browser := b;
      var c := b.NewContext(NoOptions, recontextOk);
      if c == null {
        return false;
      }
      context := c;
      p := c.NewPage(repageOk);
      if p == null {
        return false;
      }
      page := p;
      browserType := "chromium";
      ok := true;
    }

    /** The part of `init_browser` after the browser exists: the context,
        then the page with its Chromium recovery. */
    method OpenContextAndPage(sessionName: Option<string>, out: InitOutcomes) returns (ok: bool)
      requires registry.driver != null && registry.browser != null
      modifies registry`browser, registry.browser, registry.driver`launches, this`context, this`page, this`browserType
      ensures ok == ((out.contextOk || out.plainContextOk)
        && ((out.pageOk && out.scriptOk) || (out.closeOk && out.relaunchOk && out.recontextOk && out.repageOk)))
      ensures ok ==> (registry.browser != null && context != null && context.open
        && context.owner == registry.browser && page != null && page.open && page.owner == context)
      ensures (out.pageOk && out.scriptOk) || !(out.contextOk || out.plainContextOk) || !out.closeOk ==>
        registry.browser == old(registry.browser) && browserType == old(browserType)
      ensures ok && out.pageOk && out.scriptOk ==>
        context.options == if out.contextOk then Configured(StoredState(sessionName), None) else NoOptions
      ensures ok && !(out.pageOk && out.scriptOk) ==>
        registry.browser.kind == Chromium && browserType == "chromium"
      ensures ok ==>
        registry.driver.launches == old(registry.driver.launches) + (if out.pageOk && out.scriptOk then [] else [Chromium])
    {
      ok := OpenContext(sessionName, out.contextOk, out.plainContextOk);
      if ok {
        ok := OpenPage(out.pageOk, out.scriptOk, out.closeOk, out.relaunchOk, out.recontextOk, out.repageOk);
      }
    }

    /** The part of `init_browser` before the context: the shared driver,
        then the shared browser, each created only when missing. */
    method EnsureShared(startOk: bool, launchOk: bool, fallbackOk: bool) returns (ok: bool)
      modifies registry, registry.driver, this`browserType
      ensures ok == ((old(registry.driver) != null || startOk) && (old(registry.browser) != null || launchOk || fallbackOk))
      ensures old(registry.driver) != null ==> registry.driver == old(registry.driver)
      ensures old(registry.driver) == null && registry.driver != null ==> fresh(registry.driver)
      ensures old(registry.browser) != null ==> registry.browser == old(registry.browser) && browserType == old(browserType)
      ensures old(registry.browser) == null && registry.browser != null ==> fresh(registry.browser)
      ensures ok ==> registry.driver != null && registry.browser != null
      ensures ok && old(registry.browser) == null ==>
        registry.browser.kind == (if launchOk then KindFor(old(browserType)) else Chromium)
      ensures ok && old(registry.browser) == null ==>
        browserType == (if launchOk then old(browserType) else "chromium")
        && registry.driver.launches == (if old(registry.driver) != null then old(registry.driver.launches) else [])
                                       + LaunchAttempts(old(browserType), launchOk)
      ensures ok && old(registry.browser) != null ==>
        registry.driver.launches == (if old(registry.driver) != null then old(registry.driver.launches) else [])
    {
      ok := EnsureDriver(startOk);
      if !ok {
        return;
      }
      ok := EnsureBrowser(launchOk, fallbackOk);
    }

    /** `init_browser(session_name)`: reuses the shared driver and browser
        when they exist, then opens this manager's context and page. */
    method InitBrowser(sessionName: Option<string>, out: InitOutcomes) returns (ok: bool)
      modifies registry, registry.browser, registry.driver, this`context, this`page, this`browserType
      ensures old(registry.driver) != null ==> registry.driver == old(registry.driver)
      ensures old(registry.browser) != null && out.pageOk && out.scriptOk ==> registry.browser == old(registry.browser)
      ensures ok == InitSucceeds(old(registry.driver) != null, old(registry.browser) != null, out)
      ensures ok ==> (registry.driver != null && registry.browser != null
        && context != null && context.open && context.owner == registry.browser
        && page != null && page.open && page.owner == context)
      ensures ok && old(registry.browser) == null && out.pageOk && out.scriptOk ==>
        registry.browser.kind == (if out.launchOk then KindFor(old(browserType)) else Chromium)
        && context.options == (if out.contextOk then Configured(StoredState(sessionName), None) else NoOptions)
      ensures ok && !(out.pageOk && out.scriptOk) ==>
        registry.browser.kind == Chromium && browserType == "chromium"
      ensures ok && out.pageOk && out.scriptOk ==>
        context.options == (if out.contextOk then Configured(StoredState(sessionName), None) else NoOptions)
      ensures ok && out.pageOk && out.scriptOk && old(registry.browser) == null ==>
        browserType == (if out.launchOk then old(browserType) else "chromium")
      ensures ok && out.pageOk && out.scriptOk && old(registry.browser) != null ==> browserType == old(browserType)
      ensures ok ==>
        registry.driver.launches == (if old(registry.driver) != null then old(registry.driver.launches) else [])
          + (if old(registry.browser) == null then LaunchAttempts(old(browserType), out.launchOk) else [])
          + (if out.pageOk && out.scriptOk then [] else [Chromium])
    {
      ok := EnsureShared(out.startOk, out.launchOk, out.fallbackOk);
      if !ok {
        return;
      }
      ok := OpenContextAndPage(sessionName, out);
    }

    /** `__aenter__`. */
    method Enter(out: InitOutcomes) returns (ok: bool)
      modifies registry, registry.browser, registry.driver, this`context, this`page, this`browserType
      ensures old(registry.driver) != null ==> registry.driver == old(registry.driver)
      ensures old(registry.browser) != null && out.pageOk && out.scriptOk ==> registry.browser == old(registry.browser)
      ensures ok == InitSucceeds(old(registry.driver) != null, old(registry.browser) != null, out)
      ensures ok ==> (registry.driver != null && registry.browser != null
        && context != null && context.open && context.owner == registry.browser
        && page != null && page.open && page.owner == context)
      ensures ok && old(registry.browser) == null && out.pageOk && out.scriptOk ==>
        registry.browser.kind == (if out.launchOk then KindFor(old(browserType)) else Chromium)
        && context.options == (if out.contextOk then Configured(StoredState(None), None) else NoOptions)
      ensures ok && !(out.pageOk && out.scriptOk) ==>
        registry.browser.kind == Chromium && browserType == "chromium"
      ensures ok && out.pageOk && out.scriptOk ==>
        context.options == (if out.contextOk then Configured(StoredState(None), None) else NoOptions)
      ensures ok && out.pageOk && out.scriptOk && old(registry.browser) == null ==>
        browserType == (if out.launchOk then old(browserType) else "chromium")
      ensures ok && out.pageOk && out.scriptOk && old(registry.browser) != null ==> browserType == old(browserType)
      ensures ok ==>
        registry.driver.launches == (if old(registry.driver) != null then old(registry.driver.launches) else [])
          + (if old(registry.browser) == null then LaunchAttempts(old(browserType), out.launchOk) else [])
          + (if out.pageOk && out.scriptOk then [] else [Chromium])
    {
      ok := InitBrowser(None, out);
    }

    /** `wait_for_user_login`: True only when both the navigation and the
        wait for the logged-in selector succeed; False on any exception,
        including a missing page. */
    method WaitForUserLogin(url: string, waitSelector: string, timeout: int, gotoOk: bool, selectorOk: bool)
      returns (success: bool)
      modifies page
      ensures success <==> page != null && gotoOk && selectorOk
      ensures page != null ==> (page.log == old(page.log)
        + Attempted([Goto(url, None), WaitForSelector(waitSelector, Some(timeout))], [gotoOk, selectorOk]))
    {
      if page == null {
        return false;
      }
      success := page.CallAll([Goto(url, None), WaitForSelector(waitSelector, Some(timeout))], [gotoOk, selectorOk]);
    }

    /** `save_session(name)`: writes the context's storage state to the
        session file when there is a context; a failing write raises. */
    method SaveSession(sessionName: string, writeOk: bool) returns (ok: bool)
      modifies store
      ensures ok == (context == null || writeOk)
      ensures store.files == if context != null && writeOk
        then old(store.files) + {SessionPath(sessionDir, sessionName)} else old(store.files)
    {
      ok := true;
      if context != null {
        if writeOk {
          store.Write(SessionPath(sessionDir, sessionName));
        } else {
          ok := false;
        }
      }
    }

    /** The two login helpers: wait for the login, and save the session
        under the given name only when the login succeeded. */
    method Login(url: string, waitSelector: string, sessionName: string, gotoOk: bool, selectorOk: bool, writeOk: bool)
      returns (r: Outcome<bool>)
      modifies page, store
      ensures r == LoginResult(page != null && gotoOk && selectorOk, context != null, writeOk)
      ensures store.files == LoginFiles(old(store.files), SessionPath(sessionDir, sessionName),
        page != null && gotoOk && selectorOk, context != null, writeOk)
      ensures page != null ==> page.log == old(page.log) + LoginCalls(url, waitSelector, gotoOk, selectorOk)
    {
      var success := WaitForUserLogin(url, waitSelector, LoginTimeout, gotoOk, selectorOk);
      if success {
        var saved := SaveSession(sessionName, writeOk);
        if !saved {
          return Raised;
        }
      }
      r := Returned(success);
    }

    /** `twitter_login`: waits on the Twitter login page and saves
        "twitter_session" only after a successful login. */
    method TwitterLogin(gotoOk: bool, selectorOk: bool, writeOk: bool) returns (r: Outcome<bool>)
      modifies page, store
      ensures r == LoginResult(page != null && gotoOk && selectorOk, context != null, writeOk)
      ensures store.files == LoginFiles(old(store.files), SessionPath(sessionDir, "twitter_session"),
        page != null && gotoOk && selectorOk, context != null, writeOk)
      ensures page != null ==>
        page.log == old(page.log) + LoginCalls("https://twitter.com/login", "[data-testid='primaryColumn']", gotoOk, selectorOk)
    {
      r := Login("https://twitter.com/login", "[data-testid='primaryColumn']", "twitter_session",
        gotoOk, selectorOk, writeOk);
    }

    /** `google_login`: waits on the Google accounts page and saves
        "google_session" only after a successful login. */
    method GoogleLogin(gotoOk: bool, selectorOk: bool, writeOk: bool) returns (r: Outcome<bool>)
      modifies page, store
      ensures r == LoginResult(page != null && gotoOk && selectorOk, context != null, writeOk)
      ensures store.files == LoginFiles(old(store.files), SessionPath(sessionDir, "google_session"),
        page != null && gotoOk && selectorOk, context != null, writeOk)
      ensures page != null ==>
        page.log == old(page.log) + LoginCalls("https://accounts.google.com", "[data-alternative-action]", gotoOk, selectorOk)
    {
      r := Login("https://accounts.google.com", "[data-alternative-action]", "google_session",
        gotoOk, selectorOk, writeOk);
    }

    /** `get_google_trends_data`: navigates to the explore URL, waits,
        saves the screenshot and evaluates the extraction script. Returns the
        script's value with the screenshot path, or (None, None) when any of
        these calls raises. oks says which of the four calls succeed. */
    method GetGoogleTrendsData<T>(keyword: string, country: string, timeframe: string,
                                  oks: seq<bool>, evaluated: Option<T>)
      returns (data: Option<T>, screenshot: Option<string>)
      requires |oks| == 4
      modifies page
      ensures screenshot.Some? <==> page != null && AllOk(oks)
      ensures screenshot.Some? ==> screenshot.value == TrendsScreenshotPath(keyword) && data == evaluated
      ensures screenshot.None? ==> data.None?
      ensures page != null ==> page.log == old(page.log) + Attempted(
        [Goto(ManagerTrendsUrl(keyword, country, timeframe), None), WaitForTimeout(5000),
         Screenshot(Some(TrendsScreenshotPath(keyword))), Evaluate(None)], oks)
    {
      if page == null {
        return None, None;
      }
      var path := TrendsScreenshotPath(keyword);
      var ok := page.CallAll([Goto(ManagerTrendsUrl(keyword, country, timeframe), None), WaitForTimeout(5000),
                              Screenshot(Some(path)), Evaluate(None)], oks);
      if !ok {
        return None, None;
      }
      data, screenshot := evaluated, Some(path);
    }

    /** `get_twitter_data`: navigates to the search URL, waits, pages down
        three times, saves the screenshot and evaluates the extraction
        script. Returns the extracted tweets with the screenshot path, or
        ([], None) when any of these calls raises. */
    method GetTwitterData<U>(keyword: string, resultCount: int, oks: seq<bool>, extracted: seq<U>)
      returns (tweets: seq<U>, screenshot: Option<string>)
      requires |oks| == |TwitterDataCalls(keyword, resultCount)|
      modifies page
      ensures screenshot.Some? <==> page != null && AllOk(oks)
      ensures screenshot.Some? ==> screenshot.value == TwitterScreenshotPath(keyword) && tweets == extracted
      ensures screenshot.None? ==> tweets == []
      ensures page != null ==> page.log == old(page.log) + Attempted(TwitterDataCalls(keyword, resultCount), oks)
    {
      if page == null {
        return [], None;
      }
      var ok := page.CallAll(TwitterDataCalls(keyword, resultCount), oks);
      if !ok {
        return [], None;
      }
      tweets, screenshot := extracted, Some(TwitterScreenshotPath(keyword));
    }

    /** `close_context`: closes and clears the page, then the context; the
        shared driver and browser are left alone. Neither close is guarded:
        one that raises leaves its handle in place and ends the call. */
    method CloseContext(pageCloseOk: bool, contextCloseOk: bool) returns (ok: bool)
      modifies this`page, this`context, page, context
      ensures ok == ((old(page) == null || pageCloseOk) && (old(context) == null || contextCloseOk))
      ensures old(page) != null && !pageCloseOk ==> page == old(page)
      ensures old(page) == null || pageCloseOk ==> page == null && (old(page) != null ==> !old(page).open)
      ensures ok ==> context == null && (old(context) != null ==> !old(context).open)
      ensures !ok ==> context == old(context)
    {
      if page != null {
        if !pageCloseOk {
          return false;
        }
        page.Close();
        page := null;
      }
      if context != null {
        if !contextCloseOk {
          return false;
        }
        context.Close();
        context := null;
      }
      ok := true;
    }

    /** `__aexit__`: only the context is closed. */
    method Exit(pageCloseOk: bool, contextCloseOk: bool) returns (ok: bool)
      modifies this`page, this`context, page, context
      ensures ok == ((old(page) == null || pageCloseOk) && (old(context) == null || contextCloseOk))
      ensures ok ==> page == null && context == null
      ensures ok && old(page) != null ==> !old(page).open
      ensures ok && old(context) != null ==> !old(context).open
      ensures old(page) != null && !pageCloseOk ==> page == old(page)
      ensures !ok ==> context == old(context)
    {
      ok := CloseContext(pageCloseOk, contextCloseOk);
    }

    /** `close`: closes the context and page and, only when the browser is
        not to be kept open, also closes and clears both globals; a close
        that raises ends the call with its handle in place. */
    method Close(o: CloseOutcomes) returns (ok: bool)
      modifies this`page, this`context, page, context, registry, registry.browser, registry.driver
      ensures var contextClosed := (old(page) == null || o.pageOk) && (old(context) == null || o.contextOk);
        ok == (contextClosed && (keepOpen
          || ((old(registry.browser) == null || o.browserOk) && (old(registry.driver) == null || o.driverOk))))
      ensures (old(page) == null || o.pageOk) ==> page == null && (old(page) != null ==> !old(page).open)
      ensures old(page) != null && !o.pageOk ==> page == old(page)
      ensures !((old(page) == null || o.pageOk) && (old(context) == null || o.contextOk)) ==> context == old(context)
      ensures (old(page) == null || o.pageOk) && (old(context) == null || o.contextOk) ==>
        context == null && (old(context) != null ==> !old(context).open)
      ensures keepOpen || !((old(page) == null || o.pageOk) && (old(context) == null || o.contextOk)) ==>
        registry.browser == old(registry.browser) && registry.driver == old(registry.driver)
      ensures keepOpen && registry.browser != null ==> registry.browser.open == old(registry.browser.open)
      ensures keepOpen && registry.driver != null ==> registry.driver.running == old(registry.driver.running)
      ensures (!keepOpen && (old(page) == null || o.pageOk) && (old(context) == null || o.contextOk)
               && (old(registry.browser) == null || o.browserOk)) ==>
        registry.browser == null && (old(registry.browser) != null ==> !old(registry.browser).open)
      ensures (!keepOpen && (old(page) == null || o.pageOk) && (old(context) == null || o.contextOk)
               && old(registry.browser) != null && !o.browserOk) ==>
        registry.browser == old(registry.browser)
      ensures !ok ==> registry.driver == old(registry.driver)
      ensures ok && !keepOpen ==> registry.browser == null && registry.driver == null
      ensures ok && !keepOpen && old(registry.driver) != null ==> !old(registry.driver).running
    {
      ok := CloseContext(o.pageOk, o.contextOk);
      if ok && !keepOpen {
        ok := CloseAllBrowsers(registry, o.browserOk, o.driverOk);
      }
    }
  }

  /** Whether each close `close` may make succeeds: the page, the context,
      the shared browser and the shared driver's stop. */
  datatype CloseOutcomes = CloseOutcomes(pageOk: bool, contextOk: bool, browserOk: bool, driverOk: bool)

  /** The result of a login helper: the login's success, except that a
      failing session write after a successful login raises. */
  function LoginResult(success: bool, hasContext: bool, writeOk: bool): (r: Outcome<bool>)
    ensures r.Raised? <==> success && hasContext && !writeOk
    ensures r.Returned? ==> r.value == success
  {
    if success && hasContext && !writeOk then Raised else Returned(success)
  }

  /** The session files after a login helper: the session file is added
      exactly when the login succeeded, there is a context and the write
      works. */
  function LoginFiles(files: set<string>, path: string, success: bool, hasContext: bool, writeOk: bool): (after: set<string>)
    ensures files <= after && after <= files + {path}
    ensures path in after <==> path in files || (success && hasContext && writeOk)
  {
    if success && hasContext && writeOk then files + {path} else files
  }

  /** The page calls a login helper makes, cut at the first failure. */
  function LoginCalls(url: string, waitSelector: string, gotoOk: bool, selectorOk: bool): seq<PageCall>
  {
    Attempted([Goto(url, None), WaitForSelector(waitSelector, Some(LoginTimeout))], [gotoOk, selectorOk])
  }

  /** The calls `get_twitter_data` makes on the page, in order. */
  function TwitterDataCalls(keyword: string, resultCount: int): (calls: seq<PageCall>)
    ensures |calls| == 10
  {
    [Goto(TwitterSearchUrl(keyword), None), WaitForTimeout(3000),
     KeyPress("PageDown"), WaitForTimeout(1000), KeyPress("PageDown"), WaitForTimeout(1000),
     KeyPress("PageDown"), WaitForTimeout(1000),
     Screenshot(Some(TwitterScreenshotPath(keyword))), Evaluate(Some(resultCount))]
  }

  /** `close_all_browsers`: closes and clears the shared browser, then the
      shared driver; nothing happens to a global that is already None, and
      a close that raises ends the call with its global in place. */
  method CloseAllBrowsers(registry: Registry, browserCloseOk: bool, stopOk: bool) returns (ok: bool)
    modifies registry, registry.browser, registry.driver
    ensures ok == ((old(registry.browser) == null || browserCloseOk) && (old(registry.driver) == null || stopOk))
    ensures old(registry.browser) != null && !browserCloseOk ==>
      registry.browser == old(registry.browser) && registry.driver == old(registry.driver)
    ensures old(registry.browser) == null || browserCloseOk ==>
      registry.browser == null && (old(registry.browser) != null ==> !old(registry.browser).open)
    ensures ok ==> registry.driver == null && (old(registry.driver) != null ==> !old(registry.driver).running)
    ensures !ok ==> registry.driver == old(registry.driver)
  {
    if registry.browser != null {
      if !browserCloseOk {
        return false;
      }
      registry.browser.Close();
      registry.browser := null;
    }
    if registry.driver != null {
      if !stopOk {
        return false;
      }
      registry.driver.Stop();
      registry.driver := null;
    }
    ok := true;
  }
}
