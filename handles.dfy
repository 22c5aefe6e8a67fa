/** Handles to the external browser-automation objects: the Playwright
    driver, a launched browser, a browsing context, a page, and an HTTP
    client session. Each keeps only what the model needs to observe: whether
    it is still open, what it was created from and, for a page, the calls
    made on it. */
module Handles {
  import opened Prelude

  datatype BrowserKind = Chromium | Firefox | Webkit

  /** What `async_playwright().start()` returns. It records every browser
      launch attempted through it, in order. */
  class Driver {
    var running: bool
    var launches: seq<BrowserKind>

    constructor ()
      ensures running && launches == []
    {
      running := true;
      launches := [];
    }

    /** `playwright.<kind>.launch(...)`; ok says whether the launch succeeds. */
    method Launch(kind: BrowserKind, ok: bool) returns (b: Browser?)
      modifies this`launches
      ensures launches == old(launches) + [kind]
      ensures ok ==> b != null && fresh(b) && b.kind == kind && b.open
      ensures !ok ==> b == null
    {
      launches := launches + [kind];
      if ok {
        b := new Browser(kind);
      } else {
        b := null;
      }
    }

    /** `playwright.stop()`. */
    method Stop()
      modifies this
      ensures !running
    {
      running := false;
    }
  }

  class Browser {
    const kind: BrowserKind
    var open: bool

    constructor (kind: BrowserKind)
      ensures this.kind == kind && open
    {
      this.kind := kind;
      open := true;
    }

    method Close()
      modifies this
      ensures !open
    {
      open := false;
    }

    /** `browser.new_context(**options)`; ok says whether it succeeds. */
    method NewContext(options: ContextOptions, ok: bool) returns (c: Context?)
      ensures ok ==> c != null && fresh(c) && c.owner == this && c.options == options && c.open
      ensures !ok ==> c == null
    {
      if ok {
        c := new Context(this, options);
      } else {
        c := null;
      }
    }
  }

  /** Arguments of `browser.new_context`: none at all, or the configured set
      (viewport and locale, which the model does not track, plus an optional
      stored-state file and an optional user agent). */
  datatype ContextOptions =
    | NoOptions
    | Configured(storageState: Option<string>, userAgent: Option<string>)

  class Context {
    const owner: Browser
    const options: ContextOptions
    var open: bool

    constructor (owner: Browser, options: ContextOptions)
      ensures this.owner == owner && this.options == options && open
    {
      this.owner := owner;
      this.options := options;
      open := true;
    }

    method Close()
      modifies this
      ensures !open
    {
      open := false;
    }

    /** `context.new_page()`; ok says whether it succeeds. */
    method NewPage(ok: bool) returns (p: Page?)
      ensures ok ==> p != null && fresh(p) && p.owner == this && p.open && p.log == []
      ensures !ok ==> p == null
    {
      if ok {
        p := new Page(this);
      } else {
        p := null;
      }
    }
  }

  /** A call made on a page, in the order made; timeouts are in milliseconds. */
  datatype PageCall =
    | Goto(url: string, timeout: Option<int>)
    | WaitForTimeout(ms: int)
    | WaitForSelector(selector: string, timeout: Option<int>)
    | Screenshot(path: Option<string>)
    | Evaluate(arg: Option<int>)
    | KeyPress(key: string)
    | Content
    | Query(selector: string)

  /** A DOM element as the extraction helpers see it. */
  datatype Element = Element(text: Option<string>, attributes: map<string, string>)

  class Page {
    const owner: Context
    var open: bool
    var log: seq<PageCall>
    /** The elements each selector currently matches, in document order. */
    var dom: map<string, seq<Element>>

    constructor (owner: Context)
      ensures this.owner == owner && open && log == [] && dom == map[]
    {
      this.owner := owner;
      open := true;
      log := [];
      dom := map[];
    }

    /** Makes one call on the page; whether it succeeds is decided by the
        caller's outcome parameters. */
    method Call(c: PageCall)
      modifies this`log
      ensures log == old(log) + [c]
    {
      log := log + [c];
    }

    /** Awaits the calls one by one inside one `try`: oks[i] says whether
        calls[i] succeeds, and the first failure raises, so the calls after
        it are never made. */
    method CallAll(calls: seq<PageCall>, oks: seq<bool>) returns (ok: bool)
      requires |calls| == |oks|
      modifies this`log
      ensures ok <==> AllOk(oks)
      ensures log == old(log) + Attempted(calls, oks)
    {
      var n := 0;
      while n < |calls|
        invariant 0 <= n <= |calls|
        invariant log == old(log) + calls[..n]
        invariant forall i :: 0 <= i < n ==> oks[i]
      {
        Call(calls[n]);
        if !oks[n] {
          AttemptedStopsAt(calls, oks, n);
          return false;
        }
        n := n + 1;
      }
      assert calls[..n] == calls;
      ok := true;
    }

    method Close()
      modifies this`open
      ensures !open
    {
      open := false;
    }

    /** The elements `selector` matches. */
    function Matches(selector: string): seq<Element>
      reads this
    {
      if selector in dom then dom[selector] else []
    }
  }

  /** `aiohttp.ClientSession`. */
  class HttpSession {
    var open: bool

    constructor ()
      ensures open
    {
      open := true;
    }

    method Close()
      modifies this
      ensures !open
    {
      open := false;
    }
  }

  predicate AllOk(oks: seq<bool>)
  {
    forall i :: 0 <= i < |oks| ==> oks[i]
  }

  /** The calls actually made when a sequence of awaited calls runs in one
      `try` block: oks[i] says whether calls[i] succeeds, and the first
      failure raises, so nothing after it is made. */
  function Attempted(calls: seq<PageCall>, oks: seq<bool>): (made: seq<PageCall>)
    requires |calls| == |oks|
    ensures |made| <= |calls| && made == calls[..|made|]
    ensures AllOk(oks) ==> made == calls
  {
    if calls == [] then []
    else [calls[0]] + if oks[0] then Attempted(calls[1..], oks[1..]) else []
  }

  /** A failure at step n means exactly the first n + 1 calls were made. */
  lemma {:induction false} AttemptedStopsAt(calls: seq<PageCall>, oks: seq<bool>, n: nat)
    requires |calls| == |oks| && n < |oks| && !oks[n]
    requires forall i :: 0 <= i < n ==> oks[i]
    ensures Attempted(calls, oks) == calls[..n + 1]
  {
    if n > 0 {
      AttemptedStopsAt(calls[1..], oks[1..], n - 1);
      assert calls[..n + 1] == [calls[0]] + calls[1..][..n];
    }
  }
}
