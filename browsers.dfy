/** The parts of the Playwright driver that the session-mode actions use:
    browsers with a liveness flag, pages with an open/closed flag and their
    configuration, and the chromium engine that launches browsers. Whether a
    close, a page creation or a page's set-up call fails is a flag the
    environment sets on the object; a launch fails on the attempts the
    engine was built to refuse. */
module Browsers {
  import opened Wrappers

  /** The error a failed `browser.newPage()` throws. */
  const NewPageError: string := "Target page, context or browser has been closed"

  /** The options `browserType.launch` receives. */
  datatype LaunchConfig = LaunchConfig(
    executablePath: string,
    headless: bool,
    ignoreHTTPSErrors: bool,
    args: seq<string>)

  /** The error a page's awaited set-up call throws once the page, its
      context or its browser is gone. */
  const PageGoneError: string := "Target page, context or browser has been closed"

  /** A page and the configuration the actions apply to it. `setupFails`
      says that its awaited set-up calls (`setViewportSize`,
      `setExtraHTTPHeaders`, the context's `addInitScript`) throw. */
  class PageRef {
    var closed: bool
    const closeFails: bool
    const setupFails: bool
    var closeAttempts: nat
    var viewport: Option<(int, int)>
    var defaultTimeout: Option<int>
    var navigationTimeout: Option<int>
    var extraHeaders: map<string, string>
    /** A user agent installed by an init script on the page's context. */
    var initUserAgent: Option<string>

    constructor ()
      ensures !closed && !closeFails && !setupFails && closeAttempts == 0
      ensures viewport == None && defaultTimeout == None && navigationTimeout == None
      ensures extraHeaders == map[] && initUserAgent == None
    {
      closed := false;
      closeFails := false;
      setupFails := false;
      closeAttempts := 0;
      viewport := None;
      defaultTimeout := None;
      navigationTimeout := None;
      extraHeaders := map[];
      initUserAgent := None;
    }

    /** `page.close()`: `ok` is false when it throws; the page is closed
        afterwards exactly when it was already closed or the close worked. */
    method Close() returns (ok: bool)
      modifies this`closed, this`closeAttempts
      ensures ok == !closeFails
      ensures closed == (old(closed) || ok)
      ensures closeAttempts == old(closeAttempts) + 1
    {
      ok := !closeFails;
      closed := closed || ok;
      closeAttempts := closeAttempts + 1;
    }

    /** `await page.setViewportSize(...)`: `ok` is false when it throws. */
    method SetViewportSize(width: int, height: int) returns (ok: bool)
      modifies this`viewport
      ensures ok == !setupFails
      ensures viewport == if ok then Some((width, height)) else old(viewport)
    {
      ok := !setupFails;
      if ok {
        viewport := Some((width, height));
      }
    }

    method SetDefaultTimeout(ms: int)
      modifies this`defaultTimeout
      ensures defaultTimeout == Some(ms)
    {
      defaultTimeout := Some(ms);
    }

    method SetDefaultNavigationTimeout(ms: int)
      modifies this`navigationTimeout
      ensures navigationTimeout == Some(ms)
    {
      navigationTimeout := Some(ms);
    }

    /** `await page.setExtraHTTPHeaders(...)`: `ok` is false when it throws. */
    method SetExtraHTTPHeaders(headers: map<string, string>) returns (ok: bool)
      modifies this`extraHeaders
      ensures ok == !setupFails
      ensures extraHeaders == if ok then headers else old(extraHeaders)
    {
      ok := !setupFails;
      if ok {
        extraHeaders := headers;
      }
    }

    /** `await page.context().addInitScript(...)` overriding
        `navigator.userAgent`: `ok` is false when it throws. */
    method AddUserAgentInitScript(userAgent: string) returns (ok: bool)
      modifies this`initUserAgent
      ensures ok == !setupFails
      ensures initUserAgent == if ok then Some(userAgent) else old(initUserAgent)
    {
      ok := !setupFails;
      if ok {
        initUserAgent := Some(userAgent);
      }
    }
  }

  /** A launched browser. */
  class BrowserRef {
    var connected: bool
    const closeFails: bool
    const newPageFails: bool
    var closeAttempts: nat

    constructor ()
      ensures connected && !closeFails && !newPageFails && closeAttempts == 0
    {
      connected := true;
      closeFails := false;
      newPageFails := false;
      closeAttempts := 0;
    }

    /** `browser.close()`: `ok` is false when it throws; a close that works
        disconnects the browser. */
    method Close() returns (ok: bool)
      modifies this`connected, this`closeAttempts
      ensures ok == !closeFails
      ensures connected == (old(connected) && !ok)
      ensures closeAttempts == old(closeAttempts) + 1
    {
      ok := !closeFails;
      connected := connected && !ok;
      closeAttempts := closeAttempts + 1;
    }

    /** `browser.newPage()`: a fresh open page, or the driver's error when the
        browser is gone or refuses. */
    method NewPage() returns (r: Result<PageRef>)
      ensures r.Ok? <==> connected && !newPageFails
      ensures r.Ok? ==> fresh(r.value) && !r.value.closed && !r.value.closeFails && r.value.closeAttempts == 0
      ensures r.Ok? ==> !r.value.setupFails
      ensures r.Ok? ==> r.value.viewport == None && r.value.defaultTimeout == None
      ensures r.Ok? ==> r.value.navigationTimeout == None && r.value.extraHeaders == map[]
      ensures r.Ok? ==> r.value.initUserAgent == None
      ensures r.Err? ==> r.error == NewPageError
    {
      if connected && !newPageFails {
        var p := new PageRef();
        r := Ok(p);
      } else {
        r := Err(NewPageError);
      }
    }
  }

  /** `playwright.chromium`: every launch attempt is recorded; the attempts
      whose 0-based number is in `refused` throw `launchError`. */
  class Engine {
    var launches: seq<LaunchConfig>
    const refused: set<nat>
    const launchError: string

    constructor (refused: set<nat>, launchError: string)
      ensures launches == [] && this.refused == refused && this.launchError == launchError
    {
      launches := [];
      this.refused := refused;
      this.launchError := launchError;
    }

    method Launch(config: LaunchConfig) returns (r: Result<BrowserRef>)
      modifies this`launches
      ensures launches == old(launches) + [config]
      ensures r.Ok? <==> |old(launches)| !in refused
      ensures r.Ok? ==> fresh(r.value) && r.value.connected && !r.value.closeFails
      ensures r.Ok? ==> !r.value.newPageFails && r.value.closeAttempts == 0
      ensures r.Err? ==> r.error == launchError
    {
      var attempt := |launches|;
      launches := launches + [config];
      if attempt in refused {
        r := Err(launchError);
      } else {
        var b := new BrowserRef();
        r := Ok(b);
      }
    }
  }
}
