/** The session-mode actions of the script node: launch a browser into the
    registry (or reuse the live one), interact with the registry's browser
    (launching one on demand), close one or all sessions, and run a managed
    script on a pooled or shared browser. Each action object owns its own
    instance pool, passed here as `pool`. The user script is opaque: a
    `ScriptRun` says what it returns or throws. */
module SessionActions {
  import opened Wrappers
  import opened Values
  import opened Browsers
  import opened SessionRegistry
  import opened InstancePool

  /** What the user's script did: its return value or the message it threw,
      and the URL its page shows when it is done. */
  datatype ScriptRun = ScriptRun(outcome: Result<Value>, pageUrl: string)

  /** A managed script's result: the script's own fields, and the browser
      that the `browser` key carries when browsers are reused. */
  datatype ManagedResult = ManagedResult(fields: Record, browser: Option<BrowserRef>)

  const SessionIdPrefix: string := "single-browser-"
  const LaunchFailedPrefix: string := "Failed to launch browser: "
  const SessionRequiredError: string := "Session ID is required for browser interaction"
  const InteractFailedPrefix: string := "Browser interaction failed: "
  const CloseFailedPrefix: string := "Failed to close browser: "
  const DefaultViewportWidth: int := 1280
  const DefaultViewportHeight: int := 720

  /** A new session id; `stamp` stands for the clock and random suffix. */
  function NewSessionId(stamp: string): (id: string)
    ensures SessionIdPrefix <= id && id[|SessionIdPrefix|..] == stamp
  {
    SessionIdPrefix + stamp
  }

  function AutoLaunchError(sessionId: string, cause: string): string {
    "Failed to auto-launch browser for session '" + sessionId + "': " + cause
  }

  function LaunchRecord(sessionId: string, browserType: string, connected: bool, reused: bool, now: string): Record {
    map[
      "success" := Bool(true),
      "sessionId" := Str(sessionId),
      "browserType" := Str(browserType),
      "isConnected" := Bool(connected),
      "message" := Str(if reused then "Reusing existing single browser session " + sessionId
                       else "Single browser " + browserType + " launched successfully"),
      "reusedExisting" := Bool(reused),
      "timestamp" := Str(now)]
  }

  function InteractRecord(sessionId: string, autoLaunched: bool, result: Value, pageUrl: string, now: string): Record {
    map[
      "success" := Bool(true),
      "sessionId" := Str(sessionId),
      "autoLaunched" := Bool(autoLaunched),
      "result" := result,
      "pageUrl" := Str(pageUrl),
      "timestamp" := Str(now)]
  }

  function CloseOneMessage(sessionId: string, closed: bool): string {
    if closed then "Browser session '" + sessionId + "' closed successfully"
    else "Browser session '" + sessionId + "' was already closed or not found"
  }

  function CloseOneRecord(sessionId: string, closed: bool, now: string): Record {
    map["success" := Bool(true), "message" := Str(CloseOneMessage(sessionId, closed)),
        "sessionId" := Str(sessionId), "timestamp" := Str(now)]
  }

  function CloseAllRecord(count: nat, now: string): Record {
    map["success" := Bool(true), "message" := Str("Closed " + NatToString(count) + " browser session(s)"),
        "timestamp" := Str(now)]
  }

  /** The pool will have to launch for this request, and the launch throws. */
  ghost predicate LaunchWillFail(pool: BrowserPool, browserType: string, options: BrowserOptions)
    reads pool, pool.instances.Values, pool.engine
  {
    var key := CacheKey(browserType, options);
    !(key in pool.instances && pool.instances[key].connected)
    && |pool.engine.launches| in pool.engine.refused
  }

  /** The launch action. A live registry browser with a non-empty id is
      reported as reused and the pool is not consulted. Otherwise a new id
      is made, a browser comes from the pool and is installed under that
      id; a pool failure is reported with the launch prefix and leaves the
      registry as the liveness check left it. */
  method BrowserLaunch(registry: BrowserSessionManager, pool: BrowserPool, browserType: string,
                       options: BrowserOptions, stamp: string, now: string)
    returns (r: Result<Record>)
    requires registry.Valid()
    modifies registry, registry.Held(), pool`instances, pool.engine`launches
    ensures registry.Valid()
    ensures old(registry.Live()) && old(registry.sessionId).value != "" ==>
      r == Ok(LaunchRecord(old(registry.sessionId).value, browserType, true, true, now))
      && registry.browser == old(registry.browser) && registry.sessionId == old(registry.sessionId)
      && registry.pages == old(registry.pages) && registry.Live()
      && pool.instances == old(pool.instances) && pool.engine.launches == old(pool.engine.launches)
    ensures !(old(registry.Live()) && old(registry.sessionId).value != "") ==>
      (r.Err? <==> old(LaunchWillFail(pool, browserType, options)))
      && (r.Err? ==> r.error == LaunchFailedPrefix + pool.engine.launchError
                     && registry.browser == (if old(registry.Live()) then old(registry.browser) else None)
                     && registry.sessionId == (if old(registry.Live()) then old(registry.sessionId) else None)
                     && registry.Live() == old(registry.Live()))
      && (r.Ok? ==> var id := NewSessionId(stamp);
                    registry.sessionId == Some(id) && registry.pages == map[] && registry.browser.Some?
                    && (!old(registry.Live()) ==> registry.browser.value.connected)
                    && CacheKey(browserType, options) in pool.instances
                    && pool.instances[CacheKey(browserType, options)] == registry.browser.value
                    && r.value == LaunchRecord(id, browserType, registry.browser.value.connected, false, now))
    ensures registry.browser.Some? ==>
      registry.browser == old(registry.browser) || registry.browser.value in pool.instances.Values
    ensures registry.pages == old(registry.pages) || registry.pages == map[]
    ensures NotRevived(registry) && Grown(pool) && Kept(pool, old(pool.instances.Values))
  {
    var existingBrowser := registry.GetSingleBrowser();
    var existingSessionId := registry.GetSingleSessionId();
    if existingBrowser.Some? && existingSessionId.Some? && existingSessionId.value != "" {
      return Ok(LaunchRecord(existingSessionId.value, browserType, existingBrowser.value.connected, true, now));
    }
    var sessionId := NewSessionId(stamp);
    var acquired := pool.GetBrowserInstance(browserType, options);
    if acquired.Err? {
      return Err(LaunchFailedPrefix + acquired.error);
    }
    var browser := acquired.value;
    registry.SetSingleBrowser(sessionId, browser);
    return Ok(LaunchRecord(sessionId, browserType, browser.connected, false, now));
  }

  /** The registry's reusable page is cached and still open. */
  predicate CachedOpen(pages: map<string, PageRef>)
    reads pages.Values
  {
    DefaultPageId in pages && !pages[DefaultPageId].closed
  }

  /** The browser the interact action works with: the registry's live one,
      used as it is; otherwise a pool browser installed under `sessionId`. */
  method SessionBrowser(registry: BrowserSessionManager, pool: BrowserPool, sessionId: string,
                        browserType: string, options: BrowserOptions)
    returns (r: Result<BrowserRef>, autoLaunched: bool)
    requires registry.Valid()
    modifies registry, registry.Held(), pool`instances, pool.engine`launches
    ensures registry.Valid()
    ensures old(registry.Live()) ==>
      r == Ok(old(registry.browser).value) && !autoLaunched
      && registry.browser == old(registry.browser) && registry.sessionId == old(registry.sessionId)
      && registry.pages == old(registry.pages) && registry.Live()
      && pool.instances == old(pool.instances) && pool.engine.launches == old(pool.engine.launches)
    ensures !old(registry.Live()) && old(LaunchWillFail(pool, browserType, options)) ==>
      r == Err(AutoLaunchError(sessionId, pool.engine.launchError)) && !autoLaunched
      && registry.browser == None && registry.sessionId == None
    ensures !old(registry.Live()) && !old(LaunchWillFail(pool, browserType, options)) ==>
      r.Ok? && autoLaunched && registry.Live()
      && registry.browser == Some(r.value) && registry.sessionId == Some(sessionId) && registry.pages == map[]
      && CacheKey(browserType, options) in pool.instances
      && pool.instances[CacheKey(browserType, options)] == r.value
    ensures registry.pages == old(registry.pages) || registry.pages == map[]
    ensures NotRevived(registry) && Grown(pool) && Kept(pool, old(pool.instances.Values))
  {
    var found := registry.GetBrowserSession(sessionId);
    if found.Some? {
      return Ok(found.value), false;
    }
    var acquired := pool.GetBrowserInstance(browserType, options);
    if acquired.Err? {
      return Err(AutoLaunchError(sessionId, acquired.error)), false;
    }
    registry.SetBrowserSession(sessionId, acquired.value);
    return Ok(acquired.value), true;
  }

  /** The page the interact script runs on. With `reusePages` the open page
      cached as "page" is returned, or else a new page is opened and cached
      under that name; without it a new page is opened and the cache is not
      touched. A failing `newPage` carries the interaction prefix. */
  method InteractPage(registry: BrowserSessionManager, browser: BrowserRef, sessionId: string, reusePages: bool)
    returns (r: Result<PageRef>)
    modifies registry`pages
    ensures reusePages && CachedOpen(old(registry.pages)) ==>
      r == Ok(old(registry.pages)[DefaultPageId]) && registry.pages == old(registry.pages)
    ensures !(reusePages && CachedOpen(old(registry.pages))) ==>
      (r.Ok? <==> browser.connected && !browser.newPageFails)
      && (r.Err? ==> r.error == InteractFailedPrefix + NewPageError && registry.pages == old(registry.pages))
      && (r.Ok? ==> fresh(r.value) && !r.value.closed && !r.value.setupFails && r.value.viewport == None
                    && r.value.defaultTimeout == None && r.value.navigationTimeout == None
                    && registry.pages == if reusePages then old(registry.pages)[DefaultPageId := r.value]
                                         else old(registry.pages))
  {
    if reusePages {
      var existing := registry.GetPageSession(sessionId, DefaultPageId);
      if existing.Some? {
        return Ok(existing.value);
      }
    }
    var created := browser.NewPage();
    if created.Err? {
      return Err(InteractFailedPrefix + created.error);
    }
    if reusePages {
      registry.SetPageSession(sessionId, DefaultPageId, created.value);
    }
    return Ok(created.value);
  }

  /** The page's awaited set-up calls for these options throw. */
  predicate SetupThrows(page: PageRef, options: BrowserOptions)
    reads page
  {
    page.setupFails && (options.viewportWidth != 0 || options.viewportHeight != 0 || options.userAgent != "")
  }

  /** A page whose set-up did not throw carries every option that was
      given: the viewport when either side is given (the other defaulting
      to 1280 by 720), the user agent and each non-zero timeout. */
  predicate ConfiguredFor(page: PageRef, options: BrowserOptions)
    reads page
  {
    !SetupThrows(page, options) ==>
      ((options.viewportWidth != 0 || options.viewportHeight != 0) ==>
         page.viewport == Some((OrDefault(options.viewportWidth, DefaultViewportWidth),
                                OrDefault(options.viewportHeight, DefaultViewportHeight))))
      && (options.userAgent != "" ==> page.initUserAgent == Some(options.userAgent))
      && (options.defaultTimeout != 0 ==> page.defaultTimeout == Some(options.defaultTimeout))
      && (options.navigationTimeout != 0 ==> page.navigationTimeout == Some(options.navigationTimeout))
  }

  /** A page opened for this item carries no viewport or timeout that was
      not given. */
  predicate OnlyGiven(page: PageRef, options: BrowserOptions)
    reads page
  {
    (options.viewportWidth == 0 && options.viewportHeight == 0 ==> page.viewport == None)
    && (options.defaultTimeout == 0 ==> page.defaultTimeout == None)
    && (options.navigationTimeout == 0 ==> page.navigationTimeout == None)
  }

  /** The interact action's page set-up: the viewport when either side is
      given (the other defaulting to 1280 by 720), the user agent through a
      context init script, and each timeout when it is non-zero. The first
      awaited call that throws ends the set-up (`ok` false) with nothing
      after it applied. */
  method ConfigureInteractPage(page: PageRef, options: BrowserOptions) returns (ok: bool)
    modifies page`viewport, page`initUserAgent, page`defaultTimeout, page`navigationTimeout
    ensures ok == !SetupThrows(page, options)
    ensures !ok ==>
      page.viewport == old(page.viewport) && page.initUserAgent == old(page.initUserAgent)
      && page.defaultTimeout == old(page.defaultTimeout) && page.navigationTimeout == old(page.navigationTimeout)
    ensures ok ==>
      page.viewport == (if options.viewportWidth != 0 || options.viewportHeight != 0
                        then Some((OrDefault(options.viewportWidth, DefaultViewportWidth),
                                   OrDefault(options.viewportHeight, DefaultViewportHeight)))
                        else old(page.viewport))
    ensures ok ==>
      page.initUserAgent == if options.userAgent != "" then Some(options.userAgent) else old(page.initUserAgent)
    ensures ok ==>
      page.defaultTimeout == if options.defaultTimeout != 0 then Some(options.defaultTimeout) else old(page.defaultTimeout)
    ensures ok ==>
      page.navigationTimeout ==
        if options.navigationTimeout != 0 then Some(options.navigationTimeout) else old(page.navigationTimeout)
  {
    if options.viewportWidth != 0 || options.viewportHeight != 0 {
      ok := page.SetViewportSize(OrDefault(options.viewportWidth, DefaultViewportWidth),
                                 OrDefault(options.viewportHeight, DefaultViewportHeight));
      if !ok {
        return;
      }
    }
    if options.userAgent != "" {
      ok := page.AddUserAgentInitScript(options.userAgent);
      if !ok {
        return;
      }
    }
    ok := true;
    if options.defaultTimeout != 0 {
      page.SetDefaultTimeout(options.defaultTimeout);
    }
    if options.navigationTimeout != 0 {
      page.SetDefaultNavigationTimeout(options.navigationTimeout);
    }
  }

  /** The interact action. An empty id is refused before the registry is
      read. A live registry browser is used as it is, keeping its own id;
      otherwise a pool browser is installed under the given id
      (`autoLaunched`). The page comes from `InteractPage` and is set up by
      `ConfigureInteractPage`; every failure after the browser is in hand
      carries the interaction prefix. `used` is the page the script ran on;
      it is left open. */
  method BrowserInteract(registry: BrowserSessionManager, pool: BrowserPool, sessionId: string,
                         browserType: string, options: BrowserOptions, reusePages: bool,
                         script: ScriptRun, now: string)
    returns (r: Result<Record>, ghost used: Option<PageRef>)
    requires registry.Valid()
    modifies registry, registry.Held(), registry.pages.Values, pool`instances, pool.engine`launches
    ensures registry.Valid()
    ensures sessionId == "" ==>
      r == Err(SessionRequiredError) && used == None
      && registry.browser == old(registry.browser) && registry.sessionId == old(registry.sessionId)
      && registry.pages == old(registry.pages)
      && pool.instances == old(pool.instances) && pool.engine.launches == old(pool.engine.launches)
    ensures sessionId != "" && old(registry.Live()) ==>
      registry.browser == old(registry.browser) && registry.sessionId == old(registry.sessionId) && registry.Live()
      && pool.instances == old(pool.instances) && pool.engine.launches == old(pool.engine.launches)
    ensures sessionId != "" && !old(registry.Live()) && old(LaunchWillFail(pool, browserType, options)) ==>
      r == Err(AutoLaunchError(sessionId, pool.engine.launchError)) && used == None
      && registry.browser == None && registry.sessionId == None
    ensures sessionId != "" && !old(registry.Live()) && !old(LaunchWillFail(pool, browserType, options)) ==>
      registry.sessionId == Some(sessionId) && registry.Live()
      && CacheKey(browserType, options) in pool.instances
      && registry.browser.value == pool.instances[CacheKey(browserType, options)]
    // which page the script ran on
    ensures used.Some? && reusePages && old(registry.Live()) && old(CachedOpen(registry.pages)) ==>
      used.value == old(registry.pages)[DefaultPageId] && registry.pages == old(registry.pages)
    ensures used.Some? && reusePages && !(old(registry.Live()) && old(CachedOpen(registry.pages))) ==>
      fresh(used.value)
      && registry.pages == (if old(registry.Live()) then old(registry.pages) else map[])[DefaultPageId := used.value]
    ensures used.Some? && !reusePages ==>
      fresh(used.value) && registry.pages == if old(registry.Live()) then old(registry.pages) else map[]
    // how it was set up
    ensures used.Some? ==> !used.value.closed
    ensures used.Some? && fresh(used.value) ==> !used.value.setupFails
    ensures used.Some? ==> ConfiguredFor(used.value, options)
    ensures used.Some? && fresh(used.value) ==> OnlyGiven(used.value, options)
    // what it returns
    ensures r.Ok? ==> (used.Some? && !SetupThrows(used.value, options) && script.outcome.Ok?
      && r.value == InteractRecord(sessionId, !old(registry.Live()), script.outcome.value, script.pageUrl, now))
    ensures used.Some? && SetupThrows(used.value, options) ==> r == Err(InteractFailedPrefix + PageGoneError)
    ensures used.Some? && !SetupThrows(used.value, options) && script.outcome.Ok? ==> r.Ok?
    ensures used.Some? && !SetupThrows(used.value, options) && script.outcome.Err? ==>
      r == Err(InteractFailedPrefix + script.outcome.error)
    ensures r.Err? && used.None? && sessionId != ""
            && !(!old(registry.Live()) && old(LaunchWillFail(pool, browserType, options))) ==>
      r == Err(InteractFailedPrefix + NewPageError)
    // where the registry's and the pool's objects come from
    ensures registry.browser.Some? ==>
      registry.browser == old(registry.browser) || registry.browser.value in pool.instances.Values
    ensures forall p :: p in registry.pages.Values ==> p in old(registry.pages.Values) || fresh(p)
    ensures NotRevived(registry) && Grown(pool) && Kept(pool, old(pool.instances.Values))
  {
    if sessionId == "" {
      return Err(SessionRequiredError), None;
    }
    var acquired, autoLaunched := SessionBrowser(registry, pool, sessionId, browserType, options);
    if acquired.Err? {
      return Err(acquired.error), None;
    }
    r, used := InteractOnPage(registry, acquired.value, sessionId, options, reusePages, script, autoLaunched, now);
  }

  /** The interact action once its browser is in hand: the page from
      `InteractPage`, its set-up, and the script's outcome in the result
      record; every failure carries the interaction prefix. `used` is the
      page the script ran on. */
  method InteractOnPage(registry: BrowserSessionManager, browser: BrowserRef, sessionId: string,
                        options: BrowserOptions, reusePages: bool, script: ScriptRun, autoLaunched: bool,
                        now: string)
    returns (r: Result<Record>, ghost used: Option<PageRef>)
    modifies registry`pages, registry.pages.Values
    // which page
    ensures reusePages && old(CachedOpen(registry.pages)) ==>
      used == Some(old(registry.pages)[DefaultPageId]) && registry.pages == old(registry.pages)
    ensures !(reusePages && old(CachedOpen(registry.pages))) ==>
      (used.Some? <==> browser.connected && !browser.newPageFails)
      && (used.None? ==> r == Err(InteractFailedPrefix + NewPageError) && registry.pages == old(registry.pages))
      && (used.Some? ==> fresh(used.value) && !used.value.setupFails
                         && registry.pages == if reusePages then old(registry.pages)[DefaultPageId := used.value]
                                              else old(registry.pages))
    ensures forall p :: p in registry.pages.Values ==> p in old(registry.pages.Values) || fresh(p)
    // how it was set up
    ensures used.Some? ==> !used.value.closed
    ensures used.Some? ==> ConfiguredFor(used.value, options)
    ensures used.Some? && fresh(used.value) ==> OnlyGiven(used.value, options)
    // what it returns
    ensures r.Ok? ==> (used.Some? && !SetupThrows(used.value, options) && script.outcome.Ok?
      && r.value == InteractRecord(sessionId, autoLaunched, script.outcome.value, script.pageUrl, now))
    ensures used.Some? && SetupThrows(used.value, options) ==> r == Err(InteractFailedPrefix + PageGoneError)
    ensures used.Some? && !SetupThrows(used.value, options) && script.outcome.Ok? ==> r.Ok?
    ensures used.Some? && !SetupThrows(used.value, options) && script.outcome.Err? ==>
      r == Err(InteractFailedPrefix + script.outcome.error)
  {
    var gotPage := InteractPage(registry, browser, sessionId, reusePages);
    if gotPage.Err? {
      return Err(gotPage.error), None;
    }
    var page := gotPage.value;
    used := Some(page);
    var configured := ConfigureInteractPage(page, options);
    if !configured {
      return Err(InteractFailedPrefix + PageGoneError), used;
    }
    if script.outcome.Err? {
      r := Err(InteractFailedPrefix + script.outcome.error);
    } else {
      r := Ok(InteractRecord(sessionId, autoLaunched, script.outcome.value, script.pageUrl, now));
    }
  }

  /** The close action. A non-empty id closes the one session (whatever id
      it names) and the message says whether that close reported success;
      otherwise all sessions are closed and the message gives the count.
      It always succeeds, even when nothing was closed. */
  method BrowserClose(registry: BrowserSessionManager, sessionId: Option<string>, now: string)
    returns (r: Result<Record>)
    requires registry.Valid()
    modifies registry, registry.Held(), registry.pages.Values
    ensures registry.Valid()
    ensures r.Ok? && Get(r.value, "success") == Bool(true)
    ensures sessionId.Some? && sessionId.value != "" ==>
      registry.browser == None && registry.sessionId == None
      && r.value == CloseOneRecord(sessionId.value, old(registry.Live()) && !old(registry.browser.value.closeFails), now)
    ensures !(sessionId.Some? && sessionId.value != "") ==>
      var closedOne := old(registry.sessionId).Some? && old(registry.sessionId).value != ""
                       && old(registry.Live()) && !old(registry.browser.value.closeFails);
      r.value == CloseAllRecord(if closedOne then 1 else 0, now)
      && (if old(registry.sessionId).Some? && old(registry.sessionId).value != ""
          then registry.browser == None && registry.sessionId == None
          else registry.browser == old(registry.browser) && registry.sessionId == old(registry.sessionId)
               && registry.Live() == old(registry.Live()))
    ensures registry.browser == None || registry.browser == old(registry.browser)
    ensures registry.pages == old(registry.pages) || registry.pages == map[]
  {
    if sessionId.Some? && sessionId.value != "" {
      var closed := registry.CloseBrowserSession(sessionId.value);
      return Ok(CloseOneRecord(sessionId.value, closed, now));
    }
    var count := registry.CloseAllSessions();
    return Ok(CloseAllRecord(count, now));
  }

  /** The managed action's browser: the shared one when reusing and one is
      given, otherwise the pool's. */
  method ManagedBrowser(pool: BrowserPool, shared: Option<BrowserRef>, reuse: bool, browserType: string,
                        options: BrowserOptions)
    returns (r: Result<BrowserRef>)
    modifies pool`instances, pool.engine`launches
    ensures reuse && shared.Some? ==>
      r == Ok(shared.value) && pool.instances == old(pool.instances)
      && pool.engine.launches == old(pool.engine.launches)
    ensures !(reuse && shared.Some?) && old(LaunchWillFail(pool, browserType, options)) ==>
      r == Err(pool.engine.launchError)
    ensures !(reuse && shared.Some?) && !old(LaunchWillFail(pool, browserType, options)) ==>
      r.Ok? && CacheKey(browserType, options) in pool.instances
      && pool.instances[CacheKey(browserType, options)] == r.value
      && r.value.connected && (r.value in old(pool.instances.Values) || (fresh(r.value) && r.value.closeAttempts == 0))
    ensures Grown(pool)
  {
    if reuse && shared.Some? {
      return Ok(shared.value);
    }
    r := pool.GetBrowserInstance(browserType, options);
  }

  /** The managed action's page work: open a page, set it up (viewport only
      when both sides are given, user agent as an extra header, timeouts
      when non-zero), take the script's outcome, and close the page whatever
      happened. The result keeps the script's fields and carries `browser`
      only when reusing. */
  method ManagedPageRun(browser: BrowserRef, options: BrowserOptions, script: ScriptRun, reuse: bool)
    returns (r: Result<ManagedResult>, ghost page: Option<PageRef>)
    ensures page.Some? <==> browser.connected && !browser.newPageFails
    ensures page.None? ==> r == Err(NewPageError)
    ensures page.Some? ==> fresh(page.value) && page.value.closed && page.value.closeAttempts == 1
    ensures page.Some? ==>
      page.value.viewport == (if options.viewportWidth != 0 && options.viewportHeight != 0
                              then Some((options.viewportWidth, options.viewportHeight)) else None)
      && page.value.extraHeaders == (if options.userAgent != "" then map["User-Agent" := options.userAgent] else map[])
      && page.value.navigationTimeout == (if options.navigationTimeout != 0 then Some(options.navigationTimeout) else None)
      && page.value.defaultTimeout == (if options.defaultTimeout != 0 then Some(options.defaultTimeout) else None)
    ensures page.Some? && script.outcome.Err? ==> r == Err(script.outcome.error)
    ensures page.Some? && script.outcome.Ok? ==> r.Ok?
    ensures r.Ok? ==> (page.Some? && script.outcome.Ok?
      && r.value == ManagedResult(Spread(script.outcome.value) - {"browser"}, if reuse then Some(browser) else None))
  {
    var created := browser.NewPage();
    if created.Err? {
      return Err(created.error), None;
    }
    var p := created.value;
    page := Some(p);
    if options.viewportWidth != 0 && options.viewportHeight != 0 {
      var _ := p.SetViewportSize(options.viewportWidth, options.viewportHeight);
    }
    if options.userAgent != "" {
      var _ := p.SetExtraHTTPHeaders(map["User-Agent" := options.userAgent]);
    }
    if options.navigationTimeout != 0 {
      p.SetDefaultNavigationTimeout(options.navigationTimeout);
    }
    if options.defaultTimeout != 0 {
      p.SetDefaultTimeout(options.defaultTimeout);
    }
    if script.outcome.Err? {
      r := Err(script.outcome.error);
    } else {
      r := Ok(ManagedResult(Spread(script.outcome.value) - {"browser"}, if reuse then Some(browser) else None));
    }
    // finally: the page, its close errors ignored
    var _ := p.Close();
  }

  /** The managed-script action. With `reuse` and a shared browser, that
      browser is used and never closed here; otherwise a pool browser is
      used, and closed at the end exactly when `reuse` is off. The page it
      opens is closed at the end on every path. Pool errors and script
      errors propagate unchanged. */
  method ManagedScript(pool: BrowserPool, shared: Option<BrowserRef>, reuse: bool, browserType: string,
                       options: BrowserOptions, script: ScriptRun)
    returns (r: Result<ManagedResult>, ghost used: Option<BrowserRef>, ghost page: Option<PageRef>)
    modifies pool`instances, pool.engine`launches, pool.instances.Values
    // which browser
    ensures reuse && shared.Some? ==>
      used == shared && pool.instances == old(pool.instances) && pool.engine.launches == old(pool.engine.launches)
      && shared.value.closeAttempts == old(shared.value.closeAttempts)
      && shared.value.connected == old(shared.value.connected)
    ensures !(reuse && shared.Some?) && old(LaunchWillFail(pool, browserType, options)) ==>
      r == Err(pool.engine.launchError) && used == None && page == None
    ensures !(reuse && shared.Some?) && !old(LaunchWillFail(pool, browserType, options)) ==>
      used.Some? && CacheKey(browserType, options) in pool.instances
      && used.value == pool.instances[CacheKey(browserType, options)]
    // which browser is closed
    ensures used.Some? && !fresh(used.value) ==>
      used.value.closeAttempts == old(used.value.closeAttempts) + (if reuse then 0 else 1)
    ensures used.Some? && fresh(used.value) ==> used.value.closeAttempts == (if reuse then 0 else 1)
    ensures used.Some? && !reuse ==> used.value.connected == used.value.closeFails
    ensures used.Some? && reuse && !fresh(used.value) ==> used.value.connected == old(used.value.connected)
    ensures forall b :: b in old(pool.instances.Values) && used != Some(b) ==>
      b.connected == old(b.connected) && b.closeAttempts == old(b.closeAttempts)
    // the page
    ensures page.Some? ==> fresh(page.value) && page.value.closed && page.value.closeAttempts == 1
    ensures page.Some? ==>
      page.value.viewport == (if options.viewportWidth != 0 && options.viewportHeight != 0
                              then Some((options.viewportWidth, options.viewportHeight)) else None)
      && page.value.extraHeaders == (if options.userAgent != "" then map["User-Agent" := options.userAgent] else map[])
      && page.value.navigationTimeout == (if options.navigationTimeout != 0 then Some(options.navigationTimeout) else None)
      && page.value.defaultTimeout == (if options.defaultTimeout != 0 then Some(options.defaultTimeout) else None)
    ensures used.Some? && page.None? ==> r == Err(NewPageError)
    // the result
    ensures page.Some? && script.outcome.Ok? ==> r.Ok?
    ensures r.Ok? ==> (page.Some? && script.outcome.Ok?
      && r.value == ManagedResult(Spread(script.outcome.value) - {"browser"}, if reuse then used else None))
    ensures page.Some? && script.outcome.Err? ==> r == Err(script.outcome.error)
    ensures Grown(pool)
  {
    var acquired := ManagedBrowser(pool, shared, reuse, browserType, options);
    if acquired.Err? {
      return Err(acquired.error), None, None;
    }
    var browser := acquired.value;
    var shouldCloseBrowser := !(reuse && shared.Some?) && !reuse;
    used := Some(browser);
    r, page := ManagedPageRun(browser, options, script, reuse);
    // finally: the browser, when this call owns it
    if shouldCloseBrowser {
      var _ := browser.Close();
    }
  }
}
