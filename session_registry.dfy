/** The process-wide browser session registry: at most one browser, its
    session id, and a cache of pages by name. Every read of the browser is
    also a liveness check that drops a disconnected browser, and closing
    always clears the registry, even when the driver throws. Most `id`
    parameters are accepted and ignored: every call addresses the one
    stored session. */
module SessionRegistry {
  import opened Wrappers
  import opened Browsers

  /** The cache key the interact action uses for its reusable page. */
  const DefaultPageId: string := "page"

  /** Closes, in turn, every cached page that is not closed yet; close
      errors are ignored. A page cached under several names is visited once
      per name. */
  method ClosePages(ps: map<string, PageRef>)
    modifies ps.Values
    ensures forall p :: p in ps.Values ==>
      p.closed == (old(p.closed) || !p.closeFails)
      && (old(p.closed) ==> p.closeAttempts == old(p.closeAttempts))
      && (!old(p.closed) ==> p.closeAttempts > old(p.closeAttempts))
  {
    var todo := ps.Keys;
    ghost var seen: set<PageRef> := {};
    while todo != {}
      invariant todo <= ps.Keys
      invariant seen <= ps.Values
      invariant forall k :: k in ps && k !in todo ==> ps[k] in seen
      invariant forall p :: p in seen ==>
        p.closed == (old(p.closed) || !p.closeFails)
        && (old(p.closed) ==> p.closeAttempts == old(p.closeAttempts))
        && (!old(p.closed) ==> p.closeAttempts > old(p.closeAttempts))
      invariant forall p :: p in ps.Values && p !in seen ==>
        p.closed == old(p.closed) && p.closeAttempts == old(p.closeAttempts)
      decreases |todo|
    {
      var k :| k in todo;
      var page := ps[k];
      if !page.closed {
        var _ := page.Close();
      }
      seen := seen + {page};
      todo := todo - {k};
    }
  }

  class BrowserSessionManager {
    var browser: Option<BrowserRef>
    var sessionId: Option<string>
    var pages: map<string, PageRef>

    /** A browser is stored exactly when a session id is. */
    ghost predicate Valid()
      reads this
    {
      browser.Some? <==> sessionId.Some?
    }

    /** The stored browser, as a frame. */
    ghost function Held(): set<object>
      reads this
    {
      if browser.Some? then {browser.value} else {}
    }

    /** A browser is stored and reports connected. */
    predicate Live()
      reads this, Held()
    {
      browser.Some? && browser.value.connected
    }

    constructor ()
      ensures Valid() && browser == None && sessionId == None && pages == map[]
    {
      browser := None;
      sessionId := None;
      pages := map[];
    }

    /** Installs `b` under `id` and empties the page cache. A previous
        browser that is still connected gets one close attempt whose outcome
        is ignored. */
    method SetSingleBrowser(id: string, b: BrowserRef)
      requires Valid()
      modifies this, Held()
      ensures Valid() && browser == Some(b) && sessionId == Some(id) && pages == map[]
      ensures old(browser).Some? && old(browser.value.connected) ==>
        old(browser).value.closeAttempts == old(browser.value.closeAttempts) + 1
        && old(browser).value.connected == old(browser.value.closeFails)
      ensures old(browser).Some? && !old(browser.value.connected) ==>
        old(browser).value.closeAttempts == old(browser.value.closeAttempts)
        && !old(browser).value.connected
    {
      if browser.Some? && browser.value.connected {
        var _ := browser.value.Close();
      }
      pages := map[];
      browser := Some(b);
      sessionId := Some(id);
    }

    /** The stored browser while it is connected. A stored browser that has
        disconnected is dropped together with the session id and the page
        cache, and nothing is returned. */
    method GetSingleBrowser() returns (r: Option<BrowserRef>)
      requires Valid()
      modifies this
      ensures Valid()
      ensures r.Some? <==> old(Live())
      ensures r.Some? ==> r == browser == old(browser) && sessionId == old(sessionId) && pages == old(pages)
      ensures r.None? ==> browser == None && sessionId == None
      ensures r.None? ==> pages == if old(browser).Some? then map[] else old(pages)
    {
      if browser.Some? && browser.value.connected {
        return browser;
      }
      if browser.Some? && !browser.value.connected {
        browser := None;
        sessionId := None;
        pages := map[];
      }
      return None;
    }

    /** The session id while the browser is live, with the same healing as
        `GetSingleBrowser`. */
    method GetSingleSessionId() returns (r: Option<string>)
      requires Valid()
      modifies this
      ensures Valid()
      ensures r.Some? <==> old(Live())
      ensures r.Some? ==> r == old(sessionId) == sessionId && browser == old(browser) && pages == old(pages)
      ensures r.None? ==> browser == None && sessionId == None
      ensures r.None? ==> pages == if old(browser).Some? then map[] else old(pages)
    {
      var b := GetSingleBrowser();
      r := if b.Some? then sessionId else None;
    }

    /** Legacy name for `SetSingleBrowser`. */
    method SetBrowserSession(id: string, b: BrowserRef)
      requires Valid()
      modifies this, Held()
      ensures Valid() && browser == Some(b) && sessionId == Some(id) && pages == map[]
      ensures old(browser).Some? && old(browser.value.connected) ==>
        old(browser).value.closeAttempts == old(browser.value.closeAttempts) + 1
        && old(browser).value.connected == old(browser.value.closeFails)
      ensures old(browser).Some? && !old(browser.value.connected) ==>
        old(browser).value.closeAttempts == old(browser.value.closeAttempts)
        && !old(browser).value.connected
    {
      SetSingleBrowser(id, b);
    }

    /** The live browser, whatever `id` is asked for. */
    method GetBrowserSession(id: string) returns (r: Option<BrowserRef>)
      requires Valid()
      modifies this
      ensures Valid()
      ensures r.Some? <==> old(Live())
      ensures r.Some? ==> r == browser == old(browser) && sessionId == old(sessionId) && pages == old(pages)
      ensures r.None? ==> browser == None && sessionId == None
      ensures r.None? ==> pages == if old(browser).Some? then map[] else old(pages)
    {
      r := GetSingleBrowser();
    }

    /** Closes the one session, whatever `id` names. With no live browser it
        returns false. Otherwise every open cached page gets a close attempt
        (errors ignored), then the browser; the result is false exactly when
        the browser close threw. Either way the registry ends empty. */
    method CloseBrowserSession(id: string) returns (closed: bool)
      requires Valid()
      modifies this, Held(), pages.Values
      ensures Valid() && browser == None && sessionId == None
      ensures closed <==> old(Live()) && !old(browser.value.closeFails)
      ensures old(browser).Some? ==> pages == map[]
      ensures old(browser).None? ==> pages == old(pages)
      ensures old(Live()) ==>
        old(browser).value.closeAttempts == old(browser.value.closeAttempts) + 1
        && old(browser).value.connected == old(browser.value.closeFails)
      ensures old(Live()) ==> forall p :: p in old(pages).Values ==>
        p.closed == (old(p.closed) || !p.closeFails)
        && (old(p.closed) ==> p.closeAttempts == old(p.closeAttempts))
        && (!old(p.closed) ==> p.closeAttempts > old(p.closeAttempts))
      ensures !old(Live()) ==> forall p :: p in old(pages).Values ==>
        p.closed == old(p.closed) && p.closeAttempts == old(p.closeAttempts)
      ensures !old(Live()) && old(browser).Some? ==>
        old(browser).value.closeAttempts == old(browser.value.closeAttempts)
    {
      var b := GetSingleBrowser();
      if b.Some? {
        ClosePages(pages);
        var ok := true;
        if b.value.connected {
          ok := b.value.Close();
        }
        browser := None;
        sessionId := None;
        pages := map[];
        return ok;
      }
      return false;
    }

    /** Caches `page` under `pageId`, whatever `id` is. */
    method SetPageSession(id: string, pageId: string, page: PageRef)
      modifies this`pages
      ensures pages == old(pages)[pageId := page]
    {
      pages := pages[pageId := page];
    }

    /** The page cached under `pageId` if it is still open, whatever `id` is. */
    method GetPageSession(id: string, pageId: string) returns (r: Option<PageRef>)
      ensures r.Some? <==> pageId in pages && !pages[pageId].closed
      ensures r.Some? ==> r.value == pages[pageId]
    {
      if pageId in pages && !pages[pageId].closed {
        return Some(pages[pageId]);
      }
      return None;
    }

    /** Drops the page cached under `pageId` after one close attempt if it is
        open; true exactly when the name was cached, even if the close threw. */
    method ClosePageSession(id: string, pageId: string) returns (removed: bool)
      modifies this`pages, if pageId in pages then {pages[pageId]} else {}
      ensures removed == (pageId in old(pages))
      ensures pages == old(pages) - {pageId}
      ensures pageId in old(pages) ==> var p := old(pages)[pageId];
        p.closed == (old(p.closed) || !p.closeFails)
        && p.closeAttempts == old(p.closeAttempts) + (if old(p.closed) then 0 else 1)
    {
      if pageId in pages {
        var page := pages[pageId];
        if !page.closed {
          var _ := page.Close();
        }
        pages := pages - {pageId};
        return true;
      }
      return false;
    }

    /** The ids of the live sessions: the one id, or none. */
    method GetActiveSessions() returns (ids: seq<string>)
      requires Valid()
      modifies this
      ensures Valid()
      ensures |ids| <= 1
      ensures |ids| == 1 <==> old(Live())
      ensures |ids| == 1 ==> old(sessionId) == Some(ids[0])
      ensures old(Live()) ==> browser == old(browser) && sessionId == old(sessionId) && pages == old(pages)
      ensures !old(Live()) ==> browser == None && sessionId == None
      ensures !old(Live()) ==> pages == if old(browser).Some? then map[] else old(pages)
    {
      var b := GetSingleBrowser();
      ids := if b.Some? then [sessionId.value] else [];
    }

    /** Whether a live browser is stored, whatever `id` is. */
    method IsSessionActive(id: string) returns (active: bool)
      requires Valid()
      modifies this
      ensures Valid()
      ensures active <==> old(Live())
      ensures active ==> browser == old(browser) && sessionId == old(sessionId) && pages == old(pages)
      ensures !active ==> browser == None && sessionId == None
      ensures !active ==> pages == if old(browser).Some? then map[] else old(pages)
    {
      var b := GetSingleBrowser();
      active := b.Some?;
    }

    /** Closes the session when a non-empty id is stored; 1 exactly when that
        close reported success, 0 otherwise. */
    method CloseAllSessions() returns (count: nat)
      requires Valid()
      modifies this, Held(), pages.Values
      ensures Valid()
      ensures count <= 1
      ensures count == 1 <==>
        old(sessionId).Some? && old(sessionId).value != "" && old(Live()) && !old(browser.value.closeFails)
      ensures old(sessionId).Some? && old(sessionId).value != "" ==> browser == None && sessionId == None
      ensures old(sessionId).None? || old(sessionId).value == "" ==>
        browser == old(browser) && sessionId == old(sessionId) && pages == old(pages) && Live() == old(Live())
      ensures old(sessionId).Some? && old(sessionId).value != "" ==> pages == map[]
      ensures pages == old(pages) || pages == map[]
      // the close attempts, as closing the one session makes them
      ensures old(sessionId).Some? && old(sessionId).value != "" && old(Live()) ==>
        old(browser).value.closeAttempts == old(browser.value.closeAttempts) + 1
        && old(browser).value.connected == old(browser.value.closeFails)
        && forall p :: p in old(pages).Values ==>
             p.closed == (old(p.closed) || !p.closeFails)
             && (old(p.closed) ==> p.closeAttempts == old(p.closeAttempts))
             && (!old(p.closed) ==> p.closeAttempts > old(p.closeAttempts))
      ensures !(old(sessionId).Some? && old(sessionId).value != "" && old(Live())) ==>
        (forall p :: p in old(pages).Values ==> p.closed == old(p.closed) && p.closeAttempts == old(p.closeAttempts))
        && (old(browser).Some? ==> old(browser).value.closeAttempts == old(browser.value.closeAttempts))
    {
      if sessionId.Some? && sessionId.value != "" {
        var closed := CloseBrowserSession(sessionId.value);
        return if closed then 1 else 0;
      }
      return 0;
    }

    /** Drops a stored browser that has disconnected, with its id and pages. */
    method CleanupDisconnectedSessions()
      requires Valid()
      modifies this
      ensures Valid()
      ensures old(browser).Some? && !old(browser.value.connected) ==>
        browser == None && sessionId == None && pages == map[]
      ensures !(old(browser).Some? && !old(browser.value.connected)) ==>
        browser == old(browser) && sessionId == old(sessionId) && pages == old(pages)
    {
      if browser.Some? && !browser.value.connected {
        browser := None;
        sessionId := None;
        pages := map[];
      }
    }
  }

  /** A browser the registry still holds is live now only if it was live
      before: nothing the actions do reconnects a browser. */
  twostate predicate NotRevived(registry: BrowserSessionManager)
    reads registry, registry.Held()
  {
    registry.browser == old(registry.browser) && registry.Live() ==> old(registry.Live())
  }

  /** Closing twice in a row: the second call finds nothing and returns
      false without raising. */
  method CloseTwice(registry: BrowserSessionManager, id: string) returns (first: bool, second: bool)
    requires registry.Valid()
    modifies registry, registry.Held(), registry.pages.Values
    ensures registry.Valid() && registry.browser == None && registry.sessionId == None
    ensures first <==> old(registry.Live()) && !old(registry.browser.value.closeFails)
    ensures !second
  {
    first := registry.CloseBrowserSession(id);
    second := registry.CloseBrowserSession(id);
  }

  /** Installing `b2` after `b1` and then closing under the first id closes
      `b2`: the id is ignored, so the call returns true when `b2` closes. */
  method ReplaceThenCloseStale(b1: BrowserRef, b2: BrowserRef) returns (closed: bool, remaining: nat)
    requires b1 != b2 && b2.connected && !b2.closeFails
    modifies b1, b2
    ensures closed && remaining == 0
    ensures !b2.connected
  {
    var registry := new BrowserSessionManager();
    registry.SetSingleBrowser("s1", b1);
    registry.SetSingleBrowser("s2", b2);
    closed := registry.CloseBrowserSession("s1");
    remaining := registry.CloseAllSessions();
  }
}
