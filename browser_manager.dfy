/** The handle on a browser that was started elsewhere with remote
    debugging: attaching picks the browser's first context and first page
    when they exist and creates them otherwise, and every page operation
    is refused while no page is held. */
module BrowserManagement {
  import opened Wrappers
  import opened Values
  import opened Remote

  const NoPageError: string := "No page available. Connect to browser first."
  const DefaultDebugPort: int := 9222
  /** The load state every navigation and navigation wait waits for. */
  const NetworkIdle: string := "networkidle"

  function Endpoint(port: int): string {
    "http://localhost:" + IntToString(port)
  }

  function ConnectError(port: int): string {
    "Failed to connect to debug browser on port " + IntToString(port)
    + ". Make sure Chrome is running with --remote-debugging-port=" + IntToString(port)
  }

  /** A remote object: the first of those that already existed, or the one
      created by call number `at`. */
  datatype Handle = Existing | Created(at: nat)

  /** The calls attaching makes: the connection, a new context when the
      browser has none, and a new page unless an existing context with a
      page was picked. */
  function ConnectPlan(env: Env, port: int): seq<Op> {
    [ConnectOverCDP(Endpoint(port))] + (ContextPlan(env) + PagePlan(env))
  }

  function ContextPlan(env: Env): seq<Op> {
    if env.contexts > 0 then [] else [NewContext]
  }

  function PagePlan(env: Env): seq<Op> {
    if env.contexts > 0 && env.firstContextPages > 0 then [] else [NewPage]
  }

  class BrowserManager {
    const driver: Driver
    var browser: Option<Handle>
    var context: Option<Handle>
    var page: Option<Handle>

    constructor (driver: Driver)
      ensures this.driver == driver && browser == None && context == None && page == None
    {
      this.driver := driver;
      browser := None;
      context := None;
      page := None;
    }

    /** Calls made through the manager: refused without touching the
        driver while no page is held, otherwise the plan runs and its first
        failure is the outcome. */
    twostate predicate Ran(plan: seq<Op>, new r: Result<()>)
      reads this, driver
    {
      if page.None? then r == Err(NoPageError) && driver.trace == old(driver.trace)
      else Traced(driver.env, old(driver.trace), driver.trace, plan, r)
    }

    /** `connectToDebugBrowser`. On success the browser, the first
        context (or a new one) and the first page of an existing context
        (or a new one) are held and the page is returned. Any failing call
        ends it with the message naming the port; the page held before is
        then kept, the browser is either the old one or the new
        connection, and the context the old one or the one just picked. */
    method ConnectToDebugBrowser(port: int) returns (r: Result<Handle>)
      modifies this`browser, this`context, this`page, driver`trace
      ensures var e := Run(driver.env, |old(driver.trace)|, ConnectPlan(driver.env, port));
        driver.trace == old(driver.trace) + e.ops && (r.Ok? <==> e.outcome.Ok?)
      ensures r.Err? ==>
        r.error == ConnectError(port) && page == old(page)
        && (browser == old(browser) || browser == Some(Created(|old(driver.trace)|)))
        && (context == old(context)
            || context == Some(if driver.env.contexts > 0 then Existing else Created(|old(driver.trace)| + 1)))
      ensures r.Ok? ==>
        var k := |old(driver.trace)|;
        browser == Some(Created(k))
        && context == Some(if driver.env.contexts > 0 then Existing else Created(k + 1))
        && page == Some(r.value)
        && r.value == (if driver.env.contexts > 0 && driver.env.firstContextPages > 0 then Existing
                       else Created(k + 1 + |ContextPlan(driver.env)|))
    {
      var env := driver.env;
      var k := |driver.trace|;
      var cdp := ConnectOverCDP(Endpoint(port));
      var rest := ContextPlan(env) + PagePlan(env);
      ghost var t0 := driver.trace;
      var connected := driver.Invoke(cdp);
      if connected.Err? {
        TracedStop(env, t0, driver.trace, [cdp], rest, connected);
        return Err(ConnectError(port));
      }
      browser := Some(Created(k));
      RunPrefix(env, k, [cdp]);
      ghost var t1 := driver.trace;
      var attached := AttachContextAndPage();
      TracedThen(env, t0, t1, driver.trace, [cdp], rest, connected, attached);
      if attached.Err? {
        return Err(ConnectError(port));
      }
      r := Ok(page.value);
    }

    /** The context and then the page attaching picks or creates. */
    method AttachContextAndPage() returns (r: Result<()>)
      modifies this`context, this`page, driver`trace
      ensures Traced(driver.env, old(driver.trace), driver.trace, ContextPlan(driver.env) + PagePlan(driver.env), r)
      ensures r.Err? ==>
        page == old(page)
        && (context == old(context)
            || context == Some(if driver.env.contexts > 0 then Existing else Created(|old(driver.trace)|)))
      ensures r.Ok? ==>
        var k := |old(driver.trace)|;
        context == Some(if driver.env.contexts > 0 then Existing else Created(k))
        && page == Some(if driver.env.contexts > 0 && driver.env.firstContextPages > 0 then Existing
                        else Created(k + |ContextPlan(driver.env)|))
    {
      var env := driver.env;
      ghost var t0 := driver.trace;
      var c := AttachContext();
      if c.Err? {
        TracedStop(env, t0, driver.trace, ContextPlan(env), PagePlan(env), c);
        return c;
      }
      RunPrefix(env, |t0|, ContextPlan(env));
      ghost var t1 := driver.trace;
      r := AttachPage();
      TracedThen(env, t0, t1, driver.trace, ContextPlan(env), PagePlan(env), c, r);
    }

    /** The first context, or a new one when the browser has none. */
    method AttachContext() returns (r: Result<()>)
      modifies this`context, driver`trace
      ensures Traced(driver.env, old(driver.trace), driver.trace, ContextPlan(driver.env), r)
      ensures r.Ok? ==> context == Some(if driver.env.contexts > 0 then Existing else Created(|old(driver.trace)|))
      ensures r.Err? ==> context == old(context)
    {
      if driver.env.contexts > 0 {
        context := Some(Existing);
        assert driver.trace + [] == driver.trace;
        return Ok(());
      }
      var at := |driver.trace|;
      r := driver.Invoke(NewContext);
      if r.Ok? {
        context := Some(Created(at));
      }
    }

    /** The first page of a picked existing context, or a new page. */
    method AttachPage() returns (r: Result<()>)
      requires context.Some?
      modifies this`page, driver`trace
      ensures Traced(driver.env, old(driver.trace), driver.trace, PagePlan(driver.env), r)
      ensures r.Ok? ==> page == Some(if driver.env.contexts > 0 && driver.env.firstContextPages > 0 then Existing
                                     else Created(|old(driver.trace)|))
      ensures r.Err? ==> page == old(page)
    {
      if driver.env.contexts > 0 && driver.env.firstContextPages > 0 {
        page := Some(Existing);
        assert driver.trace + [] == driver.trace;
        return Ok(());
      }
      var at := |driver.trace|;
      r := driver.Invoke(NewPage);
      if r.Ok? {
        page := Some(Created(at));
      }
    }

    /** A page call guarded by the held page. */
    method OnPage(op: Op) returns (r: Result<()>)
      modifies driver`trace
      ensures Ran([op], r)
    {
      if page.None? {
        return Err(NoPageError);
      }
      r := driver.Invoke(op);
    }

    /** `navigateToPage`: a navigation waiting for network idle. */
    method NavigateToPage(url: string) returns (r: Result<()>)
      modifies driver`trace
      ensures Ran([Goto(url, Some(NetworkIdle))], r)
    {
      r := OnPage(Goto(url, Some(NetworkIdle)));
    }

    /** `waitForSelector`; callers pass `DefaultTimeout` where the source
        relies on the default. */
    method WaitForSelector(selector: string, timeout: int) returns (r: Result<()>)
      modifies driver`trace
      ensures Ran([Op.WaitForSelector(selector, timeout)], r)
    {
      r := OnPage(Op.WaitForSelector(selector, timeout));
    }

    method ClickElement(selector: string) returns (r: Result<()>)
      modifies driver`trace
      ensures Ran([Click(selector)], r)
    {
      r := OnPage(Click(selector));
    }

    method FillInput(selector: string, value: string) returns (r: Result<()>)
      modifies driver`trace
      ensures Ran([Fill(selector, value)], r)
    {
      r := OnPage(Fill(selector, value));
    }

    /** `waitForNavigation`: a wait for network idle. */
    method WaitForNavigation(timeout: int) returns (r: Result<()>)
      modifies driver`trace
      ensures Ran([WaitForLoadState(Some(NetworkIdle), Some(timeout))], r)
    {
      r := OnPage(WaitForLoadState(Some(NetworkIdle), Some(timeout)));
    }

    /** `getPage`: the held page, or the guard's error. */
    method GetPage() returns (r: Result<Handle>)
      ensures page.Some? <==> r.Ok?
      ensures r.Ok? ==> r.value == page.value
      ensures r.Err? ==> r.error == NoPageError
    {
      if page.None? {
        return Err(NoPageError);
      }
      r := Ok(page.value);
    }

    /** `setPage` replaces the page and nothing else. */
    method SetPage(p: Handle)
      modifies this`page
      ensures page == Some(p)
    {
      page := Some(p);
    }

    /** `close`: nothing without a browser. With one, the browser is
        closed and then browser, context and page are dropped; a close that
        throws propagates and leaves all three held. */
    method Close() returns (r: Result<()>)
      modifies this`browser, this`context, this`page, driver`trace
      ensures old(browser).None? ==>
        r.Ok? && driver.trace == old(driver.trace)
        && browser == old(browser) && context == old(context) && page == old(page)
      ensures old(browser).Some? ==>
        var reply := Answer(driver.env, |old(driver.trace)|, CloseBrowser);
        driver.trace == old(driver.trace) + [CloseBrowser]
        && (r.Ok? <==> !reply.Failed?)
        && (r.Ok? ==> browser == None && context == None && page == None)
        && (r.Err? ==> r.error == reply.message
                       && browser == old(browser) && context == old(context) && page == old(page))
    {
      if browser.None? {
        return Ok(());
      }
      var reply := driver.Call(CloseBrowser);
      if reply.Failed? {
        return Err(reply.message);
      }
      browser := None;
      context := None;
      page := None;
      r := Ok(());
    }
  }
}
