/** Moving around the cloud console once signed in: opening the console
    and clearing its explanation popup, following the VPC menu entry, and
    opening the SSL VPN list. */
module Navigation {
  import opened Wrappers
  import opened Remote
  import opened BrowserManagement

  const PopupCheckbox: string :=
    "input[type=\"checkbox\"][name=\"notShowAgain\"], input[type=\"checkbox\"][id*=\"notShow\"], .popup-checkbox, .modal-checkbox"
  /** Close or confirm buttons of the popup, most specific first. */
  const ButtonSelectors: seq<string> := [
    "button:has-text(\"확인\")", "button:has-text(\"OK\")", "button:has-text(\"닫기\")",
    "button:has-text(\"Close\")", ".popup-close-button", ".modal-close-button", "button[type=\"submit\"]"]
  /** The `timeout` of the object the wait for the popup to go passes as
      the page function's argument; the wait itself uses the default. */
  const PopupGoneTimeout: int := 10000
  const DefaultPopupTimeout: int := 30000
  /** Links that may lead to the VPC page, most specific first. */
  const VpcSelectors: seq<string> := [
    "a:has-text(\"VPC\")", "a[href*=\"vpc\"]", ".nav-item:has-text(\"VPC\")", ".menu-item:has-text(\"VPC\")"]
  const SslVpnReadySelector: string := "table, .data-table, .vpc-list"
  const SslVpnReadyTimeout: int := 10000
  const DomContentLoaded: string := "domcontentloaded"

  // -------------------------------------------------------------------
  // Clicking the first selector that matches.

  /** The calls made while looking for the first matching selector and
      what came of it: the index clicked, none, or a thrown error. */
  datatype Probe = Probe(ops: seq<Op>, outcome: Result<Option<nat>>)

  function Shift(o: Result<Option<nat>>, n: nat): Result<Option<nat>> {
    if o.Ok? && o.value.Some? then Ok(Some(o.value.value + n)) else o
  }

  function Queries(sels: seq<string>): (ops: seq<Op>)
    ensures |ops| == |sels| && forall i :: 0 <= i < |sels| ==> ops[i] == Query(sels[i])
  {
    seq(|sels|, i requires 0 <= i < |sels| => Query(sels[i]))
  }

  /** Each selector in turn is looked up with `page.$`; the first one
      found is clicked and the search ends. */
  function FirstPresent(env: Env, k: nat, sels: seq<string>): Probe
    decreases |sels|
  {
    if sels == [] then Probe([], Ok(None))
    else match Answer(env, k, Query(sels[0]))
      case Failed(m) => Probe([Query(sels[0])], Err(m))
      case Missing =>
        var rest := FirstPresent(env, k + 1, sels[1..]);
        Probe([Query(sels[0])] + rest.ops, Shift(rest.outcome, 1))
      case Done =>
        var click := Answer(env, k + 1, ClickHandle(sels[0]));
        Probe([Query(sels[0]), ClickHandle(sels[0])], if click.Failed? then Err(click.message) else Ok(Some(0)))
  }

  /** The search after the first `i` selectors were all missing. */
  function Resumed(env: Env, k: nat, sels: seq<string>, i: nat): Probe
    requires i <= |sels|
  {
    var p := FirstPresent(env, k + i, sels[i..]);
    Probe(Queries(sels[..i]) + p.ops, Shift(p.outcome, i))
  }

  lemma {:induction false} ResumedStep(env: Env, k: nat, sels: seq<string>, i: nat)
    requires i < |sels| && Answer(env, k + i, Query(sels[i])) == Missing
    ensures Resumed(env, k, sels, i) == Resumed(env, k, sels, i + 1)
  {
    var s := sels[i..];
    assert s[0] == sels[i] && s[1..] == sels[i + 1..];
    var q := FirstPresent(env, k + i + 1, sels[i + 1..]);
    assert Queries(sels[..i + 1]) == Queries(sels[..i]) + [Query(sels[i])];
    ConcatAssoc(Queries(sels[..i]), [Query(sels[i])], q.ops);
  }

  /** The search at a selector that is found or whose look-up throws. */
  lemma {:induction false} ResumedEnds(env: Env, k: nat, sels: seq<string>, i: nat)
    requires i < |sels|
    ensures var a := Answer(env, k + i, Query(sels[i])); var qs := Queries(sels[..i]);
      (a.Failed? ==> Resumed(env, k, sels, i) == Probe(qs + [Query(sels[i])], Err(a.message)))
      && (a == Done ==>
            var c := Answer(env, k + i + 1, ClickHandle(sels[i]));
            Resumed(env, k, sels, i)
              == Probe(qs + [Query(sels[i]), ClickHandle(sels[i])], if c.Failed? then Err(c.message) else Ok(Some(i))))
  {
    var s := sels[i..];
    assert s[0] == sels[i];
  }

  /** The search's result: the index clicked is the first selector found,
      every selector before it was missing, and nothing after it was
      looked up; no result means every selector was missing. */
  lemma {:induction false} FirstPresentFinds(env: Env, k: nat, sels: seq<string>)
    ensures var p := FirstPresent(env, k, sels);
      (p.outcome.Ok? && p.outcome.value.Some? ==>
         var j := p.outcome.value.value;
         j < |sels| && |p.ops| == j + 2 && p.ops[j + 1] == ClickHandle(sels[j])
         && Answer(env, k + j, Query(sels[j])) == Done
         && forall i :: 0 <= i < j ==> Answer(env, k + i, Query(sels[i])) == Missing)
      && (p.outcome == Ok(None) ==>
            |p.ops| == |sels| && forall i :: 0 <= i < |sels| ==> Answer(env, k + i, Query(sels[i])) == Missing)
    decreases |sels|
  {
    if sels != [] && Answer(env, k, Query(sels[0])) == Missing {
      var rest := sels[1..];
      FirstPresentFinds(env, k + 1, rest);
      var q := FirstPresent(env, k + 1, rest);
      var p := FirstPresent(env, k, sels);
      assert p.ops == [Query(sels[0])] + q.ops && p.outcome == Shift(q.outcome, 1);
      if q.outcome.Ok? && q.outcome.value.Some? {
        var j := q.outcome.value.value;
        assert sels[j + 1] == rest[j];
        forall i | 0 <= i < j + 1
          ensures Answer(env, k + i, Query(sels[i])) == Missing
        {
          if i > 0 {
            assert sels[i] == rest[i - 1];
          }
        }
      }
      if q.outcome == Ok(None) {
        forall i | 0 <= i < |sels|
          ensures Answer(env, k + i, Query(sels[i])) == Missing
        {
          if i > 0 {
            assert sels[i] == rest[i - 1];
          }
        }
      }
    }
  }

  /** The calls of the popup handling once a page is held: the wait for
      the checkbox, the checkbox, the first close button found, and the
      wait for the popup to go; the first call that throws ends it. */
  function PopupCalls(env: Env, k: nat, timeout: int): seq<Op> {
    var w := Op.WaitForSelector(PopupCheckbox, timeout);
    if Fails(env, k, w) then [w] else [w] + TickAndClose(env, k + 1)
  }

  function TickAndClose(env: Env, k: nat): seq<Op> {
    if Fails(env, k, Click(PopupCheckbox)) then [Click(PopupCheckbox)]
    else [Click(PopupCheckbox)] + CloseAndWait(env, k + 1)
  }

  function CloseAndWait(env: Env, k: nat): seq<Op> {
    var probe := FirstPresent(env, k, ButtonSelectors);
    probe.ops + (if probe.outcome.Err? then [] else [WaitForFunction(PopupGone, PopupGoneTimeout)])
  }

  class ConsoleNavigator {
    const manager: BrowserManager

    constructor (manager: BrowserManager)
      ensures this.manager == manager
    {
      this.manager := manager;
    }

    /** The loop over `sels` of the popup handling and the VPC navigation. */
    method ClickFirstPresent(sels: seq<string>) returns (r: Result<Option<nat>>)
      modifies manager.driver`trace
      ensures var p := FirstPresent(manager.driver.env, |old(manager.driver.trace)|, sels);
        manager.driver.trace == old(manager.driver.trace) + p.ops && r == p.outcome
    {
      var driver := manager.driver;
      var env := driver.env;
      var k := |driver.trace|;
      assert sels[0..] == sels && sels[..0] == [];
      var i := 0;
      while i < |sels|
        invariant 0 <= i <= |sels|
        invariant driver.trace == old(driver.trace) + Queries(sels[..i])
        invariant FirstPresent(env, k, sels) == Resumed(env, k, sels, i)
      {
        ResumedEnds(env, k, sels, i);
        var found := driver.Call(Query(sels[i]));
        ConcatAssoc(old(driver.trace), Queries(sels[..i]), [Query(sels[i])]);
        if found.Failed? {
          return Err(found.message);
        }
        if found == Done {
          ghost var t := driver.trace;
          var clicked := driver.Call(ClickHandle(sels[i]));
          ConcatAssoc(old(driver.trace), Queries(sels[..i]), [Query(sels[i]), ClickHandle(sels[i])]);
          assert driver.trace == t + [ClickHandle(sels[i])];
          if clicked.Failed? {
            return Err(clicked.message);
          }
          return Ok(Some(i));
        }
        ResumedStep(env, k, sels, i);
        assert Queries(sels[..i + 1]) == Queries(sels[..i]) + [Query(sels[i])];
        i := i + 1;
      }
      assert sels[..i] == sels;
      r := Ok(None);
    }

    /** `navigateToConsole`: the console page, then its popup. */
    method NavigateToConsole(consoleUrl: string, timeout: int) returns (r: Result<()>)
      modifies manager.driver`trace
      ensures manager.page.None? ==> r == Err(NoPageError) && manager.driver.trace == old(manager.driver.trace)
      ensures manager.page.Some? ==>
        var k := |old(manager.driver.trace)|;
        var g := Run(manager.driver.env, k, [Goto(consoleUrl, Some(NetworkIdle))]);
        r == g.outcome
        && manager.driver.trace == old(manager.driver.trace) + g.ops
             + (if g.outcome.Ok? then PopupCalls(manager.driver.env, k + 1, timeout) else [])
    {
      ghost var k := |manager.driver.trace|;
      r := manager.NavigateToPage(consoleUrl);
      if r.Err? {
        return;
      }
      RunThen(manager.driver.env, k, [Goto(consoleUrl, Some(NetworkIdle))], []);
      var dismissed := HandlePopupDismissal(timeout);
    }

    /** `handlePopupDismissal`: without a page the guard's error; with
        one, whatever goes wrong while clearing the popup is swallowed. */
    method HandlePopupDismissal(timeout: int) returns (r: Result<()>)
      modifies manager.driver`trace
      ensures manager.page.None? ==> r == Err(NoPageError) && manager.driver.trace == old(manager.driver.trace)
      ensures manager.page.Some? ==>
        r == Ok(()) && manager.driver.trace == old(manager.driver.trace)
          + PopupCalls(manager.driver.env, |old(manager.driver.trace)|, timeout)
    {
      var page := manager.GetPage();
      if page.Err? {
        return Err(page.error);
      }
      Dismiss(timeout);
      r := Ok(());
    }

    /** The `try` block of the popup handling. */
    method Dismiss(timeout: int)
      requires manager.page.Some?
      modifies manager.driver`trace
      ensures manager.driver.trace == old(manager.driver.trace) + PopupCalls(manager.driver.env, |old(manager.driver.trace)|, timeout)
    {
      ghost var t0 := manager.driver.trace;
      var w := Op.WaitForSelector(PopupCheckbox, timeout);
      var shown := manager.driver.Call(w);
      if !shown.Failed? {
        TickCheckbox();
        ConcatAssoc(t0, [w], TickAndClose(manager.driver.env, |t0| + 1));
      }
    }

    /** The popup is showing: tick "do not show again", then close it. */
    method TickCheckbox()
      requires manager.page.Some?
      modifies manager.driver`trace
      ensures manager.driver.trace == old(manager.driver.trace) + TickAndClose(manager.driver.env, |old(manager.driver.trace)|)
    {
      ghost var t0 := manager.driver.trace;
      var ticked := manager.ClickElement(PopupCheckbox);
      RunThen(manager.driver.env, |t0|, [Click(PopupCheckbox)], []);
      if ticked.Ok? {
        CloseButton();
        ConcatAssoc(t0, [Click(PopupCheckbox)], CloseAndWait(manager.driver.env, |t0| + 1));
      }
    }

    /** The first close button found, then the wait for the popup to go,
        which ends after the driver's default timeout. */
    method CloseButton()
      modifies manager.driver`trace
      ensures manager.driver.trace == old(manager.driver.trace) + CloseAndWait(manager.driver.env, |old(manager.driver.trace)|)
    {
      var closed := ClickFirstPresent(ButtonSelectors);
      if closed.Ok? {
        var gone := manager.driver.Call(WaitForFunction(PopupGone, PopupGoneTimeout));
      }
    }

    /** `navigateToVpcPage`: the first VPC link found is clicked and the
        navigation it starts is waited for; a throw propagates. */
    method NavigateToVpcPage() returns (r: Result<()>)
      modifies manager.driver`trace
      ensures manager.page.None? ==> r == Err(NoPageError) && manager.driver.trace == old(manager.driver.trace)
      ensures manager.page.Some? ==>
        var p := FirstPresent(manager.driver.env, |old(manager.driver.trace)|, VpcSelectors);
        var t := old(manager.driver.trace) + p.ops;
        (p.outcome.Err? ==> r == Err(p.outcome.error) && manager.driver.trace == t)
        && (p.outcome == Ok(None) ==> r == Ok(()) && manager.driver.trace == t)
        && (p.outcome.Ok? && p.outcome.value.Some? ==>
              Traced(manager.driver.env, t, manager.driver.trace,
                     [WaitForLoadState(Some(NetworkIdle), Some(DefaultTimeout))], r))
    {
      var page := manager.GetPage();
      if page.Err? {
        return Err(page.error);
      }
      var found := ClickFirstPresent(VpcSelectors);
      if found.Err? {
        return Err(found.error);
      }
      if found.value.None? {
        return Ok(());
      }
      r := manager.WaitForNavigation(DefaultTimeout);
    }

    /** `navigateToSslVpnPage`: the page, then a wait for a table. */
    method NavigateToSslVpnPage(sslVpnUrl: string) returns (r: Result<()>)
      modifies manager.driver`trace
      ensures manager.Ran([Goto(sslVpnUrl, Some(NetworkIdle)),
                           Op.WaitForSelector(SslVpnReadySelector, SslVpnReadyTimeout)], r)
    {
      var env := manager.driver.env;
      var goto := Goto(sslVpnUrl, Some(NetworkIdle));
      var ready := Op.WaitForSelector(SslVpnReadySelector, SslVpnReadyTimeout);
      assert [goto, ready] == [goto] + [ready];
      ghost var t0 := manager.driver.trace;
      var navigated := manager.NavigateToPage(sslVpnUrl);
      if navigated.Err? {
        if manager.page.Some? {
          TracedStop(env, t0, manager.driver.trace, [goto], [ready], navigated);
        }
        return navigated;
      }
      ghost var t1 := manager.driver.trace;
      r := manager.WaitForSelector(SslVpnReadySelector, SslVpnReadyTimeout);
      TracedThen(env, t0, t1, manager.driver.trace, [goto], [ready], navigated, r);
    }

    /** `waitForPageReady`: network idle, then the DOM content loaded. */
    method WaitForPageReady() returns (r: Result<()>)
      modifies manager.driver`trace
      ensures manager.Ran([WaitForLoadState(Some(NetworkIdle), None),
                           WaitForLoadState(Some(DomContentLoaded), None)], r)
    {
      var page := manager.GetPage();
      if page.Err? {
        return Err(page.error);
      }
      var env := manager.driver.env;
      var idle := WaitForLoadState(Some(NetworkIdle), None);
      var loaded := WaitForLoadState(Some(DomContentLoaded), None);
      assert [idle, loaded] == [idle] + [loaded];
      ghost var t0 := manager.driver.trace;
      var r1 := manager.driver.Invoke(idle);
      if r1.Err? {
        TracedStop(env, t0, manager.driver.trace, [idle], [loaded], r1);
        return r1;
      }
      ghost var t1 := manager.driver.trace;
      r := manager.driver.Invoke(loaded);
      TracedThen(env, t0, t1, manager.driver.trace, [idle], [loaded], r1, r);
    }
  }

  /** Once the checkbox is ticked, clearing the popup ends by waiting for
      it to go exactly when the close button search did not throw, and
      that search clicked at most one button. */
  lemma {:induction false} PopupEndsWithWait(env: Env, k: nat)
    ensures var calls := CloseAndWait(env, k);
      var probe := FirstPresent(env, k, ButtonSelectors);
      (|calls| > 0 && calls[|calls| - 1] == WaitForFunction(PopupGone, PopupGoneTimeout) <==> probe.outcome.Ok?)
      && (probe.outcome.Ok? && probe.outcome.value.Some? ==> probe.outcome.value.value < |ButtonSelectors|)
  {
    var probe := FirstPresent(env, k, ButtonSelectors);
    FirstPresentFinds(env, k, ButtonSelectors);
    if probe.outcome.Err? {
      ProbeOnlyLooksAndClicks(env, k, ButtonSelectors);
    }
  }

  /** The search makes only look-ups and clicks. */
  lemma {:induction false} ProbeOnlyLooksAndClicks(env: Env, k: nat, sels: seq<string>)
    ensures var p := FirstPresent(env, k, sels);
      forall i :: 0 <= i < |p.ops| ==> p.ops[i].Query? || p.ops[i].ClickHandle?
    decreases |sels|
  {
    if sels != [] && Answer(env, k, Query(sels[0])) == Missing {
      ProbeOnlyLooksAndClicks(env, k + 1, sels[1..]);
      var q := FirstPresent(env, k + 1, sels[1..]);
      var p := FirstPresent(env, k, sels);
      assert var p := FirstPresent(env, k + 1, sels[1..]); forall i :: 0 <= i < |p.ops| ==> p.ops[i].Query? || p.ops[i].ClickHandle?;
      assert p.ops == [Query(sels[0])] + q.ops;
      forall i | 0 < i < |p.ops|
        ensures p.ops[i].Query? || p.ops[i].ClickHandle?
      {
        assert p.ops[i] == q.ops[i - 1];
      }
    }
  }
}
