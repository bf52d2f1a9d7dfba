/** The sign-in flow on the cloud console's login page: the login form,
    then the SMS second factor, either typed in from a code supplied by the
    caller or waited for while a person types it. */
module Authentication {
  import opened Wrappers
  import opened Remote
  import opened Values
  import opened BrowserManagement

  const LoginAliasField: string := "#loginAlias"
  const UsernameField: string := "#username"
  const PasswordField: string := "#passwordPlain"
  const LoginButton: string := "#loginForm > button"
  const SmsButton: string := "#app > div.popup > div.panel.certi > div.content > div:nth-child(3) > div.btn-wrap > a"
  const SmsCodeField: string := "#loginForm > div > input[type=text]"
  const SmsSubmit: string := "#loginForm > a"
  /** The `timeout` of the objects the two `waitForFunction` calls of the
      sign-in pass. They go in as the page function's argument, so the
      waits themselves end after the driver's default `DefaultTimeout`. */
  const ManualSmsTimeout: int := 300000
  const AuthCompleteTimeout: int := 60000

  datatype AuthCredentials = AuthCredentials(
    authUrl: string, loginAlias: string, username: string, password: string,
    smsCode: Option<string>)

  /** A code counts as given when it is present and not empty. */
  predicate HasCode(code: Option<string>) {
    code.Some? && code.value != ""
  }

  function LoginPlan(loginAlias: string, username: string, password: string): seq<Op> {
    [Op.WaitForSelector(LoginAliasField, DefaultTimeout), Fill(LoginAliasField, loginAlias)]
    + FillAndSubmitPlan(username, password)
  }

  function FillAndSubmitPlan(username: string, password: string): seq<Op> {
    [Fill(UsernameField, username)] + ([Fill(PasswordField, password)] + [Click(LoginButton)])
  }

  /** The submit link and the wait for the navigation it starts. */
  function SubmitPlan(): seq<Op> {
    [Click(SmsSubmit), WaitForLoadState(Some(NetworkIdle), Some(DefaultTimeout))]
  }

  /** A given code is typed in; otherwise the page is polled until a person
      has typed one. Either way it is then submitted. */
  function AnswerPlan(code: Option<string>): seq<Op> {
    if HasCode(code) then [Fill(SmsCodeField, code.value)] + SubmitPlan()
    else [WaitForFunction(SmsCodeEntered, ManualSmsTimeout)] + SubmitPlan()
  }

  /** The SMS step: open the SMS panel and arm the alert dismissal, then
      answer the challenge. */
  function SmsPlan(code: Option<string>): seq<Op> {
    [Click(SmsButton), OnceDialogDismissAlert] + AnswerPlan(code)
  }

  function AuthPlan(c: AuthCredentials): seq<Op> {
    [Goto(c.authUrl, Some(NetworkIdle))]
    + (LoginPlan(c.loginAlias, c.username, c.password) + SmsPlan(c.smsCode))
  }

  class AuthenticationHandler {
    const manager: BrowserManager

    constructor (manager: BrowserManager)
      ensures this.manager == manager
    {
      this.manager := manager;
    }

    /** `performAuthentication`: the login page, the form, the SMS step;
        the first failing call ends it with its message. */
    method PerformAuthentication(c: AuthCredentials) returns (r: Result<()>)
      modifies manager.driver`trace
      ensures manager.Ran(AuthPlan(c), r)
    {
      var env := manager.driver.env;
      var goto := Goto(c.authUrl, Some(NetworkIdle));
      ghost var t0 := manager.driver.trace;
      var navigated := manager.NavigateToPage(c.authUrl);
      if navigated.Err? {
        if manager.page.Some? {
          TracedStop(env, t0, manager.driver.trace, [goto], LoginPlan(c.loginAlias, c.username, c.password) + SmsPlan(c.smsCode), navigated);
        }
        return navigated;
      }
      ghost var t1 := manager.driver.trace;
      r := SignIn(c);
      TracedThen(env, t0, t1, manager.driver.trace, [goto], LoginPlan(c.loginAlias, c.username, c.password) + SmsPlan(c.smsCode), navigated, r);
    }

    /** The login form and then the SMS step, on a held page. */
    method SignIn(c: AuthCredentials) returns (r: Result<()>)
      requires manager.page.Some?
      modifies manager.driver`trace
      ensures manager.Ran(LoginPlan(c.loginAlias, c.username, c.password) + SmsPlan(c.smsCode), r)
    {
      var env := manager.driver.env;
      var login := LoginPlan(c.loginAlias, c.username, c.password);
      ghost var t0 := manager.driver.trace;
      var filled := FillLoginForm(c.loginAlias, c.username, c.password);
      if filled.Err? {
        TracedStop(env, t0, manager.driver.trace, login, SmsPlan(c.smsCode), filled);
        return filled;
      }
      ghost var t1 := manager.driver.trace;
      r := HandleSmsAuthentication(c.smsCode);
      TracedThen(env, t0, t1, manager.driver.trace, login, SmsPlan(c.smsCode), filled, r);
    }

    /** `fillLoginForm`: wait for the alias field, fill alias, user name
        and password, press the login button. */
    method FillLoginForm(loginAlias: string, username: string, password: string) returns (r: Result<()>)
      modifies manager.driver`trace
      ensures manager.Ran(LoginPlan(loginAlias, username, password), r)
    {
      var env := manager.driver.env;
      var w := Op.WaitForSelector(LoginAliasField, DefaultTimeout);
      var rest := [Fill(LoginAliasField, loginAlias)] + FillAndSubmitPlan(username, password);
      assert LoginPlan(loginAlias, username, password) == [w] + rest;
      ghost var t0 := manager.driver.trace;
      var waited := manager.WaitForSelector(LoginAliasField, DefaultTimeout);
      if waited.Err? {
        if manager.page.Some? {
          TracedStop(env, t0, manager.driver.trace, [w], rest, waited);
        }
        return waited;
      }
      ghost var t1 := manager.driver.trace;
      var alias := manager.FillInput(LoginAliasField, loginAlias);
      if alias.Err? {
        TracedStop(env, t1, manager.driver.trace, [Fill(LoginAliasField, loginAlias)], FillAndSubmitPlan(username, password), alias);
        TracedThen(env, t0, t1, manager.driver.trace, [w], [Fill(LoginAliasField, loginAlias)] + FillAndSubmitPlan(username, password), waited, alias);
        return alias;
      }
      ghost var t2 := manager.driver.trace;
      r := FillAndSubmit(username, password);
      TracedThen(env, t1, t2, manager.driver.trace, [Fill(LoginAliasField, loginAlias)], FillAndSubmitPlan(username, password), alias, r);
      TracedThen(env, t0, t1, manager.driver.trace, [w], rest, waited, r);
    }

    /** The last three calls of the login form. */
    method FillAndSubmit(username: string, password: string) returns (r: Result<()>)
      requires manager.page.Some?
      modifies manager.driver`trace
      ensures manager.Ran(FillAndSubmitPlan(username, password), r)
    {
      var env := manager.driver.env;
      var user := Fill(UsernameField, username);
      var pass := Fill(PasswordField, password);
      var button := Click(LoginButton);
      ghost var t0 := manager.driver.trace;
      var r1 := manager.FillInput(UsernameField, username);
      if r1.Err? {
        TracedStop(env, t0, manager.driver.trace, [user], [pass] + [button], r1);
        return r1;
      }
      ghost var t1 := manager.driver.trace;
      var r2 := manager.FillInput(PasswordField, password);
      if r2.Err? {
        TracedStop(env, t1, manager.driver.trace, [pass], [button], r2);
        TracedThen(env, t0, t1, manager.driver.trace, [user], [pass] + [button], r1, r2);
        return r2;
      }
      ghost var t2 := manager.driver.trace;
      r := manager.ClickElement(LoginButton);
      TracedThen(env, t1, t2, manager.driver.trace, [pass], [button], r2, r);
      TracedThen(env, t0, t1, manager.driver.trace, [user], [pass] + [button], r1, r);
    }

    /** `handleSmsAuthentication`. */
    method HandleSmsAuthentication(code: Option<string>) returns (r: Result<()>)
      modifies manager.driver`trace
      ensures manager.Ran(SmsPlan(code), r)
    {
      var env := manager.driver.env;
      var tail := AnswerPlan(code);
      assert SmsPlan(code) == [Click(SmsButton)] + ([OnceDialogDismissAlert] + tail);
      ghost var t0 := manager.driver.trace;
      var clicked := manager.ClickElement(SmsButton);
      if clicked.Err? {
        if manager.page.Some? {
          TracedStop(env, t0, manager.driver.trace, [Click(SmsButton)], [OnceDialogDismissAlert] + tail, clicked);
        }
        return clicked;
      }
      ghost var t1 := manager.driver.trace;
      var page := manager.GetPage();
      r := ArmAndAnswer(code);
      TracedThen(env, t0, t1, manager.driver.trace, [Click(SmsButton)], [OnceDialogDismissAlert] + tail, clicked, r);
    }

    /** The alert handler, then the code typed in or waited for. */
    method ArmAndAnswer(code: Option<string>) returns (r: Result<()>)
      requires manager.page.Some?
      modifies manager.driver`trace
      ensures manager.Ran([OnceDialogDismissAlert] + AnswerPlan(code), r)
    {
      var env := manager.driver.env;
      ghost var t0 := manager.driver.trace;
      var armed := manager.driver.Invoke(OnceDialogDismissAlert);
      if armed.Err? {
        TracedStop(env, t0, manager.driver.trace, [OnceDialogDismissAlert], AnswerPlan(code), armed);
        return armed;
      }
      ghost var t1 := manager.driver.trace;
      if HasCode(code) {
        r := SubmitCode(code.value);
      } else {
        r := AwaitTypedCode();
      }
      TracedThen(env, t0, t1, manager.driver.trace, [OnceDialogDismissAlert], AnswerPlan(code), armed, r);
    }

    /** A supplied code is typed in and submitted. */
    method SubmitCode(smsCode: string) returns (r: Result<()>)
      requires manager.page.Some?
      modifies manager.driver`trace
      ensures manager.Ran([Fill(SmsCodeField, smsCode)] + SubmitPlan(), r)
    {
      var env := manager.driver.env;
      ghost var t0 := manager.driver.trace;
      var filled := manager.FillInput(SmsCodeField, smsCode);
      if filled.Err? {
        TracedStop(env, t0, manager.driver.trace, [Fill(SmsCodeField, smsCode)], SubmitPlan(), filled);
        return filled;
      }
      ghost var t1 := manager.driver.trace;
      r := SubmitAndSettle();
      TracedThen(env, t0, t1, manager.driver.trace, [Fill(SmsCodeField, smsCode)], SubmitPlan(), filled, r);
    }

    /** Without a code, the page is polled until a person has typed one,
        and only then is it submitted; the poll gives up after the
        default timeout (see `ManualWaitTimesOut`). */
    method AwaitTypedCode() returns (r: Result<()>)
      requires manager.page.Some?
      modifies manager.driver`trace
      ensures manager.Ran([WaitForFunction(SmsCodeEntered, ManualSmsTimeout)] + SubmitPlan(), r)
    {
      var env := manager.driver.env;
      var w := WaitForFunction(SmsCodeEntered, ManualSmsTimeout);
      ghost var t0 := manager.driver.trace;
      var typed := manager.driver.Invoke(w);
      if typed.Err? {
        TracedStop(env, t0, manager.driver.trace, [w], SubmitPlan(), typed);
        return typed;
      }
      ghost var t1 := manager.driver.trace;
      r := SubmitAndSettle();
      TracedThen(env, t0, t1, manager.driver.trace, [w], SubmitPlan(), typed, r);
    }

    /** The submit link, then the wait for the navigation it starts. */
    method SubmitAndSettle() returns (r: Result<()>)
      requires manager.page.Some?
      modifies manager.driver`trace
      ensures manager.Ran(SubmitPlan(), r)
    {
      var env := manager.driver.env;
      var settle := WaitForLoadState(Some(NetworkIdle), Some(DefaultTimeout));
      ghost var t0 := manager.driver.trace;
      var clicked := manager.ClickElement(SmsSubmit);
      if clicked.Err? {
        TracedStop(env, t0, manager.driver.trace, [Click(SmsSubmit)], [settle], clicked);
        return clicked;
      }
      ghost var t1 := manager.driver.trace;
      r := manager.WaitForNavigation(DefaultTimeout);
      TracedThen(env, t0, t1, manager.driver.trace, [Click(SmsSubmit)], [settle], clicked, r);
    }

    /** `waitForAuthenticationComplete`: the page is polled until its
        address mentions the console or the dashboard. */
    method WaitForAuthenticationComplete() returns (r: Result<()>)
      modifies manager.driver`trace
      ensures manager.Ran([WaitForFunction(AuthComplete, AuthCompleteTimeout)], r)
    {
      var page := manager.GetPage();
      if page.Err? {
        return Err(page.error);
      }
      r := manager.driver.Invoke(WaitForFunction(AuthComplete, AuthCompleteTimeout));
    }
  }

  // -------------------------------------------------------------------
  // What the sign-in flow guarantees about the calls it makes.

  /** The sign-in plan call by call. */
  lemma {:induction false} AuthPlanCalls(c: AuthCredentials)
    ensures AuthPlan(c) ==
      [Goto(c.authUrl, Some(NetworkIdle)),
       Op.WaitForSelector(LoginAliasField, DefaultTimeout), Fill(LoginAliasField, c.loginAlias),
       Fill(UsernameField, c.username), Fill(PasswordField, c.password), Click(LoginButton),
       Click(SmsButton), OnceDialogDismissAlert,
       if HasCode(c.smsCode) then Fill(SmsCodeField, c.smsCode.value)
       else WaitForFunction(SmsCodeEntered, ManualSmsTimeout),
       Click(SmsSubmit), WaitForLoadState(Some(NetworkIdle), Some(DefaultTimeout))]
  {
  }

  /** With a code supplied, the page is never polled for a typed code. */
  lemma {:induction false} SuppliedCodeNeverPolls(env: Env, k: nat, c: AuthCredentials)
    requires HasCode(c.smsCode)
    ensures var ops := Run(env, k, AuthPlan(c)).ops;
      forall i :: 0 <= i < |ops| ==> !ops[i].WaitForFunction?
  {
    var plan := AuthPlan(c);
    AuthPlanCalls(c);
    forall i | 0 <= i < |plan|
      ensures !plan[i].WaitForFunction?
    {
    }
    RunPrefix(env, k, plan);
    var ops := Run(env, k, plan).ops;
    forall i | 0 <= i < |ops|
      ensures !ops[i].WaitForFunction?
    {
      assert ops[i] == plan[i];
    }
  }

  /** Without a code the SMS field is never filled in by the flow. */
  lemma {:induction false} ManualCodeNeverTyped(env: Env, k: nat, c: AuthCredentials)
    requires !HasCode(c.smsCode)
    ensures var ops := Run(env, k, AuthPlan(c)).ops;
      forall i :: 0 <= i < |ops| ==> !(ops[i].Fill? && ops[i].selector == SmsCodeField)
  {
    var plan := AuthPlan(c);
    AuthPlanCalls(c);
    forall i | 0 <= i < |plan|
      ensures !(plan[i].Fill? && plan[i].selector == SmsCodeField)
    {
    }
    RunPrefix(env, k, plan);
    var ops := Run(env, k, plan).ops;
    forall i | 0 <= i < |ops|
      ensures !(ops[i].Fill? && ops[i].selector == SmsCodeField)
    {
      assert ops[i] == plan[i];
    }
  }

  /** Without a code the SMS form is submitted only once a polled page
      state showed more than five characters in the SMS field. */
  lemma {:induction false} ManualSubmitFollowsTypedCode(env: Env, k: nat, c: AuthCredentials, j: nat)
    requires !HasCode(c.smsCode)
    requires j < |Run(env, k, AuthPlan(c)).ops| && Run(env, k, AuthPlan(c)).ops[j] == Click(SmsSubmit)
    ensures j == 9 && AuthPlan(c)[8] == WaitForFunction(SmsCodeEntered, ManualSmsTimeout)
    ensures exists s :: s in env.PollsAt(k + 8) && s.smsField.Some? && |s.smsField.value| > 5
  {
    var plan := AuthPlan(c);
    RunPrefix(env, k, plan);
    assert plan[j] == Click(SmsSubmit);
    SubmitFollowsManualWait(c, j);
    RunPassed(env, k, plan, 8);
    WaitSawCondition(env, k + 8, SmsCodeEntered, ManualSmsTimeout);
    var i :| 0 <= i < |env.PollsAt(k + 8)| && Check(SmsCodeEntered, env.PollsAt(k + 8)[i]) == Some(true);
    assert env.PollsAt(k + 8)[i] in env.PollsAt(k + 8);
  }

  /** Without a stored code, a sign-in that reached the wait for a typed
      code and never saw one fails there, with the default timeout's
      message: the five minutes named at the call never take effect. */
  lemma {:induction false} ManualWaitTimesOut(env: Env, k: nat, c: AuthCredentials)
    requires !HasCode(c.smsCode)
    requires |Run(env, k, AuthPlan(c)).ops| > 8
    requires k + 8 !in env.failures
    requires NeverHolds(SmsCodeEntered, env.PollsAt(k + 8))
    ensures Run(env, k, AuthPlan(c)).ops == AuthPlan(c)[..9]
    ensures Run(env, k, AuthPlan(c)).outcome == Err(TimeoutError(DefaultTimeout))
  {
    var plan := AuthPlan(c);
    var e := Run(env, k, plan);
    AuthPlanCalls(c);
    WaitIgnoresArgTimeout(env, k + 8, SmsCodeEntered, ManualSmsTimeout);
    assert StepFails(env, k, plan, 8);
    RunPrefix(env, k, plan);
    RunCompletes(env, k, plan);
    RunStopsAtFirstFailure(env, k, plan);
    assert |e.ops| == 9;
  }

  /** Without a stored code the only submit click is the one after the
      wait for a typed code. */
  lemma {:induction false} SubmitFollowsManualWait(c: AuthCredentials, j: nat)
    requires !HasCode(c.smsCode)
    requires j < |AuthPlan(c)| && AuthPlan(c)[j] == Click(SmsSubmit)
    ensures j == 9 && AuthPlan(c)[8] == WaitForFunction(SmsCodeEntered, ManualSmsTimeout)
  {
    var plan := AuthPlan(c);
    AuthPlanCalls(c);
    forall i | 0 <= i < |plan| && i != 9
      ensures plan[i] != Click(SmsSubmit)
    {
    }
  }

  /** A completed sign-in wait saw the console or the dashboard in the
      page address. */
  lemma {:induction false} AuthCompleteSawConsole(env: Env, k: nat)
    requires Run(env, k, [WaitForFunction(AuthComplete, AuthCompleteTimeout)]).outcome.Ok?
    ensures exists s :: s in env.PollsAt(k) && (Contains(s.url, "console") || Contains(s.url, "dashboard"))
  {
    RunCompletes(env, k, [WaitForFunction(AuthComplete, AuthCompleteTimeout)]);
    assert !StepFails(env, k, [WaitForFunction(AuthComplete, AuthCompleteTimeout)], 0);
    WaitSawCondition(env, k, AuthComplete, AuthCompleteTimeout);
    var i :| 0 <= i < |env.PollsAt(k)| && Check(AuthComplete, env.PollsAt(k)[i]) == Some(true);
    assert env.PollsAt(k)[i] in env.PollsAt(k);
  }
}
