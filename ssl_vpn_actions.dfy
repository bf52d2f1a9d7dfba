/** The four actions of the SSL VPN node. Each one attaches a fresh
    browser manager to the debug browser, signs in and then goes as far
    as it is meant to: the console, the SSL VPN page, the data wait and
    the VPC read. The first failure ends the action, and the action
    rethrows it under its own prefix. */
module SslVpnActions {
  import opened Wrappers
  import opened Values
  import opened Remote
  import opened BrowserManagement
  import opened Authentication
  import opened Navigation
  import opened TableExtraction
  import opened DataExtraction

  const AuthFailed: string := "Authentication failed: "
  const ConsoleFailed: string := "Console navigation failed: "
  const ExtractFailed: string := "Data extraction failed: "

  const AuthenticatedMessage: string := "Authentication completed successfully"
  const ConsoleMessage: string := "Authentication and console navigation completed successfully"
  const ExtractMessage: string := "Full SSL VPN process with data extraction completed successfully"
  const FullMessage: string := "Complete SSL VPN automation process finished successfully"

  /** The stored SSL VPN credential. */
  datatype SslVpnCredentials = SslVpnCredentials(
    authUrl: string, loginAlias: string, username: string, password: string,
    smsCode: Option<string>, consoleUrl: string, sslVpnConsoleUrl: string)

  /** The sign-in credentials an action builds: with manual SMS input the
      stored code is withheld, so the flow waits for a typed one. */
  function SignInCredentials(credentials: SslVpnCredentials, manualSms: bool): (c: AuthCredentials)
    ensures c.authUrl == credentials.authUrl && c.loginAlias == credentials.loginAlias
    ensures c.username == credentials.username && c.password == credentials.password
    ensures manualSms ==> !HasCode(c.smsCode)
    ensures !manualSms ==> c.smsCode == credentials.smsCode
  {
    AuthCredentials(credentials.authUrl, credentials.loginAlias, credentials.username,
                    credentials.password, if manualSms then None else credentials.smsCode)
  }

  // ---------------------------------------------------------------------
  // Stages: the manager calls an action makes one after the other.

  datatype Stage =
    | Attach(port: int)
    | SignIn(c: AuthCredentials)
    | OpenConsole(url: string, timeout: int)
    | OpenSslVpn(url: string)
    | AwaitData(timeout: int)

  /** One stage run from call number `k` on a held page (attaching needs
      none and provides one). */
  function StageRun(env: Env, k: nat, s: Stage): Execution {
    match s
    case Attach(port) =>
      var e := Run(env, k, ConnectPlan(env, port));
      Execution(e.ops, if e.outcome.Ok? then Ok(()) else Err(ConnectError(port)))
    case SignIn(c) => Run(env, k, AuthPlan(c))
    case OpenConsole(url, timeout) =>
      var g := Run(env, k, [Goto(url, Some(NetworkIdle))]);
      Execution(g.ops + (if g.outcome.Ok? then PopupCalls(env, k + 1, timeout) else []), g.outcome)
    case OpenSslVpn(url) =>
      Run(env, k, [Goto(url, Some(NetworkIdle)), Op.WaitForSelector(SslVpnReadySelector, SslVpnReadyTimeout)])
    case AwaitData(timeout) => Run(env, k, LoadPlan(timeout))
  }

  /** Stages run back to back by `run`; the first that fails ends the run. */
  function Chain(run: (nat, Stage) -> Execution, k: nat, stages: seq<Stage>): Execution
    decreases |stages|
  {
    if stages == [] then Execution([], Ok(()))
    else
      var e := run(k, stages[0]);
      if e.outcome.Err? then e
      else
        var rest := Chain(run, k + |e.ops|, stages[1..]);
        Execution(e.ops + rest.ops, rest.outcome)
  }

  /** Every stage run against the same remote environment. */
  function StageOf(env: Env): (nat, Stage) -> Execution {
    (j: nat, s: Stage) => StageRun(env, j, s)
  }

  /** Running two lists of stages back to back is running their
      concatenation. */
  lemma {:induction false} ChainAppend(run: (nat, Stage) -> Execution, k: nat, p: seq<Stage>, q: seq<Stage>)
    ensures var e1 := Chain(run, k, p);
      Chain(run, k, p + q) ==
        if e1.outcome.Err? then e1
        else var e2 := Chain(run, k + |e1.ops|, q); Execution(e1.ops + e2.ops, e2.outcome)
    decreases |p|
  {
    if p == [] {
      assert p + q == q;
    } else {
      var pq := p + q;
      assert pq[0] == p[0] && pq[1..] == p[1..] + q;
      var s := run(k, p[0]);
      if s.outcome.Ok? {
        var k1 := k + |s.ops|;
        ChainAppend(run, k1, p[1..], q);
        var r1 := Chain(run, k1, p[1..]);
        if r1.outcome.Ok? {
          var e2 := Chain(run, k1 + |r1.ops|, q);
          ConcatAssoc(s.ops, r1.ops, e2.ops);
        }
      }
    }
  }

  /** A single stage runs as itself. */
  lemma {:induction false} ChainOne(run: (nat, Stage) -> Execution, k: nat, s: Stage)
    ensures Chain(run, k, [s]) == run(k, s)
  {
    var e := run(k, s);
    assert [s][1..] == [];
    if e.outcome.Ok? {
      assert e.outcome.value == ();
      assert e.ops + [] == e.ops;
    }
  }
  /** A run that completes ran its last stage to completion, right after
      the others. */
  lemma {:induction false} ChainLastRan(run: (nat, Stage) -> Execution, k: nat, p: seq<Stage>, s: Stage)
    requires Chain(run, k, p + [s]).outcome.Ok?
    ensures var e := Chain(run, k, p);
      e.outcome.Ok? && run(k + |e.ops|, s).outcome.Ok?
  {
    ChainAppend(run, k, p, [s]);
    ChainOne(run, k + |Chain(run, k, p).ops|, s);
  }

  /** Two stages: the second runs only once the first completes. */
  lemma {:induction false} ChainTwo(run: (nat, Stage) -> Execution, k: nat, s: Stage, t: Stage)
    ensures var e := run(k, s);
      Chain(run, k, [s, t]) ==
        if e.outcome.Err? then e
        else var f := run(k + |e.ops|, t); Execution(e.ops + f.ops, f.outcome)
  {
    assert [s, t][0] == s && [s, t][1..] == [t];
    ChainOne(run, k + |run(k, s).ops|, t);
  }


  /** The stages of `stages` leave trace `after` from trace `before` and
      end with `r`. */
  predicate Staged(run: (nat, Stage) -> Execution, before: seq<Op>, after: seq<Op>, stages: seq<Stage>, r: Result<()>) {
    var e := Chain(run, |before|, stages);
    after == before + e.ops && r == e.outcome
  }

  lemma {:induction false} StagedOne(run: (nat, Stage) -> Execution, t0: seq<Op>, t1: seq<Op>, s: Stage, r: Result<()>)
    requires t1 == t0 + run(|t0|, s).ops && r == run(|t0|, s).outcome
    ensures Staged(run, t0, t1, [s], r)
  {
    var e := run(|t0|, s);
    assert [s][1..] == [];
    if e.outcome.Ok? {
      assert e.outcome.value == ();
      assert Chain(run, |t0| + |e.ops|, []) == Execution([], Ok(()));
      assert e.ops + [] == e.ops;
    }
  }

  lemma {:induction false} StagedStop(run: (nat, Stage) -> Execution, t0: seq<Op>, t1: seq<Op>, p: seq<Stage>, q: seq<Stage>, r: Result<()>)
    requires Staged(run, t0, t1, p, r) && r.Err?
    ensures Staged(run, t0, t1, p + q, r)
  {
    ChainAppend(run, |t0|, p, q);
  }

  lemma {:induction false} StagedThen(run: (nat, Stage) -> Execution, t0: seq<Op>, t1: seq<Op>, t2: seq<Op>, p: seq<Stage>, q: seq<Stage>,
                   r1: Result<()>, r2: Result<()>)
    requires Staged(run, t0, t1, p, r1) && r1.Ok? && Staged(run, t1, t2, q, r2)
    ensures Staged(run, t0, t2, p + q, r2)
  {
    ChainAppend(run, |t0|, p, q);
    var e1 := Chain(run, |t0|, p);
    var e2 := Chain(run, |t1|, q);
    ConcatAssoc(t0, e1.ops, e2.ops);
  }

  /** A run of `p + q` makes the calls of `p` first; it completes only if
      `p` does, and it fails exactly as `p` when `p` fails. */
  lemma {:induction false} StagesExtend(run: (nat, Stage) -> Execution, k: nat, p: seq<Stage>, q: seq<Stage>)
    ensures var e1, e := Chain(run, k, p), Chain(run, k, p + q);
      |e1.ops| <= |e.ops| && e.ops[..|e1.ops|] == e1.ops
      && (e.outcome.Ok? ==> e1.outcome.Ok?)
      && (e1.outcome.Err? ==> e == e1)
  {
    ChainAppend(run, k, p, q);
    var e1 := Chain(run, k, p);
    if e1.outcome.Ok? {
      var e2 := Chain(run, k + |e1.ops|, q);
      assert (e1.ops + e2.ops)[..|e1.ops|] == e1.ops;
    }
  }

  // ---------------------------------------------------------------------
  // What each action runs and reports.

  /** What an action left behind: its calls and its value or error. */
  datatype Report = Report(ops: seq<Op>, outcome: Result<Record>)

  /** Connecting, then signing in. */
  function SignInStages(credentials: SslVpnCredentials, port: int, manualSms: bool): seq<Stage> {
    [Attach(port), SignIn(SignInCredentials(credentials, manualSms))]
  }

  /** Signing in, then the console. */
  function ConsoleStages(credentials: SslVpnCredentials, port: int, manualSms: bool, popupTimeout: int): seq<Stage> {
    SignInStages(credentials, port, manualSms) + [OpenConsole(credentials.consoleUrl, popupTimeout)]
  }

  /** The console, then the SSL VPN page. */
  function SslVpnStages(credentials: SslVpnCredentials, port: int, manualSms: bool, popupTimeout: int): seq<Stage> {
    ConsoleStages(credentials, port, manualSms, popupTimeout) + [OpenSslVpn(credentials.sslVpnConsoleUrl)]
  }

  /** The SSL VPN page, then the wait for its data. */
  function LoadStages(credentials: SslVpnCredentials, port: int, manualSms: bool, popupTimeout: int,
                      dataTimeout: int): seq<Stage> {
    SslVpnStages(credentials, port, manualSms, popupTimeout) + [AwaitData(dataTimeout)]
  }

  /** A stage error rethrown under an action's prefix, or the action's
      record. */
  function Reported(outcome: Result<()>, prefix: string, success: Record): (r: Result<Record>)
    ensures r.Ok? <==> outcome.Ok?
    ensures r.Ok? ==> r.value == success
    ensures r.Err? ==>
      |prefix| <= |r.error| && r.error[..|prefix|] == prefix && r.error[|prefix|..] == outcome.error
  {
    if outcome.Err? then Err(prefix + outcome.error) else Ok(success)
  }

  function AuthenticatedRecord(now: string): Record {
    map["success" := Bool(true), "message" := Str(AuthenticatedMessage),
        "step" := Str("authentication"), "timestamp" := Str(now)]
  }

  function ConsoleRecord(now: string): Record {
    map["success" := Bool(true), "message" := Str(ConsoleMessage),
        "steps" := Arr([Str("authentication"), Str("console")]), "timestamp" := Str(now)]
  }

  function Objects(rows: seq<Record>): seq<Value> {
    seq(|rows|, i requires 0 <= i < |rows| => Obj(rows[i]))
  }

  /** The record of a completed extraction. */
  function ExtractedRecord(rows: seq<Record>, now: string): Record {
    map["success" := Bool(true), "message" := Str(ExtractMessage),
        "steps" := Arr([Str("authentication"), Str("console"), Str("ssl_vpn_navigation"), Str("data_extraction")]),
        "timestamp" := Str(now), "data" := Arr(Objects(rows)), "count" := Num(|rows|)]
  }

  /** The extraction's outcome from the rows read: their record, or the
      read's error under the extraction's prefix. */
  function Extracted(rows: Result<seq<Record>>, now: string): Result<Record> {
    if rows.Err? then Err(ExtractFailed + rows.error) else Ok(ExtractedRecord(rows.value, now))
  }

  /** A completed extraction's record holds the rows as data, in their
      order, and their number as the count. */
  lemma {:induction false} ExtractedRecordFields(rows: seq<Record>, now: string)
    ensures var r := ExtractedRecord(rows, now);
      Truthy(Get(r, "success")) && Get(r, "data").Arr? && |Get(r, "data").items| == |rows|
      && Get(r, "count") == Num(|rows|)
      && forall i :: 0 <= i < |rows| ==> Get(r, "data").items[i] == Obj(rows[i])
  {
  }

  function AuthenticateRun(env: Env, k: nat, credentials: SslVpnCredentials, port: int, manualSms: bool,
                           now: string): Report {
    var e := Chain(StageOf(env), k, SignInStages(credentials, port, manualSms));
    Report(e.ops, Reported(e.outcome, AuthFailed, AuthenticatedRecord(now)))
  }

  function ConsoleRun(env: Env, k: nat, credentials: SslVpnCredentials, port: int, manualSms: bool,
                      popupTimeout: int, now: string): Report {
    var e := Chain(StageOf(env), k, ConsoleStages(credentials, port, manualSms, popupTimeout));
    Report(e.ops, Reported(e.outcome, ConsoleFailed, ConsoleRecord(now)))
  }

  /** The stages up to the data wait, then the VPC read; the rows come
      from the tables the read saw. */
  function ExtractRun(env: Env, k: nat, credentials: SslVpnCredentials, port: int, manualSms: bool,
                      popupTimeout: int, dataTimeout: int, now: string): Report {
    ReadAfter(env, k, Chain(StageOf(env), k, LoadStages(credentials, port, manualSms, popupTimeout, dataTimeout)), now)
  }

  /** The VPC read after the stages that ran from call number `k` as
      `loaded`, unless they failed. */
  function ReadAfter(env: Env, k: nat, loaded: Execution, now: string): Report {
    if loaded.outcome.Err? then Report(loaded.ops, Err(ExtractFailed + loaded.outcome.error))
    else
      var kr := k + |loaded.ops|;
      Report(loaded.ops + Run(env, kr, VpcPlan).ops, Extracted(VpcRead(env, kr), now))
  }

  /** The read comes after the stages' calls, completes only after they
      do, and reports its failures under the extraction's prefix. */
  lemma {:induction false} ReadAfterStages(env: Env, k: nat, loaded: Execution, now: string)
    ensures var rep := ReadAfter(env, k, loaded, now);
      |loaded.ops| <= |rep.ops| && rep.ops[..|loaded.ops|] == loaded.ops
      && (rep.outcome.Ok? ==> loaded.outcome.Ok?)
      && (rep.outcome.Err? ==>
            |ExtractFailed| <= |rep.outcome.error| && rep.outcome.error[..|ExtractFailed|] == ExtractFailed)
  {
    if loaded.outcome.Ok? {
      var read := Run(env, k + |loaded.ops|, VpcPlan);
      assert (loaded.ops + read.ops)[..|loaded.ops|] == loaded.ops;
    }
  }

  /** The extraction under the full process's message. */
  function FullRun(env: Env, k: nat, credentials: SslVpnCredentials, port: int, manualSms: bool,
                   popupTimeout: int, dataTimeout: int, now: string): Report {
    var x := ExtractRun(env, k, credentials, port, manualSms, popupTimeout, dataTimeout, now);
    Report(x.ops, if x.outcome.Err? then x.outcome else Ok(x.outcome.value["message" := Str(FullMessage)]))
  }

  // ---------------------------------------------------------------------
  // The actions.

  /** One stage through the manager: attaching connects it; every other
      stage goes through the handler, navigator or extractor the action
      built on it, and needs a held page. */
  method Advance(manager: BrowserManager, s: Stage) returns (r: Result<()>)
    requires s.Attach? || manager.page.Some?
    modifies manager`browser, manager`context, manager`page, manager.driver`trace
    ensures var e := StageRun(manager.driver.env, |old(manager.driver.trace)|, s);
      manager.driver.trace == old(manager.driver.trace) + e.ops && r == e.outcome
    ensures r.Ok? ==> manager.page.Some?
  {
    var env := manager.driver.env;
    ghost var t0 := manager.driver.trace;
    match s
    case Attach(port) =>
      var connected := manager.ConnectToDebugBrowser(port);
      r := Settled(connected);
      if r.Ok? {
        assert r.value == ();
      }
    case SignIn(c) =>
      var handler := new AuthenticationHandler(manager);
      r := handler.PerformAuthentication(c);
    case OpenConsole(url, timeout) =>
      var navigator := new ConsoleNavigator(manager);
      r := navigator.NavigateToConsole(url, timeout);
      ghost var g := Run(env, |t0|, [Goto(url, Some(NetworkIdle))]);
      ConcatAssoc(t0, g.ops, if g.outcome.Ok? then PopupCalls(env, |t0| + 1, timeout) else []);
    case OpenSslVpn(url) =>
      var navigator := new ConsoleNavigator(manager);
      r := navigator.NavigateToSslVpnPage(url);
    case AwaitData(timeout) =>
      var extractor := new DataExtractor(manager);
      r := extractor.WaitForDataLoad(timeout);
  }

  /** The next stage after `done` completed from trace `t0`. */
  method Extend(manager: BrowserManager, ghost t0: seq<Op>, ghost done: seq<Stage>, s: Stage)
    returns (r: Result<()>)
    requires Staged(StageOf(manager.driver.env), t0, manager.driver.trace, done, Ok(()))
    requires s.Attach? || manager.page.Some?
    modifies manager`browser, manager`context, manager`page, manager.driver`trace
    ensures Staged(StageOf(manager.driver.env), t0, manager.driver.trace, done + [s], r)
    ensures r.Ok? ==> manager.page.Some?
  {
    ghost var t1 := manager.driver.trace;
    r := Advance(manager, s);
    StagedOne(StageOf(manager.driver.env), t1, manager.driver.trace, s, r);
    StagedThen(StageOf(manager.driver.env), t0, t1, manager.driver.trace, done, [s], Ok(()), r);
  }

  /** Connecting and signing in through a fresh manager, on which a page is
      held afterwards when both succeed. */
  method SignInWith(manager: BrowserManager, credentials: SslVpnCredentials, port: int, manualSms: bool)
    returns (r: Result<()>)
    modifies manager`browser, manager`context, manager`page, manager.driver`trace
    ensures Staged(StageOf(manager.driver.env), old(manager.driver.trace), manager.driver.trace,
                   SignInStages(credentials, port, manualSms), r)
    ensures r.Ok? ==> manager.page.Some?
  {
    var env := manager.driver.env;
    var c := SignInCredentials(credentials, manualSms);
    ghost var t0 := manager.driver.trace;
    assert Staged(StageOf(env), t0, t0, [], Ok(())) by {
      assert t0 + [] == t0;
    }
    var connected := Extend(manager, t0, [], Attach(port));
    assert [] + [Attach(port)] == [Attach(port)];
    assert SignInStages(credentials, port, manualSms) == [Attach(port)] + [SignIn(c)];
    if connected.Err? {
      StagedStop(StageOf(env), t0, manager.driver.trace, [Attach(port)], [SignIn(c)], connected);
      return connected;
    }
    r := Extend(manager, t0, [Attach(port)], SignIn(c));
  }

  /** `AuthenticateAction.execute`. */
  method Authenticate(driver: Driver, credentials: SslVpnCredentials, debugPort: int, manualSms: bool,
                      now: string) returns (r: Result<Record>)
    modifies driver`trace
    ensures var rep := AuthenticateRun(driver.env, |old(driver.trace)|, credentials, debugPort, manualSms, now);
      driver.trace == old(driver.trace) + rep.ops && r == rep.outcome
  {
    var manager := new BrowserManager(driver);
    var signedIn := SignInWith(manager, credentials, debugPort, manualSms);
    if signedIn.Err? {
      return Err(AuthFailed + signedIn.error);
    }
    r := Ok(AuthenticatedRecord(now));
  }

  /** `ConsoleAction.execute`. */
  method Console(driver: Driver, credentials: SslVpnCredentials, debugPort: int, manualSms: bool,
                 popupTimeout: int, now: string) returns (r: Result<Record>)
    modifies driver`trace
    ensures var rep := ConsoleRun(driver.env, |old(driver.trace)|, credentials, debugPort, manualSms, popupTimeout, now);
      driver.trace == old(driver.trace) + rep.ops && r == rep.outcome
  {
    var manager := new BrowserManager(driver);
    ghost var t0 := driver.trace;
    var signIn := SignInStages(credentials, debugPort, manualSms);
    var console := OpenConsole(credentials.consoleUrl, popupTimeout);
    var signedIn := SignInWith(manager, credentials, debugPort, manualSms);
    if signedIn.Err? {
      StagedStop(StageOf(driver.env), t0, driver.trace, signIn, [console], signedIn);
      return Err(ConsoleFailed + signedIn.error);
    }
    assert signedIn == Ok(()) by {
      assert signedIn.value == ();
    }
    var shown := Extend(manager, t0, signIn, console);
    if shown.Err? {
      return Err(ConsoleFailed + shown.error);
    }
    r := Ok(ConsoleRecord(now));
  }

  /** A failure while signing in or navigating ends the extraction's
      stages too. */
  lemma {:induction false} LoadStopsEarly(env: Env, t0: seq<Op>, t1: seq<Op>, credentials: SslVpnCredentials, port: int,
                       manualSms: bool, popupTimeout: int, dataTimeout: int, n: nat, r: Result<()>)
    requires r.Err? && n < 3
    requires Staged(StageOf(env), t0, t1, if n == 0 then SignInStages(credentials, port, manualSms)
                                  else if n == 1 then ConsoleStages(credentials, port, manualSms, popupTimeout)
                                  else SslVpnStages(credentials, port, manualSms, popupTimeout), r)
    ensures Staged(StageOf(env), t0, t1, LoadStages(credentials, port, manualSms, popupTimeout, dataTimeout), r)
  {
    var signIn := SignInStages(credentials, port, manualSms);
    var console := ConsoleStages(credentials, port, manualSms, popupTimeout);
    var sslVpn := SslVpnStages(credentials, port, manualSms, popupTimeout);
    if n == 0 {
      StagedStop(StageOf(env), t0, t1, signIn, [OpenConsole(credentials.consoleUrl, popupTimeout)], r);
    }
    if n <= 1 {
      StagedStop(StageOf(env), t0, t1, console, [OpenSslVpn(credentials.sslVpnConsoleUrl)], r);
    }
    StagedStop(StageOf(env), t0, t1, sslVpn, [AwaitData(dataTimeout)], r);
  }

  /** The extraction's stages through a fresh manager, on which a page is
      held afterwards when they all succeed. */
  method LoadWith(manager: BrowserManager, credentials: SslVpnCredentials, port: int, manualSms: bool,
                  popupTimeout: int, dataTimeout: int) returns (r: Result<()>)
    modifies manager`browser, manager`context, manager`page, manager.driver`trace
    ensures Staged(StageOf(manager.driver.env), old(manager.driver.trace), manager.driver.trace,
                   LoadStages(credentials, port, manualSms, popupTimeout, dataTimeout), r)
    ensures r.Ok? ==> manager.page.Some?
  {
    var env := manager.driver.env;
    ghost var t0 := manager.driver.trace;
    var signIn := SignInStages(credentials, port, manualSms);
    var console := ConsoleStages(credentials, port, manualSms, popupTimeout);
    var sslVpn := SslVpnStages(credentials, port, manualSms, popupTimeout);
    var signedIn := SignInWith(manager, credentials, port, manualSms);
    if signedIn.Err? {
      LoadStopsEarly(env, t0, manager.driver.trace, credentials, port, manualSms, popupTimeout, dataTimeout, 0, signedIn);
      return signedIn;
    }
    assert signedIn.value == ();
    var shown := Extend(manager, t0, signIn, OpenConsole(credentials.consoleUrl, popupTimeout));
    if shown.Err? {
      LoadStopsEarly(env, t0, manager.driver.trace, credentials, port, manualSms, popupTimeout, dataTimeout, 1, shown);
      return shown;
    }
    assert shown.value == ();
    var reached := Extend(manager, t0, console, OpenSslVpn(credentials.sslVpnConsoleUrl));
    if reached.Err? {
      LoadStopsEarly(env, t0, manager.driver.trace, credentials, port, manualSms, popupTimeout, dataTimeout, 2, reached);
      return reached;
    }
    assert reached.value == ();
    r := Extend(manager, t0, sslVpn, AwaitData(dataTimeout));
  }

  /** `ExtractAction.execute`. */
  method Extract(driver: Driver, credentials: SslVpnCredentials, debugPort: int, manualSms: bool,
                 popupTimeout: int, dataTimeout: int, now: string) returns (r: Result<Record>)
    modifies driver`trace
    ensures var rep := ExtractRun(driver.env, |old(driver.trace)|, credentials, debugPort, manualSms,
                                  popupTimeout, dataTimeout, now);
      driver.trace == old(driver.trace) + rep.ops && r == rep.outcome
  {
    var env := driver.env;
    var manager := new BrowserManager(driver);
    ghost var t0 := driver.trace;
    ghost var e := Chain(StageOf(env), |t0|, LoadStages(credentials, debugPort, manualSms, popupTimeout, dataTimeout));
    assert ExtractRun(env, |t0|, credentials, debugPort, manualSms, popupTimeout, dataTimeout, now)
        == ReadAfter(env, |t0|, e, now);
    var loaded := LoadWith(manager, credentials, debugPort, manualSms, popupTimeout, dataTimeout);
    if loaded.Err? {
      return Err(ExtractFailed + loaded.error);
    }
    r := ReadVpcData(manager, t0, e, now);
  }

  /** The VPC read on the page the completed stages `loaded` left, run
      from trace `t0`. */
  method ReadVpcData(manager: BrowserManager, ghost t0: seq<Op>, ghost loaded: Execution, now: string)
    returns (r: Result<Record>)
    requires manager.page.Some? && loaded.outcome.Ok? && manager.driver.trace == t0 + loaded.ops
    modifies manager.driver`trace
    ensures var rep := ReadAfter(manager.driver.env, |t0|, loaded, now);
      manager.driver.trace == t0 + rep.ops && r == rep.outcome
  {
    var env := manager.driver.env;
    ghost var t1 := manager.driver.trace;
    var extractor := new DataExtractor(manager);
    var rows := extractor.ExtractVpcData();
    ghost var kr := |t0| + |loaded.ops|;
    assert |t1| == kr;
    ghost var read := Run(env, kr, VpcPlan);
    assert manager.driver.trace == t0 + (loaded.ops + read.ops) by {
      ConcatAssoc(t0, loaded.ops, read.ops);
    }
    r := Extracted(rows, now);
    assert ReadAfter(env, |t0|, loaded, now) == Report(loaded.ops + read.ops, r);
  }

  /** `FullAction.execute`: the extraction, reported under the full
      process's message; its errors pass through unchanged. */
  method Full(driver: Driver, credentials: SslVpnCredentials, debugPort: int, manualSms: bool,
              popupTimeout: int, dataTimeout: int, now: string) returns (r: Result<Record>)
    modifies driver`trace
    ensures var rep := FullRun(driver.env, |old(driver.trace)|, credentials, debugPort, manualSms,
                               popupTimeout, dataTimeout, now);
      driver.trace == old(driver.trace) + rep.ops && r == rep.outcome
  {
    var result := Extract(driver, credentials, debugPort, manualSms, popupTimeout, dataTimeout, now);
    if result.Err? {
      return result;
    }
    r := Ok(result.value["message" := Str(FullMessage)]);
  }

  // ---------------------------------------------------------------------
  // What the actions guarantee.

  /** None of `ops` types into the SMS code field. */
  predicate NeverTypesCode(ops: seq<Op>) {
    forall i :: 0 <= i < |ops| ==> !(ops[i].Fill? && ops[i].selector == SmsCodeField)
  }

  lemma {:induction false} NeverTypesCodeConcat(a: seq<Op>, b: seq<Op>)
    requires NeverTypesCode(a) && NeverTypesCode(b)
    ensures NeverTypesCode(a + b)
  {
    var ops := a + b;
    forall i | 0 <= i < |ops|
      ensures !(ops[i].Fill? && ops[i].selector == SmsCodeField)
    {
      if i < |a| {
        assert ops[i] == a[i];
      } else {
        assert ops[i] == b[i - |a|];
      }
    }
  }

  /** Connecting never fills in a field. */
  lemma {:induction false} AttachNeverTypesCode(env: Env, k: nat, port: int)
    ensures NeverTypesCode(StageRun(env, k, Attach(port)).ops)
  {
    var plan := ConnectPlan(env, port);
    forall i | 0 <= i < |plan|
      ensures !plan[i].Fill?
    {
      assert plan[i] == ConnectOverCDP(Endpoint(port)) || plan[i] == NewContext || plan[i] == NewPage;
    }
    FillFreeNeverTypesCode(env, k, plan);
  }

  /** A plan without a fill never types the code. */
  lemma {:induction false} FillFreeNeverTypesCode(env: Env, k: nat, plan: seq<Op>)
    requires forall i :: 0 <= i < |plan| ==> !plan[i].Fill?
    ensures NeverTypesCode(Run(env, k, plan).ops)
  {
    RunPrefix(env, k, plan);
  }

  /** Signing in without a code never types one. */
  lemma {:induction false} SignInNeverTypesCode(env: Env, k: nat, c: AuthCredentials)
    requires !HasCode(c.smsCode)
    ensures NeverTypesCode(StageRun(env, k, SignIn(c)).ops)
  {
    ManualCodeNeverTyped(env, k, c);
    assert forall i :: 0 <= i < |Run(env, k, AuthPlan(c)).ops| ==>
      !(Run(env, k, AuthPlan(c)).ops[i].Fill? && Run(env, k, AuthPlan(c)).ops[i].selector == SmsCodeField);
    assert StageRun(env, k, SignIn(c)) == Run(env, k, AuthPlan(c));
  }

  /** Two stages neither of which types the code never type it together. */
  lemma {:induction false} TwoStagesNeverTypeCode(run: (nat, Stage) -> Execution, k: nat, s: Stage, t: Stage)
    requires NeverTypesCode(run(k, s).ops) && NeverTypesCode(run(k + |run(k, s).ops|, t).ops)
    ensures NeverTypesCode(Chain(run, k, [s, t]).ops)
  {
    ChainTwo(run, k, s, t);
    var e := run(k, s);
    if e.outcome.Ok? {
      NeverTypesCodeConcat(e.ops, run(k + |e.ops|, t).ops);
    }
  }

  /** Connecting and then signing in without a code never types one. */
  lemma {:induction false} SignInStagesNeverTypeCode(env: Env, k: nat, port: int, c: AuthCredentials)
    requires !HasCode(c.smsCode)
    ensures NeverTypesCode(Chain(StageOf(env), k, [Attach(port), SignIn(c)]).ops)
  {
    var run := StageOf(env);
    forall j: nat
      ensures NeverTypesCode(run(j, Attach(port)).ops) && NeverTypesCode(run(j, SignIn(c)).ops)
    {
      AttachNeverTypesCode(env, j, port);
      SignInNeverTypesCode(env, j, c);
    }
    TwoStagesNeverTypeCode(run, k, Attach(port), SignIn(c));
  }

  /** With manual SMS input the calls of signing in never type into the
      SMS code field, whatever code the credential stores: the code is left
      to the person at the browser. */
  lemma {:induction false} ManualSmsNeverTypesCode(env: Env, k: nat, credentials: SslVpnCredentials, port: int)
    ensures NeverTypesCode(Chain(StageOf(env), k, SignInStages(credentials, port, true)).ops)
  {
    var c := SignInCredentials(credentials, true);
    SignInStagesNeverTypeCode(env, k, port, c);
  }

  /** The console action makes the authenticate action's calls first;
      when those fail it fails with the same message under its own prefix,
      and it completes only when they do. */
  lemma {:induction false} ConsoleSignsInFirst(env: Env, k: nat, credentials: SslVpnCredentials, port: int, manualSms: bool,
                            popupTimeout: int, now: string)
    ensures var a, c := AuthenticateRun(env, k, credentials, port, manualSms, now),
                        ConsoleRun(env, k, credentials, port, manualSms, popupTimeout, now);
      |a.ops| <= |c.ops| && c.ops[..|a.ops|] == a.ops
      && (c.outcome.Ok? ==> a.outcome.Ok?)
      && (a.outcome.Err? ==> c.ops == a.ops && c.outcome.Err?
                             && c.outcome.error[|ConsoleFailed|..] == a.outcome.error[|AuthFailed|..])
  {
    StagesExtend(StageOf(env), k, SignInStages(credentials, port, manualSms), [OpenConsole(credentials.consoleUrl, popupTimeout)]);
  }

  /** The extraction makes the console action's calls first; when those
      fail it fails with the same message under its own prefix, and it
      completes only when they do. */
  lemma {:induction false} ExtractOpensConsoleFirst(env: Env, k: nat, credentials: SslVpnCredentials, port: int, manualSms: bool,
                                 popupTimeout: int, dataTimeout: int, now: string)
    ensures var c, x := ConsoleRun(env, k, credentials, port, manualSms, popupTimeout, now),
                        ExtractRun(env, k, credentials, port, manualSms, popupTimeout, dataTimeout, now);
      |c.ops| <= |x.ops| && x.ops[..|c.ops|] == c.ops
      && (x.outcome.Ok? ==> c.outcome.Ok?)
      && (c.outcome.Err? ==> x.ops == c.ops && x.outcome.Err?
                             && x.outcome.error[|ExtractFailed|..] == c.outcome.error[|ConsoleFailed|..])
  {
    var console := ConsoleStages(credentials, port, manualSms, popupTimeout);
    var rest := [OpenSslVpn(credentials.sslVpnConsoleUrl), AwaitData(dataTimeout)];
    var load := LoadStages(credentials, port, manualSms, popupTimeout, dataTimeout);
    assert load == (console + [OpenSslVpn(credentials.sslVpnConsoleUrl)]) + [AwaitData(dataTimeout)];
    assert load == console + rest;
    StagesExtend(StageOf(env), k, console, rest);
    var e1, e := Chain(StageOf(env), k, console), Chain(StageOf(env), k, load);
    var x := ExtractRun(env, k, credentials, port, manualSms, popupTimeout, dataTimeout, now);
    assert x.ops[..|e.ops|] == e.ops;
    assert x.ops[..|e1.ops|] == e.ops[..|e1.ops|];
  }

  /** Stages ending with the data wait completed only after both of its
      polls saw their condition, from the call after the earlier stages'
      calls. */
  lemma {:induction false} WaitedAfter(env: Env, run: (nat, Stage) -> Execution, k: nat, p: seq<Stage>, timeout: int)
    requires forall j: nat :: run(j, AwaitData(timeout)) == Run(env, j, LoadPlan(timeout))
    requires Chain(run, k, p + [AwaitData(timeout)]).outcome.Ok?
    ensures var kl := k + |Chain(run, k, p).ops|;
      (exists s :: s in env.PollsAt(kl) && s.loadingIndicators == 0)
      && (exists s :: s in env.PollsAt(kl + 1) && |s.tableRows| > 0 && s.tableRows[0] > 1)
  {
    ChainLastRan(run, k, p, AwaitData(timeout));
    DataLoaded(env, k + |Chain(run, k, p).ops|, timeout);
  }


  /** A completed extraction read the tables only after both data waits
      saw their condition: a state with no loading indicator, then one
      whose first table has a data row. */
  lemma {:induction false} ExtractWaitedForData(env: Env, k: nat, credentials: SslVpnCredentials, port: int,
                                                manualSms: bool, popupTimeout: int, dataTimeout: int, now: string)
    requires ExtractRun(env, k, credentials, port, manualSms, popupTimeout, dataTimeout, now).outcome.Ok?
    ensures var kl := k + |Chain(StageOf(env), k, SslVpnStages(credentials, port, manualSms, popupTimeout)).ops|;
      (exists s :: s in env.PollsAt(kl) && s.loadingIndicators == 0)
      && (exists s :: s in env.PollsAt(kl + 1) && |s.tableRows| > 0 && s.tableRows[0] > 1)
  {
    var loaded := Chain(StageOf(env), k, LoadStages(credentials, port, manualSms, popupTimeout, dataTimeout));
    ReadAfterStages(env, k, loaded, now);
    LoadedWaitedForData(env, k, SslVpnStages(credentials, port, manualSms, popupTimeout), dataTimeout);
  }

  /** The data-wait stage makes the calls of the load plan. */
  lemma AwaitDataRunsLoadPlan(env: Env, timeout: int)
    ensures forall j: nat :: StageOf(env)(j, AwaitData(timeout)) == Run(env, j, LoadPlan(timeout))
  {
  }

  /** The data wait after any stages, run against the remote environment. */
  lemma {:induction false} LoadedWaitedForData(env: Env, k: nat, p: seq<Stage>, timeout: int)
    requires Chain(StageOf(env), k, p + [AwaitData(timeout)]).outcome.Ok?
    ensures var kl := k + |Chain(StageOf(env), k, p).ops|;
      (exists s :: s in env.PollsAt(kl) && s.loadingIndicators == 0)
      && (exists s :: s in env.PollsAt(kl + 1) && |s.tableRows| > 0 && s.tableRows[0] > 1)
  {
    AwaitDataRunsLoadPlan(env, timeout);
    WaitedAfter(env, StageOf(env), k, p, timeout);
  }

  /** A completed read after stages `loaded` came after their completion,
      made the VPC read's calls right after theirs and reports the rows
      that read yields; `VpcReadCompleted` says those are the rows of the
      tables its second call saw. */
  lemma {:induction false} ReadReportsRows(env: Env, k: nat, loaded: Execution, now: string)
    requires ReadAfter(env, k, loaded, now).outcome.Ok?
    ensures loaded.outcome.Ok? && VpcRead(env, k + |loaded.ops|).Ok?
    ensures ReadAfter(env, k, loaded, now).ops == loaded.ops + Run(env, k + |loaded.ops|, VpcPlan).ops
    ensures ReadAfter(env, k, loaded, now).outcome == Extracted(VpcRead(env, k + |loaded.ops|), now)
  {
  }

  /** The full process reports exactly what the extraction reports, with
      only the message replaced; its failures are the extraction's. */
  lemma {:induction false} FullOnlyRenames(env: Env, k: nat, credentials: SslVpnCredentials, port: int, manualSms: bool,
                        popupTimeout: int, dataTimeout: int, now: string)
    ensures var x, f := ExtractRun(env, k, credentials, port, manualSms, popupTimeout, dataTimeout, now),
                        FullRun(env, k, credentials, port, manualSms, popupTimeout, dataTimeout, now);
      f.ops == x.ops && (f.outcome.Ok? <==> x.outcome.Ok?)
      && (x.outcome.Err? ==> f.outcome == x.outcome)
      && (x.outcome.Ok? ==>
            f.outcome.value.Keys == x.outcome.value.Keys
            && Get(f.outcome.value, "message") == Str(FullMessage)
            && forall key :: key in x.outcome.value && key != "message" ==> f.outcome.value[key] == x.outcome.value[key])
  {
    var x := ExtractRun(env, k, credentials, port, manualSms, popupTimeout, dataTimeout, now);
    if x.outcome.Ok? {
      assert "message" in ExtractedRecord([], now);
      assert "message" in x.outcome.value;
    }
  }
}
