/** The Playwright driver as the SSL VPN side sees it: a browser reached
    over the Chrome DevTools protocol, driven by page operations that are
    appended to a trace. What the remote browser answers is fixed in
    advance by an environment, indexed by the position of the call in the
    trace: which calls throw and with what message, which `page.$` queries
    find their element, the page states a `waitForFunction` observes while
    it polls, and the document an in-page `evaluate` reads. */
module Remote {
  import opened Wrappers
  import opened Values

  /** The driver's default timeout. Selector and load-state waits given
      no timeout use it, and so does every `waitForFunction` here: each
      passes its `{ timeout }` object in the position of the page
      function's argument, not of its options. */
  const DefaultTimeout: int := 30000

  /** The message a `waitForFunction` rejects with when the page throws
      while evaluating its condition (the SMS field is missing). */
  const ConditionThrew: string := "Cannot read properties of null (reading 'value')"

  /** The message of a wait that ran out of time. */
  function TimeoutError(ms: int): string {
    "Timeout " + IntToString(ms) + "ms exceeded."
  }

  // ---------------------------------------------------------------------
  // Page states and the conditions waited for.

  /** What an in-page condition can see of the page. `smsField` is the
      value of the SMS code input, when there is one; `popupDisplay` the
      inline `display` style of the first `.popup, .modal, .overlay`
      element, when there is one; `tableRows` the number of `tr` in each
      `table`, in document order. */
  datatype Snapshot = Snapshot(
    url: string,
    smsField: Option<string>,
    popupDisplay: Option<string>,
    loadingIndicators: nat,
    tableRows: seq<nat>)

  /** The conditions the code waits for with `waitForFunction`. */
  datatype Condition =
    | SmsCodeEntered      // the SMS code field holds more than 5 characters
    | AuthComplete        // the URL mentions the console or the dashboard
    | PopupGone           // no popup, or a popup hidden with display none
    | NoLoadingIndicator  // no `.loading, .spinner, .loader` element
    | FirstTableHasRows   // a table exists and the first has more than one row

  /** Evaluating a condition on one page state: `None` when the evaluation
      throws, which only reading the value of a missing SMS field does. */
  function Check(c: Condition, s: Snapshot): (v: Option<bool>)
    ensures v.None? <==> c == SmsCodeEntered && s.smsField.None?
    ensures c == SmsCodeEntered && v == Some(true) ==> |s.smsField.value| > 5
    ensures c == AuthComplete ==> (v == Some(true) <==> Contains(s.url, "console") || Contains(s.url, "dashboard"))
    ensures c == PopupGone ==> (v == Some(true) <==> s.popupDisplay.None? || s.popupDisplay == Some("none"))
    ensures c == NoLoadingIndicator ==> (v == Some(true) <==> s.loadingIndicators == 0)
    ensures c == FirstTableHasRows ==> (v == Some(true) <==> |s.tableRows| > 0 && s.tableRows[0] > 1)
  {
    match c
    case SmsCodeEntered => if s.smsField.None? then None else Some(|s.smsField.value| > 5)
    case AuthComplete => Some(Contains(s.url, "console") || Contains(s.url, "dashboard"))
    case PopupGone => Some(s.popupDisplay.None? || s.popupDisplay.value == "none")
    case NoLoadingIndicator => Some(s.loadingIndicators == 0)
    case FirstTableHasRows => Some(|s.tableRows| > 0 && s.tableRows[0] > 1)
  }

  // ---------------------------------------------------------------------
  // Documents read by in-page scripts.

  /** A `table`: the texts of its `th, .header-cell` elements as they
      stand (`labels`), the trimmed cell texts of its header row (`headers`,
      empty when it has none) and the trimmed `td` texts of each of its
      data rows. */
  datatype Table = Table(labels: seq<string>, headers: seq<string>, rows: seq<seq<string>>)

  /** The page contents an `evaluate` reads: the tables in document order,
      the table a caller's selector picks (each `tr` as its cell texts, the
      first being the header row), and the user modal: absent, or present
      with the `td` texts of each row of its data tbody when it has one. */
  datatype Document = Document(
    tables: seq<Table>,
    selected: Option<seq<seq<string>>>,
    modal: Option<Option<seq<seq<string>>>>)

  /** The in-page scripts. */
  datatype Script = ReadVpcTables | ReadTable(selector: string) | ReadUserModal

  // ---------------------------------------------------------------------
  // Operations and answers.

  datatype Op =
    | ConnectOverCDP(endpoint: string)
    | NewContext
    | NewPage
    | Goto(url: string, waitUntil: Option<string>)
    | WaitForSelector(selector: string, timeout: int)
    | Click(selector: string)
    | Fill(selector: string, value: string)
    | WaitForLoadState(state: Option<string>, loadTimeout: Option<int>)
    | WaitForFunction(condition: Condition, arg: int)   // `{ timeout: arg }` given as the page function's argument
    | Query(selector: string)            // `page.$`
    | ClickHandle(selector: string)      // `click` on the handle `page.$` returned
    | OnceDialogDismissAlert             // `page.once('dialog', ...)` dismissing alerts
    | Evaluate(script: Script)
    | PressKey(key: string)
    | CloseBrowser

  /** `Missing` is a `page.$` that found nothing. */
  datatype Reply = Done | Missing | Failed(message: string)

  /** The remote side. `contexts` is how many contexts the browser already
      has and `firstContextPages` how many pages the first of them has. */
  datatype Env = Env(
    contexts: nat,
    firstContextPages: nat,
    failures: map<nat, string>,
    present: set<nat>,
    polls: map<nat, seq<Snapshot>>,
    documents: map<nat, Document>)
  {
    function PollsAt(k: nat): seq<Snapshot> {
      if k in polls then polls[k] else []
    }

    function DocumentAt(k: nat): Document {
      if k in documents then documents[k] else Document([], None, None)
    }
  }

  /** A `waitForFunction` over the page states it observes, in order: it
      resolves at the first state where the condition holds, rejects at
      the first where evaluating it throws, and times out when it never
      holds. */
  function WaitOutcome(c: Condition, polls: seq<Snapshot>, ms: int): (reply: Reply)
    ensures reply != Missing
  {
    if polls == [] then Failed(TimeoutError(ms))
    else match Check(c, polls[0])
      case None => Failed(ConditionThrew)
      case Some(true) => Done
      case Some(false) => WaitOutcome(c, polls[1..], ms)
  }

  /** A wait resolves exactly when some observed state satisfies the
      condition and every earlier one evaluated to false. */
  lemma {:induction false} WaitResolves(c: Condition, polls: seq<Snapshot>, ms: int)
    ensures WaitOutcome(c, polls, ms) == Done <==>
      exists i :: 0 <= i < |polls| && Check(c, polls[i]) == Some(true)
                  && forall j :: 0 <= j < i ==> Check(c, polls[j]) == Some(false)
    ensures (forall i :: 0 <= i < |polls| ==> Check(c, polls[i]) == Some(false)) ==>
      WaitOutcome(c, polls, ms) == Failed(TimeoutError(ms))
  {
    if WaitOutcome(c, polls, ms) == Done {
      var i := DoneResolvesAt(c, polls, ms);
      assert Check(c, polls[i]) == Some(true);
    }
    if exists i :: 0 <= i < |polls| && Check(c, polls[i]) == Some(true)
                   && forall j :: 0 <= j < i ==> Check(c, polls[j]) == Some(false) {
      var i :| 0 <= i < |polls| && Check(c, polls[i]) == Some(true)
               && forall j :: 0 <= j < i ==> Check(c, polls[j]) == Some(false);
      ResolvesAtDone(c, polls, ms, i);
    }
    if forall i :: 0 <= i < |polls| ==> Check(c, polls[i]) == Some(false) {
      AllFalseTimesOut(c, polls, ms);
    }
  }

  /** Poll `i` is the first to satisfy the condition, the earlier ones
      having evaluated to false. */
  ghost predicate ResolvesAt(c: Condition, polls: seq<Snapshot>, i: int) {
    0 <= i < |polls| && Check(c, polls[i]) == Some(true)
    && forall j :: 0 <= j < i ==> Check(c, polls[j]) == Some(false)
  }

  lemma {:induction false} DoneResolvesAt(c: Condition, polls: seq<Snapshot>, ms: int) returns (i: nat)
    requires WaitOutcome(c, polls, ms) == Done
    ensures ResolvesAt(c, polls, i)
    decreases |polls|
  {
    if Check(c, polls[0]) == Some(true) {
      i := 0;
    } else {
      var i' := DoneResolvesAt(c, polls[1..], ms);
      i := i' + 1;
      forall j | 0 <= j < i
        ensures Check(c, polls[j]) == Some(false)
      {
        if j > 0 {
          assert polls[j] == polls[1..][j - 1];
        }
      }
    }
  }

  lemma {:induction false} ResolvesAtDone(c: Condition, polls: seq<Snapshot>, ms: int, i: nat)
    requires ResolvesAt(c, polls, i)
    ensures WaitOutcome(c, polls, ms) == Done
    decreases i
  {
    if i > 0 {
      assert Check(c, polls[0]) == Some(false);
      forall j | 0 <= j < i - 1
        ensures Check(c, polls[1..][j]) == Some(false)
      {
        assert polls[1..][j] == polls[j + 1];
      }
      ResolvesAtDone(c, polls[1..], ms, i - 1);
    }
  }

  lemma {:induction false} AllFalseTimesOut(c: Condition, polls: seq<Snapshot>, ms: int)
    requires forall i :: 0 <= i < |polls| ==> Check(c, polls[i]) == Some(false)
    ensures WaitOutcome(c, polls, ms) == Failed(TimeoutError(ms))
    decreases |polls|
  {
    if polls != [] {
      assert Check(c, polls[0]) == Some(false);
      forall i | 0 <= i < |polls[1..]|
        ensures Check(c, polls[1..][i]) == Some(false)
      {
        assert polls[1..][i] == polls[i + 1];
      }
      AllFalseTimesOut(c, polls[1..], ms);
    }
  }


  /** What the remote side answers to `op` made as call number `k`.
      Registering a dialog handler is local and always works. */
  function Answer(env: Env, k: nat, op: Op): (reply: Reply)
    ensures op.OnceDialogDismissAlert? ==> reply == Done
    ensures !op.OnceDialogDismissAlert? && k in env.failures ==> reply == Failed(env.failures[k])
    ensures reply == Missing ==> op.Query? && k !in env.present
    ensures op.Query? && k !in env.failures ==> (reply == Done <==> k in env.present)
    ensures op.WaitForFunction? && k !in env.failures ==>
      reply == WaitOutcome(op.condition, env.PollsAt(k), DefaultTimeout)
    ensures !op.Query? && !op.WaitForFunction? && k !in env.failures ==> reply == Done
  {
    if op.OnceDialogDismissAlert? then Done
    else if k in env.failures then Failed(env.failures[k])
    else match op
      case Query(_) => if k in env.present then Done else Missing
      case WaitForFunction(c, _) => WaitOutcome(c, env.PollsAt(k), DefaultTimeout)
      case _ => Done
  }

  predicate Fails(env: Env, k: nat, op: Op) {
    Answer(env, k, op).Failed?
  }

  // ---------------------------------------------------------------------
  // Straight-line plans: a fixed sequence of calls that stops at the first
  // one that throws.

  /** The calls made and the outcome. */
  datatype Execution = Execution(ops: seq<Op>, outcome: Result<()>)

  /** Running `plan` from call number `k`. */
  function Run(env: Env, k: nat, plan: seq<Op>): (e: Execution)
    decreases |plan|
  {
    if plan == [] then Execution([], Ok(()))
    else match Answer(env, k, plan[0])
      case Failed(m) => Execution([plan[0]], Err(m))
      case _ =>
        var rest := Run(env, k + 1, plan[1..]);
        Execution([plan[0]] + rest.ops, rest.outcome)
  }

  /** Call `i` of the plan, made as call number `k + i`, throws. */
  predicate StepFails(env: Env, k: nat, plan: seq<Op>, i: nat)
    requires i < |plan|
  {
    Fails(env, k + i, plan[i])
  }

  /** The calls made are a prefix of the plan, all of it when the plan
      completes. */
  lemma {:induction false} RunPrefix(env: Env, k: nat, plan: seq<Op>)
    ensures var e := Run(env, k, plan);
      |e.ops| <= |plan| && e.ops == plan[..|e.ops|]
      && (e.outcome.Ok? ==> e.ops == plan) && (e.outcome.Err? ==> 0 < |e.ops|)
    decreases |plan|
  {
    if plan != [] {
      RunPrefix(env, k + 1, plan[1..]);
    }
  }

  /** A plan completes exactly when none of its calls throws. */
  lemma {:induction false} RunCompletes(env: Env, k: nat, plan: seq<Op>)
    ensures Run(env, k, plan).outcome.Ok? <==> forall i :: 0 <= i < |plan| ==> !StepFails(env, k, plan, i)
    decreases |plan|
  {
    if plan != [] {
      var rest := plan[1..];
      RunCompletes(env, k + 1, rest);
      if !Fails(env, k, plan[0]) {
        assert Run(env, k, plan).outcome == Run(env, k + 1, rest).outcome;
        if Run(env, k, plan).outcome.Ok? {
          forall i | 0 <= i < |plan|
            ensures !StepFails(env, k, plan, i)
          {
            if i > 0 {
              assert plan[i] == rest[i - 1];
              assert !StepFails(env, k + 1, rest, i - 1);
            }
          }
        } else {
          var j :| 0 <= j < |rest| && StepFails(env, k + 1, rest, j);
          assert plan[j + 1] == rest[j];
          assert StepFails(env, k, plan, j + 1);
        }
      } else {
        assert StepFails(env, k, plan, 0);
      }
    }
  }

  /** A plan that does not complete stops at its first call that throws,
      with that call's message. */
  lemma {:induction false} RunStopsAtFirstFailure(env: Env, k: nat, plan: seq<Op>)
    ensures var e := Run(env, k, plan);
      e.outcome.Err? ==>
        0 < |e.ops| <= |plan|
        && (forall i :: 0 <= i < |e.ops| - 1 ==> !StepFails(env, k, plan, i))
        && Answer(env, k + |e.ops| - 1, plan[|e.ops| - 1]) == Failed(e.outcome.error)
    decreases |plan|
  {
    if plan != [] && !Fails(env, k, plan[0]) {
      var rest := plan[1..];
      RunStopsAtFirstFailure(env, k + 1, rest);
      var e := Run(env, k, plan);
      var r := Run(env, k + 1, rest);
      assert e.ops == [plan[0]] + r.ops && e.outcome == r.outcome;
      if e.outcome.Err? {
        var n := |r.ops|;
        assert plan[n] == rest[n - 1];
        forall i | 0 <= i < n
          ensures !StepFails(env, k, plan, i)
        {
          if i > 0 {
            assert plan[i] == rest[i - 1];
            assert !StepFails(env, k + 1, rest, i - 1);
          }
        }
      }
    }
  }

  /** Running two plans back to back is running their concatenation. */
  lemma {:induction false} RunAppend(env: Env, k: nat, p1: seq<Op>, p2: seq<Op>)
    ensures var e1 := Run(env, k, p1);
      Run(env, k, p1 + p2) ==
        if e1.outcome.Err? then e1
        else var e2 := Run(env, k + |p1|, p2); Execution(e1.ops + e2.ops, e2.outcome)
    decreases |p1|
  {
    if p1 == [] {
      assert p1 + p2 == p2;
    } else {
      var op, rest := p1[0], p1[1..];
      assert p1 == [op] + rest;
      assert p1 + p2 == [op] + (rest + p2);
      RunStep(env, k, op, rest);
      RunStep(env, k, op, rest + p2);
      if !Fails(env, k, op) {
        RunAppend(env, k + 1, rest, p2);
        var r1 := Run(env, k + 1, rest);
        if r1.outcome.Ok? {
          var e2 := Run(env, k + |p1|, p2);
          assert [op] + (r1.ops + e2.ops) == ([op] + r1.ops) + e2.ops;
        }
      }
    }
  }

  /** The first call of a plan either throws, and the plan stops there
      with its message, or is followed by the rest of the plan one call
      later. */
  lemma {:induction false} RunStep(env: Env, k: nat, op: Op, rest: seq<Op>)
    ensures Run(env, k, [op] + rest) ==
      if Fails(env, k, op) then Execution([op], Err(Answer(env, k, op).message))
      else var e := Run(env, k + 1, rest); Execution([op] + e.ops, e.outcome)
  {
    var q := [op] + rest;
    assert q[0] == op && q[1..] == rest;
  }

  /** A plan followed by another: the first one's failure ends both,
      otherwise the second runs on from where the first completed. */
  lemma {:induction false} RunThen(env: Env, k: nat, p: seq<Op>, q: seq<Op>)
    ensures Run(env, k, p).outcome.Err? ==> Run(env, k, p + q) == Run(env, k, p)
    ensures Run(env, k, p).outcome.Ok? ==> Run(env, k, p).ops == p
    ensures Run(env, k, p).outcome.Ok? ==>
      var e := Run(env, k + |p|, q); Run(env, k, p + q) == Execution(p + e.ops, e.outcome)
  {
    RunAppend(env, k, p, q);
    RunPrefix(env, k, p);
  }

  /** A call that was followed by another one did not throw. */
  lemma {:induction false} RunPassed(env: Env, k: nat, plan: seq<Op>, i: nat)
    requires i + 1 < |Run(env, k, plan).ops|
    ensures i < |plan| && !StepFails(env, k, plan, i)
  {
    RunPrefix(env, k, plan);
    RunCompletes(env, k, plan);
    RunStopsAtFirstFailure(env, k, plan);
  }

  /** A wait that did not throw saw its condition hold on some observed
      page state. */
  lemma {:induction false} WaitSawCondition(env: Env, k: nat, c: Condition, arg: int)
    requires !Fails(env, k, WaitForFunction(c, arg))
    ensures exists i :: 0 <= i < |env.PollsAt(k)| && Check(c, env.PollsAt(k)[i]) == Some(true)
  {
    WaitResolves(c, env.PollsAt(k), DefaultTimeout);
  }

  /** The condition is false on every observed page state. */
  predicate NeverHolds(c: Condition, polls: seq<Snapshot>) {
    forall i :: 0 <= i < |polls| ==> Check(c, polls[i]) == Some(false)
  }

  /** A `waitForFunction` whose condition never holds times out after the
      default timeout, whatever `timeout` its argument object names. */
  lemma {:induction false} WaitIgnoresArgTimeout(env: Env, k: nat, c: Condition, arg: int)
    requires k !in env.failures
    requires NeverHolds(c, env.PollsAt(k))
    ensures Answer(env, k, WaitForFunction(c, arg)) == Failed(TimeoutError(DefaultTimeout))
  {
    AllFalseTimesOut(c, env.PollsAt(k), DefaultTimeout);
  }

  lemma {:induction false} ConcatAssoc(a: seq<Op>, b: seq<Op>, c: seq<Op>)
    ensures (a + b) + c == a + (b + c)
  {
  }

  /** Whether a call that returns a value threw, and with what. */
  function Settled<T>(r: Result<T>): Result<()> {
    if r.Ok? then Ok(()) else Err(r.error)
  }

  /** The calls of `plan`, made from trace `before`, leave trace `after`
      and end with `r`. */
  predicate Traced(env: Env, before: seq<Op>, after: seq<Op>, plan: seq<Op>, r: Result<()>) {
    var e := Run(env, |before|, plan);
    after == before + e.ops && r == e.outcome
  }

  /** A plan that fails has made all the calls of any plan it starts. */
  lemma {:induction false} TracedStop(env: Env, t0: seq<Op>, t1: seq<Op>, p: seq<Op>, q: seq<Op>, r: Result<()>)
    requires Traced(env, t0, t1, p, r) && r.Err?
    ensures Traced(env, t0, t1, p + q, r)
  {
    RunThen(env, |t0|, p, q);
  }

  /** A plan that completes, followed by a second one from where it left
      the trace, has run their concatenation. */
  lemma {:induction false} TracedThen(env: Env, t0: seq<Op>, t1: seq<Op>, t2: seq<Op>, p: seq<Op>, q: seq<Op>,
                   r1: Result<()>, r2: Result<()>)
    requires Traced(env, t0, t1, p, r1) && r1.Ok? && Traced(env, t1, t2, q, r2)
    ensures Traced(env, t0, t2, p + q, r2)
  {
    RunThen(env, |t0|, p, q);
    var e := Run(env, |t1|, q);
    assert t2 == (t0 + p) + e.ops;
    assert t2 == t0 + (p + e.ops);
  }

  // ---------------------------------------------------------------------
  // The driver.

  /** The Playwright connection: every call is appended to `trace` and
      answered by `env`. */
  class Driver {
    var trace: seq<Op>
    const env: Env

    constructor (env: Env)
      ensures trace == [] && this.env == env
    {
      trace := [];
      this.env := env;
    }

    method Call(op: Op) returns (reply: Reply)
      modifies this`trace
      ensures trace == old(trace) + [op]
      ensures reply == Answer(env, |old(trace)|, op)
    {
      reply := Answer(env, |trace|, op);
      trace := trace + [op];
    }

    /** A call whose throw is the caller's failure. */
    method Invoke(op: Op) returns (r: Result<()>)
      modifies this`trace
      ensures Traced(env, old(trace), trace, [op], r)
    {
      RunStep(env, |trace|, op, []);
      assert [op] + [] == [op];
      var reply := Call(op);
      r := if reply.Failed? then Err(reply.message) else Ok(());
    }

    /** An in-page script: the document it reads, or the error the call
        throws. */
    method Read(script: Script) returns (r: Result<Document>)
      modifies this`trace
      ensures Traced(env, old(trace), trace, [Evaluate(script)], Settled(r))
      ensures r.Ok? ==> r.value == env.DocumentAt(|old(trace)|)
    {
      var k := |trace|;
      var done := Invoke(Evaluate(script));
      if done.Err? {
        return Err(done.error);
      }
      r := Ok(env.DocumentAt(k));
    }
  }
}
