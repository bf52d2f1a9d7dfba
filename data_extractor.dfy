/** The extractor that reads the SSL VPN console through a browser
    manager: the VPC table, a table a caller picks, the users of each VPN
    (opened one VPN at a time through the console's user modal) and the
    wait for the data to load. Every call goes through the manager's
    driver, so each operation is specified by the calls it makes and by
    what the pages those calls read contain. */
module DataExtraction {
  import opened Wrappers
  import opened Values
  import opened Remote
  import opened BrowserManagement
  import opened TableExtraction

  /** What the VPC extraction waits for before reading. */
  const DataTableSelector: string := "table, .data-table, .vpc-list"
  /** The selector of a table read when the caller gives none. */
  const DefaultTableSelector: string := "table"
  const UsersButton: string :=
    "#app > div > div.ph-30.page-body > div.sticky-holder > div > div > div > button:nth-child(2)"
  const ModalContent: string := ".modal-content"
  const ModalTimeout: int := 5000
  const ModalClose: string :=
    ".modal-content > .modal-body > button.btn-wrap.justify-content-center > button.btn.btn-lg.line-2"
  const Escape: string := "Escape"
  const DefaultDataTimeout: int := 30000
  /** The tbody a user lookup selects when its caller gives none. */
  const DefaultTbodyChild: int := 3

  /** The checkbox of the VPN in tbody number `n` of the VPN list. */
  function CheckboxSelector(n: int): string {
    "#app > div > div.ph-30.page-body > div.scroll-tbl > div.tbody > table > tbody:nth-child("
    + IntToString(n) + ")"
  }

  /** `tableSelector || 'table'`. */
  function TableSelector(given: Option<string>): (s: string)
    ensures s == DefaultTableSelector <==> given.None? || given.value == "" || given.value == DefaultTableSelector
    ensures s != ""
  {
    if given.Some? && given.value != "" then given.value else DefaultTableSelector
  }

  // ---------------------------------------------------------------------
  // Plans.

  /** Waiting for a data table, then reading the tables. */
  const VpcPlan: seq<Op> := [Op.WaitForSelector(DataTableSelector, DefaultTimeout)] + [Evaluate(ReadVpcTables)]

  /** The rows the VPC read from call number `k` yields: its error, or the
      records of the table chosen among those it saw. */
  function VpcRead(env: Env, k: nat): Result<seq<Record>> {
    var e := Run(env, k, VpcPlan);
    if e.outcome.Err? then Err(e.outcome.error) else VpcExtraction(env.DocumentAt(k + 1).tables)
  }

  /** A read that yields rows made both of its calls, and the rows are
      those of the tables its second call saw. */
  lemma {:induction false} VpcReadCompleted(env: Env, k: nat)
    requires VpcRead(env, k).Ok?
    ensures Run(env, k, VpcPlan).ops == VpcPlan && Run(env, k, VpcPlan).outcome.Ok?
    ensures VpcRead(env, k) == VpcExtraction(env.DocumentAt(k + 1).tables)
  {
    RunPrefix(env, k, VpcPlan);
  }

  /** Waiting for the chosen table, then reading it. */
  function TablePlan(selector: string): seq<Op> {
    [Op.WaitForSelector(selector, DefaultTimeout)] + [Evaluate(ReadTable(selector))]
  }

  /** No loading indicator left, then a first table with a data row.
      `timeout` is handed to each wait as the page function's argument,
      so both end after the driver's default timeout. */
  function LoadPlan(timeout: int): seq<Op> {
    [WaitForFunction(NoLoadingIndicator, timeout)] + [WaitForFunction(FirstTableHasRows, timeout)]
  }

  /** Selecting the VPN in tbody `n`, pressing the users button and
      waiting for the modal. */
  function OpenPlan(n: int): seq<Op> {
    [Click(CheckboxSelector(n))] + ([Click(UsersButton)] + [Op.WaitForSelector(ModalContent, ModalTimeout)])
  }

  /** Going back to the SSL VPN page when its address is configured. */
  function ReturnPlan(url: Option<string>): seq<Op> {
    if url.Some? && url.value != "" then [Goto(url.value, None)] + [WaitForLoadState(None, None)] else []
  }

  /** A user lookup: open the modal, read it, go back. The read is the
      fourth call. */
  function UserPlan(n: int, url: Option<string>): seq<Op> {
    OpenPlan(n) + ([Evaluate(ReadUserModal)] + ReturnPlan(url))
  }

  /** The users a lookup starting at call `k` reads. */
  function UsersAt(env: Env, k: nat): seq<Record> {
    ModalUsers(env.DocumentAt(k + 3).modal)
  }

  /** Closing the modal after a failed lookup: its close button, and when
      clicking that throws, the Escape key, whose own throw is final. */
  function Recovery(env: Env, k: nat): Execution {
    var close := Click(ModalClose);
    if Fails(env, k, close) then
      var esc := Run(env, k + 1, [PressKey(Escape)]);
      Execution([close] + esc.ops, esc.outcome)
    else Execution([close], Ok(()))
  }

  /** Recovery fails only when both the close button and the Escape key
      throw, and then with the Escape key's message. */
  lemma {:induction false} RecoveryFails(env: Env, k: nat)
    ensures var e := Recovery(env, k);
      e.outcome.Err? <==> k in env.failures && k + 1 in env.failures
    ensures var e := Recovery(env, k);
      e.outcome.Err? ==> e.ops == [Click(ModalClose), PressKey(Escape)] && e.outcome.error == env.failures[k + 1]
  {
    RunStep(env, k + 1, PressKey(Escape), []);
    assert [PressKey(Escape)] + [] == [PressKey(Escape)];
  }

  // ---------------------------------------------------------------------
  // Annotating a VPN's users.

  /** The VPN a user lookup is for: its name and its row in the VPN table. */
  datatype Vpn = Vpn(name: string, rowIndex: int)

  /** The VPN list's tbody holding the VPN: the tbody after its row. */
  function TbodyChild(v: Vpn): int {
    v.rowIndex + 1
  }

  const VpnKeys: set<string> := {"vpn_number", "vpn_name", "vpn_row_index", "vpn_tbody_child"}

  /** A record naming VPN `v`, number `j + 1` of the list. */
  predicate AnnotatedFor(r: Record, j: nat, v: Vpn) {
    && "vpn_number" in r && r["vpn_number"] == Num(j + 1)
    && "vpn_name" in r && r["vpn_name"] == Str(v.name)
    && "vpn_row_index" in r && r["vpn_row_index"] == Num(v.rowIndex)
    && "vpn_tbody_child" in r && r["vpn_tbody_child"] == Num(TbodyChild(v))
  }

  /** The VPN number a record carries. */
  function VpnNumber(r: Record): int {
    match Get(r, "vpn_number")
    case Num(n) => n
    case _ => 0
  }

  /** A user spread into a record with the VPN's keys after it. */
  function Annotated(user: Record, i: nat, v: Vpn): (r: Record)
    ensures AnnotatedFor(r, i, v) && VpnNumber(r) == i + 1
    ensures r.Keys == user.Keys + VpnKeys
    ensures forall key :: key in user && key !in VpnKeys ==> r[key] == user[key]
  {
    user + map["vpn_number" := Num(i + 1), "vpn_name" := Str(v.name),
               "vpn_row_index" := Num(v.rowIndex), "vpn_tbody_child" := Num(TbodyChild(v))]
  }

  /** The users of VPN `i`, each annotated and in their order. */
  function Annotate(users: seq<Record>, i: nat, v: Vpn): seq<Record> {
    seq(|users|, u requires 0 <= u < |users| => Annotated(users[u], i, v))
  }

  /** Every user of VPN `i` annotated, in their order. */
  lemma {:induction false} AnnotateFields(users: seq<Record>, i: nat, v: Vpn)
    ensures var out := Annotate(users, i, v);
      |out| == |users|
      && forall u :: 0 <= u < |out| ==>
        AnnotatedFor(out[u], i, v) && VpnNumber(out[u]) == i + 1 && out[u].Keys == users[u].Keys + VpnKeys
  {
    var out := Annotate(users, i, v);
    forall u | 0 <= u < |out|
      ensures AnnotatedFor(out[u], i, v) && VpnNumber(out[u]) == i + 1 && out[u].Keys == users[u].Keys + VpnKeys
    {
      assert out[u] == Annotated(users[u], i, v);
    }
  }

  // ---------------------------------------------------------------------
  // Looking up the users of every VPN.

  /** How the console answers the loop: the calls and outcome of a user
      lookup for a VPN starting at a call number, the users such a lookup
      reads, and the calls and outcome of a recovery. */
  datatype Console = Console(
    lookup: (nat, Vpn) -> Execution,
    users: nat -> seq<Record>,
    recovery: nat -> Execution)

  /** The console a driver's remote side makes, with `url` the address of
      the SSL VPN page, if set. */
  function ConsoleOf(env: Env, url: Option<string>): Console {
    Console((k: nat, v: Vpn) => Run(env, k, UserPlan(TbodyChild(v), url)),
            (k: nat) => UsersAt(env, k),
            (k: nat) => Recovery(env, k))
  }

  /** `c` answers as the driver's remote side does, each answer stated
      for the plan the driver runs. */
  ghost predicate Answers(c: Console, env: Env, url: Option<string>) {
    && (forall k: nat, v: Vpn {:trigger Run(env, k, UserPlan(TbodyChild(v), url))} ::
          c.lookup(k, v) == Run(env, k, UserPlan(TbodyChild(v), url)))
    && (forall k: nat {:trigger UsersAt(env, k)} :: c.users(k) == UsersAt(env, k))
    && (forall k: nat {:trigger Recovery(env, k)} :: c.recovery(k) == Recovery(env, k))
  }

  lemma {:induction false} ConsoleOfAnswers(env: Env, url: Option<string>)
    ensures Answers(ConsoleOf(env, url), env, url)
  {
  }

  /** The calls made and the users gathered, or the error that ended it. */
  datatype Harvest = Harvest(ops: seq<Op>, outcome: Result<seq<Record>>)

  function Prefixed(p: seq<Op>, h: Harvest): Harvest {
    Harvest(p + h.ops, h.outcome)
  }

  /** VPN `v`, number `i + 1`, looked up from call number `k` with `acc`
      gathered: a lookup that completes adds the VPN's annotated users; one
      that fails is followed by the recovery, whose failure ends the loop. */
  function StepOf(c: Console, k: nat, v: Vpn, i: nat, acc: seq<Record>): Harvest {
    var a := c.lookup(k, v);
    if a.outcome.Ok? then Harvest(a.ops, Ok(acc + Annotate(c.users(k), i, v)))
    else
      var rec := c.recovery(k + |a.ops|);
      Harvest(a.ops + rec.ops, if rec.outcome.Err? then Err(rec.outcome.error) else Ok(acc))
  }

  /** From VPN `i` on, with call number `k` next and `acc` gathered, one
      VPN after the other until a step fails. */
  function GatherFrom(c: Console, k: nat, vpns: seq<Vpn>, i: nat, acc: seq<Record>): Harvest
    requires i <= |vpns|
    decreases |vpns| - i
  {
    if i == |vpns| then Harvest([], Ok(acc))
    else
      var s := StepOf(c, k, vpns[i], i, acc);
      if s.outcome.Err? then s
      else Prefixed(s.ops, GatherFrom(c, k + |s.ops|, vpns, i + 1, s.outcome.value))
  }

  function Gather(c: Console, k: nat, vpns: seq<Vpn>): Harvest {
    GatherFrom(c, k, vpns, 0, [])
  }

  lemma {:induction false} PrefixedAssoc(p: seq<Op>, q: seq<Op>, h: Harvest)
    ensures Prefixed(p, Prefixed(q, h)) == Prefixed(p + q, h)
  {
    ConcatAssoc(p, q, h.ops);
  }

  /** One VPN of the loop, after the calls `done` made from call number
      `k0`: a step that fails ends the whole gathering, one that completes
      leaves the rest of the VPNs to gather on from it. */
  lemma {:induction false} GatherStep(c: Console, k0: nat, done: seq<Op>, vpns: seq<Vpn>, i: nat, acc: seq<Record>, s: Harvest)
    requires i < |vpns| && s == StepOf(c, k0 + |done|, vpns[i], i, acc)
    ensures s.outcome.Err? ==> Prefixed(done, GatherFrom(c, k0 + |done|, vpns, i, acc)) == Harvest(done + s.ops, s.outcome)
    ensures s.outcome.Ok? ==>
      Prefixed(done, GatherFrom(c, k0 + |done|, vpns, i, acc))
      == Prefixed(done + s.ops, GatherFrom(c, k0 + |done + s.ops|, vpns, i + 1, s.outcome.value))
  {
    if s.outcome.Ok? {
      PrefixedAssoc(done, s.ops, GatherFrom(c, k0 + |done| + |s.ops|, vpns, i + 1, s.outcome.value));
    }
  }

  /** What was gathered before is kept, in front. */
  lemma {:induction false} GatherKeeps(c: Console, k: nat, vpns: seq<Vpn>, i: nat, acc: seq<Record>)
    requires i <= |vpns|
    ensures var h := GatherFrom(c, k, vpns, i, acc);
      h.outcome.Ok? ==> |acc| <= |h.outcome.value| && h.outcome.value[..|acc|] == acc
    decreases |vpns| - i
  {
    if i < |vpns| {
      var s := StepOf(c, k, vpns[i], i, acc);
      if s.outcome.Ok? {
        var acc' := s.outcome.value;
        assert |acc| <= |acc'| && acc'[..|acc|] == acc;
        GatherKeeps(c, k + |s.ops|, vpns, i + 1, acc');
        var h := GatherFrom(c, k + |s.ops|, vpns, i + 1, acc');
        if h.outcome.Ok? {
          assert h.outcome.value[..|acc|] == h.outcome.value[..|acc'|][..|acc|];
        }
      }
    }
  }

  /** The users VPN `i` added come first in what the later VPNs'
      gathering returns. */
  lemma {:induction false} GatherAddedFirst(c: Console, k: nat, vpns: seq<Vpn>, i: nat, acc: seq<Record>, added: seq<Record>, m: nat)
    requires i < |vpns| && forall u :: 0 <= u < |added| ==> VpnNumber(added[u]) == i + 1
    requires var h := GatherFrom(c, k, vpns, i + 1, acc + added); h.outcome.Ok? && |acc| <= m < |acc + added|
    ensures var out := GatherFrom(c, k, vpns, i + 1, acc + added).outcome.value; m < |out| && VpnNumber(out[m]) == i + 1
  {
    GatherKeeps(c, k, vpns, i + 1, acc + added);
    var out := GatherFrom(c, k, vpns, i + 1, acc + added).outcome.value;
    assert out[m] == out[..|acc + added|][m] == added[m - |acc|];
  }

  /** Every record gathered from VPN `i` on carries the number of a VPN
      from `i` on and that VPN's name, row and tbody. */
  lemma {:induction false} GatherAnnotates(c: Console, k: nat, vpns: seq<Vpn>, i: nat, acc: seq<Record>, m: nat)
    requires i <= |vpns|
    requires var h := GatherFrom(c, k, vpns, i, acc); h.outcome.Ok? && |acc| <= m < |h.outcome.value|
    ensures var r := GatherFrom(c, k, vpns, i, acc).outcome.value[m]; var j := VpnNumber(r) - 1;
      i <= j < |vpns| && AnnotatedFor(r, j, vpns[j])
    decreases |vpns| - i
  {
    var s := StepOf(c, k, vpns[i], i, acc);
    var acc' := s.outcome.value;
    if m < |acc'| {
      var added := Annotate(c.users(k), i, vpns[i]);
      AnnotateFields(c.users(k), i, vpns[i]);
      assert acc' == acc + added;
      GatherKeeps(c, k + |s.ops|, vpns, i + 1, acc');
      var out := GatherFrom(c, k + |s.ops|, vpns, i + 1, acc').outcome.value;
      assert out[m] == out[..|acc'|][m] == added[m - |acc|];
    } else {
      GatherAnnotates(c, k + |s.ops|, vpns, i + 1, acc', m);
    }
  }

  /** Records gathered from VPN `i` on come VPN by VPN, in list order. */
  lemma {:induction false} GatherOrdered(c: Console, k: nat, vpns: seq<Vpn>, i: nat, acc: seq<Record>, m: nat, m': nat)
    requires i <= |vpns|
    requires var h := GatherFrom(c, k, vpns, i, acc); h.outcome.Ok? && |acc| <= m <= m' < |h.outcome.value|
    ensures var out := GatherFrom(c, k, vpns, i, acc).outcome.value; VpnNumber(out[m]) <= VpnNumber(out[m'])
    decreases |vpns| - i
  {
    var s := StepOf(c, k, vpns[i], i, acc);
    var acc' := s.outcome.value;
    assert GatherFrom(c, k, vpns, i, acc) == Prefixed(s.ops, GatherFrom(c, k + |s.ops|, vpns, i + 1, acc'));
    if m < |acc'| {
      OrderedFromStep(c, k, vpns, i, acc, m, m');
    } else {
      GatherOrdered(c, k + |s.ops|, vpns, i + 1, acc', m, m');
    }
  }

  /** A record VPN `i` added comes no later than any record after it. */
  lemma {:induction false} OrderedFromStep(c: Console, k: nat, vpns: seq<Vpn>, i: nat, acc: seq<Record>, m: nat, m': nat)
    requires i < |vpns|
    requires var s := StepOf(c, k, vpns[i], i, acc);
      s.outcome.Ok? && |acc| <= m < |s.outcome.value|
      && var h := GatherFrom(c, k + |s.ops|, vpns, i + 1, s.outcome.value);
      h.outcome.Ok? && m <= m' < |h.outcome.value|
    ensures var s := StepOf(c, k, vpns[i], i, acc);
      var out := GatherFrom(c, k + |s.ops|, vpns, i + 1, s.outcome.value).outcome.value;
      VpnNumber(out[m]) <= VpnNumber(out[m'])
  {
    var s := StepOf(c, k, vpns[i], i, acc);
    var acc' := s.outcome.value;
    var added := Annotate(c.users(k), i, vpns[i]);
    AnnotateFields(c.users(k), i, vpns[i]);
    assert acc' == acc + added;
    GatherAddedFirst(c, k + |s.ops|, vpns, i, acc, added, m);
    if m' < |acc'| {
      GatherAddedFirst(c, k + |s.ops|, vpns, i, acc, added, m');
    } else {
      GatherAnnotates(c, k + |s.ops|, vpns, i + 1, acc', m');
    }
  }

  /** A lookup that completes contributes exactly its users, annotated,
      right after what was gathered before. */
  lemma {:induction false} GatherTakesUsers(c: Console, k: nat, vpns: seq<Vpn>, i: nat, acc: seq<Record>)
    requires i < |vpns| && c.lookup(k, vpns[i]).outcome.Ok?
    ensures var h := GatherFrom(c, k, vpns, i, acc); var added := Annotate(c.users(k), i, vpns[i]);
      h.outcome.Ok? ==>
        |acc| + |added| <= |h.outcome.value| && h.outcome.value[|acc|..|acc| + |added|] == added
  {
    var s := StepOf(c, k, vpns[i], i, acc);
    var added := Annotate(c.users(k), i, vpns[i]);
    var acc' := acc + added;
    GatherKeeps(c, k + |s.ops|, vpns, i + 1, acc');
    var h := GatherFrom(c, k + |s.ops|, vpns, i + 1, acc');
    if h.outcome.Ok? {
      assert h.outcome.value[|acc|..|acc'|] == h.outcome.value[..|acc'|][|acc|..];
    }
  }

  /** A lookup that fails and is recovered from contributes nothing: the
      records after it belong to later VPNs. */
  lemma {:induction false} GatherSkipsFailed(c: Console, k: nat, vpns: seq<Vpn>, i: nat, acc: seq<Record>, m: nat)
    requires i < |vpns| && c.lookup(k, vpns[i]).outcome.Err?
    requires var h := GatherFrom(c, k, vpns, i, acc); h.outcome.Ok? && |acc| <= m < |h.outcome.value|
    ensures VpnNumber(GatherFrom(c, k, vpns, i, acc).outcome.value[m]) > i + 1
  {
    var s := StepOf(c, k, vpns[i], i, acc);
    GatherAnnotates(c, k + |s.ops|, vpns, i + 1, acc, m);
  }

  lemma {:induction false} SuffixOfConcat(p: seq<Op>, q: seq<Op>, n: nat)
    requires n <= |q|
    ensures n <= |p + q| && (p + q)[|p + q| - n..] == q[|q| - n..]
  {
  }

  /** `h`, started at call number `k`, ends in an error only through a
      recovery that failed: its calls end with that recovery's `n` calls
      and its error is the outcome. */
  ghost predicate EndsInRecovery(c: Console, k: nat, h: Harvest, n: nat) {
    h.outcome.Err? ==>
      n <= |h.ops| && var rec := c.recovery(k + |h.ops| - n);
      rec.outcome.Err? && h.outcome == Err(rec.outcome.error) && h.ops[|h.ops| - n..] == rec.ops
  }

  /** Gathering ends in an error only through a recovery that failed. */
  lemma {:induction false} GatherFailsInRecovery(c: Console, k: nat, vpns: seq<Vpn>, i: nat, acc: seq<Record>, n: nat)
    requires i <= |vpns|
    requires forall j: nat :: c.recovery(j).outcome.Err? ==> |c.recovery(j).ops| == n
    ensures EndsInRecovery(c, k, GatherFrom(c, k, vpns, i, acc), n)
    decreases |vpns| - i
  {
    if i < |vpns| {
      var s := StepOf(c, k, vpns[i], i, acc);
      if s.outcome.Ok? {
        GatherFailsInRecovery(c, k + |s.ops|, vpns, i + 1, s.outcome.value, n);
        LaterFailsInRecovery(c, k, vpns, i, acc, n);
      } else {
        StepFailsInRecovery(c, k, vpns, i, acc, n);
      }
    }
  }

  /** A step that completes leaves the error, if any, to the VPNs after
      it. */
  lemma {:induction false} LaterFailsInRecovery(c: Console, k: nat, vpns: seq<Vpn>, i: nat, acc: seq<Record>, n: nat)
    requires i < |vpns|
    requires var s := StepOf(c, k, vpns[i], i, acc);
      s.outcome.Ok? && EndsInRecovery(c, k + |s.ops|, GatherFrom(c, k + |s.ops|, vpns, i + 1, s.outcome.value), n)
    ensures EndsInRecovery(c, k, GatherFrom(c, k, vpns, i, acc), n)
  {
    var s := StepOf(c, k, vpns[i], i, acc);
    var h := GatherFrom(c, k + |s.ops|, vpns, i + 1, s.outcome.value);
    assert GatherFrom(c, k, vpns, i, acc) == Prefixed(s.ops, h);
    if h.outcome.Err? {
      SuffixOfConcat(s.ops, h.ops, n);
      assert k + |s.ops + h.ops| - n == (k + |s.ops|) + |h.ops| - n;
    }
  }

  /** A step that fails failed in its recovery. */
  lemma {:induction false} StepFailsInRecovery(c: Console, k: nat, vpns: seq<Vpn>, i: nat, acc: seq<Record>, n: nat)
    requires i < |vpns| && StepOf(c, k, vpns[i], i, acc).outcome.Err?
    requires forall j: nat :: c.recovery(j).outcome.Err? ==> |c.recovery(j).ops| == n
    ensures EndsInRecovery(c, k, GatherFrom(c, k, vpns, i, acc), n)
  {
    var s := StepOf(c, k, vpns[i], i, acc);
    var a := c.lookup(k, vpns[i]);
    var rec := c.recovery(k + |a.ops|);
    assert GatherFrom(c, k, vpns, i, acc) == s;
    SuffixOfConcat(a.ops, rec.ops, n);
    assert k + |a.ops + rec.ops| - n == k + |a.ops|;
  }

  /** Against a browser, gathering ends in an error only when a recovery's
      close button and then its Escape key threw: those are the last two
      calls made and the Escape key's message is the error. */
  lemma {:induction false} GatherFailsOnEscape(env: Env, url: Option<string>, c: Console, k: nat, vpns: seq<Vpn>)
    requires Answers(c, env, url)
    ensures var h := Gather(c, k, vpns);
      h.outcome.Err? ==>
        |h.ops| >= 2 && h.ops[|h.ops| - 2..] == [Click(ModalClose), PressKey(Escape)]
        && k + |h.ops| - 1 in env.failures && h.outcome.error == env.failures[k + |h.ops| - 1]
  {
    FailedRecoveryLength(env, url, c);
    GatherFailsInRecovery(c, k, vpns, 0, [], 2);
    var h := Gather(c, k, vpns);
    if h.outcome.Err? {
      RecoveryFails(env, k + |h.ops| - 2);
      assert c.recovery(k + |h.ops| - 2) == Recovery(env, k + |h.ops| - 2);
    }
  }

  lemma {:induction false} FailedRecoveryLength(env: Env, url: Option<string>, c: Console)
    requires Answers(c, env, url)
    ensures forall j: nat :: c.recovery(j).outcome.Err? ==> |c.recovery(j).ops| == 2
  {
    forall j: nat | c.recovery(j).outcome.Err?
      ensures |c.recovery(j).ops| == 2
    {
      RecoveryFails(env, j);
      assert c.recovery(j) == Recovery(env, j);
    }
  }

  // ---------------------------------------------------------------------
  // The extractor.

  class DataExtractor {
    const manager: BrowserManager

    constructor (manager: BrowserManager)
      ensures this.manager == manager
    {
      this.manager := manager;
    }

    /** `extractVpcData`: refused without a page; otherwise a wait for a
        data table and the read of the tables, whose failures propagate,
        and then the records of the table the choice picks, or the error
        when the page has no table. */
    method ExtractVpcData() returns (r: Result<seq<Record>>)
      modifies manager.driver`trace
      ensures manager.page.None? ==> r == Err(NoPageError) && manager.driver.trace == old(manager.driver.trace)
      ensures manager.page.Some? ==>
        var k := |old(manager.driver.trace)|;
        var e := Run(manager.driver.env, k, VpcPlan);
        manager.driver.trace == old(manager.driver.trace) + e.ops
        && r == VpcRead(manager.driver.env, k)
    {
      var page := manager.GetPage();
      if page.Err? {
        return Err(page.error);
      }
      var driver := manager.driver;
      ghost var env := driver.env;
      var wait := [Op.WaitForSelector(DataTableSelector, DefaultTimeout)];
      ghost var t0 := driver.trace;
      var waited := manager.WaitForSelector(DataTableSelector, DefaultTimeout);
      if waited.Err? {
        TracedStop(env, t0, driver.trace, wait, [Evaluate(ReadVpcTables)], waited);
        return Err(waited.error);
      }
      RunThen(env, |t0|, wait, []);
      ghost var t1 := driver.trace;
      var doc := driver.Read(ReadVpcTables);
      TracedThen(env, t0, t1, driver.trace, wait, [Evaluate(ReadVpcTables)], waited, Settled(doc));
      if doc.Err? {
        return Err(doc.error);
      }
      r := EvaluateVpcData(doc.value.tables);
    }

    /** `extractTableData`: the same for the table the selector picks,
        `table` when none is given. */
    method ExtractTableData(tableSelector: Option<string>) returns (r: Result<seq<Record>>)
      modifies manager.driver`trace
      ensures manager.page.None? ==> r == Err(NoPageError) && manager.driver.trace == old(manager.driver.trace)
      ensures manager.page.Some? ==>
        var k := |old(manager.driver.trace)|;
        var selector := TableSelector(tableSelector);
        var e := Run(manager.driver.env, k, TablePlan(selector));
        manager.driver.trace == old(manager.driver.trace) + e.ops
        && r == (if e.outcome.Err? then Err(e.outcome.error)
                 else TableExtraction.TableExtraction(manager.driver.env.DocumentAt(k + 1).selected, selector))
    {
      var page := manager.GetPage();
      if page.Err? {
        return Err(page.error);
      }
      var selector := TableSelector(tableSelector);
      var driver := manager.driver;
      ghost var env := driver.env;
      var wait := [Op.WaitForSelector(selector, DefaultTimeout)];
      ghost var t0 := driver.trace;
      var waited := manager.WaitForSelector(selector, DefaultTimeout);
      if waited.Err? {
        TracedStop(env, t0, driver.trace, wait, [Evaluate(ReadTable(selector))], waited);
        return Err(waited.error);
      }
      RunThen(env, |t0|, wait, []);
      ghost var t1 := driver.trace;
      var doc := driver.Read(ReadTable(selector));
      TracedThen(env, t0, t1, driver.trace, wait, [Evaluate(ReadTable(selector))], waited, Settled(doc));
      if doc.Err? {
        return Err(doc.error);
      }
      r := EvaluateTable(doc.value.selected, selector);
    }

    /** `waitForDataLoad`: refused without a page; otherwise the two
        waits, each ending after the default timeout, the first failure
        ending it. */
    method WaitForDataLoad(timeout: int) returns (r: Result<()>)
      modifies manager.driver`trace
      ensures manager.Ran(LoadPlan(timeout), r)
    {
      var page := manager.GetPage();
      if page.Err? {
        return Err(page.error);
      }
      var driver := manager.driver;
      ghost var env := driver.env;
      var first := [WaitForFunction(NoLoadingIndicator, timeout)];
      var second := [WaitForFunction(FirstTableHasRows, timeout)];
      ghost var t0 := driver.trace;
      var cleared := driver.Invoke(first[0]);
      if cleared.Err? {
        TracedStop(env, t0, driver.trace, first, second, cleared);
        return cleared;
      }
      ghost var t1 := driver.trace;
      r := driver.Invoke(second[0]);
      TracedThen(env, t0, t1, driver.trace, first, second, cleared, r);
    }

    /** The clicks and the wait that open VPN `n`'s user modal. */
    method OpenUserModal(n: int) returns (r: Result<()>)
      modifies manager.driver`trace
      ensures Traced(manager.driver.env, old(manager.driver.trace), manager.driver.trace, OpenPlan(n), r)
    {
      var driver := manager.driver;
      ghost var env := driver.env;
      var check, press, wait := Click(CheckboxSelector(n)), Click(UsersButton), Op.WaitForSelector(ModalContent, ModalTimeout);
      ghost var t0 := driver.trace;
      r := driver.Invoke(check);
      if r.Err? {
        TracedStop(env, t0, driver.trace, [check], [press] + [wait], r);
        return;
      }
      ghost var t1 := driver.trace;
      var pressed := driver.Invoke(press);
      if pressed.Err? {
        TracedStop(env, t1, driver.trace, [press], [wait], pressed);
        TracedThen(env, t0, t1, driver.trace, [check], [press] + [wait], r, pressed);
        return pressed;
      }
      ghost var t2 := driver.trace;
      var shown := driver.Invoke(wait);
      TracedThen(env, t1, t2, driver.trace, [press], [wait], pressed, shown);
      TracedThen(env, t0, t1, driver.trace, [check], [press] + [wait], r, shown);
      r := shown;
    }

    /** The way back to the SSL VPN page, when its address is set. */
    method ReturnToSslVpn(url: Option<string>) returns (r: Result<()>)
      modifies manager.driver`trace
      ensures Traced(manager.driver.env, old(manager.driver.trace), manager.driver.trace, ReturnPlan(url), r)
    {
      var driver := manager.driver;
      ghost var env := driver.env;
      if url.None? || url.value == "" {
        assert driver.trace + [] == driver.trace;
        return Ok(());
      }
      var go, load := Goto(url.value, None), WaitForLoadState(None, None);
      ghost var t0 := driver.trace;
      r := driver.Invoke(go);
      if r.Err? {
        TracedStop(env, t0, driver.trace, [go], [load], r);
        return;
      }
      ghost var t1 := driver.trace;
      var loaded := driver.Invoke(load);
      TracedThen(env, t0, t1, driver.trace, [go], [load], r, loaded);
      r := loaded;
    }

    /** `getSslVpnUsers`: refused without a page; otherwise the lookup's
        calls, the first failure ending it, and on success the users the
        modal read shows. */
    method GetSslVpnUsers(tbodyChild: int, returnUrl: Option<string>) returns (r: Result<seq<Record>>)
      modifies manager.driver`trace
      ensures manager.page.None? ==> r == Err(NoPageError) && manager.driver.trace == old(manager.driver.trace)
      ensures manager.page.Some? ==>
        Traced(manager.driver.env, old(manager.driver.trace), manager.driver.trace,
               UserPlan(tbodyChild, returnUrl), Settled(r))
        && (r.Ok? ==> r.value == UsersAt(manager.driver.env, |old(manager.driver.trace)|))
    {
      var page := manager.GetPage();
      if page.Err? {
        return Err(page.error);
      }
      var driver := manager.driver;
      ghost var env := driver.env;
      ghost var open := OpenPlan(tbodyChild);
      ghost var read := [Evaluate(ReadUserModal)];
      ghost var back := ReturnPlan(returnUrl);
      assert UserPlan(tbodyChild, returnUrl) == open + (read + back);
      ghost var t0 := driver.trace;
      var modalUp := OpenUserModal(tbodyChild);
      if modalUp.Err? {
        TracedStop(env, t0, driver.trace, open, read + back, modalUp);
        assert Traced(env, t0, driver.trace, UserPlan(tbodyChild, returnUrl), modalUp);
        return Err(modalUp.error);
      }
      RunThen(env, |t0|, open, []);
      assert |driver.trace| == |t0| + 3;
      ghost var t1 := driver.trace;
      var doc := driver.Read(ReadUserModal);
      if doc.Err? {
        TracedStop(env, t1, driver.trace, read, back, Settled(doc));
        TracedThen(env, t0, t1, driver.trace, open, read + back, modalUp, Settled(doc));
        assert Traced(env, t0, driver.trace, UserPlan(tbodyChild, returnUrl), Settled(doc));
        return Err(doc.error);
      }
      var users := EvaluateUsers(doc.value.modal);
      RunThen(env, |t1|, read, []);
      ghost var t2 := driver.trace;
      var returned := ReturnToSslVpn(returnUrl);
      TracedThen(env, t1, t2, driver.trace, read, back, Settled(doc), returned);
      TracedThen(env, t0, t1, driver.trace, open, read + back, modalUp, returned);
      assert Traced(env, t0, driver.trace, UserPlan(tbodyChild, returnUrl), returned);
      if returned.Err? {
        return Err(returned.error);
      }
      assert returned.value == ();
      r := Ok(users);
    }

    /** The recovery after a failed lookup: the close button, and when
        that throws, the page is fetched again and Escape pressed. */
    method CloseModal() returns (r: Result<()>)
      modifies manager.driver`trace
      ensures manager.page.None? ==> r == Err(NoPageError) && manager.driver.trace == old(manager.driver.trace)
      ensures manager.page.Some? ==>
        var e := Recovery(manager.driver.env, |old(manager.driver.trace)|);
        manager.driver.trace == old(manager.driver.trace) + e.ops && r == e.outcome
    {
      var page := manager.GetPage();
      if page.Err? {
        return Err(page.error);
      }
      var driver := manager.driver;
      ghost var env := driver.env;
      ghost var k := |driver.trace|;
      RunStep(env, k, Click(ModalClose), []);
      assert [Click(ModalClose)] + [] == [Click(ModalClose)];
      var closed := driver.Invoke(Click(ModalClose));
      if closed.Ok? {
        return Ok(());
      }
      // The page is fetched again before the key press; it is the same one.
      r := driver.Invoke(PressKey(Escape));
    }

    /** One VPN of `getAllSslVpnUsersFromVpnData`: its users annotated
        and added, or the recovery after a failed lookup. */
    method VisitVpn(ghost console: Console, vpn: Vpn, i: nat, acc: seq<Record>, returnUrl: Option<string>)
      returns (r: Result<seq<Record>>)
      requires Answers(console, manager.driver.env, returnUrl)
      modifies manager.driver`trace
      ensures manager.page.None? ==> r == Err(NoPageError) && manager.driver.trace == old(manager.driver.trace)
      ensures manager.page.Some? ==>
        var s := StepOf(console, |old(manager.driver.trace)|, vpn, i, acc);
        manager.driver.trace == old(manager.driver.trace) + s.ops && r == s.outcome
    {
      var driver := manager.driver;
      ghost var env := driver.env;
      ghost var t0 := driver.trace;
      ghost var a := Run(env, |t0|, UserPlan(TbodyChild(vpn), returnUrl));
      assert console.lookup(|t0|, vpn) == a;
      var users := GetSslVpnUsers(TbodyChild(vpn), returnUrl);
      if users.Ok? {
        assert users.value == UsersAt(env, |t0|) == console.users(|t0|);
        return Ok(acc + Annotate(users.value, i, vpn));
      }
      ghost var rec := Recovery(env, |t0| + |a.ops|);
      assert console.recovery(|t0| + |a.ops|) == rec;
      var closed := CloseModal();
      if manager.page.Some? {
        ConcatAssoc(t0, a.ops, rec.ops);
      }
      if closed.Err? {
        return Err(closed.error);
      }
      r := Ok(acc);
    }

    /** One turn of the VPN loop, after the calls `done` made from trace
        `t0`: the calls made up to its end, and where the gathering goes
        from there. */
    method GatherNext(ghost c: Console, ghost t0: seq<Op>, ghost done: seq<Op>, vpns: seq<Vpn>, i: nat,
                      acc: seq<Record>, returnUrl: Option<string>)
      returns (next: Result<seq<Record>>, ghost done': seq<Op>)
      requires Answers(c, manager.driver.env, returnUrl) && i < |vpns|
      requires manager.driver.trace == t0 + done
      modifies manager.driver`trace
      ensures manager.driver.trace == t0 + done'
      ensures manager.page.None? ==> next == Err(NoPageError) && done' == done
      ensures manager.page.Some? && next.Err? ==>
        Prefixed(done, GatherFrom(c, |t0| + |done|, vpns, i, acc)) == Harvest(done', next)
      ensures manager.page.Some? && next.Ok? ==>
        Prefixed(done, GatherFrom(c, |t0| + |done|, vpns, i, acc))
        == Prefixed(done', GatherFrom(c, |t0| + |done'|, vpns, i + 1, next.value))
    {
      ghost var s := StepOf(c, |t0| + |done|, vpns[i], i, acc);
      next := VisitVpn(c, vpns[i], i, acc, returnUrl);
      if manager.page.Some? {
        GatherStep(c, |t0|, done, vpns, i, acc, s);
        done' := done + s.ops;
        assert manager.driver.trace == t0 + done' by {
          ConcatAssoc(t0, done, s.ops);
        }
      } else {
        done' := done;
      }
    }

    /** `getAllSslVpnUsersFromVpnData`: every VPN's users looked up and
        annotated with the VPN; a lookup that fails is recovered from and
        the loop goes on, unless the recovery fails too. */
    method GetAllSslVpnUsersFromVpnData(ghost console: Console, vpns: seq<Vpn>, returnUrl: Option<string>)
      returns (r: Result<seq<Record>>)
      requires Answers(console, manager.driver.env, returnUrl)
      modifies manager.driver`trace
      ensures manager.page.None? ==>
        manager.driver.trace == old(manager.driver.trace) && r == (if vpns == [] then Ok([]) else Err(NoPageError))
      ensures manager.page.Some? ==>
        var h := Gather(console, |old(manager.driver.trace)|, vpns);
        manager.driver.trace == old(manager.driver.trace) + h.ops && r == h.outcome
    {
      ghost var t0 := manager.driver.trace;
      ghost var done: seq<Op> := [];
      ghost var whole := Gather(console, |t0|, vpns);
      var acc: seq<Record> := [];
      var i := 0;
      assert t0 + done == t0;
      while i < |vpns|
        invariant 0 <= i <= |vpns|
        invariant manager.driver.trace == t0 + done
        invariant manager.page.None? ==> i == 0 && done == [] && acc == []
        invariant manager.page.Some? ==> whole == Prefixed(done, GatherFrom(console, |t0| + |done|, vpns, i, acc))
      {
        var next;
        next, done := GatherNext(console, t0, done, vpns, i, acc, returnUrl);
        if next.Err? {
          return next;
        }
        acc := next.value;
        i := i + 1;
      }
      assert GatherFrom(console, |t0| + |done|, vpns, i, acc) == Harvest([], Ok(acc));
      assert done + [] == done;
      r := Ok(acc);
    }
  }

  /** A data load that completed saw, on the page states its first wait
      observed, one with no loading indicator, and on those its second
      wait observed, one whose first table has a row after its header. */
  lemma {:induction false} DataLoaded(env: Env, k: nat, timeout: int)
    requires Run(env, k, LoadPlan(timeout)).outcome.Ok?
    ensures exists s :: s in env.PollsAt(k) && s.loadingIndicators == 0
    ensures exists s :: s in env.PollsAt(k + 1) && |s.tableRows| > 0 && s.tableRows[0] > 1
  {
    var first, second := WaitForFunction(NoLoadingIndicator, timeout), WaitForFunction(FirstTableHasRows, timeout);
    RunStep(env, k, first, [second]);
    RunStep(env, k + 1, second, []);
    WaitSawCondition(env, k, NoLoadingIndicator, timeout);
    WaitSawCondition(env, k + 1, FirstTableHasRows, timeout);
    var i :| 0 <= i < |env.PollsAt(k)| && Check(NoLoadingIndicator, env.PollsAt(k)[i]) == Some(true);
    var j :| 0 <= j < |env.PollsAt(k + 1)| && Check(FirstTableHasRows, env.PollsAt(k + 1)[j]) == Some(true);
    assert env.PollsAt(k)[i] in env.PollsAt(k);
    assert env.PollsAt(k + 1)[j] in env.PollsAt(k + 1);
  }
}
