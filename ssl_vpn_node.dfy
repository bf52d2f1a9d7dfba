/** The SSL VPN node's `execute`: every input item's parameters read with
    their defaults, its action run on the shared browser driver, and the
    action's record emitted as one output item or, for a completed
    extraction in items format, one output item per VPC row. A failing
    item either becomes a failure record (continue-on-fail) or ends the
    run with the action's message. */
module SslVpnNode {
  import opened Wrappers
  import opened Values
  import opened Remote
  import opened SslVpnActions
  import DataExtraction

  const DefaultManualSms: bool := true
  const DefaultPopupTimeout: int := 5000
  const DefaultDataTimeout: int := 10000
  const ItemsFormat: string := "items"
  const UnknownActionPrefix: string := "Unknown action: "

  /** One item's parameters as read. The optional ones are `None` when the
      item leaves them unset; `now` is the clock reading the action stamps
      its record with, `failedAt` the one a failure record is stamped with. */
  datatype ItemParams = ItemParams(
    action: string,
    debugPort: int,
    manualSms: Option<bool>,
    popupTimeout: Option<int>,
    dataTimeout: Option<int>,
    outputFormat: Option<string>,
    now: string,
    failedAt: string)

  function ManualSms(p: ItemParams): bool {
    p.manualSms.GetOr(DefaultManualSms)
  }

  function PopupTimeout(p: ItemParams): int {
    p.popupTimeout.GetOr(DefaultPopupTimeout)
  }

  function DataTimeout(p: ItemParams): int {
    p.dataTimeout.GetOr(DefaultDataTimeout)
  }

  function OutputFormat(p: ItemParams): string {
    p.outputFormat.GetOr(ItemsFormat)
  }

  predicate KnownAction(action: string) {
    action == "authenticate" || action == "console" || action == "extract" || action == "full"
  }

  // ---------------------------------------------------------------------
  // One item's action.

  /** The action an item names, run from call number `k`; an action the
      node does not know fails before any call. */
  function ActionRun(env: Env, k: nat, credentials: SslVpnCredentials, p: ItemParams): Report {
    if p.action == "authenticate" then
      AuthenticateRun(env, k, credentials, p.debugPort, ManualSms(p), p.now)
    else if p.action == "console" then
      ConsoleRun(env, k, credentials, p.debugPort, ManualSms(p), PopupTimeout(p), p.now)
    else if p.action == "extract" then
      ExtractRun(env, k, credentials, p.debugPort, ManualSms(p), PopupTimeout(p), DataTimeout(p), p.now)
    else if p.action == "full" then
      FullRun(env, k, credentials, p.debugPort, ManualSms(p), PopupTimeout(p), DataTimeout(p), p.now)
    else
      Report([], Err(UnknownActionPrefix + p.action))
  }

  function ActionOf(env: Env, credentials: SslVpnCredentials): (nat, ItemParams) -> Report {
    (k: nat, p: ItemParams) => ActionRun(env, k, credentials, p)
  }

  /** `run` answers every item as its action runs from that call number. */
  ghost predicate RunsActions(run: (nat, ItemParams) -> Report, env: Env, credentials: SslVpnCredentials) {
    forall j: nat, p: ItemParams {:trigger ActionRun(env, j, credentials, p)} ::
      run(j, p) == ActionRun(env, j, credentials, p)
  }

  lemma {:induction false} ActionOfRunsActions(env: Env, credentials: SslVpnCredentials)
    ensures RunsActions(ActionOf(env, credentials), env, credentials)
  {
  }

  predicate StartsWith(s: string, prefix: string) {
    |prefix| <= |s| && s[..|prefix|] == prefix
  }

  /** A known action's failure carries that action's prefix: the
      extraction's for the extraction and the full process. */
  lemma {:induction false} KnownActionErrorPrefixed(env: Env, k: nat, credentials: SslVpnCredentials, p: ItemParams)
    requires KnownAction(p.action) && ActionRun(env, k, credentials, p).outcome.Err?
    ensures var e := ActionRun(env, k, credentials, p).outcome.error;
      StartsWith(e, if p.action == "authenticate" then AuthFailed
                    else if p.action == "console" then ConsoleFailed
                    else ExtractFailed)
  {
    if p.action == "extract" || p.action == "full" {
      ExtractErrorPrefixed(env, k, credentials, p.debugPort, ManualSms(p), PopupTimeout(p), DataTimeout(p), p.now);
    }
  }

  lemma {:induction false} ExtractErrorPrefixed(env: Env, k: nat, credentials: SslVpnCredentials, port: int,
                                                manualSms: bool, popupTimeout: int, dataTimeout: int, now: string)
    ensures var x := ExtractRun(env, k, credentials, port, manualSms, popupTimeout, dataTimeout, now);
      x.outcome.Err? ==> StartsWith(x.outcome.error, ExtractFailed)
    ensures var f := FullRun(env, k, credentials, port, manualSms, popupTimeout, dataTimeout, now);
      f.outcome.Err? ==> StartsWith(f.outcome.error, ExtractFailed)
  {
    ReadAfterStages(env, k, Chain(StageOf(env), k, LoadStages(credentials, port, manualSms, popupTimeout, dataTimeout)), now);
    FullOnlyRenames(env, k, credentials, port, manualSms, popupTimeout, dataTimeout, now);
  }

  /** An action fails before any browser call, with its own name in the
      message, exactly when the node does not know it. */
  lemma {:induction false} UnknownActionFails(env: Env, k: nat, credentials: SslVpnCredentials, p: ItemParams)
    ensures var rep := ActionRun(env, k, credentials, p);
      !KnownAction(p.action) <==> rep.outcome == Err(UnknownActionPrefix + p.action) && rep.ops == []
  {
    var rep := ActionRun(env, k, credentials, p);
    if KnownAction(p.action) && rep.outcome.Err? {
      KnownActionErrorPrefixed(env, k, credentials, p);
      assert rep.outcome.error[0] != 'U';
    }
  }

  /** The action through the driver, as the node's switch runs it. */
  method RunAction(driver: Driver, credentials: SslVpnCredentials, ghost run: (nat, ItemParams) -> Report, p: ItemParams)
    returns (r: Result<Record>)
    requires RunsActions(run, driver.env, credentials)
    modifies driver`trace
    ensures driver.trace == old(driver.trace) + run(|old(driver.trace)|, p).ops
    ensures r == run(|old(driver.trace)|, p).outcome
  {
    assert run(|driver.trace|, p) == ActionRun(driver.env, |driver.trace|, credentials, p);
    if p.action == "authenticate" {
      r := Authenticate(driver, credentials, p.debugPort, ManualSms(p), p.now);
    } else if p.action == "console" {
      r := Console(driver, credentials, p.debugPort, ManualSms(p), PopupTimeout(p), p.now);
    } else if p.action == "extract" {
      r := Extract(driver, credentials, p.debugPort, ManualSms(p), PopupTimeout(p), DataTimeout(p), p.now);
    } else if p.action == "full" {
      r := Full(driver, credentials, p.debugPort, ManualSms(p), PopupTimeout(p), DataTimeout(p), p.now);
    } else {
      r := Err(UnknownActionPrefix + p.action);
    }
  }

  // ---------------------------------------------------------------------
  // Shaping one result into output items.

  /** A completed extraction asked for as items: one output per VPC. */
  predicate SplitsRows(action: string, format: string, result: Record) {
    (action == "extract" || action == "full") && Truthy(Get(result, "success")) && Truthy(Get(result, "data"))
    && format == ItemsFormat
  }

  /** What `for ... of` walks in a result's data. */
  function Rows(data: Value): seq<Value> {
    if data.Arr? then data.items else []
  }

  /** The extraction summary attached to every VPC item. */
  function ExtractionInfo(action: string, result: Record): Record {
    map["success" := Get(result, "success"), "message" := Get(result, "message"), "action" := Str(action),
        "timestamp" := Get(result, "timestamp"), "totalCount" := Get(result, "count")]
  }

  function RowItem(action: string, result: Record, vpc: Value, i: nat): OutputItem {
    OutputItem(Spread(vpc)["extractionInfo" := Obj(ExtractionInfo(action, result))], i)
  }

  /** The output items of item `i`'s completed action. */
  function Shaped(action: string, format: string, result: Record, i: nat): seq<OutputItem> {
    if SplitsRows(action, format, result) then
      var rows := Rows(Get(result, "data"));
      seq(|rows|, j requires 0 <= j < |rows| => RowItem(action, result, rows[j], i))
    else
      [OutputItem(result["action" := Str(action)], i)]
  }

  /** The record a failed item becomes under continue-on-fail. */
  function FailureItem(message: string, action: string, failedAt: string, i: nat): OutputItem {
    OutputItem(map["success" := Bool(false), "error" := Str(message), "action" := Str(action),
                   "timestamp" := Str(failedAt)], i)
  }

  /** The outputs after item `i`'s action ended with `outcome`, with `acc`
      emitted before; without continue-on-fail a failure ends the run. */
  function Emit(p: ItemParams, outcome: Result<Record>, i: nat, continueOnFail: bool,
                acc: seq<OutputItem>): Result<seq<OutputItem>> {
    if outcome.Ok? then Ok(acc + Shaped(p.action, OutputFormat(p), outcome.value, i))
    else if continueOnFail then Ok(acc + [FailureItem(outcome.error, p.action, p.failedAt, i)])
    else Err(outcome.error)
  }

  /** Every output of an item is paired with that item, after what was
      emitted before; a failure is emitted exactly when continue-on-fail
      lets it through, and otherwise its message is the run's error. */
  lemma {:induction false} EmitPairs(p: ItemParams, outcome: Result<Record>, i: nat, continueOnFail: bool,
                                     acc: seq<OutputItem>)
    ensures var e := Emit(p, outcome, i, continueOnFail, acc);
      (e.Err? <==> outcome.Err? && !continueOnFail)
      && (e.Err? ==> e.error == outcome.error)
      && (e.Ok? ==>
            |acc| <= |e.value| && e.value[..|acc|] == acc
            && forall j :: |acc| <= j < |e.value| ==> e.value[j].pairedItem == i)
  {
    var e := Emit(p, outcome, i, continueOnFail, acc);
    if e.Ok? {
      var shaped := if outcome.Ok? then Shaped(p.action, OutputFormat(p), outcome.value, i)
                    else [FailureItem(outcome.error, p.action, p.failedAt, i)];
      assert e.value == acc + shaped;
      assert forall j :: 0 <= j < |shaped| ==> shaped[j].pairedItem == i;
      assert e.value[..|acc|] == acc;
    }
  }

  /** A result that is not split is emitted as one item: the result's own
      fields, with `action` added (or replaced). */
  lemma {:induction false} SingleItemKeepsResult(action: string, format: string, result: Record, i: nat)
    requires !SplitsRows(action, format, result)
    ensures var out := Shaped(action, format, result, i);
      |out| == 1 && out[0].pairedItem == i
      && out[0].json.Keys == result.Keys + {"action"} && out[0].json["action"] == Str(action)
      && forall key :: key in result && key != "action" ==> out[0].json[key] == result[key]
  {
  }

  /** A split result yields one item per row of its data, in order: each
      the row's own fields with the extraction summary added, which carries
      the result's success, message, timestamp and count. */
  lemma {:induction false} SplitItemsFollowRows(action: string, format: string, result: Record, i: nat)
    requires SplitsRows(action, format, result)
    ensures var out, rows := Shaped(action, format, result, i), Rows(Get(result, "data"));
      |out| == |rows|
      && forall j :: 0 <= j < |rows| ==>
           out[j].pairedItem == i
           && out[j].json.Keys == Spread(rows[j]).Keys + {"extractionInfo"}
           && (forall key :: key in Spread(rows[j]) && key != "extractionInfo" ==>
                 out[j].json[key] == Spread(rows[j])[key])
           && out[j].json["extractionInfo"] == Obj(ExtractionInfo(action, result))
  {
  }

  /** The record of a completed extraction: successful, with an array of
      row objects as data and their number as count. */
  predicate ExtractionRecord(result: Record) {
    Get(result, "success") == Bool(true) && Get(result, "data").Arr?
    && Get(result, "count") == Num(|Get(result, "data").items|)
    && forall j :: 0 <= j < |Get(result, "data").items| ==> Get(result, "data").items[j].Obj?
  }

  /** What a completed extraction reports is such a record. */
  lemma {:induction false} ExtractedIsExtractionRecord(env: Env, k: nat, credentials: SslVpnCredentials, port: int,
                                                       manualSms: bool, popupTimeout: int, dataTimeout: int, now: string)
    requires ExtractRun(env, k, credentials, port, manualSms, popupTimeout, dataTimeout, now).outcome.Ok?
    ensures ExtractionRecord(ExtractRun(env, k, credentials, port, manualSms, popupTimeout, dataTimeout, now).outcome.value)
  {
    var loaded := Chain(StageOf(env), k, LoadStages(credentials, port, manualSms, popupTimeout, dataTimeout));
    ReadReportsRows(env, k, loaded, now);
    ExtractedRecordFields(DataExtraction.VpcRead(env, k + |loaded.ops|).value, now);
  }

  /** So is what a completed full process reports. */
  lemma {:induction false} FullIsExtractionRecord(env: Env, k: nat, credentials: SslVpnCredentials, port: int,
                                                  manualSms: bool, popupTimeout: int, dataTimeout: int, now: string)
    requires FullRun(env, k, credentials, port, manualSms, popupTimeout, dataTimeout, now).outcome.Ok?
    ensures ExtractionRecord(FullRun(env, k, credentials, port, manualSms, popupTimeout, dataTimeout, now).outcome.value)
  {
    var x := ExtractRun(env, k, credentials, port, manualSms, popupTimeout, dataTimeout, now);
    FullOnlyRenames(env, k, credentials, port, manualSms, popupTimeout, dataTimeout, now);
    ExtractedIsExtractionRecord(env, k, credentials, port, manualSms, popupTimeout, dataTimeout, now);
    var f := FullRun(env, k, credentials, port, manualSms, popupTimeout, dataTimeout, now);
    assert Get(f.outcome.value, "success") == Get(x.outcome.value, "success");
    assert Get(f.outcome.value, "data") == Get(x.outcome.value, "data");
    assert Get(f.outcome.value, "count") == Get(x.outcome.value, "count");
  }

  /** A completed extraction's record asked for as items is split: one
      item per row, each summary counting all rows and carrying the
      action. */
  lemma {:induction false} ExtractionRecordSplits(action: string, result: Record, i: nat)
    requires action == "extract" || action == "full"
    requires ExtractionRecord(result)
    ensures var rows, info := Rows(Get(result, "data")), ExtractionInfo(action, result);
      SplitsRows(action, ItemsFormat, result)
      && |Shaped(action, ItemsFormat, result, i)| == |rows|
      && (forall j :: 0 <= j < |rows| ==> rows[j].Obj?)
      && info["totalCount"] == Num(|rows|) && info["success"] == Bool(true) && info["action"] == Str(action)
  {
    var info := ExtractionInfo(action, result);
    assert info["totalCount"] == Get(result, "count");
    assert info["success"] == Get(result, "success");
  }

  /** A completed extraction (or full process) asked for as items is
      split into one item per VPC row read. */
  lemma {:induction false} CompletedExtractionSplits(env: Env, k: nat, credentials: SslVpnCredentials, p: ItemParams, i: nat)
    requires p.action == "extract" || p.action == "full"
    requires OutputFormat(p) == ItemsFormat
    requires ActionRun(env, k, credentials, p).outcome.Ok?
    ensures var result := ActionRun(env, k, credentials, p).outcome.value;
      SplitsRows(p.action, ItemsFormat, result)
      && |Shaped(p.action, ItemsFormat, result, i)| == |Rows(Get(result, "data"))|
      && Get(result, "count") == Num(|Rows(Get(result, "data"))|)
  {
    if p.action == "extract" {
      ExtractedIsExtractionRecord(env, k, credentials, p.debugPort, ManualSms(p), PopupTimeout(p), DataTimeout(p), p.now);
    } else {
      FullIsExtractionRecord(env, k, credentials, p.debugPort, ManualSms(p), PopupTimeout(p), DataTimeout(p), p.now);
    }
    ExtractionRecordSplits(p.action, ActionRun(env, k, credentials, p).outcome.value, i);
  }

  /** The for-of loop over a split result's rows: one item per row,
      appended in order. */
  method EmitRows(action: string, result: Record, i: nat, returnData: seq<OutputItem>)
    returns (returnData': seq<OutputItem>)
    requires SplitsRows(action, ItemsFormat, result)
    ensures returnData' == returnData + Shaped(action, ItemsFormat, result, i)
  {
    var rows := Rows(Get(result, "data"));
    ghost var shaped := Shaped(action, ItemsFormat, result, i);
    returnData' := returnData;
    var j := 0;
    while j < |rows|
      invariant 0 <= j <= |rows|
      invariant returnData' == returnData + shaped[..j]
    {
      returnData' := returnData' + [RowItem(action, result, rows[j], i)];
      assert shaped[..j + 1] == shaped[..j] + [shaped[j]];
      j := j + 1;
    }
    assert shaped[..|rows|] == shaped;
  }

  /** The outputs for item `i`, or the failure that ends the run. */
  method EmitItem(p: ItemParams, outcome: Result<Record>, i: nat, continueOnFail: bool, returnData: seq<OutputItem>)
    returns (next: Result<seq<OutputItem>>)
    ensures next == Emit(p, outcome, i, continueOnFail, returnData)
  {
    if outcome.Err? {
      if continueOnFail {
        next := Ok(returnData + [FailureItem(outcome.error, p.action, p.failedAt, i)]);
      } else {
        next := Err(outcome.error);
      }
      return;
    }
    var format := OutputFormat(p);
    if SplitsRows(p.action, format, outcome.value) {
      var rows := EmitRows(p.action, outcome.value, i, returnData);
      next := Ok(rows);
    } else {
      next := Ok(returnData + [OutputItem(outcome.value["action" := Str(p.action)], i)]);
    }
  }

  // ---------------------------------------------------------------------
  // The item loop, over any action runner `run`.

  /** The calls made and the items emitted, or the error that ended it. */
  datatype NodeExecution = NodeExecution(ops: seq<Op>, outcome: Result<seq<OutputItem>>)

  function After(p: seq<Op>, e: NodeExecution): NodeExecution {
    NodeExecution(p + e.ops, e.outcome)
  }

  /** Item `i` from call number `k`, with `acc` emitted before. */
  function ItemStep(run: (nat, ItemParams) -> Report, k: nat, continueOnFail: bool, items: seq<ItemParams>,
                    i: nat, acc: seq<OutputItem>): NodeExecution
    requires i < |items|
  {
    var rep := run(k, items[i]);
    NodeExecution(rep.ops, Emit(items[i], rep.outcome, i, continueOnFail, acc))
  }

  /** From item `i` on, one item after the other until one ends the run. */
  function NodeFrom(run: (nat, ItemParams) -> Report, k: nat, continueOnFail: bool, items: seq<ItemParams>,
                    i: nat, acc: seq<OutputItem>): NodeExecution
    requires i <= |items|
    decreases |items| - i
  {
    if i == |items| then NodeExecution([], Ok(acc))
    else
      var s := ItemStep(run, k, continueOnFail, items, i, acc);
      if s.outcome.Err? then s
      else After(s.ops, NodeFrom(run, k + |s.ops|, continueOnFail, items, i + 1, s.outcome.value))
  }

  function NodeRun(run: (nat, ItemParams) -> Report, k: nat, continueOnFail: bool,
                   items: seq<ItemParams>): NodeExecution {
    NodeFrom(run, k, continueOnFail, items, 0, [])
  }

  /** Item `i` of the loop, after the calls `done` made from call number
      `k0`, whose action made the calls `ops` and ended with `outcome` and
      whose outputs are `next`: a failure ends the run, a completion leaves
      the rest of the items to run on from it. */
  lemma {:induction false} NodeStep(run: (nat, ItemParams) -> Report, k0: nat, done: seq<Op>, continueOnFail: bool,
                                    items: seq<ItemParams>, i: nat, acc: seq<OutputItem>, ops: seq<Op>,
                                    outcome: Result<Record>, next: Result<seq<OutputItem>>)
    requires i < |items| && run(k0 + |done|, items[i]).ops == ops && run(k0 + |done|, items[i]).outcome == outcome
    requires next == Emit(items[i], outcome, i, continueOnFail, acc)
    ensures next.Err? ==>
      After(done, NodeFrom(run, k0 + |done|, continueOnFail, items, i, acc)) == NodeExecution(done + ops, next)
    ensures next.Ok? ==>
      After(done, NodeFrom(run, k0 + |done|, continueOnFail, items, i, acc))
      == After(done + ops, NodeFrom(run, k0 + |done + ops|, continueOnFail, items, i + 1, next.value))
  {
    if next.Ok? {
      var rest := NodeFrom(run, k0 + |done| + |ops|, continueOnFail, items, i + 1, next.value);
      ConcatAssoc(done, ops, rest.ops);
    }
  }

  /** Under continue-on-fail the run never fails. */
  lemma {:induction false} ContinueOnFailCompletes(run: (nat, ItemParams) -> Report, k: nat, items: seq<ItemParams>,
                                                   i: nat, acc: seq<OutputItem>)
    requires i <= |items|
    ensures NodeFrom(run, k, true, items, i, acc).outcome.Ok?
    decreases |items| - i
  {
    if i < |items| {
      var s := ItemStep(run, k, true, items, i, acc);
      EmitPairs(items[i], run(k, items[i]).outcome, i, true, acc);
      ContinueOnFailCompletes(run, k + |s.ops|, items, i + 1, s.outcome.value);
    }
  }

  /** A run that fails does so without continue-on-fail, with the message
      of an item's failed action. */
  lemma {:induction false} FailureIsAnAction(run: (nat, ItemParams) -> Report, k: nat, continueOnFail: bool,
                                             items: seq<ItemParams>, i: nat, acc: seq<OutputItem>)
      returns (j: nat, kj: nat)
    requires i <= |items| && NodeFrom(run, k, continueOnFail, items, i, acc).outcome.Err?
    ensures !continueOnFail && i <= j < |items|
    ensures run(kj, items[j]).outcome == Err(NodeFrom(run, k, continueOnFail, items, i, acc).outcome.error)
    decreases |items| - i
  {
    if continueOnFail {
      ContinueOnFailCompletes(run, k, items, i, acc);
      assert false;
    }
    var s := ItemStep(run, k, continueOnFail, items, i, acc);
    EmitPairs(items[i], run(k, items[i]).outcome, i, continueOnFail, acc);
    if s.outcome.Err? {
      j, kj := i, k;
    } else {
      j, kj := FailureIsAnAction(run, k + |s.ops|, continueOnFail, items, i + 1, s.outcome.value);
    }
  }

  /** Every output item pairs with an input item, in input order, after
      what was emitted before. */
  predicate PairedInOrder(out: seq<OutputItem>, from: nat, lo: nat, n: nat) {
    (forall j :: from <= j < |out| ==> lo <= out[j].pairedItem < n)
    && forall j1, j2 :: from <= j1 <= j2 < |out| ==> out[j1].pairedItem <= out[j2].pairedItem
  }

  lemma {:induction false} NodePairs(run: (nat, ItemParams) -> Report, k: nat, continueOnFail: bool,
                                     items: seq<ItemParams>, i: nat, acc: seq<OutputItem>)
    requires i <= |items|
    ensures var e := NodeFrom(run, k, continueOnFail, items, i, acc);
      e.outcome.Ok? ==>
        |acc| <= |e.outcome.value| && e.outcome.value[..|acc|] == acc
        && PairedInOrder(e.outcome.value, |acc|, i, |items|)
    decreases |items| - i
  {
    if i < |items| {
      var s := ItemStep(run, k, continueOnFail, items, i, acc);
      EmitPairs(items[i], run(k, items[i]).outcome, i, continueOnFail, acc);
      if s.outcome.Ok? {
        var mid := s.outcome.value;
        NodePairs(run, k + |s.ops|, continueOnFail, items, i + 1, mid);
        var out := NodeFrom(run, k + |s.ops|, continueOnFail, items, i + 1, mid).outcome;
        if out.Ok? {
          var o := out.value;
          assert o[..|acc|] == mid[..|mid|][..|acc|] == acc by {
            assert o[..|mid|] == mid;
          }
          forall j | |acc| <= j < |mid|
            ensures o[j].pairedItem == i
          {
            assert o[j] == mid[j];
          }
        }
      }
    }
  }

  /** The node's items are paired with input items only, in input order. */
  lemma {:induction false} NodeOutputsPaired(run: (nat, ItemParams) -> Report, k: nat, continueOnFail: bool,
                                             items: seq<ItemParams>)
    requires NodeRun(run, k, continueOnFail, items).outcome.Ok?
    ensures PairedInOrder(NodeRun(run, k, continueOnFail, items).outcome.value, 0, 0, |items|)
  {
    NodePairs(run, k, continueOnFail, items, 0, []);
  }

  /** Item `i` through the driver, after the calls `done` made from trace
      `t0`. */
  method ExecuteItem(driver: Driver, credentials: SslVpnCredentials, ghost run: (nat, ItemParams) -> Report,
                     continueOnFail: bool, ghost t0: seq<Op>, ghost done: seq<Op>, items: seq<ItemParams>, i: nat,
                     returnData: seq<OutputItem>)
    returns (next: Result<seq<OutputItem>>, ghost done': seq<Op>)
    requires RunsActions(run, driver.env, credentials)
    requires i < |items| && driver.trace == t0 + done
    modifies driver`trace
    ensures driver.trace == t0 + done'
    ensures next.Err? ==>
      After(done, NodeFrom(run, |t0| + |done|, continueOnFail, items, i, returnData)) == NodeExecution(done', next)
    ensures next.Ok? ==>
      After(done, NodeFrom(run, |t0| + |done|, continueOnFail, items, i, returnData))
      == After(done', NodeFrom(run, |t0| + |done'|, continueOnFail, items, i + 1, next.value))
  {
    ghost var rep := run(|t0| + |done|, items[i]);
    var result := RunAction(driver, credentials, run, items[i]);
    next := EmitItem(items[i], result, i, continueOnFail, returnData);
    NodeStep(run, |t0|, done, continueOnFail, items, i, returnData, rep.ops, result, next);
    done' := done + rep.ops;
    assert driver.trace == t0 + done' by {
      ConcatAssoc(t0, done, rep.ops);
    }
  }

  /** `SslVpn.execute`, with `run` the actions as the driver's environment
      answers them: the items in order, each through its action and shaped
      into its outputs; under continue-on-fail a failing item becomes a
      failure record, otherwise its message ends the run. */
  method Execute(driver: Driver, credentials: SslVpnCredentials, ghost run: (nat, ItemParams) -> Report,
                 continueOnFail: bool, items: seq<ItemParams>)
    returns (r: Result<seq<OutputItem>>)
    requires RunsActions(run, driver.env, credentials)
    modifies driver`trace
    ensures var e := NodeRun(run, |old(driver.trace)|, continueOnFail, items);
      driver.trace == old(driver.trace) + e.ops && r == e.outcome
  {
    ghost var t0 := driver.trace;
    ghost var done: seq<Op> := [];
    ghost var whole := NodeRun(run, |t0|, continueOnFail, items);
    var returnData: seq<OutputItem> := [];
    var i := 0;
    assert t0 + done == t0;
    while i < |items|
      invariant 0 <= i <= |items|
      invariant driver.trace == t0 + done
      invariant whole == After(done, NodeFrom(run, |t0| + |done|, continueOnFail, items, i, returnData))
    {
      var next;
      next, done := ExecuteItem(driver, credentials, run, continueOnFail, t0, done, items, i, returnData);
      if next.Err? {
        return next;
      }
      returnData := next.value;
      i := i + 1;
    }
    assert done + [] == done;
    r := Ok(returnData);
  }
}
