/** The script node's `execute`: one mode for the whole run, the items in
    order, each dispatched to its action and shaped into exactly one output
    record (or, without continue-on-fail, ending the run with an error),
    and the five action objects' pools cleaned up at the end unless
    browsers are reused. */
module ScriptNode {
  import opened Wrappers
  import opened Values
  import opened Browsers
  import opened SessionRegistry
  import opened InstancePool
  import opened SessionActions

  const ScriptFailedPrefix: string := "Script execution failed: "
  const CloseSessionRequiredError: string := "Session ID is required to close specific browser session"

  /** The parameters one item is run with. `sessionId` is the parameter as
      read for the mode ("default-session" in interact mode when unset);
      `script` is what that mode's user script does; `stamp` and `now`
      stand for the clock. */
  datatype ItemParams = ItemParams(
    browserType: string,
    options: BrowserOptions,
    sessionId: string,
    closeAllSessions: bool,
    reusePages: bool,
    script: ScriptRun,
    continueOnFail: bool,
    stamp: string,
    now: string)

  /** `typeof v === 'object'` for a non-null value. */
  predicate IsObject(v: Value) {
    v.Obj? || v.Arr?
  }

  /** The output JSON for an item whose action returned `result`. */
  function ShapeResult(result: Value, itemIndex: nat): (json: Record)
    ensures Get(json, "itemIndex") == Num(itemIndex) && "browser" !in json
    ensures result.Null? || result.Undefined? ==>
      json == map["success" := Bool(true), "result" := Null, "itemIndex" := Num(itemIndex)]
    ensures IsObject(result) ==>
      (forall k :: k in json <==> k == "itemIndex" || (k in Spread(result) && k != "browser"))
      && (forall k :: k in Spread(result) && k != "browser" && k != "itemIndex" ==> json[k] == Spread(result)[k])
    ensures !IsObject(result) && !result.Null? && !result.Undefined? ==>
      json == map["success" := Bool(true), "result" := result, "itemIndex" := Num(itemIndex)]
  {
    if result.Null? || result.Undefined? then
      map["success" := Bool(true), "result" := Null, "itemIndex" := Num(itemIndex)]
    else if IsObject(result) then
      (Spread(result) - {"browser"})["itemIndex" := Num(itemIndex)]
    else
      map["success" := Bool(true), "result" := result, "itemIndex" := Num(itemIndex)]
  }

  /** The output JSON for an item that failed under continue-on-fail. */
  function FailureRecord(message: string, itemIndex: nat, now: string): (json: Record)
    ensures Get(json, "success") == Bool(false) && Get(json, "error") == Str(message)
    ensures Get(json, "itemIndex") == Num(itemIndex) && "browser" !in json
  {
    map["success" := Bool(false), "error" := Str(message), "itemIndex" := Num(itemIndex), "timestamp" := Str(now)]
  }

  /** What the run emits for item `i` given what its action produced. */
  function Emitted(outcome: Result<Value>, i: nat, now: string): Record {
    match outcome
    case Ok(v) => ShapeResult(v, i)
    case Err(message) => FailureRecord(message, i, now)
  }

  function AsValue(r: Result<Record>): (v: Result<Value>)
    ensures v.Ok? <==> r.Ok?
    ensures r.Err? ==> v == Err(r.error)
  {
    match r
    case Ok(record) => Ok(Obj(record))
    case Err(message) => Err(message)
  }

  /** Every registered page was registered before or is new. */
  twostate predicate PagesGrown(registry: BrowserSessionManager)
    reads registry
  {
    forall p :: p in registry.pages.Values ==> p in old(registry.pages.Values) || fresh(p)
  }

  /** The five action objects one run creates, each with its own pool. */
  class ScriptActions {
    const managed: BrowserPool
    const custom: BrowserPool
    const launch: BrowserPool
    const interact: BrowserPool
    const close: BrowserPool

    constructor (engine: Engine)
      ensures fresh(managed) && fresh(custom) && fresh(launch) && fresh(interact) && fresh(close)
      ensures managed.engine == engine && custom.engine == engine && launch.engine == engine
      ensures interact.engine == engine && close.engine == engine
      ensures managed.instances == map[] && custom.instances == map[] && launch.instances == map[]
      ensures interact.instances == map[] && close.instances == map[]
      ensures Separate()
    {
      managed := new BrowserPool(engine);
      custom := new BrowserPool(engine);
      launch := new BrowserPool(engine);
      interact := new BrowserPool(engine);
      close := new BrowserPool(engine);
    }

    /** The five pools are five different objects. */
    predicate Separate() {
      managed != custom && managed != launch && managed != interact && managed != close
      && custom != launch && custom != interact && custom != close
      && launch != interact && launch != close && interact != close
    }

    /** Every pool is empty. */
    ghost predicate Empty()
      reads this, managed, custom, launch, interact, close
    {
      managed.instances == map[] && custom.instances == map[] && launch.instances == map[]
      && interact.instances == map[] && close.instances == map[]
    }

    /** The five `cleanupBrowsers` calls of the final clean-up. */
    method CleanupAll()
      requires Separate()
      modifies managed`instances, managed.instances.Values, custom`instances, custom.instances.Values
      modifies launch`instances, launch.instances.Values, interact`instances, interact.instances.Values
      modifies close`instances, close.instances.Values
      ensures Empty()
      ensures forall b :: b in old(managed.instances.Values) ==> Swept(b)
      ensures forall b :: b in old(custom.instances.Values) ==> Swept(b)
      ensures forall b :: b in old(launch.instances.Values) ==> Swept(b)
      ensures forall b :: b in old(interact.instances.Values) ==> Swept(b)
      ensures forall b :: b in old(close.instances.Values) ==> Swept(b)
    {
      CleanupFirst();
      CleanupLast();
    }

    /** The first three of those calls. */
    method CleanupFirst()
      requires Separate()
      modifies managed`instances, managed.instances.Values, custom`instances, custom.instances.Values
      modifies launch`instances, launch.instances.Values
      ensures managed.instances == map[] && custom.instances == map[] && launch.instances == map[]
      ensures forall b :: b in old(managed.instances.Values) ==> Swept(b)
      ensures forall b :: b in old(custom.instances.Values) ==> Swept(b)
      ensures forall b :: b in old(launch.instances.Values) ==> Swept(b)
    {
      managed.CleanupBrowsers();
      custom.CleanupBrowsers();
      launch.CleanupBrowsers();
    }

    /** The last two of those calls. */
    method CleanupLast()
      requires Separate()
      modifies interact`instances, interact.instances.Values, close`instances, close.instances.Values
      ensures interact.instances == map[] && close.instances == map[]
      ensures forall b :: b in old(interact.instances.Values) ==> Swept(b)
      ensures forall b :: b in old(close.instances.Values) ==> Swept(b)
    {
      interact.CleanupBrowsers();
      close.CleanupBrowsers();
    }
  }

  /** The registry as an item finds it: whether it holds a live browser,
      the stored id ("" when none), and whether that browser's close
      throws. */
  datatype Entry = Entry(live: bool, storedId: string, closeFails: bool)

  /** The registry with no browser and no id. */
  const Vacant: Entry := Entry(false, "", false)

  ghost function EntryOf(registry: BrowserSessionManager): Entry
    reads registry, registry.Held()
  {
    Entry(registry.Live(), if registry.sessionId.Some? then registry.sessionId.value else "",
          registry.browser.Some? && registry.browser.value.closeFails)
  }

  /** What an item's action found and met, as far as its outcome depends
      on it: the registry, whether the mode's pool has to launch and that
      launch throws, the launch error, whether a browser just launched into
      the registry reports connected, whether the action obtained a page,
      and whether the page's set-up calls threw. */
  datatype Turn = Turn(before: Entry, launchFails: bool, launchError: string,
                       connected: bool, pageOpened: bool, setupFails: bool)

  /** A close item's close reports success: the stored browser was live
      and its close did not throw, and for close-all a non-empty id was
      stored. */
  predicate Closed(item: ItemParams, t: Turn) {
    t.before.live && !t.before.closeFails && (item.closeAllSessions ==> t.before.storedId != "")
  }

  /** The outcome of one item in `mode`, as the node's checks and the mode's
      action produce it from what the action met. A browser launched into
      a registry without a live one reports connected. */
  predicate ActionOutcome(mode: string, item: ItemParams, t: Turn, outcome: Result<Value>) {
    if mode == "launch" then
      if t.before.live && t.before.storedId != "" then
        outcome == Ok(Obj(LaunchRecord(t.before.storedId, item.browserType, true, true, item.now)))
      else if t.launchFails then outcome == Err(LaunchFailedPrefix + t.launchError)
      else outcome == Ok(Obj(LaunchRecord(NewSessionId(item.stamp), item.browserType, t.connected, false, item.now)))
           && (t.before.live || t.connected)
    else if mode == "interact" then
      if IsBlank(item.sessionId) then outcome == Err(SessionRequiredError)
      else if !t.before.live && t.launchFails then outcome == Err(AutoLaunchError(item.sessionId, t.launchError))
      else if !t.pageOpened then outcome == Err(InteractFailedPrefix + NewPageError)
      else if t.setupFails then outcome == Err(InteractFailedPrefix + PageGoneError)
      else if item.script.outcome.Err? then outcome == Err(InteractFailedPrefix + item.script.outcome.error)
      else outcome == Ok(Obj(InteractRecord(item.sessionId, !t.before.live, item.script.outcome.value,
                                            item.script.pageUrl, item.now)))
    else if mode == "close" then
      if item.closeAllSessions then outcome == Ok(Obj(CloseAllRecord(if Closed(item, t) then 1 else 0, item.now)))
      else if item.sessionId == "" then outcome == Err(CloseSessionRequiredError)
      else outcome == Ok(Obj(CloseOneRecord(item.sessionId, Closed(item, t), item.now)))
    else if mode == "managed" then
      if t.launchFails then outcome == Err(t.launchError)
      else if !t.pageOpened then outcome == Err(NewPageError)
      else if item.script.outcome.Err? then outcome == item.script.outcome
      else outcome == Ok(Obj(Spread(item.script.outcome.value) - {"browser"}))
    else
      outcome == item.script.outcome
  }

  /** The registry as an item in `mode` leaves it. A launch installs its
      browser under a new id unless the live stored session is reused; an
      interaction installs one under its own id when no live browser is
      stored; a failed launch leaves a live browser in place and otherwise
      an empty registry; close-one always empties it, close-all only when a
      non-empty id is stored. Browsers the pools launch close cleanly. */
  function Next(mode: string, item: ItemParams, t: Turn): Entry {
    if mode == "launch" then
      if t.before.live && t.before.storedId != "" then t.before
      else if t.launchFails then (if t.before.live then t.before else Vacant)
      else Entry(t.connected, NewSessionId(item.stamp), false)
    else if mode == "interact" then
      if IsBlank(item.sessionId) || t.before.live then t.before
      else if t.launchFails then Vacant
      else Entry(true, item.sessionId, false)
    else if mode == "close" then
      if item.closeAllSessions then (if t.before.storedId != "" then Vacant else t.before)
      else if item.sessionId == "" then t.before
      else Vacant
    else
      t.before
  }

  /** The turns follow one another: the first found `start`, and each later
      one found the registry as the item before it left it. */
  predicate Chained(mode: string, items: seq<ItemParams>, turns: seq<Turn>, start: Entry)
    decreases |turns|
  {
    |turns| <= |items|
    && (|turns| > 0 ==>
          var prior := turns[..|turns| - 1];
          Chained(mode, items, prior, start) && turns[|turns| - 1].before == Reached(mode, items, prior, start))
  }

  /** The registry after the turns so far. */
  function Reached(mode: string, items: seq<ItemParams>, turns: seq<Turn>, start: Entry): Entry
    requires |turns| <= |items|
  {
    if |turns| == 0 then start else Next(mode, items[|turns| - 1], turns[|turns| - 1])
  }

  /** A launch reports the live stored session as reused, and otherwise
      the fresh id of the browser it installed. */
  lemma LaunchReportsSession(item: ItemParams, t: Turn, outcome: Result<Value>)
    requires ActionOutcome("launch", item, t, outcome)
    ensures outcome.Err? <==> !(t.before.live && t.before.storedId != "") && t.launchFails
    ensures outcome.Ok? ==>
      outcome.value.Obj? && Get(outcome.value.fields, "success") == Bool(true)
      && Get(outcome.value.fields, "reusedExisting") == Bool(t.before.live && t.before.storedId != "")
      && Get(outcome.value.fields, "sessionId")
         == Str(if t.before.live && t.before.storedId != "" then t.before.storedId else NewSessionId(item.stamp))
  {
  }

  /** An interaction succeeds only with a session id and a script that
      returned; its record carries that id and the script's value. */
  lemma InteractReportsScript(item: ItemParams, t: Turn, outcome: Result<Value>)
    requires ActionOutcome("interact", item, t, outcome)
    ensures outcome.Ok? ==>
      !IsBlank(item.sessionId) && item.script.outcome.Ok? && outcome.value.Obj?
      && Get(outcome.value.fields, "sessionId") == Str(item.sessionId)
      && Get(outcome.value.fields, "result") == item.script.outcome.value
      && Get(outcome.value.fields, "autoLaunched") == Bool(!t.before.live)
    ensures item.script.outcome.Err? ==> outcome.Err?
  {
  }

  /** A close item fails only for want of a session id. */
  lemma CloseFailsOnlyWithoutId(item: ItemParams, t: Turn, outcome: Result<Value>)
    requires ActionOutcome("close", item, t, outcome)
    ensures outcome.Err? <==> !item.closeAllSessions && item.sessionId == ""
    ensures outcome.Err? ==> outcome.error == CloseSessionRequiredError
    ensures outcome.Ok? ==> outcome.value.Obj? && Get(outcome.value.fields, "success") == Bool(true)
  {
  }

  /** A managed item's value is the script's object without its `browser`
      key; a script that throws fails the item with its own error. */
  lemma ManagedDropsBrowser(item: ItemParams, t: Turn, outcome: Result<Value>)
    requires ActionOutcome("managed", item, t, outcome)
    ensures outcome.Ok? ==>
      item.script.outcome.Ok? && outcome.value.Obj? && "browser" !in outcome.value.fields
      && forall k :: k in outcome.value.fields ==>
           k in Spread(item.script.outcome.value) && outcome.value.fields[k] == Spread(item.script.outcome.value)[k]
    ensures item.script.outcome.Err? ==> outcome.Err?
    ensures !t.launchFails && t.pageOpened ==> outcome.Ok? == item.script.outcome.Ok?
  {
  }

  /** Each item so far had the outcome its action gave from what it met. */
  predicate AllAnswered(mode: string, items: seq<ItemParams>, turns: seq<Turn>, outcomes: seq<Result<Value>>,
                        launchError: string) {
    |turns| == |outcomes| <= |items|
    && (forall i {:trigger ActionOutcome(mode, items[i], turns[i], outcomes[i])} ::
          0 <= i < |outcomes| ==>
            ActionOutcome(mode, items[i], turns[i], outcomes[i]) && turns[i].launchError == launchError)
  }

  /** One more item answered as its action gives keeps `AllAnswered`. */
  lemma AnsweredStep(mode: string, items: seq<ItemParams>, turns: seq<Turn>, outcomes: seq<Result<Value>>,
                     launchError: string, turn: Turn, outcome: Result<Value>)
    requires AllAnswered(mode, items, turns, outcomes, launchError) && |outcomes| < |items|
    requires ActionOutcome(mode, items[|outcomes|], turn, outcome) && turn.launchError == launchError
    ensures AllAnswered(mode, items, turns + [turn], outcomes + [outcome], launchError)
  {
    var turns', outcomes' := turns + [turn], outcomes + [outcome];
    assert forall i :: 0 <= i < |outcomes| ==> turns'[i] == turns[i] && outcomes'[i] == outcomes[i];
  }

  /** The registry's condition as a turn starts. */
  ghost function Found(registry: BrowserSessionManager, launchFails: bool, launchError: string): Turn
    reads registry, registry.Held()
  {
    Turn(EntryOf(registry), launchFails, launchError, false, false, false)
  }

  /** A launch-mode item: the launch action's record as the outcome. */
  method LaunchItem(registry: BrowserSessionManager, pool: BrowserPool, item: ItemParams)
    returns (outcome: Result<Value>, ghost turn: Turn)
    requires registry.Valid() && pool.ClosesCleanly()
    modifies registry, registry.Held(), pool`instances, pool.engine`launches
    ensures registry.Valid()
    ensures ActionOutcome("launch", item, turn, outcome)
    ensures turn.before == old(EntryOf(registry)) && turn.launchError == pool.engine.launchError
    ensures turn.launchFails == old(LaunchWillFail(pool, item.browserType, item.options))
    ensures EntryOf(registry) == Next("launch", item, turn)
    ensures registry.browser.Some? ==>
      registry.browser == old(registry.browser) || registry.browser.value in pool.instances.Values
    ensures registry.pages == old(registry.pages) || registry.pages == map[]
    ensures NotRevived(registry) && Grown(pool) && Kept(pool, old(pool.instances.Values))
  {
    turn := Found(registry, LaunchWillFail(pool, item.browserType, item.options), pool.engine.launchError);
    var r := BrowserLaunch(registry, pool, item.browserType, item.options, item.stamp, item.now);
    if r.Ok? && registry.browser.Some? {
      turn := turn.(connected := registry.browser.value.connected);
    }
    outcome := AsValue(r);
  }

  /** An interact-mode item: the session-id check, then the interact
      action's record as the outcome. */
  method InteractItem(registry: BrowserSessionManager, pool: BrowserPool, item: ItemParams)
    returns (outcome: Result<Value>, ghost turn: Turn)
    requires registry.Valid() && pool.ClosesCleanly()
    modifies registry, registry.Held(), registry.pages.Values, pool`instances, pool.engine`launches
    ensures registry.Valid()
    ensures ActionOutcome("interact", item, turn, outcome)
    ensures turn.before == old(EntryOf(registry)) && turn.launchError == pool.engine.launchError
    ensures turn.launchFails == old(LaunchWillFail(pool, item.browserType, item.options))
    ensures EntryOf(registry) == Next("interact", item, turn)
    ensures registry.browser.Some? ==>
      registry.browser == old(registry.browser) || registry.browser.value in pool.instances.Values
    ensures PagesGrown(registry)
    ensures NotRevived(registry) && Grown(pool) && Kept(pool, old(pool.instances.Values))
  {
    turn := Found(registry, LaunchWillFail(pool, item.browserType, item.options), pool.engine.launchError);
    if IsBlank(item.sessionId) {
      return Err(SessionRequiredError), turn;
    }
    var r, used := BrowserInteract(registry, pool, item.sessionId, item.browserType, item.options,
                                   item.reusePages, item.script, item.now);
    turn := turn.(pageOpened := used.Some?, setupFails := used.Some? && SetupThrows(used.value, item.options));
    outcome := AsValue(r);
  }

  /** A close-mode item: the session-id check unless all sessions are to be
      closed, then the close action's record as the outcome. */
  method CloseItem(registry: BrowserSessionManager, item: ItemParams, launchError: string)
    returns (outcome: Result<Value>, ghost turn: Turn)
    requires registry.Valid()
    modifies registry, registry.Held(), registry.pages.Values
    ensures registry.Valid()
    ensures ActionOutcome("close", item, turn, outcome)
    ensures turn.before == old(EntryOf(registry)) && turn.launchError == launchError
    ensures EntryOf(registry) == Next("close", item, turn)
    ensures registry.browser == None || registry.browser == old(registry.browser)
    ensures registry.pages == old(registry.pages) || registry.pages == map[]
  {
    turn := Found(registry, false, launchError);
    var sessionId := if item.closeAllSessions then None else Some(item.sessionId);
    if !item.closeAllSessions && item.sessionId == "" {
      return Err(CloseSessionRequiredError), turn;
    }
    var r := BrowserClose(registry, sessionId, item.now);
    outcome := AsValue(r);
  }

  /** One item of the three session modes: launch, interact (after its
      session-id check) and close (after its session-id check). */
  method RunSessionItem(registry: BrowserSessionManager, actions: ScriptActions, engine: Engine, mode: string,
                        item: ItemParams)
    returns (outcome: Result<Value>, ghost turn: Turn)
    requires mode in {"launch", "interact", "close"}
    requires registry.Valid()
    requires actions.launch.engine == engine && actions.interact.engine == engine
    requires actions.Separate() && actions.launch.ClosesCleanly() && actions.interact.ClosesCleanly()
    modifies registry, registry.Held(), registry.pages.Values, engine`launches
    modifies actions.launch`instances, actions.interact`instances
    ensures registry.Valid()
    ensures ActionOutcome(mode, item, turn, outcome)
    // what the action met, and how it left the registry
    ensures turn.before == old(EntryOf(registry)) && turn.launchError == engine.launchError
    ensures mode == "launch" ==> turn.launchFails == old(LaunchWillFail(actions.launch, item.browserType, item.options))
    ensures mode == "interact" ==>
      turn.launchFails == old(LaunchWillFail(actions.interact, item.browserType, item.options))
    ensures EntryOf(registry) == Next(mode, item, turn)
    // where the registry's and the pools' objects come from
    ensures registry.browser.Some? ==>
      registry.browser == old(registry.browser)
      || registry.browser.value in actions.launch.instances.Values
      || registry.browser.value in actions.interact.instances.Values
    ensures PagesGrown(registry) && NotRevived(registry)
    ensures Grown(actions.launch) && Kept(actions.launch, old(actions.launch.instances.Values))
    ensures Grown(actions.interact) && Kept(actions.interact, old(actions.interact.instances.Values))
  {
    if mode == "launch" {
      outcome, turn := LaunchItem(registry, actions.launch, item);
    } else if mode == "interact" {
      outcome, turn := InteractItem(registry, actions.interact, item);
    } else {
      outcome, turn := CloseItem(registry, item, engine.launchError);
    }
  }

  /** One managed-mode item. With `reuse`, the first browser a result
      carries becomes the shared browser. A failure is the launch error,
      the page-creation error or the script's own error. */
  method RunManagedItem(pool: BrowserPool, reuse: bool, shared: Option<BrowserRef>, item: ItemParams)
    returns (outcome: Result<Value>, nextShared: Option<BrowserRef>, ghost turn: Turn)
    requires shared.Some? ==> reuse
    modifies pool`instances, pool.engine`launches, pool.instances.Values
    ensures ActionOutcome("managed", item, turn, outcome)
    ensures turn.launchError == pool.engine.launchError
    ensures turn.launchFails == (!(reuse && shared.Some?) && old(LaunchWillFail(pool, item.browserType, item.options)))
    ensures shared.Some? ==> nextShared == shared
    ensures nextShared.Some? ==> reuse
    ensures nextShared.Some? && shared.None? ==> nextShared.value in pool.instances.Values
    ensures Grown(pool)
  {
    nextShared := shared;
    turn := Turn(Vacant, !(reuse && shared.Some?) && LaunchWillFail(pool, item.browserType, item.options),
                 pool.engine.launchError, false, false, false);
    var r, used, page := ManagedScript(pool, shared, reuse, item.browserType, item.options, item.script);
    turn := turn.(pageOpened := page.Some?);
    if r.Err? {
      return Err(r.error), nextShared, turn;
    }
    outcome := Ok(Obj(r.value.fields));
    if reuse && shared.None? && r.value.browser.Some? {
      nextShared := r.value.browser;
    }
  }

  /** One item: the mode's parameter checks, then its action; the custom
      mode is its script's outcome. */
  method RunItem(registry: BrowserSessionManager, actions: ScriptActions, engine: Engine, mode: string,
                 reuse: bool, shared: Option<BrowserRef>, item: ItemParams)
    returns (outcome: Result<Value>, nextShared: Option<BrowserRef>, ghost turn: Turn)
    requires registry.Valid()
    requires actions.launch.engine == engine && actions.interact.engine == engine
    requires actions.managed.engine == engine
    requires shared.Some? ==> reuse && mode == "managed"
    requires actions.Separate() && actions.launch.ClosesCleanly() && actions.interact.ClosesCleanly()
    requires mode == "managed" && registry.browser.Some? ==> registry.browser.value !in actions.managed.instances.Values
    modifies registry, registry.Held(), registry.pages.Values, engine`launches
    modifies actions.launch`instances, actions.interact`instances
    modifies actions.managed`instances, actions.managed.instances.Values
    ensures registry.Valid()
    ensures actions.custom.instances == old(actions.custom.instances)
    ensures actions.close.instances == old(actions.close.instances)
    ensures ActionOutcome(mode, item, turn, outcome)
    ensures turn.before == old(EntryOf(registry)) && turn.launchError == engine.launchError
    ensures EntryOf(registry) == Next(mode, item, turn)
    ensures mode !in {"launch", "interact", "close"} ==> registry.browser == old(registry.browser)
    ensures mode == "launch" ==> turn.launchFails == old(LaunchWillFail(actions.launch, item.browserType, item.options))
    ensures mode == "interact" ==>
      turn.launchFails == old(LaunchWillFail(actions.interact, item.browserType, item.options))
    ensures mode == "managed" ==>
      turn.launchFails == (shared.None? && old(LaunchWillFail(actions.managed, item.browserType, item.options)))
    ensures shared.Some? ==> nextShared == shared
    ensures nextShared.Some? ==> reuse && mode == "managed"
    // where the registry's and the pools' objects come from
    ensures registry.browser.Some? ==>
      registry.browser == old(registry.browser)
      || registry.browser.value in actions.launch.instances.Values
      || registry.browser.value in actions.interact.instances.Values
    ensures PagesGrown(registry) && NotRevived(registry)
    ensures Grown(actions.launch) && Kept(actions.launch, old(actions.launch.instances.Values))
    ensures Grown(actions.interact) && Kept(actions.interact, old(actions.interact.instances.Values))
    ensures Grown(actions.managed)
  {
    nextShared := shared;
    ghost var entry := EntryOf(registry);
    if mode in {"launch", "interact", "close"} {
      outcome, turn := RunSessionItem(registry, actions, engine, mode, item);
    } else if mode == "managed" {
      outcome, nextShared, turn := RunManagedItem(actions.managed, reuse, shared, item);
      turn := turn.(before := entry);
    } else {
      outcome := item.script.outcome;
      turn := Turn(entry, false, engine.launchError, false, false, false);
    }
  }

  /** The outputs and the failure after the items whose action outcomes
      are `outcomes`: one output per item while nothing has failed, and
      otherwise the last item's failure, which neither flag let pass. */
  predicate Tallied(items: seq<ItemParams>, nodeContinueOnFail: bool, outcomes: seq<Result<Value>>,
                    returnData: seq<OutputItem>, failure: Option<string>) {
    |outcomes| <= |items|
    && (failure.None? ==>
          |returnData| == |outcomes|
          && (forall i {:trigger returnData[i]} :: 0 <= i < |outcomes| ==>
                returnData[i] == OutputItem(Emitted(outcomes[i], i, items[i].now), i))
          && (forall i :: 0 <= i < |outcomes| && outcomes[i].Err? ==> nodeContinueOnFail || items[i].continueOnFail))
    && (failure.Some? ==>
          var last := |outcomes| - 1;
          0 <= last && outcomes[last].Err? && !nodeContinueOnFail && !items[last].continueOnFail
          && failure.value == ScriptFailedPrefix + outcomes[last].error
          && forall i :: 0 <= i < last && outcomes[i].Err? ==> items[i].continueOnFail)
  }

  /** One more item's outcome: its output, or under neither
      continue-on-fail flag the failure that ends the loop. */
  method Tally(items: seq<ItemParams>, nodeContinueOnFail: bool, ghost outcomes: seq<Result<Value>>,
               returnData: seq<OutputItem>, outcome: Result<Value>)
    returns (returnData': seq<OutputItem>, failure: Option<string>)
    requires |outcomes| < |items| && Tallied(items, nodeContinueOnFail, outcomes, returnData, None)
    ensures Tallied(items, nodeContinueOnFail, outcomes + [outcome], returnData', failure)
  {
    var itemIndex := |returnData|;
    var item := items[itemIndex];
    ghost var next := outcomes + [outcome];
    assert forall j :: 0 <= j < itemIndex ==> next[j] == outcomes[j];
    returnData', failure := returnData, None;
    if outcome.Ok? {
      returnData' := returnData + [OutputItem(ShapeResult(outcome.value, itemIndex), itemIndex)];
    } else if nodeContinueOnFail || item.continueOnFail {
      returnData' := returnData + [OutputItem(FailureRecord(outcome.error, itemIndex, item.now), itemIndex)];
    } else {
      failure := Some(ScriptFailedPrefix + outcome.error);
    }
  }

  /** The next item run, keeping `Threaded`. */
  method StepItem(registry: BrowserSessionManager, actions: ScriptActions, engine: Engine, mode: string,
                  reuse: bool, items: seq<ItemParams>, k: nat, ghost turns: seq<Turn>, shared: Option<BrowserRef>,
                  ghost start: Entry, ghost first: Option<BrowserRef>)
    returns (outcome: Result<Value>, nextShared: Option<BrowserRef>, ghost turn: Turn)
    requires registry.Valid() && k == |turns| < |items|
    requires actions.launch.engine == engine && actions.interact.engine == engine
    requires actions.managed.engine == engine && actions.Separate()
    requires shared.Some? ==> reuse && mode == "managed"
    requires Threaded(registry, actions, mode, items, turns, start, first)
    modifies registry, registry.Held(), registry.pages.Values, engine`launches
    modifies actions.launch`instances, actions.interact`instances
    modifies actions.managed`instances, actions.managed.instances.Values
    ensures registry.Valid()
    ensures actions.custom.instances == old(actions.custom.instances)
    ensures actions.close.instances == old(actions.close.instances)
    ensures nextShared.Some? ==> reuse && mode == "managed"
    ensures ActionOutcome(mode, items[|turns|], turn, outcome) && turn.launchError == engine.launchError
    ensures Threaded(registry, actions, mode, items, turns + [turn], start, first)
    ensures registry.browser.Some? ==>
      registry.browser == old(registry.browser)
      || registry.browser.value in actions.launch.instances.Values
      || registry.browser.value in actions.interact.instances.Values
    ensures PagesGrown(registry)
    ensures Grown(actions.launch) && Grown(actions.interact) && Grown(actions.managed)
  {
    outcome, nextShared, turn := RunItem(registry, actions, engine, mode, reuse, shared, items[k]);
    ChainStep(mode, items, turns, start, turn);
  }

  /** The items answered so far: each outcome is its action's answer to
      its turn, and the outputs are tallied from the outcomes. */
  ghost predicate Logged(mode: string, items: seq<ItemParams>, nodeContinueOnFail: bool, launchError: string,
                         outcomes: seq<Result<Value>>, turns: seq<Turn>, returnData: seq<OutputItem>,
                         failure: Option<string>)
  {
    AllAnswered(mode, items, turns, outcomes, launchError)
    && Tallied(items, nodeContinueOnFail, outcomes, returnData, failure)
  }

  /** What the item loop keeps: the answers and outputs so far, and the
      registry and pools as `Threaded` describes them. */
  ghost predicate Progress(registry: BrowserSessionManager, actions: ScriptActions, mode: string,
                           items: seq<ItemParams>, nodeContinueOnFail: bool, launchError: string,
                           outcomes: seq<Result<Value>>, turns: seq<Turn>, returnData: seq<OutputItem>,
                           failure: Option<string>, start: Entry, first: Option<BrowserRef>)
    reads registry, registry.Held(), actions.launch, actions.interact, actions.managed
  {
    Logged(mode, items, nodeContinueOnFail, launchError, outcomes, turns, returnData, failure)
    && Threaded(registry, actions, mode, items, turns, start, first)
  }

  /** Since the loop began: the registry is valid, the custom and close
      pools are as they were, the registry's browser is the one it began
      with, one the launch or interact pool held then, or a new one, and
      every page and pooled browser is an old one or a new one. */
  twostate predicate Framed(registry: BrowserSessionManager, actions: ScriptActions, first: Option<BrowserRef>,
                            launch0: set<BrowserRef>, interact0: set<BrowserRef>,
                            custom0: map<string, BrowserRef>, close0: map<string, BrowserRef>)
    reads registry, actions, actions.launch, actions.interact, actions.managed, actions.custom, actions.close
  {
    registry.Valid()
    && actions.custom.instances == custom0 && actions.close.instances == close0
    && (registry.browser.Some? ==>
          registry.browser == first || registry.browser.value in launch0 || registry.browser.value in interact0
          || fresh(registry.browser.value))
    && PagesGrown(registry) && Grown(actions.launch) && Grown(actions.interact) && Grown(actions.managed)
  }

  /** The next item run and tallied. */
  method NextItem(registry: BrowserSessionManager, actions: ScriptActions, engine: Engine, mode: string,
                  reuse: bool, nodeContinueOnFail: bool, items: seq<ItemParams>, ghost outcomes: seq<Result<Value>>,
                  ghost turns: seq<Turn>, returnData: seq<OutputItem>, shared: Option<BrowserRef>,
                  ghost start: Entry, ghost first: Option<BrowserRef>)
    returns (outcome: Result<Value>, nextShared: Option<BrowserRef>, returnData': seq<OutputItem>,
             failure: Option<string>, ghost turn: Turn)
    requires registry.Valid()
    requires actions.launch.engine == engine && actions.interact.engine == engine
    requires actions.managed.engine == engine && actions.Separate()
    requires shared.Some? ==> reuse && mode == "managed"
    requires |outcomes| < |items|
    requires Progress(registry, actions, mode, items, nodeContinueOnFail, engine.launchError, outcomes, turns, returnData, None, start, first)
    modifies registry, registry.Held(), registry.pages.Values, engine`launches
    modifies actions.launch`instances, actions.interact`instances
    modifies actions.managed`instances, actions.managed.instances.Values
    ensures registry.Valid()
    ensures actions.custom.instances == old(actions.custom.instances)
    ensures actions.close.instances == old(actions.close.instances)
    ensures nextShared.Some? ==> reuse && mode == "managed"
    ensures registry.browser.Some? ==>
      registry.browser == old(registry.browser)
      || registry.browser.value in actions.launch.instances.Values
      || registry.browser.value in actions.interact.instances.Values
    ensures PagesGrown(registry)
    ensures Grown(actions.launch) && Grown(actions.interact) && Grown(actions.managed)
    ensures Progress(registry, actions, mode, items, nodeContinueOnFail, engine.launchError, outcomes + [outcome], turns + [turn], returnData', failure, start, first)
  {
    outcome, nextShared, turn := StepItem(registry, actions, engine, mode, reuse, items, |returnData|, turns, shared, start, first);
    returnData', failure := Tally(items, nodeContinueOnFail, outcomes, returnData, outcome);
    AnsweredStep(mode, items, turns, outcomes, engine.launchError, turn, outcome);
  }

  /** A connected registry browser other than `start`'s is one the launch
      or the interact pool still holds, so the final clean-up reaches it. */
  ghost predicate Anchored(registry: BrowserSessionManager, start: Option<BrowserRef>, actions: ScriptActions)
    reads registry, registry.Held(), actions.launch, actions.interact
  {
    registry.browser.Some? && registry.browser != start && registry.browser.value.connected ==>
      registry.browser.value in actions.launch.instances.Values
      || registry.browser.value in actions.interact.instances.Values
  }

  /** What the item loop keeps about the registry and the pools: the turns
      chain from `start` to the registry as it is, the launch and interact
      pools close cleanly, outside the session modes the registry keeps its
      browser (`first`), which the managed pool does not hold, and
      `Anchored`. */
  ghost predicate Threaded(registry: BrowserSessionManager, actions: ScriptActions, mode: string,
                           items: seq<ItemParams>, turns: seq<Turn>, start: Entry, first: Option<BrowserRef>)
    reads registry, registry.Held(), actions.launch, actions.interact, actions.managed
  {
    Chained(mode, items, turns, start) && EntryOf(registry) == Reached(mode, items, turns, start)
    && actions.launch.ClosesCleanly() && actions.interact.ClosesCleanly()
    && (mode !in {"launch", "interact", "close"} ==> registry.browser == first)
    && (mode == "managed" && registry.browser.Some? ==> registry.browser.value !in actions.managed.instances.Values)
    && Anchored(registry, first, actions)
  }

  /** One more turn, found where the last left the registry, extends the
      chain, which then ends where that turn leaves it. */
  lemma {:induction false} ChainStep(mode: string, items: seq<ItemParams>, turns: seq<Turn>, start: Entry, turn: Turn)
    requires Chained(mode, items, turns, start) && |turns| < |items|
    requires turn.before == Reached(mode, items, turns, start)
    ensures Chained(mode, items, turns + [turn], start)
    ensures Reached(mode, items, turns + [turn], start) == Next(mode, items[|turns|], turn)
  {
    assert (turns + [turn])[..|turns|] == turns;
  }

  /** `Chained` read link by link: the first turn found `start`, and each
      later one found the registry as the item before it left it. */
  lemma {:induction false} ChainLinks(mode: string, items: seq<ItemParams>, turns: seq<Turn>, start: Entry)
    requires |turns| <= |items|
    ensures Chained(mode, items, turns, start) <==>
      (|turns| > 0 ==> turns[0].before == start)
      && forall i :: 0 < i < |turns| ==> turns[i].before == Next(mode, items[i - 1], turns[i - 1])
    decreases |turns|
  {
    if |turns| > 0 {
      var prior := turns[..|turns| - 1];
      ChainLinks(mode, items, prior, start);
      assert forall k :: 0 <= k < |prior| ==> prior[k] == turns[k];
    }
  }

  /** Once a launch has installed a new browser on a registry without a
      live one, every later launch of the run finds that browser and
      reuses it, reporting the first launch's id. */
  lemma {:induction false} LaterLaunchesReuse(items: seq<ItemParams>, turns: seq<Turn>, outcomes: seq<Result<Value>>,
                                              start: Entry, launchError: string, i: nat, j: nat)
    requires Chained("launch", items, turns, start) && AllAnswered("launch", items, turns, outcomes, launchError)
    requires i < j < |turns| && outcomes[i].Ok? && !turns[i].before.live
    ensures turns[j].before == Entry(true, NewSessionId(items[i].stamp), false)
    ensures outcomes[j]
            == Ok(Obj(LaunchRecord(NewSessionId(items[i].stamp), items[j].browserType, true, true, items[j].now)))
    decreases j
  {
    ChainLinks("launch", items, turns, start);
    assert ActionOutcome("launch", items[j], turns[j], outcomes[j]);
    if j == i + 1 {
      assert ActionOutcome("launch", items[i], turns[i], outcomes[i]);
    } else {
      LaterLaunchesReuse(items, turns, outcomes, start, launchError, i, j - 1);
    }
  }

  /** Once an interact has launched a browser for its session, every later
      interact of the run finds it live: none launches again, and each
      that succeeds reports `autoLaunched` false. */
  lemma {:induction false} LaterInteractsFindSession(items: seq<ItemParams>, turns: seq<Turn>,
                                                     outcomes: seq<Result<Value>>, start: Entry,
                                                     launchError: string, i: nat, j: nat)
    requires Chained("interact", items, turns, start) && AllAnswered("interact", items, turns, outcomes, launchError)
    requires i < j < |turns| && outcomes[i].Ok? && !turns[i].before.live
    ensures turns[j].before == Entry(true, items[i].sessionId, false)
    ensures outcomes[j].Ok? ==>
      items[j].script.outcome.Ok?
      && outcomes[j].value == Obj(InteractRecord(items[j].sessionId, false, items[j].script.outcome.value,
                                                 items[j].script.pageUrl, items[j].now))
    decreases j
  {
    ChainLinks("interact", items, turns, start);
    assert ActionOutcome("interact", items[j], turns[j], outcomes[j]);
    if j == i + 1 {
      assert ActionOutcome("interact", items[i], turns[i], outcomes[i]);
    } else {
      LaterInteractsFindSession(items, turns, outcomes, start, launchError, i, j - 1);
    }
  }

  /** Once a close naming a session has run, the registry stays empty for
      the rest of the run: every later close reports that it closed
      nothing. */
  lemma {:induction false} LaterClosesFindNothing(items: seq<ItemParams>, turns: seq<Turn>,
                                                  outcomes: seq<Result<Value>>, start: Entry,
                                                  launchError: string, i: nat, j: nat)
    requires Chained("close", items, turns, start) && AllAnswered("close", items, turns, outcomes, launchError)
    requires i < j < |turns| && !items[i].closeAllSessions && items[i].sessionId != ""
    ensures turns[j].before == Vacant
    ensures outcomes[j].Ok? ==>
      outcomes[j].value == Obj(if items[j].closeAllSessions then CloseAllRecord(0, items[j].now)
                               else CloseOneRecord(items[j].sessionId, false, items[j].now))
    decreases j
  {
    ChainLinks("close", items, turns, start);
    assert ActionOutcome("close", items[j], turns[j], outcomes[j]);
    if j > i + 1 {
      LaterClosesFindNothing(items, turns, outcomes, start, launchError, i, j - 1);
    }
  }

  /** The loop itself: the items in order until one fails with neither
      continue-on-fail flag set, each run by `NextItem`. */
  method RunLoop(registry: BrowserSessionManager, actions: ScriptActions, engine: Engine, mode: string,
                 reuse: bool, nodeContinueOnFail: bool, items: seq<ItemParams>)
    returns (returnData: seq<OutputItem>, failure: Option<string>, shared: Option<BrowserRef>,
             ghost outcomes: seq<Result<Value>>, ghost turns: seq<Turn>)
    requires registry.Valid()
    requires actions.launch.engine == engine && actions.interact.engine == engine
    requires actions.managed.engine == engine && actions.Separate()
    requires actions.launch.ClosesCleanly() && actions.interact.ClosesCleanly()
    requires mode == "managed" && registry.browser.Some? ==> registry.browser.value !in actions.managed.instances.Values
    modifies registry, registry.Held(), registry.pages.Values, engine`launches
    modifies actions.launch`instances, actions.interact`instances
    modifies actions.managed`instances, actions.managed.instances.Values
    modifies actions.launch.instances.Values, actions.interact.instances.Values
    ensures registry.Valid()
    ensures actions.custom.instances == old(actions.custom.instances)
    ensures actions.close.instances == old(actions.close.instances)
    ensures Grown(actions.launch)
    ensures Grown(actions.interact)
    ensures Grown(actions.managed)
    ensures shared.Some? ==> reuse && mode == "managed"
    ensures Progress(registry, actions, mode, items, nodeContinueOnFail, engine.launchError, outcomes, turns, returnData,
                     failure, old(EntryOf(registry)), old(registry.browser))
    ensures failure.None? ==> |outcomes| == |items|
  {
    shared := None;
    outcomes, turns := [], [];
    ghost var start, first := EntryOf(registry), registry.browser;
    ghost var launch0, interact0 := actions.launch.instances.Values, actions.interact.instances.Values;
    ghost var custom0, close0 := actions.custom.instances, actions.close.instances;
    returnData, failure := [], None;
    var itemIndex := 0;
    while itemIndex < |items| && failure.None?
      invariant 0 <= itemIndex <= |items|
      invariant |outcomes| == itemIndex
      invariant Framed(registry, actions, first, launch0, interact0, custom0, close0)
      invariant shared.Some? ==> reuse && mode == "managed"
      invariant Progress(registry, actions, mode, items, nodeContinueOnFail, engine.launchError, outcomes, turns, returnData, failure, start, first)
      decreases |items| - itemIndex
    {
      var outcome;
      ghost var turn;
      outcome, shared, returnData, failure, turn :=
        NextItem(registry, actions, engine, mode, reuse, nodeContinueOnFail, items, outcomes, turns, returnData, shared,
                 start, first);
      outcomes, turns := outcomes + [outcome], turns + [turn];
      itemIndex := itemIndex + 1;
    }
  }

  /** The item loop. Each item yields exactly one output tagged with its
      index, the shaped result or, under continue-on-fail, a failure
      record; without continue-on-fail the first failure ends the loop
      with the script-failure prefix. `outcomes` are the items' action
      outcomes, in order, and `turns` what each action met: the first
      found the registry as it was, each later one as the item before it
      left it. */
  method RunItems(registry: BrowserSessionManager, actions: ScriptActions, engine: Engine, mode: string,
                  reuse: bool, nodeContinueOnFail: bool, items: seq<ItemParams>)
    returns (r: Result<seq<OutputItem>>, shared: Option<BrowserRef>, ghost outcomes: seq<Result<Value>>,
             ghost turns: seq<Turn>)
    requires registry.Valid()
    requires actions.launch.engine == engine && actions.interact.engine == engine
    requires actions.managed.engine == engine && actions.Separate()
    requires actions.launch.ClosesCleanly() && actions.interact.ClosesCleanly()
    requires mode == "managed" && registry.browser.Some? ==> registry.browser.value !in actions.managed.instances.Values
    modifies registry, registry.Held(), registry.pages.Values, engine`launches
    modifies actions.launch`instances, actions.interact`instances
    modifies actions.managed`instances, actions.managed.instances.Values
    modifies actions.launch.instances.Values, actions.interact.instances.Values
    ensures registry.Valid()
    ensures actions.custom.instances == old(actions.custom.instances)
    ensures actions.close.instances == old(actions.close.instances)
    ensures Grown(actions.launch) && actions.launch.ClosesCleanly()
    ensures Grown(actions.interact) && actions.interact.ClosesCleanly()
    ensures Grown(actions.managed)
    ensures shared.Some? ==> reuse && mode == "managed"
    ensures AllAnswered(mode, items, turns, outcomes, engine.launchError)
    ensures Chained(mode, items, turns, old(EntryOf(registry)))
    ensures EntryOf(registry) == Reached(mode, items, turns, old(EntryOf(registry)))
    ensures Anchored(registry, old(registry.browser), actions)
    ensures r.Ok? ==>
      |outcomes| == |items| && |r.value| == |items|
      && (forall i :: 0 <= i < |items| ==>
            r.value[i] == OutputItem(Emitted(outcomes[i], i, items[i].now), i))
      && (forall i :: 0 <= i < |items| && outcomes[i].Err? ==> nodeContinueOnFail || items[i].continueOnFail)
    ensures r.Err? ==>
      var last := |outcomes| - 1;
      0 <= last < |items| && outcomes[last].Err? && !nodeContinueOnFail && !items[last].continueOnFail
      && r.error == ScriptFailedPrefix + outcomes[last].error
      && (forall i :: 0 <= i < last && outcomes[i].Err? ==> items[i].continueOnFail)
  {
    var returnData, failure;
    returnData, failure, shared, outcomes, turns :=
      RunLoop(registry, actions, engine, mode, reuse, nodeContinueOnFail, items);
    TalliedAll(items, nodeContinueOnFail, outcomes, returnData, failure);
    if failure.Some? {
      r := Err(failure.value);
    } else {
      r := Ok(returnData);
    }
  }

  /** A loop that stopped with every item tallied, or on a failure. */
  lemma TalliedAll(items: seq<ItemParams>, nodeContinueOnFail: bool, outcomes: seq<Result<Value>>,
                   returnData: seq<OutputItem>, failure: Option<string>)
    requires Tallied(items, nodeContinueOnFail, outcomes, returnData, failure)
    requires failure.None? ==> |outcomes| == |items|
    ensures failure.None? ==>
      |returnData| == |items|
      && (forall i :: 0 <= i < |items| ==>
            returnData[i] == OutputItem(Emitted(outcomes[i], i, items[i].now), i))
      && (forall i :: 0 <= i < |items| && outcomes[i].Err? ==> nodeContinueOnFail || items[i].continueOnFail)
    ensures failure.Some? ==>
      var last := |outcomes| - 1;
      0 <= last < |items| && outcomes[last].Err? && !nodeContinueOnFail && !items[last].continueOnFail
      && failure.value == ScriptFailedPrefix + outcomes[last].error
      && (forall i :: 0 <= i < last && outcomes[i].Err? ==> items[i].continueOnFail)
  {
  }

  /** The node's `execute`: five fresh action objects, the item loop, and
      in the `finally` the five pools cleaned up unless browsers are
      reused, so without `reuse` every pool is empty at the end whether the
      loop failed or not. A shared browser is only ever captured in managed
      mode with `reuse`, so the `finally`'s own close of a shared browser
      without `reuse` never runs and is not part of the model. */
  method Execute(registry: BrowserSessionManager, engine: Engine, mode: string, reuse: bool,
                 nodeContinueOnFail: bool, items: seq<ItemParams>)
    returns (r: Result<seq<OutputItem>>, actions: ScriptActions, shared: Option<BrowserRef>,
             ghost outcomes: seq<Result<Value>>, ghost turns: seq<Turn>)
    requires registry.Valid()
    modifies registry, registry.Held(), registry.pages.Values, engine`launches
    ensures registry.Valid() && fresh(actions)
    ensures !reuse ==> actions.Empty()
    ensures shared.Some? ==> reuse && mode == "managed"
    ensures AllAnswered(mode, items, turns, outcomes, engine.launchError)
    ensures Chained(mode, items, turns, old(EntryOf(registry)))
    ensures reuse ==> EntryOf(registry) == Reached(mode, items, turns, old(EntryOf(registry)))
    ensures !reuse && registry.browser.Some? && registry.browser != old(registry.browser) ==>
      !registry.browser.value.connected
    ensures r.Ok? ==>
      |outcomes| == |items| && |r.value| == |items|
      && (forall i :: 0 <= i < |items| ==>
            r.value[i] == OutputItem(Emitted(outcomes[i], i, items[i].now), i))
      && (forall i :: 0 <= i < |items| && outcomes[i].Err? ==> nodeContinueOnFail || items[i].continueOnFail)
    ensures r.Err? ==>
      var last := |outcomes| - 1;
      0 <= last < |items| && outcomes[last].Err? && !nodeContinueOnFail && !items[last].continueOnFail
      && r.error == ScriptFailedPrefix + outcomes[last].error
      && (forall i :: 0 <= i < last && outcomes[i].Err? ==> items[i].continueOnFail)
  {
    actions := new ScriptActions(engine);
    r, shared, outcomes, turns := RunItems(registry, actions, engine, mode, reuse, nodeContinueOnFail, items);
    // finally
    if !reuse {
      actions.CleanupAll();
    }
  }
}
