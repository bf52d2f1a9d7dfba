# Playwright sessions and SSL VPN extraction, modelled in Dafny

This project models the stateful core of an n8n community package with two nodes.

- **PlaywrightScript** runs user scripts against browsers. It keeps a
  process-wide registry holding at most one browser session and a cache of
  pages by name. Each action object also keeps a pool of launched browsers,
  keyed by browser type and serialised options. Four session-mode actions
  (launch, interact, close, managed script) combine the two. The node's
  `execute` dispatches every input item to one of them, shapes the result,
  applies continue-on-fail, and cleans the pools up at the end.
- **SslVpn** attaches to a browser that is already running with a remote
  debugging port. It signs in to a cloud console, with the SMS code either
  typed by the flow or waited for while a person types it. It dismisses the
  console's popup, opens the SSL VPN page, waits for the data to load and
  reads the VPC table into records. The node's `execute` runs one of four
  actions (authenticate, console, extract, full) per item. It emits either
  one output item per result or one per VPC row.

The Playwright driver is not modelled as code. On the PlaywrightScript side,
browsers, pages and the launcher are small classes whose flags (connected,
closed, "this close throws") stand for what the driver would do. On the
SslVpn side, the page is a `Driver` that records every call it is asked to
make in a trace. An `Env` value answers each call by its position in that
trace: it says whether the call fails, which elements `page.$` finds, the
page states a `waitForFunction` polls, and the documents an `evaluate` sees.
Each action is a method that changes the driver's trace. It is proved equal
to a function that gives the calls made and the outcome. The properties are
lemmas about those functions.

Modules, one per file:

| file | module | models |
|---|---|---|
| wrappers.dfy | Wrappers | Option and Result |
| values.dfy | Values | JavaScript values, records, output items, number rendering |
| browsers.dfy | Browsers | the launched browsers and pages the session actions use |
| session_registry.dfy | SessionRegistry | BrowserSessionManager.ts |
| instance_pool.dfy | InstancePool | BaseAction.ts |
| session_actions.dfy | SessionActions | BrowserLaunchAction.ts, BrowserInteractAction.ts, BrowserCloseAction.ts, ManagedScriptAction.ts |
| script_node.dfy | ScriptNode | PlaywrightScript.node.ts (execute) |
| remote.dfy | Remote | the attached page's calls, answers and polling waits |
| browser_manager.dfy | BrowserManagement | lib/BrowserManager.ts |
| authentication.dfy | Authentication | lib/AuthenticationHandler.ts |
| navigation.dfy | Navigation | lib/ConsoleNavigator.ts |
| table_extraction.dfy | TableExtraction | the page-side table readers of lib/DataExtractor.ts |
| data_extractor.dfy | DataExtraction | lib/DataExtractor.ts |
| ssl_vpn_actions.dfy | SslVpnActions | SslVpn/actions/*.ts |
| ssl_vpn_node.dfy | SslVpnNode | SslVpn.node.ts (execute) |

## Model

| member | source | states |
|---|---|---|
| SessionRegistry.BrowserSessionManager.constructor | nodes/PlaywrightScript/actions/BrowserSessionManager.ts:5-9 | a new registry holds no browser, no session id and no pages |
| SessionRegistry.BrowserSessionManager.SetSingleBrowser | nodes/PlaywrightScript/actions/BrowserSessionManager.ts:19-33 | afterwards the registry holds exactly the given browser and id with an empty page cache; a previous browser that was connected gets one close attempt whose failure is ignored, a disconnected one gets none |
| SessionRegistry.BrowserSessionManager.GetSingleBrowser | nodes/PlaywrightScript/actions/BrowserSessionManager.ts:35-48 | returns the stored browser exactly when it is stored and connected, leaving the state alone; a stored disconnected browser is dropped with its id and page cache |
| SessionRegistry.BrowserSessionManager.GetSingleSessionId | nodes/PlaywrightScript/actions/BrowserSessionManager.ts:50-52 | returns the id exactly when the browser read returns a browser, with the same healing |
| SessionRegistry.BrowserSessionManager.SetBrowserSession | nodes/PlaywrightScript/actions/BrowserSessionManager.ts:55-57 | the same new state as installing the single browser |
| SessionRegistry.BrowserSessionManager.GetBrowserSession | nodes/PlaywrightScript/actions/BrowserSessionManager.ts:59-62 | returns the live browser whatever id is asked for |
| SessionRegistry.ClosePages | nodes/PlaywrightScript/actions/BrowserSessionManager.ts:69-77 | every cached page that was open gets a close attempt and is closed unless that close throws; pages already closed are not touched |
| SessionRegistry.BrowserSessionManager.CloseBrowserSession | nodes/PlaywrightScript/actions/BrowserSessionManager.ts:64-96 | whatever the id: true exactly when a live browser was stored and its close did not throw; with a live browser every open page and then the browser get a close attempt; the registry always ends without browser or id, and with an empty cache whenever a browser was stored |
| SessionRegistry.BrowserSessionManager.SetPageSession | nodes/PlaywrightScript/actions/BrowserSessionManager.ts:99-101 | the cache maps the page id to the page, other ids unchanged, whatever the session id |
| SessionRegistry.BrowserSessionManager.GetPageSession | nodes/PlaywrightScript/actions/BrowserSessionManager.ts:103-106 | returns the cached page exactly when one is cached under the id and it is not closed |
| SessionRegistry.BrowserSessionManager.ClosePageSession | nodes/PlaywrightScript/actions/BrowserSessionManager.ts:108-122 | true exactly when the id was cached; that entry is removed even if its close threw; an open page gets one close attempt |
| SessionRegistry.BrowserSessionManager.GetActiveSessions | nodes/PlaywrightScript/actions/BrowserSessionManager.ts:125-128 | at most one id; one exactly when the browser is live, and then it is the stored id |
| SessionRegistry.BrowserSessionManager.IsSessionActive | nodes/PlaywrightScript/actions/BrowserSessionManager.ts:130-133 | true exactly when a live browser is stored, whatever the id |
| SessionRegistry.BrowserSessionManager.CloseAllSessions | nodes/PlaywrightScript/actions/BrowserSessionManager.ts:135-140 | returns 1 exactly when a non-empty session id was stored and the session close succeeded, otherwise 0; with such an id stored, the browser, the id and every cached page are dropped, and when the browser was live it gets one close attempt, each open cached page gets a close attempt and ends closed unless that close throws; without one nothing changes and no close is attempted |
| SessionRegistry.BrowserSessionManager.CleanupDisconnectedSessions | nodes/PlaywrightScript/actions/BrowserSessionManager.ts:143-150 | a stored disconnected browser is dropped with its id and pages; otherwise nothing changes |
| SessionRegistry.CloseTwice | nodes/PlaywrightScript/actions/BrowserSessionManager.ts:64-96 | a second close right after the first returns false and leaves the registry empty |
| SessionRegistry.ReplaceThenCloseStale | nodes/PlaywrightScript/actions/BrowserSessionManager.ts:64-96 | installing s2 after s1 and then closing "s1" closes s2 and returns true, because the id is ignored; a following close-all finds nothing |
| InstancePool.CacheKey | nodes/PlaywrightScript/actions/BaseAction.ts:20 | the key is the browser type, a dash, and the serialised options |
| InstancePool.CacheKeyInjective | nodes/PlaywrightScript/actions/BaseAction.ts:20 | for browser types without a dash, equal keys mean equal types and equal serialised options |
| InstancePool.LaunchConfigFor | nodes/PlaywrightScript/actions/BaseAction.ts:31-38 | chromium's fixed path and sandbox arguments whatever the type; headless unless the option is exactly false; HTTPS errors ignored only when the option is true |
| InstancePool.RequireModule | nodes/PlaywrightScript/actions/BaseAction.ts:71-90 | a module loads exactly when it is one of fs, path, crypto, util, os, url and loading works; any other name gets the "not allowed for security reasons" error, a failed load the "Failed to load module" error |
| InstancePool.BrowserPool.constructor | nodes/PlaywrightScript/actions/BaseAction.ts:13 | a new pool is empty |
| InstancePool.BrowserPool.GetBrowserInstance | nodes/PlaywrightScript/actions/BaseAction.ts:15-43 | a connected browser cached under the key is returned and nothing is launched; otherwise exactly one chromium launch with the derived options, whose browser is then stored under the key with other keys untouched; a launch failure propagates and leaves the key empty; every browser the pool then holds was held before or is the new one, and every connected browser it held is still held (only a disconnected one is evicted) |
| InstancePool.BrowserPool.CleanupBrowsers | nodes/PlaywrightScript/actions/BaseAction.ts:45-56 | the pool always ends empty; each cached browser that was connected gets close attempts whose failures are ignored and ends disconnected unless its close throws, a disconnected one gets none |
| InstancePool.AcquireTwice | nodes/PlaywrightScript/actions/BaseAction.ts:20-26 | two requests with the same type and options launch once and return the same browser |
| SessionActions.NewSessionId | nodes/PlaywrightScript/actions/BrowserLaunchAction.ts:34 | a new session id is `single-browser-` followed by the clock-and-random stamp |
| SessionActions.BrowserLaunch | nodes/PlaywrightScript/actions/BrowserLaunchAction.ts:9-58 | a live registry browser with an id is reported with `reusedExisting: true`, stays live and the pool is not called; otherwise a pool browser is installed under the new id, which the record reports with `reusedExisting: false`, and it is connected when no live browser was stored; both records have `success: true`; a pool failure gives one error prefixed `Failed to launch browser: ` and installs nothing, keeping a live session and clearing a dead one; the stored browser never turns live again by itself, and only disconnected browsers leave the pool |
| SessionActions.SessionBrowser | nodes/PlaywrightScript/actions/BrowserInteractAction.ts:21-43 | a live registry browser is used as it is (`autoLaunched` false, nothing launched, still live); otherwise a pool browser is installed under the given id (`autoLaunched` true, live, with an empty page cache); a pool failure clears the registry and gives the auto-launch error naming the id and the cause; only disconnected browsers leave the pool |
| SessionActions.InteractPage | nodes/PlaywrightScript/actions/BrowserInteractAction.ts:50-63 | with page reuse, an open page cached as `page` is returned and the cache is unchanged; otherwise a new page, cached as `page` only with page reuse; a failing `newPage` carries the interaction prefix |
| SessionActions.ConfigureInteractPage | nodes/PlaywrightScript/actions/BrowserInteractAction.ts:65-91 | the viewport is set when either side is non-zero, the missing side defaulting to 1280 or 720; the user agent goes in through a context init script; each timeout is set only when non-zero; it fails exactly when a viewport or init-script call it makes throws, which stops the set-up and leaves the page as it was |
| SessionActions.BrowserInteract | nodes/PlaywrightScript/actions/BrowserInteractAction.ts:11-142 | an empty id is refused before the registry is read; the browser as in SessionBrowser, the page as in InteractPage, set up as in ConfigureInteractPage (every given option applied when no set-up call throws, nothing else set on a new page); a set-up call that throws fails the interaction with that error; with a page set up, the outcome is the script's: success returns the id, `autoLaunched` and the script's value, and a script error fails it; any failure after the browser is in hand is prefixed `Browser interaction failed: `; the registry's browser is the one it held or one the pool holds, and only disconnected browsers leave the pool |
| SessionActions.InteractOnPage | nodes/PlaywrightScript/actions/BrowserInteractAction.ts:48-142 | the page as in InteractPage, set up as in ConfigureInteractPage, then the script: a `newPage` failure, a throwing set-up call or a script error give the prefixed error, and otherwise the record with the id, `autoLaunched` and the script's value; every cached page was cached before or is new |
| SessionActions.BrowserClose | nodes/PlaywrightScript/actions/BrowserCloseAction.ts:8-43 | with a non-empty id the one session is closed and the message says "closed successfully" or "already closed or not found" after whether that close reported success; without one all sessions are closed and the message gives the count, and an empty stored id leaves the registry as it was; `success` is true on every path |
| SessionActions.ManagedBrowser | nodes/PlaywrightScript/actions/ManagedScriptAction.ts:16-25 | the shared browser when reusing and one is given, with no pool call; otherwise the pool's browser for the type and options |
| SessionActions.ManagedPageRun | nodes/PlaywrightScript/actions/ManagedScriptAction.ts:27-89 | a new page, set up with the viewport only when both sides are given, the user agent as an extra header and each non-zero timeout; it is closed at the end on every path; the result keeps the script's fields without `browser` and carries the browser only when reusing |
| SessionActions.ManagedScript | nodes/PlaywrightScript/actions/ManagedScriptAction.ts:5-99 | with reuse and a shared browser, that browser is used, no pool call is made and it gets no close attempt; otherwise the pool's browser is used and gets exactly one close attempt when reuse is off (ending disconnected unless its close throws) and none with reuse; every other pooled browser is untouched; the page is closed once on success and on failure; pool and script errors propagate unchanged |
| ScriptNode.ShapeResult | nodes/PlaywrightScript/PlaywrightScript.node.ts:439-468 | every output carries `itemIndex` and never `browser`; an absent result becomes `{success: true, result: null}`; an object result keeps exactly its own fields other than `browser`, with `itemIndex` added; any other result is wrapped as `{success: true, result}` |
| ScriptNode.FailureRecord | nodes/PlaywrightScript/PlaywrightScript.node.ts:470-483 | a continue-on-fail output has `success: false`, the error message and the item index, and no `browser` |
| ScriptNode.AsValue | nodes/PlaywrightScript/PlaywrightScript.node.ts:415-437 | an action's record is handed on as an object value and its error unchanged |
| ScriptNode.LaunchItem | nodes/PlaywrightScript/PlaywrightScript.node.ts:415-416 | a launch item's turn starts from the registry as it finds it (`Entry`: live, stored id, whether the stored browser's close throws) and its outcome is `ActionOutcome`'s: the stored live session reported as reused, a launch failure with its prefix, otherwise the new id with the installed browser's connection state; the registry it leaves is `Next` of that turn |
| ScriptNode.InteractItem | nodes/PlaywrightScript/PlaywrightScript.node.ts:417-422 | a blank session id fails with the node's own message before the registry is touched; otherwise the interact action's outcome, from the live session, the auto-launch, the page and its set-up and the script; the turn starts from the registry as found and the registry it leaves is `Next` of that turn |
| ScriptNode.CloseItem | nodes/PlaywrightScript/PlaywrightScript.node.ts:423-429 | without close-all, an empty id fails with the node's own message; otherwise the close record, whose result is whether the stored live browser's close succeeded (for close-all, only when a non-empty id was stored); the registry it leaves is `Next` of the turn: emptied by any close that addressed the session, unchanged otherwise |
| ScriptNode.LaunchReportsSession | nodes/PlaywrightScript/PlaywrightScript.node.ts:415-416 | a launch item fails exactly when no live stored session exists and the launch throws; its record has `success: true`, `reusedExisting` exactly for the live stored session, and that session's id or else the new one |
| ScriptNode.InteractReportsScript | nodes/PlaywrightScript/PlaywrightScript.node.ts:417-422 | an interact item succeeds only with a non-blank session id and a script that returned, and its record carries that id, the script's value and whether a browser was launched for it; a script error always fails the item |
| ScriptNode.CloseFailsOnlyWithoutId | nodes/PlaywrightScript/PlaywrightScript.node.ts:423-429 | a close item fails exactly when close-all is off and the id is empty, with the node's message; otherwise it reports `success: true` |
| ScriptNode.ManagedDropsBrowser | nodes/PlaywrightScript/PlaywrightScript.node.ts:430-434 | a managed item's value is the script's object without its `browser` key, every other field kept; a script error fails the item, and once a browser and page are in hand the item succeeds exactly when the script does |
| ScriptNode.ScriptActions.constructor | nodes/PlaywrightScript/PlaywrightScript.node.ts:379-383 | five distinct action objects, each with an empty pool on the node's engine |
| ScriptNode.ScriptActions.CleanupAll | nodes/PlaywrightScript/PlaywrightScript.node.ts:499-506 | after the clean-up calls every one of the five pools is empty, and every browser any of them held was swept: a connected one got a close attempt and is disconnected unless its close throws, a disconnected one got none |
| ScriptNode.RunSessionItem | nodes/PlaywrightScript/PlaywrightScript.node.ts:415-429 | the outcome is the one `ActionOutcome` gives for the mode from what the action met: the registry's live browser and stored id as they were, whether the mode's pool launch throws, and the close result; the registry it leaves is `Next` of that turn; it stays well formed, only holds browsers it held or that the launch or interact pool made, and only disconnected browsers leave those pools |
| ScriptNode.RunManagedItem | nodes/PlaywrightScript/PlaywrightScript.node.ts:430-434 | the outcome is `ActionOutcome`'s for managed mode: the launch error when a launch was needed and threw, the page error, the script's error, or the script's object without `browser`; a shared browser, once captured, stays; one is captured only with reuse, and a newly captured one comes from the managed pool |
| ScriptNode.RunItem | nodes/PlaywrightScript/PlaywrightScript.node.ts:414-437 | the mode dispatch: each mode's outcome is the one `ActionOutcome` gives from what its action met (the registry's state on entry, whether that mode's pool launch throws, a managed launch needed only without a shared browser), and custom mode yields the script's outcome; the registry it leaves is `Next` of the turn, and outside the session modes it keeps its browser; the custom and close pools are untouched |
| ScriptNode.Tally | nodes/PlaywrightScript/PlaywrightScript.node.ts:439-487 | one more outcome keeps `Tallied`: an output with the item's index while nothing has failed, or the prefixed failure when neither continue-on-fail flag is set |
| ScriptNode.RunItems | nodes/PlaywrightScript/PlaywrightScript.node.ts:404-488 | every item run had the outcome its mode's action gives (`AllAnswered`); the turns are `Chained`: the first found the registry as it was, each later one as the item before left it, and the registry ends as `Reached` says; a connected registry browser other than the one it began with is held by the launch or interact pool (`Anchored`); on success one output per item, in order, each tagged with its index and shaped from its outcome, and every failed item had a continue-on-fail flag; on failure the run stopped at the first item whose failure neither flag let pass, with `Script execution failed: ` before its message |
| ScriptNode.Execute | nodes/PlaywrightScript/PlaywrightScript.node.ts:377-510 | as RunItems, each item's outcome the one its mode's action gives and the turns chained from the registry as the run found it; with `reuse` the registry ends as the chain reaches; without `reuse` every pool is empty at the end whether the loop failed or not, and a browser the run left in the registry is disconnected; a shared browser exists only in managed mode with `reuse` |
| ScriptNode.ChainLinks | nodes/PlaywrightScript/PlaywrightScript.node.ts:404-437 | `Chained` holds exactly when the first turn found the starting registry and each later turn found it as `Next` of the turn before |
| ScriptNode.LaterLaunchesReuse | nodes/PlaywrightScript/actions/BrowserLaunchAction.ts:17-30 | after a launch item that installed a browser on a registry without a live one, every later launch item finds that session live and reports it with `reusedExisting: true` and the first launch's id |
| ScriptNode.LaterInteractsFindSession | nodes/PlaywrightScript/actions/BrowserInteractAction.ts:21-43 | after an interact item that auto-launched a browser and succeeded, every later interact item finds the session live, and one that succeeds reports `autoLaunched: false` |
| ScriptNode.LaterClosesFindNothing | nodes/PlaywrightScript/actions/BrowserSessionManager.ts:64-96 | after a close item naming a session, the registry stays empty: every later close reports nothing closed (count 0 for close-all, "already closed or not found" for one id) |
| BrowserManagement.BrowserManager.constructor | nodes/lib/BrowserManager.ts:3-6 | a new manager holds no browser, context or page |
| BrowserManagement.BrowserManager.ConnectToDebugBrowser | nodes/lib/BrowserManager.ts:8-33 | the calls are the connection to `http://localhost:<port>`, a new context only when the browser has none, and a new page unless the first context has one; success holds the browser, the first or new context and the first or new page, and returns that page; any failing call gives the one message naming the port keeps the page held before, and leaves the browser and the context each either as they were or as just connected or picked |
| BrowserManagement.BrowserManager.AttachContextAndPage | nodes/lib/BrowserManager.ts:13-25 | the first context or a new one, then the first page of an existing context or a new one; a failure keeps the page held before and leaves the context as it was or as just picked |
| BrowserManagement.BrowserManager.AttachContext | nodes/lib/BrowserManager.ts:13-18 | an existing first context is picked without a call; otherwise one `newContext` call, whose failure leaves the context as it was |
| BrowserManagement.BrowserManager.AttachPage | nodes/lib/BrowserManager.ts:20-25 | an existing first page is picked without a call; otherwise one `newPage` call, whose failure leaves the page as it was |
| BrowserManagement.BrowserManager.OnPage | nodes/lib/BrowserManager.ts:35-74 | without a held page every page operation fails with "No page available. Connect to browser first." and makes no call; otherwise exactly that one call is made and its failure is the outcome |
| BrowserManagement.BrowserManager.NavigateToPage | nodes/lib/BrowserManager.ts:35-42 | the page guard, then one navigation that waits for network idle |
| BrowserManagement.BrowserManager.WaitForSelector | nodes/lib/BrowserManager.ts:44-50 | the page guard, then one selector wait with the given timeout |
| BrowserManagement.BrowserManager.ClickElement | nodes/lib/BrowserManager.ts:52-58 | the page guard, then one click on the selector |
| BrowserManagement.BrowserManager.FillInput | nodes/lib/BrowserManager.ts:60-66 | the page guard, then one fill of the selector with the value |
| BrowserManagement.BrowserManager.WaitForNavigation | nodes/lib/BrowserManager.ts:68-74 | the page guard, then one wait for the network-idle load state with the given timeout |
| BrowserManagement.BrowserManager.GetPage | nodes/lib/BrowserManager.ts:76-81 | the held page when there is one and the guard's error exactly when there is none |
| BrowserManagement.BrowserManager.SetPage | nodes/lib/BrowserManager.ts:83-85 | the page becomes the given one |
| BrowserManagement.BrowserManager.Close | nodes/lib/BrowserManager.ts:87-94 | without a browser nothing happens; with one the browser is closed and, only if that succeeds, browser, context and page are all dropped; a failing close propagates its message and drops nothing |
| Authentication.AuthenticationHandler.constructor | nodes/lib/AuthenticationHandler.ts:14-16 | the handler works through the given manager |
| Authentication.AuthenticationHandler.PerformAuthentication | nodes/lib/AuthenticationHandler.ts:18-33 | the calls are the login page (network idle), the login form and the SMS step, in that order, up to and including the first that fails, whose message is the outcome; without a page nothing is called |
| Authentication.AuthenticationHandler.SignIn | nodes/lib/AuthenticationHandler.ts:26-30 | the login form's calls and then the SMS step's, stopping at the first failure |
| Authentication.AuthenticationHandler.FillLoginForm | nodes/lib/AuthenticationHandler.ts:35-52 | a wait for the alias field, the alias, user name and password fills, then the login button, stopping at the first failure |
| Authentication.AuthenticationHandler.FillAndSubmit | nodes/lib/AuthenticationHandler.ts:42-49 | the user name and password fills and the login button click, stopping at the first failure |
| Authentication.AuthenticationHandler.HandleSmsAuthentication | nodes/lib/AuthenticationHandler.ts:54-94 | the SMS button, the one-shot alert dismissal, then a given code typed in or, without one, the wait for a typed code, which gives up after the driver's default timeout; then the submit link and the navigation wait |
| Authentication.AuthenticationHandler.ArmAndAnswer | nodes/lib/AuthenticationHandler.ts:62-91 | the alert dismissal is armed before the code is answered in either mode |
| Authentication.AuthenticationHandler.SubmitCode | nodes/lib/AuthenticationHandler.ts:69-74 | a supplied code is filled into the SMS field and then submitted |
| Authentication.AuthenticationHandler.AwaitTypedCode | nodes/lib/AuthenticationHandler.ts:75-91 | without a code the page is polled before the submit, for the driver's default timeout (the `timeout` object goes in as the page function's argument), and the submit is skipped if the wait fails |
| Authentication.AuthenticationHandler.SubmitAndSettle | nodes/lib/AuthenticationHandler.ts:73-74 | the submit link click and then the navigation wait |
| Authentication.AuthenticationHandler.WaitForAuthenticationComplete | nodes/lib/AuthenticationHandler.ts:96-106 | without a page the guard's error; otherwise one wait, for the driver's default timeout, for the address to mention the console or the dashboard |
| Authentication.AuthPlanCalls | nodes/lib/AuthenticationHandler.ts:18-94 | the whole sign-in as eleven calls, in order, the ninth being the code fill or the manual wait, which passes its `timeout` object as the page function's argument |
| Authentication.ManualWaitTimesOut | nodes/lib/AuthenticationHandler.ts:80-84 | without a code, a sign-in that reached the manual wait and never saw a typed code stops there, with the default timeout's message |
| Authentication.SuppliedCodeNeverPolls | nodes/lib/AuthenticationHandler.ts:69-74 | with a supplied code no call of the sign-in polls the page |
| Authentication.ManualCodeNeverTyped | nodes/lib/AuthenticationHandler.ts:75-91 | without a code the flow never fills the SMS field itself |
| Authentication.ManualSubmitFollowsTypedCode | nodes/lib/AuthenticationHandler.ts:80-90 | without a code the SMS form is submitted only after a polled page state showed more than five characters in the SMS field |
| Authentication.SubmitFollowsManualWait | nodes/lib/AuthenticationHandler.ts:80-90 | without a code the only submit click in the plan comes right after the wait for a typed code |
| Authentication.AuthCompleteSawConsole | nodes/lib/AuthenticationHandler.ts:96-106 | a completed wait saw a page address containing `console` or `dashboard` |
| Navigation.ConsoleNavigator.constructor | nodes/lib/ConsoleNavigator.ts:6-8 | the navigator works through the given manager |
| Navigation.ConsoleNavigator.ClickFirstPresent | nodes/lib/ConsoleNavigator.ts:47-54 | the selectors are looked up in order and the first one found is clicked and ends the search; a throwing look-up or click propagates |
| Navigation.FirstPresentFinds | nodes/lib/ConsoleNavigator.ts:47-54 | the index clicked is that of the first selector found, every earlier one was missing and nothing after it was looked up; no index means every selector was missing |
| Navigation.ProbeOnlyLooksAndClicks | nodes/lib/ConsoleNavigator.ts:47-54 | the search makes look-ups and clicks and no other call |
| Navigation.PopupEndsWithWait | nodes/lib/ConsoleNavigator.ts:37-60 | once the checkbox is ticked, the popup handling ends with the wait for the popup to go exactly when the button search did not throw, and at most one button was clicked |
| Navigation.ConsoleNavigator.NavigateToConsole | nodes/lib/ConsoleNavigator.ts:10-19 | without a page the guard's error and no call; otherwise the console page (network idle) and, only if it loaded, the popup handling, whose failures never reach the caller |
| Navigation.ConsoleNavigator.HandlePopupDismissal | nodes/lib/ConsoleNavigator.ts:21-67 | the guard's error without a page (outside the `try`); with one, always success, after the wait for the checkbox, the checkbox, the button search and the wait for the popup to go, cut short at the first call that throws |
| Navigation.ConsoleNavigator.Dismiss | nodes/lib/ConsoleNavigator.ts:26-66 | the checkbox is clicked only after the wait for it succeeded |
| Navigation.ConsoleNavigator.TickCheckbox | nodes/lib/ConsoleNavigator.ts:34-60 | the button search runs only after the checkbox click succeeded |
| Navigation.ConsoleNavigator.CloseButton | nodes/lib/ConsoleNavigator.ts:47-60 | the disappearance wait (the driver's default timeout) runs only when the button search did not throw, whether or not a button was found |
| Navigation.ConsoleNavigator.NavigateToVpcPage | nodes/lib/ConsoleNavigator.ts:69-93 | without a page the guard's error; otherwise the first VPC link found is clicked and then the navigation is waited for; when no link is found it succeeds with only the look-ups made; a throw propagates |
| Navigation.ConsoleNavigator.NavigateToSslVpnPage | nodes/lib/ConsoleNavigator.ts:95-104 | the page (network idle), then a ten-second wait for a table, stopping at the first failure |
| Navigation.ConsoleNavigator.WaitForPageReady | nodes/lib/ConsoleNavigator.ts:106-114 | the guard's error without a page; otherwise the network-idle wait and then the DOM-content-loaded wait, stopping at the first failure |
| TableExtraction.NormalizeKey | nodes/lib/DataExtractor.ts:91 | a column key has no white space and no upper-case letter |
| TableExtraction.NormalizeKeyIdempotent | nodes/lib/DataExtractor.ts:91 | normalising a key again leaves it unchanged |
| TableExtraction.ColumnNameIsKey | nodes/lib/DataExtractor.ts:83 | the fallback name `column_{j+1}` is its own key, and different positions give different fallback keys |
| TableExtraction.ColumnKeyFallback | nodes/lib/DataExtractor.ts:83 | a column past the header row or under an empty header is keyed by its fallback name; any other column by the normal form of its header |
| TableExtraction.NameKeySaysName | nodes/lib/DataExtractor.ts:86-91 | a column keyed `name` has a header that mentions `name`, so the name rule already picks it |
| TableExtraction.CellsFields | nodes/lib/DataExtractor.ts:81-92 | a row's record has its starting keys plus one per column; a starting key that no column has keeps its value; under each column key is the cell of the last column with that key |
| TableExtraction.CellsLastWins | nodes/lib/DataExtractor.ts:81-92 | where several columns share a key, the last one's cell wins |
| TableExtraction.VpcRecordFields | nodes/lib/DataExtractor.ts:74-92 | a VPC record holds `name`, `row_index` and one key per column; `name` is the first cell, overridden by every later cell under a header mentioning `name`; `row_index` is the row's position unless a column is keyed `row_index`; every other key holds the last such column's cell |
| TableExtraction.KeepVpcRecord | nodes/lib/DataExtractor.ts:94-97 | a row is kept exactly when its name is non-empty or one of its columns is keyed other than `name` and `row_index` |
| TableExtraction.VpcRowsSound | nodes/lib/DataExtractor.ts:74-98 | every record returned is a kept row's record, numbered by its position from 1, and there are no more records than rows |
| TableExtraction.VpcRowsComplete | nodes/lib/DataExtractor.ts:74-98 | every row whose record is kept is returned |
| TableExtraction.FirstVpcTable | nodes/lib/DataExtractor.ts:34-48 | the index found is the first table with a header mentioning `name`, `vpc` or `status` in any case; none means no table has such a header |
| TableExtraction.TargetTableChoice | nodes/lib/DataExtractor.ts:29-57 | the table read is the first telling one, else the first table; the error "No data table found on the page" exactly when the page has no table |
| TableExtraction.ChooseTable | nodes/lib/DataExtractor.ts:34-57 | the table loop returns the choice TargetTableChoice describes |
| TableExtraction.BuildVpcRecord | nodes/lib/DataExtractor.ts:81-92 | the cell loop yields the VPC record VpcRecordFields describes |
| TableExtraction.BuildVpcRows | nodes/lib/DataExtractor.ts:74-98 | the row loop yields exactly the kept rows' records, in row order |
| TableExtraction.EvaluateVpcData | nodes/lib/DataExtractor.ts:26-101 | the VPC `evaluate` body: the missing-table error, or the kept records of the chosen table |
| TableExtraction.TableRecords | nodes/lib/DataExtractor.ts:154-182 | one record per row after the header row, none for an empty table |
| TableExtraction.TableRecordFields | nodes/lib/DataExtractor.ts:169-180 | record `i` is data row `i + 1`, with `row_index` `i + 1` unless a column is keyed `row_index`, and the last column's cell under each column key |
| TableExtraction.AddCells | nodes/lib/DataExtractor.ts:174-177 | the cell loop writes the cells as CellsFields describes |
| TableExtraction.EvaluateTable | nodes/lib/DataExtractor.ts:148-183 | "Table not found with selector: …" when the selector matches nothing; no records for a table without rows; otherwise TableRecords |
| TableExtraction.UserRecordFields | nodes/lib/DataExtractor.ts:378-381 | a user record holds `user_index` with its row's position and cell `j` under `column_{j+1}`, and nothing else |
| TableExtraction.UserRowsAt | nodes/lib/DataExtractor.ts:374-384 | one user record per row that has cells, in row order, each numbered by its row's position among all the rows |
| TableExtraction.BuildUserRecord | nodes/lib/DataExtractor.ts:378-381 | the cell loop yields the user record UserRecordFields describes |
| TableExtraction.EvaluateUsers | nodes/lib/DataExtractor.ts:297-387 | no users without a modal or without a data tbody; otherwise the records UserRowsAt describes |
| DataExtraction.TableSelector | nodes/lib/DataExtractor.ts:145 | the default selector `table` is used exactly when the caller gives none, gives an empty one or gives `table` itself; the selector is never empty |
| DataExtraction.VpcReadCompleted | nodes/lib/DataExtractor.ts:17-105 | a VPC read that yields rows made both its calls, and the rows are those of the tables the read saw |
| DataExtraction.RecoveryFails | nodes/lib/DataExtractor.ts:225-235 | the recovery after a failed lookup fails exactly when the close button and then the Escape key both throw, and then with the Escape key's message after those two calls |
| DataExtraction.Annotated | nodes/lib/DataExtractor.ts:208-214 | an annotated user has the user's keys plus the four VPN keys, carries the VPN's number, name, row and tbody, and keeps every other field of the user |
| DataExtraction.AnnotateFields | nodes/lib/DataExtractor.ts:208-214 | a VPN's users are annotated one for one and in their order |
| DataExtraction.GatherKeeps | nodes/lib/DataExtractor.ts:195-238 | what was gathered before a VPN is kept, in front |
| DataExtraction.GatherAnnotates | nodes/lib/DataExtractor.ts:195-238 | every gathered record names a VPN of the list, with that VPN's number, name, row and tbody |
| DataExtraction.GatherOrdered | nodes/lib/DataExtractor.ts:195-238 | gathered records come VPN by VPN, in list order |
| DataExtraction.GatherTakesUsers | nodes/lib/DataExtractor.ts:203-216 | a lookup that completes contributes exactly its users, annotated, right after what was gathered before |
| DataExtraction.GatherSkipsFailed | nodes/lib/DataExtractor.ts:220-237 | a failed lookup that is recovered from contributes no record; the records after it belong to later VPNs |
| DataExtraction.GatherFailsInRecovery | nodes/lib/DataExtractor.ts:220-237 | the gathering ends in an error only through a recovery that failed, and that recovery's calls are the last ones made |
| DataExtraction.GatherFailsOnEscape | nodes/lib/DataExtractor.ts:226-235 | against the browser, the gathering fails only when the last two calls were the close button and the Escape key and both threw; the Escape key's message is the error |
| DataExtraction.DataExtractor.constructor | nodes/lib/DataExtractor.ts:13-15 | the extractor works through the given manager |
| DataExtraction.DataExtractor.ExtractVpcData | nodes/lib/DataExtractor.ts:17-105 | the guard's error and no call without a page; otherwise a wait for a data table and one read of the page, whose failures propagate, then the records of the chosen table or the missing-table error |
| DataExtraction.DataExtractor.ExtractTableData | nodes/lib/DataExtractor.ts:140-187 | the same for the table the selector picks (`table` by default): the wait, the read, then TableRecords or the not-found error |
| DataExtraction.DataExtractor.WaitForDataLoad | nodes/lib/DataExtractor.ts:413-437 | the guard's error without a page; otherwise the wait for no loading indicator and then the wait for a first table with a data row, each ending after the driver's default timeout whatever `timeout` is given, stopping at the first failure |
| DataExtraction.DataLoaded | nodes/lib/DataExtractor.ts:413-437 | a completed data load saw a page state with no loading indicator, and later one whose first table has more than one row |
| DataExtraction.DataExtractor.OpenUserModal | nodes/lib/DataExtractor.ts:249-265 | the VPN's checkbox in its tbody, the users button and the wait (five seconds) for the modal, stopping at the first failure |
| DataExtraction.DataExtractor.ReturnToSslVpn | nodes/lib/DataExtractor.ts:275-284 | with the SSL VPN address set, a navigation there and a load wait; without it no call |
| DataExtraction.DataExtractor.GetSslVpnUsers | nodes/lib/DataExtractor.ts:246-287 | the guard's error without a page; otherwise the modal is opened, read and left, stopping at the first failure; success returns the users the modal read shows |
| DataExtraction.DataExtractor.CloseModal | nodes/lib/DataExtractor.ts:225-235 | the recovery: the close button, and the Escape key only when that click threw |
| DataExtraction.DataExtractor.VisitVpn | nodes/lib/DataExtractor.ts:196-237 | one VPN of the loop: its tbody is its row plus one; a completed lookup adds its annotated users; a failed one is followed by the recovery, which keeps what was gathered unless it fails itself |
| DataExtraction.DataExtractor.GatherNext | nodes/lib/DataExtractor.ts:195-238 | one turn of the VPN loop moves the gathering on by exactly the calls of that VPN's step |
| DataExtraction.DataExtractor.GetAllSslVpnUsersFromVpnData | nodes/lib/DataExtractor.ts:189-244 | the VPNs are visited in order and the result is the gathering the Gather lemmas describe; without a page an empty list gives no users and any other list the guard's error |
| Remote.Check | nodes/lib/AuthenticationHandler.ts:81-84 | each awaited page condition holds exactly on the page states the code's predicate accepts; reading the value of a missing SMS field throws, and no other condition does |
| Remote.WaitResolves | nodes/lib/AuthenticationHandler.ts:81-84 | a `waitForFunction` resolves exactly when an observed state satisfies the condition after states that all evaluated to false, and times out when none satisfies it |
| Remote.WaitIgnoresArgTimeout | nodes/lib/AuthenticationHandler.ts:81-84 | a `waitForFunction` whose condition never holds times out with the default timeout's message, whatever timeout its argument object names |
| Remote.RunCompletes | nodes/lib/AuthenticationHandler.ts:18-33 | a sequence of awaited calls completes exactly when none of its calls throws |
| Remote.RunStopsAtFirstFailure | nodes/lib/AuthenticationHandler.ts:18-33 | a sequence of awaited calls that fails stopped at its first throwing call, with that call's message, and made no later call |
| Remote.RunAppend | nodes/lib/AuthenticationHandler.ts:18-33 | awaiting two sequences one after the other is awaiting their concatenation |
| SslVpnActions.SignInCredentials | nodes/SslVpn/actions/AuthenticateAction.ts:16-22 | the sign-in takes the stored URL, alias, user name and password; with manual SMS input no code is passed on, otherwise the stored code is |
| SslVpnActions.Reported | nodes/SslVpn/actions/AuthenticateAction.ts:28-37 | an action succeeds exactly when its calls did, with its own record; a failure is the original message behind the action's prefix |
| SslVpnActions.Authenticate | nodes/SslVpn/actions/AuthenticateAction.ts:5-38 | the calls are the connection to the debug browser and then the sign-in, stopping at the first failure; success is the authentication record and failure is prefixed `Authentication failed: ` |
| SslVpnActions.Console | nodes/SslVpn/actions/ConsoleAction.ts:6-44 | the sign-in and then the console page with its popup handling; success is the console record and failure is prefixed `Console navigation failed: ` |
| SslVpnActions.Extract | nodes/SslVpn/actions/ExtractAction.ts:7-60 | the sign-in, the console, the SSL VPN page, the data wait and the VPC read, in that order, stopping at the first failure; success is the extraction record and failure is prefixed `Data extraction failed: ` |
| SslVpnActions.LoadWith | nodes/SslVpn/actions/ExtractAction.ts:17-44 | the extraction's stages up to the data wait, on one manager; a page is held afterwards when they all succeed |
| SslVpnActions.ReadVpcData | nodes/SslVpn/actions/ExtractAction.ts:45-55 | the VPC read runs right after the completed stages, and its rows or its error under the extraction prefix are the outcome |
| SslVpnActions.ReadAfterStages | nodes/SslVpn/actions/ExtractAction.ts:44-59 | the read's calls come after the stages' calls; the extraction completes only when the stages did; every extraction error carries the extraction prefix |
| SslVpnActions.Full | nodes/SslVpn/actions/FullAction.ts:10-21 | the extraction, reported under the full process's message |
| SslVpnActions.ExtractedRecordFields | nodes/SslVpn/actions/ExtractAction.ts:48-55 | a completed extraction's record has `success` true, the rows as `data` in their order and their number as `count` |
| SslVpnActions.ManualSmsNeverTypesCode | nodes/SslVpn/actions/AuthenticateAction.ts:21 | with manual SMS input signing in never fills the SMS code field, whatever code the credential stores |
| SslVpnActions.ConsoleSignsInFirst | nodes/SslVpn/actions/ConsoleAction.ts:15-43 | the console action makes the authenticate action's calls first; it completes only if they do; when they fail it makes no more calls and fails with the same message under its own prefix |
| SslVpnActions.ExtractOpensConsoleFirst | nodes/SslVpn/actions/ExtractAction.ts:17-59 | the extraction makes the console action's calls first, completes only if they do, and when they fail fails with the same message under its own prefix |
| SslVpnActions.ExtractWaitedForData | nodes/SslVpn/actions/ExtractAction.ts:44-45 | a completed extraction read the tables only after the data wait saw a state with no loading indicator and then one whose first table has a data row |
| SslVpnActions.LoadedWaitedForData | nodes/SslVpn/actions/ExtractAction.ts:44 | any stages ending with the data wait completed only after both of its waits saw their condition |
| SslVpnActions.ReadReportsRows | nodes/SslVpn/actions/ExtractAction.ts:45-55 | a completed extraction reports exactly the rows its VPC read yielded, after the stages' calls and the read's calls |
| SslVpnActions.FullOnlyRenames | nodes/SslVpn/actions/FullAction.ts:14-20 | the full process makes the extraction's calls and succeeds exactly when it does; its failures are the extraction's unchanged |
| SslVpnNode.ActionOfRunsActions | nodes/SslVpn/SslVpn.node.ts:154-194 | the node's dispatch, run against the driver's environment, answers every item exactly as that item's action runs |
| SslVpnNode.RunAction | nodes/SslVpn/SslVpn.node.ts:154-194 | the switch: the named action's calls are made and its outcome returned; the defaults are manual SMS on, a 5000 ms popup timeout and a 10000 ms data timeout |
| SslVpnNode.UnknownActionFails | nodes/SslVpn/SslVpn.node.ts:187-194 | an item fails with `Unknown action: ` and its action's name, before any browser call, exactly when the action is none of the four |
| SslVpnNode.KnownActionErrorPrefixed | nodes/SslVpn/SslVpn.node.ts:154-185 | a known action's failure carries its prefix: authentication, console navigation, or data extraction for both `extract` and `full` |
| SslVpnNode.ExtractErrorPrefixed | nodes/SslVpn/SslVpn.node.ts:165-185 | every failure of the extraction and of the full process starts with `Data extraction failed: ` |
| SslVpnNode.EmitPairs | nodes/SslVpn/SslVpn.node.ts:196-244 | every output of an item is paired with that item and follows what was emitted before; the run fails exactly when the action failed without continue-on-fail, with the action's message |
| SslVpnNode.SingleItemKeepsResult | nodes/SslVpn/SslVpn.node.ts:219-228 | a result that is not split becomes one output holding the result's fields with `action` set to the item's action |
| SslVpnNode.SplitItemsFollowRows | nodes/SslVpn/SslVpn.node.ts:197-218 | a split result gives one output per data row, in order, each the row's fields plus an `extractionInfo` with the result's success, message, timestamp and count and the item's action |
| SslVpnNode.ExtractedIsExtractionRecord | nodes/SslVpn/SslVpn.node.ts:165-174 | a completed extraction reports `success` true, an array of row objects as `data` and their number as `count` |
| SslVpnNode.FullIsExtractionRecord | nodes/SslVpn/SslVpn.node.ts:176-185 | so does a completed full process |
| SslVpnNode.ExtractionRecordSplits | nodes/SslVpn/SslVpn.node.ts:197-218 | such a record from `extract` or `full` in items format is split into exactly one output per row, so an empty data array yields no output for that item; every summary counts all rows |
| SslVpnNode.CompletedExtractionSplits | nodes/SslVpn/SslVpn.node.ts:196-218 | a completed `extract` or `full` item in items format is split into one output per VPC row read, and its count is that number of rows |
| SslVpnNode.EmitRows | nodes/SslVpn/SslVpn.node.ts:204-218 | the for-of loop appends the split outputs, one per row, in order |
| SslVpnNode.EmitItem | nodes/SslVpn/SslVpn.node.ts:196-241 | one item's outputs: the shaped result, the failure record under continue-on-fail, or the run's error |
| SslVpnNode.ContinueOnFailCompletes | nodes/SslVpn/SslVpn.node.ts:229-241 | under continue-on-fail the node never fails |
| SslVpnNode.FailureIsAnAction | nodes/SslVpn/SslVpn.node.ts:242-243 | a failed run had no continue-on-fail, and its error is the message of some item's failed action |
| SslVpnNode.NodeOutputsPaired | nodes/SslVpn/SslVpn.node.ts:141-247 | every output is paired with an input item, and the pairings never decrease along the output |
| SslVpnNode.ExecuteItem | nodes/SslVpn/SslVpn.node.ts:142-244 | one turn of the item loop moves the node's run on by exactly that item's calls and outputs |
| SslVpnNode.Execute | nodes/SslVpn/SslVpn.node.ts:137-248 | the items run in order through the driver; the calls made and the outputs or error are those of the node's run, which the lemmas above describe |

Facts of the code that the model keeps as written:
- `closeBrowserSession` returns false when the browser's `close` throws, even though the browser, its id and the page entries have been cleared (nodes/PlaywrightScript/actions/BrowserSessionManager.ts:87-92).
- `closeBrowserSession` ignores its `sessionId`: every call addresses the one shared session (nodes/PlaywrightScript/actions/BrowserSessionManager.ts:64-96).
- Every `waitForFunction` of the SSL VPN side passes its `{ timeout }` object in the place of the page function's argument, not of its options (nodes/lib/AuthenticationHandler.ts:81-84, nodes/lib/AuthenticationHandler.ts:100-103, nodes/lib/ConsoleNavigator.ts:57-60, nodes/lib/DataExtractor.ts:419-433). Each of those waits therefore ends after the driver's default 30 seconds; the five minutes for a typed SMS code, the minute for the sign-in and the ten seconds for the popup never take effect.

## Left out
- `extractCustomData` and `getSeparatedData` of lib/DataExtractor.ts are not part of this model: no action of the SSL VPN node calls them.
- The fixed sleeps (`setTimeout` of one second and similar) and all console logging: they change neither the calls made on the page nor any result.
- The `state: 'visible'` option of the user modal's wait: a wait is modelled as resolving or failing, as the page answers it.
- DataExtraction.VisitVpn: `vpn_row_index + 1` is modelled on numbers only; a row index that arrives as a string (JavaScript would concatenate) is not modelled.
- The console return URL is read from the process environment in the source; the model takes it as an `Option<string>` parameter (`returnUrl`).
- DataExtraction.GetAllSslVpnUsersFromVpnData and SslVpnNode.Execute take a ghost description of what the page and the actions answer (`Console`, tied by `Answers`; `run`, tied by `RunsActions`); the real page is the driver's environment.
- User scripts (`eval`, `AsyncFunction` bodies) are opaque: a script is modelled only by the outcome it returns or the error it throws, so the custom-script mode is exactly its script's outcome.
- Session ids, random suffixes and timestamps (`Date.now`, `new Date().toISOString()`) are parameters; one clock reading is taken per item.
- DOM and CSS semantics (selectors, visibility, the table cells read by `page.evaluate`) are abstracted as the environment's answers and document snapshots.
- Asynchrony is modelled sequentially: every `await` completes before the next step, and no concurrency between items or sessions is modelled.
- JavaScript coercions are simplified: truthiness is defined on the value datatype; `toLowerCase` is ASCII-only; object key order in records is not modelled (records are maps).
- A `headless` option that is neither a boolean nor absent is not modelled.
- The messages of calls that throw in the remote browser (`goto`, `click`, `fill`, selector and load-state waits, connecting over CDP) are taken as given by the environment; the `NodeApiError` description text is not modelled beyond its message.
- Remote.WaitOutcome: a `waitForFunction` that times out or whose condition throws fails with the bare message ("Timeout 30000ms exceeded.", the page's `TypeError` message); the `page.waitForFunction: ` prefix Playwright puts in front (followed, for a throwing condition, by the error class `TypeError: ` and its page-side stack), and any call log it appends, are left out.
- TableExtraction.EvaluateVpcData: the "No data table found on the page" error thrown inside `page.evaluate` reaches the caller as that bare message; the `page.evaluate: Error: ` prefix and the page-side stack Playwright adds are left out.
- TableExtraction.EvaluateTable: likewise, "Table not found with selector: …" is the bare message, without the `page.evaluate: Error: ` prefix and the page-side stack.
- Credentials are read once per run and constant; a failure of `getCredentials` is not modelled.
- The SSL VPN actions never close the browser they connect to, as in the source; the model adds no close.
- `for ... of` over a `data` field that is a non-array iterable (a string, say) is not modelled: such data yields no rows in the model.
- A missing required parameter (`action`, `debugPort`) throwing is not modelled: parameters are read as values.
- The dynamic import failure ("Playwright is not installed") is not modelled: the driver is always available.
- The close of a shared browser in the PlaywrightScript node's `finally` block is guarded by a condition that the code never makes true, and is not part of the model.
- The `catch` of the browser-close action is not modelled: the session manager's close operations catch their own errors, so it is never reached.
- A page that `newPage` has just created is taken to accept its set-up calls (viewport, headers, init script); only a reused cached page can have closed under the interact action, so the managed action's set-up calls never fail in the model.
- ScriptNode.RunItems: the turns are threaded only through the registry's session (whether it is live, its stored id, whether its browser's close throws); whether a pool launch fails, whether a page opens, whether a set-up call throws and the connection state of a launched browser are constrained item by item through each turn's own fields, not derived from earlier items, and the pools' caches and the engine's launch count are not threaded from turn to turn.
- ScriptNode.Execute: the exact close attempts of the final clean-up are stated by ScriptActions.CleanupAll against the pools as the loop left them; Execute itself states that the pools end empty and that a browser the run installed in the registry ends disconnected, and states the registry's final session only with `reuse`.
- A browser whose close throws is modelled only for one the registry held before the run; browsers the driver launches during the run close cleanly, which is what RunItem and RunItems take of the pools and what the pools Execute creates satisfy.
