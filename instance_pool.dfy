/** The browser instance pool every action inherits: browsers cached under
    the browser type plus the serialised options. A cached browser that is
    still connected is handed out again; a dead one is evicted and replaced
    by a fresh chromium launch. Also the allow-list of modules a script may
    `require`. */
module InstancePool {
  import opened Wrappers
  import opened Browsers

  /** The chromium binary of the Alpine image. */
  const ChromiumPath: string := "/usr/bin/chromium-browser"

  const SandboxArgs: seq<string> := ["--no-sandbox", "--disable-setuid-sandbox"]

  /** The modules a script's `require` may load. */
  const AllowedModules: seq<string> := ["fs", "path", "crypto", "util", "os", "url"]

  /** The `browserOptions` parameter. `json` is its `JSON.stringify` form;
      an absent number reads as 0 and an absent string as "", which is how
      the truthiness tests of the actions see them. */
  datatype BrowserOptions = BrowserOptions(
    json: string,
    headless: Option<bool>,
    ignoreHTTPSErrors: Option<bool>,
    viewportWidth: int,
    viewportHeight: int,
    userAgent: string,
    defaultTimeout: int,
    navigationTimeout: int)

  /** The pool's cache key: the browser type, a dash, the serialised options. */
  function CacheKey(browserType: string, options: BrowserOptions): (key: string)
    ensures |key| == |browserType| + 1 + |options.json|
    ensures key[..|browserType|] == browserType && key[|browserType|] == '-'
    ensures key[|browserType| + 1..] == options.json
  {
    browserType + "-" + options.json
  }

  /** For browser types without a dash (chromium, firefox, webkit) the key
      determines both the type and the serialised options, so different
      requests never share a cached browser. */
  lemma {:induction false} CacheKeyInjective(t1: string, o1: BrowserOptions, t2: string, o2: BrowserOptions)
    requires '-' !in t1 && '-' !in t2
    requires CacheKey(t1, o1) == CacheKey(t2, o2)
    ensures t1 == t2 && o1.json == o2.json
  {
    var key := CacheKey(t1, o1);
    if |t1| != |t2| {
      // the shorter type's dash would fall inside the longer type
      assert false;
    }
  }

  /** The launch options: chromium's fixed path and sandbox flags whatever
      the requested type, headless unless `headless` is exactly false, and
      HTTPS errors ignored only when asked for. */
  function LaunchConfigFor(options: BrowserOptions): (c: LaunchConfig)
    ensures c.executablePath == ChromiumPath && c.args == SandboxArgs
    ensures c.headless <==> options.headless != Some(false)
    ensures c.ignoreHTTPSErrors <==> options.ignoreHTTPSErrors == Some(true)
  {
    LaunchConfig(
      ChromiumPath,
      match options.headless { case Some(false) => false case _ => true },
      options.ignoreHTTPSErrors.GetOr(false),
      SandboxArgs)
  }

  function NotAllowedError(name: string): string {
    "Module '" + name + "' is not allowed for security reasons"
  }

  function LoadError(name: string, cause: string): string {
    "Failed to load module '" + name + "': " + cause
  }

  /** The decision of the script `require`: a listed module loads unless the
      runtime's own `require` fails (`loadFailure`), any other name is
      refused. The `Ok` value is the module name that was loaded. */
  function RequireModule(name: string, loadFailure: Option<string>): (r: Result<string>)
    ensures r.Ok? <==> name in AllowedModules && loadFailure.None?
    ensures r.Ok? ==> r.value == name
    ensures name !in AllowedModules ==> r == Err(NotAllowedError(name))
    ensures name in AllowedModules && loadFailure.Some? ==> r == Err(LoadError(name, loadFailure.value))
  {
    if name in AllowedModules then
      match loadFailure
      case None => Ok(name)
      case Some(cause) => Err(LoadError(name, cause))
    else
      Err(NotAllowedError(name))
  }

  /** What `cleanupBrowsers` does to one cached browser: one close attempt
      if it reported connected, none otherwise; it stays connected only
      when that close threw. */
  twostate predicate Swept(b: BrowserRef)
    reads b
  {
    b.connected == (old(b.connected) && b.closeFails)
    && (old(b.connected) ==> b.closeAttempts > old(b.closeAttempts))
    && (!old(b.connected) ==> b.closeAttempts == old(b.closeAttempts))
  }

  /** Neither closed nor attempted. */
  twostate predicate Untouched(b: BrowserRef)
    reads b
  {
    b.connected == old(b.connected) && b.closeAttempts == old(b.closeAttempts)
  }

  /** Every browser in the pool was there before or has just been launched,
      and so closes without throwing. */
  twostate predicate Grown(pool: BrowserPool)
    reads pool
  {
    forall b :: b in pool.instances.Values ==> b in old(pool.instances.Values) || (fresh(b) && !b.closeFails)
  }

  /** Every browser of `before` that is still connected is still in the
      pool: only dead browsers leave it. */
  predicate Kept(pool: BrowserPool, before: set<BrowserRef>)
    reads pool, before
  {
    forall b :: b in before && b.connected ==> b in pool.instances.Values
  }

  /** The `browserInstances` map of one action object. */
  class BrowserPool {
    var instances: map<string, BrowserRef>
    const engine: Engine

    constructor (engine: Engine)
      ensures this.engine == engine && instances == map[]
    {
      this.engine := engine;
      instances := map[];
    }

    /** Every cached browser closes without throwing, as every browser the
        engine launches does. */
    predicate ClosesCleanly()
      reads this
    {
      forall b :: b in instances.Values ==> !b.closeFails
    }

    /** `getBrowserInstance`. A connected browser cached under the key is
        returned and nothing is launched. Otherwise a cached dead browser is
        evicted and chromium is launched once: on success the new browser is
        stored under the key, other keys untouched; a launch failure
        propagates with the key left empty. */
    method GetBrowserInstance(browserType: string, options: BrowserOptions) returns (r: Result<BrowserRef>)
      modifies this`instances, engine`launches
      ensures var key := CacheKey(browserType, options);
        if key in old(instances) && old(instances[key].connected) then
          r == Ok(old(instances)[key]) && instances == old(instances)
          && engine.launches == old(engine.launches)
        else
          engine.launches == old(engine.launches) + [LaunchConfigFor(options)]
          && (r.Ok? <==> |old(engine.launches)| !in engine.refused)
          && (r.Ok? ==> fresh(r.value) && r.value.connected && !r.value.closeFails && !r.value.newPageFails
                        && r.value.closeAttempts == 0 && instances == old(instances)[key := r.value])
          && (r.Err? ==> r.error == engine.launchError && instances == old(instances) - {key})
      ensures Grown(this) && Kept(this, old(instances.Values))
    {
      var key := CacheKey(browserType, options);
      if key in instances {
        var cached := instances[key];
        if cached.connected {
          return Ok(cached);
        }
        ghost var before := instances;
        instances := instances - {key};
        forall b | b in before.Values && b.connected
          ensures b in instances.Values
        {
          var k :| k in before && before[k] == b;
          assert instances[k] == b;
        }
      }
      ghost var kept := instances;
      var launched := engine.Launch(LaunchConfigFor(options));
      if launched.Err? {
        return Err(launched.error);
      }
      instances := instances[key := launched.value];
      forall b | b in kept.Values
        ensures b in instances.Values
      {
        var k :| k in kept && kept[k] == b;
        assert instances[k] == b;
      }
      return Ok(launched.value);
    }

    /** `cleanupBrowsers`: every cached browser that reports connected gets
        a close attempt (errors ignored) and every entry is deleted, so the
        pool always ends empty; on an empty pool nothing happens. */
    method CleanupBrowsers()
      modifies this`instances, instances.Values
      ensures instances == map[]
      ensures forall b :: b in old(instances).Values ==> Swept(b)
    {
      ghost var all := instances;
      ghost var seen: set<BrowserRef> := {};
      while instances != map[]
        invariant instances.Keys <= all.Keys
        invariant forall k :: k in instances ==> instances[k] == all[k]
        invariant seen <= all.Values
        invariant forall k :: k in all && k !in instances ==> all[k] in seen
        invariant forall b :: b in all.Values ==> if b in seen then Swept(b) else Untouched(b)
        decreases |instances.Keys|
      {
        var key :| key in instances;
        var b := instances[key];
        if b.connected {
          var _ := b.Close();
        }
        seen := seen + {b};
        instances := instances - {key};
      }
    }
  }

  /** Two requests with the same type and options while the first browser
      stays connected: one launch, the same browser twice. */
  method AcquireTwice(pool: BrowserPool, browserType: string, options: BrowserOptions)
    returns (first: Result<BrowserRef>, second: Result<BrowserRef>)
    requires CacheKey(browserType, options) !in pool.instances
    requires |pool.engine.launches| !in pool.engine.refused
    modifies pool, pool.engine
    ensures first.Ok? && second == first
    ensures pool.engine.launches == old(pool.engine.launches) + [LaunchConfigFor(options)]
    ensures |pool.instances| == |old(pool.instances)| + 1
  {
    first := pool.GetBrowserInstance(browserType, options);
    second := pool.GetBrowserInstance(browserType, options);
  }
}
