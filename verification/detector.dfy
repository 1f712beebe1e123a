/** The memoised Wonolog availability detector (src/Support/WonologDetector.php).

    A detector holds three caches, each empty until its getter first computes a
    value. PHP mutates the caches in place; here every operation takes the current
    detector and returns the value, the detector after the call, and the host
    queries it made, so that "answered from the cache" is visible as an empty
    probe list. */
module WonologDetector {
  import opened Wrappers
  import opened Host

  /** The three caches of one detector instance. */
  datatype Detector = Detector(
    activeCache: Option<bool>,
    namespaceCache: Option<string>,
    actionCache: Option<string>)

  /** A newly constructed detector: every cache empty. */
  const Fresh: Detector := Detector(None, None, None)

  /** What a detector operation gives back: its value, the detector after the call,
      and the host queries it made, in order. */
  datatype Answer<+T> = Answer(value: T, detector: Detector, probes: seq<Probe>)

  /** A value together with the host queries made to obtain it. */
  datatype Probed<+T> = Probed(value: T, probes: seq<Probe>)

  /** A string setting the detector resolves: the configuration key read when
      `config` exists, the literal fallback, and the filter hook that may override it. */
  datatype Setting = Setting(configKey: string, fallback: string, filterHook: string)

  const NamespaceSetting: Setting :=
    Setting("wonolog.namespace", "Inpsyde\\Wonolog", "wonolog_handler.namespace")

  const ActionSetting: Setting :=
    Setting("wonolog.action", "wonolog.log", "wonolog_handler.action")

  /** The suffix naming Wonolog's configurator class inside its namespace. */
  const ConfiguratorSuffix: string := "\\Configurator"

  /** The suffix naming the configurator's setup-action constant. */
  const SetupConstantSuffix: string := "::ACTION_SETUP"

  // ---------------------------------------------------------------------------
  // Reference definitions: what a freshly computed answer is.
  // ---------------------------------------------------------------------------

  /** The value a setting resolves to in `env` when nothing is cached: the filter,
      when `apply_filters` exists, has priority over the configuration, which has
      priority over the literal fallback. */
  function FreshValue(env: Env, s: Setting): string {
    var configured :=
      if env.hasConfig && env.configValue(s.configKey).Some?
      then env.configValue(s.configKey).value
      else s.fallback;
    if env.hasApplyFilters then env.filter(s.filterHook, configured) else configured
  }

  /** The fully qualified name of Wonolog's configurator class under namespace `ns`. */
  function ConfiguratorClass(ns: string): string {
    ns + ConfiguratorSuffix
  }

  /** The name of the configurator's setup constant under namespace `ns`. */
  function SetupConstant(ns: string): string {
    ConfiguratorClass(ns) + SetupConstantSuffix
  }

  /** The three capability checks before the fire count: `did_action` exists, the
      configurator class exists, and its setup constant is defined. */
  predicate ChainPasses(env: Env, ns: string) {
    && env.hasDidAction
    && env.classExists(ConfiguratorClass(ns))
    && env.constantOf(SetupConstant(ns)).Some?
  }

  /** Wonolog is active under namespace `ns`: every check passes and the setup action
      the constant names has fired at least once. */
  predicate ActiveUnder(env: Env, ns: string) {
    ChainPasses(env, ns) && env.fireCount(env.constantOf(SetupConstant(ns)).value) > 0
  }

  /** Whether a fresh detector finds Wonolog active in `env`. */
  predicate FreshActive(env: Env) {
    ActiveUnder(env, FreshValue(env, NamespaceSetting))
  }

  /** Every cache that is set holds what a fresh computation in `env` would give. */
  predicate Coherent(d: Detector, env: Env) {
    && (d.namespaceCache.Some? ==> d.namespaceCache.value == FreshValue(env, NamespaceSetting))
    && (d.actionCache.Some? ==> d.actionCache.value == FreshValue(env, ActionSetting))
    && (d.activeCache.Some? ==> d.activeCache.value == FreshActive(env))
  }

  // ---------------------------------------------------------------------------
  // Operations.
  // ---------------------------------------------------------------------------

  /** The queries setting resolution makes: function existence, configuration reads
      and filter applications, never a class, constant or action-count lookup. */
  predicate ResolutionProbe(p: Probe) {
    p.FunctionExists? || p.ReadConfig? || p.ApplyFilters?
  }

  /** Resolves a setting by querying the host: `function_exists('config')`, then
      `config(key, fallback)` if it exists, then `function_exists('apply_filters')`,
      then `apply_filters(hook, default)` if it exists. */
  function Resolve(env: Env, s: Setting): (r: Probed<string>)
    ensures r.value == FreshValue(env, s)
    ensures !env.hasConfig && !env.hasApplyFilters ==> r.value == s.fallback
    ensures !env.hasApplyFilters && env.hasConfig ==> r.value == env.configValue(s.configKey).GetOr(s.fallback)
    ensures env.hasApplyFilters ==> exists v :: r.value == env.filter(s.filterHook, v)
    ensures ReadConfig(s.configKey) in r.probes <==> env.hasConfig
    ensures ApplyFilters(s.filterHook) in r.probes <==> env.hasApplyFilters
    ensures forall i :: 0 <= i < |r.probes| ==> ResolutionProbe(r.probes[i])
  {
    var configProbes := [FunctionExists("config")] + (if env.hasConfig then [ReadConfig(s.configKey)] else []);
    var default := if env.hasConfig then env.configValue(s.configKey).GetOr(s.fallback) else s.fallback;
    var filterProbes := [FunctionExists("apply_filters")] + (if env.hasApplyFilters then [ApplyFilters(s.filterHook)] else []);
    var resolved := if env.hasApplyFilters then env.filter(s.filterHook, default) else default;
    Probed(resolved, configProbes + filterProbes)
  }

  /** `getNamespace()`: the cached namespace if set, else the resolved one, which is
      then cached. No other cache changes. */
  function GetNamespace(d: Detector, env: Env): (r: Answer<string>)
    ensures d.namespaceCache.Some? ==> r == Answer(d.namespaceCache.value, d, [])
    ensures d.namespaceCache.None? ==> && r.value == FreshValue(env, NamespaceSetting)
                                       && r.detector == d.(namespaceCache := Some(r.value))
                                       && r.probes != []
    ensures r.detector.namespaceCache == Some(r.value)
    ensures forall i :: 0 <= i < |r.probes| ==> ResolutionProbe(r.probes[i])
  {
    match d.namespaceCache
    case Some(ns) => Answer(ns, d, [])
    case None =>
      var resolved := Resolve(env, NamespaceSetting);
      Answer(resolved.value, d.(namespaceCache := Some(resolved.value)), resolved.probes)
  }

  /** `getAction()`: like `getNamespace()`, with its own cache and the default
      `wonolog.log`. */
  function GetAction(d: Detector, env: Env): (r: Answer<string>)
    ensures d.actionCache.Some? ==> r == Answer(d.actionCache.value, d, [])
    ensures d.actionCache.None? ==> && r.value == FreshValue(env, ActionSetting)
                                    && r.detector == d.(actionCache := Some(r.value))
                                    && r.probes != []
    ensures r.detector.actionCache == Some(r.value)
  {
    match d.actionCache
    case Some(action) => Answer(action, d, [])
    case None =>
      var resolved := Resolve(env, ActionSetting);
      Answer(resolved.value, d.(actionCache := Some(resolved.value)), resolved.probes)
  }

  /** `isActive()`: the cached flag if set; otherwise the capability chain, stopping
      at the first check that fails, whose outcome is cached. Reaching the class check
      goes through `getNamespace()` and so fills the namespace cache; the action cache
      is never touched. */
  function IsActive(d: Detector, env: Env): (r: Answer<bool>)
    ensures d.activeCache.Some? ==> r == Answer(d.activeCache.value, d, [])
    ensures d.activeCache.None? ==>
      && r.value == ActiveUnder(env, GetNamespace(d, env).value)
      && r.detector.activeCache == Some(r.value)
      && r.detector.actionCache == d.actionCache
      && r.detector.namespaceCache == (if env.hasDidAction then Some(GetNamespace(d, env).value) else d.namespaceCache)
      && r.probes != [] && r.probes[0] == FunctionExists("did_action")
    ensures d.activeCache.None? && !env.hasDidAction ==>
      r == Answer(false, d.(activeCache := Some(false)), [FunctionExists("did_action")])
    ensures d.activeCache.None? ==>
      (r.probes[|r.probes| - 1].DidAction? <==> ChainPasses(env, GetNamespace(d, env).value))
    ensures d.activeCache.None? ==>
      ((exists i :: 0 <= i < |r.probes| && r.probes[i].DidAction?)
         <==> ChainPasses(env, GetNamespace(d, env).value))
    ensures d.activeCache.None? ==>
      ((exists i :: 0 <= i < |r.probes| && r.probes[i].Defined?)
         <==> env.hasDidAction && env.classExists(ConfiguratorClass(GetNamespace(d, env).value)))
  {
    if d.activeCache.Some? then
      Answer(d.activeCache.value, d, [])
    else if !env.hasDidAction then
      Answer(false, d.(activeCache := Some(false)), [FunctionExists("did_action")])
    else
      var ns := GetNamespace(d, env);
      var configurator := ConfiguratorClass(ns.value);
      var classProbes := [FunctionExists("did_action")] + ns.probes + [ClassExists(configurator)];
      if !env.classExists(configurator) then
        Answer(false, ns.detector.(activeCache := Some(false)), classProbes)
      else
        var constant := configurator + SetupConstantSuffix;
        var definedProbes := classProbes + [Defined(constant)];
        match env.constantOf(constant)
        case None =>
          Answer(false, ns.detector.(activeCache := Some(false)), definedProbes)
        case Some(setupAction) =>
          var triggered := env.fireCount(setupAction) > 0;
          var probes := definedProbes + [ReadConstant(constant), DidAction(setupAction)];
          assert probes[|classProbes|].Defined?;
          Answer(triggered, ns.detector.(activeCache := Some(triggered)), probes)
  }

  /** On a coherent detector `isActive()` answers what a fresh detector would and
      leaves the detector coherent. */
  lemma IsActiveOnCoherent(d: Detector, env: Env)
    requires Coherent(d, env)
    ensures IsActive(d, env).value == FreshActive(env)
    ensures Coherent(IsActive(d, env).detector, env)
  {
  }

  /** `resetCache()`: every cache empty again. */
  function ResetCache(d: Detector): (r: Detector)
    ensures r.activeCache.None? && r.namespaceCache.None? && r.actionCache.None?
  {
    Fresh
  }
}
