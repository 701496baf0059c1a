/**
 * `createWebpackConfig(buildConfig, pluginConfig, userConfig)`: the rules, the
 * plugins and the Babel config put together with the build's output and resolve
 * settings, then the default polyfills, the compatibility config, the user's
 * `extra` config and finally the user's `config()` hook.
 */
module WebpackConfig {
  import opened Js
  import opened Merge
  import Babel
  import WebpackRules
  import WebpackPlugins

  /** `require.resolve('../polyfills')` */
  const PolyfillsPath := Path("nwb/polyfills.js")
  /** nwb's own `node_modules`, where loaders are looked up after the project's. */
  const OwnNodeModules := Path("nwb/node_modules")

  /** The build config keys that shape parts of the config instead of being copied into it. */
  const ShapingKeys := ["babel", "entry", "output", "polyfill", "plugins", "resolve", "rules", "server"]

  /** `userConfig.webpack || {}` */
  function UserWebpack(userConfig: Value): Value
  {
    var uw := Get(userConfig, "webpack");
    if Truthy(uw) then uw else Obj([])
  }

  /** The user's `publicPath`, when the user's webpack config has the key at all. */
  function UserOutput(uw: Value): Value
  {
    if Has(uw, "publicPath") then Obj1("publicPath", Get(uw, "publicPath")) else Obj([])
  }

  /** The user's `aliases`, when they are set, as `resolve.alias`. */
  function UserResolve(uw: Value): Value
  {
    if Truthy(Get(uw, "aliases")) then Obj1("alias", Get(uw, "aliases")) else Obj([])
  }

  /** `server = false` in the destructuring of the build config. */
  function Server(build: Value): Value
  {
    Babel.OrDefault(Get(build, "server"), Bool(false))
  }

  function Mode(env: WebpackPlugins.Env): string
  {
    if WebpackPlugins.Production(env) then "production" else "development"
  }

  /** The build's rule config must be an object the babel loader config can be set on. */
  predicate RulesReady(build: Value)
  {
    Get(build, "rules").Undef? || Get(build, "rules").Obj?
  }

  /** The build's rule config with the generated Babel config as the babel loader's options. */
  function RulesConfig(build: Value, babel: Value): (r: Value)
    requires RulesReady(build)
    ensures r.Obj?
    ensures Get(Get(r, "babel"), "options") == babel
    ensures forall j :: j != "babel" ==> Get(r, j) == Get(Get(build, "rules"), j)
  {
    Set(Babel.OrDefault(Get(build, "rules"), Obj([])), "babel", Obj1("options", babel))
  }

  /** `module`: the rules, and missing exports as errors. */
  function ModuleConfig(build: Value, pc: Value, userConfig: Value, nwbTest: bool, babel: Value): Value
    requires RulesReady(build)
  {
    var uw := UserWebpack(userConfig);
    Obj([Prop("rules", Arr(WebpackRules.Rules(Truthy(Server(build)), RulesConfig(build, babel), uw, pc, nwbTest))),
         Prop("strictExportPresence", Bool(true))])
  }

  /** `output`: the build's output, then the user's public path. */
  function OutputConfig(build: Value, uw: Value): Value
  {
    Assign(Assign(Obj([]), Get(build, "output")), UserOutput(uw))
  }

  /** `resolve`: the build's resolve config merged with the user's aliases. */
  function ResolveConfig(build: Value, uw: Value): Value
  {
    WebpackMerge(Babel.OrDefault(Get(build, "resolve"), Obj([])), UserResolve(uw))
  }

  /** The generated config before the entry and the user's additions: the fixed parts,
      the plugin setup, then the rest of the build config copied over them. */
  function BaseConfig(build: Value, pc: Value, userConfig: Value, env: WebpackPlugins.Env, nwbTest: bool, babel: Value): (r: Value)
    requires RulesReady(build)
    ensures r.Obj?
  {
    var uw := UserWebpack(userConfig);
    Assemble(Mode(env), ModuleConfig(build, pc, userConfig, nwbTest, babel), OutputConfig(build, uw),
             WebpackPlugins.Plugins(Server(build), Babel.OrDefault(Get(build, "plugins"), Obj([])), uw, env),
             ResolveConfig(build, uw), build)
  }

  /** The config object: the parts in their order, then the other build config keys. */
  function Assemble(mode: string, moduleConfig: Value, output: Value, setup: WebpackPlugins.PluginSetup, resolve: Value, build: Value): (r: Value)
    ensures r.Obj?
  {
    Assign(Obj(Parts(mode, moduleConfig, output, setup, resolve)), Without(build, ShapingKeys))
  }

  function Parts(mode: string, moduleConfig: Value, output: Value, setup: WebpackPlugins.PluginSetup, resolve: Value): seq<Prop>
  {
    [Prop("mode", Str(mode)),
     Prop("module", moduleConfig),
     Prop("output", output),
     Prop("performance", Obj1("hints", Bool(false))),
     Prop("optimization", WebpackPlugins.OptimizationValue(setup.optimization)),
     Prop("plugins", Arr(setup.plugins)),
     Prop("resolve", resolve),
     Prop("resolveLoader", Obj1("modules", Arr([Str("node_modules"), OwnNodeModules])))]
  }

  /** The entry shapes the polyfills can be added to: an array, or an object whose
      first chunk is an array. */
  predicate ExtensibleEntry(entry: Value)
  {
    entry.Arr? || (entry.Obj? && Keys(entry) != [] && Get(entry, Keys(entry)[0]).Arr?)
  }

  /** `addPolyfillsToEntry(entry)`: the polyfills module goes first in the entry array,
      or in the first chunk of an entry object. */
  function AddPolyfills(entry: Value): (r: Value)
    requires ExtensibleEntry(entry)
    ensures entry.Arr? ==> r.Arr? && |r.elems| == |entry.elems| + 1
                           && r.elems[0] == PolyfillsPath && r.elems[1..] == entry.elems
    ensures entry.Obj? ==> var k := Keys(entry)[0];
      && r.Obj? && Keys(r) == Keys(entry)
      && Get(r, k).Arr? && |Get(r, k).elems| == |Get(entry, k).elems| + 1
      && Get(r, k).elems[0] == PolyfillsPath && Get(r, k).elems[1..] == Get(entry, k).elems
      && forall j :: j != k ==> Get(r, j) == Get(entry, j)
  {
    if entry.Arr? then Arr([PolyfillsPath] + entry.elems)
    else
      var k := Keys(entry)[0];
      assert Has(entry, k);
      Set(entry, k, Arr([PolyfillsPath] + Get(entry, k).elems))
  }

  /** Polyfills are added unless the build or the user turns them off. */
  predicate Polyfilled(build: Value, userConfig: Value)
  {
    Get(build, "polyfill") != Bool(false) && Get(userConfig, "polyfill") != Bool(false)
  }

  /** What the entry handling needs: an entry that gets polyfills has a shape they can be added to. */
  predicate EntryReady(build: Value, userConfig: Value)
  {
    Truthy(Get(build, "entry")) && Polyfilled(build, userConfig) ==> ExtensibleEntry(Get(build, "entry"))
  }

  /** The build's entry, with the polyfills unless they are turned off, when there is one. */
  function WithEntry(config: Value, build: Value, userConfig: Value): (r: Value)
    requires config.Obj? && EntryReady(build, userConfig)
    ensures r.Obj?
  {
    var entry := Get(build, "entry");
    if Truthy(entry) then Set(config, "entry", if Polyfilled(build, userConfig) then AddPolyfills(entry) else entry)
    else config
  }

  /** The compatibility config, merged in when the user enables a library. */
  function WithCompat(config: Value, uw: Value): Value
    requires WebpackPlugins.CompatReady(Get(uw, "compat"))
  {
    var compat := Get(uw, "compat");
    if Truthy(compat) && WebpackPlugins.CompatConfig(compat).Some? then WebpackMerge(config, WebpackPlugins.CompatConfig(compat).value)
    else config
  }

  /** The user's `extra` config, merged in last. */
  function WithExtra(config: Value, uw: Value): Value
  {
    var extra := Get(uw, "extra");
    if Truthy(extra) then WebpackMerge(config, extra) else config
  }

  const HookErrorTail := " didn't return anything - it must return the Webpack config object."

  function HookError(path: string): UserError
  {
    UserError("webpack.config() in " + path + HookErrorTail)
  }

  /** The user's `config()` hook, when it is a function, gets the last word; a falsy
      result is the user's mistake. */
  function ApplyHook(hook: Value, config: Value, path: string, apply: (string, Value) -> Value): Result<Value>
  {
    if hook.Fn? then
      var r := apply(hook.name, config);
      if Truthy(r) then Success(r) else Failure(HookError(path))
    else Success(config)
  }

  /** What the source demands of its inputs. */
  predicate Ready(build: Value, userConfig: Value)
  {
    && UserWebpack(userConfig).Obj?
    && RulesReady(build)
    && WebpackPlugins.CompatReady(Get(UserWebpack(userConfig), "compat"))
    && EntryReady(build, userConfig)
  }

  /** The config before the user's hook, given the generated Babel config. */
  function GeneratedConfig(build: Value, pc: Value, userConfig: Value, env: WebpackPlugins.Env, nwbTest: bool, babel: Value): Value
    requires Ready(build, userConfig)
  {
    var uw := UserWebpack(userConfig);
    WithExtra(WithCompat(WithEntry(BaseConfig(build, pc, userConfig, env, nwbTest, babel), build, userConfig), uw), uw)
  }

  /** `userConfig.path` as the webpack hook's error message shows it. */
  function ConfigPath(userConfig: Value): string
  {
    PropertyKey(Get(userConfig, "path"))
  }

  /** `userConfig.path` as `createBabelConfig` receives it: its parameter defaults to the
      empty string when the path is undefined. */
  function BabelConfigPath(userConfig: Value): (r: string)
    ensures Get(userConfig, "path").Undef? ==> r == ""
    ensures IsString(Get(userConfig, "path")) ==> r == ConfigPath(userConfig)
  {
    var path := Get(userConfig, "path");
    if path.Undef? then "" else PropertyKey(path)
  }

  function BabelOf(build: Value, userConfig: Value, apply: (string, Value) -> Value): Result<Value>
  {
    Babel.BabelConfig(Babel.OrDefault(Get(build, "babel"), Obj([])), Get(userConfig, "babel"), BabelConfigPath(userConfig), apply)
  }

  /** The result of `createWebpackConfig`: a Babel failure, or the generated config as
      the user's hook leaves it. */
  function WebpackConfig(build: Value, pc: Value, userConfig: Value, env: WebpackPlugins.Env, nwbTest: bool,
                         apply: (string, Value) -> Value): Result<Value>
    requires Ready(build, userConfig)
  {
    var babel := BabelOf(build, userConfig, apply);
    if babel.Failure? then Failure(babel.error)
    else ApplyHook(Get(UserWebpack(userConfig), "config"), GeneratedConfig(build, pc, userConfig, env, nwbTest, babel.value),
                   ConfigPath(userConfig), apply)
  }

  /** The config assembled step by step, as `createWebpackConfig` does. */
  method CreateWebpackConfig(build: Value, pc: Value, userConfig: Value, env: WebpackPlugins.Env, nwbTest: bool,
                             apply: (string, Value) -> Value) returns (r: Result<Value>)
    requires Ready(build, userConfig)
    ensures r == WebpackConfig(build, pc, userConfig, env, nwbTest, apply)
  {
    var uw := Get(userConfig, "webpack");
    if !Truthy(uw) {
      uw := Obj([]);
    }
    var path := PropertyKey(Get(userConfig, "path"));
    var babelPath := BabelConfigPath(userConfig);
    var babel := Babel.CreateBabelConfig(Babel.OrDefault(Get(build, "babel"), Obj([])), Get(userConfig, "babel"), babelPath, apply);
    if babel.Failure? {
      return Failure(babel.error);
    }
    var config := CreateBaseConfig(build, pc, userConfig, env, nwbTest, babel.value);
    config := AddEntry(config, build, userConfig);
    config := MergeCompat(config, uw);
    config := MergeExtra(config, uw);
    r := RunHook(Get(uw, "config"), config, path, apply);
  }

  /** The fixed parts, the rules, the plugin setup and the rest of the build config. */
  method CreateBaseConfig(build: Value, pc: Value, userConfig: Value, env: WebpackPlugins.Env, nwbTest: bool, babel: Value)
    returns (config: Value)
    requires Ready(build, userConfig)
    ensures config == BaseConfig(build, pc, userConfig, env, nwbTest, babel)
  {
    var uw := UserWebpack(userConfig);
    var output := CreateOutputConfig(build, uw);
    var resolve := CreateResolveConfig(build, uw);
    var moduleConfig := CreateModuleConfig(build, pc, userConfig, nwbTest, babel);
    var optimization, plugins := WebpackPlugins.CreatePlugins(Server(build), Babel.OrDefault(Get(build, "plugins"), Obj([])), uw, env);
    config := Assemble(Mode(env), moduleConfig, output, WebpackPlugins.PluginSetup(optimization, plugins), resolve, build);
  }

  /** The build's output, with the user's public path when the user has the key. */
  method CreateOutputConfig(build: Value, uw: Value) returns (output: Value)
    ensures output == OutputConfig(build, uw)
  {
    var userOutput := Obj([]);
    if Has(uw, "publicPath") {
      userOutput := Set(userOutput, "publicPath", Get(uw, "publicPath"));
    }
    output := Assign(Assign(Obj([]), Get(build, "output")), userOutput);
  }

  /** The build's resolve config, merged with the user's aliases when they are set. */
  method CreateResolveConfig(build: Value, uw: Value) returns (resolve: Value)
    ensures resolve == ResolveConfig(build, uw)
  {
    var userResolve := Obj([]);
    if Truthy(Get(uw, "aliases")) {
      userResolve := Set(userResolve, "alias", Get(uw, "aliases"));
    }
    resolve := WebpackMerge(Babel.OrDefault(Get(build, "resolve"), Obj([])), userResolve);
  }

  /** The Babel config set as the babel loader's options, then the rules. */
  method CreateModuleConfig(build: Value, pc: Value, userConfig: Value, nwbTest: bool, babel: Value) returns (moduleConfig: Value)
    requires RulesReady(build)
    ensures moduleConfig == ModuleConfig(build, pc, userConfig, nwbTest, babel)
  {
    var rulesConfig := Babel.OrDefault(Get(build, "rules"), Obj([]));
    rulesConfig := Set(rulesConfig, "babel", Obj1("options", babel));
    assert rulesConfig == RulesConfig(build, babel);
    var rules := WebpackRules.CreateRules(Truthy(Server(build)), rulesConfig, UserWebpack(userConfig), pc, nwbTest);
    moduleConfig := Obj([Prop("rules", Arr(rules)), Prop("strictExportPresence", Bool(true))]);
  }

  /** Sets the entry, with the polyfills in front unless they are turned off. */
  method AddEntry(config: Value, build: Value, userConfig: Value) returns (r: Value)
    requires config.Obj? && EntryReady(build, userConfig)
    ensures r == WithEntry(config, build, userConfig)
  {
    r := config;
    var entry := Get(build, "entry");
    if Truthy(entry) {
      if Get(build, "polyfill") != Bool(false) && Get(userConfig, "polyfill") != Bool(false) {
        entry := AddPolyfills(entry);
      }
      r := Set(r, "entry", entry);
    }
  }

  method MergeCompat(config: Value, uw: Value) returns (r: Value)
    requires WebpackPlugins.CompatReady(Get(uw, "compat"))
    ensures r == WithCompat(config, uw)
  {
    r := config;
    var compat := Get(uw, "compat");
    if Truthy(compat) {
      var compatConfig := WebpackPlugins.GetCompatConfig(compat, Keys(compat));
      if compatConfig.Some? {
        r := WebpackMerge(r, compatConfig.value);
      }
    }
  }

  method MergeExtra(config: Value, uw: Value) returns (r: Value)
    ensures r == WithExtra(config, uw)
  {
    r := config;
    var extra := Get(uw, "extra");
    if Truthy(extra) {
      r := WebpackMerge(r, extra);
    }
  }

  /** Hands the config to the user's `config()` hook when there is one. */
  method RunHook(hook: Value, config: Value, path: string, apply: (string, Value) -> Value) returns (r: Result<Value>)
    ensures r == ApplyHook(hook, config, path, apply)
  {
    if hook.Fn? {
      var result := apply(hook.name, config);
      if !Truthy(result) {
        return Failure(HookError(path));
      }
      return Success(result);
    }
    return Success(config);
  }

  // ---------------------------------------------------------------------------
  // Properties

  /** The keys the build config cannot displace keep the generated parts. */
  lemma AssembledOutput(mode: string, moduleConfig: Value, output: Value, setup: WebpackPlugins.PluginSetup, resolve: Value, build: Value)
    ensures Get(Assemble(mode, moduleConfig, output, setup, resolve, build), "output") == output
  {
    LookupUnshadowed(Parts(mode, moduleConfig, output, setup, resolve), 2);
  }

  lemma AssembledPlugins(mode: string, moduleConfig: Value, output: Value, setup: WebpackPlugins.PluginSetup, resolve: Value, build: Value)
    ensures Get(Assemble(mode, moduleConfig, output, setup, resolve, build), "plugins") == Arr(setup.plugins)
  {
    LookupUnshadowed(Parts(mode, moduleConfig, output, setup, resolve), 5);
  }

  lemma AssembledResolve(mode: string, moduleConfig: Value, output: Value, setup: WebpackPlugins.PluginSetup, resolve: Value, build: Value)
    ensures Get(Assemble(mode, moduleConfig, output, setup, resolve, build), "resolve") == resolve
  {
    LookupUnshadowed(Parts(mode, moduleConfig, output, setup, resolve), 6);
  }

  /** `mode` as generated, unless the build config sets it. */
  lemma AssembledMode(mode: string, moduleConfig: Value, output: Value, setup: WebpackPlugins.PluginSetup, resolve: Value, build: Value)
    ensures Get(Assemble(mode, moduleConfig, output, setup, resolve, build), "mode")
         == if Has(build, "mode") then Get(build, "mode") else Str(mode)
  {
    var ps := Parts(mode, moduleConfig, output, setup, resolve);
    LookupUnshadowed(ps, 0);
    assert |"mode"| == 4;
    assert forall j :: j in ShapingKeys ==> |j| != 4;
  }

  /** `mode` is production exactly in the production environment, unless the build
      config sets it; the output, the plugins and the resolve config are the generated ones. */
  lemma GeneratedParts(build: Value, pc: Value, userConfig: Value, env: WebpackPlugins.Env, nwbTest: bool, babel: Value)
    requires RulesReady(build)
    ensures var c := BaseConfig(build, pc, userConfig, env, nwbTest, babel);
      var uw := UserWebpack(userConfig);
      && Get(c, "mode") == (if Has(build, "mode") then Get(build, "mode")
                             else Str(if env.nodeEnv == "production" then "production" else "development"))
      && Get(c, "output") == OutputConfig(build, uw)
      && Get(c, "plugins") == Arr(WebpackPlugins.PluginList(Server(build), Babel.OrDefault(Get(build, "plugins"), Obj([])), uw, env))
      && Get(c, "resolve") == ResolveConfig(build, uw)
  {
    var uw := UserWebpack(userConfig);
    AssembledMode(Mode(env), ModuleConfig(build, pc, userConfig, nwbTest, babel), OutputConfig(build, uw),
                  WebpackPlugins.Plugins(Server(build), Babel.OrDefault(Get(build, "plugins"), Obj([])), uw, env),
                  ResolveConfig(build, uw), build);
    AssembledOutput(Mode(env), ModuleConfig(build, pc, userConfig, nwbTest, babel), OutputConfig(build, uw),
                   WebpackPlugins.Plugins(Server(build), Babel.OrDefault(Get(build, "plugins"), Obj([])), uw, env),
                   ResolveConfig(build, uw), build);
    AssembledPlugins(Mode(env), ModuleConfig(build, pc, userConfig, nwbTest, babel), OutputConfig(build, uw),
                   WebpackPlugins.Plugins(Server(build), Babel.OrDefault(Get(build, "plugins"), Obj([])), uw, env),
                   ResolveConfig(build, uw), build);
    AssembledResolve(Mode(env), ModuleConfig(build, pc, userConfig, nwbTest, babel), OutputConfig(build, uw),
                   WebpackPlugins.Plugins(Server(build), Babel.OrDefault(Get(build, "plugins"), Obj([])), uw, env),
                   ResolveConfig(build, uw), build);
  }

  /** The output is the build's, except that the user's `publicPath` wins whenever the
      user's webpack config has the key, even with an undefined value. */
  lemma PublicPath(build: Value, uw: Value, k: string)
    ensures Get(OutputConfig(build, uw), k)
         == if k == "publicPath" && Has(uw, "publicPath") then Get(uw, "publicPath") else Get(Get(build, "output"), k)
  {
    GetLiteral1(Prop("publicPath", Get(uw, "publicPath")), k);
  }

  /** The user's aliases become `resolve.alias`, merged over the build's aliases. */
  lemma Aliases(build: Value, uw: Value)
    ensures var br := Babel.OrDefault(Get(build, "resolve"), Obj([]));
      var aliases := Get(uw, "aliases");
      Get(ResolveConfig(build, uw), "alias")
      == if !Truthy(aliases) then Get(br, "alias")
         else if Has(br, "alias") then MergeValue(Concat, Get(br, "alias"), aliases)
         else aliases
  {
    var br := Babel.OrDefault(Get(build, "resolve"), Obj([]));
    var ur := UserResolve(uw);
    var layers := [br, ur];
    assert layers[..1] == [br];
    LayerStep(Concat, layers, "alias");
    SingleLayer(Concat, br, "alias");
    GetLiteral1(Prop("alias", Get(uw, "aliases")), "alias");
  }

  /** An array entry gets the polyfills first unless they are turned off; without an
      entry the config has none. */
  lemma EntryPolyfills(config: Value, build: Value, userConfig: Value)
    requires config.Obj? && EntryReady(build, userConfig)
    ensures var entry := Get(build, "entry");
      var r := WithEntry(config, build, userConfig);
      && (!Truthy(entry) ==> r == config)
      && (Truthy(entry) && !Polyfilled(build, userConfig) ==> Get(r, "entry") == entry)
      && (Truthy(entry) && Polyfilled(build, userConfig) && entry.Arr? ==>
            Get(r, "entry") == Arr([PolyfillsPath] + entry.elems))
  {
  }

  /** The compatibility plugins come after all the generated plugins. */
  lemma CompatPluginsLast(config: Value, uw: Value, ps: seq<Value>)
    requires config.Obj? && Get(config, "plugins") == Arr(ps)
    requires WebpackPlugins.CompatReady(Get(uw, "compat"))
    requires Truthy(Get(uw, "compat"))
    requires WebpackPlugins.AnyKnownEnabled(Get(uw, "compat"), Keys(Get(uw, "compat")))
    ensures var compat := Get(uw, "compat");
      Get(WithCompat(config, uw), "plugins") == Arr(ps + WebpackPlugins.CompatPlugins(compat, Keys(compat)))
  {
    var compat := Get(uw, "compat");
    var libs := Keys(compat);
    WebpackPlugins.CompatNoneIffNothingEnabled(compat);
    var l :| l in libs && Truthy(Get(compat, l)) && WebpackPlugins.KnownCompatLib(l);
    var cc := WebpackPlugins.CompatConfig(compat).value;
    WebpackPlugins.CompatConfigPlugins(compat);
    ArraysConcatenated(config, cc, "plugins");
  }

  /** Merging arrays at the same key concatenates them. */
  lemma ArraysConcatenated(a: Value, b: Value, k: string)
    requires a.Obj? && Get(a, k).Arr? && Get(b, k).Arr?
    ensures Get(WebpackMerge(a, b), k) == Arr(Get(a, k).elems + Get(b, k).elems)
  {
    var layers := [a, b];
    assert layers[..1] == [a];
    LayerStep(Concat, layers, k);
    SingleLayer(Concat, a, k);
  }

  /** The user's `extra` config has the last word on a key it gives a scalar value;
      a key it does not have keeps the generated value. */
  lemma ExtraPrecedence(config: Value, uw: Value, k: string)
    requires config.Obj? && Get(uw, "extra").Obj?
    requires Has(Get(uw, "extra"), k) ==> Scalar(Get(Get(uw, "extra"), k))
    ensures Get(WithExtra(config, uw), k) == if Has(Get(uw, "extra"), k) then Get(Get(uw, "extra"), k) else Get(config, k)
  {
    var layers := [config, Get(uw, "extra")];
    assert layers[..1] == [config];
    LayerPrecedence(Concat, layers, k);
    SingleLayer(Concat, config, k);
  }

  /** An array in the user's `extra` config extends the generated array at the same key. */
  lemma ExtraArraysAppend(config: Value, uw: Value, k: string)
    requires config.Obj? && Get(uw, "extra").Obj?
    requires Get(config, k).Arr? && Get(Get(uw, "extra"), k).Arr?
    ensures Get(WithExtra(config, uw), k) == Arr(Get(config, k).elems + Get(Get(uw, "extra"), k).elems)
  {
    ArraysConcatenated(config, Get(uw, "extra"), k);
  }

  /** A Babel failure is the outcome of the whole config. */
  lemma BabelFailureStops(build: Value, pc: Value, userConfig: Value, env: WebpackPlugins.Env, nwbTest: bool,
                          apply: (string, Value) -> Value)
    requires Ready(build, userConfig) && BabelOf(build, userConfig, apply).Failure?
    ensures WebpackConfig(build, pc, userConfig, env, nwbTest, apply) == Failure(BabelOf(build, userConfig, apply).error)
  {
  }

  /** The hook's falsy result is the user's mistake; a truthy one is the config; without
      a hook the config stands. */
  lemma HookOutcome(hook: Value, config: Value, path: string, apply: (string, Value) -> Value)
    ensures var r := ApplyHook(hook, config, path, apply);
      && (!hook.Fn? ==> r == Success(config))
      && (hook.Fn? ==>
            && (r.Failure? <==> !Truthy(apply(hook.name, config)))
            && (r.Failure? ==> r.error == HookError(path))
            && (r.Success? ==> r.value == apply(hook.name, config)))
  {
  }
}
