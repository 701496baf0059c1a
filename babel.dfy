/**
 * The Babel configuration builder (lib/createBabelConfig.js). A build profile
 * and the user's `babel` config give the presets and plugins of babel-loader:
 * the env preset first, then build presets (with the `react-prod` shorthand
 * expanded into plugins), the stage preset, and the user's presets; plugins are
 * the react-prod and decorator plugins, build plugins, user plugins, then the
 * optional prop-types, runtime, dynamic-import, module-exports and lodash
 * plugins. A user `config()` hook gets the last word. Module paths resolved by
 * the host are `Path` tokens.
 */
module Babel {
  import opened Js

  const DefaultStage := 2
  const RuntimePath := Path("babel-runtime")
  const ReactProd := Str("react-prod")

  const EnvPresetPath := Path("babel-preset-env")
  const ConstantElementsPlugin := Path("babel-plugin-transform-react-constant-elements")
  const RemovePropTypesPath := Path("babel-plugin-transform-react-remove-prop-types")
  const DecoratorsPlugin := Path("babel-plugin-transform-decorators-legacy")
  const RuntimePluginPath := Path("babel-plugin-transform-runtime")
  const DynamicImportPlugin := Path("babel-plugin-syntax-dynamic-import")
  const ModuleExportsPlugin := Path("babel-plugin-add-module-exports")
  const LodashPluginPath := Path("babel-plugin-lodash")

  /** A destructuring default: the default replaces `undefined` only. */
  function OrDefault(v: Value, d: Value): Value
  {
    if v.Undef? then d else v
  }

  /** `typeof v === 'object' ? v : {}` (so `null` and arrays pass through). */
  function ObjectOrEmpty(v: Value): Value
  {
    if JsTypeof(v) == "object" then v else Obj([])
  }

  /** `loose` is true unless the user configured it. */
  function Loose(user: Value): Value
  {
    var loose := Get(user, "loose");
    if TypeOf(loose) == "undefined" then Bool(true) else loose
  }

  /** The options of the env preset: `{loose, modules, ...env}`. */
  function EnvOptions(build: Value, user: Value): (r: Value)
    ensures forall k :: Has(OrDefault(Get(user, "env"), Obj([])), k) ==> Get(r, k) == Get(Get(user, "env"), k)
  {
    Assign(Obj([Prop("loose", Loose(user)), Prop("modules", OrDefault(Get(build, "modules"), Bool(false)))]),
           OrDefault(Get(user, "env"), Obj([])))
  }

  function EnvPreset(build: Value, user: Value): Value
  {
    Arr([EnvPresetPath, EnvOptions(build, user)])
  }

  /** The build presets, when they are an array. */
  function BuildPresets(build: Value): seq<Value>
  {
    var p := Get(build, "presets");
    if p.Arr? then p.elems else []
  }

  /** The build presets that are passed through: every one but `react-prod`, in order. */
  function PassedPresets(bp: seq<Value>): seq<Value>
  {
    if bp == [] then []
    else PassedPresets(bp[..|bp| - 1]) + (if bp[|bp| - 1] == ReactProd then [] else [bp[|bp| - 1]])
  }

  /** The plugins one `react-prod` preset expands into. */
  function ReactProdExpansion(user: Value): seq<Value>
  {
    var rce := Get(user, "reactConstantElements");
    var rpt := Get(user, "removePropTypes");
    (if rce != Bool(false) then [ConstantElementsPlugin] else [])
    + (if rpt != Bool(false) then [Arr([RemovePropTypesPath, ObjectOrEmpty(rpt)])] else [])
  }

  /** The plugins the `react-prod` presets among the build presets expand into. */
  function ReactProdPlugins(bp: seq<Value>, user: Value): seq<Value>
  {
    if bp == [] then []
    else ReactProdPlugins(bp[..|bp| - 1], user) + (if bp[|bp| - 1] == ReactProd then ReactProdExpansion(user) else [])
  }

  /** The user's stage when it is neither null nor undefined, else the build's, else 2. */
  function EffectiveStage(build: Value, user: Value): (s: Value)
    ensures !IsNullish(Get(user, "stage")) ==> s == Get(user, "stage")
    ensures IsNullish(Get(user, "stage")) && !Get(build, "stage").Undef? ==> s == Get(build, "stage")
    ensures IsNullish(Get(user, "stage")) && Get(build, "stage").Undef? ==> s == Num(DefaultStage)
  {
    var u := Get(user, "stage");
    if !IsNullish(u) then u else OrDefault(Get(build, "stage"), Num(DefaultStage))
  }

  function StagePresets(stage: Value): seq<Value>
  {
    if stage.Num? then [Path("babel-preset-stage-" + IntToString(stage.n))] else []
  }

  /** Decorators are stage 2: the legacy transform comes with stages up to 2. */
  function StagePlugins(stage: Value): seq<Value>
  {
    if stage.Num? && stage.n <= 2 then [DecoratorsPlugin] else []
  }

  /** `presets`: env, the passed-through build presets, the stage preset, user presets. */
  function Presets(build: Value, user: Value): seq<Value>
  {
    var ps := [EnvPreset(build, user)] + PassedPresets(BuildPresets(build)) + StagePresets(EffectiveStage(build, user));
    var up := Get(user, "presets");
    if Truthy(up) then ConcatItems(ps, up) else ps
  }

  /** The prop-types removal plugin of a component build: the build's options with the user's on top. */
  function RemovePropTypesPlugins(build: Value, user: Value): seq<Value>
  {
    var b := OrDefault(Get(build, "removePropTypes"), Bool(false));
    var u := Get(user, "removePropTypes");
    if Truthy(b) && u != Bool(false) then
      [Arr([RemovePropTypesPath, Assign(Assign(Obj([]), ObjectOrEmpty(b)), ObjectOrEmpty(u))])]
    else []
  }

  /** The runtime options before the user's `runtime` setting; `named` is
      `setRuntimePath !== false`. */
  function DefaultRuntimeOptions(named: bool): Value
  {
    var base := Obj([Prop("helpers", Bool(false)), Prop("polyfill", Bool(false)), Prop("regenerator", Bool(true))]);
    if named then Set(base, "moduleName", RuntimePath) else base
  }

  /** The options of the runtime transform for the user's `runtime` setting `rt`. */
  function RuntimeOptions(rt: Value, named: bool): Value
  {
    if rt == Bool(true) then (if named then Obj1("moduleName", RuntimePath) else Obj([]))
    else if TypeOf(rt) == "string" then Set(DefaultRuntimeOptions(named), PropertyKey(rt), Bool(true))
    else DefaultRuntimeOptions(named)
  }

  function RuntimePlugins(build: Value, user: Value): seq<Value>
  {
    var rt := Get(user, "runtime");
    if rt != Bool(false) then [Arr([RuntimePluginPath, RuntimeOptions(rt, Get(build, "setRuntimePath") != Bool(false))])] else []
  }

  /** The last, feature-switched plugins: dynamic import, module exports interop, lodash. */
  function FeaturePlugins(build: Value, user: Value): seq<Value>
  {
    var cherryPick := Get(user, "cherryPick");
    (if Truthy(OrDefault(Get(build, "webpack"), Bool(true))) then [DynamicImportPlugin] else [])
    + (if Truthy(Get(build, "commonJSInterop")) then [ModuleExportsPlugin] else [])
    + (if Truthy(cherryPick) then [Arr([LodashPluginPath, Obj1("id", cherryPick)])] else [])
  }

  /** `plugins` before the optional ones are pushed: react-prod and stage plugins, then
      build plugins and user plugins as `concat` adds them. */
  function CorePlugins(build: Value, user: Value): seq<Value>
  {
    var first := ReactProdPlugins(BuildPresets(build), user) + StagePlugins(EffectiveStage(build, user));
    ConcatItems(ConcatItems(first, OrDefault(Get(build, "plugins"), Arr([]))), OrDefault(Get(user, "plugins"), Arr([])))
  }

  function Plugins(build: Value, user: Value): seq<Value>
  {
    CorePlugins(build, user) + RemovePropTypesPlugins(build, user) + RuntimePlugins(build, user) + FeaturePlugins(build, user)
  }

  /** The config before the user's hook: `plugins` only when there are some. */
  function GeneratedConfig(build: Value, user: Value): Value
  {
    ConfigOf(Presets(build, user), Plugins(build, user))
  }

  function ConfigOf(presets: seq<Value>, plugins: seq<Value>): Value
  {
    var config := Obj1("presets", Arr(presets));
    if |plugins| > 0 then Set(config, "plugins", Arr(plugins)) else config
  }

  const HookErrorTail := " didn't return anything - it must return the Babel config object."

  function HookError(path: string): UserError
  {
    UserError("babel.config() in " + path + HookErrorTail)
  }

  /** The user's `config()` hook, when it is a function, gets the last word; a falsy
      result is the user's mistake. */
  function ApplyHook(hook: Value, config: Value, path: string, apply: (string, Value) -> Value): Result<Value>
  {
    if hook.Fn? then
      var r := apply(hook.name, config);
      if Truthy(r) then Success(r) else Failure(HookError(path))
    else Success(config)
  }

  /** The result of `createBabelConfig`: the generated config, or what the user's hook made of it. */
  function BabelConfig(build: Value, user: Value, path: string, apply: (string, Value) -> Value): Result<Value>
  {
    ApplyHook(Get(user, "config"), GeneratedConfig(build, user), path, apply)
  }

  /** The `forEach` over the build presets: `react-prod` is expanded into plugins,
      every other preset is kept. */
  method ExpandBuildPresets(bp: seq<Value>, user: Value) returns (presets: seq<Value>, plugins: seq<Value>)
    ensures presets == PassedPresets(bp)
    ensures plugins == ReactProdPlugins(bp, user)
  {
    presets := [];
    plugins := [];
    var i := 0;
    while i < |bp|
      invariant 0 <= i <= |bp|
      invariant presets == PassedPresets(bp[..i])
      invariant plugins == ReactProdPlugins(bp[..i], user)
    {
      PrefixStep(bp, i);
      var preset := bp[i];
      if preset == ReactProd {
        var expansion := ExpandReactProd(user);
        plugins := plugins + expansion;
      } else {
        presets := presets + [preset];
      }
      i := i + 1;
    }
    assert bp[..i] == bp;
  }

  /** The plugins pushed for one `react-prod` preset. */
  method ExpandReactProd(user: Value) returns (plugins: seq<Value>)
    ensures plugins == ReactProdExpansion(user)
  {
    plugins := [];
    if Get(user, "reactConstantElements") != Bool(false) {
      plugins := plugins + [ConstantElementsPlugin];
    }
    var rpt := Get(user, "removePropTypes");
    if rpt != Bool(false) {
      plugins := plugins + [Arr([RemovePropTypesPath, ObjectOrEmpty(rpt)])];
    }
  }

  /** The runtime transform's options, set up and then replaced or extended. */
  method CreateRuntimeOptions(build: Value, user: Value) returns (options: Value)
    ensures options == RuntimeOptions(Get(user, "runtime"), Get(build, "setRuntimePath") != Bool(false))
  {
    var runtime := Get(user, "runtime");
    options := Obj([Prop("helpers", Bool(false)), Prop("polyfill", Bool(false)), Prop("regenerator", Bool(true))]);
    if Get(build, "setRuntimePath") != Bool(false) {
      options := Set(options, "moduleName", RuntimePath);
    }
    if runtime == Bool(true) {
      options := Obj([]);
      if Get(build, "setRuntimePath") != Bool(false) {
        options := Set(options, "moduleName", RuntimePath);
      }
    } else if TypeOf(runtime) == "string" {
      options := Set(options, PropertyKey(runtime), Bool(true));
    }
  }

  /** The presets, and the plugins the build presets and the stage bring along. */
  method CreatePresets(build: Value, user: Value) returns (presets: seq<Value>, plugins: seq<Value>)
    ensures presets == Presets(build, user)
    ensures plugins == ReactProdPlugins(BuildPresets(build), user) + StagePlugins(EffectiveStage(build, user))
  {
    var loose := Get(user, "loose");
    if TypeOf(loose) == "undefined" {
      loose := Bool(true);
    }
    var modules := OrDefault(Get(build, "modules"), Bool(false));
    var envPreset := Arr([EnvPresetPath, Assign(Obj([Prop("loose", loose), Prop("modules", modules)]), OrDefault(Get(user, "env"), Obj([])))]);
    assert envPreset == EnvPreset(build, user);
    var passed, reactProd := ExpandBuildPresets(BuildPresets(build), user);

    var stage := Get(user, "stage");
    if IsNullish(stage) {
      stage := OrDefault(Get(build, "stage"), Num(DefaultStage));
    }
    var stagePresets: seq<Value> := [];
    var stagePlugins: seq<Value> := [];
    if stage.Num? {
      stagePresets := [Path("babel-preset-stage-" + IntToString(stage.n))];
      if stage.n <= 2 {
        stagePlugins := [DecoratorsPlugin];
      }
    }
    assert stagePresets == StagePresets(EffectiveStage(build, user)) && stagePlugins == StagePlugins(EffectiveStage(build, user));
    presets := [envPreset] + passed + stagePresets;
    var userPresets := Get(user, "presets");
    if Truthy(userPresets) {
      presets := ConcatItems(presets, userPresets);
    }
    plugins := reactProd + stagePlugins;
  }

  /** The plugins: the ones the presets brought, build and user plugins, then the
      prop-types, runtime and feature plugins. */
  method CreatePlugins(build: Value, user: Value, first: seq<Value>) returns (plugins: seq<Value>)
    requires first == ReactProdPlugins(BuildPresets(build), user) + StagePlugins(EffectiveStage(build, user))
    ensures plugins == Plugins(build, user)
  {
    plugins := ConcatItems(ConcatItems(first, OrDefault(Get(build, "plugins"), Arr([]))),
                           OrDefault(Get(user, "plugins"), Arr([])));
    var runtimePlugins: seq<Value> := [];
    if Get(user, "runtime") != Bool(false) {
      var options := CreateRuntimeOptions(build, user);
      runtimePlugins := [Arr([RuntimePluginPath, options])];
    }
    plugins := plugins + RemovePropTypesPlugins(build, user) + runtimePlugins + FeaturePlugins(build, user);
  }

  /** `createBabelConfig(build, user, path)`: presets and plugins pushed step by step, then the hook. */
  method CreateBabelConfig(build: Value, user: Value, path: string, apply: (string, Value) -> Value)
    returns (r: Result<Value>)
    ensures r == BabelConfig(build, user, path, apply)
  {
    var presets, first := CreatePresets(build, user);
    var plugins := CreatePlugins(build, user, first);
    var config := BuildConfig(presets, plugins);
    r := RunHook(Get(user, "config"), config, path, apply);
  }

  /** The config object: presets, and plugins only when there are some. */
  method BuildConfig(presets: seq<Value>, plugins: seq<Value>) returns (config: Value)
    ensures config == ConfigOf(presets, plugins)
  {
    config := Obj1("presets", Arr(presets));
    if |plugins| > 0 {
      config := Set(config, "plugins", Arr(plugins));
    }
  }

  /** Hands the config to the user's `config()` hook when there is one. */
  method RunHook(hook: Value, config: Value, path: string, apply: (string, Value) -> Value) returns (r: Result<Value>)
    ensures r == ApplyHook(hook, config, path, apply)
  {
    if hook.Fn? {
      var result := apply(hook.name, config);
      if !Truthy(result) {
        return Failure(HookError(path));
      }
      return Success(result);
    }
    return Success(config);
  }

  // ---------------------------------------------------------------------------
  // Properties

  /** The first preset is always env. */
  lemma EnvPresetFirst(build: Value, user: Value)
    ensures |Presets(build, user)| > 0 && Presets(build, user)[0] == Arr([EnvPresetPath, EnvOptions(build, user)])
  {
    var ps := [EnvPreset(build, user)] + PassedPresets(BuildPresets(build)) + StagePresets(EffectiveStage(build, user));
    assert ps[0] == EnvPreset(build, user);
    var up := Get(user, "presets");
    if Truthy(up) {
      assert ConcatItems(ps, up)[0] == ps[0];
    }
  }

  /** Unless the user sets it under `env`, `loose` defaults to true. */
  lemma EnvOptionsLooseDefault(build: Value, user: Value)
    requires !Has(OrDefault(Get(user, "env"), Obj([])), "loose")
    ensures Get(EnvOptions(build, user), "loose") == if Get(user, "loose").Undef? then Bool(true) else Get(user, "loose")
  {
    GetLiteral2(Prop("loose", Loose(user)), Prop("modules", OrDefault(Get(build, "modules"), Bool(false))), "loose");
  }

  /** Unless the user sets it under `env`, `modules` is the build's setting, or false. */
  lemma EnvOptionsModulesDefault(build: Value, user: Value)
    requires !Has(OrDefault(Get(user, "env"), Obj([])), "modules")
    ensures Get(EnvOptions(build, user), "modules") == OrDefault(Get(build, "modules"), Bool(false))
  {
    GetLiteral2(Prop("loose", Loose(user)), Prop("modules", OrDefault(Get(build, "modules"), Bool(false))), "modules");
  }

  /** `react-prod` never reaches the presets; every other build preset does, in order. */
  lemma {:induction false} ReactProdNotPassed(bp: seq<Value>)
    ensures forall p :: p in PassedPresets(bp) <==> p in bp && p != ReactProd
  {
    if bp != [] {
      ReactProdNotPassed(bp[..|bp| - 1]);
      assert bp == bp[..|bp| - 1] + [bp[|bp| - 1]];
    }
  }

  /** `react-prod` brings constant-elements unless the user turns it off, and likewise
      the prop-types removal plugin. */
  lemma {:induction false} ReactProdExpands(bp: seq<Value>, user: Value)
    ensures ConstantElementsPlugin in ReactProdPlugins(bp, user)
        <==> ReactProd in bp && Get(user, "reactConstantElements") != Bool(false)
    ensures Arr([RemovePropTypesPath, ObjectOrEmpty(Get(user, "removePropTypes"))]) in ReactProdPlugins(bp, user)
        <==> ReactProd in bp && Get(user, "removePropTypes") != Bool(false)
  {
    var x := Arr([RemovePropTypesPath, ObjectOrEmpty(Get(user, "removePropTypes"))]);
    if bp != [] {
      ReactProdExpands(bp[..|bp| - 1], user);
      assert bp == bp[..|bp| - 1] + [bp[|bp| - 1]];
      if bp[|bp| - 1] == ReactProd && Get(user, "removePropTypes") != Bool(false) {
        assert x in ReactProdExpansion(user);
        assert x in ReactProdPlugins(bp, user);
      }
    }
  }

  /** A numeric stage adds its preset after the build presets, and stages up to 2 the
      decorators plugin; user presets follow the stage preset. */
  lemma PresetOrder(build: Value, user: Value)
    ensures var head := [EnvPreset(build, user)] + PassedPresets(BuildPresets(build)) + StagePresets(EffectiveStage(build, user));
      var up := Get(user, "presets");
      Presets(build, user) == head + (if !Truthy(up) then [] else if up.Arr? then up.elems else [up])
    ensures var s := EffectiveStage(build, user);
      && (s.Num? ==> StagePresets(s) == [Path("babel-preset-stage-" + IntToString(s.n))])
      && (!s.Num? ==> StagePresets(s) == [])
      && (DecoratorsPlugin in StagePlugins(s) <==> s.Num? && s.n <= 2)
  {
  }

  /** Plugin order: react-prod and decorator plugins, build plugins, user plugins, then
      the prop-types, runtime and feature plugins. */
  lemma PluginOrder(build: Value, user: Value)
    ensures var bpl := OrDefault(Get(build, "plugins"), Arr([]));
      var upl := OrDefault(Get(user, "plugins"), Arr([]));
      Plugins(build, user)
      == ReactProdPlugins(BuildPresets(build), user) + StagePlugins(EffectiveStage(build, user))
         + (if bpl.Arr? then bpl.elems else [bpl]) + (if upl.Arr? then upl.elems else [upl])
         + RemovePropTypesPlugins(build, user) + RuntimePlugins(build, user) + FeaturePlugins(build, user)
  {
  }

  /** The prop-types options of a component build: the user's keys win over the build's. */
  lemma RemovePropTypesUnion(build: Value, user: Value, k: string)
    requires Truthy(Get(build, "removePropTypes")) && Get(user, "removePropTypes") != Bool(false)
    ensures var b := ObjectOrEmpty(Get(build, "removePropTypes"));
      var u := ObjectOrEmpty(Get(user, "removePropTypes"));
      var ps := RemovePropTypesPlugins(build, user);
      && |ps| == 1 && ps[0].Arr? && |ps[0].elems| == 2
      && ps[0].elems[0] == RemovePropTypesPath
      && Get(ps[0].elems[1], k) == (if Has(u, k) then Get(u, k) else Get(b, k))
  {
  }

  /** The runtime transform is on unless `runtime` is `false`. */
  lemma RuntimeOnByDefault(build: Value, user: Value)
    ensures RuntimePlugins(build, user) == [] <==> Get(user, "runtime") == Bool(false)
    ensures Get(user, "runtime") != Bool(false) ==> RuntimePlugins(build, user)[0].elems[0] == RuntimePluginPath
  {
  }

  /** `runtime: true` resets the options to the module name alone. */
  lemma RuntimeReset(named: bool)
    ensures Keys(RuntimeOptions(Bool(true), named)) == (if named then ["moduleName"] else [])
    ensures named ==> Get(RuntimeOptions(Bool(true), named), "moduleName") == RuntimePath
  {
    GetLiteral1(Prop("moduleName", RuntimePath), "moduleName");
  }

  /** Without a `runtime` setting: helpers and polyfill off, regenerator on, and the
      module name exactly when `setRuntimePath` is not `false`. */
  lemma RuntimeDefaults(rt: Value, named: bool)
    requires rt != Bool(true) && TypeOf(rt) != "string"
    ensures var opts := RuntimeOptions(rt, named);
      && Get(opts, "helpers") == Bool(false) && Get(opts, "polyfill") == Bool(false)
      && Get(opts, "regenerator") == Bool(true)
      && (Has(opts, "moduleName") <==> named)
      && (named ==> Get(opts, "moduleName") == RuntimePath)
  {
    var base := Obj([Prop("helpers", Bool(false)), Prop("polyfill", Bool(false)), Prop("regenerator", Bool(true))]);
    GetLiteral3(base.props[0], base.props[1], base.props[2], "helpers");
    GetLiteral3(base.props[0], base.props[1], base.props[2], "polyfill");
    GetLiteral3(base.props[0], base.props[1], base.props[2], "regenerator");
    GetLiteral3(base.props[0], base.props[1], base.props[2], "moduleName");
  }

  /** A string `runtime` turns on the feature it names and leaves the other defaults. */
  lemma RuntimeFeature(s: string, named: bool, k: string)
    requires k != s
    ensures Get(RuntimeOptions(Str(s), named), s) == Bool(true)
    ensures Get(RuntimeOptions(Str(s), named), k) == Get(DefaultRuntimeOptions(named), k)
  {
  }

  /** The generated config has a `plugins` key exactly when there are plugins. */
  lemma PluginsKeyOnlyWhenNonEmpty(build: Value, user: Value)
    ensures Has(GeneratedConfig(build, user), "plugins") <==> |Plugins(build, user)| > 0
    ensures Get(GeneratedConfig(build, user), "presets") == Arr(Presets(build, user))
  {
    GetLiteral1(Prop("presets", Arr(Presets(build, user))), "plugins");
    GetLiteral1(Prop("presets", Arr(Presets(build, user))), "presets");
  }

  /** The user's hook fails the build exactly when it returns a falsy value; otherwise
      its value is the config. Without a hook the generated config is the result. */
  lemma HookOutcome(hook: Value, config: Value, path: string, apply: (string, Value) -> Value)
    ensures var r := ApplyHook(hook, config, path, apply);
      && (!hook.Fn? ==> r == Success(config))
      && (hook.Fn? ==> (r.Failure? <==> !Truthy(apply(hook.name, config))))
      && (hook.Fn? && r.Success? ==> r.value == apply(hook.name, config))
      && (r.Failure? ==> r.error == HookError(path))
  {
  }
}
