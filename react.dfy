/**
 * The React app type: its Babel presets, the aliases that swap React for Inferno or Preact
 * in a build, and the answers it gives the build, serve and quick commands. The command
 * line flags it reads are those of the `args` it was created with.
 */
module React {
  import opened Js
  import opened Profiles

  /** `require.resolve('babel-preset-react')` */
  const ReactPreset := Path("babel-preset-react")
  /** `require.resolve('./react-dev-preset')` */
  const DevPreset := Path("nwb/lib/react/react-dev-preset.js")
  /** `require.resolve('./react-hmre-preset')` */
  const HmrePreset := Path("nwb/lib/react/react-hmre-preset.js")
  /** `require.resolve('./renderShim')` */
  const RenderShim := Path("nwb/lib/react/renderShim.js")
  /** The preset the Babel config builder expands into the production-only transforms. */
  const ReactProd := Str("react-prod")

  const CreateReactClassCompat := Str("preact-compat/lib/create-react-class")

  /** `getBaseDependencies` */
  const BaseDependencies := ["react", "react-dom"]

  /** `args.inferno || args['inferno-compat']` */
  predicate InfernoCompat(args: Value)
  {
    Truthy(Get(args, "inferno")) || Truthy(Get(args, "inferno-compat"))
  }

  /** `args.preact || args['preact-compat']` */
  predicate PreactCompat(args: Value)
  {
    Truthy(Get(args, "preact")) || Truthy(Get(args, "preact-compat"))
  }

  /** `/^build/.test(args._[0])`: the command is one of the build commands. */
  predicate IsBuildCommand(args: Value)
  {
    StartsWith(PropertyKey(Positional(args, 0)), "build")
  }

  // ---------------------------------------------------------------------------
  // getBuildConfig

  /** `aliasPath`: a compat module is aliased by its installed path for quick commands and
      by its name otherwise. */
  function AliasPath(useModulePath: bool, name: string): Value
  {
    if useModulePath then ModulePath(name) else Str(name)
  }

  /** The main module of preact-compat; its `module` build would not let the render shim
      take over `render()`. */
  function PreactCompatPath(useModulePath: bool): Value
  {
    JoinPath(AliasPath(useModulePath, "preact-compat"), "dist/preact-compat")
  }

  function InfernoAliases(useModulePath: bool): Value
  {
    Obj([Prop("react", AliasPath(useModulePath, "inferno-compat")),
         Prop("react-dom", AliasPath(useModulePath, "inferno-compat"))])
  }

  function PreactAliases(useModulePath: bool): Value
  {
    Obj([Prop("react", PreactCompatPath(useModulePath)), Prop("react-dom", PreactCompatPath(useModulePath)),
         Prop("create-react-class", CreateReactClassCompat)])
  }

  /** `config.resolve`, set only for a compat build; the Inferno flags are checked first. */
  function CompatResolve(args: Value, useModulePath: bool): seq<Prop>
  {
    if InfernoCompat(args) then [Prop("resolve", Obj1("alias", InfernoAliases(useModulePath)))]
    else if PreactCompat(args) then [Prop("resolve", Obj1("alias", PreactAliases(useModulePath)))]
    else []
  }

  function BuildPresets(production: bool): seq<Value>
  {
    [ReactPreset] + (if production then [ReactProd] else [])
  }

  /** A Babel config holding only the given presets. */
  function BabelPresets(presets: seq<Value>): Value
  {
    Obj1("babel", Obj1("presets", Arr(presets)))
  }

  function BuildConfig(args: Value, useModulePath: bool, production: bool): Value
  {
    Obj([Prop("babel", Obj1("presets", Arr(BuildPresets(production))))] + CompatResolve(args, useModulePath))
  }

  /** `getBuildConfig(args, options)`: the base config with `react-prod` pushed onto its
      presets in production, and compat aliases set for `--inferno` or `--preact`. */
  method GetBuildConfig(args: Value, useModulePath: bool, production: bool) returns (config: Value)
    ensures config == BuildConfig(args, useModulePath, production)
  {
    var presets := [ReactPreset];
    if production {
      presets := presets + [ReactProd];
    }
    assert presets == BuildPresets(production);
    var props := [Prop("babel", Obj1("presets", Arr(presets)))];
    if InfernoCompat(args) {
      props := props + [Prop("resolve", Obj1("alias", InfernoAliases(useModulePath)))];
    } else if PreactCompat(args) {
      props := props + [Prop("resolve", Obj1("alias", PreactAliases(useModulePath)))];
    }
    assert props == [Prop("babel", Obj1("presets", Arr(BuildPresets(production))))] + CompatResolve(args, useModulePath);
    config := Obj(props);
  }

  // ---------------------------------------------------------------------------
  // The compat selectors

  /** `_getCompatDependencies` */
  function CompatDependencies(args: Value): seq<string>
  {
    if InfernoCompat(args) then
      ["inferno", "inferno-compat", "inferno-clone-vnode", "inferno-create-class", "inferno-create-element"]
    else if PreactCompat(args) then ["preact", "preact-compat"]
    else []
  }

  /** `_getCompatName` */
  function CompatName(args: Value): string
  {
    if InfernoCompat(args) then "Inferno (React compat)"
    else if PreactCompat(args) then "Preact (React compat)"
    else "React"
  }

  /** `getName`: compat flags name the app only for a build command. */
  function Name(args: Value): string
  {
    if IsBuildCommand(args) then CompatName(args) else "React"
  }

  /** `getQuickDependencies`: compat modules are installed only for a build command. */
  function QuickDependencies(args: Value): seq<string>
  {
    BaseDependencies + (if IsBuildCommand(args) then CompatDependencies(args) else [])
  }

  // ---------------------------------------------------------------------------
  // getServeConfig

  /** `args.hmr !== false && args.hmre !== false` */
  predicate HotReloading(args: Value)
  {
    Get(args, "hmr") != Bool(false) && Get(args, "hmre") != Bool(false)
  }

  function ServePresets(args: Value): seq<Value>
  {
    [ReactPreset, DevPreset] + (if HotReloading(args) then [HmrePreset] else [])
  }

  /** `getServeConfig`: the base config with the dev preset pushed onto its presets, then
      the hot-reloading preset unless `--hmr=false` or `--hmre=false` is given. */
  method GetServeConfig(args: Value) returns (config: Value)
    ensures config == BabelPresets(ServePresets(args))
  {
    var presets := [ReactPreset];
    presets := presets + [DevPreset];
    if HotReloading(args) {
      presets := presets + [HmrePreset];
    }
    assert presets == ServePresets(args);
    config := BabelPresets(presets);
  }

  // ---------------------------------------------------------------------------
  // Quick command config

  /** `_getQuickConfig` */
  function QuickProps(args: Value): seq<Prop>
  {
    [Prop("defaultTitle", Str(Name(args) + " App")), Prop("renderShim", RenderShim),
     Prop("renderShimAliases", Obj([Prop("react", ModulePath("react")), Prop("react-dom", ModulePath("react-dom"))]))]
  }

  /** `{commandConfig}` with the quick config's properties assigned after it. */
  function QuickConfig(command: Value, args: Value): Value
  {
    Obj([Prop("commandConfig", command)] + QuickProps(args))
  }

  /** `getQuickBuildConfig`: the build config aliasing by installed paths. */
  function QuickBuildConfig(args: Value, production: bool): Value
  {
    QuickConfig(BuildConfig(args, true, production), args)
  }

  /** `getQuickServeConfig` */
  function QuickServeConfig(args: Value): Value
  {
    QuickConfig(BabelPresets(ServePresets(args)), args)
  }

  /** What `new ReactConfig(args)` tells the commands. */
  function ReactProfile(args: Value, production: bool): Profile
  {
    Profile(Name(args), CompatDependencies(args), BuildConfig(args, false, production),
            BabelPresets(ServePresets(args)), QuickDependencies(args),
            QuickBuildConfig(args, production), QuickServeConfig(args))
  }

  // ---------------------------------------------------------------------------
  // Properties

  /** The presets of a build config. */
  lemma BuildConfigPresets(args: Value, useModulePath: bool, production: bool)
    ensures Get(Get(BuildConfig(args, useModulePath, production), "babel"), "presets") == Arr(BuildPresets(production))
  {
    var tail := CompatResolve(args, useModulePath);
    var head := [Prop("babel", Obj1("presets", Arr(BuildPresets(production))))];
    if tail != [] {
      assert tail[..0] == [];
    }
    LookupAppend(head, tail, "babel");
    GetLiteral1(head[0], "babel");
    GetLiteral1(Prop("presets", Arr(BuildPresets(production))), "presets");
  }

  /** `react-prod` is a build preset exactly in production, after the React preset. */
  lemma ReactProdOnlyInProduction(production: bool)
    ensures BuildPresets(production)[0] == ReactPreset
    ensures ReactProd in BuildPresets(production) <==> production
    ensures |BuildPresets(production)| == if production then 2 else 1
  {
  }

  /** A build is given compat aliases exactly when a compat flag is set. */
  lemma CompatAliasesPresent(args: Value, useModulePath: bool, production: bool)
    ensures Has(BuildConfig(args, useModulePath, production), "resolve") <==> InfernoCompat(args) || PreactCompat(args)
    ensures InfernoCompat(args) || PreactCompat(args) ==>
      Get(BuildConfig(args, useModulePath, production), "resolve") == CompatResolve(args, useModulePath)[0].val
  {
    var tail := CompatResolve(args, useModulePath);
    var head := [Prop("babel", Obj1("presets", Arr(BuildPresets(production))))];
    if tail != [] {
      assert tail[..0] == [];
    }
    LookupAppend(head, tail, "resolve");
    PropKeysAppend(head, tail);
  }

  /** The Inferno flags win over the Preact flags for the aliases, the dependencies and the name. */
  lemma InfernoTakesPrecedence(args: Value, useModulePath: bool)
    requires InfernoCompat(args)
    ensures CompatResolve(args, useModulePath) == [Prop("resolve", Obj1("alias", InfernoAliases(useModulePath)))]
    ensures CompatDependencies(args)[0] == "inferno" && "preact" !in CompatDependencies(args)
    ensures CompatName(args) == "Inferno (React compat)"
  {
  }

  /** With only the Preact flags, `react` and `react-dom` go to preact-compat's main module
      and `create-react-class` to its library version. */
  lemma PreactAliasTargets(useModulePath: bool)
    ensures Get(PreactAliases(useModulePath), "react") == PreactCompatPath(useModulePath)
    ensures Get(PreactAliases(useModulePath), "react-dom") == PreactCompatPath(useModulePath)
    ensures Get(PreactAliases(useModulePath), "create-react-class") == CreateReactClassCompat
  {
    var a := PreactAliases(useModulePath);
    GetLiteral3(a.props[0], a.props[1], a.props[2], "react");
    GetLiteral3(a.props[0], a.props[1], a.props[2], "react-dom");
    GetLiteral3(a.props[0], a.props[1], a.props[2], "create-react-class");
  }

  /** preact-compat's main module, by its installed path for quick commands... */
  lemma PreactCompatInstalledPath()
    ensures PreactCompatPath(true) == Path("node_modules/preact-compat/dist/preact-compat")
  {
    var dir := "node_modules/preact-compat";
    assert AliasPath(true, "preact-compat") == Path(dir);
    assert dir + "/" + "dist/preact-compat" == "node_modules/preact-compat/dist/preact-compat";
  }

  /** ...and by its module name otherwise. */
  lemma PreactCompatModuleName()
    ensures PreactCompatPath(false) == Str("preact-compat/dist/preact-compat")
  {
  }

  /** Outside the build commands the compat flags change neither the name nor the quick
      dependencies. */
  lemma CompatOnlyForBuild(args: Value)
    ensures !IsBuildCommand(args) ==> Name(args) == "React" && QuickDependencies(args) == BaseDependencies
    ensures IsBuildCommand(args) ==> Name(args) == CompatName(args)
                                     && QuickDependencies(args) == BaseDependencies + CompatDependencies(args)
  {
  }

  /** The compat name and dependencies agree: the app is named after the library whose
      modules are installed. */
  lemma CompatNameMatchesDependencies(args: Value)
    ensures CompatName(args) == "React" <==> CompatDependencies(args) == []
    ensures CompatName(args) == "Preact (React compat)" <==> CompatDependencies(args) == ["preact", "preact-compat"]
  {
  }

  /** The hot-reloading preset is added unless either flag turns it off, after the dev preset. */
  lemma HmrePresetCondition(args: Value)
    ensures HmrePreset in ServePresets(args) <==> Get(args, "hmr") != Bool(false) && Get(args, "hmre") != Bool(false)
    ensures ServePresets(args)[..2] == [ReactPreset, DevPreset]
  {
  }

  /** A quick command is given the app type's command config, is titled after the app's
      name, and aliases the render shim's imports to the installed React modules. */
  lemma QuickConfigShape(command: Value, args: Value)
    ensures Get(QuickConfig(command, args), "commandConfig") == command
    ensures Get(QuickConfig(command, args), "defaultTitle") == Str(Name(args) + " App")
    ensures Get(QuickConfig(command, args), "renderShim") == RenderShim
    ensures Get(Get(QuickConfig(command, args), "renderShimAliases"), "react") == ModulePath("react")
    ensures Get(Get(QuickConfig(command, args), "renderShimAliases"), "react-dom") == ModulePath("react-dom")
  {
    var quick := QuickProps(args);
    var head := Prop("commandConfig", command);
    assert [head] + quick == [head, quick[0], quick[1], quick[2]];
    GetLiteral4(head, quick[0], quick[1], quick[2], "commandConfig");
    GetLiteral4(head, quick[0], quick[1], quick[2], "defaultTitle");
    GetLiteral4(head, quick[0], quick[1], quick[2], "renderShim");
    GetLiteral4(head, quick[0], quick[1], quick[2], "renderShimAliases");
    var aliases := quick[2].val;
    GetLiteral2(aliases.props[0], aliases.props[1], "react");
    GetLiteral2(aliases.props[0], aliases.props[1], "react-dom");
  }
}
