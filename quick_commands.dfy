/**
 * Quick commands: building or serving a single entry module with no project set up.
 * The default command config is built as a literal and then amended for the render
 * shim and the polyfill flag, and the app type's own command config is merged over it.
 */
module QuickCommands {
  import opened Js
  import opened Merge
  import opened Profiles

  const MissingEntry := UserError("An entry module must be specified.")
  const QuickEntryAlias := "nwb-quick-entry"
  const MountIdDefine := "NWB_QUICK_MOUNT_ID"

  // ---------------------------------------------------------------------------
  // The parts of the default config

  /** The entry module is used as it is when there is no render shim or `--force` is given. */
  predicate UsesEntry(args: Value, options: Value)
  {
    IsNullish(Get(options, "renderShim")) || Get(args, "force") == Bool(true)
  }

  function EntryPath(args: Value): Value
  {
    Resolve(Positional(args, 1))
  }

  function DistPath(args: Value): Value
  {
    Resolve(Or(Positional(args, 2), Str("dist")))
  }

  function MountId(args: Value): Value
  {
    Or(Get(args, "mount-id"), Str("app"))
  }

  function HtmlConfig(args: Value, options: Value): Value
  {
    Obj([Prop("mountId", MountId(args)), Prop("title", Or(Get(args, "title"), Get(options, "defaultTitle")))])
  }

  /** The define that tells the render shim where to mount the app. */
  function ShimDefine(args: Value): Value
  {
    Obj1(MountIdDefine, Str(JsonString(PropertyKey(MountId(args)))))
  }

  /** The aliases the render shim needs: the entry module, then the app type's own. */
  function ShimAliases(args: Value, options: Value): (r: Value)
    ensures r.Obj?
  {
    Assign(Obj1(QuickEntryAlias, EntryPath(args)), Get(options, "renderShimAliases"))
  }

  /** The command config of the app type, `{}` when it has none. */
  function CommandConfig(options: Value): Value
  {
    if Get(options, "commandConfig").Undef? then Obj([]) else Get(options, "commandConfig")
  }

  function Babel(): Value
  {
    Obj1("stage", Num(0))
  }

  function BuildOutput(args: Value, production: bool): Value
  {
    Obj([Prop("chunkFilename", FilenamePattern(production)), Prop("filename", FilenamePattern(production)),
         Prop("path", DistPath(args)), Prop("publicPath", Str("/"))])
  }

  function ServeOutput(args: Value): Value
  {
    Obj([Prop("filename", Str("app.js")), Prop("path", DistPath(args)), Prop("publicPath", Str("/"))])
  }

  /** The single module the app is built from: the entry, or the render shim. */
  function AppModule(args: Value, options: Value): Value
  {
    if UsesEntry(args, options) then EntryPath(args) else Get(options, "renderShim")
  }

  /** The render shim's resolve section, present only when the shim is used. */
  function ShimProps(args: Value, options: Value): seq<Prop>
  {
    if UsesEntry(args, options) then [] else [Prop("resolve", Obj1("alias", ShimAliases(args, options)))]
  }

  function PolyfillProps(args: Value): seq<Prop>
  {
    if PolyfillsOff(args) then [Prop("polyfill", Bool(false))] else []
  }

  /** The render shim's define, present only when the shim is used. */
  function DefineProps(args: Value, options: Value): seq<Prop>
  {
    if UsesEntry(args, options) then [] else [Prop("define", ShimDefine(args))]
  }

  // ---------------------------------------------------------------------------
  // createBuildConfig

  function BuildPlugins(args: Value, options: Value): Value
  {
    Obj([Prop("html", HtmlConfig(args, options)), Prop("vendor", Get(args, "vendor"))] + DefineProps(args, options))
  }

  /** The literal of `createBuildConfig`, with the entry it is given. */
  function BuildCore(args: Value, options: Value, production: bool): seq<Prop>
  {
    [Prop("babel", Babel()), Prop("devtool", Str("source-map")), Prop("output", BuildOutput(args, production))]
    + [Prop("plugins", BuildPlugins(args, options)), Prop("entry", Obj1("app", Arr([AppModule(args, options)])))]
  }

  /** The config a quick build starts from, before the app type's config is merged in. */
  function BuildDefaults(args: Value, options: Value, production: bool): Value
  {
    Obj(BuildCore(args, options, production) + ShimProps(args, options) + PolyfillProps(args))
  }

  /** The literal of `createBuildConfig`, amended for the render shim and the polyfill flag. */
  method DefaultBuildConfig(args: Value, options: Value, production: bool) returns (defaults: Value)
    ensures defaults == BuildDefaults(args, options, production)
  {
    var plugins := [Prop("html", HtmlConfig(args, options)), Prop("vendor", Get(args, "vendor"))];
    var props := [Prop("babel", Babel()), Prop("devtool", Str("source-map")), Prop("output", BuildOutput(args, production))];
    var entry := EntryPath(args);
    if !UsesEntry(args, options) {
      entry := Get(options, "renderShim");
      plugins := plugins + [Prop("define", ShimDefine(args))];
    }
    props := props + [Prop("plugins", Obj(plugins)), Prop("entry", Obj1("app", Arr([entry])))];
    assert Obj(plugins) == BuildPlugins(args, options);
    assert entry == AppModule(args, options);
    assert props == BuildCore(args, options, production);
    if !UsesEntry(args, options) {
      props := props + [Prop("resolve", Obj1("alias", ShimAliases(args, options)))];
    }
    assert props == BuildCore(args, options, production) + ShimProps(args, options);
    if PolyfillsOff(args) {
      props := props + [Prop("polyfill", Bool(false))];
    }
    assert props == BuildCore(args, options, production) + ShimProps(args, options) + PolyfillProps(args);
    defaults := Obj(props);
  }

  /** `createBuildConfig`: the defaults with the app type's command config merged over them. */
  method CreateBuildConfig(args: Value, options: Value, production: bool) returns (config: Value)
    ensures config == WebpackMerge(BuildDefaults(args, options, production), CommandConfig(options))
  {
    var defaults := DefaultBuildConfig(args, options, production);
    config := WebpackMerge(defaults, CommandConfig(options));
  }

  // ---------------------------------------------------------------------------
  // createServeConfig

  function ServePlugins(args: Value, options: Value): Value
  {
    Obj([Prop("html", HtmlConfig(args, options))] + DefineProps(args, options))
  }

  /** The literal of `createServeConfig`, with the entry it is given. */
  function ServeCore(args: Value, options: Value): seq<Prop>
  {
    [Prop("babel", Babel()), Prop("output", ServeOutput(args))]
    + [Prop("plugins", ServePlugins(args, options)), Prop("entry", Arr([AppModule(args, options)]))]
  }

  /** The config a quick dev server starts from, before the app type's config is merged in. */
  function ServeDefaults(args: Value, options: Value): Value
  {
    Obj(ServeCore(args, options) + ShimProps(args, options) + PolyfillProps(args))
  }

  /** The literal of `createServeConfig`: as for a build, with an array entry and no hashed names. */
  method DefaultServeConfig(args: Value, options: Value) returns (defaults: Value)
    ensures defaults == ServeDefaults(args, options)
  {
    var plugins := [Prop("html", HtmlConfig(args, options))];
    var props := [Prop("babel", Babel()), Prop("output", ServeOutput(args))];
    var entry := EntryPath(args);
    if !UsesEntry(args, options) {
      entry := Get(options, "renderShim");
      plugins := plugins + [Prop("define", ShimDefine(args))];
    }
    props := props + [Prop("plugins", Obj(plugins)), Prop("entry", Arr([entry]))];
    assert Obj(plugins) == ServePlugins(args, options);
    assert entry == AppModule(args, options);
    assert props == ServeCore(args, options);
    if !UsesEntry(args, options) {
      props := props + [Prop("resolve", Obj1("alias", ShimAliases(args, options)))];
    }
    assert props == ServeCore(args, options) + ShimProps(args, options);
    if PolyfillsOff(args) {
      props := props + [Prop("polyfill", Bool(false))];
    }
    assert props == ServeCore(args, options) + ShimProps(args, options) + PolyfillProps(args);
    defaults := Obj(props);
  }

  /** `createServeConfig`: the defaults with the app type's command config merged over them. */
  method CreateServeConfig(args: Value, options: Value) returns (config: Value)
    ensures config == WebpackMerge(ServeDefaults(args, options), CommandConfig(options))
  {
    var defaults := DefaultServeConfig(args, options);
    config := WebpackMerge(defaults, CommandConfig(options));
  }

  // ---------------------------------------------------------------------------
  // build and serve

  /** `build`: installs the quick dependencies, cleans the output directory and runs the build;
      without an entry module it fails before doing anything. */
  method Build(args: Value, profile: Profile, production: bool) returns (r: Result<seq<Task>>)
    ensures r.Failure? <==> |Positionals(args)| == 1
    ensures r.Failure? ==> r.error == MissingEntry
    ensures r.Success? ==> r.value == [
      Install(profile.quickDependencies),
      CleanApp(Or(Positional(args, 2), Str("dist"))),
      WebpackBuild(profile.name + " app",
                   WebpackMerge(BuildDefaults(args, profile.quickBuildConfig, production),
                                CommandConfig(profile.quickBuildConfig)))]
  {
    if |Positionals(args)| == 1 {
      return Failure(MissingEntry);
    }
    var dist := Or(Positional(args, 2), Str("dist"));
    var config := CreateBuildConfig(args, profile.quickBuildConfig, production);
    r := Success([Install(profile.quickDependencies), CleanApp(dist), WebpackBuild(profile.name + " app", config)]);
  }

  /** `serve`: installs the quick dependencies and runs the dev server; without an entry
      module it fails before doing anything. */
  method Serve(args: Value, profile: Profile) returns (r: Result<seq<Task>>)
    ensures r.Failure? <==> |Positionals(args)| == 1
    ensures r.Failure? ==> r.error == MissingEntry
    ensures r.Success? ==> r.value == [
      Install(profile.quickDependencies),
      WebpackServe(WebpackMerge(ServeDefaults(args, profile.quickServeConfig), CommandConfig(profile.quickServeConfig)))]
  {
    if |Positionals(args)| == 1 {
      return Failure(MissingEntry);
    }
    var config := CreateServeConfig(args, profile.quickServeConfig);
    r := Success([Install(profile.quickDependencies), WebpackServe(config)]);
  }

  // ---------------------------------------------------------------------------
  // What the default configs hold

  /** The two optional tails: `resolve` with the render shim, `polyfill` when turned off. */
  lemma Tails(args: Value, options: Value, k: string)
    ensures var shim := ShimProps(args, options);
      var poly := PolyfillProps(args);
      && (k in PropKeys(shim) <==> k == "resolve" && !UsesEntry(args, options))
      && (k in PropKeys(poly) <==> k == "polyfill" && PolyfillsOff(args))
      && (k == "resolve" && !UsesEntry(args, options) ==> Lookup(shim, k) == Obj1("alias", ShimAliases(args, options)))
      && (k == "polyfill" && PolyfillsOff(args) ==> Lookup(poly, k) == Bool(false))
  {
    var shim := ShimProps(args, options);
    if shim != [] {
      assert shim[..0] == [];
    }
    var poly := PolyfillProps(args);
    if poly != [] {
      assert poly[..0] == [];
    }
  }

  /** Every section but the two optional ones is the literal's. */
  lemma BuildDefaultsCore(args: Value, options: Value, production: bool, k: string)
    requires k != "resolve" && k != "polyfill"
    ensures Get(BuildDefaults(args, options, production), k) == Lookup(BuildCore(args, options, production), k)
  {
    Tails(args, options, k);
    LookupBeforeTails(BuildCore(args, options, production), ShimProps(args, options), PolyfillProps(args), k);
  }

  /** Output file names carry a content hash in production only. */
  lemma BuildFilenames(args: Value, options: Value, production: bool)
    ensures var output := Get(BuildDefaults(args, options, production), "output");
      && Get(output, "filename") == Str(if production then "[name].[chunkhash:8].js" else "[name].js")
      && Get(output, "chunkFilename") == Get(output, "filename")
  {
    var core := BuildCore(args, options, production);
    BuildDefaultsCore(args, options, production, "output");
    LookupAppend(core[..3], core[3..], "output");
    assert core == core[..3] + core[3..];
    GetLiteral2(core[3], core[4], "output");
    GetLiteral3(core[0], core[1], core[2], "output");
    var o := BuildOutput(args, production);
    GetLiteral4(o.props[0], o.props[1], o.props[2], o.props[3], "filename");
    GetLiteral4(o.props[0], o.props[1], o.props[2], o.props[3], "chunkFilename");
  }

  /** The app is built from the entry module, or from the render shim when there is one and
      `--force` is not given. */
  lemma BuildEntry(args: Value, options: Value, production: bool)
    ensures Get(Get(BuildDefaults(args, options, production), "entry"), "app")
         == Arr([if UsesEntry(args, options) then EntryPath(args) else Get(options, "renderShim")])
  {
    var core := BuildCore(args, options, production);
    BuildDefaultsCore(args, options, production, "entry");
    LookupAppend(core[..3], core[3..], "entry");
    assert core == core[..3] + core[3..];
    GetLiteral2(core[3], core[4], "entry");
    GetLiteral1(Prop("app", Arr([AppModule(args, options)])), "app");
  }

  /** Babel runs at stage 0. */
  lemma BuildStage(args: Value, options: Value, production: bool)
    ensures Get(Get(BuildDefaults(args, options, production), "babel"), "stage") == Num(0)
  {
    var core := BuildCore(args, options, production);
    BuildDefaultsCore(args, options, production, "babel");
    assert core == core[..3] + core[3..];
    LookupAppend(core[..3], core[3..], "babel");
    GetLiteral2(core[3], core[4], "babel");
    GetLiteral3(core[0], core[1], core[2], "babel");
    GetLiteral1(Prop("stage", Num(0)), "stage");
  }

  /** The plugins section of the build literal. */
  lemma BuildPluginsSection(args: Value, options: Value, production: bool)
    ensures Get(BuildDefaults(args, options, production), "plugins") == BuildPlugins(args, options)
  {
    var core := BuildCore(args, options, production);
    BuildDefaultsCore(args, options, production, "plugins");
    assert core == core[..3] + core[3..];
    LookupAppend(core[..3], core[3..], "plugins");
    GetLiteral2(core[3], core[4], "plugins");
  }

  /** The html plugin mounts on `--mount-id`, or on `app` without one, and the render shim's
      define is there exactly when the shim is used. */
  lemma BuildHtmlAndDefine(args: Value, options: Value, production: bool)
    ensures var plugins := Get(BuildDefaults(args, options, production), "plugins");
      && Get(Get(plugins, "html"), "mountId") == (if Truthy(Get(args, "mount-id")) then Get(args, "mount-id") else Str("app"))
      && (Has(plugins, "define") <==> !UsesEntry(args, options))
      && (!UsesEntry(args, options) ==> Get(plugins, "define") == ShimDefine(args))
  {
    BuildPluginsSection(args, options, production);
    var base := [Prop("html", HtmlConfig(args, options)), Prop("vendor", Get(args, "vendor"))];
    assert PropKeys(base) == ["html", "vendor"];
    PluginsDefine(base, args, options);
    GetLiteral2(base[0], base[1], "html");
    GetLiteral2(HtmlConfig(args, options).props[0], HtmlConfig(args, options).props[1], "mountId");
  }

  /** The render shim's define is added to the plugins only with the shim, after the rest. */
  lemma PluginsDefine(plugins: seq<Prop>, args: Value, options: Value)
    requires "define" !in PropKeys(plugins)
    ensures Has(Obj(plugins + DefineProps(args, options)), "html") <==> "html" in PropKeys(plugins)
    ensures Get(Obj(plugins + DefineProps(args, options)), "html") == Lookup(plugins, "html")
    ensures Has(Obj(plugins + DefineProps(args, options)), "define") <==> !UsesEntry(args, options)
    ensures !UsesEntry(args, options) ==> Get(Obj(plugins + DefineProps(args, options)), "define") == ShimDefine(args)
  {
    var extra := DefineProps(args, options);
    if extra != [] {
      assert extra[..0] == [];
    }
    LookupAppend(plugins, extra, "html");
    LookupAppend(plugins, extra, "define");
    PropKeysAppend(plugins, extra);
  }

  /** The optional sections of both quick configs: `resolve` (the render shim's aliases, with
      the entry module reachable as `nwb-quick-entry` unless the app type aliases it itself)
      and `polyfill: false`. */
  lemma DefaultsTails(core: seq<Prop>, args: Value, options: Value)
    requires "resolve" !in PropKeys(core) && "polyfill" !in PropKeys(core)
    ensures var d := Obj(core + ShimProps(args, options) + PolyfillProps(args));
      && (Has(d, "resolve") <==> !UsesEntry(args, options))
      && (!UsesEntry(args, options) ==>
            Get(Get(Get(d, "resolve"), "alias"), QuickEntryAlias)
            == if Has(Get(options, "renderShimAliases"), QuickEntryAlias) then Get(Get(options, "renderShimAliases"), QuickEntryAlias)
               else EntryPath(args))
      && (Has(d, "polyfill") <==> PolyfillsOff(args))
      && (PolyfillsOff(args) ==> Get(d, "polyfill") == Bool(false))
  {
    var shim := ShimProps(args, options);
    var poly := PolyfillProps(args);
    Tails(args, options, "resolve");
    Tails(args, options, "polyfill");
    LookupAppend(core + shim, poly, "resolve");
    LookupAppend(core, shim, "resolve");
    LookupAppend(core + shim, poly, "polyfill");
    LookupAppend(core, shim, "polyfill");
    PropKeysAppend(core + shim, poly);
    PropKeysAppend(core, shim);
    GetLiteral1(Prop("alias", ShimAliases(args, options)), "alias");
    GetLiteral1(Prop(QuickEntryAlias, EntryPath(args)), QuickEntryAlias);
  }

  lemma BuildDefaultsTails(args: Value, options: Value, production: bool)
    ensures var d := BuildDefaults(args, options, production);
      && (Has(d, "resolve") <==> !UsesEntry(args, options))
      && (!UsesEntry(args, options) ==>
            Get(Get(Get(d, "resolve"), "alias"), QuickEntryAlias)
            == if Has(Get(options, "renderShimAliases"), QuickEntryAlias) then Get(Get(options, "renderShimAliases"), QuickEntryAlias)
               else EntryPath(args))
      && (Has(d, "polyfill") <==> PolyfillsOff(args))
      && (PolyfillsOff(args) ==> Get(d, "polyfill") == Bool(false))
  {
    var core := BuildCore(args, options, production);
    assert core == core[..3] + core[3..];
    PropKeysAppend(core[..3], core[3..]);
    assert PropKeys(core[..3]) == ["babel", "devtool", "output"];
    assert PropKeys(core[3..]) == ["plugins", "entry"];
    DefaultsTails(core, args, options);
  }

  /** A dev server's Babel also runs at stage 0. */
  lemma ServeStage(args: Value, options: Value)
    ensures Get(Get(ServeDefaults(args, options), "babel"), "stage") == Num(0)
  {
    var core := ServeCore(args, options);
    Tails(args, options, "babel");
    LookupBeforeTails(core, ShimProps(args, options), PolyfillProps(args), "babel");
    assert core == core[..2] + core[2..];
    LookupAppend(core[..2], core[2..], "babel");
    GetLiteral2(core[0], core[1], "babel");
    GetLiteral2(core[2], core[3], "babel");
    GetLiteral1(Prop("stage", Num(0)), "stage");
  }

  /** A dev server writes `app.js`, and is given the entry module, or the render shim when
      there is one and `--force` is not given, as a one-element array. */
  lemma ServeOutputAndEntry(args: Value, options: Value)
    ensures var d := ServeDefaults(args, options);
      && Get(Get(d, "output"), "filename") == Str("app.js")
      && Get(d, "entry") == Arr([if UsesEntry(args, options) then EntryPath(args) else Get(options, "renderShim")])
  {
    var core := ServeCore(args, options);
    Tails(args, options, "output");
    Tails(args, options, "entry");
    LookupBeforeTails(core, ShimProps(args, options), PolyfillProps(args), "output");
    LookupBeforeTails(core, ShimProps(args, options), PolyfillProps(args), "entry");
    assert core == core[..2] + core[2..];
    LookupAppend(core[..2], core[2..], "output");
    LookupAppend(core[..2], core[2..], "entry");
    GetLiteral2(core[0], core[1], "output");
    GetLiteral2(core[2], core[3], "output");
    GetLiteral2(core[2], core[3], "entry");
    var o := ServeOutput(args);
    GetLiteral3(o.props[0], o.props[1], o.props[2], "filename");
  }

  lemma ServeDefaultsTails(args: Value, options: Value)
    ensures var d := ServeDefaults(args, options);
      && (Has(d, "resolve") <==> !UsesEntry(args, options))
      && (!UsesEntry(args, options) ==>
            Get(Get(Get(d, "resolve"), "alias"), QuickEntryAlias)
            == if Has(Get(options, "renderShimAliases"), QuickEntryAlias) then Get(Get(options, "renderShimAliases"), QuickEntryAlias)
               else EntryPath(args))
      && (Has(d, "polyfill") <==> PolyfillsOff(args))
      && (PolyfillsOff(args) ==> Get(d, "polyfill") == Bool(false))
  {
    var core := ServeCore(args, options);
    assert core == core[..2] + core[2..];
    PropKeysAppend(core[..2], core[2..]);
    assert PropKeys(core[..2]) == ["babel", "output"];
    assert PropKeys(core[2..]) == ["plugins", "entry"];
    DefaultsTails(core, args, options);
  }
}
