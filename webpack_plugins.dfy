/**
 * The plugin half of the webpack config (lib/createWebpackConfig.js): the
 * terser options, the copy plugin's arguments, the plugin list with its
 * `optimization` block, and the compatibility configs for libraries with
 * locale data. Plugins are descriptors: `Instance(kind, options)` for a
 * constructed plugin, `Fn("inlineRuntimePlugin")` for the plugin function that
 * inlines the runtime chunk.
 */
module WebpackPlugins {
  import opened Js
  import opened Merge

  /** The host inputs the plugin list depends on. */
  datatype Env = Env(nodeEnv: string, cwd: string)

  // ---------------------------------------------------------------------------
  // Terser options

  const DefaultTerserConfig := Obj([Prop("cache", Bool(true)), Prop("parallel", Bool(true)), Prop("sourceMap", Bool(true))])

  /** The debug build's terser options: readable output, no mangling. */
  const DebugTerserLayer := Obj1("terserOptions", Obj([Prop("output", Obj1("beautify", Bool(true))), Prop("mangle", Bool(false))]))

  /** The user's `terser` config when it is an object (`typeof` says so for null too). */
  function UserTerser(uw: Value): Value
  {
    var t := Get(uw, "terser");
    if JsTypeof(t) == "object" then t else Obj([])
  }

  /** The layer that carries a user's `compress` setting into a debug build, read from
      `terser.<options>.compress` where `<options>` names the nested options object. */
  function CompressLayer(uw: Value, options: string): Value
  {
    var t := Get(uw, "terser");
    var o := Get(t, options);
    if JsTypeof(t) == "object" && JsTypeof(o) == "object" && Has(o, "compress") then
      Obj1("terserOptions", Obj1("compress", Get(o, "compress")))
    else Obj([])
  }

  /** `createTerserConfig` as written: a debug build looks for the user's `compress`
      under `terser.terserConfig`, a key the terser plugin does not read. */
  function TerserConfigAsWritten(uw: Value): Value
  {
    if Truthy(Get(uw, "debug")) then MergeLayers(Concat, [DefaultTerserConfig, DebugTerserLayer, CompressLayer(uw, "terserConfig")])
    else MergeLayers(Concat, [DefaultTerserConfig, UserTerser(uw)])
  }

  /** `createTerserConfig` with the `compress` setting read from `terser.terserOptions`,
      where the terser plugin and the non-debug branch take it from. */
  function TerserConfig(uw: Value): Value
  {
    if Truthy(Get(uw, "debug")) then MergeLayers(Concat, [DefaultTerserConfig, DebugTerserLayer, CompressLayer(uw, "terserOptions")])
    else MergeLayers(Concat, [DefaultTerserConfig, UserTerser(uw)])
  }

  /** Key-wise view of merging three layers. */
  lemma ThreeLayers(p: ArrayPolicy, a: Value, b: Value, c: Value, k: string)
    ensures var l2 := MergeLayers(p, [a, b]);
      && (Has(MergeLayers(p, [a, b, c]), k) <==> Has(l2, k) || Has(c, k))
      && Get(MergeLayers(p, [a, b, c]), k)
         == if Has(c, k) then (if Has(l2, k) then MergeValue(p, Get(l2, k), Get(c, k)) else Get(c, k)) else Get(l2, k)
    ensures (Has(MergeLayers(p, [a, b]), k) <==> Has(a, k) || Has(b, k))
    ensures Get(MergeLayers(p, [a, b]), k)
         == if Has(b, k) then (if Has(a, k) then MergeValue(p, Get(a, k), Get(b, k)) else Get(b, k)) else Get(a, k)
  {
    ThirdLayer(p, a, b, c, k);
    TwoLayers(p, a, b, k);
  }

  lemma ThirdLayer(p: ArrayPolicy, a: Value, b: Value, c: Value, k: string)
    ensures var l2 := MergeLayers(p, [a, b]);
      && (Has(MergeLayers(p, [a, b, c]), k) <==> Has(l2, k) || Has(c, k))
      && Get(MergeLayers(p, [a, b, c]), k)
         == if Has(c, k) then (if Has(l2, k) then MergeValue(p, Get(l2, k), Get(c, k)) else Get(c, k)) else Get(l2, k)
  {
    assert [a, b, c][..2] == [a, b];
    LayerStep(p, [a, b, c], k);
  }

  lemma TwoLayers(p: ArrayPolicy, a: Value, b: Value, k: string)
    ensures (Has(MergeLayers(p, [a, b]), k) <==> Has(a, k) || Has(b, k))
    ensures Get(MergeLayers(p, [a, b]), k)
         == if Has(b, k) then (if Has(a, k) then MergeValue(p, Get(a, k), Get(b, k)) else Get(b, k)) else Get(a, k)
  {
    assert [a, b][..1] == [a];
    LayerStep(p, [a, b], k);
    SingleLayer(p, a, k);
  }

  /** In a debug build the terser options beautify and do not mangle, and the
      plugin defaults stay on. */
  lemma DebugTerser(uw: Value)
    requires Truthy(Get(uw, "debug"))
    ensures var r := TerserConfig(uw);
      var opts := Get(r, "terserOptions");
      && Get(opts, "mangle") == Bool(false)
      && Get(Get(opts, "output"), "beautify") == Bool(true)
      && Get(r, "cache") == Bool(true) && Get(r, "parallel") == Bool(true) && Get(r, "sourceMap") == Bool(true)
  {
    var c := CompressLayer(uw, "terserOptions");
    var debugOpts := Obj([Prop("output", Obj1("beautify", Bool(true))), Prop("mangle", Bool(false))]);
    GetLiteral3(DefaultTerserConfig.props[0], DefaultTerserConfig.props[1], DefaultTerserConfig.props[2], "terserOptions");
    GetLiteral1(Prop("terserOptions", debugOpts), "terserOptions");
    ThreeLayers(Concat, DefaultTerserConfig, DebugTerserLayer, c, "terserOptions");
    var l2 := MergeLayers(Concat, [DefaultTerserConfig, DebugTerserLayer]);
    assert Get(l2, "terserOptions") == debugOpts;
    GetLiteral2(debugOpts.props[0], debugOpts.props[1], "mangle");
    GetLiteral2(debugOpts.props[0], debugOpts.props[1], "output");
    if Has(c, "terserOptions") {
      var co := Obj1("compress", Get(Get(Get(uw, "terser"), "terserOptions"), "compress"));
      GetLiteral1(Prop("terserOptions", co), "terserOptions");
      GetLiteral1(Prop("compress", co.props[0].val), "mangle");
      GetLiteral1(Prop("compress", co.props[0].val), "output");
      MergeObjects(Concat, debugOpts, co, "mangle");
      MergeObjects(Concat, debugOpts, co, "output");
    }
    DebugTerserDefaults(uw, "cache");
    DebugTerserDefaults(uw, "parallel");
    DebugTerserDefaults(uw, "sourceMap");
  }

  lemma DebugTerserDefaults(uw: Value, k: string)
    requires Truthy(Get(uw, "debug"))
    requires k in ["cache", "parallel", "sourceMap"]
    ensures Get(TerserConfig(uw), k) == Bool(true)
  {
    var c := CompressLayer(uw, "terserOptions");
    GetLiteral3(DefaultTerserConfig.props[0], DefaultTerserConfig.props[1], DefaultTerserConfig.props[2], k);
    GetLiteral1(DebugTerserLayer.props[0], k);
    if c != Obj([]) {
      GetLiteral1(c.props[0], k);
    }
    ThreeLayers(Concat, DefaultTerserConfig, DebugTerserLayer, c, k);
  }

  /** A debug build keeps the user's `compress` setting. */
  lemma DebugKeepsCompress(uw: Value)
    requires Truthy(Get(uw, "debug"))
    requires Get(uw, "terser").Obj? && Get(Get(uw, "terser"), "terserOptions").Obj?
    requires Has(Get(Get(uw, "terser"), "terserOptions"), "compress")
    ensures Get(Get(TerserConfig(uw), "terserOptions"), "compress")
         == Get(Get(Get(uw, "terser"), "terserOptions"), "compress")
  {
    var x := Get(Get(Get(uw, "terser"), "terserOptions"), "compress");
    var co := Obj1("compress", x);
    var c := Obj1("terserOptions", co);
    var debugOpts := Obj([Prop("output", Obj1("beautify", Bool(true))), Prop("mangle", Bool(false))]);
    assert CompressLayer(uw, "terserOptions") == c;
    GetLiteral3(DefaultTerserConfig.props[0], DefaultTerserConfig.props[1], DefaultTerserConfig.props[2], "terserOptions");
    GetLiteral1(Prop("terserOptions", debugOpts), "terserOptions");
    GetLiteral1(Prop("terserOptions", co), "terserOptions");
    ThreeLayers(Concat, DefaultTerserConfig, DebugTerserLayer, c, "terserOptions");
    GetLiteral2(debugOpts.props[0], debugOpts.props[1], "compress");
    GetLiteral1(Prop("compress", x), "compress");
    MergeObjects(Concat, debugOpts, co, "compress");
  }

  /** The as-written debug branch drops a `compress` setting given under
      `terser.terserOptions`. */
  lemma DebugDropsCompressAsWritten()
    ensures var x := Obj1("drop_console", Bool(true));
      var uw := Obj([Prop("debug", Bool(true)), Prop("terser", Obj1("terserOptions", Obj1("compress", x)))]);
      && Get(Get(TerserConfigAsWritten(uw), "terserOptions"), "compress") == Undef
      && Get(Get(TerserConfig(uw), "terserOptions"), "compress") == x
  {
    var x := Obj1("drop_console", Bool(true));
    var t := Obj1("terserOptions", Obj1("compress", x));
    var uw := Obj([Prop("debug", Bool(true)), Prop("terser", t)]);
    GetLiteral2(uw.props[0], uw.props[1], "debug");
    GetLiteral2(uw.props[0], uw.props[1], "terser");
    GetLiteral1(t.props[0], "terserConfig");
    GetLiteral1(t.props[0], "terserOptions");
    GetLiteral1(Prop("compress", x), "compress");
    assert CompressLayer(uw, "terserConfig") == Obj([]);
    var debugOpts := Obj([Prop("output", Obj1("beautify", Bool(true))), Prop("mangle", Bool(false))]);
    GetLiteral3(DefaultTerserConfig.props[0], DefaultTerserConfig.props[1], DefaultTerserConfig.props[2], "terserOptions");
    GetLiteral1(Prop("terserOptions", debugOpts), "terserOptions");
    ThreeLayers(Concat, DefaultTerserConfig, DebugTerserLayer, Obj([]), "terserOptions");
    GetLiteral2(debugOpts.props[0], debugOpts.props[1], "compress");
    DebugKeepsCompress(uw);
  }

  /** Outside a debug build the user's terser config is merged over the defaults: a
      scalar the user sets wins, a default the user leaves alone stays. */
  lemma TerserUserOverrides(uw: Value, k: string)
    requires !Truthy(Get(uw, "debug"))
    requires Has(UserTerser(uw), k) ==> Scalar(Get(UserTerser(uw), k))
    ensures Get(TerserConfig(uw), k)
         == if Has(UserTerser(uw), k) then Get(UserTerser(uw), k) else Get(DefaultTerserConfig, k)
  {
    var l := [DefaultTerserConfig, UserTerser(uw)];
    assert l[..1] == [DefaultTerserConfig];
    LayerPrecedence(Concat, l, k);
    SingleLayer(Concat, DefaultTerserConfig, k);
  }

  // ---------------------------------------------------------------------------
  // Copy plugin

  /** `getCopyPluginArgs(buildCopy, userCopy)`: `[patterns, options]`. */
  function CopyPluginArgs(build: Value, user: Value): seq<Value>
  {
    var fromBuild := if Truthy(build) then ConcatItems([], build) else [];
    var patterns := if Truthy(user) then ConcatItems(fromBuild, Or(Get(user, "patterns"), Arr([]))) else fromBuild;
    var options := if Truthy(user) then Or(Get(user, "options"), Obj([])) else Obj([]);
    [Arr(patterns), options]
  }

  /** What `concat` adds for a truthy config value: its items, or itself. */
  function ItemsOf(v: Value): seq<Value>
  {
    if !Truthy(v) then [] else if v.Arr? then v.elems else [v]
  }

  /** The build's patterns come first, then the user's. */
  lemma CopyPatternsOrder(build: Value, user: Value)
    ensures CopyPluginArgs(build, user)[0]
         == Arr(ItemsOf(build) + (if Truthy(user) then ItemsOf(Get(user, "patterns")) else []))
  {
    var fromBuild := if Truthy(build) then ConcatItems([], build) else [];
    assert fromBuild == ItemsOf(build);
    if Truthy(user) {
      var up := Get(user, "patterns");
      if Truthy(up) {
        assert ConcatItems(fromBuild, Or(up, Arr([]))) == fromBuild + ItemsOf(up);
      } else {
        assert ConcatItems(fromBuild, Or(up, Arr([]))) == fromBuild + [];
      }
    }
  }

  /** The options are the user's, if any. */
  lemma CopyOptions(build: Value, user: Value)
    ensures CopyPluginArgs(build, user)[1]
         == if Truthy(user) && Truthy(Get(user, "options")) then Get(user, "options") else Obj([])
  {
  }

  // ---------------------------------------------------------------------------
  // Plugins

  const VendorSplitChunks := Obj([
    Prop("chunks", Str("all")),
    Prop("cacheGroups", Obj1("vendors", Obj([Prop("name", Str("vendor")), Prop("priority", Num(-10)),
                                             Prop("test", RegExp("[\\\\/]node_modules[\\\\/]"))])))])

  const HtmlTemplatePath := Path("templates/webpack-template.html")
  const InlineRuntimePlugin := Fn("inlineRuntimePlugin")
  const HotModuleReplacement := Instance("HotModuleReplacementPlugin", Undef)

  predicate Production(env: Env)
  {
    env.nodeEnv == "production"
  }

  /** Minification stays on unless the build or the user turns terser off. */
  predicate Minimizes(build: Value, uw: Value)
  {
    Get(build, "terser") != Bool(false) && Get(uw, "terser") != Bool(false)
  }

  predicate Hot(server: Value)
  {
    Truthy(server) && Get(server, "hot") != Bool(false)
  }

  /** The `DefinePlugin` definitions: `process.env.NODE_ENV`, then the build's and the user's. */
  function Definitions(build: Value, uw: Value, env: Env): Value
  {
    var nodeEnv := if env.nodeEnv == "" then "development" else env.nodeEnv;
    Assign(Assign(Obj1("process.env.NODE_ENV", Str(JsonString(nodeEnv))), Get(build, "define")), Get(uw, "define"))
  }

  /** The three plugins every build has. */
  function BasePlugins(build: Value, uw: Value, env: Env): seq<Value>
  {
    [Instance("CaseSensitivePathsPlugin", Undef),
     Instance("DefinePlugin", Definitions(build, uw, env)),
     Instance("LoaderOptionsPlugin", Obj1("options", Obj1("context", Str(env.cwd))))]
  }

  /** Serving: hot reloading unless turned off, and the status plugin. */
  function ServePlugins(server: Value, build: Value): seq<Value>
  {
    (if Hot(server) then [HotModuleReplacement] else [])
    + (if Truthy(Get(build, "status")) then [Instance("WebpackStatusPlugin", Get(build, "status"))] else [])
  }

  /** A static build: CSS extraction unless the user turns it off. */
  function StaticPlugins(uw: Value, env: Env): seq<Value>
  {
    var filename := if Production(env) then "[name].[contenthash:8].css" else "[name].css";
    if Get(uw, "extractCSS") != Bool(false) then
      [Instance("MiniCssExtractPlugin", Assign(Obj1("filename", Str(filename)), Get(uw, "extractCSS")))]
    else []
  }

  function ProductionPlugins(env: Env): seq<Value>
  {
    if Production(env) then [Instance("LoaderOptionsPlugin", Obj([Prop("debug", Bool(false)), Prop("minimize", Bool(true))]))] else []
  }

  /** An app build: the HTML plugin and the runtime-inlining plugin. */
  function HtmlPlugins(build: Value, uw: Value): seq<Value>
  {
    if Truthy(Get(build, "html")) then
      [Instance("HtmlWebpackPlugin",
                Assign(Assign(Obj([Prop("chunksSortMode", Str("dependency")), Prop("template", HtmlTemplatePath)]),
                              Get(build, "html")), Get(uw, "html"))),
       InlineRuntimePlugin]
    else []
  }

  /** Copying, automatic installs and banners, each switched on by the build. */
  function FeaturePlugins(build: Value, uw: Value): seq<Value>
  {
    (if Truthy(Get(build, "copy")) || Truthy(Get(uw, "copy")) then
       [Instance("CopyWebpackPlugin", Arr(CopyPluginArgs(Get(build, "copy"), Get(uw, "copy"))))] else [])
    + (if Truthy(Get(build, "autoInstall")) then
         [Instance("NpmInstallPlugin", Assign(Obj([Prop("peerDependencies", Bool(false)), Prop("quiet", Bool(true))]), Get(uw, "install")))] else [])
    + (if Truthy(Get(build, "banner")) then [Instance("BannerPlugin", Obj1("banner", Get(build, "banner")))] else [])
  }

  /** The plugins that depend on serving: the serve plugins or the static build's. */
  function ModePlugins(server: Value, build: Value, uw: Value, env: Env): seq<Value>
  {
    if Truthy(server) then ServePlugins(server, build) else StaticPlugins(uw, env)
  }

  /** The plugins before the build's `extra` plugins. */
  function OwnPlugins(server: Value, build: Value, uw: Value, env: Env): seq<Value>
  {
    BasePlugins(build, uw, env)
    + ModePlugins(server, build, uw, env)
    + ProductionPlugins(env) + HtmlPlugins(build, uw) + FeaturePlugins(build, uw)
  }

  function PluginList(server: Value, build: Value, uw: Value, env: Env): seq<Value>
  {
    var extra := Get(build, "extra");
    if Truthy(extra) then ConcatItems(OwnPlugins(server, build, uw, env), extra) else OwnPlugins(server, build, uw, env)
  }

  /** The `optimization` block: each setting is absent until the plugin decisions
      set it, and they are set in the order of the fields. */
  datatype Optimization = Optimization(
    noEmitOnErrors: Option<bool>,
    splitChunks: Option<Value>,
    minimize: Option<bool>,
    minimizer: Option<seq<Value>>,
    runtimeChunk: Option<string>)

  const NoOptimization := Optimization(None, None, None, None, None)

  /** A setting as the object property it becomes, when it is set. */
  function Setting<T>(key: string, v: Option<T>, f: T -> Value): seq<Prop>
  {
    if v.Some? then [Prop(key, f(v.value))] else []
  }

  /** The block as the object the webpack config holds. */
  function OptimizationValue(o: Optimization): Value
  {
    Obj(Setting("noEmitOnErrors", o.noEmitOnErrors, (b: bool) => Bool(b))
        + Setting("splitChunks", o.splitChunks, (v: Value) => v)
        + Setting("minimize", o.minimize, (b: bool) => Bool(b))
        + Setting("minimizer", o.minimizer, (vs: seq<Value>) => Arr(vs))
        + Setting("runtimeChunk", o.runtimeChunk, (s: string) => Str(s)))
  }

  /** The `optimization` block of `createPlugins`. */
  function OptimizationOf(server: Value, build: Value, uw: Value, env: Env): Optimization
  {
    Optimization(
      if Hot(server) then Some(true) else None,
      if !Truthy(server) && Truthy(Get(build, "vendor")) then Some(VendorSplitChunks) else None,
      if Production(env) then Some(Minimizes(build, uw)) else None,
      if Production(env) && Minimizes(build, uw) then Some([LazyTerserPlugin(uw)]) else None,
      if Truthy(Get(build, "html")) then Some("single") else None)
  }

  /** The minimizer: a wrapper that loads the terser plugin only when webpack applies
      it, holding the user's webpack config it builds the plugin's options from. The
      options themselves are not computed here: `TerserConfigAsWritten` models what
      `createTerserConfig` returns for that config, and `TerserConfig` the corrected
      version. */
  function LazyTerserPlugin(uw: Value): Value
  {
    Instance("LazyTerserPlugin", uw)
  }

  datatype PluginSetup = PluginSetup(optimization: Optimization, plugins: seq<Value>)

  /** `createPlugins(server, buildPlugins, userWebpack)` */
  function Plugins(server: Value, build: Value, uw: Value, env: Env): PluginSetup
  {
    PluginSetup(OptimizationOf(server, build, uw, env), PluginList(server, build, uw, env))
  }

  /** The plugins, pushed one decision at a time, and the `optimization` block set
      field by field. */
  method CreatePlugins(server: Value, build: Value, uw: Value, env: Env) returns (optimization: Optimization, plugins: seq<Value>)
    ensures optimization == OptimizationOf(server, build, uw, env)
    ensures plugins == PluginList(server, build, uw, env)
  {
    var mode, prod, html;
    mode, optimization := CreateModePlugins(server, build, uw, env);
    prod, optimization := CreateProductionPlugins(build, uw, env, optimization);
    html, optimization := CreateHtmlPlugins(build, uw, optimization);
    plugins := BasePlugins(build, uw, env) + mode + prod + html + FeaturePlugins(build, uw);
    assert plugins == OwnPlugins(server, build, uw, env);
    var extra := Get(build, "extra");
    if Truthy(extra) {
      plugins := ConcatItems(plugins, extra);
    }
  }

  /** The decisions that depend on serving: hot reloading and status output when
      serving, CSS extraction and vendor chunks for a static build. */
  method CreateModePlugins(server: Value, build: Value, uw: Value, env: Env) returns (mode: seq<Value>, optimization: Optimization)
    ensures mode == ModePlugins(server, build, uw, env)
    ensures optimization.noEmitOnErrors == OptimizationOf(server, build, uw, env).noEmitOnErrors
    ensures optimization.splitChunks == OptimizationOf(server, build, uw, env).splitChunks
    ensures optimization.minimize.None? && optimization.minimizer.None? && optimization.runtimeChunk.None?
  {
    if Truthy(server) {
      mode, optimization := CreateServePlugins(server, build);
    } else {
      mode := [];
      optimization := NoOptimization;
      if Get(uw, "extractCSS") != Bool(false) {
        var filename := if env.nodeEnv == "production" then "[name].[contenthash:8].css" else "[name].css";
        mode := [Instance("MiniCssExtractPlugin", Assign(Obj1("filename", Str(filename)), Get(uw, "extractCSS")))];
      }
      if Truthy(Get(build, "vendor")) {
        optimization := optimization.(splitChunks := Some(VendorSplitChunks));
      }
    }
  }

  /** Serving: hot module replacement, which also stops emitting on errors, and the
      status plugin. */
  method CreateServePlugins(server: Value, build: Value) returns (mode: seq<Value>, optimization: Optimization)
    requires Truthy(server)
    ensures mode == ServePlugins(server, build)
    ensures optimization == NoOptimization.(noEmitOnErrors := if Hot(server) then Some(true) else None)
  {
    optimization := NoOptimization;
    mode := [];
    if Get(server, "hot") != Bool(false) {
      mode := mode + [HotModuleReplacement];
      optimization := optimization.(noEmitOnErrors := Some(true));
    }
    if Truthy(Get(build, "status")) {
      mode := mode + [Instance("WebpackStatusPlugin", Get(build, "status"))];
    }
  }

  /** A production build: the loader options plugin, and minimizing unless the build
      or the user turns terser off. */
  method CreateProductionPlugins(build: Value, uw: Value, env: Env, before: Optimization) returns (prod: seq<Value>, optimization: Optimization)
    ensures prod == ProductionPlugins(env)
    ensures optimization == before.(minimize := if Production(env) then Some(Minimizes(build, uw)) else before.minimize,
                                     minimizer := if Production(env) && Minimizes(build, uw) then Some([LazyTerserPlugin(uw)]) else before.minimizer)
  {
    prod := [];
    optimization := before;
    if env.nodeEnv == "production" {
      var minimize := Get(build, "terser") != Bool(false) && Get(uw, "terser") != Bool(false);
      prod := [Instance("LoaderOptionsPlugin", Obj([Prop("debug", Bool(false)), Prop("minimize", Bool(true))]))];
      optimization := optimization.(minimize := Some(minimize));
      if minimize {
        optimization := optimization.(minimizer := Some([LazyTerserPlugin(uw)]));
      }
    }
  }

  /** An app build: the HTML plugins, and a single runtime chunk for them to inline. */
  method CreateHtmlPlugins(build: Value, uw: Value, before: Optimization) returns (html: seq<Value>, optimization: Optimization)
    ensures html == HtmlPlugins(build, uw)
    ensures optimization == before.(runtimeChunk := if Truthy(Get(build, "html")) then Some("single") else before.runtimeChunk)
  {
    html := [];
    optimization := before;
    if Truthy(Get(build, "html")) {
      html := HtmlPlugins(build, uw);
      optimization := optimization.(runtimeChunk := Some("single"));
    }
  }

  /** The build's `extra` plugins come last, after the generated ones. */
  lemma PluginOrder(server: Value, build: Value, uw: Value, env: Env)
    ensures PluginList(server, build, uw, env) == OwnPlugins(server, build, uw, env) + ItemsOf(Get(build, "extra"))
  {
  }

  /** The plugins every build starts with: case-sensitive paths, definitions, loader options. */
  lemma BasePluginsFirst(server: Value, build: Value, uw: Value, env: Env)
    ensures var own := OwnPlugins(server, build, uw, env);
      |own| >= 3 && own[..3] == BasePlugins(build, uw, env)
  {
  }

  /** `process.env.NODE_ENV` is defined as the JSON text of the environment (development
      when unset), unless the build's or the user's definitions replace it; their
      definitions are all kept, the user's winning. */
  lemma DefinitionsPrecedence(build: Value, uw: Value, env: Env, k: string)
    ensures var d := Definitions(build, uw, env);
      var bd := Get(build, "define");
      var ud := Get(uw, "define");
      Get(d, k) == if Has(ud, k) then Get(ud, k) else if Has(bd, k) then Get(bd, k)
                   else if k == "process.env.NODE_ENV" then Str(JsonString(if env.nodeEnv == "" then "development" else env.nodeEnv))
                   else Undef
  {
    GetLiteral1(Prop("process.env.NODE_ENV", Str(JsonString(if env.nodeEnv == "" then "development" else env.nodeEnv))), k);
  }

  /** Hot reloading is among the serving-dependent plugins exactly when serving with
      `hot` not turned off; it then comes right after the base plugins. */
  lemma HotReloading(server: Value, build: Value, uw: Value, env: Env)
    ensures HotModuleReplacement in ModePlugins(server, build, uw, env) <==> Hot(server)
  {
  }

  lemma HotReloadingPosition(server: Value, build: Value, uw: Value, env: Env)
    requires Hot(server)
    ensures OwnPlugins(server, build, uw, env)[3] == HotModuleReplacement
  {
  }

  /** Errors stop emitting exactly when hot reloading is on. */
  lemma NoEmitOnErrors(server: Value, build: Value, uw: Value, env: Env)
    ensures OptimizationOf(server, build, uw, env).noEmitOnErrors == if Hot(server) then Some(true) else None
  {
  }

  /** In production `minimize` says whether both the build and the user leave terser on,
      and the terser plugin is the minimizer exactly then; outside production neither
      is set. */
  lemma Minimization(server: Value, build: Value, uw: Value, env: Env)
    ensures var o := OptimizationOf(server, build, uw, env);
      && o.minimize == (if env.nodeEnv == "production" then Some(Get(build, "terser") != Bool(false) && Get(uw, "terser") != Bool(false)) else None)
      && (o.minimizer.Some? <==> o.minimize == Some(true))
      && (o.minimizer.Some? ==> o.minimizer.value == [LazyTerserPlugin(uw)])
  {
  }

  /** An app build gets the runtime chunk split out and inlined by the runtime plugin,
      which follows the HTML plugin. */
  lemma RuntimeChunk(server: Value, build: Value, uw: Value, env: Env)
    ensures OptimizationOf(server, build, uw, env).runtimeChunk == if Truthy(Get(build, "html")) then Some("single") else None
    ensures InlineRuntimePlugin in HtmlPlugins(build, uw) <==> Truthy(Get(build, "html"))
    ensures Truthy(Get(build, "html")) ==> |HtmlPlugins(build, uw)| == 2 && HtmlPlugins(build, uw)[0].kind == "HtmlWebpackPlugin"
  {
  }

  /** Vendor chunks are split only in a static build that asks for them. */
  lemma VendorChunk(server: Value, build: Value, uw: Value, env: Env)
    ensures OptimizationOf(server, build, uw, env).splitChunks.Some? <==> !Truthy(server) && Truthy(Get(build, "vendor"))
  {
  }

  // ---------------------------------------------------------------------------
  // Compatibility configs

  /** `Array.prototype.join` renders null and undefined as empty strings. */
  function JoinItem(v: Value): string
  {
    if IsNullish(v) then "" else PropertyKey(v)
  }

  function LocalesPattern(locales: seq<Value>): string
  {
    "^\\.\\/(" + Join(seq(|locales|, i requires 0 <= i < |locales| => JoinItem(locales[i])), "|") + ")$"
  }

  /** The context of each library's locale data. */
  function LocaleContext(lib: string): Value
  {
    if lib == "intl" then RegExp("intl[/\\\\]locale-data[/\\\\]jsonp$")
    else if lib == "moment" then RegExp("moment[/\\\\]locale$")
    else RegExp("react-intl[/\\\\]locale-data$")
  }

  predicate KnownCompatLib(lib: string)
  {
    lib == "intl" || lib == "moment" || lib == "react-intl"
  }

  /** `COMPAT_CONFIGS[lib]`, called with the library's options when it is one of the
      three: a config that keeps only the chosen locales. Any other name has no config. */
  function CompatConfigFor(lib: string, options: Value): (r: Value)
    requires KnownCompatLib(lib) ==> Get(options, "locales").Arr?
    ensures KnownCompatLib(lib) ==> r == Obj1("plugins", Arr([CompatPlugin(lib, Get(options, "locales").elems)]))
    ensures !KnownCompatLib(lib) ==> r == Undef
  {
    if KnownCompatLib(lib) then Obj1("plugins", Arr([CompatPlugin(lib, Get(options, "locales").elems)]))
    else Undef
  }

  /** The plugin that keeps only the chosen locales of a library's locale data. */
  function CompatPlugin(lib: string, locales: seq<Value>): Value
  {
    Instance("ContextReplacementPlugin", Arr([LocaleContext(lib), RegExp(LocalesPattern(locales))]))
  }

  /** What the validator leaves behind: each enabled library's `locales` is an array. */
  predicate CompatReady(compat: Value)
  {
    && (Truthy(Get(compat, "intl")) ==> Get(Get(compat, "intl"), "locales").Arr?)
    && (Truthy(Get(compat, "moment")) ==> Get(Get(compat, "moment"), "locales").Arr?)
    && (Truthy(Get(compat, "react-intl")) ==> Get(Get(compat, "react-intl"), "locales").Arr?)
  }

  /** The configs of the enabled libraries among `libs`, in order. */
  function CompatConfigList(compat: Value, libs: seq<string>): seq<Value>
    requires CompatReady(compat)
  {
    if libs == [] then []
    else
      var lib := libs[|libs| - 1];
      CompatConfigList(compat, libs[..|libs| - 1])
      + (if Truthy(Get(compat, lib)) then [CompatConfigFor(lib, Get(compat, lib))] else [])
  }

  /** `getCompatConfig(compat)`: nothing when no library is enabled, a copy of the one
      config, or the configs merged with their plugin lists concatenated. */
  function CompatConfig(compat: Value): Option<Value>
    requires CompatReady(compat)
  {
    var configs := CompatConfigList(compat, Keys(compat));
    if |configs| == 0 then None
    else if |configs| == 1 then Some(Assign(Obj([]), configs[0]))
    else Some(MergeLayers(Concat, configs))
  }

  method GetCompatConfig(compat: Value, libs: seq<string>) returns (r: Option<Value>)
    requires CompatReady(compat) && libs == Keys(compat)
    ensures r == CompatConfig(compat)
  {
    var configs: seq<Value> := [];
    var i := 0;
    while i < |libs|
      invariant 0 <= i <= |libs|
      invariant configs == CompatConfigList(compat, libs[..i])
    {
      PrefixStep(libs, i);
      var lib := libs[i];
      var v := Get(compat, lib);
      if Truthy(v) {
        configs := configs + [CompatConfigFor(lib, v)];
      }
      i := i + 1;
    }
    assert libs[..i] == libs;
    if |configs| == 0 {
      return None;
    }
    if |configs| == 1 {
      return Some(Assign(Obj([]), configs[0]));
    }
    return Some(MergeLayers(Concat, configs));
  }

  /** A merge result is produced exactly when some library is enabled. */
  lemma {:induction false} CompatListEmpty(compat: Value, libs: seq<string>)
    requires CompatReady(compat)
    ensures CompatConfigList(compat, libs) == [] <==> forall lib :: lib in libs ==> !Truthy(Get(compat, lib))
  {
    if libs != [] {
      CompatListEmpty(compat, libs[..|libs| - 1]);
      assert libs == libs[..|libs| - 1] + [libs[|libs| - 1]];
    }
  }

  lemma CompatNoneIffNothingEnabled(compat: Value)
    requires CompatReady(compat)
    ensures CompatConfig(compat).None? <==> forall lib :: lib in Keys(compat) ==> !Truthy(Get(compat, lib))
  {
    CompatListEmpty(compat, Keys(compat));
  }

  /** The plugins the configs of the known libraries among `libs` bring, in order. */
  function CompatPlugins(compat: Value, libs: seq<string>): seq<Value>
    requires CompatReady(compat)
  {
    if libs == [] then []
    else
      var lib := libs[|libs| - 1];
      CompatPlugins(compat, libs[..|libs| - 1])
      + (if Truthy(Get(compat, lib)) && KnownCompatLib(lib) then [CompatPlugin(lib, Get(Get(compat, lib), "locales").elems)] else [])
  }

  predicate AnyKnownEnabled(compat: Value, libs: seq<string>)
  {
    exists lib :: lib in libs && Truthy(Get(compat, lib)) && KnownCompatLib(lib)
  }

  lemma AnyKnownEnabledStep(compat: Value, libs: seq<string>)
    requires libs != []
    ensures var lib := libs[|libs| - 1];
      (AnyKnownEnabled(compat, libs)
       <==> AnyKnownEnabled(compat, libs[..|libs| - 1]) || (Truthy(Get(compat, lib)) && KnownCompatLib(lib)))
  {
    var init := libs[..|libs| - 1];
    var lib := libs[|libs| - 1];
    assert libs == init + [lib];
    if AnyKnownEnabled(compat, init) {
      var l :| l in init && Truthy(Get(compat, l)) && KnownCompatLib(l);
      assert l in libs;
    }
  }

  /** Merging the configs concatenates their plugin lists, in the order of the libraries. */
  lemma {:induction false} MergedCompatPlugins(compat: Value, libs: seq<string>)
    requires CompatReady(compat)
    ensures var m := MergeLayers(Concat, CompatConfigList(compat, libs));
      && (Has(m, "plugins") <==> AnyKnownEnabled(compat, libs))
      && (Has(m, "plugins") ==> Get(m, "plugins") == Arr(CompatPlugins(compat, libs)))
    ensures !AnyKnownEnabled(compat, libs) ==> CompatPlugins(compat, libs) == []
  {
    if libs != [] {
      var init := libs[..|libs| - 1];
      var lib := libs[|libs| - 1];
      MergedCompatPlugins(compat, init);
      assert MergedPluginsFacts(compat, init);
      if Truthy(Get(compat, lib)) && KnownCompatLib(lib) {
        KnownCompatStep(compat, libs);
      } else {
        OtherCompatStep(compat, libs);
      }
      assert MergedPluginsFacts(compat, libs);
    }
  }

  /** What merging the configs of `libs` says about their plugins. */
  predicate MergedPluginsFacts(compat: Value, libs: seq<string>)
    requires CompatReady(compat)
  {
    var m := MergeLayers(Concat, CompatConfigList(compat, libs));
    && (Has(m, "plugins") <==> AnyKnownEnabled(compat, libs))
    && (Has(m, "plugins") ==> Get(m, "plugins") == Arr(CompatPlugins(compat, libs)))
    && (!AnyKnownEnabled(compat, libs) ==> CompatPlugins(compat, libs) == [])
  }

  /** An enabled known library appends its plugin to the merged list. */
  lemma KnownCompatStep(compat: Value, libs: seq<string>)
    requires CompatReady(compat) && libs != [] && MergedPluginsFacts(compat, libs[..|libs| - 1])
    requires Truthy(Get(compat, libs[|libs| - 1])) && KnownCompatLib(libs[|libs| - 1])
    ensures MergedPluginsFacts(compat, libs)
  {
    var init := libs[..|libs| - 1];
    var lib := libs[|libs| - 1];
    AnyKnownEnabledStep(compat, libs);
    var v := Get(compat, lib);
    var prev := CompatConfigList(compat, init);
    var m0 := MergeLayers(Concat, prev);
    var ps0 := CompatPlugins(compat, init);
    var c := CompatConfigFor(lib, v);
    var locales := Get(v, "locales").elems;
    assert CompatConfigList(compat, libs) == prev + [c];
    assert CompatPlugins(compat, libs) == ps0 + [CompatPlugin(lib, locales)];
    KnownLayer(prev, c, lib, locales);
    PluginAppended(m0, MergeLayers(Concat, prev + [c]), ps0, CompatPlugin(lib, locales));
  }

  /** The plugin list after appending one plugin, from what was known of the list before. */
  lemma PluginAppended(m0: Value, m1: Value, ps0: seq<Value>, plugin: Value)
    requires Has(m0, "plugins") ==> Get(m0, "plugins") == Arr(ps0)
    requires !Has(m0, "plugins") ==> ps0 == []
    requires Get(m1, "plugins")
         == if Has(m0, "plugins") then Arr(Get(m0, "plugins").elems + [plugin]) else Arr([plugin])
    ensures Get(m1, "plugins") == Arr(ps0 + [plugin])
  {
  }

  /** A disabled library, or one without a config, leaves the merge and the plugins as they were. */
  lemma OtherCompatStep(compat: Value, libs: seq<string>)
    requires CompatReady(compat) && libs != [] && MergedPluginsFacts(compat, libs[..|libs| - 1])
    requires !(Truthy(Get(compat, libs[|libs| - 1])) && KnownCompatLib(libs[|libs| - 1]))
    ensures MergedPluginsFacts(compat, libs)
  {
    var init := libs[..|libs| - 1];
    var lib := libs[|libs| - 1];
    AnyKnownEnabledStep(compat, libs);
    var v := Get(compat, lib);
    var prev := CompatConfigList(compat, init);
    assert CompatPlugins(compat, libs) == CompatPlugins(compat, init);
    if Truthy(v) {
      var c := CompatConfigFor(lib, v);
      assert c == Undef;
      assert CompatConfigList(compat, libs) == prev + [c];
      assert (prev + [c])[..|prev|] == prev;
      assert MergeLayers(Concat, prev + [c]) == MergeLayers(Concat, prev);
    } else {
      assert CompatConfigList(compat, libs) == prev;
    }
  }

  /** Merging one more known library's config appends its plugin. */
  lemma KnownLayer(prev: seq<Value>, c: Value, lib: string, locales: seq<Value>)
    requires c == Obj1("plugins", Arr([CompatPlugin(lib, locales)]))
    requires Has(MergeLayers(Concat, prev), "plugins") ==> Get(MergeLayers(Concat, prev), "plugins").Arr?
    ensures Has(MergeLayers(Concat, prev + [c]), "plugins")
    ensures Get(MergeLayers(Concat, prev + [c]), "plugins")
         == if Has(MergeLayers(Concat, prev), "plugins")
            then Arr(Get(MergeLayers(Concat, prev), "plugins").elems + [CompatPlugin(lib, locales)])
            else Arr([CompatPlugin(lib, locales)])
  {
    var layers := prev + [c];
    assert layers[..|layers| - 1] == prev;
    LayerStep(Concat, layers, "plugins");
    GetLiteral1(c.props[0], "plugins");
  }

  /** The plugins of the compat config are those of every enabled known library, in order. */
  lemma CompatConfigPlugins(compat: Value)
    requires CompatReady(compat)
    requires CompatConfig(compat).Some? && AnyKnownEnabled(compat, Keys(compat))
    ensures Get(CompatConfig(compat).value, "plugins") == Arr(CompatPlugins(compat, Keys(compat)))
  {
    var configs := CompatConfigList(compat, Keys(compat));
    MergedCompatPlugins(compat, Keys(compat));
    if |configs| == 1 {
      assert configs == [configs[0]];
      CopiedConfig(configs[0], "plugins");
    }
  }

  /** A copy of the one config reads like a merge of that config alone. */
  lemma CopiedConfig(c: Value, k: string)
    ensures Get(Assign(Obj([]), c), k) == Get(MergeLayers(Concat, [c]), k)
  {
    SingleLayer(Concat, c, k);
  }

  /** The locale filter matches exactly the listed locale names. */
  lemma LocalesPatternExample()
    ensures LocalesPattern([Str("de"), Str("en-gb")]) == "^\\.\\/(de|en-gb)$"
  {
    var items := [Str("de"), Str("en-gb")];
    assert seq(|items|, i requires 0 <= i < |items| => JoinItem(items[i])) == ["de", "en-gb"];
    assert ["de", "en-gb"][1..] == ["en-gb"];
    assert Join(["de", "en-gb"], "|") == "de|en-gb";
  }
}
