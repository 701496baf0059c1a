/**
 * App commands: building or serving a project laid out as `src/index.js`, with an
 * optional `public/` directory and an optional `src/index.html` template. The default
 * command config is built as a literal and amended for the public directory and the
 * polyfill flag, and the app type's config is merged over it.
 */
module AppCommands {
  import opened Js
  import opened Merge
  import opened Profiles

  const DefaultHtmlPath := "src/index.html"

  /** What the commands probe for in the working directory. */
  datatype Workspace = Workspace(
    /** `directoryExists('public')` */
    publicDir: bool,
    /** `fs.existsSync('src/index.html')` */
    htmlTemplate: bool,
    /** `name` from the working directory's `package.json` */
    packageName: Value)

  /** `getDefaultHTMLConfig`: the project's own template when it has one, otherwise the
      variables the built-in template needs. */
  function DefaultHtmlConfig(ws: Workspace): (r: Value)
    ensures ws.htmlTemplate ==> Get(r, "template") == Str(DefaultHtmlPath) && Keys(r) == ["template"]
    ensures !ws.htmlTemplate ==> Get(r, "mountId") == Str("app") && Get(r, "title") == ws.packageName
                                 && Keys(r) == ["mountId", "title"]
  {
    if ws.htmlTemplate then
      var r := Obj1("template", Str(DefaultHtmlPath));
      GetLiteral1(r.props[0], "template");
      r
    else
      var r := Obj([Prop("mountId", Str("app")), Prop("title", ws.packageName)]);
      GetLiteral2(r.props[0], r.props[1], "mountId");
      GetLiteral2(r.props[0], r.props[1], "title");
      r
  }

  function EntryPath(args: Value): Value
  {
    Resolve(Or(Positional(args, 1), Str("src/index.js")))
  }

  function DistPath(args: Value): Value
  {
    Resolve(Or(Positional(args, 2), Str("dist")))
  }

  /** The copy pattern for the `public/` directory. */
  function PublicCopy(args: Value): Value
  {
    Arr([Obj([Prop("from", Resolve(Str("public"))), Prop("to", DistPath(args)), Prop("ignore", Str(".gitkeep"))])])
  }

  /** `plugins.copy`, present only when there is a `public/` directory. */
  function CopyProps(args: Value, ws: Workspace): seq<Prop>
  {
    if ws.publicDir then [Prop("copy", PublicCopy(args))] else []
  }

  function PolyfillProps(args: Value): seq<Prop>
  {
    if PolyfillsOff(args) then [Prop("polyfill", Bool(false))] else []
  }

  // ---------------------------------------------------------------------------
  // createBuildConfig

  /** `args.html !== false && getDefaultHTMLConfig()` */
  function BuildHtml(args: Value, ws: Workspace): Value
  {
    if Get(args, "html") == Bool(false) then Bool(false) else DefaultHtmlConfig(ws)
  }

  /** The html and vendor settings of the build's plugins. */
  function BuildPluginFlags(args: Value, ws: Workspace): seq<Prop>
  {
    [Prop("html", BuildHtml(args, ws)), Prop("vendor", Bool(Get(args, "vendor") != Bool(false)))]
  }

  function BuildPlugins(args: Value, ws: Workspace): Value
  {
    Obj(BuildPluginFlags(args, ws) + CopyProps(args, ws))
  }

  function BuildOutput(args: Value, production: bool): Value
  {
    Obj([Prop("filename", FilenamePattern(production)), Prop("chunkFilename", FilenamePattern(production)),
         Prop("path", DistPath(args)), Prop("publicPath", Str("/"))])
  }

  /** The literal of `createBuildConfig`. */
  function BuildCore(args: Value, ws: Workspace, production: bool): seq<Prop>
  {
    [Prop("devtool", Str("source-map")), Prop("entry", Obj1("app", Arr([EntryPath(args)]))),
     Prop("output", BuildOutput(args, production)), Prop("plugins", BuildPlugins(args, ws))]
  }

  /** The config an app build starts from, before the app type's config is merged in. */
  function BuildDefaults(args: Value, ws: Workspace, production: bool): Value
  {
    Obj(BuildCore(args, ws, production) + PolyfillProps(args))
  }

  /** The literal of `createBuildConfig`, amended for `public/` and the polyfill flag. */
  method DefaultBuildConfig(args: Value, ws: Workspace, production: bool) returns (defaults: Value)
    ensures defaults == BuildDefaults(args, ws, production)
  {
    var plugins := BuildPluginFlags(args, ws);
    if ws.publicDir {
      plugins := plugins + [Prop("copy", PublicCopy(args))];
    }
    assert Obj(plugins) == BuildPlugins(args, ws);
    var props := [Prop("devtool", Str("source-map")), Prop("entry", Obj1("app", Arr([EntryPath(args)]))),
                  Prop("output", BuildOutput(args, production)), Prop("plugins", Obj(plugins))];
    assert props == BuildCore(args, ws, production);
    if PolyfillsOff(args) {
      props := props + [Prop("polyfill", Bool(false))];
    }
    assert props == BuildCore(args, ws, production) + PolyfillProps(args);
    defaults := Obj(props);
  }

  /** `extra = {}`: an app type with no build config contributes an empty one. */
  function ExtraConfig(extra: Value): Value
  {
    if extra.Undef? then Obj([]) else extra
  }

  /** `createBuildConfig`: the defaults with the app type's build config merged over them. */
  method CreateBuildConfig(args: Value, extra: Value, ws: Workspace, production: bool) returns (config: Value)
    ensures config == WebpackMerge(BuildDefaults(args, ws, production), ExtraConfig(extra))
  {
    var defaults := DefaultBuildConfig(args, ws, production);
    config := WebpackMerge(defaults, ExtraConfig(extra));
  }

  // ---------------------------------------------------------------------------
  // createServeConfig

  function ServePlugins(args: Value, ws: Workspace): Value
  {
    Obj([Prop("html", DefaultHtmlConfig(ws))] + CopyProps(args, ws))
  }

  function ServeOutput(args: Value): Value
  {
    Obj([Prop("path", DistPath(args)), Prop("filename", Str("app.js")), Prop("publicPath", Str("/"))])
  }

  /** The config an app dev server starts from, before the app type's configs are merged in. */
  function ServeDefaults(args: Value, ws: Workspace): Value
  {
    Obj([Prop("entry", Arr([EntryPath(args)])), Prop("output", ServeOutput(args)), Prop("plugins", ServePlugins(args, ws))])
  }

  /** The literal of `createServeConfig`, amended for `public/`. */
  method DefaultServeConfig(args: Value, ws: Workspace) returns (defaults: Value)
    ensures defaults == ServeDefaults(args, ws)
  {
    var plugins := [Prop("html", DefaultHtmlConfig(ws))];
    if ws.publicDir {
      plugins := plugins + [Prop("copy", PublicCopy(args))];
    }
    assert Obj(plugins) == ServePlugins(args, ws);
    defaults := Obj([Prop("entry", Arr([EntryPath(args)])), Prop("output", ServeOutput(args)), Prop("plugins", Obj(plugins))]);
  }

  /** `createServeConfig`: the defaults with each of the given configs merged over them in turn. */
  method CreateServeConfig(args: Value, extra: seq<Value>, ws: Workspace) returns (config: Value)
    ensures config == MergeLayers(Concat, [ServeDefaults(args, ws)] + extra)
  {
    var defaults := DefaultServeConfig(args, ws);
    config := MergeLayers(Concat, [defaults] + extra);
  }

  // ---------------------------------------------------------------------------
  // build and serve

  /** `build`: cleans the output directory and runs the build, installing the app type's
      build dependencies first when it has any. */
  method Build(args: Value, profile: Profile, ws: Workspace, production: bool) returns (tasks: seq<Task>)
    ensures tasks == (if |profile.buildDependencies| > 0 then [Install(profile.buildDependencies)] else [])
                     + [CleanApp(Or(Positional(args, 2), Str("dist"))),
                        WebpackBuild(profile.name + " app",
                                     WebpackMerge(BuildDefaults(args, ws, production), ExtraConfig(profile.buildConfig)))]
  {
    var dist := Or(Positional(args, 2), Str("dist"));
    var config := CreateBuildConfig(args, profile.buildConfig, ws, production);
    tasks := [CleanApp(dist), WebpackBuild(profile.name + " app", config)];
    if |profile.buildDependencies| > 0 {
      tasks := [Install(profile.buildDependencies)] + tasks;
    }
  }

  /** `serve`: runs the dev server with the app type's serve config merged in. */
  method Serve(args: Value, profile: Profile, ws: Workspace) returns (tasks: seq<Task>)
    ensures tasks == [WebpackServe(MergeLayers(Concat, [ServeDefaults(args, ws), profile.serveConfig]))]
  {
    var config := CreateServeConfig(args, [profile.serveConfig], ws);
    tasks := [WebpackServe(config)];
  }

  // ---------------------------------------------------------------------------
  // What the default configs hold

  /** Every section but `polyfill` is the literal's. */
  lemma BuildDefaultsCore(args: Value, ws: Workspace, production: bool, k: string)
    requires k != "polyfill"
    ensures Get(BuildDefaults(args, ws, production), k) == Lookup(BuildCore(args, ws, production), k)
  {
    var poly := PolyfillProps(args);
    if poly != [] {
      assert poly[..0] == [];
    }
    LookupAppend(BuildCore(args, ws, production), poly, k);
  }

  /** Output file names carry a content hash in production only. */
  lemma BuildFilenames(args: Value, ws: Workspace, production: bool)
    ensures var output := Get(BuildDefaults(args, ws, production), "output");
      && Get(output, "filename") == Str(if production then "[name].[chunkhash:8].js" else "[name].js")
      && Get(output, "chunkFilename") == Get(output, "filename")
  {
    var core := BuildCore(args, ws, production);
    BuildDefaultsCore(args, ws, production, "output");
    GetLiteral4(core[0], core[1], core[2], core[3], "output");
    var o := BuildOutput(args, production);
    GetLiteral4(o.props[0], o.props[1], o.props[2], o.props[3], "filename");
    GetLiteral4(o.props[0], o.props[1], o.props[2], o.props[3], "chunkFilename");
  }

  /** The plugins section of the build literal. */
  lemma BuildPluginsSection(args: Value, ws: Workspace, production: bool)
    ensures Get(BuildDefaults(args, ws, production), "plugins") == BuildPlugins(args, ws)
  {
    var core := BuildCore(args, ws, production);
    BuildDefaultsCore(args, ws, production, "plugins");
    GetLiteral4(core[0], core[1], core[2], core[3], "plugins");
  }

  /** The plugins given the html and vendor settings, then the copy pattern for `public/`. */
  lemma PluginsCopy(plugins: seq<Prop>, args: Value, ws: Workspace, k: string)
    requires "copy" !in PropKeys(plugins) && k != "copy"
    ensures Get(Obj(plugins + CopyProps(args, ws)), k) == Lookup(plugins, k)
    ensures Has(Obj(plugins + CopyProps(args, ws)), "copy") <==> ws.publicDir
    ensures ws.publicDir ==> Get(Obj(plugins + CopyProps(args, ws)), "copy") == PublicCopy(args)
  {
    var extra := CopyProps(args, ws);
    if extra != [] {
      assert extra[..0] == [];
    }
    LookupAppend(plugins, extra, k);
    LookupAppend(plugins, extra, "copy");
    PropKeysAppend(plugins, extra);
  }

  /** The html plugin is off exactly when `--html=false` is given, and otherwise uses the
      default html config; the vendor bundle is on unless `--vendor=false` is given; the
      `public/` directory is copied exactly when it exists. */
  lemma BuildPluginsShape(args: Value, ws: Workspace, production: bool)
    ensures var plugins := Get(BuildDefaults(args, ws, production), "plugins");
      && (Get(plugins, "html") == Bool(false) <==> Get(args, "html") == Bool(false))
      && (Get(args, "html") != Bool(false) ==> Get(plugins, "html") == DefaultHtmlConfig(ws))
      && (Get(plugins, "vendor") == Bool(true) <==> Get(args, "vendor") != Bool(false))
      && (Has(plugins, "copy") <==> ws.publicDir)
      && (ws.publicDir ==> Get(plugins, "copy") == PublicCopy(args))
  {
    BuildPluginsSection(args, ws, production);
    var base := BuildPluginFlags(args, ws);
    assert PropKeys(base) == ["html", "vendor"];
    PluginsCopy(base, args, ws, "html");
    PluginsCopy(base, args, ws, "vendor");
    GetLiteral2(base[0], base[1], "html");
    GetLiteral2(base[0], base[1], "vendor");
  }

  /** The `polyfill` flag after a literal that does not set it. */
  lemma PolyfillTail(core: seq<Prop>, args: Value)
    requires "polyfill" !in PropKeys(core)
    ensures Has(Obj(core + PolyfillProps(args)), "polyfill") <==> PolyfillsOff(args)
    ensures PolyfillsOff(args) ==> Get(Obj(core + PolyfillProps(args)), "polyfill") == Bool(false)
  {
    var poly := PolyfillProps(args);
    if poly != [] {
      assert poly[..0] == [];
    }
    LookupAppend(core, poly, "polyfill");
    PropKeysAppend(core, poly);
  }

  /** The sections of the build literal. */
  lemma BuildCoreKeys(args: Value, ws: Workspace, production: bool)
    ensures PropKeys(BuildCore(args, ws, production)) == ["devtool", "entry", "output", "plugins"]
  {
  }

  /** Polyfills are left out exactly when `--polyfill=false` or `--polyfills=false` is given. */
  lemma BuildPolyfill(args: Value, ws: Workspace, production: bool)
    ensures var d := BuildDefaults(args, ws, production);
      && (Has(d, "polyfill") <==> PolyfillsOff(args))
      && (PolyfillsOff(args) ==> Get(d, "polyfill") == Bool(false))
  {
    BuildCoreKeys(args, ws, production);
    PolyfillTail(BuildCore(args, ws, production), args);
  }

  /** A dev server writes `app.js` from an array entry, and also copies `public/` when it exists. */
  lemma ServeDefaultsShape(args: Value, ws: Workspace)
    ensures var d := ServeDefaults(args, ws);
      && Get(d, "entry") == Arr([EntryPath(args)])
      && Get(Get(d, "output"), "filename") == Str("app.js")
      && Get(Get(d, "plugins"), "html") == DefaultHtmlConfig(ws)
      && (Has(Get(d, "plugins"), "copy") <==> ws.publicDir)
  {
    var d := ServeDefaults(args, ws);
    GetLiteral3(d.props[0], d.props[1], d.props[2], "entry");
    GetLiteral3(d.props[0], d.props[1], d.props[2], "output");
    GetLiteral3(d.props[0], d.props[1], d.props[2], "plugins");
    var o := ServeOutput(args);
    GetLiteral3(o.props[0], o.props[1], o.props[2], "filename");
    var base := [Prop("html", DefaultHtmlConfig(ws))];
    assert PropKeys(base) == ["html"];
    PluginsCopy(base, args, ws, "html");
    GetLiteral1(base[0], "html");
  }

  /** The copy pattern a dev server gets for `public/` is the one a build gets. */
  lemma ServeCopy(args: Value, ws: Workspace)
    ensures ws.publicDir ==> Get(Get(ServeDefaults(args, ws), "plugins"), "copy") == PublicCopy(args)
  {
    var d := ServeDefaults(args, ws);
    GetLiteral3(d.props[0], d.props[1], d.props[2], "plugins");
    var base := [Prop("html", DefaultHtmlConfig(ws))];
    assert PropKeys(base) == ["html"];
    PluginsCopy(base, args, ws, "html");
  }
}
