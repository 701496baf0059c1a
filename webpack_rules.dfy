/**
 * Webpack rules (lib/createWebpackConfig.js): rules and loaders identified by
 * a unique id are configured from three layers (the defaults written here,
 * the build profile's config and the user's `webpack.rules`); `false` for an
 * id in the user layer turns a rule off. The rule list has a fixed order:
 * babel, the six url-loader rules, extra build rules, then style rules.
 */
module WebpackRules {
  import opened Js
  import opened Merge

  // ---------------------------------------------------------------------------
  // Merging one rule or loader

  /** An `options` value that is truthy but has no own keys is deleted after a merge. */
  predicate EmptyOptions(v: Value)
  {
    Truthy(v) && HasNoOwnKeys(v)
  }

  function StripEmptyOptions(rule: Value): (r: Value)
    requires rule.Obj?
    ensures r.Obj?
    ensures !EmptyOptions(Get(r, "options"))
    ensures EmptyOptions(Get(rule, "options")) ==> !Has(r, "options")
    ensures !EmptyOptions(Get(rule, "options")) ==> r == rule
    ensures forall k :: k != "options" ==> Get(r, k) == Get(rule, k) && (Has(r, k) <==> Has(rule, k))
  {
    if EmptyOptions(Get(rule, "options")) then Remove(rule, "options") else rule
  }

  /** The default names a loader and the user names their own loader or loader chain. */
  predicate SwapsLoader(d: Value, u: Value)
  {
    Truthy(Get(d, "loader")) && (Truthy(Get(u, "loader")) || Truthy(Get(u, "use")))
  }

  /** `mergeRuleConfig(default, build, user)` */
  function MergeRuleConfig(d: Value, b: Value, u: Value): (r: Value)
    ensures r.Obj?
    ensures !EmptyOptions(Get(r, "options"))
  {
    StripEmptyOptions(
      if SwapsLoader(d, u) then WebpackMerge(Without(d, ["loader", "options"]), u)
      else ReplaceArrayMerge(d, b, u))
  }

  /** The user layer's value for `k` when it is merged onto a layer that lacks `k`. */
  lemma MergeOverAbsent(p: ArrayPolicy, w: Value, u: Value, k: string)
    requires !Has(w, k)
    ensures Get(MergeLayers(p, [w, u]), k) == Get(u, k)
  {
    assert [w, u][..1] == [w];
    LayerStep(p, [w, u], k);
    SingleLayer(p, w, k);
  }

  /** Loader swap: the default's loader and options are dropped, the user's take their
      place, and the build layer plays no part. */
  lemma LoaderSwap(d: Value, b: Value, b2: Value, u: Value)
    requires SwapsLoader(d, u)
    ensures MergeRuleConfig(d, b, u) == MergeRuleConfig(d, b2, u)
    ensures Get(MergeRuleConfig(d, b, u), "loader") == Get(u, "loader")
    ensures Get(MergeRuleConfig(d, b, u), "options")
         == if EmptyOptions(Get(u, "options")) then Undef else Get(u, "options")
  {
    var w := Without(d, ["loader", "options"]);
    MergeOverAbsent(Concat, w, u, "loader");
    MergeOverAbsent(Concat, w, u, "options");
  }

  /** Without a loader swap, a key other than `options` holding scalars takes the
      user's value, else the build's, else the default's. */
  lemma RulePrecedence(d: Value, b: Value, u: Value, k: string)
    requires !SwapsLoader(d, u) && k != "options"
    requires Has(d, k) ==> Scalar(Get(d, k))
    requires Has(b, k) ==> Scalar(Get(b, k))
    requires Has(u, k) ==> Scalar(Get(u, k))
    ensures Get(MergeRuleConfig(d, b, u), k)
         == if Has(u, k) then Get(u, k) else if Has(b, k) then Get(b, k) else Get(d, k)
  {
    ScalarPrecedence(Replace, d, b, u, k);
  }

  /** `mergeLoaderConfig(default, build, user)` */
  function MergeLoaderConfig(d: Value, b: Value, u: Value): (r: Value)
    ensures r.Obj?
    ensures !EmptyOptions(Get(r, "options"))
  {
    StripEmptyOptions(
      if Truthy(Get(u, "loader")) then Assign(Obj([]), u)
      else ReplaceArrayMerge(d, b, u))
  }

  /** A user loader replaces the whole entry: the result is a shallow copy of the
      user's config, whatever the default and build say... */
  lemma UserLoaderCopied(d: Value, b: Value, d2: Value, b2: Value, u: Value)
    requires Truthy(Get(u, "loader"))
    ensures MergeLoaderConfig(d, b, u) == MergeLoaderConfig(d2, b2, u)
    ensures forall k :: k != "options" ==>
              Get(MergeLoaderConfig(d, b, u), k) == Get(u, k)
              && (Has(MergeLoaderConfig(d, b, u), k) <==> Has(u, k))
  {
  }

  /** ...less an `options` that is empty. */
  lemma UserLoaderOptions(d: Value, b: Value, u: Value)
    requires Truthy(Get(u, "loader"))
    ensures Get(MergeLoaderConfig(d, b, u), "options")
         == if EmptyOptions(Get(u, "options")) then Undef else Get(u, "options")
  {
  }

  // ---------------------------------------------------------------------------
  // Rule and loader factories

  /** The build and user layers a factory was created with. */
  datatype Layers = Layers(build: Value, user: Value)

  /** A rule configured by id; `None` is the `null` of a rule the user turned off. */
  function CreateRuleConfig(f: Layers, id: Value, dflt: Value): (r: Option<Value>)
    ensures r.None? <==> Truthy(id) && Get(f.user, PropertyKey(id)) == Bool(false)
    ensures !Truthy(id) ==> r == Some(dflt)
    ensures r.Some? && Truthy(id) ==>
              r.value == MergeRuleConfig(dflt, Get(f.build, PropertyKey(id)), Get(f.user, PropertyKey(id)))
  {
    if Truthy(id) then
      var key := PropertyKey(id);
      if Get(f.user, key) == Bool(false) then None
      else Some(MergeRuleConfig(dflt, Get(f.build, key), Get(f.user, key)))
    else Some(dflt)
  }

  /** A loader configured by id; it cannot be turned off. */
  function CreateLoaderConfig(f: Layers, id: Value, dflt: Value): (r: Value)
    ensures !Truthy(id) ==> r == dflt
    ensures Truthy(id) ==> r == MergeLoaderConfig(dflt, Get(f.build, PropertyKey(id)), Get(f.user, PropertyKey(id)))
    ensures dflt.Obj? ==> r.Obj?
  {
    if Truthy(id) then
      var key := PropertyKey(id);
      MergeLoaderConfig(dflt, Get(f.build, key), Get(f.user, key))
    else dflt
  }

  /** Neither layer of the factory says anything about `key`. */
  predicate Unconfigured(f: Layers, key: string)
  {
    Get(f.build, key) == Undef && Get(f.user, key) == Undef
  }

  /** Merging a layer with two layers that say nothing leaves its keys and values. */
  lemma OnlyDefaultLayer(p: ArrayPolicy, d: Value, k: string)
    ensures Get(MergeLayers(p, [d, Undef, Undef]), k) == Get(d, k)
    ensures Has(MergeLayers(p, [d, Undef, Undef]), k) <==> Has(d, k)
  {
    var l := [d, Undef, Undef];
    assert l[..2] == [d, Undef];
    assert l[..2][..1] == [d];
    LayerStep(p, l, k);
    LayerStep(p, l[..2], k);
    SingleLayer(p, d, k);
  }

  /** An unconfigured loader is its default, less an empty `options`. */
  lemma UnconfiguredLoader(f: Layers, key: string, dflt: Value, k: string)
    requires key != "" && Unconfigured(f, key)
    ensures k != "options" || !EmptyOptions(Get(dflt, "options")) ==>
              Get(CreateLoaderConfig(f, Str(key), dflt), k) == Get(dflt, k)
  {
    OnlyDefaultLayer(Replace, dflt, k);
  }

  // ---------------------------------------------------------------------------
  // Loader ids

  /** `loaderConfigName(prefix)(name)`; the empty prefix stands for no prefix. */
  function LoaderConfigName(prefix: string, name: string): (r: string)
    ensures prefix != "" && EndsWith(prefix, name) ==> r == prefix
    ensures prefix != "" && !EndsWith(prefix, name) ==> r == prefix + "-" + name
    ensures prefix == "" ==> r == name
  {
    if prefix != "" && EndsWith(prefix, name) then prefix
    else if prefix != "" then prefix + "-" + name
    else name
  }

  /** Every generated id ends with the loader's name and starts with the prefix. */
  lemma LoaderConfigNameShape(prefix: string, name: string)
    ensures EndsWith(LoaderConfigName(prefix, name), name)
    ensures StartsWith(LoaderConfigName(prefix, name), prefix)
  {
    var r := LoaderConfigName(prefix, name);
    if prefix != "" && !EndsWith(prefix, name) {
      assert r[|r| - |name|..] == name;
      assert r[..|prefix|] == prefix;
    }
  }

  lemma LoaderConfigNameExamples()
    ensures LoaderConfigName("sass", "css") == "sass-css"
    ensures LoaderConfigName("sass", "sass") == "sass"
    ensures LoaderConfigName("", "postcss") == "postcss"
  {
    assert !EndsWith("sass", "css") by {
      assert "sass"[1..] != "css";
    }
    assert "sass"[0..] == "sass";
  }

  // ---------------------------------------------------------------------------
  // Style loader chains

  /** A style preprocessor: its loader id (empty for none) and default loader config. */
  datatype Preprocessor = Preprocessor(id: string, config: Value)

  const StyleLoaderPath := Path("style-loader")
  const ExtractCssLoaderPath := Path("mini-css-extract-plugin/loader")
  const CssLoaderPath := Path("css-loader")
  const PostcssLoaderPath := Path("postcss-loader")
  const DefaultBrowsers := Arr([Str(">1%"), Str("last 4 versions"), Str("Firefox ESR"), Str("not ie < 9")])

  /** `createDefaultPostCSSPlugins`: autoprefixer with the default browsers, overridden by the user's options. */
  function DefaultPostCssPlugins(uw: Value): (r: seq<Value>)
    ensures |r| == 1 && r[0].Instance? && r[0].kind == "autoprefixer"
    ensures !Has(Get(uw, "autoprefixer"), "browsers") ==> Get(r[0].options, "browsers") == DefaultBrowsers
    ensures Has(Get(uw, "autoprefixer"), "browsers") ==>
              Get(r[0].options, "browsers") == Get(Get(uw, "autoprefixer"), "browsers")
  {
    [Instance("autoprefixer", Assign(Obj1("browsers", DefaultBrowsers), Get(uw, "autoprefixer")))]
  }

  function StyleLoaderDefault(server: bool): Value
  {
    Obj([Prop("loader", StyleLoaderPath), Prop("options", Obj1("hmr", Bool(server)))])
  }

  const ExtractCssLoaderDefault := Obj1("loader", ExtractCssLoaderPath)
  const CssLoaderDefault := Obj([Prop("loader", CssLoaderPath), Prop("options", Obj1("importLoaders", Num(1)))])

  function PostcssLoaderDefault(prefix: string, uw: Value): Value
  {
    Obj([Prop("loader", PostcssLoaderPath),
         Prop("options", Obj([Prop("ident", Str(LoaderConfigName(prefix, "postcss"))),
                              Prop("plugins", Arr(DefaultPostCssPlugins(uw)))]))])
  }

  /** Styles are injected by style-loader when serving or when CSS extraction is off. */
  predicate InjectsStyles(server: bool, uw: Value)
  {
    server || Get(uw, "extractCSS") == Bool(false)
  }

  /** The id a preprocessor's loader is configured by (`null` when it has none). */
  function PreprocessorLoaderId(prefix: string, p: Preprocessor): Value
  {
    if p.id != "" then Str(LoaderConfigName(prefix, p.id)) else Null
  }

  /** The style loader chain: inject or extract, css, postcss, then the preprocessor. */
  /** The loader that injects styles or extracts them to a file. */
  function FirstStyleLoader(f: Layers, uw: Value, prefix: string, server: bool): Value
  {
    if InjectsStyles(server, uw)
    then CreateLoaderConfig(f, Str(LoaderConfigName(prefix, "style")), StyleLoaderDefault(server))
    else CreateLoaderConfig(f, Str(LoaderConfigName(prefix, "extract-css")), ExtractCssLoaderDefault)
  }

  function CssLoader(f: Layers, prefix: string): Value
  {
    CreateLoaderConfig(f, Str(LoaderConfigName(prefix, "css")), CssLoaderDefault)
  }

  function PostcssLoader(f: Layers, uw: Value, prefix: string): Value
  {
    CreateLoaderConfig(f, Str(LoaderConfigName(prefix, "postcss")), PostcssLoaderDefault(prefix, uw))
  }

  function PreprocessorLoaders(f: Layers, pre: Option<Preprocessor>, prefix: string): seq<Value>
  {
    if pre.Some? then [CreateLoaderConfig(f, PreprocessorLoaderId(prefix, pre.value), pre.value.config)] else []
  }

  function StyleChain(f: Layers, uw: Value, pre: Option<Preprocessor>, prefix: string, server: bool): seq<Value>
  {
    [FirstStyleLoader(f, uw, prefix, server), CssLoader(f, prefix), PostcssLoader(f, uw, prefix)]
    + PreprocessorLoaders(f, pre, prefix)
  }

  /** `createStyleLoaders`: the chain is built by pushing the preprocessor last and
      unshifting the inject or extract loader in front. */
  method CreateStyleLoaders(f: Layers, uw: Value, pre: Option<Preprocessor>, prefix: string, server: bool)
    returns (loaders: seq<Value>)
    ensures loaders == StyleChain(f, uw, pre, prefix, server)
  {
    var styleLoader := CreateLoaderConfig(f, Str(LoaderConfigName(prefix, "style")), StyleLoaderDefault(server));
    loaders := [CssLoader(f, prefix), PostcssLoader(f, uw, prefix)];
    if pre.Some? {
      loaders := loaders + [CreateLoaderConfig(f, PreprocessorLoaderId(prefix, pre.value), pre.value.config)];
    }
    assert loaders == [CssLoader(f, prefix), PostcssLoader(f, uw, prefix)] + PreprocessorLoaders(f, pre, prefix);
    if server || Get(uw, "extractCSS") == Bool(false) {
      loaders := [styleLoader] + loaders;
    } else {
      loaders := [CreateLoaderConfig(f, Str(LoaderConfigName(prefix, "extract-css")), ExtractCssLoaderDefault)] + loaders;
    }
    ChainAssoc(FirstStyleLoader(f, uw, prefix, server), CssLoader(f, prefix), PostcssLoader(f, uw, prefix),
               PreprocessorLoaders(f, pre, prefix));
  }

  lemma ChainAssoc<T>(a: T, b: T, c: T, d: seq<T>)
    ensures [a] + ([b, c] + d) == [a, b, c] + d
  {
    assert [a, b, c] == [a] + [b, c];
  }

  /** With none of its loaders configured, the chain holds style-loader (with
      `hmr` equal to `server`) or the extract loader, then css-loader, then
      postcss-loader, then the preprocessor's loader when there is one. */
  lemma DefaultStyleChain(f: Layers, uw: Value, pre: Option<Preprocessor>, prefix: string, server: bool)
    requires Unconfigured(f, LoaderConfigName(prefix, "style")) && Unconfigured(f, LoaderConfigName(prefix, "extract-css"))
    requires Unconfigured(f, LoaderConfigName(prefix, "css")) && Unconfigured(f, LoaderConfigName(prefix, "postcss"))
    requires pre.Some? ==> pre.value.id != "" && Unconfigured(f, LoaderConfigName(prefix, pre.value.id))
    ensures |StyleChain(f, uw, pre, prefix, server)| == (if pre.Some? then 4 else 3)
    ensures Get(StyleChain(f, uw, pre, prefix, server)[0], "loader")
         == (if InjectsStyles(server, uw) then StyleLoaderPath else ExtractCssLoaderPath)
    ensures InjectsStyles(server, uw) ==>
              Get(Get(StyleChain(f, uw, pre, prefix, server)[0], "options"), "hmr") == Bool(server)
    ensures Get(StyleChain(f, uw, pre, prefix, server)[1], "loader") == CssLoaderPath
    ensures Get(StyleChain(f, uw, pre, prefix, server)[2], "loader") == PostcssLoaderPath
    ensures pre.Some? ==> Get(StyleChain(f, uw, pre, prefix, server)[3], "loader") == Get(pre.value.config, "loader")
  {
    ChainHead(f, uw, pre, prefix, server);
    ChainMiddle(f, uw, pre, prefix, server);
    ChainTail(f, uw, pre, prefix, server);
  }

  lemma ChainHead(f: Layers, uw: Value, pre: Option<Preprocessor>, prefix: string, server: bool)
    requires Unconfigured(f, LoaderConfigName(prefix, "style")) && Unconfigured(f, LoaderConfigName(prefix, "extract-css"))
    ensures |StyleChain(f, uw, pre, prefix, server)| == (if pre.Some? then 4 else 3)
    ensures Get(StyleChain(f, uw, pre, prefix, server)[0], "loader")
         == (if InjectsStyles(server, uw) then StyleLoaderPath else ExtractCssLoaderPath)
    ensures InjectsStyles(server, uw) ==>
              Get(Get(StyleChain(f, uw, pre, prefix, server)[0], "options"), "hmr") == Bool(server)
  {
    DefaultFirstLoader(f, uw, prefix, server);
  }

  lemma ChainMiddle(f: Layers, uw: Value, pre: Option<Preprocessor>, prefix: string, server: bool)
    requires Unconfigured(f, LoaderConfigName(prefix, "css")) && Unconfigured(f, LoaderConfigName(prefix, "postcss"))
    ensures Get(StyleChain(f, uw, pre, prefix, server)[1], "loader") == CssLoaderPath
    ensures Get(StyleChain(f, uw, pre, prefix, server)[2], "loader") == PostcssLoaderPath
  {
    UnconfiguredCssLoader(f, prefix);
    UnconfiguredPostcssLoader(f, uw, prefix);
  }

  lemma ChainTail(f: Layers, uw: Value, pre: Option<Preprocessor>, prefix: string, server: bool)
    requires pre.Some? ==> pre.value.id != "" && Unconfigured(f, LoaderConfigName(prefix, pre.value.id))
    ensures pre.Some? ==> Get(StyleChain(f, uw, pre, prefix, server)[3], "loader") == Get(pre.value.config, "loader")
  {
    DefaultPreprocessorLoader(f, pre, prefix);
  }

  lemma DefaultFirstLoader(f: Layers, uw: Value, prefix: string, server: bool)
    requires Unconfigured(f, LoaderConfigName(prefix, "style")) && Unconfigured(f, LoaderConfigName(prefix, "extract-css"))
    ensures Get(FirstStyleLoader(f, uw, prefix, server), "loader")
         == (if InjectsStyles(server, uw) then StyleLoaderPath else ExtractCssLoaderPath)
    ensures InjectsStyles(server, uw) ==> Get(Get(FirstStyleLoader(f, uw, prefix, server), "options"), "hmr") == Bool(server)
  {
    if InjectsStyles(server, uw) {
      UnconfiguredStyleLoader(f, prefix, server);
    } else {
      UnconfiguredExtractLoader(f, prefix);
    }
  }

  lemma UnconfiguredStyleLoader(f: Layers, prefix: string, server: bool)
    requires Unconfigured(f, LoaderConfigName(prefix, "style"))
    ensures var l := CreateLoaderConfig(f, Str(LoaderConfigName(prefix, "style")), StyleLoaderDefault(server));
      Get(l, "loader") == StyleLoaderPath && Get(Get(l, "options"), "hmr") == Bool(server)
  {
    var o := Obj1("hmr", Bool(server));
    GetLiteral2(Prop("loader", StyleLoaderPath), Prop("options", o), "loader");
    GetLiteral2(Prop("loader", StyleLoaderPath), Prop("options", o), "options");
    GetLiteral1(Prop("hmr", Bool(server)), "hmr");
    PrefixedLoader(f, prefix, "style", StyleLoaderDefault(server), "loader");
    PrefixedLoader(f, prefix, "style", StyleLoaderDefault(server), "options");
  }

  lemma UnconfiguredExtractLoader(f: Layers, prefix: string)
    requires Unconfigured(f, LoaderConfigName(prefix, "extract-css"))
    ensures Get(CreateLoaderConfig(f, Str(LoaderConfigName(prefix, "extract-css")), ExtractCssLoaderDefault), "loader")
         == ExtractCssLoaderPath
  {
    GetLiteral1(Prop("loader", ExtractCssLoaderPath), "loader");
    PrefixedLoader(f, prefix, "extract-css", ExtractCssLoaderDefault, "loader");
  }

  lemma UnconfiguredCssLoader(f: Layers, prefix: string)
    requires Unconfigured(f, LoaderConfigName(prefix, "css"))
    ensures Get(CssLoader(f, prefix), "loader") == CssLoaderPath
  {
    GetLiteral2(Prop("loader", CssLoaderPath), Prop("options", Obj1("importLoaders", Num(1))), "loader");
    PrefixedLoader(f, prefix, "css", CssLoaderDefault, "loader");
  }

  lemma UnconfiguredPostcssLoader(f: Layers, uw: Value, prefix: string)
    requires Unconfigured(f, LoaderConfigName(prefix, "postcss"))
    ensures Get(PostcssLoader(f, uw, prefix), "loader") == PostcssLoaderPath
  {
    var d := PostcssLoaderDefault(prefix, uw);
    GetLiteral2(d.props[0], d.props[1], "loader");
    PrefixedLoader(f, prefix, "postcss", d, "loader");
  }

  lemma DefaultPreprocessorLoader(f: Layers, pre: Option<Preprocessor>, prefix: string)
    requires pre.Some? ==> pre.value.id != "" && Unconfigured(f, LoaderConfigName(prefix, pre.value.id))
    ensures |PreprocessorLoaders(f, pre, prefix)| == (if pre.Some? then 1 else 0)
    ensures pre.Some? ==> Get(PreprocessorLoaders(f, pre, prefix)[0], "loader") == Get(pre.value.config, "loader")
  {
    if pre.Some? {
      PrefixedLoader(f, prefix, pre.value.id, pre.value.config, "loader");
    }
  }

  /** `UnconfiguredLoader` for the id a prefix gives a loader name. */
  lemma PrefixedLoader(f: Layers, prefix: string, n: string, dflt: Value, k: string)
    requires n != "" && Unconfigured(f, LoaderConfigName(prefix, n))
    requires k != "options" || !EmptyOptions(Get(dflt, "options"))
    ensures Get(CreateLoaderConfig(f, Str(LoaderConfigName(prefix, n)), dflt), k) == Get(dflt, k)
  {
    LoaderConfigNameShape(prefix, n);
    UnconfiguredLoader(f, LoaderConfigName(prefix, n), dflt, k);
  }

  // ---------------------------------------------------------------------------
  // Style rules

  const CssTest := RegExp("\\.css$")

  /** `userWebpackConfig.styles || {}` */
  function StyleConfig(uw: Value): Value
  {
    var s := Get(uw, "styles");
    if Truthy(s) then s else Obj([])
  }

  /** `[].concat(...entry)`: the rule configs of one configured style type. */
  function RuleConfigs(entry: Value): seq<Value>
  {
    if entry.Arr? then Flatten1(entry.elems) else []
  }

  /** The test of a configured style type: .css files, or the preprocessor plugin's test. */
  function TypeTest(t: string, pc: Value): Value
  {
    if t == "css" then CssTest else Get(Get(Get(pc, "cssPreprocessors"), t), "test")
  }

  /** The preprocessor of a configured style type, with no loader id of its own. */
  function TypePreprocessor(t: string, pc: Value): Option<Preprocessor>
  {
    if t == "css" then None
    else Some(Preprocessor("", Obj1("loader", Get(Get(Get(pc, "cssPreprocessors"), t), "loader"))))
  }

  /** A user-configured style rule: test and loader chain, overridden by the rule's own keys. */
  function CustomStyleRule(server: bool, uw: Value, test: Value, pre: Option<Preprocessor>, rc: Value): Value
  {
    StyleRule(test, StyleChain(Layers(Obj([]), Get(rc, "loaders")), uw, pre, "", server), rc)
  }

  /** `{test, use, ...rule}` for a rule config less its `loaders`. */
  function StyleRule(test: Value, use: seq<Value>, rc: Value): Value
  {
    Assign(Obj([Prop("test", test), Prop("use", Arr(use))]), Without(rc, ["loaders"]))
  }

  function CustomStyleRules(server: bool, uw: Value, test: Value, pre: Option<Preprocessor>, rcs: seq<Value>)
    : seq<Option<Value>>
  {
    if rcs == [] then []
    else CustomStyleRules(server, uw, test, pre, rcs[..|rcs| - 1])
         + [Some(CustomStyleRule(server, uw, test, pre, rcs[|rcs| - 1]))]
  }

  /** The rules for the style types configured under `webpack.styles`, type by type. */
  function ConfiguredStyleRules(server: bool, uw: Value, pc: Value, sc: Value, types: seq<string>)
    : seq<Option<Value>>
  {
    if types == [] then []
    else
      var t := types[|types| - 1];
      ConfiguredStyleRules(server, uw, pc, sc, types[..|types| - 1])
      + CustomStyleRules(server, uw, TypeTest(t, pc), TypePreprocessor(t, pc), RuleConfigs(Get(sc, t)))
  }

  function DefaultCssRule(server: bool, uw: Value, f: Layers): Option<Value>
  {
    CreateRuleConfig(f, Str("css-rule"), Obj([Prop("test", CssTest), Prop("use", Arr(StyleChain(f, uw, None, "", server)))]))
  }

  function PreprocessorRule(server: bool, uw: Value, pp: Value, f: Layers, id: string): Option<Value>
  {
    var plugin := Get(pp, id);
    CreateRuleConfig(f, Str(id + "-rule"),
      Obj([Prop("test", Get(plugin, "test")),
           Prop("use", Arr(StyleChain(f, uw, Some(Preprocessor(id, Obj1("loader", Get(plugin, "loader")))), id, server)))]))
  }

  /** A default rule for each preprocessor plugin whose type the user did not configure. */
  function PreprocessorRules(server: bool, uw: Value, pp: Value, sc: Value, f: Layers, ids: seq<string>)
    : seq<Option<Value>>
  {
    if ids == [] then []
    else
      var id := ids[|ids| - 1];
      PreprocessorRules(server, uw, pp, sc, f, ids[..|ids| - 1])
      + (if Has(sc, id) then [] else [PreprocessorRule(server, uw, pp, f, id)])
  }

  /** The style rules: configured types in key order, then the default css rule unless
      css is configured, then the default rules of unconfigured preprocessors. */
  function StyleRules(server: bool, uw: Value, pc: Value, f: Layers): seq<Option<Value>>
  {
    var sc := StyleConfig(uw);
    var pp := Get(pc, "cssPreprocessors");
    ConfiguredStyleRules(server, uw, pc, sc, Keys(sc))
    + (if Has(sc, "css") then [] else [DefaultCssRule(server, uw, f)])
    + PreprocessorRules(server, uw, pp, sc, f, Keys(pp))
  }

  /** `createStyleRules`: configured rules, the default css rule, then preprocessor rules. */
  method CreateStyleRules(server: bool, uw: Value, pc: Value, f: Layers) returns (styleRules: seq<Option<Value>>)
    ensures styleRules == StyleRules(server, uw, pc, f)
  {
    var sc := StyleConfig(uw);
    styleRules := CreateConfiguredStyleRules(server, uw, pc, sc, Keys(sc));
    if !Has(sc, "css") {
      var use := CreateStyleLoaders(f, uw, None, "", server);
      styleRules := styleRules + [CreateRuleConfig(f, Str("css-rule"), Obj([Prop("test", CssTest), Prop("use", Arr(use))]))];
    }
    var pp := Get(pc, "cssPreprocessors");
    var rest := CreatePreprocessorRules(server, uw, pp, sc, f, Keys(pp));
    styleRules := styleRules + rest;
  }

  /** The configured style types, pushed type by type. */
  method CreateConfiguredStyleRules(server: bool, uw: Value, pc: Value, sc: Value, types: seq<string>)
    returns (out: seq<Option<Value>>)
    ensures out == ConfiguredStyleRules(server, uw, pc, sc, types)
  {
    out := [];
    var i := 0;
    while i < |types|
      invariant 0 <= i <= |types|
      invariant out == ConfiguredStyleRules(server, uw, pc, sc, types[..i])
    {
      var t := types[i];
      var rules := CreateCustomStyleRules(server, uw, TypeTest(t, pc), TypePreprocessor(t, pc), RuleConfigs(Get(sc, t)));
      out := out + rules;
      PrefixStep(types, i);
      i := i + 1;
    }
    assert types[..i] == types;
  }

  /** The rules of one configured style type, pushed rule by rule. */
  method CreateCustomStyleRules(server: bool, uw: Value, test: Value, pre: Option<Preprocessor>, rcs: seq<Value>)
    returns (out: seq<Option<Value>>)
    ensures out == CustomStyleRules(server, uw, test, pre, rcs)
  {
    out := [];
    var j := 0;
    while j < |rcs|
      invariant 0 <= j <= |rcs|
      invariant out == CustomStyleRules(server, uw, test, pre, rcs[..j])
    {
      var rule := CreateCustomStyleRule(server, uw, test, pre, rcs[j]);
      out := out + [Some(rule)];
      PrefixStep(rcs, j);
      j := j + 1;
    }
    assert rcs[..j] == rcs;
  }

  method CreateCustomStyleRule(server: bool, uw: Value, test: Value, pre: Option<Preprocessor>, rc: Value)
    returns (rule: Value)
    ensures rule == CustomStyleRule(server, uw, test, pre, rc)
  {
    var use := CreateStyleLoaders(Layers(Obj([]), Get(rc, "loaders")), uw, pre, "", server);
    rule := StyleRule(test, use, rc);
  }

  /** The default rules of the preprocessor plugins the user did not configure. */
  method CreatePreprocessorRules(server: bool, uw: Value, pp: Value, sc: Value, f: Layers, ids: seq<string>)
    returns (out: seq<Option<Value>>)
    ensures out == PreprocessorRules(server, uw, pp, sc, f, ids)
  {
    out := [];
    var k := 0;
    while k < |ids|
      invariant 0 <= k <= |ids|
      invariant out == PreprocessorRules(server, uw, pp, sc, f, ids[..k])
    {
      var id := ids[k];
      PrefixStep(ids, k);
      if !Has(sc, id) {
        var rule := CreatePreprocessorRule(server, uw, pp, f, id);
        out := out + [rule];
      }
      k := k + 1;
    }
    assert ids[..k] == ids;
  }

  method CreatePreprocessorRule(server: bool, uw: Value, pp: Value, f: Layers, id: string) returns (rule: Option<Value>)
    ensures rule == PreprocessorRule(server, uw, pp, f, id)
  {
    var plugin := Get(pp, id);
    var use := CreateStyleLoaders(f, uw, Some(Preprocessor(id, Obj1("loader", Get(plugin, "loader")))), id, server);
    rule := CreateRuleConfig(f, Str(id + "-rule"), Obj([Prop("test", Get(plugin, "test")), Prop("use", Arr(use))]));
  }

  // ---------------------------------------------------------------------------
  // The rule list

  /** `rules.filter(Boolean)`: every rule is an object, so only the `null`s go. */
  function Somes(xs: seq<Option<Value>>): seq<Value>
  {
    if xs == [] then [] else Somes(xs[..|xs| - 1]) + (if xs[|xs| - 1].Some? then [xs[|xs| - 1].value] else [])
  }

  lemma {:induction false} SomesAppend(xs: seq<Option<Value>>, ys: seq<Option<Value>>)
    ensures Somes(xs + ys) == Somes(xs) + Somes(ys)
    decreases |ys|
  {
    if ys == [] {
      assert xs + ys == xs;
    } else {
      assert (xs + ys)[..|xs + ys| - 1] == xs + ys[..|ys| - 1];
      SomesAppend(xs, ys[..|ys| - 1]);
    }
  }

  /** Filtering keeps exactly the rules that were not turned off. */
  lemma {:induction false} SomesMembers(xs: seq<Option<Value>>)
    ensures forall v :: v in Somes(xs) <==> Some(v) in xs
  {
    if xs != [] {
      SomesMembers(xs[..|xs| - 1]);
      assert xs == xs[..|xs| - 1] + [xs[|xs| - 1]];
    }
  }

  /** With nothing turned off, filtering keeps every rule in place. */
  lemma {:induction false} SomesAllPresent(xs: seq<Option<Value>>)
    requires forall i :: 0 <= i < |xs| ==> xs[i].Some?
    ensures |Somes(xs)| == |xs|
    ensures forall i :: 0 <= i < |xs| ==> Somes(xs)[i] == xs[i].value
  {
    if xs != [] {
      SomesAllPresent(xs[..|xs| - 1]);
    }
  }

  function UrlRule(test: string): Value
  {
    Obj([Prop("test", RegExp(test)), Prop("loader", Path("url-loader")),
         Prop("options", Obj([Prop("limit", Num(1)), Prop("name", Str("[name].[hash:8].[ext]"))]))])
  }

  /** The babel rule; under the test environment the polyfills module is excluded too. */
  function BabelRule(nwbTest: bool): Value
  {
    Obj([Prop("test", RegExp("\\.js$")), Prop("loader", Path("babel-loader")),
         Prop("exclude", RegExp(if nwbTest then "(node_modules|nwb[\\\\/]polyfills\\.js$)" else "node_modules")),
         Prop("options", Obj([Prop("babelrc", Bool(false)), Prop("cacheDirectory", Bool(true))]))])
  }

  const FixedRuleIds := ["babel", "graphics", "svg", "jpeg", "fonts", "video", "audio"]

  /** The default of a fixed rule: babel, or url-loader with the id's file types. */
  function FixedRuleDefault(id: string, nwbTest: bool): Value
  {
    match id
    case "babel" => BabelRule(nwbTest)
    case "graphics" => UrlRule("\\.(gif|png|webp)$")
    case "svg" => UrlRule("\\.svg$")
    case "jpeg" => UrlRule("\\.jpe?g$")
    case "fonts" => UrlRule("\\.(eot|otf|ttf|woff|woff2)$")
    case "video" => UrlRule("\\.(mp4|ogg|webm)$")
    case _ => UrlRule("\\.(wav|mp3|m4a|aac|oga)$")
  }

  /** The seven default rules, by id, in their fixed order. */
  function FixedRules(f: Layers, nwbTest: bool): (r: seq<Option<Value>>)
    ensures |r| == |FixedRuleIds|
    ensures forall i :: 0 <= i < |r| ==> (r[i].None? <==> Get(f.user, FixedRuleIds[i]) == Bool(false))
  {
    seq(|FixedRuleIds|, i requires 0 <= i < |FixedRuleIds| =>
      CreateRuleConfig(f, Str(FixedRuleIds[i]), FixedRuleDefault(FixedRuleIds[i], nwbTest)))
  }

  /** `createExtraRules(extra, user rules)`: each rule configured by its `id`, which is
      not part of the rule itself. */
  function CreateExtraRules(extra: Value, userRules: Value): (r: seq<Option<Value>>)
    ensures !extra.Arr? ==> r == []
    ensures extra.Arr? ==> |r| == |extra.elems|
  {
    if extra.Arr? then
      seq(|extra.elems|, i requires 0 <= i < |extra.elems| =>
        CreateRuleConfig(Layers(Obj([]), userRules), Get(extra.elems[i], "id"), Without(extra.elems[i], ["id"])))
    else []
  }

  /** An extra rule without an id is kept as written, less its `id` key; one with an id
      is dropped exactly when the user sets that id to `false`. */
  lemma ExtraRule(extra: Value, userRules: Value, i: nat)
    requires extra.Arr? && i < |extra.elems|
    ensures var x := extra.elems[i];
      && (!Truthy(Get(x, "id")) ==> CreateExtraRules(extra, userRules)[i] == Some(Without(x, ["id"])))
      && (CreateExtraRules(extra, userRules)[i].None?
          <==> Truthy(Get(x, "id")) && Get(userRules, PropertyKey(Get(x, "id"))) == Bool(false))
  {
  }

  /** `createRules`: fixed rules, extra build rules, then style rules unless styles are off. */
  function Rules(server: bool, build: Value, uw: Value, pc: Value, nwbTest: bool): seq<Value>
  {
    var f := Layers(build, Get(uw, "rules"));
    Somes(FixedRules(f, nwbTest) + CreateExtraRules(Get(build, "extra"), Get(uw, "rules"))
          + (if Get(uw, "styles") != Bool(false) then StyleRules(server, uw, pc, f) else []))
  }

  method CreateRules(server: bool, build: Value, uw: Value, pc: Value, nwbTest: bool) returns (rules: seq<Value>)
    ensures rules == Rules(server, build, uw, pc, nwbTest)
  {
    var f := Layers(build, Get(uw, "rules"));
    var fixed := FixedRules(f, nwbTest);
    var extra := CreateExtraRules(Get(build, "extra"), Get(uw, "rules"));
    var styleRules := [];
    if Get(uw, "styles") != Bool(false) {
      styleRules := CreateStyleRules(server, uw, pc, f);
    }
    rules := Somes(fixed + extra + styleRules);
  }

  /** The rule list is the surviving fixed rules, then the surviving extra rules, then
      the surviving style rules, each group in its own order; `styles: false` leaves
      out the last group. */
  lemma RuleOrder(server: bool, build: Value, uw: Value, pc: Value, nwbTest: bool)
    ensures var f := Layers(build, Get(uw, "rules"));
      Rules(server, build, uw, pc, nwbTest)
      == Somes(FixedRules(f, nwbTest)) + Somes(CreateExtraRules(Get(build, "extra"), Get(uw, "rules")))
         + (if Get(uw, "styles") != Bool(false) then Somes(StyleRules(server, uw, pc, f)) else [])
  {
    var f := Layers(build, Get(uw, "rules"));
    var a := FixedRules(f, nwbTest);
    var b := CreateExtraRules(Get(build, "extra"), Get(uw, "rules"));
    var c := if Get(uw, "styles") != Bool(false) then StyleRules(server, uw, pc, f) else [];
    SomesAppend(a + b, c);
    SomesAppend(a, b);
    if c == [] {
      assert Somes(c) == [];
    }
  }

  /** When the user turns none of the seven default rules off, they open the list in
      their fixed order. */
  lemma FixedRulesFirst(server: bool, build: Value, uw: Value, pc: Value, nwbTest: bool)
    requires forall id :: id in FixedRuleIds ==> Get(Get(uw, "rules"), id) != Bool(false)
    ensures var f := Layers(build, Get(uw, "rules"));
      var rules := Rules(server, build, uw, pc, nwbTest);
      |rules| >= 7 && forall i :: 0 <= i < 7 ==> rules[i] == FixedRules(f, nwbTest)[i].value
  {
    var f := Layers(build, Get(uw, "rules"));
    var a := FixedRules(f, nwbTest);
    forall i | 0 <= i < |a| ensures a[i].Some? {
      assert FixedRuleIds[i] in FixedRuleIds;
    }
    SomesAllPresent(a);
    RuleOrder(server, build, uw, pc, nwbTest);
  }
}
