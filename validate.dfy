/**
 * Validation of the `webpack` section of the user's config: every section is checked
 * in the order the tool checks it, problems are written to the config report, and a
 * few shorthands are rewritten into the shape the config factory expects.
 *
 * Each check is a method that talks to the report; a function of the same inputs
 * (a `Step`) says what it writes and what the config becomes, and the lemmas after
 * the checks are stated about those functions.
 */
module WebpackValidation {
  import opened Js
  import opened ConfigReport
  import WebpackPlugins

  const ExpectedKeys := ["aliases", "autoprefixer", "compat", "copy", "debug", "define",
                         "extractCSS", "html", "install", "publicPath", "rules", "styles",
                         "terser", "uglify", "extra", "config"]
  /** The libraries with a known compatibility tweak, in the order they are declared. */
  const CompatLibs := ["intl", "moment", "react-intl"]
  const InfernoApp := "inferno-app"
  const PreactApp := "preact-app"
  const DefaultStyleLoaders := ["css", "postcss"]
  /** The keys a flat rule config keeps at the top level. */
  const RuleKeys := ["exclude", "include", "test", "loader"]
  /** The keys a style rule config may hold besides loader ids. */
  const StyleRuleKeys := ["test", "include", "exclude"]
  const DocsUrl := "https://github.com/insin/nwb/blob/master/docs/Configuration.md"
  const UglifyRenamed := "This setting has been renamed to webpack.terser as of nwb v0.24"

  // The wording of the messages.
  const MustBeObject := "Must be an Object"
  const MustBeString := "Must be a String"
  const MustBeArray := "Must be an Array"
  const MustBeFunction := "Must be a Function"
  const MustBeArrayOrObject := "Must be an Array or an Object"
  const CopyHelp := "Must include patterns or options"
  const DebugHint := "Don't forget to disable the debug build before building for production"
  const ExtraPublicPathHint := "You can use the more convenient webpack.publicPath config instead"
  const ExtraAliasHint := "You can use the more convenient webpack.aliases config instead"
  const RedundantAliasTail := " by default, so you can remove this config"
  const UnknownStyleType := "Unknown style type - must be "
  const StyleTypeHelp := "Must be an Array - if you don't need multiple custom rules, configure the defaults via webpack.rules instead"
  const LoaderIdHelp := "Must be include, exclude or a loader id: "
  const UnexpectedCompatTail := " in webpack.compat. Valid props are: "
  const UnexpectedPropsTail := " in webpack config - see " + DocsUrl + "#webpack-configuration for supported config. "
                                + "If you were trying to add extra Webpack config, try putting it in webpack.extra instead"

  /** What one section writes to the report, and the config after it. */
  datatype Step = Step(webpack: Value, errors: seq<ErrorEntry>, hints: seq<Notice>)

  function NoChange(uw: Value): Step
  {
    Step(uw, [], [])
  }

  function Fail(uw: Value, path: string, value: Value, message: string): Step
  {
    Step(uw, [ErrorEntry(path, value, message)], [])
  }

  /** The value reported for a wrongly typed setting: `type: <its type>`. */
  function TypeNote(v: Value): Value
  {
    Str("type: " + TypeOf(v))
  }

  /** The keys of `ks` outside `allowed`, in order. */
  function Unexpected(ks: seq<string>, allowed: seq<string>): (r: seq<string>)
    ensures forall k :: k in r <==> k in ks && k !in allowed
    ensures |r| <= |ks|
  {
    if ks == [] then []
    else
      var init := ks[..|ks| - 1];
      var last := ks[|ks| - 1];
      assert ks == init + [last];
      Unexpected(init, allowed) + (if last in allowed then [] else [last])
  }

  lemma AppendAssoc<T>(a: seq<T>, b: seq<T>, c: seq<T>)
    ensures (a + b) + c == a + (b + c)
  {
  }

  /** `joinAnd(xs, word)`: "a, b word c". */
  function JoinAnd(xs: seq<string>, word: string): string
  {
    if |xs| == 0 then ""
    else if |xs| == 1 then xs[0]
    else Join(xs[..|xs| - 1], ", ") + " " + word + " " + xs[|xs| - 1]
  }

  // ---------------------------------------------------------------------------
  // Unexpected props

  function UnexpectedPropsMessage(n: nat): string
  {
    "Unexpected prop" + Pluralise(n) + UnexpectedPropsTail
  }

  /** At most one error, listing every key outside the supported ones. */
  function UnexpectedProps(uw: Value): (r: Step)
    ensures r.webpack == uw && r.hints == []
    ensures |r.errors| <= 1
    ensures r.errors != [] ==> r.errors[0].path == "webpack"
                               && r.errors[0].value == Str(Join(Unexpected(Keys(uw), ExpectedKeys), ", "))
  {
    var ks := Unexpected(Keys(uw), ExpectedKeys);
    if ks == [] then NoChange(uw)
    else Fail(uw, "webpack", Str(Join(ks, ", ")), UnexpectedPropsMessage(|ks|))
  }

  // ---------------------------------------------------------------------------
  // Redundant compat aliases

  /** The project types that alias React to a compatibility module by default. */
  predicate CompatAppType(t: Value)
  {
    t == Str(InfernoApp) || t == Str(PreactApp)
  }

  /** The module nwb aliases React to for a compatible project type. */
  function CompatModule(t: Value): string
    requires CompatAppType(t)
  {
    if t == Str(InfernoApp) then "inferno-compat" else "preact-compat"
  }

  /** `v.includes(m)` for the values an alias can hold. */
  predicate Includes(v: Value, m: string)
  {
    match v
    case Str(s) => Contains(s, m)
    case Path(p) => Contains(p, m)
    case Arr(xs) => Str(m) in xs
    case _ => false
  }

  function RedundantAlias(aliases: Value, configPath: string, name: string, compatModule: string): seq<Notice>
  {
    var a := Get(aliases, name);
    if Truthy(a) && Includes(a, compatModule) then
      [Notice(configPath + "." + name,
              ["nwb aliases " + name + " to " + compatModule + RedundantAliasTail])]
    else []
  }

  /** The hints for aliases of `react` and `react-dom` that repeat nwb's own default. */
  function RedundantAliases(t: Value, aliases: Value, configPath: string): seq<Notice>
  {
    if !CompatAppType(t) then []
    else
      var m := CompatModule(t);
      RedundantAlias(aliases, configPath, "react", m) + RedundantAlias(aliases, configPath, "react-dom", m)
  }

  method CheckForRedundantCompatAliases(report: UserConfigReport, t: Value, aliases: Value, configPath: string)
    modifies report`hints
    ensures report.hints == old(report.hints) + RedundantAliases(t, aliases, configPath)
  {
    if !CompatAppType(t) {
      return;
    }
    var compatModule := CompatModule(t);
    ReportRedundantAlias(report, aliases, configPath, "react", compatModule);
    ReportRedundantAlias(report, aliases, configPath, "react-dom", compatModule);
    AppendAssoc(old(report.hints), RedundantAlias(aliases, configPath, "react", compatModule),
                RedundantAlias(aliases, configPath, "react-dom", compatModule));
  }

  method ReportRedundantAlias(report: UserConfigReport, aliases: Value, configPath: string, name: string,
                              compatModule: string)
    modifies report`hints
    ensures report.hints == old(report.hints) + RedundantAlias(aliases, configPath, name, compatModule)
  {
    var a := Get(aliases, name);
    if Truthy(a) && Includes(a, compatModule) {
      report.Hint(configPath + "." + name,
                  ["nwb aliases " + name + " to " + compatModule + RedundantAliasTail]);
    }
  }

  // ---------------------------------------------------------------------------
  // Sections which only check a type

  function AliasesStep(t: Value, uw: Value): (r: Step)
    ensures r.webpack == uw
  {
    if !Has(uw, "aliases") then NoChange(uw)
    else
      var a := Get(uw, "aliases");
      if !IsObject(a) then Fail(uw, "webpack.aliases", TypeNote(a), MustBeObject)
      else Step(uw, [], RedundantAliases(t, a, "webpack.aliases"))
  }

  /** `define`, `html` and `install` must each be an object when present. */
  function ObjectStep(uw: Value, key: string): (r: Step)
    ensures r.webpack == uw
    ensures r.hints == []
  {
    if Has(uw, key) && !IsObject(Get(uw, key)) then
      Fail(uw, "webpack." + key, TypeNote(Get(uw, key)), MustBeObject)
    else NoChange(uw)
  }

  function DebugStep(uw: Value): (r: Step)
    ensures r.webpack == uw
    ensures r.errors == []
  {
    if Truthy(Get(uw, "debug")) then
      Step(uw, [], [Notice("webpack.debug", [DebugHint])])
    else NoChange(uw)
  }

  const ExtractCssHelp := "Must be false (to disable CSS extraction) or an Object (to configure MiniCssExtractPlugin)"

  function ExtractCssStep(uw: Value): (r: Step)
    ensures r.webpack == uw
    ensures r.hints == []
  {
    if !Has(uw, "extractCSS") then NoChange(uw)
    else
      var x := Get(uw, "extractCSS");
      if x.Bool? then
        (if x != Bool(false) then Fail(uw, "webpack.extractCSS", x, ExtractCssHelp) else NoChange(uw))
      else if !IsObject(x) then Fail(uw, "webpack.extractCSS", TypeNote(x), ExtractCssHelp)
      else NoChange(uw)
  }

  function PublicPathStep(uw: Value): (r: Step)
    ensures r.webpack == uw
    ensures r.hints == []
  {
    if Has(uw, "publicPath") && !IsString(Get(uw, "publicPath")) then
      Fail(uw, "webpack.publicPath", TypeNote(Get(uw, "publicPath")), MustBeString)
    else NoChange(uw)
  }

  const TerserHelp := "Must be false (to disable terser-webpack-plugin) or an Object (to configure terser-webpack-plugin)"

  function TerserStep(uw: Value): (r: Step)
    ensures r.webpack == uw
    ensures r.hints == []
  {
    var x := Get(uw, "terser");
    if Has(uw, "terser") && x != Bool(false) && !IsObject(x) then
      Fail(uw, "webpack.terser", x, TerserHelp)
    else NoChange(uw)
  }

  /** The hint for `extra.output.publicPath`, which has a shorthand of its own. */
  function ExtraOutputHints(extra: Value): seq<Notice>
  {
    var output := Get(extra, "output");
    if IsObject(output) && Truthy(Get(output, "publicPath")) then
      [Notice("webpack.extra.output.publicPath", [ExtraPublicPathHint])]
    else []
  }

  /** The hints for `extra.resolve.alias`: it has a shorthand, and may repeat nwb's aliases. */
  function ExtraResolveHints(t: Value, extra: Value): seq<Notice>
  {
    var resolve := Get(extra, "resolve");
    if IsObject(resolve) && Truthy(Get(resolve, "alias")) then
      [Notice("webpack.extra.resolve.alias", [ExtraAliasHint])]
      + RedundantAliases(t, Get(resolve, "alias"), "webpack.extra.resolve.alias")
    else []
  }

  function ExtraHints(t: Value, extra: Value): seq<Notice>
  {
    ExtraOutputHints(extra) + ExtraResolveHints(t, extra)
  }

  function ExtraStep(t: Value, uw: Value): (r: Step)
    ensures r.webpack == uw
  {
    if !Has(uw, "extra") then NoChange(uw)
    else
      var extra := Get(uw, "extra");
      if !IsObject(extra) then Fail(uw, "webpack.extra", TypeNote(extra), MustBeObject)
      else Step(uw, [], ExtraHints(t, extra))
  }

  function ConfigStep(uw: Value): (r: Step)
    ensures r.webpack == uw
    ensures r.hints == []
  {
    if Has(uw, "config") && !Get(uw, "config").Fn? then
      Fail(uw, "webpack.config", TypeNote(Get(uw, "config")), MustBeFunction)
    else NoChange(uw)
  }

  // ---------------------------------------------------------------------------
  // Sections with a shorthand

  const AutoprefixerHelp := "Must be a String (for browsers config only) or an Object (for any Autoprefixer options)"

  /** A string is the `browsers` setting on its own. */
  function AutoprefixerStep(uw: Value): (r: Step)
    requires uw.Obj?
    ensures r.webpack.Obj? && Keys(r.webpack) == Keys(uw)
    ensures forall k :: k != "autoprefixer" ==> Get(r.webpack, k) == Get(uw, k)
    ensures r.hints == []
  {
    if !Has(uw, "autoprefixer") then NoChange(uw)
    else
      var ap := Get(uw, "autoprefixer");
      if IsString(ap) then NoChange(Set(uw, "autoprefixer", Obj1("browsers", ap)))
      else if !IsObject(ap) then Fail(uw, "webpack.autoprefixer", TypeNote(ap), AutoprefixerHelp)
      else NoChange(uw)
  }

  /** An array is the `patterns` setting on its own. */
  function CopyStep(uw: Value): (r: Step)
    requires uw.Obj?
    ensures r.webpack.Obj? && Keys(r.webpack) == Keys(uw)
    ensures forall k :: k != "copy" ==> Get(r.webpack, k) == Get(uw, k)
    ensures r.hints == []
  {
    if !Has(uw, "copy") then NoChange(uw)
    else
      var copy := Get(uw, "copy");
      if copy.Arr? then NoChange(Set(uw, "copy", Obj1("patterns", copy)))
      else if IsObject(copy) then
        var p := Get(copy, "patterns");
        var o := Get(copy, "options");
        Step(uw,
             (if !Truthy(p) && !Truthy(o) then [ErrorEntry("webpack.copy", copy, CopyHelp)] else [])
             + (if Truthy(p) && !p.Arr? then [ErrorEntry("webpack.copy.patterns", p, MustBeArray)] else [])
             + (if Truthy(o) && !IsObject(o) then [ErrorEntry("webpack.copy.options", o, MustBeObject)] else []),
             [])
      else Fail(uw, "webpack.copy", copy, MustBeArrayOrObject)
  }

  // ---------------------------------------------------------------------------
  // compat

  /** A compat object being checked, and what checking it reported. */
  datatype Checked = Checked(value: Value, errors: seq<ErrorEntry>)

  const CompatLocalesHelp := "Must be a String (single locale name) or an Array of locales"
  const CompatEntryHelp := "Must be a String (single locale name), an Array of locales or an Object with a locales property - see "
                           + DocsUrl + "#compat-object "

  /** One library's settings: a string or an array is the `locales` setting on its own;
      an object's `locales` may be a single string. */
  function CompatEntry(compat: Value, lib: string): Checked
  {
    if !Has(compat, lib) then Checked(compat, [])
    else
      var c := Get(compat, lib);
      if IsString(c) then Checked(Set(compat, lib, Obj1("locales", Arr([c]))), [])
      else if c.Arr? then Checked(Set(compat, lib, Obj1("locales", c)), [])
      else if IsObject(c) then CompatObjectEntry(compat, lib, c)
      else Checked(compat, [ErrorEntry("webpack.compat." + lib, TypeNote(c), CompatEntryHelp)])
  }

  /** A library's settings object: its `locales` may be a single string. */
  function CompatObjectEntry(compat: Value, lib: string, c: Value): Checked
    requires compat.Obj?
  {
    var l := Get(c, "locales");
    if c.Obj? && IsString(l) then Checked(Set(compat, lib, Set(c, "locales", Arr([l]))), [])
    else if !l.Arr? then
      Checked(compat, [ErrorEntry("webpack.compat." + lib + ".locales", l, CompatLocalesHelp)])
    else Checked(compat, [])
  }

  function CompatEntries(compat: Value, libs: seq<string>): Checked
  {
    if libs == [] then Checked(compat, [])
    else
      var prev := CompatEntries(compat, libs[..|libs| - 1]);
      var c := CompatEntry(prev.value, libs[|libs| - 1]);
      Checked(c.value, prev.errors + c.errors)
  }

  function UnexpectedCompatProps(compat: Value): seq<ErrorEntry>
  {
    var ks := Unexpected(Keys(compat), CompatLibs);
    if ks == [] then []
    else [ErrorEntry("webpack.compat", Str(Join(ks, ", ")),
                     "Unexpected prop" + Pluralise(|ks|) + UnexpectedCompatTail + JoinAnd(CompatLibs, "or"))]
  }

  function CompatStep(uw: Value): (r: Step)
    requires uw.Obj?
    ensures r.webpack.Obj? && Keys(r.webpack) == Keys(uw)
    ensures forall k :: k != "compat" ==> Get(r.webpack, k) == Get(uw, k)
    ensures r.hints == []
  {
    if !Has(uw, "compat") then NoChange(uw)
    else
      var compat := Get(uw, "compat");
      if !IsObject(compat) then Fail(uw, "webpack.compat", TypeNote(compat), MustBeObject)
      else
        var fixed := CompatEntries(compat, CompatLibs);
        Step(if compat.Obj? then Set(uw, "compat", fixed.value) else uw,
             UnexpectedCompatProps(compat) + fixed.errors, [])
  }

  method CheckCompatEntry(report: UserConfigReport, compat: Value, lib: string) returns (fixed: Value)
    modifies report`errors
    ensures fixed == CompatEntry(compat, lib).value
    ensures report.errors == old(report.errors) + CompatEntry(compat, lib).errors
  {
    fixed := compat;
    if Has(compat, lib) {
      var c := Get(compat, lib);
      if IsString(c) {
        fixed := Set(compat, lib, Obj1("locales", Arr([c])));
      } else if c.Arr? {
        fixed := Set(compat, lib, Obj1("locales", c));
      } else if IsObject(c) {
        fixed := CheckCompatObject(report, compat, lib, c);
      } else {
        report.Error("webpack.compat." + lib, TypeNote(c), CompatEntryHelp);
      }
    }
  }

  method CheckCompatObject(report: UserConfigReport, compat: Value, lib: string, c: Value) returns (fixed: Value)
    requires compat.Obj?
    modifies report`errors
    ensures fixed == CompatObjectEntry(compat, lib, c).value
    ensures report.errors == old(report.errors) + CompatObjectEntry(compat, lib, c).errors
  {
    fixed := compat;
    var l := Get(c, "locales");
    if c.Obj? && IsString(l) {
      fixed := Set(compat, lib, Set(c, "locales", Arr([l])));
    } else if !l.Arr? {
      report.Error("webpack.compat." + lib + ".locales", l, CompatLocalesHelp);
    }
  }

  method CheckCompatEntries(report: UserConfigReport, compat: Value) returns (fixed: Value)
    modifies report`errors
    ensures fixed == CompatEntries(compat, CompatLibs).value
    ensures report.errors == old(report.errors) + CompatEntries(compat, CompatLibs).errors
  {
    fixed := compat;
    var i := 0;
    while i < |CompatLibs|
      invariant 0 <= i <= |CompatLibs|
      invariant fixed == CompatEntries(compat, CompatLibs[..i]).value
      invariant report.errors == old(report.errors) + CompatEntries(compat, CompatLibs[..i]).errors
    {
      PrefixStep(CompatLibs, i);
      ghost var prev := CompatEntries(compat, CompatLibs[..i]);
      fixed := CheckCompatEntry(report, fixed, CompatLibs[i]);
      AppendAssoc(old(report.errors), prev.errors, CompatEntry(prev.value, CompatLibs[i]).errors);
      i := i + 1;
    }
    assert CompatLibs[..i] == CompatLibs;
  }

  method CheckCompatProps(report: UserConfigReport, compat: Value)
    modifies report`errors
    ensures report.errors == old(report.errors) + UnexpectedCompatProps(compat)
  {
    var ks := Unexpected(Keys(compat), CompatLibs);
    if ks != [] {
      report.Error("webpack.compat", Str(Join(ks, ", ")),
                   "Unexpected prop" + Pluralise(|ks|) + UnexpectedCompatTail + JoinAnd(CompatLibs, "or"));
    }
  }

  method CheckCompat(report: UserConfigReport, uw: Value) returns (w: Value)
    requires uw.Obj?
    modifies report`errors
    ensures w == CompatStep(uw).webpack
    ensures report.errors == old(report.errors) + CompatStep(uw).errors
  {
    w := uw;
    if Has(uw, "compat") {
      var compat := Get(uw, "compat");
      if !IsObject(compat) {
        report.Error("webpack.compat", TypeNote(compat), MustBeObject);
      } else {
        CheckCompatProps(report, compat);
        var fixed := CheckCompatEntries(report, compat);
        AppendAssoc(old(report.errors), UnexpectedCompatProps(compat), CompatEntries(compat, CompatLibs).errors);
        if compat.Obj? {
          w := Set(uw, "compat", fixed);
        }
      }
    }
  }

  // ---------------------------------------------------------------------------
  // rules

  function RuleUseError(rules: Value, id: string): seq<ErrorEntry>
  {
    var use := Get(Get(rules, id), "use");
    if Truthy(use) && !use.Arr? then [ErrorEntry("webpack.rules." + id + ".use", TypeNote(use), MustBeArray)]
    else []
  }

  function RuleUseErrors(rules: Value, ids: seq<string>): seq<ErrorEntry>
  {
    if ids == [] then [] else RuleUseErrors(rules, ids[..|ids| - 1]) + RuleUseError(rules, ids[|ids| - 1])
  }

  /** A rule already in loader shape: `use` (unless it is a stylus rule's plugins) or `options`. */
  predicate SkipsRulePrep(id: string, rule: Value)
  {
    (Truthy(Get(rule, "use")) && !EndsWith(id, "stylus")) || Truthy(Get(rule, "options"))
  }

  /** `prepareWebpackRuleConfig` for one rule: every key but the four rule keys moves into `options`. */
  function PrepareRule(id: string, rule: Value): Value
  {
    if SkipsRulePrep(id, rule) then rule
    else
      var options := Without(rule, RuleKeys);
      if !rule.Obj? || Keys(options) == [] then rule
      else Without(Set(rule, "options", options), Keys(options))
  }

  function PrepareRules(rules: Value, ids: seq<string>): (r: Value)
    requires rules.Obj?
    ensures r.Obj?
  {
    if ids == [] then rules
    else
      var prev := PrepareRules(rules, ids[..|ids| - 1]);
      var id := ids[|ids| - 1];
      Set(prev, id, PrepareRule(id, Get(prev, id)))
  }

  method PrepareRuleConfig(id: string, rule: Value) returns (r: Value)
    ensures r == PrepareRule(id, rule)
  {
    r := rule;
    if !SkipsRulePrep(id, rule) {
      var options := Without(rule, RuleKeys);
      if rule.Obj? && Keys(options) != [] {
        r := Without(Set(rule, "options", options), Keys(options));
      }
    }
  }

  method PrepareWebpackRuleConfig(rules: Value) returns (r: Value)
    requires rules.Obj?
    ensures r == PrepareRules(rules, Keys(rules))
  {
    var ids := Keys(rules);
    r := rules;
    var i := 0;
    while i < |ids|
      invariant 0 <= i <= |ids|
      invariant r == PrepareRules(rules, ids[..i])
    {
      PrefixStep(ids, i);
      var rule := PrepareRuleConfig(ids[i], Get(r, ids[i]));
      r := Set(r, ids[i], rule);
      i := i + 1;
    }
    assert ids[..i] == ids;
  }

  function RulesStep(uw: Value): (r: Step)
    requires uw.Obj?
    ensures r.webpack.Obj? && Keys(r.webpack) == Keys(uw)
    ensures forall k :: k != "rules" ==> Get(r.webpack, k) == Get(uw, k)
    ensures r.hints == []
  {
    if !Has(uw, "rules") then NoChange(uw)
    else
      var rules := Get(uw, "rules");
      if !IsObject(rules) then Fail(uw, "webpack.rules", TypeNote(rules), MustBeObject)
      else
        var errors := RuleUseErrors(rules, Keys(rules));
        Step(if errors == [] && rules.Obj? then Set(uw, "rules", PrepareRules(rules, Keys(rules))) else uw, errors, [])
  }

  method CheckRuleUse(report: UserConfigReport, rules: Value, id: string) returns (error: bool)
    modifies report`errors
    ensures report.errors == old(report.errors) + RuleUseError(rules, id)
    ensures error <==> RuleUseError(rules, id) != []
  {
    var use := Get(Get(rules, id), "use");
    error := Truthy(use) && !use.Arr?;
    if error {
      report.Error("webpack.rules." + id + ".use", TypeNote(use), MustBeArray);
    }
  }

  method CheckRuleUses(report: UserConfigReport, rules: Value) returns (error: bool)
    modifies report`errors
    ensures report.errors == old(report.errors) + RuleUseErrors(rules, Keys(rules))
    ensures error <==> RuleUseErrors(rules, Keys(rules)) != []
  {
    var ids := Keys(rules);
    error := false;
    var i := 0;
    while i < |ids|
      invariant 0 <= i <= |ids|
      invariant report.errors == old(report.errors) + RuleUseErrors(rules, ids[..i])
      invariant error <==> RuleUseErrors(rules, ids[..i]) != []
    {
      PrefixStep(ids, i);
      var e := CheckRuleUse(report, rules, ids[i]);
      AppendAssoc(old(report.errors), RuleUseErrors(rules, ids[..i]), RuleUseError(rules, ids[i]));
      error := error || e;
      i := i + 1;
    }
    assert ids[..i] == ids;
  }

  method CheckRules(report: UserConfigReport, uw: Value) returns (w: Value)
    requires uw.Obj?
    modifies report`errors
    ensures w == RulesStep(uw).webpack
    ensures report.errors == old(report.errors) + RulesStep(uw).errors
  {
    w := uw;
    if Has(uw, "rules") {
      var rules := Get(uw, "rules");
      if !IsObject(rules) {
        report.Error("webpack.rules", TypeNote(rules), MustBeObject);
      } else {
        var error := CheckRuleUses(report, rules);
        if !error && rules.Obj? {
          var prepared := PrepareWebpackRuleConfig(rules);
          w := Set(uw, "rules", prepared);
        }
      }
    }
  }

  // ---------------------------------------------------------------------------
  // styles

  const StylesHelp := "Must be an Object (to configure custom style rules) or false (to disable style rules)"

  /** `css` and the style types the plugins provide. */
  function StyleTypeIds(pc: Value): seq<string>
  {
    var pre := Get(pc, "cssPreprocessors");
    ["css"] + (if Truthy(pre) then Keys(pre) else [])
  }

  /** The loader ids a style rule of this type may configure, without repeats. */
  function LoaderIds(styleType: string): seq<string>
  {
    if styleType in DefaultStyleLoaders then DefaultStyleLoaders else DefaultStyleLoaders + [styleType]
  }

  function LoaderIdMessage(styleType: string): string
  {
    LoaderIdHelp + JoinAnd(LoaderIds(styleType), "or")
  }

  /** The error for a key of the `index`th rule of a style type that names no loader of it. */
  function LoaderIdError(styleType: string, index: nat, id: string, message: string): seq<ErrorEntry>
  {
    if id !in DefaultStyleLoaders && id != styleType then
      [ErrorEntry("webpack.styles." + styleType + "[" + NatToString(index) + "]", Str("property: " + id), message)]
    else []
  }

  function LoaderIdErrors(styleType: string, index: nat, ids: seq<string>, message: string): seq<ErrorEntry>
  {
    if ids == [] then []
    else LoaderIdErrors(styleType, index, ids[..|ids| - 1], message) + LoaderIdError(styleType, index, ids[|ids| - 1], message)
  }

  /** The keys of a style rule that name loaders, as the check reads them. */
  function CheckedLoaderKeys(styleConfig: Value): seq<string>
  {
    Keys(Without(styleConfig, StyleRuleKeys))
  }

  function StyleConfigErrors(styleType: string, configs: seq<Value>, message: string): seq<ErrorEntry>
  {
    if configs == [] then []
    else
      var n := |configs| - 1;
      StyleConfigErrors(styleType, configs[..n], message) + LoaderIdErrors(styleType, n, CheckedLoaderKeys(configs[n]), message)
  }

  function StyleTypeErrors(styles: Value, ids: seq<string>, styleType: string): seq<ErrorEntry>
  {
    var configs := Get(styles, styleType);
    if styleType !in ids then
      [ErrorEntry("webpack.styles", Str("property: " + styleType), UnknownStyleType + JoinAnd(ids, "or"))]
    else if !configs.Arr? then
      [ErrorEntry("webpack.styles." + styleType, TypeNote(configs),
                  StyleTypeHelp)]
    else StyleConfigErrors(styleType, configs.elems, LoaderIdMessage(styleType))
  }

  function StylesErrors(styles: Value, ids: seq<string>, types: seq<string>): seq<ErrorEntry>
  {
    if types == [] then []
    else StylesErrors(styles, ids, types[..|types| - 1]) + StyleTypeErrors(styles, ids, types[|types| - 1])
  }

  /** `{[k]: {options: styleConfig[k]}}` for each loader key, in order. */
  function LoadersOf(styleConfig: Value, ks: seq<string>): (r: Value)
    ensures r.Obj?
  {
    if ks == [] then Obj([])
    else Set(LoadersOf(styleConfig, ks[..|ks| - 1]), ks[|ks| - 1], Obj1("options", Get(styleConfig, ks[|ks| - 1])))
  }

  /** Moves every key but the `kept` ones into a `loaders` object. */
  function MoveLoaderOptions(styleConfig: Value, kept: seq<string>): Value
  {
    var ks := Keys(Without(styleConfig, kept));
    if !styleConfig.Obj? || ks == [] then styleConfig
    else Without(Set(styleConfig, "loaders", LoadersOf(styleConfig, ks)), ks)
  }

  /** `prepareWebpackStyleConfig` for one style rule, as it is written: only `include` and
      `exclude` stay at the top level, so a `test` is moved into the loaders. */
  function PrepareStyleConfigAsWritten(styleConfig: Value): Value
  {
    MoveLoaderOptions(styleConfig, ["exclude", "include"])
  }

  /** The same, keeping every key the check allows besides loader ids at the top level. */
  function PrepareStyleConfig(styleConfig: Value): Value
  {
    MoveLoaderOptions(styleConfig, StyleRuleKeys)
  }

  function PrepareStyleConfigs(configs: seq<Value>): (r: seq<Value>)
    ensures |r| == |configs|
    ensures forall i :: 0 <= i < |r| ==> r[i] == PrepareStyleConfig(configs[i])
  {
    if configs == [] then []
    else PrepareStyleConfigs(configs[..|configs| - 1]) + [PrepareStyleConfig(configs[|configs| - 1])]
  }

  function PrepareStyles(styles: Value, types: seq<string>): (r: Value)
    requires styles.Obj?
    ensures r.Obj?
  {
    if types == [] then styles
    else
      var prev := PrepareStyles(styles, types[..|types| - 1]);
      var t := types[|types| - 1];
      var configs := Get(prev, t);
      if configs.Arr? then Set(prev, t, Arr(PrepareStyleConfigs(configs.elems))) else prev
  }

  method PrepareLoaders(styleConfig: Value, ks: seq<string>) returns (loaders: Value)
    ensures loaders == LoadersOf(styleConfig, ks)
  {
    loaders := Obj([]);
    var i := 0;
    while i < |ks|
      invariant 0 <= i <= |ks|
      invariant loaders == LoadersOf(styleConfig, ks[..i])
    {
      PrefixStep(ks, i);
      loaders := Set(loaders, ks[i], Obj1("options", Get(styleConfig, ks[i])));
      i := i + 1;
    }
    assert ks[..i] == ks;
  }

  method PrepareStyleRule(styleConfig: Value) returns (r: Value)
    ensures r == PrepareStyleConfig(styleConfig)
  {
    r := styleConfig;
    var ks := Keys(Without(styleConfig, StyleRuleKeys));
    if styleConfig.Obj? && ks != [] {
      var loaders := PrepareLoaders(styleConfig, ks);
      r := Without(Set(styleConfig, "loaders", loaders), ks);
    }
  }

  method PrepareStyleRules(configs: seq<Value>) returns (out: seq<Value>)
    ensures out == PrepareStyleConfigs(configs)
  {
    out := [];
    var i := 0;
    while i < |configs|
      invariant 0 <= i <= |configs|
      invariant out == PrepareStyleConfigs(configs[..i])
    {
      PrefixStep(configs, i);
      var r := PrepareStyleRule(configs[i]);
      out := out + [r];
      i := i + 1;
    }
    assert configs[..i] == configs;
  }

  method PrepareWebpackStyleConfig(styles: Value) returns (r: Value)
    requires styles.Obj?
    ensures r == PrepareStyles(styles, Keys(styles))
  {
    var types := Keys(styles);
    r := styles;
    var i := 0;
    while i < |types|
      invariant 0 <= i <= |types|
      invariant r == PrepareStyles(styles, types[..i])
    {
      PrefixStep(types, i);
      var configs := Get(r, types[i]);
      if configs.Arr? {
        var prepared := PrepareStyleRules(configs.elems);
        r := Set(r, types[i], Arr(prepared));
      }
      i := i + 1;
    }
    assert types[..i] == types;
  }

  function StylesStep(uw: Value, pc: Value): (r: Step)
    requires uw.Obj?
    ensures r.webpack.Obj? && Keys(r.webpack) == Keys(uw)
    ensures forall k :: k != "styles" ==> Get(r.webpack, k) == Get(uw, k)
    ensures r.hints == []
  {
    if !Has(uw, "styles") then NoChange(uw)
    else
      var styles := Get(uw, "styles");
      if styles.Bool? && styles != Bool(false) then Fail(uw, "webpack.styles", styles, StylesHelp)
      else if !IsObject(styles) && !styles.Bool? then Fail(uw, "webpack.styles", TypeNote(styles), StylesHelp)
      else
        var errors := StylesErrors(styles, StyleTypeIds(pc), Keys(styles));
        Step(if errors == [] && styles.Obj? then Set(uw, "styles", PrepareStyles(styles, Keys(styles))) else uw, errors, [])
  }

  method CheckLoaderId(report: UserConfigReport, styleType: string, index: nat, id: string, message: string)
    returns (error: bool)
    modifies report`errors
    ensures report.errors == old(report.errors) + LoaderIdError(styleType, index, id, message)
    ensures error <==> LoaderIdError(styleType, index, id, message) != []
  {
    error := id !in DefaultStyleLoaders && id != styleType;
    if error {
      report.Error("webpack.styles." + styleType + "[" + NatToString(index) + "]", Str("property: " + id), message);
    }
  }

  method CheckLoaderIds(report: UserConfigReport, styleType: string, index: nat, ids: seq<string>, message: string)
    returns (error: bool)
    modifies report`errors
    ensures report.errors == old(report.errors) + LoaderIdErrors(styleType, index, ids, message)
    ensures error <==> LoaderIdErrors(styleType, index, ids, message) != []
  {
    error := false;
    var i := 0;
    while i < |ids|
      invariant 0 <= i <= |ids|
      invariant report.errors == old(report.errors) + LoaderIdErrors(styleType, index, ids[..i], message)
      invariant error <==> LoaderIdErrors(styleType, index, ids[..i], message) != []
    {
      PrefixStep(ids, i);
      var e := CheckLoaderId(report, styleType, index, ids[i], message);
      AppendAssoc(old(report.errors), LoaderIdErrors(styleType, index, ids[..i], message),
                  LoaderIdError(styleType, index, ids[i], message));
      error := error || e;
      i := i + 1;
    }
    assert ids[..i] == ids;
  }

  method CheckStyleConfigs(report: UserConfigReport, styleType: string, configs: seq<Value>, message: string)
    returns (error: bool)
    modifies report`errors
    ensures report.errors == old(report.errors) + StyleConfigErrors(styleType, configs, message)
    ensures error <==> StyleConfigErrors(styleType, configs, message) != []
  {
    error := false;
    var i := 0;
    while i < |configs|
      invariant 0 <= i <= |configs|
      invariant report.errors == old(report.errors) + StyleConfigErrors(styleType, configs[..i], message)
      invariant error <==> StyleConfigErrors(styleType, configs[..i], message) != []
    {
      PrefixStep(configs, i);
      var e := CheckLoaderIds(report, styleType, i, CheckedLoaderKeys(configs[i]), message);
      AppendAssoc(old(report.errors), StyleConfigErrors(styleType, configs[..i], message),
                  LoaderIdErrors(styleType, i, CheckedLoaderKeys(configs[i]), message));
      error := error || e;
      i := i + 1;
    }
    assert configs[..i] == configs;
  }

  method CheckStyleType(report: UserConfigReport, styles: Value, ids: seq<string>, styleType: string)
    returns (error: bool)
    modifies report`errors
    ensures report.errors == old(report.errors) + StyleTypeErrors(styles, ids, styleType)
    ensures error <==> StyleTypeErrors(styles, ids, styleType) != []
  {
    var configs := Get(styles, styleType);
    if styleType !in ids {
      report.Error("webpack.styles", Str("property: " + styleType), UnknownStyleType + JoinAnd(ids, "or"));
      error := true;
    } else if !configs.Arr? {
      report.Error("webpack.styles." + styleType, TypeNote(configs),
                   StyleTypeHelp);
      error := true;
    } else {
      error := CheckStyleConfigs(report, styleType, configs.elems, LoaderIdMessage(styleType));
    }
  }

  method CheckStyleTypes(report: UserConfigReport, styles: Value, ids: seq<string>) returns (error: bool)
    modifies report`errors
    ensures report.errors == old(report.errors) + StylesErrors(styles, ids, Keys(styles))
    ensures error <==> StylesErrors(styles, ids, Keys(styles)) != []
  {
    var types := Keys(styles);
    error := false;
    var i := 0;
    while i < |types|
      invariant 0 <= i <= |types|
      invariant report.errors == old(report.errors) + StylesErrors(styles, ids, types[..i])
      invariant error <==> StylesErrors(styles, ids, types[..i]) != []
    {
      PrefixStep(types, i);
      var e := CheckStyleType(report, styles, ids, types[i]);
      AppendAssoc(old(report.errors), StylesErrors(styles, ids, types[..i]), StyleTypeErrors(styles, ids, types[i]));
      error := error || e;
      i := i + 1;
    }
    assert types[..i] == types;
  }

  method CheckStyles(report: UserConfigReport, uw: Value, pc: Value) returns (w: Value)
    requires uw.Obj?
    modifies report`errors
    ensures w == StylesStep(uw, pc).webpack
    ensures report.errors == old(report.errors) + StylesStep(uw, pc).errors
  {
    w := uw;
    if Has(uw, "styles") {
      var styles := Get(uw, "styles");
      if styles.Bool? && styles != Bool(false) {
        report.Error("webpack.styles", styles, StylesHelp);
      } else if !IsObject(styles) && !styles.Bool? {
        report.Error("webpack.styles", TypeNote(styles), StylesHelp);
      } else {
        var error := CheckStyleTypes(report, styles, StyleTypeIds(pc));
        if !error && styles.Obj? {
          var prepared := PrepareWebpackStyleConfig(styles);
          w := Set(uw, "styles", prepared);
        }
      }
    }
  }

  // ---------------------------------------------------------------------------
  // uglify (the old name of terser)

  datatype Uglified = Uglified(webpack: Value, deprecations: seq<Notice>, warned: bool)

  /** The first config that still uses `uglify` is told about the rename, and its setting
      becomes `terser` unless that is configured too; later ones are left alone. */
  function UglifyStep(warned: bool, uw: Value): (r: Uglified)
    requires uw.Obj?
    ensures r.webpack.Obj?
    ensures forall k :: k != "terser" ==> Get(r.webpack, k) == Get(uw, k)
  {
    if Has(uw, "uglify") && !warned then
      Uglified(if Has(uw, "terser") then uw else Set(uw, "terser", Get(uw, "uglify")),
               [Notice("webpack.uglify", [UglifyRenamed])], true)
    else Uglified(uw, [], warned)
  }

  // ---------------------------------------------------------------------------
  // The checks of the sections without a loop

  method CheckUnexpectedProps(report: UserConfigReport, uw: Value)
    modifies report`errors
    ensures report.errors == old(report.errors) + UnexpectedProps(uw).errors
  {
    var ks := Unexpected(Keys(uw), ExpectedKeys);
    if ks != [] {
      report.Error("webpack", Str(Join(ks, ", ")), UnexpectedPropsMessage(|ks|));
    }
  }

  method CheckAliases(report: UserConfigReport, t: Value, uw: Value)
    modifies report`errors, report`hints
    ensures report.errors == old(report.errors) + AliasesStep(t, uw).errors
    ensures report.hints == old(report.hints) + AliasesStep(t, uw).hints
  {
    if Has(uw, "aliases") {
      var aliases := Get(uw, "aliases");
      if !IsObject(aliases) {
        report.Error("webpack.aliases", TypeNote(aliases), MustBeObject);
      } else {
        CheckForRedundantCompatAliases(report, t, aliases, "webpack.aliases");
      }
    }
  }

  method CheckAutoprefixer(report: UserConfigReport, uw: Value) returns (w: Value)
    requires uw.Obj?
    modifies report`errors
    ensures w == AutoprefixerStep(uw).webpack
    ensures report.errors == old(report.errors) + AutoprefixerStep(uw).errors
  {
    w := uw;
    if Has(uw, "autoprefixer") {
      var autoprefixer := Get(uw, "autoprefixer");
      if IsString(autoprefixer) {
        w := Set(uw, "autoprefixer", Obj1("browsers", autoprefixer));
      } else if !IsObject(autoprefixer) {
        report.Error("webpack.autoprefixer", TypeNote(autoprefixer), AutoprefixerHelp);
      }
    }
  }

  method CheckCopy(report: UserConfigReport, uw: Value) returns (w: Value)
    requires uw.Obj?
    modifies report`errors
    ensures w == CopyStep(uw).webpack
    ensures report.errors == old(report.errors) + CopyStep(uw).errors
  {
    w := uw;
    if Has(uw, "copy") {
      var copy := Get(uw, "copy");
      if copy.Arr? {
        w := Set(uw, "copy", Obj1("patterns", copy));
      } else if IsObject(copy) {
        var patterns := Get(copy, "patterns");
        var options := Get(copy, "options");
        if !Truthy(patterns) && !Truthy(options) {
          report.Error("webpack.copy", copy, CopyHelp);
        }
        if Truthy(patterns) && !patterns.Arr? {
          report.Error("webpack.copy.patterns", patterns, MustBeArray);
        }
        if Truthy(options) && !IsObject(options) {
          report.Error("webpack.copy.options", options, MustBeObject);
        }
      } else {
        report.Error("webpack.copy", copy, MustBeArrayOrObject);
      }
    }
  }

  method CheckDebug(report: UserConfigReport, uw: Value)
    modifies report`hints
    ensures report.hints == old(report.hints) + DebugStep(uw).hints
  {
    if Truthy(Get(uw, "debug")) {
      report.Hint("webpack.debug", [DebugHint]);
    }
  }

  method CheckObject(report: UserConfigReport, uw: Value, key: string)
    modifies report`errors
    ensures report.errors == old(report.errors) + ObjectStep(uw, key).errors
  {
    if Has(uw, key) && !IsObject(Get(uw, key)) {
      report.Error("webpack." + key, TypeNote(Get(uw, key)), MustBeObject);
    }
  }

  method CheckExtractCss(report: UserConfigReport, uw: Value)
    modifies report`errors
    ensures report.errors == old(report.errors) + ExtractCssStep(uw).errors
  {
    if Has(uw, "extractCSS") {
      var extractCss := Get(uw, "extractCSS");
      if extractCss.Bool? {
        if extractCss != Bool(false) {
          report.Error("webpack.extractCSS", extractCss, ExtractCssHelp);
        }
      } else if !IsObject(extractCss) {
        report.Error("webpack.extractCSS", TypeNote(extractCss), ExtractCssHelp);
      }
    }
  }

  method CheckPublicPath(report: UserConfigReport, uw: Value)
    modifies report`errors
    ensures report.errors == old(report.errors) + PublicPathStep(uw).errors
  {
    if Has(uw, "publicPath") && !IsString(Get(uw, "publicPath")) {
      report.Error("webpack.publicPath", TypeNote(Get(uw, "publicPath")), MustBeString);
    }
  }

  method CheckTerser(report: UserConfigReport, uw: Value)
    modifies report`errors
    ensures report.errors == old(report.errors) + TerserStep(uw).errors
  {
    var terser := Get(uw, "terser");
    if Has(uw, "terser") && terser != Bool(false) && !IsObject(terser) {
      report.Error("webpack.terser", terser, TerserHelp);
    }
  }

  method CheckExtra(report: UserConfigReport, t: Value, uw: Value)
    modifies report`errors, report`hints
    ensures report.errors == old(report.errors) + ExtraStep(t, uw).errors
    ensures report.hints == old(report.hints) + ExtraStep(t, uw).hints
  {
    if Has(uw, "extra") {
      var extra := Get(uw, "extra");
      if !IsObject(extra) {
        report.Error("webpack.extra", TypeNote(extra), MustBeObject);
      } else {
        CheckExtraOutput(report, extra);
        CheckExtraResolve(report, t, extra);
        AppendAssoc(old(report.hints), ExtraOutputHints(extra), ExtraResolveHints(t, extra));
      }
    }
  }

  method CheckExtraOutput(report: UserConfigReport, extra: Value)
    modifies report`hints
    ensures report.hints == old(report.hints) + ExtraOutputHints(extra)
  {
    var output := Get(extra, "output");
    if IsObject(output) && Truthy(Get(output, "publicPath")) {
      report.Hint("webpack.extra.output.publicPath", [ExtraPublicPathHint]);
    }
  }

  method CheckExtraResolve(report: UserConfigReport, t: Value, extra: Value)
    modifies report`hints
    ensures report.hints == old(report.hints) + ExtraResolveHints(t, extra)
  {
    var resolve := Get(extra, "resolve");
    if IsObject(resolve) && Truthy(Get(resolve, "alias")) {
      report.Hint("webpack.extra.resolve.alias", [ExtraAliasHint]);
      CheckForRedundantCompatAliases(report, t, Get(resolve, "alias"), "webpack.extra.resolve.alias");
      AppendAssoc(old(report.hints), [Notice("webpack.extra.resolve.alias", [ExtraAliasHint])],
                  RedundantAliases(t, Get(resolve, "alias"), "webpack.extra.resolve.alias"));
    }
  }

  method CheckConfig(report: UserConfigReport, uw: Value)
    modifies report`errors
    ensures report.errors == old(report.errors) + ConfigStep(uw).errors
  {
    if Has(uw, "config") && !Get(uw, "config").Fn? {
      report.Error("webpack.config", TypeNote(Get(uw, "config")), MustBeFunction);
    }
  }

  // ---------------------------------------------------------------------------
  // The whole section

  datatype Outcome = Outcome(webpack: Value, errors: seq<ErrorEntry>, hints: seq<Notice>,
                             deprecations: seq<Notice>, warned: bool)

  lemma Assoc3<T>(a: seq<T>, b: seq<T>, c: seq<T>, d: seq<T>)
    ensures a + b + c + d == a + (b + c + d)
  {
  }

  lemma Assoc5<T>(a: seq<T>, b: seq<T>, c: seq<T>, d: seq<T>, e: seq<T>, f: seq<T>)
    ensures a + b + c + d + e + f == a + (b + c + d + e + f)
  {
  }

  /** The sections up to `copy`: only `aliases` has hints, and only the last three rewrite. */
  function Shorthands(t: Value, uw: Value): (r: Step)
    requires uw.Obj?
    ensures r.webpack.Obj?
  {
    var a := AutoprefixerStep(uw);
    var c := CompatStep(a.webpack);
    var p := CopyStep(c.webpack);
    Step(p.webpack, UnexpectedProps(uw).errors + AliasesStep(t, uw).errors + a.errors + c.errors + p.errors,
         AliasesStep(t, uw).hints)
  }

  /** The sections from `debug` to `publicPath`, which only check. */
  function TypeChecks(uw: Value): (r: Step)
    ensures r.webpack == uw
  {
    Step(uw, ObjectStep(uw, "define").errors + ExtractCssStep(uw).errors + ObjectStep(uw, "html").errors
             + ObjectStep(uw, "install").errors + PublicPathStep(uw).errors,
         DebugStep(uw).hints)
  }

  /** The sections after `uglify`, which only check. */
  function LateChecks(t: Value, uw: Value): (r: Step)
    ensures r.webpack == uw
  {
    Step(uw, TerserStep(uw).errors + ExtraStep(t, uw).errors + ConfigStep(uw).errors, ExtraStep(t, uw).hints)
  }

  /** The sections up to `publicPath`. */
  function ShapeChecks(t: Value, uw: Value): (r: Step)
    requires uw.Obj?
    ensures r.webpack.Obj?
  {
    var s := Shorthands(t, uw);
    var k := TypeChecks(s.webpack);
    Step(s.webpack, s.errors + k.errors, s.hints + k.hints)
  }

  /** `rules` and `styles`, which are prepared for the loaders only when they have no errors. */
  function LoaderSections(uw: Value, pc: Value): (r: Step)
    requires uw.Obj?
    ensures r.webpack.Obj?
    ensures r.hints == []
  {
    var r := RulesStep(uw);
    var y := StylesStep(r.webpack, pc);
    Step(y.webpack, r.errors + y.errors, [])
  }

  /** The sections before `uglify`. */
  function Sections(t: Value, uw: Value, pc: Value): (r: Step)
    requires uw.Obj?
    ensures r.webpack.Obj?
  {
    var s := ShapeChecks(t, uw);
    var l := LoaderSections(s.webpack, pc);
    Step(l.webpack, s.errors + l.errors, s.hints)
  }

  /** `processWebpackConfig`: everything it reports and the config it leaves. */
  function Validation(warned: bool, t: Value, uw: Value, pc: Value): Outcome
    requires uw.Obj?
  {
    var s := Sections(t, uw, pc);
    var u := UglifyStep(warned, s.webpack);
    var l := LateChecks(t, u.webpack);
    Outcome(u.webpack, s.errors + l.errors, s.hints + l.hints, u.deprecations, u.warned)
  }

  method CheckShorthands(report: UserConfigReport, t: Value, uw: Value) returns (w: Value)
    requires uw.Obj?
    modifies report`errors, report`hints
    ensures w == Shorthands(t, uw).webpack
    ensures report.errors == old(report.errors) + Shorthands(t, uw).errors
    ensures report.hints == old(report.hints) + Shorthands(t, uw).hints
  {
    CheckUnexpectedProps(report, uw);
    CheckAliases(report, t, uw);
    var a := CheckAutoprefixer(report, uw);
    var c := CheckCompat(report, a);
    w := CheckCopy(report, c);
    Assoc5(old(report.errors), UnexpectedProps(uw).errors, AliasesStep(t, uw).errors, AutoprefixerStep(uw).errors,
           CompatStep(a).errors, CopyStep(c).errors);
  }

  method CheckTypes(report: UserConfigReport, uw: Value)
    modifies report`errors, report`hints
    ensures report.errors == old(report.errors) + TypeChecks(uw).errors
    ensures report.hints == old(report.hints) + TypeChecks(uw).hints
  {
    CheckDebug(report, uw);
    CheckObject(report, uw, "define");
    CheckExtractCss(report, uw);
    CheckObject(report, uw, "html");
    CheckObject(report, uw, "install");
    CheckPublicPath(report, uw);
    Assoc5(old(report.errors), ObjectStep(uw, "define").errors, ExtractCssStep(uw).errors, ObjectStep(uw, "html").errors,
           ObjectStep(uw, "install").errors, PublicPathStep(uw).errors);
  }

  method CheckShapes(report: UserConfigReport, t: Value, uw: Value) returns (w: Value)
    requires uw.Obj?
    modifies report`errors, report`hints
    ensures w == ShapeChecks(t, uw).webpack
    ensures report.errors == old(report.errors) + ShapeChecks(t, uw).errors
    ensures report.hints == old(report.hints) + ShapeChecks(t, uw).hints
  {
    w := CheckShorthands(report, t, uw);
    CheckTypes(report, w);
    AppendAssoc(old(report.errors), Shorthands(t, uw).errors, TypeChecks(w).errors);
    AppendAssoc(old(report.hints), Shorthands(t, uw).hints, TypeChecks(w).hints);
  }

  method CheckLoaderSections(report: UserConfigReport, uw: Value, pc: Value) returns (w: Value)
    requires uw.Obj?
    modifies report`errors
    ensures w == LoaderSections(uw, pc).webpack
    ensures report.errors == old(report.errors) + LoaderSections(uw, pc).errors
  {
    var r := CheckRules(report, uw);
    w := CheckStyles(report, r, pc);
    AppendAssoc(old(report.errors), RulesStep(uw).errors, StylesStep(r, pc).errors);
  }

  method CheckSections(report: UserConfigReport, t: Value, uw: Value, pc: Value) returns (w: Value)
    requires uw.Obj?
    modifies report`errors, report`hints
    ensures w == Sections(t, uw, pc).webpack
    ensures report.errors == old(report.errors) + Sections(t, uw, pc).errors
    ensures report.hints == old(report.hints) + Sections(t, uw, pc).hints
  {
    var s := CheckShapes(report, t, uw);
    w := CheckLoaderSections(report, s, pc);
    AppendAssoc(old(report.errors), ShapeChecks(t, uw).errors, LoaderSections(s, pc).errors);
  }

  method CheckLate(report: UserConfigReport, t: Value, uw: Value)
    modifies report`errors, report`hints
    ensures report.errors == old(report.errors) + LateChecks(t, uw).errors
    ensures report.hints == old(report.hints) + LateChecks(t, uw).hints
  {
    CheckTerser(report, uw);
    CheckExtra(report, t, uw);
    CheckConfig(report, uw);
    Assoc3(old(report.errors), TerserStep(uw).errors, ExtraStep(t, uw).errors, ConfigStep(uw).errors);
  }

  /** The module-level state of the validation: whether the rename of `uglify` was reported. */
  class WebpackValidator {
    var warnedAboutUglify: bool

    constructor()
      ensures !warnedAboutUglify
    {
      warnedAboutUglify := false;
    }

    /** The rename of `uglify` is reported once; its setting becomes `terser` unless that is set. */
    method ReportUglify(report: UserConfigReport, uw: Value) returns (w: Value)
      requires uw.Obj?
      modifies this`warnedAboutUglify, report`deprecations
      ensures var u := UglifyStep(old(warnedAboutUglify), uw);
              && w == u.webpack && warnedAboutUglify == u.warned
              && report.deprecations == old(report.deprecations) + u.deprecations
    {
      w := uw;
      if Has(uw, "uglify") && !warnedAboutUglify {
        report.Deprecated("webpack.uglify", [UglifyRenamed]);
        warnedAboutUglify := true;
        if !Has(uw, "terser") {
          w := Set(uw, "terser", Get(uw, "uglify"));
        }
      }
    }

    /** `processWebpackConfig`: reports the problems of `userConfig.webpack` and returns it
        with its shorthands rewritten. */
    method ProcessWebpackConfig(pluginConfig: Value, report: UserConfigReport, userConfig: Value)
      returns (webpack: Value)
      requires Get(userConfig, "webpack").Obj?
      modifies this`warnedAboutUglify, report`errors, report`hints, report`deprecations
      ensures var v := Validation(old(warnedAboutUglify), Get(userConfig, "type"), Get(userConfig, "webpack"), pluginConfig);
              && webpack == v.webpack && warnedAboutUglify == v.warned
              && report.errors == old(report.errors) + v.errors
              && report.hints == old(report.hints) + v.hints
              && report.deprecations == old(report.deprecations) + v.deprecations
    {
      var t := Get(userConfig, "type");
      var w := CheckSections(report, t, Get(userConfig, "webpack"), pluginConfig);
      w := ReportUglify(report, w);
      CheckLate(report, t, w);
      webpack := w;
      ghost var s := Sections(t, Get(userConfig, "webpack"), pluginConfig);
      AppendAssoc(old(report.errors), s.errors, LateChecks(t, w).errors);
      AppendAssoc(old(report.hints), s.hints, LateChecks(t, w).hints);
    }
  }
}
