/**
 * Properties of the `webpack` config validation: what each section accepts and
 * reports, how the shorthands are rewritten, and what a config that validates
 * cleanly guarantees to the config factory.
 */
module WebpackValidationProperties {
  import opened Js
  import opened ConfigReport
  import opened WebpackValidation
  import WebpackPlugins

  // ---------------------------------------------------------------------------
  // Unexpected props

  /** An error is reported exactly when some key is not a supported section. */
  lemma UnexpectedPropsReported(uw: Value)
    ensures UnexpectedProps(uw).errors != [] <==> exists k :: k in Keys(uw) && k !in ExpectedKeys
  {
    var ks := Unexpected(Keys(uw), ExpectedKeys);
    if ks != [] {
      assert ks[0] in ks;
    }
  }

  /** Likewise for the keys of `compat` that name no known library. */
  lemma UnexpectedCompatReported(compat: Value)
    ensures UnexpectedCompatProps(compat) != [] <==> exists k :: k in Keys(compat) && k !in CompatLibs
    ensures |UnexpectedCompatProps(compat)| <= 1
  {
    var ks := Unexpected(Keys(compat), CompatLibs);
    if ks != [] {
      assert ks[0] in ks;
    }
  }

  // ---------------------------------------------------------------------------
  // Shorthands

  /** A string `autoprefixer` becomes `{browsers: s}` without an error; any other type but
      an object is the one error. */
  lemma AutoprefixerShorthand(uw: Value)
    requires uw.Obj?
    ensures var ap := Get(uw, "autoprefixer");
      && (AutoprefixerStep(uw).errors != [] <==> Has(uw, "autoprefixer") && !IsString(ap) && !IsObject(ap))
      && (Has(uw, "autoprefixer") && IsString(ap) ==> Get(AutoprefixerStep(uw).webpack, "autoprefixer") == Obj1("browsers", ap))
      && (!(Has(uw, "autoprefixer") && IsString(ap)) ==> AutoprefixerStep(uw).webpack == uw)
  {
  }

  /** An array `copy` becomes `{patterns: copy}` without an error. */
  lemma CopyShorthand(uw: Value)
    requires uw.Obj? && Has(uw, "copy") && Get(uw, "copy").Arr?
    ensures CopyStep(uw).errors == []
    ensures Get(CopyStep(uw).webpack, "copy") == Obj1("patterns", Get(uw, "copy"))
  {
  }

  /** An object `copy` is left as it is, and is accepted exactly when it has patterns or
      options, its patterns (if any) are an array and its options (if any) an object. */
  lemma CopyObjectChecks(uw: Value)
    requires uw.Obj? && Has(uw, "copy") && IsObject(Get(uw, "copy"))
    ensures var p := Get(Get(uw, "copy"), "patterns");
      var o := Get(Get(uw, "copy"), "options");
      && CopyStep(uw).webpack == uw
      && (CopyStep(uw).errors == [] <==>
            (Truthy(p) || Truthy(o)) && (Truthy(p) ==> p.Arr?) && (Truthy(o) ==> IsObject(o)))
  {
  }

  /** Any other `copy` is one error. */
  lemma CopyOtherTypes(uw: Value)
    requires uw.Obj? && Has(uw, "copy") && !Get(uw, "copy").Arr? && !IsObject(Get(uw, "copy"))
    ensures CopyStep(uw) == Fail(uw, "webpack.copy", Get(uw, "copy"), MustBeArrayOrObject)
  {
  }

  // ---------------------------------------------------------------------------
  // compat

  /** The two shorthands of a library's compat settings, and the errors for the rest. */
  lemma CompatEntryShorthands(compat: Value, lib: string)
    requires Has(compat, lib)
    ensures var c := Get(compat, lib);
      var r := CompatEntry(compat, lib);
      && (IsString(c) ==> r.errors == [] && Get(r.value, lib) == Obj1("locales", Arr([c])))
      && (c.Arr? ==> r.errors == [] && Get(r.value, lib) == Obj1("locales", c))
      && (c.Obj? && IsString(Get(c, "locales")) ==>
            r.errors == [] && Get(Get(r.value, lib), "locales") == Arr([Get(c, "locales")]))
      && (IsObject(c) && !IsString(Get(c, "locales")) && !Get(c, "locales").Arr? ==>
            r.errors == [ErrorEntry("webpack.compat." + lib + ".locales", Get(c, "locales"), CompatLocalesHelp)])
      && (!IsString(c) && !c.Arr? && !IsObject(c) ==>
            r.errors == [ErrorEntry("webpack.compat." + lib, TypeNote(c), CompatEntryHelp)])
  {
    var c := Get(compat, lib);
    if c.Obj? && IsString(Get(c, "locales")) {
      assert Get(CompatEntry(compat, lib).value, lib) == Set(c, "locales", Arr([Get(c, "locales")]));
    }
  }

  /** A library's settings are usable by the config factory when they are off or
      carry an array of locales. */
  predicate LocalesReady(compat: Value, lib: string)
  {
    Truthy(Get(compat, lib)) ==> Get(Get(compat, lib), "locales").Arr?
  }

  /** One library's check touches only that library, and leaves it usable when it
      reports nothing. */
  lemma CompatEntryReady(compat: Value, lib: string)
    requires compat.Obj?
    ensures CompatEntry(compat, lib).value.Obj?
    ensures forall j :: j != lib ==> Get(CompatEntry(compat, lib).value, j) == Get(compat, j)
    ensures CompatEntry(compat, lib).errors == [] ==> LocalesReady(CompatEntry(compat, lib).value, lib)
  {
    if Has(compat, lib) {
      var c := Get(compat, lib);
      if IsString(c) {
        GetLiteral1(Prop("locales", Arr([c])), "locales");
      } else if c.Arr? {
        GetLiteral1(Prop("locales", c), "locales");
      }
    }
  }

  /** After checking `libs` without an error, each of them is usable. */
  lemma {:induction false} CompatEntriesReady(compat: Value, libs: seq<string>)
    requires compat.Obj?
    ensures CompatEntries(compat, libs).value.Obj?
    ensures CompatEntries(compat, libs).errors == [] ==>
              forall lib :: lib in libs ==> LocalesReady(CompatEntries(compat, libs).value, lib)
  {
    if libs != [] {
      var init := libs[..|libs| - 1];
      var last := libs[|libs| - 1];
      CompatEntriesReady(compat, init);
      var prev := CompatEntries(compat, init);
      CompatEntryReady(prev.value, last);
      var r := CompatEntries(compat, libs);
      if r.errors == [] {
        forall lib | lib in libs
          ensures LocalesReady(r.value, lib)
        {
          InitOrLast(libs, lib);
        }
      }
    }
  }

  /** A `compat` section that validates without an error is what the config factory's
      compat step needs: every enabled library has an array of locales. */
  lemma ValidatedCompatReady(uw: Value)
    requires uw.Obj?
    ensures CompatStep(uw).errors == [] ==> WebpackPlugins.CompatReady(Get(CompatStep(uw).webpack, "compat"))
  {
    var compat := Get(uw, "compat");
    if Has(uw, "compat") && compat.Obj? {
      CompatEntriesReady(compat, CompatLibs);
      var fixed := CompatEntries(compat, CompatLibs);
      if CompatStep(uw).errors == [] {
        assert fixed.errors == [];
        assert LocalesReady(fixed.value, "intl") && LocalesReady(fixed.value, "moment")
            && LocalesReady(fixed.value, "react-intl");
      }
    }
  }

  lemma ShorthandsCompat(t: Value, uw: Value)
    requires uw.Obj?
    ensures var c := CompatStep(AutoprefixerStep(uw).webpack);
      && Get(Shorthands(t, uw).webpack, "compat") == Get(c.webpack, "compat")
      && (Shorthands(t, uw).errors == [] ==> c.errors == [])
  {
  }

  /** The steps after the shorthands leave `compat` alone. */
  lemma LaterStepsKeepCompat(warned: bool, w: Value, pc: Value)
    requires w.Obj?
    ensures Get(LoaderSections(w, pc).webpack, "compat") == Get(w, "compat")
    ensures Get(UglifyStep(warned, w).webpack, "compat") == Get(w, "compat")
  {
    assert Get(RulesStep(w).webpack, "compat") == Get(w, "compat");
  }

  /** The same for the whole validation: a config with no errors has usable compat settings. */
  lemma CleanValidationCompatReady(warned: bool, t: Value, uw: Value, pc: Value)
    requires uw.Obj?
    ensures var v := Validation(warned, t, uw, pc);
      v.errors == [] ==> WebpackPlugins.CompatReady(Get(v.webpack, "compat"))
  {
    var a := AutoprefixerStep(uw);
    ValidatedCompatReady(a.webpack);
    ShorthandsCompat(t, uw);
    var sh := ShapeChecks(t, uw);
    LaterStepsKeepCompat(warned, sh.webpack, pc);
    var s := Sections(t, uw, pc);
    LaterStepsKeepCompat(warned, s.webpack, pc);
  }

  // ---------------------------------------------------------------------------
  // false or an object

  /** `extractCSS` accepts only `false` or an object. */
  lemma ExtractCssAccepts(uw: Value)
    ensures var x := Get(uw, "extractCSS");
      ExtractCssStep(uw).errors == [] <==> !Has(uw, "extractCSS") || x == Bool(false) || IsObject(x)
  {
  }

  /** `terser` accepts only `false` or an object, and reports the value itself. */
  lemma TerserAccepts(uw: Value)
    ensures var x := Get(uw, "terser");
      && (TerserStep(uw).errors == [] <==> !Has(uw, "terser") || x == Bool(false) || IsObject(x))
      && (TerserStep(uw).errors != [] ==> TerserStep(uw).errors == [ErrorEntry("webpack.terser", x, TerserHelp)])
  {
  }

  /** `styles: false` turns the style rules off with no error and no rewriting; `true` or
      a value that is neither a boolean nor an object is the one error. */
  lemma StylesAccepts(uw: Value, pc: Value)
    requires uw.Obj? && Has(uw, "styles")
    ensures var x := Get(uw, "styles");
      && (x == Bool(false) ==> StylesStep(uw, pc) == NoChange(uw))
      && (x == Bool(true) ==> StylesStep(uw, pc) == Fail(uw, "webpack.styles", x, StylesHelp))
      && (!x.Bool? && !IsObject(x) ==> StylesStep(uw, pc) == Fail(uw, "webpack.styles", TypeNote(x), StylesHelp))
  {
  }

  // ---------------------------------------------------------------------------
  // Preparation only after a clean section

  /** The rules are flattened only when checking them reported nothing. */
  lemma RulesPreparedOnlyWhenClean(uw: Value)
    requires uw.Obj?
    ensures RulesStep(uw).errors != [] ==> RulesStep(uw).webpack == uw
    ensures var rules := Get(uw, "rules");
      Has(uw, "rules") && rules.Obj? && RulesStep(uw).errors == [] ==>
        Get(RulesStep(uw).webpack, "rules") == PrepareRules(rules, Keys(rules))
  {
  }

  /** The style rules are flattened only when checking them reported nothing. */
  lemma StylesPreparedOnlyWhenClean(uw: Value, pc: Value)
    requires uw.Obj?
    ensures StylesStep(uw, pc).errors != [] ==> StylesStep(uw, pc).webpack == uw
    ensures var styles := Get(uw, "styles");
      Has(uw, "styles") && styles.Obj? && StylesStep(uw, pc).errors == [] ==>
        Get(StylesStep(uw, pc).webpack, "styles") == PrepareStyles(styles, Keys(styles))
  {
  }

  // ---------------------------------------------------------------------------
  // Flattening a rule

  lemma NoKeysNoHas(v: Value)
    requires v.Obj?
    ensures Keys(v) == [] <==> forall j :: !Has(v, j)
  {
    if Keys(v) != [] {
      assert Has(v, Keys(v)[0]);
    }
  }

  /** A flattened rule keeps the four rule keys and holds every other key under `options`. */
  lemma PrepareRuleMovesOptions(id: string, rule: Value)
    requires rule.Obj? && !SkipsRulePrep(id, rule) && !Has(rule, "options")
    requires Keys(Without(rule, RuleKeys)) != []
    ensures var r := PrepareRule(id, rule);
      && Get(r, "options") == Without(rule, RuleKeys)
      && (forall k :: k in RuleKeys ==> Get(r, k) == Get(rule, k) && (Has(r, k) <==> Has(rule, k)))
      && (forall k :: k !in RuleKeys && k != "options" ==> !Has(r, k))
  {
    var options := Without(rule, RuleKeys);
    assert "options" !in RuleKeys;
    forall k | k !in RuleKeys && k != "options"
      ensures !Has(PrepareRule(id, rule), k)
    {
      if Has(rule, k) {
        assert Has(options, k);
      } else {
        assert !Has(options, k);
      }
    }
  }

  /** When the rule already has a (falsy) `options`, it is moved and deleted along with the
      other moved keys, so only rule keys remain. */
  lemma FlatRuleKeepsOnlyRuleKeys(rule: Value)
    requires rule.Obj? && Has(rule, "options")
    ensures var options := Without(rule, RuleKeys);
      forall j :: j !in RuleKeys ==> !Has(Without(Set(rule, "options", options), Keys(options)), j)
  {
    var options := Without(rule, RuleKeys);
    var s := Set(rule, "options", options);
    forall j | j !in RuleKeys
      ensures !Has(Without(s, Keys(options)), j)
    {
      if j !in Keys(options) {
        assert !Has(options, j);
        assert !Has(s, j);
      }
    }
  }

  /** Flattening twice is flattening once. */
  lemma PrepareRuleIdempotent(id: string, rule: Value)
    ensures PrepareRule(id, PrepareRule(id, rule)) == PrepareRule(id, rule)
  {
    var r := PrepareRule(id, rule);
    var options := Without(rule, RuleKeys);
    if !SkipsRulePrep(id, rule) && rule.Obj? && Keys(options) != [] {
      var s := Set(rule, "options", options);
      assert r == Without(s, Keys(options));
      if Has(rule, "options") {
        FlatRuleKeepsOnlyRuleKeys(rule);
        NoKeysNoHas(Without(r, RuleKeys));
        assert Keys(Without(r, RuleKeys)) == [];
      } else {
        assert "options" !in Keys(options) by {
          assert !Has(options, "options");
        }
        assert Get(r, "options") == Get(s, "options") == options;
        assert SkipsRulePrep(id, r);
      }
    }
  }

  // ---------------------------------------------------------------------------
  // Flattening a style rule

  lemma {:induction false} LoadersOfLookup(styleConfig: Value, ks: seq<string>, k: string)
    ensures Get(LoadersOf(styleConfig, ks), k) == if k in ks then Obj1("options", Get(styleConfig, k)) else Undef
  {
    if ks != [] {
      var init := ks[..|ks| - 1];
      var last := ks[|ks| - 1];
      LoadersOfLookup(styleConfig, init, k);
      var prev := LoadersOf(styleConfig, init);
      assert LoadersOf(styleConfig, ks) == Set(prev, last, Obj1("options", Get(styleConfig, last)));
      if k == last {
        assert k in ks;
      } else {
        InitOrLast(ks, k);
      }
    }
  }

  /** A flattened style rule keeps `test`, `include` and `exclude` as they are. */
  lemma PrepareStyleConfigKeepsRuleKeys(styleConfig: Value, k: string)
    requires k in StyleRuleKeys
    ensures Get(PrepareStyleConfig(styleConfig), k) == Get(styleConfig, k)
  {
    var rest := Without(styleConfig, StyleRuleKeys);
    var ks := Keys(rest);
    if styleConfig.Obj? && ks != [] {
      var s := Set(styleConfig, "loaders", LoadersOf(styleConfig, ks));
      assert k !in ks by {
        assert !Has(rest, k);
      }
      assert Get(Without(s, ks), k) == Get(s, k);
    }
  }

  /** Every other key `k` of a flattened style rule is held as `loaders[k] = {options: value}`. */
  lemma PrepareStyleConfigMovesLoaders(styleConfig: Value, k: string)
    requires styleConfig.Obj? && !Has(styleConfig, "loaders")
    requires k !in StyleRuleKeys && Has(styleConfig, k)
    ensures !Has(PrepareStyleConfig(styleConfig), k)
    ensures Get(Get(PrepareStyleConfig(styleConfig), "loaders"), k) == Obj1("options", Get(styleConfig, k))
  {
    var rest := Without(styleConfig, StyleRuleKeys);
    var ks := Keys(rest);
    assert "loaders" !in ks by {
      assert !Has(rest, "loaders");
    }
    assert k in ks by {
      assert Has(rest, k);
    }
    var s := Set(styleConfig, "loaders", LoadersOf(styleConfig, ks));
    assert PrepareStyleConfig(styleConfig) == Without(s, ks);
    LoadersOfLookup(styleConfig, ks, k);
  }

  /** As written, the flattening keeps only `include` and `exclude`, so a style rule's own
      `test` ends up as the options of a loader named `test`. */
  lemma StyleTestMovedAsWritten(styleConfig: Value)
    requires styleConfig.Obj? && Has(styleConfig, "test") && !Has(styleConfig, "loaders")
    ensures var r := PrepareStyleConfigAsWritten(styleConfig);
      !Has(r, "test") && Get(Get(r, "loaders"), "test") == Obj1("options", Get(styleConfig, "test"))
  {
    var ks := Keys(Without(styleConfig, ["exclude", "include"]));
    assert Has(Without(styleConfig, ["exclude", "include"]), "test");
    assert "test" in ks;
    assert "loaders" !in ks;
    LoadersOfLookup(styleConfig, ks, "test");
  }

  /** A concrete case: `{test: /\.scss$/, sass: {}}` loses its test as written. */
  lemma StyleTestExample()
    ensures var sc := Obj([Prop("test", RegExp("\\.scss$")), Prop("sass", Obj([]))]);
      && !Has(PrepareStyleConfigAsWritten(sc), "test")
      && Get(PrepareStyleConfig(sc), "test") == RegExp("\\.scss$")
  {
    var sc := Obj([Prop("test", RegExp("\\.scss$")), Prop("sass", Obj([]))]);
    GetLiteral2(sc.props[0], sc.props[1], "test");
    GetLiteral2(sc.props[0], sc.props[1], "loaders");
    StyleTestMovedAsWritten(sc);
    PrepareStyleConfigKeepsRuleKeys(sc, "test");
  }

  // ---------------------------------------------------------------------------
  // Redundant aliases

  /** Hints about repeated compat aliases come only for the inferno and preact app
      types, at most one for `react` and one for `react-dom`, each naming the alias. */
  lemma RedundantAliasesOnlyForCompatTypes(t: Value, aliases: Value, configPath: string)
    ensures var h := RedundantAliases(t, aliases, configPath);
      && |h| <= 2
      && (!CompatAppType(t) ==> h == [])
      && (CompatAppType(t) ==>
            (h != [] <==>
               ((Truthy(Get(aliases, "react")) && Includes(Get(aliases, "react"), CompatModule(t)))
                || (Truthy(Get(aliases, "react-dom")) && Includes(Get(aliases, "react-dom"), CompatModule(t))))))
  {
  }

  // ---------------------------------------------------------------------------
  // uglify

  /** The deprecation is told once per process: of two validations in a row, at most one
      reports it, and the first that sees `uglify` turns the flag on. */
  lemma UglifyWarnsOnce(warned: bool, t: Value, uw1: Value, uw2: Value, pc: Value)
    requires uw1.Obj? && uw2.Obj?
    ensures var v1 := Validation(warned, t, uw1, pc);
      var v2 := Validation(v1.warned, t, uw2, pc);
      && |v1.deprecations| + |v2.deprecations| <= (if warned then 0 else 1)
      && (warned ==> v1.warned)
  {
  }

  /** On that first occasion `uglify` is copied to `terser` unless `terser` is configured. */
  lemma UglifyCopiedToTerser(uw: Value)
    requires uw.Obj? && Has(uw, "uglify")
    ensures var u := UglifyStep(false, uw);
      && u.warned
      && u.deprecations == [Notice("webpack.uglify", [UglifyRenamed])]
      && Get(u.webpack, "terser") == if Has(uw, "terser") then Get(uw, "terser") else Get(uw, "uglify")
  {
  }
}
