# nwb's config compiler, modelled in Dafny

nwb builds React, Preact and plain-JavaScript apps with webpack and Babel. This model covers
the part of nwb that turns configuration into webpack and Babel config. It does not cover the
part that runs the tools.

## What is modelled

- **Layers.** Three layers of configuration are combined by stable ids: the defaults, the
  command's build config and the user's config file.
- **`false` switches things off.** In every layer, `false` disables a rule, a loader or a plugin.
- **Output.** The result has four parts:
  - an ordered list of rules;
  - a list of plugin descriptors;
  - an `optimization` block;
  - a Babel config.
- **Validation.** Before any of this, the `webpack` section of the user's config is validated:
  - each problem becomes an error, a hint or a deprecation in a config report;
  - a few shorthand forms are rewritten into the shape the config factory reads.
- **Commands.** The commands that build and serve apps and quick prototypes produce the build
  configs. They work from the command line and from an app type's profile (React, Preact).

The modules, file by file:

| file | module | models |
|---|---|---|
| js.dfy | `Js` | JavaScript values: `undefined`, `null`, booleans, integers, strings, host paths, arrays, objects (ordered properties, so `Object.keys` order is kept), functions, regular expressions and opaque constructed instances. It also covers property lookup and update, truthiness and `typeOf`. |
| merge.dfy | `Merge` | The two merge helpers: `webpack-merge` (a deep merge whose arrays concatenate) and `replaceArrayMerge` (a later array replaces an earlier one). Their code is in `lib/utils.js` and the `webpack-merge` package, which are not part of this model, so the module specifies them as a deep merge of object layers where `undefined` never overrides. |
| report.dfy | `ConfigReport` | The class `UserConfigReport`: three append-only lists, the queries that gate a build, and the sections of the report text. |
| babel.dfy | `Babel` | `createBabelConfig` as a method that builds its preset and plugin lists step by step, proved against a function of its inputs. |
| webpack_rules.dfy | `WebpackRules` | The rule and loader factories, the `false` sentinel, loader id prefixing, the style loader chain, the style rules and the fixed rule order. |
| webpack_plugins.dfy | `WebpackPlugins` | `createPlugins`, as descriptors `Instance(kind, options)` and an `optimization` record; the Terser and copy-plugin helpers; and `getCompatConfig`. |
| webpack_config.dfy | `WebpackConfig` | The decisions of `createWebpackConfig`: the Babel options of the babel rule, the output and resolve config, polyfill insertion, the compat and `extra` merges, and the user's `config()` hook. |
| validate.dfy | `WebpackValidation` | `processWebpackConfig`, section by section. Each check is a method on the report, specified by a function (a `Step`) giving its errors, hints and rewritten config. The module-level `warnedAboutUglify` flag is a field of the class `WebpackValidator`. |
| validate_props.dfy | `WebpackValidationProperties` | The properties of those `Step` functions. |
| profile.dfy | `Profiles` | What a command asks of an app type, the host paths it computes, and the tasks it runs. |
| quick_commands.dfy | `QuickCommands` | The quick `build` and `serve` commands and their config factories. |
| app_commands.dfy | `AppCommands` | The app `build` and `serve` commands, their config factories and the default HTML config. |
| react.dfy | `React` | The React app type: build and serve configs, compat aliases, names and dependency lists. `ReactConfig` only ever reads the arguments it stores, so its methods are functions of those arguments. |
| preact.dfy | `Preact` | The Preact app type's profile. |

The inputs from outside the program are parameters:

- the production switch (`NODE_ENV`) and `NWB_TEST`;
- the file-system probes for `public/` and `src/index.html`, and the package name (a `Workspace`);
- the user's hook functions, as an `apply` function from a hook's name and argument to its result.

A merged config is compared with a specifying function that composes the merge helpers. Where the
code mutates state, the model uses imperative Dafny: the report, the validator's flag, the
list-building loops, and the step-by-step literals of the command factories. Each such method's
`ensures` ties its result or new state to a function. The properties are lemmas about those
functions.

## Model

| member | source | states |
|---|---|---|
| ConfigReport.UserConfigReport.constructor | lib/config/UserConfigReport.js:22-29 | a fresh report keeps the config file facts, has three empty lists and no argument overrides |
| ConfigReport.UserConfigReport.Deprecated | lib/config/UserConfigReport.js:31-33 | appends one deprecation notice and leaves whether the report has errors unchanged |
| ConfigReport.UserConfigReport.Error | lib/config/UserConfigReport.js:35-41 | appends one error entry, after which the report has errors |
| ConfigReport.UserConfigReport.Hint | lib/config/UserConfigReport.js:47-49 | appends one hint and leaves whether the report has errors unchanged |
| ConfigReport.UserConfigReport.GetConfigSource | lib/config/UserConfigReport.js:51-62 | the config path, marked when CLI arguments override it; the CLI-only description; or the fallback text |
| ConfigReport.UserConfigReport.GetReport | lib/config/UserConfigReport.js:64-113 | the lines pushed are the title, a blank line, then the all-clear line or the error, deprecation and hint sections |
| ConfigReport.RenderErrors | lib/config/UserConfigReport.js:80-84 | the loop pushes three lines per error, in list order |
| ConfigReport.RenderNotices | lib/config/UserConfigReport.js:91-97 | the loop pushes a path line, one line per message and a blank line per notice, in list order |
| ConfigReport.RenderMessages | lib/config/UserConfigReport.js:93-95 | one indented line per message, in order |
| ConfigReport.MessageLines | lib/config/UserConfigReport.js:93-95 | as many lines as messages |
| ConfigReport.AllClearIffNothingToReport | lib/config/UserConfigReport.js:70-73 | the all-clear line appears in the report exactly when all three lists are empty |
| ConfigReport.HeadingCountPrefix | lib/config/UserConfigReport.js:76-77 | a section heading starts with its count exactly when there is more than one entry |
| Merge.MergeObjects | lib/createWebpackConfig.js:583 | merging two objects keeps every key of either; a key of both holds the merge of the two values, a key of one its value |
| Merge.LayerStep | lib/createWebpackConfig.js:583 | each later layer merges its keys into what the earlier layers left; keys it lacks are left alone |
| Merge.LayerPrecedence | lib/createWebpackConfig.js:110 | the last layer decides a key for which it holds a scalar; otherwise the earlier layers do |
| Merge.ScalarPrecedence | lib/createWebpackConfig.js:110 | for scalar values the user layer wins over the build layer, which wins over the defaults |
| Merge.ArrayPolicies | lib/createWebpackConfig.js:108-110 | `webpack-merge` concatenates arrays at the same key, `replaceArrayMerge` keeps the later array |
| Merge.MergeOntoEmpty | lib/createWebpackConfig.js:583 | an object merged onto the empty object keeps its keys and values |
| Merge.SingleLayer | lib/createWebpackConfig.js:583 | a merge of one layer has that layer's keys and values |
| Merge.MergeKeepsUntouched | lib/appCommands.js:97 | a key the later config lacks comes through `webpack-merge` unchanged |
| Babel.EnvOptions | lib/createBabelConfig.js:55 | every key of the user's `env` overrides the env preset's own options |
| Babel.EffectiveStage | lib/createBabelConfig.js:80 | the user stage when it is not null or undefined, else the build stage, else 2 |
| Babel.ExpandBuildPresets | lib/createBabelConfig.js:58-77 | the loop keeps every build preset but `react-prod` and collects the plugins each `react-prod` expands into |
| Babel.ExpandReactProd | lib/createBabelConfig.js:62-71 | the constant-elements plugin unless turned off, then the prop-types plugin unless turned off |
| Babel.CreateRuntimeOptions | lib/createBabelConfig.js:110-128 | the runtime options for the user's `runtime` setting and `setRuntimePath` |
| Babel.CreatePresets | lib/createBabelConfig.js:47-92 | the presets are env, the passed-through build presets, the stage preset and the user presets; the plugins they bring come first |
| Babel.CreatePlugins | lib/createBabelConfig.js:96-146 | the plugins in the documented order, the runtime transform unless `runtime === false` |
| Babel.CreateBabelConfig | lib/createBabelConfig.js:22-162 | the whole builder returns the generated config, or the user hook's result, or the hook error |
| Babel.BuildConfig | lib/createBabelConfig.js:148-150 | the config holds the presets, and the plugins only when there are some |
| Babel.RunHook | lib/createBabelConfig.js:154-161 | a function hook's truthy result replaces the config; a falsy one is a user error |
| Babel.EnvPresetFirst | lib/createBabelConfig.js:55 | the first preset is always env with its options |
| Babel.EnvOptionsLooseDefault | lib/createBabelConfig.js:51-55 | `loose` is true when the user leaves it undefined, unless `env` sets it |
| Babel.EnvOptionsModulesDefault | lib/createBabelConfig.js:55 | `modules` is the build's setting or false, unless `env` sets it |
| Babel.ReactProdNotPassed | lib/createBabelConfig.js:58-77 | a preset is passed through exactly when it is a build preset other than `react-prod` |
| Babel.ReactProdExpands | lib/createBabelConfig.js:62-71 | constant-elements and prop-types removal appear exactly when `react-prod` is a build preset and the user does not turn them off |
| Babel.PresetOrder | lib/createBabelConfig.js:79-92 | presets are env, build, stage, then user presets; a numeric stage adds its preset, stages up to 2 the decorators plugin |
| Babel.PluginOrder | lib/createBabelConfig.js:96-146 | react-prod and decorator plugins, build plugins, user plugins, then prop-types, runtime and feature plugins |
| Babel.RemovePropTypesUnion | lib/createBabelConfig.js:100-105 | a component build's prop-types options are the build's with the user's keys winning |
| Babel.RuntimeOnByDefault | lib/createBabelConfig.js:118-130 | the runtime transform is present exactly when `runtime` is not `false` |
| Babel.RuntimeReset | lib/createBabelConfig.js:119-124 | `runtime: true` leaves only the module name, when `setRuntimePath` allows it |
| Babel.RuntimeDefaults | lib/createBabelConfig.js:110-117 | by default helpers and polyfill are off, regenerator on, and the module name set exactly when allowed |
| Babel.RuntimeFeature | lib/createBabelConfig.js:125-127 | a string `runtime` turns its feature on and keeps the other defaults |
| Babel.PluginsKeyOnlyWhenNonEmpty | lib/createBabelConfig.js:148-150 | `plugins` is a key exactly when the plugin list is non-empty |
| Babel.HookOutcome | lib/createBabelConfig.js:154-161 | no hook keeps the config; a hook fails exactly when it returns a falsy value, and otherwise its value is the result |
| WebpackRules.StripEmptyOptions | lib/createWebpackConfig.js:112-114 | an empty `options` is deleted and nothing else changes; non-empty options leave the rule as it is |
| WebpackRules.MergeRuleConfig | lib/createWebpackConfig.js:101-116 | a merged rule is an object whose `options`, when present, are not empty |
| WebpackRules.MergeOverAbsent | lib/createWebpackConfig.js:108 | merging the user's config over a layer without a key gives the user's value for it |
| WebpackRules.LoaderSwap | lib/createWebpackConfig.js:104-108 | when the user names a loader or `use` for a rule with a default loader, the default's loader and options are dropped, the user's take their place and the build layer plays no part |
| WebpackRules.RulePrecedence | lib/createWebpackConfig.js:110 | otherwise a scalar key takes the user's value, else the build's, else the default's |
| WebpackRules.MergeLoaderConfig | lib/createWebpackConfig.js:121-135 | a merged loader is an object whose `options`, when present, are not empty |
| WebpackRules.UserLoaderCopied | lib/createWebpackConfig.js:124-125 | a user loader replaces the whole entry with a copy of the user's config, whatever the default and build say |
| WebpackRules.UserLoaderOptions | lib/createWebpackConfig.js:124-133 | that copy keeps the user's options unless they are empty |
| WebpackRules.CreateRuleConfig | lib/createWebpackConfig.js:141-153 | a rule is turned off exactly when its id is truthy and the user sets it to `false`; a falsy id keeps the default; otherwise the three layers are merged |
| WebpackRules.CreateLoaderConfig | lib/createWebpackConfig.js:159-167 | a loader with a truthy id merges the three layers, one without an id is its default |
| WebpackRules.OnlyDefaultLayer | lib/createWebpackConfig.js:101 | missing build and user layers leave the default's keys and values |
| WebpackRules.UnconfiguredLoader | lib/createWebpackConfig.js:121-135 | an unconfigured loader is its default, less an empty `options` |
| WebpackRules.LoaderConfigName | lib/createWebpackConfig.js:179-184 | the prefix when it ends with the name, else `prefix-name`, and the name itself without a prefix |
| WebpackRules.LoaderConfigNameShape | lib/createWebpackConfig.js:179-184 | every generated id ends with the name and starts with the prefix |
| WebpackRules.LoaderConfigNameExamples | lib/createWebpackConfig.js:176-177 | `sass`+`css` is `sass-css`, `sass`+`sass` is `sass`, no prefix+`postcss` is `postcss` |
| WebpackRules.DefaultPostCssPlugins | lib/createWebpackConfig.js:540-544 | one autoprefixer instance whose browsers are the user's when given, else the default list |
| WebpackRules.CreateStyleLoaders | lib/createWebpackConfig.js:190-231 | the pushes and the unshift give the style chain of the specifying function |
| WebpackRules.DefaultStyleChain | lib/createWebpackConfig.js:197-230 | unconfigured, the chain is style-loader (with `hmr` equal to `server`) or the extract loader, then css-loader, postcss-loader and the preprocessor's loader when there is one |
| WebpackRules.ChainHead | lib/createWebpackConfig.js:222-229 | the first loader injects styles when serving or with `extractCSS: false`, and extracts them otherwise |
| WebpackRules.ChainMiddle | lib/createWebpackConfig.js:204-216 | css-loader then postcss-loader follow it |
| WebpackRules.ChainTail | lib/createWebpackConfig.js:218-220 | the preprocessor's loader comes last |
| WebpackRules.DefaultFirstLoader | lib/createWebpackConfig.js:197-229 | the first loader's path and its `hmr` option |
| WebpackRules.UnconfiguredStyleLoader | lib/createWebpackConfig.js:197-203 | style-loader with `hmr` equal to `server` |
| WebpackRules.UnconfiguredExtractLoader | lib/createWebpackConfig.js:226-228 | the extract plugin's loader |
| WebpackRules.UnconfiguredCssLoader | lib/createWebpackConfig.js:204-209 | css-loader |
| WebpackRules.UnconfiguredPostcssLoader | lib/createWebpackConfig.js:210-216 | postcss-loader |
| WebpackRules.DefaultPreprocessorLoader | lib/createWebpackConfig.js:218-220 | one preprocessor loader exactly when there is a preprocessor, with its loader |
| WebpackRules.PrefixedLoader | lib/createWebpackConfig.js:196-197 | an unconfigured loader under a prefixed id is its default |
| WebpackRules.CreateStyleRules | lib/createWebpackConfig.js:238-294 | configured rules, then the default css rule unless `css` is configured, then the preprocessor rules |
| WebpackRules.CreateConfiguredStyleRules | lib/createWebpackConfig.js:244-265 | the configured style types, pushed type by type |
| WebpackRules.CreateCustomStyleRules | lib/createWebpackConfig.js:253-264 | the rules of one configured type, pushed rule by rule |
| WebpackRules.CreateCustomStyleRule | lib/createWebpackConfig.js:255-263 | one configured rule: its test and loaders, then its top-level keys |
| WebpackRules.CreatePreprocessorRules | lib/createWebpackConfig.js:278-291 | the default rule of each preprocessor plugin the user did not configure |
| WebpackRules.CreatePreprocessorRule | lib/createWebpackConfig.js:281-289 | one preprocessor rule, configurable by `<id>-rule` |
| WebpackRules.SomesAppend | lib/createWebpackConfig.js:362 | filtering distributes over concatenation |
| WebpackRules.SomesMembers | lib/createWebpackConfig.js:362 | filtering keeps exactly the rules that were not turned off |
| WebpackRules.SomesAllPresent | lib/createWebpackConfig.js:362 | with nothing turned off, filtering keeps every rule in place |
| WebpackRules.FixedRules | lib/createWebpackConfig.js:318-352 | seven default rules, each turned off exactly when the user sets its id to `false` |
| WebpackRules.CreateExtraRules | lib/createWebpackConfig.js:369-376 | one entry per extra rule, none when there are no extra rules |
| WebpackRules.ExtraRule | lib/createWebpackConfig.js:371-374 | an extra rule without an id is kept less its `id`; one with an id is dropped exactly when the user sets it to `false` |
| WebpackRules.CreateRules | lib/createWebpackConfig.js:306-363 | the method builds the rule list of the specifying function |
| WebpackRules.RuleOrder | lib/createWebpackConfig.js:318-362 | fixed rules, extra rules, then style rules unless `styles: false`, each surviving in order |
| WebpackRules.FixedRulesFirst | lib/createWebpackConfig.js:318-352 | when none of the seven are turned off they open the list in their fixed order |
| WebpackPlugins.ThreeLayers | lib/createWebpackConfig.js:83-93 | key-wise view of the three-layer merge of the debug terser config |
| WebpackPlugins.DebugTerser | lib/createWebpackConfig.js:82-93 | a debug build beautifies the output, does not mangle, and keeps cache, parallel and source maps on |
| WebpackPlugins.DebugTerserDefaults | lib/createWebpackConfig.js:75-90 | the three plugin defaults stay true in a debug build |
| WebpackPlugins.DebugKeepsCompress | lib/createWebpackConfig.js:91-93 | a debug build keeps the user's `compress` setting given under `terser.terserOptions` |
| WebpackPlugins.DebugDropsCompressAsWritten | lib/createWebpackConfig.js:93 | the code as written drops that `compress` setting, which the corrected definition keeps |
| WebpackPlugins.TerserUserOverrides | lib/createWebpackConfig.js:95 | outside a debug build a scalar the user sets wins and a default the user leaves alone stays |
| WebpackPlugins.CopyPatternsOrder | lib/createWebpackConfig.js:403-414 | the copy patterns are the build's followed by the user's |
| WebpackPlugins.CopyOptions | lib/createWebpackConfig.js:411 | the copy options are the user's, or `{}` |
| WebpackPlugins.CreatePlugins | lib/createWebpackConfig.js:427-538 | the pushes build the plugin list and the `optimization` block of the specifying functions |
| WebpackPlugins.CreateModePlugins | lib/createWebpackConfig.js:445-480 | the serving-dependent plugins, `noEmitOnErrors` and `splitChunks`, and nothing else of the optimization block |
| WebpackPlugins.CreateServePlugins | lib/createWebpackConfig.js:445-454 | hot reloading (which stops emitting on errors) unless `hot: false`, then the status plugin |
| WebpackPlugins.CreateProductionPlugins | lib/createWebpackConfig.js:482-497 | in production the loader options plugin, `minimize`, and the terser minimizer exactly when minimizing |
| WebpackPlugins.CreateHtmlPlugins | lib/createWebpackConfig.js:500-510 | an app build's HTML plugin, the inline runtime plugin, and the single runtime chunk |
| WebpackPlugins.PluginOrder | lib/createWebpackConfig.js:533-535 | the build's `extra` plugins come after all generated ones |
| WebpackPlugins.BasePluginsFirst | lib/createWebpackConfig.js:431-443 | every list starts with case-sensitive paths, definitions and loader options |
| WebpackPlugins.DefinitionsPrecedence | lib/createWebpackConfig.js:435-437 | `process.env.NODE_ENV` is the JSON of the environment (development when unset) unless build or user definitions replace it; the user's win |
| WebpackPlugins.HotReloading | lib/createWebpackConfig.js:445-450 | hot module replacement is present exactly when serving with `hot` not `false` |
| WebpackPlugins.HotReloadingPosition | lib/createWebpackConfig.js:431-448 | it then comes right after the three base plugins |
| WebpackPlugins.NoEmitOnErrors | lib/createWebpackConfig.js:447-450 | errors stop emitting exactly when hot reloading is on |
| WebpackPlugins.Minimization | lib/createWebpackConfig.js:482-497 | in production `minimize` says whether both configs leave terser on, and the minimizer is set exactly then; neither outside production |
| WebpackPlugins.RuntimeChunk | lib/createWebpackConfig.js:500-510 | an app build splits out a single runtime chunk and inlines it after the HTML plugin; other builds do neither |
| WebpackPlugins.VendorChunk | lib/createWebpackConfig.js:457-480 | vendor chunks are split exactly in a static build that asks for them |
| WebpackPlugins.CompatConfigFor | lib/createWebpackConfig.js:546-562 | each known library's config keeps only the chosen locales; any other name has none |
| WebpackPlugins.GetCompatConfig | lib/createWebpackConfig.js:570-584 | the loop collects the configs of the enabled libraries and returns nothing, a copy of the one, or their merge |
| WebpackPlugins.CompatListEmpty | lib/createWebpackConfig.js:572-581 | no config is collected exactly when no library is enabled |
| WebpackPlugins.CompatNoneIffNothingEnabled | lib/createWebpackConfig.js:581 | the result is `null` exactly when no library is enabled |
| WebpackPlugins.MergedCompatPlugins | lib/createWebpackConfig.js:583 | merging the configs concatenates their plugin lists in library order |
| WebpackPlugins.CompatConfigPlugins | lib/createWebpackConfig.js:582-583 | the compat config's plugins are those of every enabled known library, in order |
| WebpackPlugins.CopiedConfig | lib/createWebpackConfig.js:582 | a copy of the one config reads like a merge of it alone |
| WebpackPlugins.LocalesPatternExample | lib/createWebpackConfig.js:549 | the locale filter for `de` and `en-gb` is `^\.\/(de|en-gb)$` |
| WebpackConfig.RulesConfig | lib/createWebpackConfig.js:633 | the babel rule's options become the generated Babel config and every other rule id keeps the build's config |
| WebpackConfig.AddPolyfills | lib/createWebpackConfig.js:589-596 | the polyfills module goes in front of an entry array, or of the first chunk of an entry object, with everything else kept |
| WebpackConfig.CreateWebpackConfig | lib/createWebpackConfig.js:602-685 | the steps yield the config of the specifying function, or the Babel or hook error |
| WebpackConfig.BabelConfigPath | lib/createBabelConfig.js:22 | the config path the Babel hook's error names is empty when `userConfig.path` is undefined, and the path itself when it is a string |
| WebpackConfig.CreateBaseConfig | lib/createWebpackConfig.js:608-650 | the fixed parts, the rules, the plugin setup and the other build keys, as the specifying function assembles them |
| WebpackConfig.CreateOutputConfig | lib/createWebpackConfig.js:622-626 | the build's output with the user's public path when the user has the key |
| WebpackConfig.CreateResolveConfig | lib/createWebpackConfig.js:627-630 | the build's resolve config merged with the user's aliases when they are truthy |
| WebpackConfig.CreateModuleConfig | lib/createWebpackConfig.js:633-640 | the rules built with the Babel config as the babel loader's options, and strict export presence |
| WebpackConfig.AddEntry | lib/createWebpackConfig.js:652-658 | the entry is set, with the polyfills in front unless either config turns them off |
| WebpackConfig.MergeCompat | lib/createWebpackConfig.js:662-667 | a truthy compat config yielding a config is merged in; otherwise nothing changes |
| WebpackConfig.MergeExtra | lib/createWebpackConfig.js:671-673 | a truthy `extra` config is merged in; otherwise nothing changes |
| WebpackConfig.RunHook | lib/createWebpackConfig.js:677-682 | a `config()` hook's result replaces the config, and a falsy result is an error naming the config file |
| WebpackConfig.AssembledOutput | lib/createWebpackConfig.js:635-650 | the generated `output` survives assembly |
| WebpackConfig.AssembledPlugins | lib/createWebpackConfig.js:635-650 | the generated plugin list survives assembly |
| WebpackConfig.AssembledResolve | lib/createWebpackConfig.js:635-650 | the generated resolve config survives assembly |
| WebpackConfig.AssembledMode | lib/createWebpackConfig.js:636-650 | `mode` is the generated one unless the build config sets it |
| WebpackConfig.GeneratedParts | lib/createWebpackConfig.js:608-650 | `mode` is production exactly in the production environment unless the build sets it; output, plugins and resolve are the generated ones |
| WebpackConfig.PublicPath | lib/createWebpackConfig.js:623-626 | the user's `publicPath` wins whenever the user's config has the key, even when it is undefined |
| WebpackConfig.Aliases | lib/createWebpackConfig.js:627-630 | truthy user aliases are merged over the build's aliases; falsy ones leave them alone |
| WebpackConfig.EntryPolyfills | lib/createWebpackConfig.js:652-658 | no entry means no entry key; an array entry gets the polyfills first exactly when neither config turns them off |
| WebpackConfig.CompatPluginsLast | lib/createWebpackConfig.js:662-667 | the compatibility plugins come after all the generated plugins |
| WebpackConfig.ArraysConcatenated | lib/createWebpackConfig.js:665 | merging arrays at one key concatenates them |
| WebpackConfig.ExtraPrecedence | lib/createWebpackConfig.js:671-673 | a scalar in the user's `extra` config has the last word, and a key it lacks keeps the generated value |
| WebpackConfig.ExtraArraysAppend | lib/createWebpackConfig.js:671-673 | an array in `extra` extends the generated array at the same key |
| WebpackConfig.BabelFailureStops | lib/createWebpackConfig.js:633 | a Babel config error is the outcome of the whole config |
| WebpackConfig.HookOutcome | lib/createWebpackConfig.js:677-682 | no hook keeps the config; a hook's falsy result fails with the config file's path, a truthy one is the config |
| WebpackValidation.Unexpected | lib/config/webpack.js:46-48 | the unexpected keys are exactly the keys outside the supported sections, in order |
| WebpackValidation.UnexpectedProps | lib/config/webpack.js:46-51 | at most one error, at `webpack`, whose value lists every unexpected key joined with `, ` |
| WebpackValidation.CheckForRedundantCompatAliases | lib/config/webpack.js:283-293 | appends exactly the hints about repeated compat aliases to the report |
| WebpackValidation.ReportRedundantAlias | lib/config/webpack.js:287-292 | appends the hint for one alias when it includes the compat module |
| WebpackValidation.AliasesStep | lib/config/webpack.js:53-61 | the aliases check never rewrites the config |
| WebpackValidation.ObjectStep | lib/config/webpack.js:131-137 | the `define` check (and the same for `html` and `install`) never rewrites the config and gives no hint |
| WebpackValidation.DebugStep | lib/config/webpack.js:124-130 | the debug reminder is a hint, never an error, and rewrites nothing |
| WebpackValidation.ExtractCssStep | lib/config/webpack.js:138-150 | the `extractCSS` check rewrites nothing and gives no hint |
| WebpackValidation.PublicPathStep | lib/config/webpack.js:165-171 | the `publicPath` check rewrites nothing and gives no hint |
| WebpackValidation.TerserStep | lib/config/webpack.js:251-257 | the `terser` check rewrites nothing and gives no hint |
| WebpackValidation.ExtraStep | lib/config/webpack.js:258-271 | the `extra` check rewrites nothing |
| WebpackValidation.ConfigStep | lib/config/webpack.js:273-276 | the `config` check rewrites nothing and gives no hint |
| WebpackValidation.AutoprefixerStep | lib/config/webpack.js:62-71 | only `autoprefixer` may be rewritten, the keys stay in order, and there is no hint |
| WebpackValidation.CopyStep | lib/config/webpack.js:105-123 | only `copy` may be rewritten, the keys stay in order, and there is no hint |
| WebpackValidation.CompatStep | lib/config/webpack.js:72-103 | only `compat` may be rewritten, the keys stay in order, and there is no hint |
| WebpackValidation.CheckCompatEntry | lib/config/webpack.js:84-101 | one library's settings are rewritten and its errors appended as the specifying function says |
| WebpackValidation.CheckCompatObject | lib/config/webpack.js:92-97 | an object setting's `locales` string becomes an array, and any other non-array is an error |
| WebpackValidation.CheckCompatEntries | lib/config/webpack.js:84-101 | the three libraries are checked in order, each on the result of the last |
| WebpackValidation.CheckCompatProps | lib/config/webpack.js:78-82 | appends the one error for keys that name no library |
| WebpackValidation.CheckCompat | lib/config/webpack.js:72-103 | the compat section's new value and errors are those of the specifying function |
| WebpackValidation.PrepareRules | lib/config/webpack.js:299-312 | flattening the rules of `ids` yields an object |
| WebpackValidation.PrepareRuleConfig | lib/config/webpack.js:300-311 | one rule is flattened as the specifying function says |
| WebpackValidation.PrepareWebpackRuleConfig | lib/config/webpack.js:299-312 | every rule, in key order, is flattened as the specifying function says |
| WebpackValidation.RulesStep | lib/config/webpack.js:172-189 | only `rules` may be rewritten, the keys stay in order, and there is no hint |
| WebpackValidation.CheckRuleUse | lib/config/webpack.js:179-183 | appends the error for a truthy non-array `use`, and says whether it did |
| WebpackValidation.CheckRuleUses | lib/config/webpack.js:177-184 | appends the errors of every rule in order, and says whether there was one |
| WebpackValidation.CheckRules | lib/config/webpack.js:172-189 | the rules section's new value and errors are those of the specifying function |
| WebpackValidation.LoadersOf | lib/config/webpack.js:325-329 | the loaders object is an object |
| WebpackValidation.PrepareStyleConfigs | lib/config/webpack.js:320-331 | each style rule of a list is flattened, in place and in order |
| WebpackValidation.PrepareStyles | lib/config/webpack.js:318-333 | flattening the style types yields an object |
| WebpackValidation.PrepareLoaders | lib/config/webpack.js:325-329 | the loop builds `{[k]: {options: value}}` for each loader key, in order |
| WebpackValidation.PrepareStyleRule | lib/config/webpack.js:320-330 | one style rule is flattened as the corrected specifying function says |
| WebpackValidation.PrepareStyleRules | lib/config/webpack.js:320-331 | every style rule of a list is flattened |
| WebpackValidation.PrepareWebpackStyleConfig | lib/config/webpack.js:318-333 | every style type's rules, in key order, are flattened |
| WebpackValidation.StylesStep | lib/config/webpack.js:191-236 | only `styles` may be rewritten, the keys stay in order, and there is no hint |
| WebpackValidation.CheckLoaderId | lib/config/webpack.js:218-227 | appends the error for a key that is neither a rule key nor a loader id, and says whether it did |
| WebpackValidation.CheckLoaderIds | lib/config/webpack.js:217-228 | the same for every key of one style rule |
| WebpackValidation.CheckStyleConfigs | lib/config/webpack.js:213-229 | the same for every style rule of a type, with its index |
| WebpackValidation.CheckStyleType | lib/config/webpack.js:206-230 | an unknown style type or a non-array is one error; otherwise its rules are checked |
| WebpackValidation.CheckStyleTypes | lib/config/webpack.js:204-231 | every style type is checked in key order, and the result says whether any failed |
| WebpackValidation.CheckStyles | lib/config/webpack.js:191-236 | the styles section's new value and errors are those of the specifying function |
| WebpackValidation.UglifyStep | lib/config/webpack.js:238-249 | the deprecated `uglify` can change only `terser` |
| WebpackValidation.CheckUnexpectedProps | lib/config/webpack.js:48-51 | appends the unexpected-props error |
| WebpackValidation.CheckAliases | lib/config/webpack.js:53-61 | appends the aliases errors and hints |
| WebpackValidation.CheckAutoprefixer | lib/config/webpack.js:62-71 | rewrites a string `autoprefixer` and appends the error for other non-objects |
| WebpackValidation.CheckCopy | lib/config/webpack.js:105-123 | rewrites an array `copy` and appends the errors for a malformed one |
| WebpackValidation.CheckDebug | lib/config/webpack.js:124-130 | appends the debug hint |
| WebpackValidation.CheckObject | lib/config/webpack.js:131-137 | appends the error for a present non-object section |
| WebpackValidation.CheckExtractCss | lib/config/webpack.js:138-150 | appends the `extractCSS` errors |
| WebpackValidation.CheckPublicPath | lib/config/webpack.js:165-171 | appends the error for a non-string `publicPath` |
| WebpackValidation.CheckTerser | lib/config/webpack.js:251-257 | appends the error for a `terser` that is neither `false` nor an object |
| WebpackValidation.CheckExtra | lib/config/webpack.js:258-271 | appends the `extra` errors and hints |
| WebpackValidation.CheckExtraOutput | lib/config/webpack.js:263-265 | appends the hint for a truthy `extra.output.publicPath` |
| WebpackValidation.CheckExtraResolve | lib/config/webpack.js:266-269 | appends the hint for truthy `extra.resolve.alias`, then the repeated-alias hints |
| WebpackValidation.CheckConfig | lib/config/webpack.js:273-276 | appends the error for a present `config` that is not a function |
| WebpackValidation.Shorthands | lib/config/webpack.js:46-123 | the sections up to `copy` keep the config an object |
| WebpackValidation.TypeChecks | lib/config/webpack.js:124-171 | the sections from `debug` to `publicPath` rewrite nothing |
| WebpackValidation.LateChecks | lib/config/webpack.js:251-276 | the sections after `uglify` rewrite nothing |
| WebpackValidation.ShapeChecks | lib/config/webpack.js:46-171 | the sections up to `publicPath` keep the config an object |
| WebpackValidation.LoaderSections | lib/config/webpack.js:172-236 | `rules` and `styles` give no hints and keep the config an object |
| WebpackValidation.Sections | lib/config/webpack.js:46-236 | the sections before `uglify` keep the config an object |
| WebpackValidation.CheckShorthands | lib/config/webpack.js:46-123 | the report and config after the sections up to `copy` are those of the specifying function |
| WebpackValidation.CheckTypes | lib/config/webpack.js:124-171 | the same for the sections from `debug` to `publicPath` |
| WebpackValidation.CheckShapes | lib/config/webpack.js:46-171 | the same for the sections up to `publicPath` |
| WebpackValidation.CheckLoaderSections | lib/config/webpack.js:172-236 | the same for `rules` and `styles` |
| WebpackValidation.CheckSections | lib/config/webpack.js:46-236 | the same for the sections before `uglify` |
| WebpackValidation.CheckLate | lib/config/webpack.js:251-276 | the same for the sections after `uglify` |
| WebpackValidation.WebpackValidator.constructor | lib/config/webpack.js:24 | a fresh process has not yet told the user about `uglify` |
| WebpackValidation.WebpackValidator.ReportUglify | lib/config/webpack.js:238-249 | the rename is reported and copied as the specifying function says, and the flag is updated |
| WebpackValidation.WebpackValidator.ProcessWebpackConfig | lib/config/webpack.js:26-277 | the report gains exactly the validation's errors, hints and deprecations, and the config its rewrites |
| WebpackValidationProperties.UnexpectedPropsReported | lib/config/webpack.js:46-51 | an error is reported exactly when some key is not a supported section |
| WebpackValidationProperties.UnexpectedCompatReported | lib/config/webpack.js:78-82 | one error, exactly when some `compat` key names no known library |
| WebpackValidationProperties.AutoprefixerShorthand | lib/config/webpack.js:62-71 | a string becomes `{browsers: s}` with no error; an error exactly for a present non-string non-object; otherwise nothing changes |
| WebpackValidationProperties.CopyShorthand | lib/config/webpack.js:106-108 | an array `copy` becomes `{patterns: copy}` with no error |
| WebpackValidationProperties.CopyObjectChecks | lib/config/webpack.js:109-120 | an object `copy` stays, and passes exactly when it has patterns or options of the right types |
| WebpackValidationProperties.CopyOtherTypes | lib/config/webpack.js:121-122 | any other `copy` is the one type error |
| WebpackValidationProperties.CompatEntryShorthands | lib/config/webpack.js:85-100 | a string or array becomes `{locales: [...]}`, a string `locales` becomes an array, and the two error cases name their paths |
| WebpackValidationProperties.CompatEntryReady | lib/config/webpack.js:84-101 | one library's check touches only it, and leaves it usable when it reports nothing |
| WebpackValidationProperties.CompatEntriesReady | lib/config/webpack.js:84-101 | checking all libraries with no error leaves each of them with an array of locales |
| WebpackValidationProperties.ValidatedCompatReady | lib/config/webpack.js:72-103 | a compat section with no error is what the config factory's compat step needs |
| WebpackValidationProperties.ShorthandsCompat | lib/config/webpack.js:62-123 | the `copy` rewrite after `compat` leaves `compat` as its check made it |
| WebpackValidationProperties.LaterStepsKeepCompat | lib/config/webpack.js:172-249 | `rules`, `styles` and `uglify` leave `compat` alone |
| WebpackValidationProperties.CleanValidationCompatReady | lib/config/webpack.js:26-277 | a config that validates with no error has usable compat settings |
| WebpackValidationProperties.ExtractCssAccepts | lib/config/webpack.js:138-150 | `extractCSS` passes exactly when absent, `false` or an object |
| WebpackValidationProperties.TerserAccepts | lib/config/webpack.js:251-257 | `terser` passes exactly when absent, `false` or an object, and the error reports the value |
| WebpackValidationProperties.StylesAccepts | lib/config/webpack.js:192-198 | `false` changes nothing, `true` and non-boolean non-objects are the one error |
| WebpackValidationProperties.RulesPreparedOnlyWhenClean | lib/config/webpack.js:177-187 | the rules are flattened exactly when their check reported nothing |
| WebpackValidationProperties.StylesPreparedOnlyWhenClean | lib/config/webpack.js:204-234 | the style rules are flattened exactly when their check reported nothing |
| WebpackValidationProperties.PrepareRuleMovesOptions | lib/config/webpack.js:303-310 | a flattened rule keeps the four rule keys and holds every other key under `options` |
| WebpackValidationProperties.FlatRuleKeepsOnlyRuleKeys | lib/config/webpack.js:306-309 | a falsy `options` is moved and deleted with the rest, so only rule keys remain |
| WebpackValidationProperties.PrepareRuleIdempotent | lib/config/webpack.js:299-312 | flattening a rule twice is flattening it once |
| WebpackValidationProperties.LoadersOfLookup | lib/config/webpack.js:325-329 | `loaders[k]` is `{options: value}` for each moved key and absent for any other |
| WebpackValidationProperties.PrepareStyleConfigKeepsRuleKeys | lib/config/webpack.js:214-216 | the corrected flattening keeps `test`, `include` and `exclude` as they are |
| WebpackValidationProperties.PrepareStyleConfigMovesLoaders | lib/config/webpack.js:324-329 | every other key of a style rule moves to `loaders[k] = {options: value}` |
| WebpackValidationProperties.StyleTestMovedAsWritten | lib/config/webpack.js:321-329 | as written, a style rule's `test` is moved into a loader named `test` |
| WebpackValidationProperties.StyleTestExample | lib/config/webpack.js:321-323 | `{test: /\.scss$/, sass: {}}` loses its test as written and keeps it when corrected |
| WebpackValidationProperties.RedundantAliasesOnlyForCompatTypes | lib/config/webpack.js:283-293 | at most two hints, none outside the Inferno and Preact app types, and some exactly when an alias includes the compat module |
| WebpackValidationProperties.UglifyWarnsOnce | lib/config/webpack.js:238-249 | of two validations in a row at most one reports the rename, and none once it was told |
| WebpackValidationProperties.UglifyCopiedToTerser | lib/config/webpack.js:240-248 | the first time, the rename is reported and `uglify` becomes `terser` unless `terser` is set |
| QuickCommands.ShimAliases | lib/quickCommands.js:102-107 | the render shim's aliases form an object |
| QuickCommands.DefaultBuildConfig | lib/quickCommands.js:68-112 | the literal, amended step by step for the render shim and the polyfill flag, is the specifying function's |
| QuickCommands.CreateBuildConfig | lib/quickCommands.js:60-115 | the defaults with the app type's command config (or `{}`) merged over them |
| QuickCommands.DefaultServeConfig | lib/quickCommands.js:129-165 | the serve literal, amended the same way, is the specifying function's |
| QuickCommands.CreateServeConfig | lib/quickCommands.js:121-168 | the serve defaults with the command config merged over them |
| QuickCommands.Build | lib/quickCommands.js:46-54 | fails with the missing-entry error exactly when only the command is given; otherwise install, clean the output directory, then build |
| QuickCommands.Serve | lib/quickCommands.js:174-180 | fails with the missing-entry error exactly when only the command is given; otherwise install, then serve |
| QuickCommands.Tails | lib/quickCommands.js:96-112 | `resolve` is added exactly with the render shim and `polyfill: false` exactly when either flag turns polyfills off |
| QuickCommands.BuildDefaultsCore | lib/quickCommands.js:75-94 | every other section is the literal's |
| QuickCommands.BuildFilenames | lib/quickCommands.js:72-85 | output names carry a content hash in production only, and chunks are named like the bundle |
| QuickCommands.BuildEntry | lib/quickCommands.js:96-100 | the app is built from the entry module, or from the render shim when there is one and `--force` is not given |
| QuickCommands.BuildStage | lib/quickCommands.js:76-78 | Babel runs at stage 0 |
| QuickCommands.BuildPluginsSection | lib/quickCommands.js:86-101 | the plugins section is the html and vendor settings plus the shim's define |
| QuickCommands.BuildHtmlAndDefine | lib/quickCommands.js:70-101 | the page mounts on `--mount-id` or `app`, and the shim's define is there exactly when the shim is used |
| QuickCommands.PluginsDefine | lib/quickCommands.js:101 | adding the define leaves the html plugin alone and adds the define exactly with the shim |
| QuickCommands.DefaultsTails | lib/quickCommands.js:96-112 | with the shim the entry module is reachable as `nwb-quick-entry` unless the app type aliases it itself; `polyfill: false` exactly when turned off |
| QuickCommands.BuildDefaultsTails | lib/quickCommands.js:96-112 | the same for the build defaults |
| QuickCommands.ServeOutputAndEntry | lib/quickCommands.js:137-153 | a dev server writes `app.js` from a one-element entry array holding the entry module or the render shim |
| QuickCommands.ServeStage | lib/quickCommands.js:133-136 | a dev server's Babel runs at stage 0, as a build's does |
| QuickCommands.ServeDefaultsTails | lib/quickCommands.js:150-165 | the optional sections of the serve defaults, as for a build |
| AppCommands.DefaultHtmlConfig | lib/appCommands.js:130-143 | the project's `src/index.html` as the only setting when it exists, otherwise mount id `app` and the package name as title |
| AppCommands.DefaultBuildConfig | lib/appCommands.js:66-95 | the literal, amended step by step for `public/` and the polyfill flag, is the specifying function's |
| AppCommands.CreateBuildConfig | lib/appCommands.js:65-98 | the defaults with the app type's build config (or `{}`) merged over them |
| AppCommands.DefaultServeConfig | lib/appCommands.js:105-122 | the serve literal, amended for `public/`, is the specifying function's |
| AppCommands.CreateServeConfig | lib/appCommands.js:104-125 | the serve defaults with each given config merged over them in turn |
| AppCommands.Build | lib/appCommands.js:48-59 | installs the build dependencies first exactly when there are any, then cleans the output directory and builds |
| AppCommands.Serve | lib/appCommands.js:148-150 | runs the dev server with the app type's serve config merged in |
| AppCommands.BuildDefaultsCore | lib/appCommands.js:72-87 | every section but `polyfill` is the literal's |
| AppCommands.BuildFilenames | lib/appCommands.js:69-80 | output names carry a content hash in production only, and chunks are named like the bundle |
| AppCommands.BuildPluginsSection | lib/appCommands.js:82-91 | the plugins section is the html and vendor settings plus the copy pattern |
| AppCommands.PluginsCopy | lib/appCommands.js:89-91 | the copy pattern for `public/` is added exactly when the directory exists, leaving the rest alone |
| AppCommands.BuildPluginsShape | lib/appCommands.js:82-91 | html is off exactly with `--html=false` and otherwise the default html config; the vendor bundle is on unless `--vendor=false`; `public/` is copied exactly when it exists |
| AppCommands.PolyfillTail | lib/appCommands.js:93-95 | `polyfill: false` is added exactly when either flag turns polyfills off |
| AppCommands.BuildCoreKeys | lib/appCommands.js:72-87 | the literal's sections are `devtool`, `entry`, `output` and `plugins`, in order |
| AppCommands.BuildPolyfill | lib/appCommands.js:93-95 | the build defaults leave polyfills out exactly when either flag turns them off |
| AppCommands.ServeCopy | lib/appCommands.js:120-122 | a dev server copies `public/` with the same pattern as a build |
| AppCommands.ServeDefaultsShape | lib/appCommands.js:105-122 | a dev server writes `app.js` from an array entry, with the default html config, copying `public/` exactly when it exists |
| React.GetBuildConfig | lib/react/index.js:27-59 | the base config, `react-prod` pushed in production, and the compat aliases, as the specifying function says |
| React.GetServeConfig | lib/react/index.js:79-88 | the base config with the dev preset, then the hot-reloading preset unless turned off |
| React.BuildConfigPresets | lib/react/index.js:28-33 | a build's presets are the React preset and, in production, `react-prod` |
| React.ReactProdOnlyInProduction | lib/react/index.js:30-33 | `react-prod` is a build preset exactly in production, after the React preset |
| React.CompatAliasesPresent | lib/react/index.js:37-56 | a build gets compat aliases exactly when an Inferno or Preact flag is set |
| React.InfernoTakesPrecedence | lib/react/index.js:113-129 | the Inferno flags win over the Preact ones for the aliases, the dependencies and the name |
| React.PreactAliasTargets | lib/react/index.js:48-54 | `react` and `react-dom` go to preact-compat's main module, `create-react-class` to its library version |
| React.PreactCompatInstalledPath | lib/react/index.js:35-48 | for quick commands preact-compat's main module is found by its installed path |
| React.PreactCompatModuleName | lib/react/index.js:35-48 | otherwise by its module name |
| React.CompatOnlyForBuild | lib/react/index.js:64-96 | outside the build commands the compat flags change neither the name nor the quick dependencies |
| React.CompatNameMatchesDependencies | lib/react/index.js:113-129 | the app is named after the library whose modules are installed, and plain React installs none |
| React.HmrePresetCondition | lib/react/index.js:79-88 | the hot-reloading preset is added unless either flag turns it off, after the dev preset |
| React.QuickConfigShape | lib/react/index.js:98-140 | a quick command is given the command config, the app's name as title and the render shim with React aliased to the installed modules |
| Preact.ProjectDependenciesCompat | lib/preact/index.js:48-54 | Preact always, first, and preact-compat exactly when the `compat` answer is truthy |
| Preact.ProjectDefaultsCompatOff | lib/preact/index.js:45-54 | the defaults answer `compat` with `false`, so the project depends on Preact alone |
| Preact.ProfileDependencies | lib/preact/index.js:65-68 | a build installs nothing first; a quick command installs Preact and preact-compat |
| Preact.BaseConfigShape | lib/preact/index.js:7-21 | the one preset is the Preact preset, and the React modules are aliased to preact-compat |
| Preact.QuickConfigShape | lib/preact/index.js:32-41 | a quick command is given the base config, the title `Preact App`, and the render shim with `preact` aliased to the installed module |
| Profiles.Positional | lib/quickCommands.js:68-69 | `args._[i]` is the i-th positional argument, or `undefined` past the end |
| Profiles.Resolve | lib/quickCommands.js:68-69 | `path.resolve` yields a host path computed from the string it is given |
| Profiles.JoinPath | lib/react/index.js:48 | `path.join` of a host path stays a host path; of a module name it is the joined string |

## Left out

- JavaScript `TypeError`s on malformed input are not modelled. They arise where the code reads a property of `undefined` or calls a missing method. Such inputs are excluded by preconditions stated in the code's own terms: `RulesReady`, `EntryReady`, `CompatReady` and `ExtensibleEntry`. Examples are a `compat` library whose `locales` is not an array, reaching `options.locales.join` at lib/createWebpackConfig.js:549, and an entry that is neither an array nor an object.
- Numbers are integers. Floating point and `NaN` play no part in the decisions modelled.
- `lib/utils.js` is not part of this model. `typeOf`, `joinAnd`, `pluralise` and `modulePath` are defined from their use.
- The `webpack-merge` package is not part of this model. `replaceArrayMerge` and `webpack-merge` are specified in `Merge` as a deep merge of object layers in which `undefined` never overrides. Their own code is not modelled.
- `Object.assign` and object spread are modelled for object sources only. Copying the characters of a string source is not modelled.
- Inherited properties are not modelled. `COMPAT_CONFIGS[lib]` and `'prop' in obj` see own properties only, so names like `toString` are treated as unknown libraries.
- Three updates happen in place on the caller's objects: `addPolyfillsToEntry`, the validator's rewrites, and the `babel` rule options that lib/createWebpackConfig.js:633 writes into the build config's `rules` object. The model returns the rewritten values instead, so aliasing between the caller's config and the generated one is not captured.
- `inlineRuntimePlugin` hooks into webpack's compilation and edits the generated HTML. Its internals are left out; only that it is attached, after the HTML plugin, is modelled.
- Plugin constructors, `autoprefixer(...)`, the lazily required Terser plugin and `RegExp` objects are opaque descriptors `Instance(kind, options)` or `RegExp(source)`.
- `require.resolve`, `path.resolve`, `path.join` and `modulePath` yield tagged host paths (`Path`). The working directory and the install location are not modelled.
- Chalk colours, `util.inspect` rendering and figures in messages and in the report text are left out. Messages are plain strings, and error values are the values themselves or a `type: …` note.
- `JSON.stringify` of a mount id is modelled for string ids. Other values are rendered by their property key.
- A missing `args._`, or one of length 0, gives `undefined` positionals through `Positional`. Where `args._` is missing, the source throws as soon as it reads `args._`: at the `length === 1` check in the quick commands, and at lib/appCommands.js:66 in the app commands. Where `args._` is empty, the quick commands' check passes and the source throws later, at `path.resolve(undefined)` (lib/quickCommands.js:68). The app commands fall back to their defaults, as the model does.
- The install, clean, webpack-build and dev-server steps of the commands are modelled as data, `Task` values in run order. Running them is I/O: the callbacks of `run-series` and the processes they start.
- The `package.json` read and the file-system probes for `public/` and `src/index.html` are inputs, as a `Workspace`. `NODE_ENV` is the `production` parameter, and `NWB_TEST` is the `nwbTest` parameter.
- The user's `config()` hooks (Babel and webpack) are the `apply` parameter. Their code is the user's.
- The React app type's `getProjectDefaults`, `getProjectDependencies`, `getProjectQuestions` and `getKarmaTestConfig` are left out. So are the Preact app type's `getProjectQuestions` and `getKarmaTestConfig`. They serve project creation and the test runner, which are not modelled.
- The debug-log lines (`debug(...)`, `deepToString`) are left out. They are output only.
- The alias check's compat module is written as a conditional over the two compat app types (`inferno-app`, `preact-app`), rather than by splitting the type name at its first `-`. Only those two types reach it. The constants module is not part of this model.
- `aliases.react.includes(m)` is modelled for strings, host paths and arrays. Other values are treated as not including `m`.
- WebpackValidation.WebpackValidator.ProcessWebpackConfig: requires `userConfig.webpack` to be an object. Its caller, the user-config loader, only calls it for an object, and that file is not part of this model.
- WebpackValidation.PrepareStyleRule: flattens a style rule with the corrected definition `PrepareStyleConfig`, which keeps `test` at the top level. The source, at lib/config/webpack.js:321-329, moves `test` into `loaders.test`. The as-written flattening is `PrepareStyleConfigAsWritten`; see "## Findings".
- WebpackValidation.PrepareStyleConfigs: keeps each style rule's `test`, as `PrepareStyleRule` does, where the source moves it.
- WebpackValidation.PrepareStyleRules: the same, for the loop over a style type's rules.
- WebpackValidation.PrepareStyles: the same, for every style type.
- WebpackValidation.PrepareWebpackStyleConfig: the same, for the loop over the style types.
- WebpackValidation.StylesStep: its rewritten `styles` keeps each rule's `test`, where the source moves it.
- WebpackValidation.CheckStyles: the same, as the new value of the styles section.
- WebpackValidation.LoaderSections: the same, for the `rules` and `styles` sections together.
- WebpackValidation.CheckLoaderSections: the same, for the method over those two sections.
- WebpackValidation.Sections: the same, for the sections before `uglify`.
- WebpackValidation.CheckSections: the same, for the method over those sections.
- WebpackValidation.WebpackValidator.ProcessWebpackConfig: the config it returns keeps each style rule's `test`, where the source moves it. Its errors, hints and deprecations are not affected.
- WebpackValidation.PrepareStyles: also leaves a style type that does not hold an array as it is, where the source would throw. The validator only prepares the styles once every type has been checked to hold an array, so the case never arises there.

## Findings

| source | as written | input that shows it | evidently intended | confidence | as-written member | corrected member |
|---|---|---|---|---|---|---|
| lib/createWebpackConfig.js:93 | a debug build's Terser options merge in `userWebpackConfig.terser.terserConfig` | `{debug: true, terser: {terserOptions: {compress: {drop_console: true}}}}`: the user's `compress` is dropped | `terser.terserOptions`, the key of the plugin options that holds `compress`; line 95 passes the user's `terser` object as those options | not executed; high | WebpackPlugins.DebugDropsCompressAsWritten | WebpackPlugins.DebugKeepsCompress |
| lib/config/webpack.js:321-323 | a style rule is flattened keeping only `include` and `exclude` at the top level, so `test` moves to `loaders.test` | `styles: {css: [{test: /\.scss$/, sass: {}}]}` with a `sass` preprocessor: the rule loses its `test` | keep `test` as well. The check at lines 214-216 accepts it as a rule key, and lib/createWebpackConfig.js:260-263 spreads the top-level keys over the default `test` | not executed; medium | WebpackValidationProperties.StyleTestMovedAsWritten | WebpackValidationProperties.PrepareStyleConfigKeepsRuleKeys |

The validator's style flattening uses the corrected `PrepareStyleConfig`. The as-written
`PrepareStyleConfigAsWritten` stands beside it, and the "## Left out" lines above name the
members this choice affects. `createTerserConfig` is modelled twice, as `TerserConfigAsWritten`
and as the corrected `TerserConfig`. Neither feeds the plugin list: the minimizer in the
`optimization` block is the opaque `LazyTerserPlugin(uw)`, which carries the user's webpack
config and nothing computed from it. `WebpackValidationProperties.StyleTestExample` works the second case out
on a concrete rule.
