/**
 * The Preact app type: its Babel preset, the aliases that let React components run on
 * preact-compat, the dependencies a new project and a quick command need, and the answers
 * it gives the build, serve and quick commands.
 */
module Preact {
  import opened Js
  import opened Profiles

  /** `require.resolve('./preact-preset')` */
  const PreactPreset := Path("nwb/lib/preact/preact-preset.js")
  /** `require.resolve('./renderShim')` */
  const RenderShim := Path("nwb/lib/preact/renderShim.js")

  const Compat := Str("preact-compat")
  const CreateReactClassCompat := Str("preact-compat/lib/create-react-class")

  /** `getDependencies` */
  const Dependencies := ["preact"]
  /** `getCompatDependencies` */
  const CompatDependencies := ["preact-compat"]

  /** The React modules a Preact app's imports are redirected to. */
  function CompatAliases(): Value
  {
    Obj([Prop("react", Compat), Prop("react-dom", Compat), Prop("create-react-class", CreateReactClassCompat)])
  }

  /** `getBaseConfig`: the Preact preset, and the aliases to preact-compat. */
  function BaseConfig(): Value
  {
    Obj([Prop("babel", Obj1("presets", Arr([PreactPreset]))), Prop("resolve", Obj1("alias", CompatAliases()))])
  }

  /** `getQuickConfig` */
  function QuickConfig(): Value
  {
    Obj([Prop("commandConfig", BaseConfig()), Prop("defaultTitle", Str("Preact App")), Prop("renderShim", RenderShim),
         Prop("renderShimAliases", Obj1("preact", ModulePath("preact")))])
  }

  /** `getProjectDefaults`: a new project does not use preact-compat unless asked to. */
  function ProjectDefaults(): Value
  {
    Obj1("compat", Bool(false))
  }

  /** `getProjectDependencies(answers)`: Preact, and preact-compat when the `compat` answer
      is truthy. */
  function ProjectDependencies(answers: Value): seq<string>
  {
    Dependencies + (if Truthy(Get(answers, "compat")) then CompatDependencies else [])
  }

  /** What the Preact app type tells the commands: nothing to install before a build, and
      both Preact and preact-compat for a quick command. */
  function PreactProfile(): Profile
  {
    Profile("Preact", [], BaseConfig(), BaseConfig(), Dependencies + CompatDependencies, QuickConfig(), QuickConfig())
  }

  // ---------------------------------------------------------------------------
  // Properties

  /** preact-compat is a project dependency exactly when the `compat` answer is truthy, and
      Preact always is, first. */
  lemma ProjectDependenciesCompat(answers: Value)
    ensures ProjectDependencies(answers)[0] == "preact"
    ensures "preact-compat" in ProjectDependencies(answers) <==> Truthy(Get(answers, "compat"))
    ensures |ProjectDependencies(answers)| == if Truthy(Get(answers, "compat")) then 2 else 1
  {
    if !Truthy(Get(answers, "compat")) {
      assert ProjectDependencies(answers) == ["preact"];
    }
  }

  /** The defaults answer `compat` with `false`, so a project created with them depends on
      Preact alone. */
  lemma ProjectDefaultsCompatOff()
    ensures Keys(ProjectDefaults()) == ["compat"]
    ensures Get(ProjectDefaults(), "compat") == Bool(false)
    ensures ProjectDependencies(ProjectDefaults()) == ["preact"]
  {
    GetLiteral1(Prop("compat", Bool(false)), "compat");
  }

  /** A build installs nothing first; a quick command installs Preact and preact-compat. */
  lemma ProfileDependencies()
    ensures PreactProfile().buildDependencies == []
    ensures PreactProfile().quickDependencies == ["preact", "preact-compat"]
  {
  }

  /** The base config's one preset is the Preact preset, and `react`, `react-dom` and
      `create-react-class` are aliased to preact-compat. */
  lemma BaseConfigShape()
    ensures Get(Get(BaseConfig(), "babel"), "presets") == Arr([PreactPreset])
    ensures Get(Get(Get(BaseConfig(), "resolve"), "alias"), "react") == Compat
    ensures Get(Get(Get(BaseConfig(), "resolve"), "alias"), "react-dom") == Compat
    ensures Get(Get(Get(BaseConfig(), "resolve"), "alias"), "create-react-class") == CreateReactClassCompat
  {
    var b := BaseConfig();
    GetLiteral2(b.props[0], b.props[1], "babel");
    GetLiteral2(b.props[0], b.props[1], "resolve");
    GetLiteral1(Prop("presets", Arr([PreactPreset])), "presets");
    GetLiteral1(Prop("alias", CompatAliases()), "alias");
    var a := CompatAliases();
    GetLiteral3(a.props[0], a.props[1], a.props[2], "react");
    GetLiteral3(a.props[0], a.props[1], a.props[2], "react-dom");
    GetLiteral3(a.props[0], a.props[1], a.props[2], "create-react-class");
  }

  /** A quick command is given the base config, the title `Preact App`, and the render
      shim with its `preact` import aliased to the installed module. */
  lemma QuickConfigShape()
    ensures Get(QuickConfig(), "commandConfig") == BaseConfig()
    ensures Get(QuickConfig(), "defaultTitle") == Str("Preact App")
    ensures Get(QuickConfig(), "renderShim") == RenderShim
    ensures Get(Get(QuickConfig(), "renderShimAliases"), "preact") == ModulePath("preact")
  {
    var q := QuickConfig();
    GetLiteral4(q.props[0], q.props[1], q.props[2], q.props[3], "commandConfig");
    GetLiteral4(q.props[0], q.props[1], q.props[2], q.props[3], "defaultTitle");
    GetLiteral4(q.props[0], q.props[1], q.props[2], q.props[3], "renderShim");
    GetLiteral4(q.props[0], q.props[1], q.props[2], q.props[3], "renderShimAliases");
    GetLiteral1(Prop("preact", ModulePath("preact")), "preact");
  }
}
