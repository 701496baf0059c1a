/**
 * What the build and serve commands ask of an app type (React, Preact), the host paths
 * they compute, and the steps a command runs.
 */
module Profiles {
  import opened Js

  /** The answers an app type's config object gives the commands. */
  datatype Profile = Profile(
    name: string,
    buildDependencies: seq<string>,
    buildConfig: Value,
    serveConfig: Value,
    quickDependencies: seq<string>,
    quickBuildConfig: Value,
    quickServeConfig: Value)

  /** A step of a command, in the order the command runs them. */
  datatype Task =
    | Install(packages: seq<string>)
    | CleanApp(dist: Value)
    | WebpackBuild(name: string, config: Value)
    | WebpackServe(config: Value)

  /** `path.resolve(p)`: a path the host computes from the working directory. */
  function Resolve(p: Value): (r: Value)
    ensures r.Path? && (IsString(p) ==> r.p == PropertyKey(p))
  {
    Path(PropertyKey(p))
  }

  /** `modulePath(name)`: where the host finds an installed module. */
  function ModulePath(name: string): (r: Value)
    ensures r.Path?
  {
    Path("node_modules/" + name)
  }

  /** `path.join(base, rest)` for a base that is a module name or a host path. */
  function JoinPath(base: Value, rest: string): (r: Value)
    ensures base.Path? ==> r == Path(base.p + "/" + rest)
    ensures !base.Path? ==> r == Str(PropertyKey(base) + "/" + rest)
  {
    if base.Path? then Path(base.p + "/" + rest) else Str(PropertyKey(base) + "/" + rest)
  }

  /** The positional command-line arguments, `args._`. */
  function Positionals(args: Value): seq<Value>
  {
    if Get(args, "_").Arr? then Get(args, "_").elems else []
  }

  /** `args._[i]` */
  function Positional(args: Value, i: nat): (r: Value)
    ensures i < |Positionals(args)| ==> r == Positionals(args)[i]
    ensures i >= |Positionals(args)| ==> r == Undef
  {
    if i < |Positionals(args)| then Positionals(args)[i] else Undef
  }

  /** `args.polyfill === false || args.polyfills === false`: either spelling turns polyfills off. */
  predicate PolyfillsOff(args: Value)
  {
    Get(args, "polyfill") == Bool(false) || Get(args, "polyfills") == Bool(false)
  }

  /** `process.env.NODE_ENV === 'production' ? '[name].[chunkhash:8].js' : '[name].js'` */
  function FilenamePattern(production: bool): Value
  {
    Str(if production then "[name].[chunkhash:8].js" else "[name].js")
  }
}
