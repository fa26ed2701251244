/**
 * `transformJSX`: one Babel compile of a JSX source with the Solid preset,
 * and the classification of its outcome into an onLoad result.
 */
module BabelCompile {
  import opened EsbuildTypes

  /** The message of the error thrown when Babel returns no result. */
  const SilentFailureMessage := "babel is failed sliently"

  /** The options given to `babel-preset-solid`. */
  datatype SolidPresetOptions = SolidPresetOptions(moduleName: string, generate: string)

  datatype Caller = Caller(name: string, supportsStaticESM: bool)

  /** The argument of `babel.loadOptions`. */
  datatype LoadOptionsRequest = LoadOptionsRequest(preset: SolidPresetOptions, filename: string, caller: Caller)

  /**
   * The options Babel resolved for a file: whether source maps are on, the
   * source file name recorded in them, and the rest of the configuration,
   * which is opaque here.
   */
  datatype BabelOptions = BabelOptions(sourceMaps: bool, sourceFileName: Option<string>, rest: map<string, string>)

  /** How `babel.transformAsync` ended: it threw, resolved to null, or resolved to a result. */
  datatype TransformOutcome = Threw(detail: Thrown) | NoResult | Compiled(code: Option<string>)

  /** Babel's option loader: None when no configuration applies to the file (an ignored file). */
  type LoadOptions = LoadOptionsRequest -> Option<BabelOptions>

  /** Babel's compiler. */
  type Transform = (string, BabelOptions) -> TransformOutcome

  /** The loadOptions request for a file: the Solid preset with the plugin's fixed settings. */
  function SolidRequest(path: string): (req: LoadOptionsRequest)
    ensures req.filename == path
    ensures req.preset == SolidPresetOptions("gsolid/jsx-runtime", "universal")
    ensures req.caller == Caller("esbuild-plugin-gsolid", true)
  {
    LoadOptionsRequest(SolidPresetOptions("gsolid/jsx-runtime", "universal"), path,
                       Caller("esbuild-plugin-gsolid", true))
  }

  /**
   * The options handed to the compiler: `relative` gives the path relative to
   * the working directory, recorded as the source file name only when source
   * maps are on.
   */
  function CompileOptions(opts: BabelOptions, path: string, relative: string -> string): (o: BabelOptions)
    ensures o.sourceMaps == opts.sourceMaps && o.rest == opts.rest
    ensures o.sourceFileName != opts.sourceFileName ==> opts.sourceMaps
    ensures opts.sourceMaps ==> o.sourceFileName == Some(relative(path))
  {
    if opts.sourceMaps then opts.(sourceFileName := Some(relative(path))) else opts
  }

  /** The single error reported for a failed compile of `path`. */
  function CompileError(path: string, detail: Thrown): (m: Message)
    ensures m.detail == Some(detail) && m.location == Some(Location(path)) && m.text.None?
  {
    Message(None, Some(Location(path)), Some(detail))
  }

  /** Maps the compiler's outcome onto an onLoad result. */
  function Classify(path: string, outcome: TransformOutcome): (r: OnLoadResult)
    ensures r.warnings.None? && r.watchFiles.None? && r.resolveDir.None?
    ensures r.errors.Some? <==> !outcome.Compiled?
    ensures outcome.Threw? ==> r.errors == Some([CompileError(path, outcome.detail)])
    ensures outcome.NoResult? ==>
      r.errors == Some([CompileError(path, ErrorObject(SilentFailureMessage))])
    ensures r.contents.Some? <==> outcome.Compiled? && outcome.code.Some? && outcome.code.value != ""
    ensures r.contents.Some? ==> r.contents.value == Text(outcome.code.value)
  {
    match outcome
    case Threw(detail) => EmptyLoadResult.(errors := Some([CompileError(path, detail)]))
    case NoResult => EmptyLoadResult.(errors := Some([CompileError(path, ErrorObject(SilentFailureMessage))]))
    case Compiled(code) =>
      if code.Some? && code.value != "" then EmptyLoadResult.(contents := Some(Text(code.value)))
      else EmptyLoadResult
  }

  /** `transformJSX({args, contents})` for a file at `path`. */
  function TransformJsx(path: string, contents: string, loadOptions: LoadOptions,
                        relative: string -> string, transform: Transform): (r: OnLoadResult)
    ensures r.warnings.None? && r.watchFiles.None? && r.resolveDir.None?
    ensures loadOptions(SolidRequest(path)).None? ==>
      r.contents == Some(Text(contents)) && r.errors.None?
    ensures loadOptions(SolidRequest(path)).Some? ==>
      r == Classify(path, transform(contents,
             CompileOptions(loadOptions(SolidRequest(path)).value, path, relative)))
  {
    match loadOptions(SolidRequest(path))
    case None => EmptyLoadResult.(contents := Some(Text(contents)))
    case Some(opts) => Classify(path, transform(contents, CompileOptions(opts, path, relative)))
  }

  /** A compile that throws `e` reports exactly one error, carrying `e` and the path, and no contents. */
  lemma CompileThrows(path: string, contents: string, loadOptions: LoadOptions,
                      relative: string -> string, transform: Transform, e: Thrown)
    requires loadOptions(SolidRequest(path)).Some?
    requires transform(contents, CompileOptions(loadOptions(SolidRequest(path)).value, path, relative)) == Threw(e)
    ensures var r := TransformJsx(path, contents, loadOptions, relative, transform);
      r.contents.None? && r.errors.Some? && |r.errors.value| == 1 &&
      r.errors.value[0].detail == Some(e) && r.errors.value[0].location == Some(Location(path))
  {
  }

  /** A successful compile whose code is empty or absent gives no contents, not the input text. */
  lemma EmptyCodeDropsContents(path: string, contents: string, loadOptions: LoadOptions,
                               relative: string -> string, transform: Transform)
    requires loadOptions(SolidRequest(path)).Some?
    requires transform(contents, CompileOptions(loadOptions(SolidRequest(path)).value, path, relative))
             in {Compiled(None), Compiled(Some(""))}
    ensures TransformJsx(path, contents, loadOptions, relative, transform) == EmptyLoadResult
  {
  }
}
