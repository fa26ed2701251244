/**
 * The onLoad callback for .tsx and .jsx files in the "file" namespace, and
 * the host's choice between the two load callbacks.
 */
module LoadHooks {
  import opened EsbuildTypes
  import opened BabelCompile
  import SolidPatch

  /** The options `loadTSX` hands to `esbuild.transform`. */
  datatype TsTransformOptions = TsTransformOptions(loader: string, target: string, jsx: string, sourcemap: string)

  const TsxOptions := TsTransformOptions("tsx", "esnext", "preserve", "inline")

  /** What `esbuild.transform` yields: code with an inline source map, and warnings. */
  datatype TsOutput = TsOutput(code: string, warnings: seq<Message>)

  /**
   * The foreign collaborators of the JSX loader: `fs.readFile` as bytes and as
   * UTF-8 text, `esbuild.transform`, Babel's option loader and compiler, and
   * `path.relative(process.cwd(), ·)`.
   */
  datatype Collaborators = Collaborators(
    readBytes: string -> seq<byte>,
    readText: string -> string,
    tsTransform: (seq<byte>, TsTransformOptions) -> TsOutput,
    loadOptions: LoadOptions,
    transform: Transform,
    relative: string -> string)

  /** The filter `\.(t|j)sx$`: a dot, `t` or `j`, then `sx` at the end of the path. */
  predicate LoadFilter(path: string): (b: bool)
    ensures b <==> (|path| >= 4 && path[|path| - 4] == '.' &&
                    (path[|path| - 3] == 't' || path[|path| - 3] == 'j') && path[|path| - 2..] == "sx")
  {
    var n := |path|;
    assert n >= 4 ==> path[n - 4..] == [path[n - 4], path[n - 3]] + path[n - 2..];
    EndsWith(path, ".tsx") || EndsWith(path, ".jsx")
  }

  datatype LoadHook = PatchLoader | JsxLoader

  /** Which of the plugin's load callbacks the host calls, if any. */
  function LoadHookFor(args: OnLoadArgs): (h: Option<LoadHook>)
    ensures h == Some(PatchLoader) <==> args.namespace == SolidJsFile
    ensures h == Some(JsxLoader) <==> args.namespace == File && LoadFilter(args.path)
  {
    match args.namespace
    case SolidJsFile => Some(PatchLoader)
    case File => if LoadFilter(args.path) then Some(JsxLoader) else None
    case OtherNamespace(_) => None
  }

  /**
   * `loadTSX(args)`: esbuild's transform of the file's bytes as TSX, for the
   * newest syntax target, with JSX kept and an inline source map.
   */
  function LoadTsx(path: string, c: Collaborators): (r: TsOutput)
    ensures r == c.tsTransform(c.readBytes(path), TsTransformOptions("tsx", "esnext", "preserve", "inline"))
  {
    c.tsTransform(c.readBytes(path), TsxOptions)
  }

  /** The onLoad callback for .tsx and .jsx files. */
  method OnLoadJsx(args: OnLoadArgs, c: Collaborators) returns (ret: OnLoadResult)
    ensures var isTsx := EndsWith(args.path, ".tsx");
      var source := if isTsx then LoadTsx(args.path, c).code else c.readText(args.path);
      var compiled := TransformJsx(args.path, source, c.loadOptions, c.relative, c.transform);
      var tsxWarnings := if isTsx then LoadTsx(args.path, c).warnings else [];
      && ret.contents == compiled.contents
      && ret.errors == compiled.errors
      && ret.resolveDir == compiled.resolveDir
      && ret.warnings == Some(compiled.warnings.GetOr([]) + tsxWarnings)
      && ret.watchFiles == Some([args.path])
  {
    var isTsx := EndsWith(args.path, ".tsx");
    var jsxContent: string;
    var warnings: seq<Message> := [];
    if isTsx {
      var pluginRet := LoadTsx(args.path, c);
      var i := 0;
      while i < |pluginRet.warnings|
        invariant 0 <= i <= |pluginRet.warnings|
        invariant warnings == pluginRet.warnings[..i]
      {
        warnings := warnings + [pluginRet.warnings[i]];
        i := i + 1;
      }
      assert warnings == pluginRet.warnings;
      jsxContent := pluginRet.code;
    } else {
      jsxContent := c.readText(args.path);
    }
    ret := TransformJsx(args.path, jsxContent, c.loadOptions, c.relative, c.transform);
    ret := ret.(warnings := Some(ret.warnings.GetOr([]) + warnings));
    ret := ret.(watchFiles := Some([args.path]));
  }

  /**
   * The compile stage never reports warnings, so the merged list is exactly
   * the TSX stage's, and empty for a .jsx file.
   */
  lemma FinalWarningsAreTsxWarnings(args: OnLoadArgs, c: Collaborators, source: string)
    ensures var compiled := TransformJsx(args.path, source, c.loadOptions, c.relative, c.transform);
      var tsxWarnings := if EndsWith(args.path, ".tsx") then LoadTsx(args.path, c).warnings else [];
      compiled.warnings.GetOr([]) + tsxWarnings == tsxWarnings
  {
    var compiled := TransformJsx(args.path, source, c.loadOptions, c.relative, c.transform);
    assert compiled.warnings.GetOr([]) == [];
  }

  /** The TSX stage runs exactly for .tsx paths, and such a path is also in the load filter. */
  lemma TsxStageOnlyForTsx(path: string)
    ensures EndsWith(path, ".tsx") ==> LoadFilter(path) && !EndsWith(path, ".jsx")
  {
  }

  /** Whatever loader runs, the loaded file itself is the one watch file. */
  method Load(args: OnLoadArgs, c: Collaborators) returns (r: Option<OnLoadResult>)
    ensures r.Some? <==> LoadHookFor(args).Some?
    ensures r.Some? ==> r.value.watchFiles == Some([args.path])
    ensures LoadHookFor(args) == Some(PatchLoader) ==>
      r.value.contents == Some(Bytes(SolidPatch.Patch() + c.readBytes(args.path)))
  {
    match LoadHookFor(args)
    case None => r := None;
    case Some(PatchLoader) =>
      var res := SolidPatch.OnLoadSolidJsFile(args, c.readBytes);
      var bytes := res.contents.value.bytes;
      assert bytes == bytes[..|SolidPatch.Patch()|] + bytes[|SolidPatch.Patch()|..];
      r := Some(res);
    case Some(JsxLoader) =>
      var res := OnLoadJsx(args, c);
      r := Some(res);
  }
}
