/**
 * The host bundler's plugin contract (esbuild), reduced to the shapes the
 * plugin reads and builds: resolve requests and results, load requests and
 * results, diagnostics, and the byte type of file contents.
 */
module EsbuildTypes {

  datatype Option<+T> = None | Some(value: T) {
    function GetOr(default: T): T {
      match this
      case Some(v) => v
      case None => default
    }
  }

  newtype byte = x: int | 0 <= x < 256

  /**
   * esbuild namespaces: "file", the plugin's own "solid-js-file", or one
   * another plugin made up. `OtherNamespace` stands only for names other than
   * those two; `OtherNamespace("file")` is not a second spelling of `File`,
   * and the dispatch treats every `OtherNamespace` as foreign.
   */
  datatype Namespace = File | SolidJsFile | OtherNamespace(name: string)

  /** esbuild's import kinds. */
  datatype ImportKind =
    | EntryPoint | ImportStatement | RequireCall | DynamicImport
    | RequireResolve | ImportRule | ComposesFrom | UrlToken

  /** A value thrown by a foreign call; `ErrorObject` is `Error(message)`. */
  datatype Thrown = ErrorObject(message: string) | ThrownValue(description: string)

  datatype Location = Location(file: string)

  /**
   * An esbuild message. Warnings coming from esbuild are opaque values of this
   * type; errors built by the plugin carry only `detail` and `location`.
   */
  datatype Message = Message(text: Option<string>, location: Option<Location>, detail: Option<Thrown>)

  /**
   * The arguments of an onResolve callback. `skip` stands for the plugin's own
   * marker in `pluginData` (an object under a process-unique symbol key whose
   * `skip` field is truthy).
   */
  datatype ResolveArgs = ResolveArgs(
    path: string,
    importer: string,
    namespace: Namespace,
    resolveDir: string,
    kind: ImportKind,
    skip: bool)

  /** The options of a nested `build.resolve(path, options)` call. */
  datatype ResolveOptions = ResolveOptions(
    importer: string,
    kind: ImportKind,
    resolveDir: string,
    namespace: Option<Namespace>,
    skip: bool)

  /** What `build.resolve` yields. */
  datatype Resolved = Resolved(path: string, namespace: Namespace, warnings: seq<Message>, errors: seq<Message>)

  /** What an onResolve callback returns when it does not decline. */
  datatype OnResolveResult = OnResolveResult(path: string, namespace: Namespace, warnings: seq<Message>, errors: seq<Message>)

  /** The arguments of an onLoad callback. */
  datatype OnLoadArgs = OnLoadArgs(path: string, namespace: Namespace)

  /** Load contents: a JavaScript string or a Uint8Array. */
  datatype Contents = Text(text: string) | Bytes(bytes: seq<byte>)

  /** An onLoad result; every field may be absent, as in the host's object. */
  datatype OnLoadResult = OnLoadResult(
    contents: Option<Contents>,
    errors: Option<seq<Message>>,
    warnings: Option<seq<Message>>,
    watchFiles: Option<seq<string>>,
    resolveDir: Option<string>)

  const EmptyLoadResult := OnLoadResult(None, None, None, None, None)

  /** `s.startsWith(p)` */
  predicate StartsWith(s: string, p: string) {
    |p| <= |s| && s[..|p|] == p
  }

  /** `s.endsWith(p)` */
  predicate EndsWith(s: string, p: string) {
    |p| <= |s| && s[|s| - |p|..] == p
  }
}
