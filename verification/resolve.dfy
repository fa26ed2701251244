/**
 * The two onResolve interceptors and the host's nested resolution.
 *
 * The root interceptor moves every import of the runtime package into the
 * plugin's own "solid-js-file" namespace; the ponyfill interceptor sends the
 * shim import injected into those files back to the real file system. Each
 * asks the host for the real resolution with a nested `build.resolve` that
 * carries the skip marker, and each declines a request that carries it.
 */
module ResolveHooks {
  import opened EsbuildTypes
  import opened NodePath

  const RootPackage := "solid-js"
  const PonyfillSpecifier := "gsolid/web-ponyfill"

  /** The host's nested resolution primitive, `build.resolve(path, options)`. */
  type Resolver = (string, ResolveOptions) -> Resolved

  /**
   * The filter `^solid-js\/?`: the package name, then a slash if there is one.
   * The optional slash never rejects anything.
   */
  predicate RootFilter(specifier: string) {
    StartsWith(specifier, RootPackage + "/") || StartsWith(specifier, RootPackage)
  }

  /**
   * The filter `^gsolid\/web-ponyfill$`, restricted to importers in
   * "solid-js-file". No specifier it takes is in the root filter.
   */
  predicate PonyfillFilter(args: ResolveArgs): (b: bool)
    ensures b ==> args.namespace == SolidJsFile && !RootFilter(args.path)
  {
    PonyfillNotRoot();
    args.path == PonyfillSpecifier && args.namespace == SolidJsFile
  }

  /** The options of the root interceptor's nested resolution. */
  function RootNestedOptions(args: ResolveArgs): (o: ResolveOptions)
    ensures o.skip && o.namespace == None
    ensures o.importer == args.importer && o.kind == args.kind
    ensures args.resolveDir != "" ==> o.resolveDir == args.resolveDir
    ensures args.resolveDir == "" ==> o.resolveDir == Dirname(args.importer)
  {
    ResolveOptions(
      importer := args.importer,
      kind := args.kind,
      resolveDir := if args.resolveDir != "" then args.resolveDir else Dirname(args.importer),
      namespace := None,
      skip := true)
  }

  /** The options of the ponyfill interceptor's nested resolution. */
  function PonyfillNestedOptions(args: ResolveArgs): (o: ResolveOptions)
    ensures o.skip && o.namespace == Some(File) && o.resolveDir == "."
    ensures o.importer == args.importer && o.kind == args.kind
  {
    ResolveOptions(importer := args.importer, kind := args.kind, resolveDir := ".",
                   namespace := Some(File), skip := true)
  }

  /** The root interceptor, for a request its filter matched. */
  function OnResolveRoot(args: ResolveArgs, resolve: Resolver): (r: Option<OnResolveResult>)
    ensures args.skip <==> r == None
    ensures r.Some? ==>
      var nested := resolve(args.path, RootNestedOptions(args));
      r.value == OnResolveResult(nested.path, SolidJsFile, nested.warnings, nested.errors)
  {
    if args.skip then None
    else
      var resolved := resolve(args.path, RootNestedOptions(args));
      Some(OnResolveResult(resolved.path, SolidJsFile, resolved.warnings, resolved.errors))
  }

  /** The ponyfill interceptor, for a request its filter matched. */
  function OnResolvePonyfill(args: ResolveArgs, resolve: Resolver): (r: Option<OnResolveResult>)
    ensures args.skip <==> r == None
    ensures r.Some? ==>
      var nested := resolve(PonyfillSpecifier, PonyfillNestedOptions(args));
      r.value == OnResolveResult(nested.path, File, nested.warnings, nested.errors)
  {
    if args.skip then None
    else
      var resolved := resolve(PonyfillSpecifier, PonyfillNestedOptions(args));
      Some(OnResolveResult(resolved.path, File, resolved.warnings, resolved.errors))
  }

  /**
   * The host runs the callbacks whose filters match, in registration order,
   * until one returns a result; None means that the default resolution applies.
   */
  function RunResolveHooks(args: ResolveArgs, resolve: Resolver): (r: Option<OnResolveResult>)
    ensures r.Some? <==> !args.skip && (RootFilter(args.path) || PonyfillFilter(args))
    ensures RootFilter(args.path) ==> r == OnResolveRoot(args, resolve)
    ensures PonyfillFilter(args) ==> r == OnResolvePonyfill(args, resolve)
  {
    var root := if RootFilter(args.path) then OnResolveRoot(args, resolve) else None;
    if root.Some? then root
    else if PonyfillFilter(args) then OnResolvePonyfill(args, resolve)
    else None
  }

  /** The request the host hands to the callbacks for `build.resolve(path, options)`. */
  function NestedArgs(path: string, o: ResolveOptions): (a: ResolveArgs)
  {
    ResolveArgs(path, o.importer, o.namespace.GetOr(File), o.resolveDir, o.kind, o.skip)
  }

  /**
   * The host's resolution of `args`: this plugin's callbacks first, each
   * given a nested resolver that re-enters the host, then `fallback` (the
   * default resolution and every other plugin). `fuel` bounds the nesting so
   * that the definition is total; at 0 the request goes straight to fallback.
   */
  function HostResolve(args: ResolveArgs, fallback: ResolveArgs -> Resolved, fuel: nat): Resolved
    decreases fuel, 1
  {
    if fuel == 0 then fallback(args)
    else
      match RunResolveHooks(args, NestedResolver(fallback, fuel - 1))
      case Some(res) => Resolved(res.path, res.namespace, res.warnings, res.errors)
      case None => fallback(args)
  }

  function NestedResolver(fallback: ResolveArgs -> Resolved, fuel: nat): Resolver
    decreases fuel, 2
  {
    (path: string, o: ResolveOptions) => HostResolve(NestedArgs(path, o), fallback, fuel)
  }

  /** Skip guard: a request carrying the marker is declined by both interceptors. */
  lemma SkipGuard(args: ResolveArgs, resolve: Resolver)
    requires args.skip
    ensures OnResolveRoot(args, resolve) == None
    ensures OnResolvePonyfill(args, resolve) == None
    ensures RunResolveHooks(args, resolve) == None
  {
  }

  /** Every nested request an interceptor issues is itself declined. */
  lemma NestedRequestsDeclined(args: ResolveArgs, resolve: Resolver)
    ensures RunResolveHooks(NestedArgs(args.path, RootNestedOptions(args)), resolve) == None
    ensures RunResolveHooks(NestedArgs(PonyfillSpecifier, PonyfillNestedOptions(args)), resolve) == None
  {
  }

  /** A request carrying the marker reaches the default resolution, however deep. */
  lemma MarkedRequestFallsThrough(args: ResolveArgs, fallback: ResolveArgs -> Resolved, fuel: nat)
    requires args.skip
    ensures HostResolve(args, fallback, fuel) == fallback(args)
  {
  }

  /** The interceptors only look at the nested resolver on marked requests. */
  lemma HooksDependOnMarkedRequests(args: ResolveArgs, r1: Resolver, r2: Resolver)
    requires forall path: string, o: ResolveOptions :: o.skip ==> r1(path, o) == r2(path, o)
    ensures RunResolveHooks(args, r1) == RunResolveHooks(args, r2)
  {
    assert r1(args.path, RootNestedOptions(args)) == r2(args.path, RootNestedOptions(args));
    assert r1(PonyfillSpecifier, PonyfillNestedOptions(args)) == r2(PonyfillSpecifier, PonyfillNestedOptions(args));
  }

  /**
   * Redirection is at most one level deep. The nested calls that either
   * interceptor makes, through the resolver the host hands it at any depth,
   * are answered by the default resolution, not redirected again. Hence
   * allowing any amount of nesting gives the same resolution as allowing one
   * level.
   */
  lemma RedirectDepthAtMostOne(args: ResolveArgs, fallback: ResolveArgs -> Resolved, fuel: nat)
    requires fuel >= 1
    ensures NestedResolver(fallback, fuel - 1)(args.path, RootNestedOptions(args))
         == fallback(NestedArgs(args.path, RootNestedOptions(args)))
    ensures NestedResolver(fallback, fuel - 1)(PonyfillSpecifier, PonyfillNestedOptions(args))
         == fallback(NestedArgs(PonyfillSpecifier, PonyfillNestedOptions(args)))
    ensures HostResolve(args, fallback, fuel) == HostResolve(args, fallback, 1)
  {
    MarkedRequestFallsThrough(NestedArgs(args.path, RootNestedOptions(args)), fallback, fuel - 1);
    MarkedRequestFallsThrough(NestedArgs(PonyfillSpecifier, PonyfillNestedOptions(args)), fallback, fuel - 1);
    var deep, shallow := NestedResolver(fallback, fuel - 1), NestedResolver(fallback, 0);
    forall path: string, o: ResolveOptions | o.skip
      ensures deep(path, o) == shallow(path, o)
    {
      MarkedRequestFallsThrough(NestedArgs(path, o), fallback, fuel - 1);
    }
    HooksDependOnMarkedRequests(args, deep, shallow);
  }

  /** Root filter: it accepts exactly the specifiers that start with "solid-js". */
  lemma RootFilterIsPrefix(specifier: string)
    ensures RootFilter(specifier) <==> StartsWith(specifier, "solid-js")
  {
    if StartsWith(specifier, RootPackage + "/") {
      assert specifier[..8] == (specifier[..9])[..8];
    }
  }

  /** "solid-jsx" is not the package, yet the filter takes it; "solid" is not taken. */
  lemma RootFilterExamples()
    ensures RootFilter("solid-js") && RootFilter("solid-js/web") && RootFilter("solid-jsx")
    ensures !RootFilter("solid") && !RootFilter("gsolid/web-ponyfill")
  {
    RootFilterIsPrefix("solid-jsx");
    RootFilterIsPrefix("solid-js/web");
    PonyfillNotRoot();
  }

  /** The ponyfill specifier is not in the root filter. */
  lemma PonyfillNotRoot()
    ensures !RootFilter(PonyfillSpecifier)
  {
    RootFilterIsPrefix(PonyfillSpecifier);
    assert PonyfillSpecifier[..8][0] == 'g';
  }

  /** The ponyfill specifier is answered only when imported from "solid-js-file". */
  lemma PonyfillOnlyFromSolidJsFile(args: ResolveArgs, resolve: Resolver)
    requires args.path == PonyfillSpecifier && args.namespace != SolidJsFile
    ensures RunResolveHooks(args, resolve) == None
  {
    PonyfillNotRoot();
  }

  /** A request in the root filter, without the marker, is moved into "solid-js-file". */
  lemma RootRedirect(args: ResolveArgs, fallback: ResolveArgs -> Resolved)
    requires RootFilter(args.path) && !args.skip
    ensures var nested := NestedArgs(args.path, RootNestedOptions(args));
      nested.path == args.path && nested.skip &&
      HostResolve(args, fallback, 1) ==
        Resolved(fallback(nested).path, SolidJsFile, fallback(nested).warnings, fallback(nested).errors)
  {
  }
}
