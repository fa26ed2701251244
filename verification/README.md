# esbuild-plugin-gsolid, modelled in Dafny

`esbuild-plugin-gsolid` is an esbuild plugin. It compiles `.tsx` and `.jsx` files for the gsolid UI runtime. esbuild strips the TypeScript syntax, then Babel compiles the markup with `babel-preset-solid`. The plugin also moves every `solid-js` import into a namespace of its own, `solid-js-file`. There, each file is loaded with an import of the `queueMicrotask` ponyfill prepended to its bytes. The plugin's decision logic lives in one file, `index.ts`. This project models that logic and proves what it promises. esbuild, Babel and the file system appear only as functions passed in as parameters.

Modules (one per component of the plugin):

- `EsbuildTypes` (`esbuild_types.dfy`): the host's plugin contract: resolve and load arguments and results, messages, namespaces, bytes.
- `NodePath` (`node_path.dfy`): the POSIX variant of Node's `path.dirname`, which the plugin calls for resolve directories.
- `ResolveHooks` (`resolve.dfy`): the two onResolve interceptors and their skip marker. It also holds a model of the host's nested `build.resolve`, in which it is proved that every nested call reaches the default resolution, so redirection is at most one level deep.
- `SolidPatch` (`patch.dfy`): the `patch` prefix and the `solid-js-file` loader, which fills a fresh byte array with two in-place copies.
- `BabelCompile` (`compile.dfy`): `transformJSX`, the Babel option request and the classification of the compile's outcome.
- `LoadHooks` (`load.dfy`): the `.tsx`/`.jsx` loader (its warning-collecting loop included), `loadTSX`, and the host's choice of load callback.
- `PluginSetup` (`setup.dfy`): the one-time defaulting of `jsx` and `jsxImportSource` in `build.initialOptions`, as a class whose method updates the two fields.

The skip marker is an object stored in `pluginData` under a process-unique `Symbol`. Here it is the boolean field `skip` of `ResolveArgs` and `ResolveOptions`. `HostResolve` models the host. It first runs the plugin's interceptors, giving each one a nested resolver that re-enters the host. If no interceptor answers, it uses a `fallback` function, which stands for esbuild's default resolution and for every other plugin. A `fuel` bound keeps the definition total. `NestedRequestsDeclined` and `MarkedRequestFallsThrough` prove that each interceptor's nested call carries the marker and goes straight to the default resolution. `RedirectDepthAtMostOne` states this for the resolver the host hands the interceptors at any depth. It also proves that, as a consequence, the fuel never matters beyond one level.

Two details of the code differ from what one would expect; the model follows the code:

- A successful compile whose `code` is empty or absent yields no `contents` (`result.code || undefined`), not the input text (`BabelCompile.Classify`, `BabelCompile.EmptyCodeDropsContents`).
- Warnings are merged with the compile stage's first and the TSX stage's after (`[...(ret.warnings || []), ...warnings]`). `transformJSX` never sets `warnings`, so the merged list is exactly the TSX stage's (`LoadHooks.FinalWarningsAreTsxWarnings`).

## Model

| member | source | states |
|---|---|---|
| `NodePath.DirEnd` | index.ts:109 | the separator Node's `dirname` loop stops at is -1 or a `/` at an index between 1 and the start of the scan |
| `NodePath.Dirname` | index.ts:109 | the POSIX `dirname` of a path is `.`, `/`, `//`, or a proper prefix of the path that stops just before a `/` |
| `NodePath.DirnameOfJoin` | index.ts:164 | the directory of `dir/name` is `dir` when `name` has no `/` and `dir` does not end in one |
| `NodePath.DirnameOfBareName` | index.ts:109 | a path without `/` (an importer given as a bare name, or the empty importer) has directory `.` |
| `ResolveHooks.RootNestedOptions` | index.ts:103-110 | the root redirect's nested call keeps importer and kind, carries the skip marker and no namespace, and uses `args.resolveDir` when it is non-empty, otherwise `dirname(importer)` |
| `ResolveHooks.PonyfillNestedOptions` | index.ts:131-141 | the ponyfill redirect's nested call keeps importer and kind, carries the skip marker, and resolves from `.` in namespace `file` |
| `ResolveHooks.OnResolveRoot` | index.ts:95-117 | declines exactly the marked requests; otherwise returns the nested resolution's path, warnings and errors unchanged, in namespace `solid-js-file` |
| `ResolveHooks.OnResolvePonyfill` | index.ts:121-150 | declines exactly the marked requests; otherwise resolves the fixed specifier `gsolid/web-ponyfill` and returns its path, warnings and errors unchanged, in namespace `file` |
| `ResolveHooks.PonyfillFilter` | index.ts:121-122 | the ponyfill registration takes only `gsolid/web-ponyfill` imported from `solid-js-file`, and nothing it takes is in the root filter |
| `ResolveHooks.RunResolveHooks` | index.ts:95-150 | the plugin answers exactly the unmarked requests in one of the two filters, with the root interceptor's answer in the root filter and the ponyfill interceptor's in the ponyfill filter |
| `ResolveHooks.PonyfillOnlyFromSolidJsFile` | index.ts:121-122 | a `gsolid/web-ponyfill` import from any namespace other than `solid-js-file` is never answered by the plugin |
| `ResolveHooks.SkipGuard` | index.ts:96-102 | a request carrying the skip marker is declined by both interceptors, so the host's default resolution applies |
| `ResolveHooks.NestedRequestsDeclined` | index.ts:103-110 | the nested request each interceptor issues carries the marker and is declined by both interceptors |
| `ResolveHooks.MarkedRequestFallsThrough` | index.ts:124-130 | the host resolves a marked request with its default resolution at every nesting depth |
| `ResolveHooks.HooksDependOnMarkedRequests` | index.ts:103-142 | the interceptors consult the nested resolver only on marked requests |
| `ResolveHooks.RedirectDepthAtMostOne` | index.ts:95-150 | at every depth, the nested calls of both interceptors (same specifier with the marker, or `gsolid/web-ponyfill` from `.` in `file`) are answered by the default resolution, not redirected again; so allowing any depth of nesting gives the same result as allowing one level |
| `ResolveHooks.RootRedirect` | index.ts:103-116 | an unmarked request in the root filter resolves to the default resolution of the same specifier with the marker set, tagged `solid-js-file`, with its warnings and errors |
| `ResolveHooks.RootFilterIsPrefix` | index.ts:95 | the filter `^solid-js\/?` accepts exactly the specifiers starting with `solid-js` |
| `ResolveHooks.PonyfillNotRoot` | index.ts:95-122 | the ponyfill specifier `gsolid/web-ponyfill` is not taken by the root filter `^solid-js\/?` |
| `ResolveHooks.RootFilterExamples` | index.ts:95 | the filter accepts `solid-js`, `solid-js/web` and also `solid-jsx`; it rejects `solid` and `gsolid/web-ponyfill` |
| `SolidPatch.EncodeAscii` | index.ts:25-27 | `TextEncoder` keeps ASCII text one byte per character, each byte being the character's code |
| `SolidPatch.PatchTextIsAscii` | index.ts:25-27 | the injected import statement is 52 ASCII characters |
| `SolidPatch.Patch` | index.ts:25-27 | the prefix is 52 bytes, byte by byte the codes of `\nimport {queueMicrotask} from "gsolid/web-ponyfill"\n` |
| `SolidPatch.SetBytes` | index.ts:159-160 | `Uint8Array.set(src, offset)` writes `src` at `offset` and leaves every other byte as it was |
| `SolidPatch.MergePatch` | index.ts:156-160 | a fresh buffer of length `patch.length + content.length` holding the prefix, then the content byte for byte |
| `SolidPatch.OnLoadSolidJsFile` | index.ts:152-167 | the loaded contents are the encoded prefix followed by the file's bytes; the watch files are `[path]` and the resolve directory is `dirname(path)` |
| `BabelCompile.SolidRequest` | index.ts:36-51 | Babel's options are loaded for the file's path with the Solid preset (`gsolid/jsx-runtime`, `universal`) and the plugin's caller |
| `BabelCompile.CompileOptions` | index.ts:54-58 | the source file name is set, to the working-directory-relative path, only when source maps are on |
| `BabelCompile.CompileError` | index.ts:68-76 | a compile error carries the thrown value as `detail`, the file as `location.file`, and no text |
| `BabelCompile.Classify` | index.ts:59-78 | an exception or a null result gives exactly one error carrying the thrown value (or `Error("babel is failed sliently")`) and the file, and no contents; a result gives its code when non-empty, otherwise no contents |
| `BabelCompile.TransformJsx` | index.ts:29-79 | when no Babel options apply, the input comes back as contents with no errors; otherwise one compile with the adjusted options, classified; never any warnings |
| `BabelCompile.CompileThrows` | index.ts:67-77 | a throwing compile reports one error whose detail is the thrown value and whose file is the path, with no contents |
| `BabelCompile.EmptyCodeDropsContents` | index.ts:65 | a compile whose code is empty or absent gives an empty result, not the input text |
| `LoadHooks.LoadHookFor` | index.ts:152-170 | `solid-js-file` files go to the patch loader; `file` files go to the JSX loader exactly when the path ends in `.tsx` or `.jsx` |
| `LoadHooks.LoadFilter` | index.ts:170 | the load filter for `.tsx` and `.jsx` files takes exactly the paths whose last four characters are a dot, `t` or `j`, then `sx` |
| `LoadHooks.LoadTsx` | index.ts:10-23 | the TSX stage is esbuild's transform of the file's bytes with loader `tsx`, target `esnext`, JSX preserved and an inline source map |
| `LoadHooks.OnLoadJsx` | index.ts:169-194 | the TSX stage runs exactly for `.tsx` paths; contents and errors are the compile's; warnings are the compile's (or none), then the TSX stage's in order; watch files are `[path]` |
| `LoadHooks.FinalWarningsAreTsxWarnings` | index.ts:186-190 | the merged warnings are exactly the TSX stage's warnings, none for a `.jsx` file |
| `LoadHooks.TsxStageOnlyForTsx` | index.ts:170-172 | a `.tsx` path passes the load filter and is not a `.jsx` path |
| `LoadHooks.Load` | index.ts:152-194 | a load answered by the plugin always watches exactly the loaded path; a `solid-js-file` load returns the prefix followed by the file's bytes |
| `PluginSetup.Defaulted` | index.ts:88-93 | after defaulting `jsx` is set; a set `jsx` leaves both options alone; an unset one becomes `preserve`, and `jsxImportSource` becomes `gsolid` only if it was unset too |
| `PluginSetup.DefaultedIdempotent` | index.ts:88-93 | defaulting twice gives the same options as defaulting once |
| `PluginSetup.ImportSourceOnlyWithJsx` | index.ts:88-93 | `jsxImportSource` changes exactly when both options were unset |
| `PluginSetup.BuildOptions.ApplyDefaults` | index.ts:87-93 | the build options' JSX settings after setup are the defaulted settings of those before |

## Left out

- File reads (`fs.readFile`) are the functions `readBytes` and `readText`. Decoding UTF-8 text is part of `readText`.
- `esbuild.transform` in `loadTSX` is the function `tsTransform`. It receives the fixed options (`tsx`, `esnext`, `preserve`, inline source map) and yields code and warnings. TypeScript stripping and source maps are not modelled.
- `babel.loadOptions`, `babel.transformAsync` and the internals of `babel-preset-solid` are the functions `loadOptions` and `transform`. Babel's configuration beyond `sourceMaps` and `sourceFileName` is an opaque map.
- `path.relative(process.cwd(), …)` is the function `relative`, because it depends on process state.
- Exceptions thrown by `fs.readFile`, `esbuild.transform`, `babel.loadOptions` or the host's `build.resolve` escape the plugin's callbacks; the host reports them, and they are not modelled. Only the compile's exceptions are caught in the source, and they are modelled.
- `async`/`await` and the interleaving of concurrent callbacks are not modelled. Every callback is a single step.
- The `Symbol` identity of the skip marker is not modelled; the marker is a boolean field. Regular-expression and namespace dispatch are the explicit predicates `RootFilter`, `PonyfillFilter` and `LoadFilter` and the function `LoadHookFor`.
- Other plugins and esbuild's default resolution together are the single function `fallback`. A nested `build.resolve` without a namespace is treated as namespace `file`.
- Only the JSX settings of `build.initialOptions` are modelled. The registration calls in `setup` are the dispatch functions `RunResolveHooks` and `LoadHookFor`.
- `EncodeAscii` covers only ASCII text, which is all the fixed prefix contains; general UTF-8 encoding is not modelled.
- `HostResolve` takes a `fuel` bound so that its definition is total. At fuel 0 a request goes straight to `fallback`. `RedirectDepthAtMostOne` proves the result is the same for every fuel of 1 or more.
- A `pluginData` of `null` is not modelled. `typeof null` is `"object"`, so both interceptors would throw a TypeError reading the marker (index.ts:96-99, 124-127). The boolean `skip` has no value for this error path.
- Windows paths are not modelled. On Windows, `path` (index.ts:6) is the win32 module, with `\` separators and drive letters. `NodePath.Dirname` is the POSIX `dirname` only.
- `HostResolve` assumes no earlier plugin answers first. It runs this plugin's interceptors before everything in `fallback`. esbuild runs onResolve callbacks in plugin registration order, so a plugin registered earlier that resolves `solid-js` pre-empts the redirect.
