/**
 * The plugin's `setup`: the one mutation of the build's initial options,
 * which fills in the JSX settings the plugin's stages rely on.
 */
module PluginSetup {
  import opened EsbuildTypes

  /** The `jsxImportSource` the plugin fills in. */
  const ImportSource := "gsolid"

  /** esbuild's `jsx` option. */
  datatype JsxMode = Transform | Preserve | Automatic

  /** The two JSX settings of the build options; None is `undefined`. */
  datatype JsxSettings = JsxSettings(jsx: Option<JsxMode>, jsxImportSource: Option<string>)

  /** The settings after defaulting. */
  function Defaulted(s: JsxSettings): (r: JsxSettings)
    ensures r.jsx.Some?
    ensures s.jsx.Some? ==> r == s
    ensures s.jsx.None? ==> r.jsx == Some(Preserve)
    ensures s.jsx.None? && s.jsxImportSource.None? ==> r.jsxImportSource == Some(ImportSource)
    ensures s.jsxImportSource.Some? ==> r.jsxImportSource == s.jsxImportSource
  {
    if s.jsx.None? then
      JsxSettings(Some(Preserve), if s.jsxImportSource.None? then Some(ImportSource) else s.jsxImportSource)
    else s
  }

  /** Defaulting twice is defaulting once. */
  lemma DefaultedIdempotent(s: JsxSettings)
    ensures Defaulted(Defaulted(s)) == Defaulted(s)
  {
  }

  /** An import source is filled in only when `jsx` was unset as well. */
  lemma ImportSourceOnlyWithJsx(s: JsxSettings)
    ensures Defaulted(s).jsxImportSource != s.jsxImportSource <==> s.jsx.None? && s.jsxImportSource.None?
  {
  }

  /** `build.initialOptions`, of which the plugin touches two fields. */
  class BuildOptions {
    var jsx: Option<JsxMode>
    var jsxImportSource: Option<string>

    constructor (jsx: Option<JsxMode>, jsxImportSource: Option<string>)
      ensures Settings() == JsxSettings(jsx, jsxImportSource)
    {
      this.jsx := jsx;
      this.jsxImportSource := jsxImportSource;
    }

    function Settings(): JsxSettings
      reads this
    {
      JsxSettings(jsx, jsxImportSource)
    }

    /** The option defaulting at the top of `setup`. */
    method ApplyDefaults()
      modifies this
      ensures Settings() == Defaulted(old(Settings()))
    {
      if jsx.None? {
        jsx := Some(Preserve);
        if jsxImportSource.None? {
          jsxImportSource := Some(ImportSource);
        }
      }
    }
  }
}
