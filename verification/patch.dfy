/**
 * The loader for files in the "solid-js-file" namespace: the file's bytes,
 * prefixed with an import of the queueMicrotask ponyfill.
 */
module SolidPatch {
  import opened EsbuildTypes
  import opened NodePath
  import ResolveHooks

  /** The injected statement: an import of the specifier the ponyfill interceptor catches. */
  const PatchText := "\nimport {queueMicrotask} from \"" + ResolveHooks.PonyfillSpecifier + "\"\n"

  predicate IsAscii(s: string) {
    forall i :: 0 <= i < |s| ==> s[i] as int < 128
  }

  /** `TextEncoder.encode` on text made only of ASCII characters, which UTF-8 keeps one byte each. */
  function EncodeAscii(s: string): (r: seq<byte>)
    requires IsAscii(s)
    ensures |r| == |s|
    ensures forall i :: 0 <= i < |s| ==> r[i] as int == s[i] as int
  {
    if s == [] then [] else [s[0] as int as byte] + EncodeAscii(s[1..])
  }

  lemma PatchTextIsAscii()
    ensures IsAscii(PatchText) && |PatchText| == 52
  {
    var head, tail := "\nimport {queueMicrotask} from \"", "\"\n";
    assert IsAscii(head) && IsAscii(ResolveHooks.PonyfillSpecifier) && IsAscii(tail);
    assert PatchText == head + ResolveHooks.PonyfillSpecifier + tail;
  }

  /** The fixed prefix, the encoding of `PatchText`. */
  function Patch(): (p: seq<byte>)
    ensures |p| == |PatchText| == 52
    ensures forall i :: 0 <= i < |p| ==> p[i] as int == PatchText[i] as int
  {
    PatchTextIsAscii();
    EncodeAscii(PatchText)
  }

  /** `Uint8Array.prototype.set(src, offset)`: copies `src` into `dst` from `offset` on. */
  method SetBytes(dst: array<byte>, src: seq<byte>, offset: nat)
    requires offset + |src| <= dst.Length
    modifies dst
    ensures forall k :: 0 <= k < offset ==> dst[k] == old(dst[k])
    ensures forall k :: 0 <= k < |src| ==> dst[offset + k] == src[k]
    ensures forall k :: offset + |src| <= k < dst.Length ==> dst[k] == old(dst[k])
  {
    var i := 0;
    while i < |src|
      invariant 0 <= i <= |src|
      invariant forall k :: 0 <= k < offset ==> dst[k] == old(dst[k])
      invariant forall k :: 0 <= k < i ==> dst[offset + k] == src[k]
      invariant forall k :: offset + i <= k < dst.Length ==> dst[k] == old(dst[k])
    {
      dst[offset + i] := src[i];
      i := i + 1;
    }
  }

  /** A fresh buffer holding the prefix followed by `content`. */
  method MergePatch(content: seq<byte>) returns (merged: array<byte>)
    ensures fresh(merged)
    ensures merged.Length == |Patch()| + |content|
    ensures merged[..|Patch()|] == Patch()
    ensures merged[|Patch()|..] == content
  {
    var patch := Patch();
    merged := new byte[|patch| + |content|];
    SetBytes(merged, patch, 0);
    SetBytes(merged, content, |patch|);
    assert forall k :: 0 <= k < |patch| ==> merged[..|patch|][k] == patch[k];
    assert forall k :: 0 <= k < |content| ==> merged[|patch|..][k] == merged[|patch| + k];
  }

  /** The onLoad callback for "solid-js-file"; `readFile` is `fs.readFile` on bytes. */
  method OnLoadSolidJsFile(args: OnLoadArgs, readFile: string -> seq<byte>) returns (r: OnLoadResult)
    ensures r.contents.Some? && r.contents.value.Bytes?
    ensures var bytes := r.contents.value.bytes; var original := readFile(args.path);
      |bytes| == |Patch()| + |original| &&
      bytes[..|Patch()|] == EncodeAscii(PatchText) &&
      bytes[|Patch()|..] == original
    ensures r.watchFiles == Some([args.path])
    ensures r.resolveDir == Some(Dirname(args.path))
    ensures r.errors.None? && r.warnings.None?
  {
    var content := readFile(args.path);
    var merged := MergePatch(content);
    r := EmptyLoadResult.(contents := Some(Bytes(merged[..])),
                          watchFiles := Some([args.path]),
                          resolveDir := Some(Dirname(args.path)));
  }
}
