/**
 * Node's POSIX `path.dirname`, which the plugin uses to pick the resolve
 * directory of a nested resolution and of a patched file.
 */
module NodePath {

  /**
   * The index of the separator that ends the directory part, scanning from
   * index `i` down to 1 as Node's loop does; `matchedSlash` is true while only
   * trailing separators have been seen. -1 when there is none.
   */
  function DirEnd(p: string, i: int, matchedSlash: bool): (end: int)
    requires i < |p|
    ensures end == -1 || (1 <= end <= i && p[end] == '/')
    decreases i
  {
    if i < 1 then -1
    else if p[i] == '/' then
      if !matchedSlash then i else DirEnd(p, i - 1, true)
    else DirEnd(p, i - 1, false)
  }

  /**
   * `path.posix.dirname(p)`. The directory is ".", "/", "//", or a proper
   * prefix of the path that stops right before a separator.
   */
  function Dirname(p: string): (d: string)
    ensures d == "." || d == "/" || d == "//" ||
      (0 < |d| < |p| && d == p[..|d|] && p[|d|] == '/')
  {
    if |p| == 0 then "."
    else
      var hasRoot := p[0] == '/';
      var end := DirEnd(p, |p| - 1, true);
      if end == -1 then (if hasRoot then "/" else ".")
      else if hasRoot && end == 1 then "//"
      else p[..end]
  }

  lemma {:induction false} DirEndSkipsName(p: string, i: int, j: int, matchedSlash: bool)
    requires 1 <= j < |p| && j <= i < |p| && p[j] == '/'
    requires forall k :: j < k <= i ==> p[k] != '/'
    requires j < i || !matchedSlash
    ensures DirEnd(p, i, matchedSlash) == j
    decreases i
  {
    if i > j {
      DirEndSkipsName(p, i - 1, j, false);
    }
  }

  /**
   * The directory of `dir + "/" + name`, for a file name without separators
   * and a directory that does not end in one, is `dir`.
   */
  lemma DirnameOfJoin(dir: string, name: string)
    requires |dir| > 0 && dir[|dir| - 1] != '/'
    requires |name| > 0 && forall k :: 0 <= k < |name| ==> name[k] != '/'
    ensures Dirname(dir + "/" + name) == dir
  {
    var p := dir + "/" + name;
    var j := |dir|;
    forall k | j < k <= |p| - 1 ensures p[k] != '/' {
      assert p[k] == name[k - j - 1];
    }
    DirEndSkipsName(p, |p| - 1, j, true);
    assert p[..j] == dir;
  }

  /** A bare file name lives in the current directory. */
  lemma DirnameOfBareName(name: string)
    requires forall k :: 0 <= k < |name| ==> name[k] != '/'
    ensures Dirname(name) == "."
  {
  }
}
