/**
 * The two POSIX path operations of Node's `path` module that the packaging
 * step uses, reduced to plain `/`-joining and stripping the last segment.
 */
module Paths {
  import Text

  /** `join(a, b)`: `a` and `b` with one `/` between them; an empty `a` contributes nothing. */
  function Join(a: string, b: string): string {
    if a == "" then b
    else if a[|a| - 1] == '/' then a + b
    else a + "/" + b
  }

  /**
   * `dirname(p)`: everything before the last `/`; `"/"` when that `/` is the
   * first character, `"."` when there is none.
   */
  function Dirname(p: string): (r: string)
  {
    Text.LastIndexOfFinds(p, '/');
    var i := Text.LastIndexOf(p, '/');
    if i < 0 then "." else if i == 0 then "/" else p[..i]
  }

  /** The directory of a file joined onto a directory is that directory again. */
  lemma DirnameOfJoin(dir: string, file: string)
    requires dir != "" && dir[|dir| - 1] != '/'
    requires '/' !in file
    ensures Dirname(Join(dir, file)) == dir
  {
    var p := Join(dir, file);
    assert p == dir + "/" + file;
    Text.LastIndexOfFinds(p, '/');
    var i := Text.LastIndexOf(p, '/');
    assert p[|dir|] == '/';
    assert i == |dir|;
  }

  /** A path without any `/` lies in the current directory. */
  lemma DirnameOfBareName(p: string)
    requires '/' !in p
    ensures Dirname(p) == "."
  {
    Text.LastIndexOfFinds(p, '/');
  }
}
