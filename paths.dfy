/** POSIX path handling (Python's posixpath) as far as the coder uses it. */
module Paths {

  const Separator: char := '/'

  /** os.path.basename: the part of path after its last separator. */
  function Basename(path: string): (b: string)
    ensures |b| <= |path|
  {
    if path == [] || path[|path| - 1] == Separator then []
    else Basename(path[..|path| - 1]) + [path[|path| - 1]]
  }

  /** The base name is the longest suffix of path without a separator. */
  lemma {:induction false} BasenameIsLastComponent(path: string)
    ensures var b := Basename(path);
      && b == path[|path| - |b|..]
      && Separator !in b
      && (|b| < |path| ==> path[|path| - |b| - 1] == Separator)
    decreases |path|
  {
    if path != [] && path[|path| - 1] != Separator {
      var q := path[..|path| - 1];
      BasenameIsLastComponent(q);
      var b := Basename(q);
      assert q[|q| - |b|..] + [path[|path| - 1]] == path[|path| - 1 - |b|..];
    }
  }

  /** os.path.join(dir, name) with a single component: name after dir and a
      separator, or name alone when it is an absolute path. */
  function Join(dir: string, name: string): (j: string)
    ensures |name| <= |j| && j[|j| - |name|..] == name
    ensures name != [] && name[0] == Separator ==> j == name
    ensures (name == [] || name[0] != Separator) ==>
              |dir| <= |j| && j[..|dir|] == dir
              && (|dir| < |j| - |name| ==> j[|dir|] == Separator)
              && |j| - |name| <= |dir| + 1
              && (dir != [] && |j| - |name| == |dir| ==> dir[|dir| - 1] == Separator)
    ensures (name == [] || name[0] != Separator) ==>
              |j| == |dir| + |name| + (if dir == [] || dir[|dir| - 1] == Separator then 0 else 1)
  {
    if name != [] && name[0] == Separator then name
    else if dir == [] || dir[|dir| - 1] == Separator then dir + name
    else dir + [Separator] + name
  }

  /** After a separator (or at the start), a name without separators is the base name. */
  lemma BasenameAfterSeparator(d: string, name: string)
    requires d == [] || d[|d| - 1] == Separator
    requires Separator !in name
    ensures Basename(d + name) == name
  {
    var p := d + name;
    var b := Basename(p);
    BasenameIsLastComponent(p);
    var n := |p| - |b|;
    forall k | |d| <= k < |p| ensures p[k] != Separator {
      assert p[k] == name[k - |d|];
    }
    forall k | n <= k < |p| ensures p[k] != Separator {
      assert p[k] == b[k - n];
    }
    assert n == 0 || p[n - 1] == Separator;
    assert d == [] || p[|d| - 1] == Separator;
    assert n == |d|;
    assert p[n..] == name;
  }

  /** Joining a directory and a plain file name, the base name is that file name:
      no part of the directory can leak into it. */
  lemma BasenameOfJoin(dir: string, name: string)
    requires Separator !in name
    ensures Basename(Join(dir, name)) == name
  {
    var d := if dir == [] || dir[|dir| - 1] == Separator then dir else dir + [Separator];
    assert Join(dir, name) == d + name;
    BasenameAfterSeparator(d, name);
  }
}
