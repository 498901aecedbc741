/** Unix file paths as Go's `path/filepath` treats them. Results are not
    cleaned: `..` and repeated slashes are left as they are. */
module Paths {
  /** `filepath.IsAbs` on a Unix system. */
  predicate IsAbs(path: string)
  {
    |path| > 0 && path[0] == '/'
  }

  /** `filepath.Join(dir, name)` for a clean `dir` and a plain `name`. */
  function PathJoin(dir: string, name: string): (path: string)
    ensures IsAbs(dir) ==> IsAbs(path)
  {
    if dir == [] then name
    else if dir[|dir| - 1] == '/' then dir + name
    else dir + "/" + name
  }

  /** `filepath.Dir(path)`: the path up to its last slash, "/" for an entry
      of the root and "." for a bare name. */
  function Dir(path: string): string
    decreases |path|
  {
    if path == [] then "."
    else if path[|path| - 1] == '/' then (if |path| == 1 then "/" else path[..|path| - 1])
    else Dir(path[..|path| - 1])
  }

  /** A clean directory: not empty, and without a trailing slash unless it is the root. */
  predicate CleanDir(dir: string)
  {
    dir != [] && (dir == "/" || dir[|dir| - 1] != '/')
  }

  /** Joining a plain name to a clean directory and taking the directory of
      the result gives back the directory. */
  lemma DirOfJoin(dir: string, name: string)
    requires CleanDir(dir) && '/' !in name
    ensures Dir(PathJoin(dir, name)) == dir
  {
    var base := if dir == "/" then dir else dir + "/";
    assert PathJoin(dir, name) == base + name;
    DirSkipsName(base, name);
    if dir != "/" {
      assert base[..|base| - 1] == dir;
    }
  }

  /** The characters after the last slash do not change the directory. */
  lemma {:induction false} DirSkipsName(prefix: string, name: string)
    requires '/' !in name
    ensures Dir(prefix + name) == Dir(prefix)
    decreases |name|
  {
    if name != [] {
      var shorter := name[..|name| - 1];
      assert (prefix + name)[..|prefix + name| - 1] == prefix + shorter;
      assert name[|name| - 1] in name;
      DirSkipsName(prefix, shorter);
    } else {
      assert prefix + name == prefix;
    }
  }
}
