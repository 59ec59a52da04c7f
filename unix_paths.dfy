/**
 * The two Unix-path operations the copy uses: the file name of a path (its last normal
 * component) and joining a file name under a directory path.
 */
module UnixPaths {
  import opened Wrappers

  /** The pieces of `p` between slashes, in order; a trailing or doubled slash gives an empty piece. */
  function Split(p: string): (parts: seq<string>)
    ensures |parts| >= 1
    ensures forall part :: part in parts ==> '/' !in part
    decreases |p|
  {
    if p == [] then [[]]
    else if p[|p| - 1] == '/' then Split(p[..|p| - 1]) + [[]]
    else
      var init := Split(p[..|p| - 1]);
      init[..|init| - 1] + [init[|init| - 1] + [p[|p| - 1]]]
  }

  /** The components of a path: its pieces, without empty pieces and without ".". */
  function Components(parts: seq<string>): (cs: seq<string>)
    ensures forall c :: c in cs ==> c in parts && c != [] && c != "."
  {
    if parts == [] then []
    else
      var last := parts[|parts| - 1];
      Components(parts[..|parts| - 1]) + (if last == [] || last == "." then [] else [last])
  }

  /** A single normal path component: non-empty, slash-free, and neither "." nor "..". */
  predicate IsNormalComponent(name: string) {
    name != [] && '/' !in name && name != "." && name != ".."
  }

  /** `file_name()`: the last component, or nothing for a path that is empty, the root, or ends in "..". */
  function FileName(p: string): (r: Option<string>)
    ensures r.Some? ==> IsNormalComponent(r.value)
  {
    var cs := Components(Split(p));
    if cs == [] || cs[|cs| - 1] == ".." then None
    else
      assert cs[|cs| - 1] in cs;
      Some(cs[|cs| - 1])
  }

  /** `join(name)` for a relative component: appends it after a separator, unless `dir` is empty or already ends in one. */
  function Join(dir: string, name: string): (r: string)
    ensures r == dir + name || r == dir + "/" + name
    ensures |r| >= |name| && r[|r| - |name|..] == name
    ensures |r| >= |dir| && r[..|dir|] == dir
  {
    if dir == [] || dir[|dir| - 1] == '/' then dir + name else dir + "/" + name
  }

  lemma {:induction false} SplitAppend(p: string, name: string)
    requires '/' !in name
    ensures Split(p + "/" + name) == Split(p) + [name]
    decreases |name|
  {
    if name == [] {
      assert (p + "/" + name)[..|p + "/" + name| - 1] == p;
    } else {
      var init := name[..|name| - 1];
      var s := p + "/" + name;
      assert s[..|s| - 1] == p + "/" + init;
      SplitAppend(p, init);
      assert init + [name[|name| - 1]] == name;
    }
  }

  lemma {:induction false} SplitComponent(name: string)
    requires '/' !in name
    ensures Split(name) == [name]
    decreases |name|
  {
    if name != [] {
      SplitComponent(name[..|name| - 1]);
      assert name[..|name| - 1] + [name[|name| - 1]] == name;
    }
  }

  /** A path whose last piece is a normal component has that component as its file name. */
  lemma FileNameOfLastPiece(p: string, init: seq<string>, name: string)
    requires IsNormalComponent(name) && Split(p) == init + [name]
    ensures FileName(p) == Some(name)
  {
  }

  /** Joining a normal component under any directory yields a path whose file name is that component. */
  lemma FileNameOfJoin(dir: string, name: string)
    requires IsNormalComponent(name)
    ensures FileName(Join(dir, name)) == Some(name)
  {
    if dir == [] {
      assert Join(dir, name) == name;
      SplitComponent(name);
      FileNameOfLastPiece(name, [], name);
    } else if dir[|dir| - 1] == '/' {
      var d := dir[..|dir| - 1];
      assert Join(dir, name) == d + "/" + name;
      SplitAppend(d, name);
      FileNameOfLastPiece(Join(dir, name), Split(d), name);
    } else {
      SplitAppend(dir, name);
      FileNameOfLastPiece(Join(dir, name), Split(dir), name);
    }
  }

  /** A trailing slash does not change a path's file name: `file_name` of "a/b/" is "b". */
  lemma FileNameIgnoresTrailingSlash(p: string)
    ensures FileName(p + "/") == FileName(p)
  {
    var q := p + "/";
    assert q[..|q| - 1] == p;
    var parts := Split(p) + [[]];
    assert parts[..|parts| - 1] == Split(p);
  }

  /** A trailing "." component does not change a path's file name: `file_name` of "a/b/." is "b". */
  lemma FileNameIgnoresTrailingDot(p: string)
    ensures FileName(p + "/.") == FileName(p)
  {
    SplitAppend(p, ".");
    assert p + "/." == p + "/" + ".";
    var parts := Split(p) + ["."];
    assert parts[..|parts| - 1] == Split(p);
  }

  /** A path ending in ".." has no file name. */
  lemma NoFileNameAfterParent(p: string)
    ensures FileName(p + "/..") == None
  {
    SplitAppend(p, "..");
    assert p + "/.." == p + "/" + "..";
    var parts := Split(p) + [".."];
    assert parts[..|parts| - 1] == Split(p);
    var cs := Components(parts);
    assert cs == Components(Split(p)) + [".."];
  }

  /**
   * A path none of whose pieces is a normal component has no file name: the empty path,
   * the root "/", and paths made only of ".", ".." and slashes.
   */
  lemma NoFileNameWithoutNormalPiece(p: string)
    requires forall part :: part in Split(p) ==> !IsNormalComponent(part)
    ensures FileName(p) == None
  {
    var cs := Components(Split(p));
    if cs != [] {
      assert cs[|cs| - 1] in cs;
    }
  }
}
