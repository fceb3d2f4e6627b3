/**
 * What the scaffolding scripts lay out on disk, and the path arithmetic they
 * rely on: POSIX `os.path.join`, the directory holding a file, and how Dart
 * resolves a relative `import` from a file.
 */
module ScaffoldPaths {
  import opened Common
  import opened PascalCase

  /** The four sub-directories both scripts create under the base directory. */
  const SUBDIRS: seq<string> := ["view", "controllers", "widget", "models"]

  /** Everything a run derives from its argument. */
  datatype Layout = Layout(
    baseDir: string,
    subdirs: seq<string>,
    screenClass: string,
    controllerClass: string,
    viewFile: string,
    controllerFile: string,
    controllerImport: string)

  /** A run either stops with a usage message or lays out a screen or feature. */
  datatype Outcome = Usage(status: int) | Scaffolded(layout: Layout)

  /** `os.path.join(a, b)` on POSIX: an absolute `b` replaces `a`. */
  function PathJoin(a: string, b: string): string
  {
    if StartsWith(b, "/") then b
    else if a == [] || a[|a| - 1] == '/' then a + b
    else a + "/" + b
  }

  /** The paths of the four sub-directories of `baseDir`. */
  function SubdirPaths(baseDir: string): (ps: seq<string>)
    ensures |ps| == |SUBDIRS|
  {
    seq(|SUBDIRS|, i requires 0 <= i < |SUBDIRS| => PathJoin(baseDir, SUBDIRS[i]))
  }

  /** Each created sub-directory lies directly inside the base directory, under its own name. */
  lemma SubdirsInsideBase(baseDir: string)
    ensures baseDir != [] && baseDir[|baseDir| - 1] != '/' ==>
      forall i :: 0 <= i < |SUBDIRS| ==> SubdirPaths(baseDir)[i] == baseDir + "/" + SUBDIRS[i]
    ensures baseDir == [] || baseDir[|baseDir| - 1] == '/' ==>
      forall i :: 0 <= i < |SUBDIRS| ==> SubdirPaths(baseDir)[i] == baseDir + SUBDIRS[i]
  {
    forall i | 0 <= i < |SUBDIRS|
      ensures !StartsWith(SUBDIRS[i], "/")
    {
      assert SUBDIRS[i][0] != '/';
    }
  }

  /** The directory a file lies in: everything before its last '/'. */
  function Directory(p: string): string
    decreases |p|
  {
    if p == [] then []
    else if p[|p| - 1] == '/' then p[..|p| - 1]
    else Directory(p[..|p| - 1])
  }

  /** Where a relative import written in directory `dir` points: each "../" climbs one level. */
  function Resolve(dir: string, rel: string): string
    decreases |rel|
  {
    if StartsWith(rel, "../") then Resolve(Directory(dir), rel[3..]) else dir + "/" + rel
  }

  /** A file name without '/' lies directly in the directory it is joined to. */
  lemma {:induction false} DirectoryOfChild(dir: string, name: string)
    requires '/' !in name
    ensures Directory(dir + "/" + name) == dir
    decreases |name|
  {
    if name != [] {
      var front := name[..|name| - 1];
      assert (dir + "/" + name)[..|dir + "/" + name| - 1] == dir + "/" + front;
      assert name[|name| - 1] in name;
      assert forall c :: c in front ==> c in name;
      DirectoryOfChild(dir, front);
    } else {
      assert (dir + "/")[..|dir + "/"| - 1] == dir;
    }
  }

  /** A name without '/' is never absolute. */
  lemma Relative(name: string)
    requires '/' !in name
    ensures !StartsWith(name, "/")
  {
    if |name| >= 1 {
      assert name[0] in name;
      assert name[..1] == [name[0]];
    }
  }

  /** An import starting with "../" is resolved from the parent directory. */
  lemma ResolveUp(dir: string, rest: string)
    requires rest != [] && rest[0] != '.'
    ensures Resolve(dir, "../" + rest) == Directory(dir) + "/" + rest
  {
    var rel := "../" + rest;
    assert rel[..3] == "../" && rel[3..] == rest;
    assert !StartsWith(rest, "../");
  }

  /** The parent of `<base>/<sub>` is `<base>`, up to a trailing '/'. */
  lemma ParentOfSub(baseDir: string, sub: string, other: string)
    requires baseDir != [] && '/' !in sub && '/' !in other
    ensures Directory(PathJoin(baseDir, sub)) + "/" + other == PathJoin(baseDir, other)
  {
    Relative(sub);
    Relative(other);
    if baseDir[|baseDir| - 1] == '/' {
      var parent := baseDir[..|baseDir| - 1];
      assert baseDir == parent + "/";
      assert PathJoin(baseDir, sub) == parent + "/" + sub;
      DirectoryOfChild(parent, sub);
    } else {
      DirectoryOfChild(baseDir, sub);
    }
  }

  /** Joining a non-empty relative name gives a path ending in that name's last character. */
  lemma JoinEnds(dir: string, name: string)
    requires name != [] && '/' !in name
    ensures PathJoin(dir, name) != [] && PathJoin(dir, name)[|PathJoin(dir, name)| - 1] == name[|name| - 1]
  {
    Relative(name);
  }

  /** Lower-casing never introduces a '/'. */
  lemma LowerSlashFree(s: string)
    requires '/' !in s
    ensures '/' !in LowerAll(s)
  {
  }

  /** A file joined under `<base>/<sub>` lies in that directory. */
  lemma FileInSub(baseDir: string, sub: string, name: string)
    requires sub != [] && '/' !in sub && '/' !in name
    ensures Directory(PathJoin(PathJoin(baseDir, sub), name)) == PathJoin(baseDir, sub)
  {
    JoinEnds(baseDir, sub);
    JoinUnder(PathJoin(baseDir, sub), name);
    DirectoryOfChild(PathJoin(baseDir, sub), name);
  }

  /** A relative name is joined under a directory not ending in '/' with one '/'. */
  lemma JoinUnder(dir: string, name: string)
    requires dir != [] && dir[|dir| - 1] != '/' && '/' !in name
    ensures PathJoin(dir, name) == dir + "/" + name
  {
    Relative(name);
  }

  /**
   * A script writes the view into `<base>/<viewSub>/` and the controller
   * into `<base>/<controllerSub>/`; the view's
   * "../<controllerSub>/<controllerName>" import then reaches exactly the
   * controller file.
   */
  lemma ImportReachesFile(baseDir: string, viewSub: string, viewName: string, controllerSub: string, controllerName: string)
    requires baseDir != []
    requires '/' !in viewSub && '/' !in viewName && '/' !in controllerSub && '/' !in controllerName
    requires viewSub != [] && controllerSub != [] && controllerSub[0] != '.'
    ensures
      Resolve(Directory(PathJoin(PathJoin(baseDir, viewSub), viewName)), "../" + controllerSub + "/" + controllerName)
        == PathJoin(PathJoin(baseDir, controllerSub), controllerName)
  {
    var viewDir := PathJoin(baseDir, viewSub);
    var controllerDir := PathJoin(baseDir, controllerSub);
    JoinEnds(baseDir, viewSub);
    JoinEnds(baseDir, controllerSub);
    JoinUnder(viewDir, viewName);
    DirectoryOfChild(viewDir, viewName);
    assert "../" + controllerSub + "/" + controllerName == "../" + (controllerSub + "/" + controllerName);
    ResolveUp(viewDir, controllerSub + "/" + controllerName);
    ParentOfSub(baseDir, viewSub, controllerSub);
    JoinUnder(controllerDir, controllerName);
  }
}
