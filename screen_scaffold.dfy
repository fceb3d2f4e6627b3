/**
 * scripts/epreyn_screen.py: from one screen name, a directory
 * `lib/screens/<name>_screen` with four sub-directories, a view class
 * `<Pascal>Screen` in `view/<name>_screen.dart` importing its controller
 * class `<Pascal>ScreenController` from `controllers/<name>_screen_controller.dart`.
 */
module ScreenScaffold {
  import opened Common
  import opened PascalCase
  import opened ScaffoldPaths

  const SCREENS_DIR := "lib/screens"

  /** What the script derives from the screen name it is given. */
  function ScreenLayout(screenName: string): Layout {
    var baseName := LowerAll(screenName);
    var baseDir := PathJoin(SCREENS_DIR, baseName + "_screen");
    var pascal := ToPascalCase(baseName);
    Layout(
      baseDir,
      SubdirPaths(baseDir),
      pascal + "Screen",
      pascal + "ScreenController",
      PathJoin(PathJoin(baseDir, "view"), baseName + "_screen.dart"),
      PathJoin(PathJoin(baseDir, "controllers"), baseName + "_screen_controller.dart"),
      "../controllers/" + baseName + "_screen_controller.dart")
  }

  /** A run with its command line (the script's own name first). */
  function Scaffold(argv: seq<string>): (r: Outcome)
    ensures r.Usage? <==> |argv| != 2
    ensures r.Usage? ==> r.status == 1
    ensures r.Scaffolded? ==> r.layout.baseDir == PathJoin(SCREENS_DIR, LowerAll(argv[1]) + "_screen")
  {
    if |argv| != 2 then Usage(1) else Scaffolded(ScreenLayout(argv[1]))
  }

  /** The controller class is the view class followed by "Controller". */
  lemma ScreenControllerClass(screenName: string)
    ensures ScreenLayout(screenName).controllerClass == ScreenLayout(screenName).screenClass + "Controller"
  {
    var pascal := ToPascalCase(LowerAll(screenName));
    assert pascal + "ScreenController" == (pascal + "Screen") + "Controller";
  }

  /**
   * The view class is the PascalCased name followed by "Screen": one
   * character per letter or digit of the name, then the suffix.
   */
  lemma ScreenClassLength(screenName: string)
    ensures |ScreenLayout(screenName).screenClass| == |AlnumOf(screenName)| + 6
  {
    PascalCharacters(LowerAll(screenName));
    LowerAlnumCount(screenName);
  }

  /** Both class names are made of ASCII letters and digits only. */
  lemma ScreenClassesAlnum(screenName: string)
    ensures AllAlnum(ScreenLayout(screenName).screenClass)
    ensures AllAlnum(ScreenLayout(screenName).controllerClass)
  {
    PascalIdentifier(LowerAll(screenName), "Screen");
    PascalIdentifier(LowerAll(screenName), "ScreenController");
  }

  /** Two names differing only in ASCII case scaffold the same screen. */
  lemma CaseInsensitive(a: string, b: string)
    requires LowerAll(a) == LowerAll(b)
    ensures ScreenLayout(a) == ScreenLayout(b)
  {
  }

  /**
   * For a name without '/', both files are written into sub-directories the
   * script creates: the view into the first, the controller into the second.
   */
  lemma ScreenFilesInSubdirs(screenName: string)
    requires '/' !in screenName
    ensures
      var l := ScreenLayout(screenName);
      && Directory(l.viewFile) == l.subdirs[0]
      && Directory(l.controllerFile) == l.subdirs[1]
  {
    var baseName := LowerAll(screenName);
    var baseDir := PathJoin(SCREENS_DIR, baseName + "_screen");
    LowerSlashFree(screenName);
    FileInSub(baseDir, "view", baseName + "_screen.dart");
    FileInSub(baseDir, "controllers", baseName + "_screen_controller.dart");
  }

  /** For a name without '/', the view's import names the controller file the script writes. */
  lemma ScreenImportResolves(screenName: string)
    requires '/' !in screenName
    ensures
      var l := ScreenLayout(screenName);
      Resolve(Directory(l.viewFile), l.controllerImport) == l.controllerFile
  {
    var baseName := LowerAll(screenName);
    var baseDir := PathJoin(SCREENS_DIR, baseName + "_screen");
    LowerSlashFree(screenName);
    assert baseDir != [];
    assert "../controllers/" + baseName + "_screen_controller.dart"
      == "../" + "controllers" + "/" + (baseName + "_screen_controller.dart");
    ImportReachesFile(baseDir, "view", baseName + "_screen.dart", "controllers", baseName + "_screen_controller.dart");
  }
}
