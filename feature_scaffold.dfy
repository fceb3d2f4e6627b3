/**
 * scripts/epreyn_feature.py: from one feature name, a directory
 * `lib/features/<name>` with four sub-directories, a view class `<Pascal>`
 * in `view/<name>.dart` importing its controller class `<Pascal>Controller`
 * from `controllers/<name>_controller.dart`.
 */
module FeatureScaffold {
  import opened Common
  import opened PascalCase
  import opened ScaffoldPaths

  const FEATURES_DIR := "lib/features"

  /** What the script derives from the feature name it is given. */
  function FeatureLayout(featureName: string): Layout {
    var baseName := LowerAll(featureName);
    var baseDir := PathJoin(FEATURES_DIR, baseName);
    var pascal := ToPascalCase(baseName);
    Layout(
      baseDir,
      SubdirPaths(baseDir),
      pascal,
      pascal + "Controller",
      PathJoin(PathJoin(baseDir, "view"), baseName + ".dart"),
      PathJoin(PathJoin(baseDir, "controllers"), baseName + "_controller.dart"),
      "../controllers/" + baseName + "_controller.dart")
  }

  /** A run with its command line (the script's own name first). */
  function Scaffold(argv: seq<string>): (r: Outcome)
    ensures r.Usage? <==> |argv| != 2
    ensures r.Usage? ==> r.status == 1
    ensures r.Scaffolded? ==> r.layout.baseDir == PathJoin(FEATURES_DIR, LowerAll(argv[1]))
  {
    if |argv| != 2 then Usage(1) else Scaffolded(FeatureLayout(argv[1]))
  }

  /**
   * The view class is the PascalCased name itself, one letter or digit per
   * letter or digit of the name, and the controller class adds "Controller".
   */
  lemma FeatureClasses(featureName: string)
    ensures |FeatureLayout(featureName).screenClass| == |AlnumOf(featureName)|
    ensures FeatureLayout(featureName).controllerClass == FeatureLayout(featureName).screenClass + "Controller"
  {
    PascalCharacters(LowerAll(featureName));
    LowerAlnumCount(featureName);
  }

  /** Both class names are made of ASCII letters and digits only. */
  lemma FeatureClassesAlnum(featureName: string)
    ensures AllAlnum(FeatureLayout(featureName).screenClass)
    ensures AllAlnum(FeatureLayout(featureName).controllerClass)
  {
    PascalCharacters(LowerAll(featureName));
    PascalIdentifier(LowerAll(featureName), "Controller");
  }

  /**
   * For a name without '/', the view is `view/<name>.dart` and the
   * controller `controllers/<name>_controller.dart`, both inside
   * sub-directories the script creates.
   */
  lemma FeatureFilesInSubdirs(featureName: string)
    requires '/' !in featureName
    ensures
      var l := FeatureLayout(featureName);
      && Directory(l.viewFile) == l.subdirs[0]
      && Directory(l.controllerFile) == l.subdirs[1]
  {
    var baseName := LowerAll(featureName);
    var baseDir := PathJoin(FEATURES_DIR, baseName);
    LowerSlashFree(featureName);
    FileInSub(baseDir, "view", baseName + ".dart");
    FileInSub(baseDir, "controllers", baseName + "_controller.dart");
  }

  /** For a name without '/', the view's import names the controller file the script writes. */
  lemma FeatureImportResolves(featureName: string)
    requires '/' !in featureName
    ensures
      var l := FeatureLayout(featureName);
      Resolve(Directory(l.viewFile), l.controllerImport) == l.controllerFile
  {
    var baseName := LowerAll(featureName);
    var baseDir := PathJoin(FEATURES_DIR, baseName);
    LowerSlashFree(featureName);
    assert baseDir != [];
    assert "../controllers/" + baseName + "_controller.dart"
      == "../" + "controllers" + "/" + (baseName + "_controller.dart");
    ImportReachesFile(baseDir, "view", baseName + ".dart", "controllers", baseName + "_controller.dart");
  }
}
