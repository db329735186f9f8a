/** The command-line entry point (src/index.ts): detection of the project
    layout, the configuration merge, the API-key check and the hand-over
    to the generator.

    The working directory is the root of the file tree. `pathExists` is
    `fs.pathExists` on a path below it; `package.json` arrives already
    read: missing, unparsable, or parsed with its `devDependencies`
    (absent, or a map from package name to version text). */
module Cli {
  import opened Wrappers
  import opened Text
  import opened Paths
  import opened Types
  import opened FileUtils
  import opened Services
  import opened Core

  datatype PackageJson =
    | Missing
    | Malformed
    | Parsed(devDependencies: Option<map<string, string>>)

  /** The fields `detectProjectStructure` may fill in; `None` is "not detected". */
  datatype Detected = Detected(
    testFramework: Option<Framework>,
    routesDir: Option<string>,
    controllersDir: Option<string>,
    testsDir: Option<string>)

  const Undetected: Detected := Detected(None, None, None, None)

  /** The parsed flags; `None` is a flag that was not given. The key flag
      already carries yargs' fallback to the `AI_API_KEY` variable. */
  datatype CliArgs = CliArgs(
    aiKey: Option<string>,
    model: Option<string>,
    routesDir: Option<string>,
    controllersDir: Option<string>,
    testsDir: Option<string>,
    testFramework: Option<Framework>,
    maxFileSize: Option<int>,
    dryRun: bool,
    verbose: bool,
    init: bool)

  /** The environment variables the merge reads. */
  datatype Env = Env(aiApiKey: Option<string>, openAiApiUrl: Option<string>)

  const DefaultApiUrl: string := "https://api.openai.com/v1"

  // ---------------------------------------------------------------------
  // Framework detection

  /** A dependency entry JavaScript reads as truthy: present with a non-empty version. */
  predicate Declares(deps: map<string, string>, name: string)
  {
    name in deps && deps[name] != ""
  }

  predicate DeclaresJest(deps: map<string, string>)
  {
    Declares(deps, "jest") || Declares(deps, "@types/jest")
  }

  predicate DeclaresMocha(deps: map<string, string>)
  {
    Declares(deps, "mocha") || Declares(deps, "@types/mocha")
  }

  /** The framework named by the development dependencies: Jest when either
      Jest package is declared, otherwise Mocha when a Mocha package is;
      nothing without a readable `devDependencies`. */
  function DetectFramework(pkg: PackageJson): (r: Option<Framework>)
    ensures r == Some(Jest) <==> pkg.Parsed? && pkg.devDependencies.Some? && DeclaresJest(pkg.devDependencies.value)
    ensures r == Some(Mocha) <==> pkg.Parsed? && pkg.devDependencies.Some?
                                  && !DeclaresJest(pkg.devDependencies.value) && DeclaresMocha(pkg.devDependencies.value)
  {
    if pkg.Parsed? && pkg.devDependencies.Some? then
      var deps := pkg.devDependencies.value;
      if DeclaresJest(deps) then Some(Jest)
      else if DeclaresMocha(deps) then Some(Mocha)
      else None
    else None
  }

  /** Jest wins when both frameworks are declared. */
  lemma JestOverMocha(deps: map<string, string>)
    requires DeclaresJest(deps) && DeclaresMocha(deps)
    ensures DetectFramework(Parsed(Some(deps))) == Some(Jest)
  {
  }

  /** Nothing is detected from a missing or unparsable manifest, or one without `devDependencies`. */
  lemma NoFrameworkWithoutDevDependencies(pkg: PackageJson)
    requires pkg.Missing? || pkg.Malformed? || pkg == Parsed(None)
    ensures DetectFramework(pkg) == None
  {
  }

  // ---------------------------------------------------------------------
  // Directory detection

  datatype Structure = Structure(routes: string, controllers: string)

  /** The candidate layouts, in the order they are tried. */
  const CommonStructures: seq<Structure> := [
    Structure("./routes", "./controllers"),
    Structure("./src/routes", "./src/controllers"),
    Structure("./api/routes", "./api/controllers"),
    Structure("./src/api/routes", "./src/api/controllers"),
    Structure("./pages/api", "./pages/api"),
    Structure("./src", "./src")]

  /** The candidate test directories, in the order they are tried. */
  const CommonTestDirs: seq<string> := ["./tests", "./__tests__", "./test", "./src/__tests__", "./src/tests"]

  /** The position of the first candidate that satisfies `p`. */
  function FirstIndex<T>(candidates: seq<T>, p: T -> bool): (r: Option<nat>)
    ensures r.Some? ==> r.value < |candidates| && p(candidates[r.value])
                          && forall k :: 0 <= k < r.value ==> !p(candidates[k])
    ensures r.None? ==> forall k :: 0 <= k < |candidates| ==> !p(candidates[k])
  {
    if |candidates| == 0 then None
    else if p(candidates[0]) then Some(0)
    else
      match FirstIndex(candidates[1..], p)
      case None => None
      case Some(k) => Some(k + 1)
  }

  /** `fs.pathExists(path.join(cwd, dir))` */
  predicate Present(pathExists: Path -> bool, dir: string)
  {
    pathExists(Parse(dir))
  }

  /** A layout counts as found when either of its directories exists. */
  function Found(pathExists: Path -> bool): Structure -> bool
  {
    (s: Structure) => Present(pathExists, s.routes) || Present(pathExists, s.controllers)
  }

  function Existing(pathExists: Path -> bool): string -> bool
  {
    (d: string) => Present(pathExists, d)
  }

  /** The directories a layout search settles on. */
  datatype Dirs = Dirs(routes: Option<string>, controllers: Option<string>)

  /** The first layout with either directory present, each of its
      directories kept only when it exists; nothing when no layout is present. */
  function LayoutFound(structures: seq<Structure>, pathExists: Path -> bool): Dirs
  {
    match FirstIndex(structures, Found(pathExists))
    case None => Dirs(None, None)
    case Some(k) =>
      var s := structures[k];
      Dirs(if Present(pathExists, s.routes) then Some(s.routes) else None,
           if Present(pathExists, s.controllers) then Some(s.controllers) else None)
  }

  /** The first directory of `dirs` that exists. */
  function FirstExisting(dirs: seq<string>, pathExists: Path -> bool): Option<string>
  {
    match FirstIndex(dirs, Existing(pathExists))
    case None => None
    case Some(k) => Some(dirs[k])
  }

  /** The value `detectProjectStructure` resolves to. */
  function DetectedStructure(pkg: PackageJson, pathExists: Path -> bool): Detected
  {
    var layout := LayoutFound(CommonStructures, pathExists);
    Detected(DetectFramework(pkg), layout.routes, layout.controllers, FirstExisting(CommonTestDirs, pathExists))
  }

  /** A candidate that satisfies `p` with none before it is the first one. */
  lemma FirstIndexIs<T>(candidates: seq<T>, p: T -> bool, k: nat)
    requires k < |candidates| && p(candidates[k])
    requires forall l :: 0 <= l < k ==> !p(candidates[l])
    ensures FirstIndex(candidates, p) == Some(k)
  {
    var r := FirstIndex(candidates, p);
    assert r.Some?;
    assert !(r.value < k) && !(k < r.value);
  }

  /** The layout search takes the first layout in order with either
      directory present, examines no later one, and sets only the fields
      whose directory exists; with no layout present it sets neither. */
  lemma LayoutIsFirstMatch(structures: seq<Structure>, pathExists: Path -> bool, k: nat)
    requires k < |structures| && Found(pathExists)(structures[k])
    requires forall l :: 0 <= l < k ==> !Found(pathExists)(structures[l])
    ensures var d := LayoutFound(structures, pathExists);
            && d.routes == (if Present(pathExists, structures[k].routes) then Some(structures[k].routes) else None)
            && d.controllers == (if Present(pathExists, structures[k].controllers) then Some(structures[k].controllers) else None)
            && (d.routes.Some? || d.controllers.Some?)
  {
    FirstIndexIs(structures, Found(pathExists), k);
  }

  lemma NoLayoutFound(structures: seq<Structure>, pathExists: Path -> bool)
    requires forall k :: 0 <= k < |structures| ==> !Found(pathExists)(structures[k])
    ensures LayoutFound(structures, pathExists) == Dirs(None, None)
  {
    if FirstIndex(structures, Found(pathExists)).Some? {
      assert false;
    }
  }

  /** The tests directory is the first candidate that exists, or none. */
  lemma FirstExistingIsFirst(dirs: seq<string>, pathExists: Path -> bool)
    ensures var t := FirstExisting(dirs, pathExists);
            && (t.None? <==> forall k :: 0 <= k < |dirs| ==> !Present(pathExists, dirs[k]))
            && (t.Some? ==>
                  exists k :: && 0 <= k < |dirs| && t.value == dirs[k] && Present(pathExists, dirs[k])
                              && forall l :: 0 <= l < k ==> !Present(pathExists, dirs[l]))
  {
    var r := FirstIndex(dirs, Existing(pathExists));
    if r.Some? {
      assert forall l :: 0 <= l < r.value ==> !Existing(pathExists)(dirs[l]);
      assert Existing(pathExists)(dirs[r.value]);
    } else {
      assert forall l :: 0 <= l < |dirs| ==> !Existing(pathExists)(dirs[l]);
    }
  }

  /** The layout loop: the first layout with either directory present sets
      the directories that exist, and the loop stops there. */
  method DetectLayout(detected: Detected, structures: seq<Structure>, pathExists: Path -> bool)
    returns (detected': Detected)
    requires detected.routesDir.None? && detected.controllersDir.None?
    ensures var layout := LayoutFound(structures, pathExists);
            detected' == detected.(routesDir := layout.routes, controllersDir := layout.controllers)
  {
    detected' := detected;
    for i := 0 to |structures|
      invariant forall k :: 0 <= k < i ==> !Found(pathExists)(structures[k])
      invariant detected' == detected
    {
      var structure := structures[i];
      var routesExist := pathExists(Parse(structure.routes));
      var controllersExist := pathExists(Parse(structure.controllers));
      if routesExist || controllersExist {
        if routesExist {
          detected' := detected'.(routesDir := Some(structure.routes));
        }
        if controllersExist {
          detected' := detected'.(controllersDir := Some(structure.controllers));
        }
        FirstIndexIs(structures, Found(pathExists), i);
        return;
      }
    }
    NoLayoutFound(structures, pathExists);
  }

  /** The test-directory loop: the first candidate that exists, and the loop stops there. */
  method DetectTestsDir(detected: Detected, dirs: seq<string>, pathExists: Path -> bool)
    returns (detected': Detected)
    requires detected.testsDir.None?
    ensures detected' == detected.(testsDir := FirstExisting(dirs, pathExists))
  {
    detected' := detected;
    for i := 0 to |dirs|
      invariant forall k :: 0 <= k < i ==> !Existing(pathExists)(dirs[k])
      invariant detected' == detected
    {
      var testDir := dirs[i];
      if pathExists(Parse(testDir)) {
        detected' := detected'.(testsDir := Some(testDir));
        FirstIndexIs(dirs, Existing(pathExists), i);
        return;
      }
    }
    if FirstIndex(dirs, Existing(pathExists)).Some? {
      assert false;
    }
  }

  /** `detectProjectStructure()`: the framework from the manifest, then the
      first layout whose routes or controllers directory exists, then the
      first test directory that exists. */
  method DetectProjectStructure(pkg: PackageJson, pathExists: Path -> bool) returns (detected: Detected)
    ensures detected == DetectedStructure(pkg, pathExists)
  {
    detected := Undetected;
    if pkg.Parsed? {
      if pkg.devDependencies.Some? {
        var deps := pkg.devDependencies.value;
        if DeclaresJest(deps) {
          detected := detected.(testFramework := Some(Jest));
        } else if DeclaresMocha(deps) {
          detected := detected.(testFramework := Some(Mocha));
        }
      }
    }
    detected := DetectLayout(detected, CommonStructures, pathExists);
    detected := DetectTestsDir(detected, CommonTestDirs, pathExists);
  }

  // ---------------------------------------------------------------------
  // The configuration merge

  /** `a || b` for an optional framework; the choice list admits no falsy framework. */
  function FrameworkOr(a: Option<Framework>, b: Framework): Framework
  {
    if a.Some? then a.value else b
  }

  /** `argv["max-file-size"] || 50000`: a missing or zero size falls back. */
  function SizeOr(a: Option<int>, b: int): int
  {
    if a.Some? && a.value != 0 then a.value else b
  }

  /** The configuration `main` builds: flags first, then detected values,
      then the defaults, each step by JavaScript `||`. */
  function MergeConfig(args: CliArgs, env: Env, detected: Detected): (c: Config)
    ensures Truthy(c.aiApiKey) <==> (args.aiKey.Some? && Truthy(args.aiKey.value)) || (env.aiApiKey.Some? && Truthy(env.aiApiKey.value))
    ensures env.openAiApiUrl.Some? && Truthy(env.openAiApiUrl.value) ==> c.aiApiUrl == env.openAiApiUrl.value
    ensures !(env.openAiApiUrl.Some? && Truthy(env.openAiApiUrl.value)) ==> c.aiApiUrl == DefaultApiUrl
    ensures args.testFramework.Some? ==> c.testFramework == args.testFramework.value
    ensures args.testFramework.None? && detected.testFramework.Some? ==> c.testFramework == detected.testFramework.value
    ensures args.testFramework.None? && detected.testFramework.None? ==> c.testFramework == DefaultTestFramework
    ensures args.maxFileSize.Some? && args.maxFileSize.value != 0 ==> c.maxFileSize == args.maxFileSize.value
    ensures !(args.maxFileSize.Some? && args.maxFileSize.value != 0) ==> c.maxFileSize == DefaultMaxFileSize
  {
    Config(
      aiApiUrl := Or(env.openAiApiUrl, DefaultApiUrl),
      aiApiKey := Or(OrElse(args.aiKey, env.aiApiKey), ""),
      model := Or(args.model, DefaultModel),
      routesDir := Or(OrElse(args.routesDir, detected.routesDir), DefaultRoutesDir),
      controllersDir := Or(OrElse(args.controllersDir, detected.controllersDir), DefaultControllersDir),
      testsDir := Or(OrElse(args.testsDir, detected.testsDir), DefaultTestsDir),
      testFramework := FrameworkOr(args.testFramework, FrameworkOr(detected.testFramework, DefaultTestFramework)),
      maxFileSize := SizeOr(args.maxFileSize, DefaultMaxFileSize))
  }

  /** The precedence of one directory setting: a non-empty flag, else a
      non-empty detected value, else the default; an empty string falls
      through like a missing one. */
  predicate Precedence(flag: Option<string>, detected: Option<string>, default: string, r: string)
  {
    && (flag.Some? && flag.value != "" ==> r == flag.value)
    && (!(flag.Some? && flag.value != "") && detected.Some? && detected.value != "" ==> r == detected.value)
    && (!(flag.Some? && flag.value != "") && !(detected.Some? && detected.value != "") ==> r == default)
  }

  lemma MergePrecedence(args: CliArgs, env: Env, detected: Detected)
    ensures var c := MergeConfig(args, env, detected);
            && Precedence(args.routesDir, detected.routesDir, DefaultRoutesDir, c.routesDir)
            && Precedence(args.controllersDir, detected.controllersDir, DefaultControllersDir, c.controllersDir)
            && Precedence(args.testsDir, detected.testsDir, DefaultTestsDir, c.testsDir)
            && Precedence(args.model, None, DefaultModel, c.model)
  {
  }

  /** The merged configuration always names a model and three directories,
      and never has a zero size cap; the detected values are never empty. */
  lemma MergedConfigComplete(args: CliArgs, env: Env, pkg: PackageJson, pathExists: Path -> bool)
    ensures var c := MergeConfig(args, env, DetectedStructure(pkg, pathExists));
            c.model != "" && c.routesDir != "" && c.controllersDir != "" && c.testsDir != "" && c.maxFileSize != 0
  {
  }

  /** Detection never decides the size cap: two detections give the same cap. */
  lemma SizeIgnoresDetection(args: CliArgs, env: Env, d1: Detected, d2: Detected)
    ensures MergeConfig(args, env, d1).maxFileSize == MergeConfig(args, env, d2).maxFileSize
    ensures MergeConfig(args, env, d1).aiApiKey == MergeConfig(args, env, d2).aiApiKey
  {
  }

  // ---------------------------------------------------------------------
  // main

  datatype Outcome =
    | Initialized
    | MissingKey(exitCode: int)
    | Ran(config: Config, report: Report)

  /** `main()`: `--init` only scaffolds; otherwise the layout is detected
      and merged into a configuration, a missing key ends the run with exit
      code 1 before any generator exists, and with a key the generator runs.
      The dry-run and verbose flags only change what is printed. */
  method Run(args: CliArgs, env: Env, pkg: PackageJson, pathExists: Path -> bool,
             root: Entry, ai: (string, string) -> CallResult, decode: string -> Option<Fields>, disk: Disk)
    returns (outcome: Outcome, generator: TestGenerator?)
    requires forall p :: pathExists(p) <==> Lookup(root, p).Some?
    requires pkg.Missing? <==> Lookup(root, ["package.json"]).None?
    modifies disk
    ensures args.init ==> outcome == Initialized
    ensures !args.init && MergeConfig(args, env, DetectedStructure(pkg, pathExists)).aiApiKey == "" ==> outcome == MissingKey(1)
    ensures outcome.Initialized? || outcome.MissingKey? ==>
              disk.files == old(disk.files) && disk.dirs == old(disk.dirs) && disk.attempts == old(disk.attempts)
    ensures outcome.Ran? <==> !args.init && MergeConfig(args, env, DetectedStructure(pkg, pathExists)).aiApiKey != ""
    ensures outcome.Ran? ==> outcome.config == MergeConfig(args, env, DetectedStructure(pkg, pathExists))
    ensures generator != null <==> outcome.Ran?
    ensures outcome.Ran? ==>
              && generator.config == outcome.config
              && generator.ServiceConfigured() && generator.aiService.model == outcome.config.model
              && generator.Generated(root, ai, decode, disk, outcome.report, old(disk.files), old(disk.dirs), old(disk.attempts))
  {
    generator := null;
    if args.init {
      return Initialized, null;
    }
    var detectedConfig := DetectProjectStructure(pkg, pathExists);
    var config := MergeConfig(args, env, detectedConfig);
    if config.aiApiKey == "" {
      return MissingKey(1), null;
    }
    MergedConfigComplete(args, env, pkg, pathExists);
    generator := new TestGenerator(config);
    var report := generator.Generate(root, ai, decode, disk);
    outcome := Ran(config, report);
  }
}
