/** The generation pipeline (src/core/testGenerator.ts): scan the two
    source roots, describe the project, ask the model about every file,
    write the answers under the tests directory and summarise. */
module Core {
  import opened Wrappers
  import opened Text
  import opened Paths
  import opened Types
  import opened FileUtils
  import opened Services

  // ---------------------------------------------------------------------
  // scanFiles

  /** `createFileInfo` with the role, scan root and size cap fixed. */
  function Loader(root: Entry, role: Role, baseDir: string, maxSize: int): Path -> Option<FileInfo>
  {
    p => CreateFileInfo(root, p, role, baseDir, maxSize)
  }

  /** The records `load` makes for `paths`, in order, skipping the paths it
      makes no record for. */
  function Collect(paths: seq<Path>, load: Path -> Option<FileInfo>): seq<FileInfo>
  {
    if |paths| == 0 then []
    else
      var n := |paths| - 1;
      Collect(paths[..n], load) + (if load(paths[n]).Some? then [load(paths[n]).value] else [])
  }

  /** A record is collected exactly when some listed path yields it. */
  lemma {:induction false} CollectMembers(paths: seq<Path>, load: Path -> Option<FileInfo>, f: FileInfo)
    ensures f in Collect(paths, load) <==> exists i :: 0 <= i < |paths| && load(paths[i]) == Some(f)
    ensures |Collect(paths, load)| <= |paths|
  {
    if |paths| > 0 {
      var n := |paths| - 1;
      var init := paths[..n];
      CollectMembers(init, load, f);
      if f in Collect(init, load) {
        var i :| 0 <= i < n && load(init[i]) == Some(f);
        assert init[i] == paths[i];
      }
      if i :| 0 <= i < |paths| && load(paths[i]) == Some(f) {
        if i < n {
          assert init[i] == paths[i];
        }
      }
    }
  }

  /** A loader's records carry its role. */
  lemma LoaderRole(root: Entry, role: Role, baseDir: string, maxSize: int)
    ensures forall p :: Loader(root, role, baseDir, maxSize)(p).Some? ==> Loader(root, role, baseDir, maxSize)(p).value.role == role
  {
  }

  /** Every record a loader for one role makes carries that role. */
  lemma {:induction false} CollectRole(paths: seq<Path>, load: Path -> Option<FileInfo>, role: Role)
    requires forall i :: 0 <= i < |paths| && load(paths[i]).Some? ==> load(paths[i]).value.role == role
    ensures forall i :: 0 <= i < |Collect(paths, load)| ==> Collect(paths, load)[i].role == role
  {
    if |paths| > 0 {
      var n := |paths| - 1;
      assert forall i :: 0 <= i < n ==> paths[..n][i] == paths[i];
      CollectRole(paths[..n], load, role);
    }
  }

  /** Loading with another role and an equivalent root: the same record, retagged. */
  lemma LoaderRetag(root: Entry, baseDir: string, otherBase: string, maxSize: int, p: Path)
    requires Parse(baseDir) == Parse(otherBase)
    ensures var r := Loader(root, Route, baseDir, maxSize)(p);
            var c := Loader(root, Controller, otherBase, maxSize)(p);
            c.Some? == r.Some? && (r.Some? ==> c.value == r.value.(role := Controller))
  {
  }

  /** Scanning the same listing under another role gives the same records, retagged. */
  lemma {:induction false} CollectRetag(paths: seq<Path>, routes: Path -> Option<FileInfo>, controllers: Path -> Option<FileInfo>)
    requires forall i :: 0 <= i < |paths| ==>
               && controllers(paths[i]).Some? == routes(paths[i]).Some?
               && (routes(paths[i]).Some? ==> controllers(paths[i]).value == routes(paths[i]).value.(role := Controller))
    ensures var r := Collect(paths, routes);
            var c := Collect(paths, controllers);
            |c| == |r| && forall i :: 0 <= i < |r| ==> c[i] == r[i].(role := Controller)
  {
    if |paths| > 0 {
      var n := |paths| - 1;
      assert forall i :: 0 <= i < n ==> paths[..n][i] == paths[i];
      CollectRetag(paths[..n], routes, controllers);
    }
  }

  /** Every path a listing returns lies strictly below the listed directory. */
  lemma ListingBelow(root: Entry, dir: Path, p: Path)
    requires p in Listing(root, dir)
    ensures Below(dir, p)
  {
    var e := Lookup(root, dir).value;
    WalkMembers(e, dir, |e.entries|, p);
  }

  // ---------------------------------------------------------------------
  // generateProjectStructure

  /** One overview line for a listed file: its path from the working directory. */
  function Bullet(p: Path): string
  {
    "  - " + RelativeText(p)
  }

  const RoutesHeading: string := "ROUTES:"
  const ControllersHeading: string := "\nCONTROLLERS:"

  /** The overview's lines: a heading per root, each followed by its listed files. */
  function OverviewLines(routeFiles: seq<Path>, controllerFiles: seq<Path>): seq<string>
  {
    [RoutesHeading] + Bullets(routeFiles) + [ControllersHeading] + Bullets(controllerFiles)
  }

  function Bullets(ps: seq<Path>): seq<string>
  {
    if |ps| == 0 then [] else Bullets(ps[..|ps| - 1]) + [Bullet(ps[|ps| - 1])]
  }

  lemma {:induction false} BulletsAt(ps: seq<Path>)
    ensures |Bullets(ps)| == |ps| && forall i :: 0 <= i < |ps| ==> Bullets(ps)[i] == Bullet(ps[i])
  {
    if |ps| > 0 {
      BulletsAt(ps[..|ps| - 1]);
    }
  }

  /** The overview lists both headings and every listed file of each root, in
      listing order. */
  lemma OverviewLayout(routeFiles: seq<Path>, controllerFiles: seq<Path>)
    ensures var lines := OverviewLines(routeFiles, controllerFiles);
            var m := |routeFiles|;
            && |lines| == 2 + m + |controllerFiles|
            && lines[0] == RoutesHeading && lines[1 + m] == ControllersHeading
            && (forall i :: 0 <= i < m ==> lines[1 + i] == Bullet(routeFiles[i]))
            && (forall j :: 0 <= j < |controllerFiles| ==> lines[2 + m + j] == Bullet(controllerFiles[j]))
  {
    BulletsAt(routeFiles);
    BulletsAt(controllerFiles);
  }

  /** Every part of a joined text occurs in it. */
  lemma {:induction false} JoinWithContains(parts: seq<string>, sep: string, k: nat)
    requires k < |parts|
    ensures Contains(JoinWith(parts, sep), parts[k])
  {
    if |parts| == 1 {
      ContainsSelf(parts[0]);
    } else if k == 0 {
      ContainsSelf(parts[0]);
      ContainsLeft(parts[0], sep, parts[0]);
      ContainsLeft(parts[0] + sep, JoinWith(parts[1..], sep), parts[0]);
    } else {
      JoinWithContains(parts[1..], sep, k - 1);
      ContainsRight(parts[0] + sep, JoinWith(parts[1..], sep), parts[k]);
    }
  }

  // ---------------------------------------------------------------------
  // showSummary

  /** Every dependency the responses name, in order, repeats included. */
  function AllDeps(responses: seq<AIResponse>): seq<string>
  {
    if |responses| == 0 then []
    else AllDeps(responses[..|responses| - 1]) + responses[|responses| - 1].dependencies.GetOr([])
  }

  /** A JavaScript `Set` filled from `s`, read back in insertion order. */
  function Dedupe(s: seq<string>): seq<string>
  {
    if |s| == 0 then []
    else
      var d := Dedupe(s[..|s| - 1]);
      if s[|s| - 1] in d then d else d + [s[|s| - 1]]
  }

  predicate Distinct(s: seq<string>)
  {
    forall i, j :: 0 <= i < j < |s| ==> s[i] != s[j]
  }

  /** The set holds each value of `s` exactly once, and nothing else. */
  lemma {:induction false} DedupeIsSet(s: seq<string>)
    ensures Distinct(Dedupe(s))
    ensures forall x :: x in Dedupe(s) <==> x in s
  {
    if |s| > 0 {
      var init := s[..|s| - 1];
      DedupeIsSet(init);
      assert s == init + [s[|s| - 1]];
    }
  }

  /** Adding the values of a set again changes nothing. */
  lemma DedupeIdempotent(s: seq<string>)
    ensures Dedupe(Dedupe(s)) == Dedupe(s)
  {
    DedupeIsSet(s);
    DedupeDistinct(Dedupe(s));
  }

  /** A sequence without repeats is its own set. */
  lemma {:induction false} DedupeDistinct(s: seq<string>)
    requires Distinct(s)
    ensures Dedupe(s) == s
  {
    if |s| > 0 {
      var init := s[..|s| - 1];
      DedupeDistinct(init);
      assert s[|s| - 1] !in init;
      assert s == init + [s[|s| - 1]];
    }
  }

  /** One more value added to the set. */
  lemma DedupeSnoc(s: seq<string>, x: string)
    ensures Dedupe(s + [x]) == if x in Dedupe(s) then Dedupe(s) else Dedupe(s) + [x]
  {
    assert (s + [x])[..|s|] == s;
  }

  /** What the summary reports: how many tests came back, and the extra
      packages they need, each once, in the order first named. */
  datatype Summary = Summary(generated: nat, dependencies: seq<string>)

  datatype Report =
    | NoFiles
    | Completed(found: nat, trace: seq<Event>, summary: Summary)

  class TestGenerator {
    const config: Config
    const aiService: AIService

    /** The service is created with the configured model, or `gpt-5` when none is set. */
    constructor (config: Config)
      ensures this.config == config
      ensures config.model != "" ==> aiService.model == config.model
      ensures config.model == "" ==> aiService.model == DefaultModel
      ensures aiService.prompts == CreatePrompt
      ensures ServiceConfigured()
    {
      this.config := config;
      this.aiService := new AIService(Or(Some(config.model), DefaultModel));
    }

    // -------------------------------------------------------------------
    // Specification

    /** The records scanned from the routes root. */
    function RouteInfos(root: Entry): seq<FileInfo>
    {
      Collect(Listing(root, Parse(config.routesDir)), Loader(root, Route, config.routesDir, config.maxFileSize))
    }

    /** The records scanned from the controllers root. */
    function ControllerInfos(root: Entry): seq<FileInfo>
    {
      Collect(Listing(root, Parse(config.controllersDir)), Loader(root, Controller, config.controllersDir, config.maxFileSize))
    }

    /** What `scanFiles` returns. */
    function Scanned(root: Entry): seq<FileInfo>
    {
      RouteInfos(root) + ControllerInfos(root)
    }

    /** What `generateProjectStructure` returns. */
    function Overview(root: Entry): string
    {
      JoinWith(OverviewLines(Listing(root, Parse(config.routesDir)), Listing(root, Parse(config.controllersDir))), "\n")
    }

    /** Where a response is written: `path.join(testsDir, testFileName)`. */
    function TestPath(r: AIResponse): Path
    {
      JoinStr(config.testsDir, r.testFileName)
    }

    function TestPaths(rs: seq<AIResponse>): (ps: seq<Path>)
      ensures |ps| == |rs| && forall i :: 0 <= i < |rs| ==> ps[i] == TestPath(rs[i])
    {
      if |rs| == 0 then [] else TestPaths(rs[..|rs| - 1]) + [TestPath(rs[|rs| - 1])]
    }

    /** The file contents after writing `rs` in order onto `disk`, from `files`. */
    function AfterWrites(disk: Disk, files: map<Path, string>, rs: seq<AIResponse>): map<Path, string>
    {
      if |rs| == 0 then files
      else
        var before := AfterWrites(disk, files, rs[..|rs| - 1]);
        var r := rs[|rs| - 1];
        if disk.Outcome(TestPath(r)) == Written then before[TestPath(r) := r.generatedTest] else before
    }

    /** The directories after writing `rs` in order onto `disk`, from
        `dirs`: every write whose directory can be created adds that
        directory and its ancestors (`fs.ensureDir`). */
    function DirsAfterWrites(disk: Disk, dirs: set<Path>, rs: seq<AIResponse>): (ds: set<Path>)
      ensures dirs <= ds
    {
      if |rs| == 0 then dirs
      else
        var before := DirsAfterWrites(disk, dirs, rs[..|rs| - 1]);
        var p := TestPath(rs[|rs| - 1]);
        if disk.Outcome(p) == DirFailed then before else before + Ancestors(Dirname(p))
    }

    /** A file that is written finds its directory created. */
    lemma {:induction false} ParentCreated(disk: Disk, dirs: set<Path>, rs: seq<AIResponse>, j: nat)
      requires j < |rs| && disk.Outcome(TestPath(rs[j])) == Written && |Dirname(TestPath(rs[j]))| > 0
      ensures Dirname(TestPath(rs[j])) in DirsAfterWrites(disk, dirs, rs)
    {
      var n := |rs| - 1;
      if j == n {
        var d := Dirname(TestPath(rs[j]));
        assert d[..|d|] == d;
      } else {
        assert rs[..n][j] == rs[j];
        ParentCreated(disk, dirs, rs[..n], j);
      }
    }

    /** The generator talks to the model through a service that builds its
        prompts with `createPrompt` and uses the configured model, or
        `gpt-5` when none is configured. */
    ghost predicate ServiceConfigured()
    {
      && aiService.prompts == CreatePrompt
      && (config.model != "" ==> aiService.model == config.model)
      && (config.model == "" ==> aiService.model == DefaultModel)
    }

    /** What one run of `generate` does, from the disk state `files0`,
        `dirs0`, `attempts0`: with no files nothing is asked or written;
        otherwise every scanned file is sent with the overview, the
        answers are written in order, and the summary covers them all. */
    ghost predicate Generated(root: Entry, ai: (string, string) -> CallResult, decode: string -> Option<Fields>,
                              disk: Disk, report: Report,
                              files0: map<Path, string>, dirs0: set<Path>, attempts0: seq<Path>)
      reads disk
    {
      && (Scanned(root) == [] ==>
            report == NoFiles && disk.attempts == attempts0 && disk.files == files0 && disk.dirs == dirs0)
      && (Scanned(root) != [] ==>
            var turn := Attempts(Ask(root, ai), decode);
            var responses := Responses(Scanned(root), turn);
            && report == Completed(|Scanned(root)|, Services.Trace(Scanned(root), turn),
                                   Summary(|responses|, Dedupe(AllDeps(responses))))
            && disk.attempts == attempts0 + TestPaths(responses)
            && disk.files == AfterWrites(disk, files0, responses)
            && disk.dirs == DirsAfterWrites(disk, dirs0, responses))
    }

    /** The request the pipeline sends for a project. */
    function Ask(root: Entry, ai: (string, string) -> CallResult): Services.Ask
    {
      Asker(aiService.model, ai, aiService.prompts, FrameworkName(config.testFramework), Overview(root))
    }

    // -------------------------------------------------------------------
    // Properties

    /** Route records all come before controller records. */
    lemma RoutesBeforeControllers(root: Entry)
      ensures var s := Scanned(root);
              forall i, j :: 0 <= i < j < |s| && s[i].role == Controller ==> s[j].role == Controller
      ensures forall i :: 0 <= i < |RouteInfos(root)| ==> Scanned(root)[i].role == Route
    {
      var r, c := RouteInfos(root), ControllerInfos(root);
      LoaderRole(root, Route, config.routesDir, config.maxFileSize);
      LoaderRole(root, Controller, config.controllersDir, config.maxFileSize);
      CollectRole(Listing(root, Parse(config.routesDir)), Loader(root, Route, config.routesDir, config.maxFileSize), Route);
      CollectRole(Listing(root, Parse(config.controllersDir)), Loader(root, Controller, config.controllersDir, config.maxFileSize), Controller);
      var s := Scanned(root);
      assert forall i :: 0 <= i < |r| ==> s[i] == r[i];
      assert forall i :: |r| <= i < |s| ==> s[i] == c[i - |r|];
    }

    /** A route record names a file under the routes root, and its relative
        path is the rest of the path below that root. */
    lemma RouteRecordsInsideRoot(root: Entry, f: FileInfo)
      requires f in RouteInfos(root)
      ensures f.role == Route
      ensures Below(Parse(config.routesDir), f.path)
      ensures f.relativePath == f.path[|Parse(config.routesDir)|..]
      ensures f.content != ""
    {
      var dir := Parse(config.routesDir);
      var ps := Listing(root, dir);
      CollectMembers(ps, Loader(root, Route, config.routesDir, config.maxFileSize), f);
      var i :| 0 <= i < |ps| && CreateFileInfo(root, ps[i], Route, config.routesDir, config.maxFileSize) == Some(f);
      ListingBelow(root, dir, ps[i]);
      RelativeOfDescendant(dir, f.path);
    }

    /** A controller record names a file under the controllers root, and its
        relative path is the rest of the path below that root. */
    lemma ControllerRecordsInsideRoot(root: Entry, f: FileInfo)
      requires f in ControllerInfos(root)
      ensures f.role == Controller
      ensures Below(Parse(config.controllersDir), f.path)
      ensures f.relativePath == f.path[|Parse(config.controllersDir)|..]
      ensures f.content != ""
    {
      var dir := Parse(config.controllersDir);
      var ps := Listing(root, dir);
      CollectMembers(ps, Loader(root, Controller, config.controllersDir, config.maxFileSize), f);
      var i :| 0 <= i < |ps| && CreateFileInfo(root, ps[i], Controller, config.controllersDir, config.maxFileSize) == Some(f);
      ListingBelow(root, dir, ps[i]);
      RelativeOfDescendant(dir, f.path);
    }

    /** When both roots name the same directory, every file is scanned twice:
        once as a route and once, identical but for its role, as a controller. */
    lemma SharedRootScannedTwice(root: Entry)
      requires Parse(config.routesDir) == Parse(config.controllersDir)
      ensures var s := Scanned(root);
              var h := |RouteInfos(root)|;
              && |s| == 2 * h
              && forall i :: 0 <= i < h ==> s[h + i] == s[i].(role := Controller)
    {
      var ps := Listing(root, Parse(config.routesDir));
      forall i | 0 <= i < |ps| {
        LoaderRetag(root, config.routesDir, config.controllersDir, config.maxFileSize, ps[i]);
      }
      CollectRetag(ps, Loader(root, Route, config.routesDir, config.maxFileSize),
                   Loader(root, Controller, config.controllersDir, config.maxFileSize));
    }

    /** The overview lists every file of both listings, including files the
        scan drops for being empty, unreadable or over the size cap. */
    lemma OverviewListsEveryFile(root: Entry, p: Path)
      requires p in Listing(root, Parse(config.routesDir)) || p in Listing(root, Parse(config.controllersDir))
      ensures Contains(Overview(root), Bullet(p))
    {
      var rs, cs := Listing(root, Parse(config.routesDir)), Listing(root, Parse(config.controllersDir));
      var lines := OverviewLines(rs, cs);
      OverviewLayout(rs, cs);
      if p in rs {
        var i :| 0 <= i < |rs| && rs[i] == p;
        JoinWithContains(lines, "\n", 1 + i);
      } else {
        var j :| 0 <= j < |cs| && cs[j] == p;
        JoinWithContains(lines, "\n", 2 + |rs| + j);
      }
    }

    /** A test file name made only of ordinary names lands inside the tests
        directory, at the path the name spells out. */
    lemma TestPathInsideTestsDir(r: AIResponse)
      requires AllNames(Split(r.testFileName))
      ensures TestPath(r) == Parse(config.testsDir) + Split(r.testFileName)
    {
      JoinStrParsed(config.testsDir, r.testFileName);
      NormalizeAppendNames(Parse(config.testsDir), Split(r.testFileName));
      NormalizeIdempotent(Split(config.testsDir));
    }

    /** The name derived for a file lands in the tests directory, mirroring
        the file's place below its scan root. */
    lemma DerivedTestPath(file: FileInfo)
      requires AllNames(file.relativePath) && |file.relativePath| > 0
      ensures TestPath(AIResponse("", GenerateTestFileName(file), None))
           == Parse(config.testsDir) + Dirname(file.relativePath) + [Stem(Basename(file.relativePath)) + TestSuffix]
    {
      var rel := file.relativePath;
      var name := GenerateTestFileName(file);
      assert Normal(rel) && Clean(rel);
      var p := Dirname(rel) + [Stem(Basename(rel)) + TestSuffix];
      assert Parse(name) == p;
      TestName(Basename(rel));
      assert AllNames(p);
      NormalizeIsNormal(Split(name));
      // `name` is the rendering of a normalized clean path, so its pieces are already that path
      assert name == Render(Join(Dirname(rel), [Stem(Basename(rel)) + TestSuffix]));
      NormalizeSnoc(Dirname(rel), Stem(Basename(rel)) + TestSuffix);
      DirnameNormal(rel);
      SplitJoin(p);
      TestPathInsideTestsDir(AIResponse("", name, None));
    }

    /** Two source files at the same place below their roots (say
        `routes/users.ts` and `controllers/users.ts`) get the same derived
        test path, so the later write replaces the earlier one. */
    lemma DerivedNamesCollide(f1: FileInfo, f2: FileInfo)
      requires f1.relativePath == f2.relativePath && f1.role != f2.role
      ensures TestPath(AIResponse("", GenerateTestFileName(f1), None))
           == TestPath(AIResponse("", GenerateTestFileName(f2), None))
    {
    }

    /** The last successful write to a path decides its content. */
    lemma {:induction false} LastWriteWins(disk: Disk, files: map<Path, string>, rs: seq<AIResponse>, j: nat)
      requires j < |rs| && disk.Outcome(TestPath(rs[j])) == Written
      requires forall k :: j < k < |rs| ==> TestPath(rs[k]) != TestPath(rs[j])
      ensures TestPath(rs[j]) in AfterWrites(disk, files, rs)
      ensures AfterWrites(disk, files, rs)[TestPath(rs[j])] == rs[j].generatedTest
    {
      if j < |rs| - 1 {
        assert rs[..|rs| - 1][j] == rs[j];
        LastWriteWins(disk, files, rs[..|rs| - 1], j);
      }
    }

    /** A path no response is written to keeps its content. */
    lemma {:induction false} WritesElsewhere(disk: Disk, files: map<Path, string>, rs: seq<AIResponse>, p: Path)
      requires forall k :: 0 <= k < |rs| ==> TestPath(rs[k]) != p || disk.Outcome(p) != Written
      ensures p in AfterWrites(disk, files, rs) <==> p in files
      ensures p in files ==> AfterWrites(disk, files, rs)[p] == files[p]
    {
      if |rs| > 0 {
        WritesElsewhere(disk, files, rs[..|rs| - 1], p);
      }
    }

    // -------------------------------------------------------------------
    // Operations

    /** `scanFiles()` */
    method ScanFiles(root: Entry) returns (files: seq<FileInfo>)
      ensures files == Scanned(root)
    {
      files := [];
      var routeFiles := ReadDirectory(root, config.routesDir);
      files := AddFileInfos(root, files, routeFiles, Route, config.routesDir);
      assert files == RouteInfos(root);
      var controllerFiles := ReadDirectory(root, config.controllersDir);
      files := AddFileInfos(root, files, controllerFiles, Controller, config.controllersDir);
      assert files == RouteInfos(root) + ControllerInfos(root);
    }

    /** One loop of `scanFiles`: the record of each listed path, when there
        is one, appended to `files` in order. */
    method AddFileInfos(root: Entry, files: seq<FileInfo>, paths: seq<Path>, role: Role, baseDir: string)
      returns (files': seq<FileInfo>)
      ensures files' == files + Collect(paths, Loader(root, role, baseDir, config.maxFileSize))
    {
      files' := files;
      for i := 0 to |paths|
        invariant files' == files + Collect(paths[..i], Loader(root, role, baseDir, config.maxFileSize))
      {
        assert paths[..i + 1][..i] == paths[..i];
        var fileInfo := CreateFileInfo(root, paths[i], role, baseDir, config.maxFileSize);
        if fileInfo.Some? {
          files' := files' + [fileInfo.value];
        }
      }
      assert paths[..|paths|] == paths;
    }

    /** `generateProjectStructure()`. Listing never throws here, so the
        fallback text of the source's catch block is never produced. */
    method GenerateProjectStructure(root: Entry) returns (overview: string)
      ensures overview == Overview(root)
    {
      var routeFiles := ReadDirectory(root, config.routesDir);
      var controllerFiles := ReadDirectory(root, config.controllersDir);
      var structure: seq<string> := [RoutesHeading];
      structure := AddBullets(structure, routeFiles);
      structure := structure + [ControllersHeading];
      structure := AddBullets(structure, controllerFiles);
      overview := JoinWith(structure, "\n");
    }

    /** One `forEach` of `generateProjectStructure`: a line per listed file. */
    method AddBullets(structure: seq<string>, files: seq<Path>) returns (structure': seq<string>)
      ensures structure' == structure + Bullets(files)
    {
      structure' := structure;
      for i := 0 to |files|
        invariant structure' == structure + Bullets(files[..i])
      {
        assert files[..i + 1][..i] == files[..i];
        structure' := structure' + [Bullet(files[i])];
      }
      assert files[..|files|] == files;
    }

    /** `writeTestFiles(responses)`: every response is written in order; a
        failed write is reported and the loop goes on. */
    method WriteTestFiles(responses: seq<AIResponse>, disk: Disk)
      modifies disk
      ensures disk.attempts == old(disk.attempts) + TestPaths(responses)
      ensures disk.files == AfterWrites(disk, old(disk.files), responses)
      ensures disk.dirs == DirsAfterWrites(disk, old(disk.dirs), responses)
    {
      for i := 0 to |responses|
        invariant disk.attempts == old(disk.attempts) + TestPaths(responses[..i])
        invariant disk.files == AfterWrites(disk, old(disk.files), responses[..i])
        invariant disk.dirs == DirsAfterWrites(disk, old(disk.dirs), responses[..i])
      {
        var response := responses[i];
        assert responses[..i + 1][..i] == responses[..i];
        var testPath := JoinStr(config.testsDir, response.testFileName);
        var _ := disk.WriteFile(testPath, response.generatedTest);
      }
      assert responses[..|responses|] == responses;
    }

    /** `showSummary(responses)` */
    method ShowSummary(responses: seq<AIResponse>) returns (summary: Summary)
      ensures summary.generated == |responses|
      ensures summary.dependencies == Dedupe(AllDeps(responses))
    {
      var dependencies: seq<string> := [];
      for i := 0 to |responses|
        invariant dependencies == Dedupe(AllDeps(responses[..i]))
      {
        assert responses[..i + 1][..i] == responses[..i];
        var deps := responses[i].dependencies.GetOr([]);
        assert AllDeps(responses[..i]) + deps[..0] == AllDeps(responses[..i]);
        for j := 0 to |deps|
          invariant dependencies == Dedupe(AllDeps(responses[..i]) + deps[..j])
        {
          assert AllDeps(responses[..i]) + deps[..j + 1] == (AllDeps(responses[..i]) + deps[..j]) + [deps[j]];
          DedupeSnoc(AllDeps(responses[..i]) + deps[..j], deps[j]);
          if deps[j] !in dependencies {
            dependencies := dependencies + [deps[j]];
          }
        }
        assert deps[..|deps|] == deps;
        assert AllDeps(responses[..i + 1]) == AllDeps(responses[..i]) + deps;
      }
      assert responses[..|responses|] == responses;
      summary := Summary(|responses|, dependencies);
    }

    /** `generate()`: nothing is asked or written when no file is found;
        otherwise every scanned file is sent with the project overview, the
        answers are written in order, and the summary covers them all. */
    method Generate(root: Entry, ai: (string, string) -> CallResult, decode: string -> Option<Fields>, disk: Disk)
      returns (report: Report)
      modifies disk
      ensures Scanned(root) == [] ==>
                report == NoFiles && disk.attempts == old(disk.attempts)
                && disk.files == old(disk.files) && disk.dirs == old(disk.dirs)
      ensures Scanned(root) != [] ==>
                var turn := Attempts(Ask(root, ai), decode);
                var responses := Responses(Scanned(root), turn);
                && report == Completed(|Scanned(root)|, Services.Trace(Scanned(root), turn),
                                       Summary(|responses|, Dedupe(AllDeps(responses))))
                && disk.attempts == old(disk.attempts) + TestPaths(responses)
                && disk.files == AfterWrites(disk, old(disk.files), responses)
                && disk.dirs == DirsAfterWrites(disk, old(disk.dirs), responses)
      ensures Generated(root, ai, decode, disk, report, old(disk.files), old(disk.dirs), old(disk.attempts))
    {
      var files := ScanFiles(root);
      if |files| == 0 {
        return NoFiles;
      }
      var projectStructure := GenerateProjectStructure(root);
      var request := TestGenerationRequest(files, FrameworkName(config.testFramework), projectStructure);
      var testResponses, trace := aiService.GenerateTests(request, ai, decode);
      WriteTestFiles(testResponses, disk);
      var summary := ShowSummary(testResponses);
      report := Completed(|files|, trace, summary);
    }
  }
}
