/** File selection and loading (src/utils/fileUtils.ts).

    The file system the tool reads is an abstract tree rooted at the working
    directory. A directory may refuse to be listed (`listable == false`),
    and a file whose bytes cannot be read carries no content. The file
    system the tool writes to is the `Disk` object at the end. */
module FileUtils {
  import opened Wrappers
  import opened Text
  import opened Paths
  import opened Types

  datatype Entry =
    | Dir(name: string, listable: bool, entries: seq<Entry>)
    | File(name: string, size: nat, content: Option<string>)

  /** The entry a normalized path names, found by name from `root`
      (`fs.pathExists` holds exactly when this is `Some`). */
  function Lookup(root: Entry, p: Path): Option<Entry>
    decreases root
  {
    if |p| == 0 then Some(root)
    else match root
      case File(_, _, _) => None
      case Dir(_, _, es) =>
        match ChildIndex(es, p[0])
        case None => None
        case Some(i) => Lookup(es[i], p[1..])
  }

  /** Position of the first entry called `name`. */
  function ChildIndex(es: seq<Entry>, name: string): (r: Option<nat>)
    ensures r.Some? ==> r.value < |es| && es[r.value].name == name
    ensures r.Some? ==> forall k :: 0 <= k < r.value ==> es[k].name != name
    ensures r.None? ==> forall i :: 0 <= i < |es| ==> es[i].name != name
  {
    if |es| == 0 then None
    else if es[0].name == name then Some(0)
    else
      match ChildIndex(es[1..], name)
      case None => None
      case Some(i) => Some(i + 1)
  }

  // ---------------------------------------------------------------------
  // isValidCodeFile

  const ValidExtensions: seq<string> := [".js", ".ts", ".jsx", ".tsx"]

  /** Some recognised extension is a suffix of the name. */
  predicate IsValidCodeFile(fileName: string)
  {
    exists ext :: ext in ValidExtensions && EndsWith(fileName, ext)
  }

  /** The suffix test agrees with `path.extname`, except for the bare
      dot-names `.ts` and the like, which have no extension but still pass. */
  lemma ValidCodeFileByExtension(fileName: string)
    ensures IsValidCodeFile(fileName) <==> Extname(fileName) in ValidExtensions || fileName in ValidExtensions
  {
    if IsValidCodeFile(fileName) {
      var ext :| ext in ValidExtensions && EndsWith(fileName, ext);
      if |fileName| > |ext| {
        assert ext[1..] in {"js", "ts", "jsx", "tsx"};
        ExtnameOfSuffix(fileName, ext);
      } else {
        assert fileName == ext;
      }
    } else {
      assert EndsWith(fileName, Extname(fileName));
      assert EndsWith(fileName, fileName);
    }
  }

  /** Two usual cases: a declaration file passes, a JSON file does not. */
  lemma ValidCodeFileExamples()
    ensures IsValidCodeFile("x.d.ts")
    ensures !IsValidCodeFile("x.json")
  {
    assert EndsWith("x.d.ts", ".ts");
    ValidCodeFileByExtension("x.json");
    assert "x.json"[1] == '.';
    ExtnameOfSuffix("x.json", ".json");
  }

  // ---------------------------------------------------------------------
  // readDirectory

  /** The code files among the first `n` entries of directory `d`, which
      sits at path `dir`: entries in listing order, each subdirectory's
      files spliced in where the subdirectory is listed. A directory is
      descended into whatever its name; a directory that cannot be listed
      contributes nothing. */
  function Walk(d: Entry, dir: Path, n: nat): seq<Path>
    requires d.Dir? && n <= |d.entries|
    decreases d, 0, n
  {
    if n == 0 then [] else Walk(d, dir, n - 1) + EntryFiles(d.entries[n - 1], dir)
  }

  /** The files that entry `e`, listed in the directory at `dir`, adds to a walk. */
  function EntryFiles(e: Entry, dir: Path): seq<Path>
    decreases e, 1
  {
    match e
    case Dir(name, listable, _) => if listable then Walk(e, dir + [name], |e.entries|) else []
    case File(name, _, _) => if IsValidCodeFile(name) then [dir + [name]] else []
  }

  /** What `readDirectory(dirPath)` returns: nothing when the path does
      not exist or cannot be listed, otherwise the walk of that directory. */
  function Listing(root: Entry, dir: Path): seq<Path>
  {
    match Lookup(root, dir)
    case None => []
    case Some(e) => if e.Dir? && e.listable then Walk(e, dir, |e.entries|) else []
  }

  /** `readDirectory(dirPath)` */
  method ReadDirectory(root: Entry, dirPath: string) returns (filePaths: seq<Path>)
    ensures filePaths == Listing(root, Parse(dirPath))
  {
    var dir := Parse(dirPath);
    var found := Lookup(root, dir);
    if found.None? {
      // the directory does not exist: a warning, and no files
      return [];
    }
    var e := found.value;
    if e.File? {
      // listing a file fails, and the failure is caught
      return [];
    }
    filePaths := ReadEntries(e, dir);
  }

  /** The loop of `readDirectory` over one listed directory, recursing
      into subdirectories. */
  method ReadEntries(d: Entry, dir: Path) returns (filePaths: seq<Path>)
    requires d.Dir?
    ensures filePaths == if d.listable then Walk(d, dir, |d.entries|) else []
    decreases d
  {
    if !d.listable {
      // the listing throws, and the failure is caught
      return [];
    }
    filePaths := [];
    for i := 0 to |d.entries|
      invariant filePaths == Walk(d, dir, i)
    {
      var file := d.entries[i];
      var fullPath := dir + [file.name];
      if file.Dir? {
        var subFiles := ReadEntries(file, fullPath);
        filePaths := filePaths + subFiles;
      } else if IsValidCodeFile(file.name) {
        filePaths := filePaths + [fullPath];
      }
    }
  }

  /** `rel` leads from the directory holding `e`, through `e`, to a code
      file, passing only through directories that can be listed. */
  ghost predicate Reaches(e: Entry, rel: Path)
    decreases e
  {
    |rel| > 0 && rel[0] == e.name &&
    match e
    case File(name, _, _) => |rel| == 1 && IsValidCodeFile(name)
    case Dir(_, listable, es) => listable && exists i :: 0 <= i < |es| && Reaches(es[i], rel[1..])
  }

  /** `p` lies strictly below `dir`. */
  predicate Below(dir: Path, p: Path)
  {
    |p| > |dir| && p[..|dir|] == dir
  }

  /** The walk returns exactly the code files reachable from the directory:
      every path it returns names a non-directory entry with a recognised
      name, and every such entry is returned. */
  lemma {:induction false} WalkMembers(d: Entry, dir: Path, n: nat, p: Path)
    requires d.Dir? && n <= |d.entries|
    ensures p in Walk(d, dir, n) <==> Below(dir, p) && exists i :: 0 <= i < n && Reaches(d.entries[i], p[|dir|..])
    decreases d, 0, n
  {
    if n > 0 {
      WalkMembers(d, dir, n - 1, p);
      var e := d.entries[n - 1];
      if p in Walk(d, dir, n) && p !in Walk(d, dir, n - 1) {
        EntryMembers(e, dir, p);
      } else if Below(dir, p) && Reaches(e, p[|dir|..]) {
        EntryMembers(e, dir, p);
      }
    }
  }

  /** One entry's share of a walk. */
  lemma {:induction false} EntryMembers(e: Entry, dir: Path, p: Path)
    ensures p in EntryFiles(e, dir) <==> Below(dir, p) && Reaches(e, p[|dir|..])
    decreases e, 1
  {
    match e
    case File(name, _, _) =>
      if p == dir + [name] {
        assert p[..|dir|] == dir && p[|dir|..] == [name];
      }
      if Below(dir, p) && Reaches(e, p[|dir|..]) {
        assert p[|dir|..] == [name];
        assert p == p[..|dir|] + p[|dir|..];
      }
    case Dir(name, listable, es) =>
      if listable {
        var sub := dir + [name];
        WalkMembers(e, sub, |es|, p);
        if Below(dir, p) && |p| > |dir| + 1 {
          assert (p[..|sub|] == sub) <==> (p[..|dir|] == dir && p[|dir|] == name);
          assert p[|dir|..][1..] == p[|sub|..];
        } else if Below(dir, p) {
          assert |p[|dir|..]| == 1;
        }
      }
  }

  /** The subdirectory of the example below, walked on its own. */
  lemma SubdirectoryExample()
    ensures Walk(Dir("x.js", true, [File("x.d.ts", 1, Some("a")), File("x.json", 1, Some("b"))]), ["x.js"], 2)
         == [["x.js", "x.d.ts"]]
  {
    var a, b := File("x.d.ts", 1, Some("a")), File("x.json", 1, Some("b"));
    var sub := Dir("x.js", true, [a, b]);
    ValidCodeFileExamples();
    assert EntryFiles(a, ["x.js"]) == [["x.js"] + [a.name]];
    assert ["x.js"] + ["x.d.ts"] == ["x.js", "x.d.ts"];
    assert EntryFiles(b, ["x.js"]) == [];
    assert Walk(sub, ["x.js"], 1) == Walk(sub, ["x.js"], 0) + EntryFiles(a, ["x.js"]);
    assert Walk(sub, ["x.js"], 2) == Walk(sub, ["x.js"], 1) + EntryFiles(b, ["x.js"]);
  }

  /** A subdirectory is entered even when its name looks like a code file,
      and files with other extensions are left out. */
  lemma DirectoryNamedLikeCodeFile()
    ensures Listing(Dir("", true, [Dir("x.js", true, [File("x.d.ts", 1, Some("a")), File("x.json", 1, Some("b"))])]), [])
         == [["x.js", "x.d.ts"]]
  {
    var sub := Dir("x.js", true, [File("x.d.ts", 1, Some("a")), File("x.json", 1, Some("b"))]);
    var root := Dir("", true, [sub]);
    SubdirectoryExample();
    assert [] + ["x.js"] == ["x.js"];
    assert EntryFiles(sub, []) == Walk(sub, ["x.js"], 2);
    assert Walk(root, [], 1) == Walk(root, [], 0) + EntryFiles(sub, []);
  }

  /** A directory is never listed itself, whatever its name. */
  lemma DirectoryNeverListed(e: Entry, dir: Path)
    requires e.Dir?
    ensures dir + [e.name] !in EntryFiles(e, dir)
  {
    var p := dir + [e.name];
    EntryMembers(e, dir, p);
    assert p[|dir|..] == [e.name];
  }

  /** A tree a real file system can hold: within each directory the names
      are distinct ordinary names. */
  predicate WellFormed(e: Entry)
    decreases e
  {
    match e
    case File(_, _, _) => true
    case Dir(_, _, es) =>
      && (forall i :: 0 <= i < |es| ==> IsName(es[i].name) && WellFormed(es[i]))
      && (forall i, j :: 0 <= i < j < |es| ==> es[i].name != es[j].name)
  }

  /** With distinct names, looking a name up finds the entry that has it. */
  lemma ChildIndexDistinct(es: seq<Entry>, i: nat)
    requires i < |es| && forall k, l :: 0 <= k < l < |es| ==> es[k].name != es[l].name
    ensures ChildIndex(es, es[i].name) == Some(i)
  {
  }

  /** Every entry below a well-formed tree is well formed. */
  lemma {:induction false} LookupWellFormed(root: Entry, p: Path)
    requires WellFormed(root) && Lookup(root, p).Some?
    ensures WellFormed(Lookup(root, p).value)
    decreases |p|
  {
    if |p| > 0 {
      var i := ChildIndex(root.entries, p[0]).value;
      LookupWellFormed(root.entries[i], p[1..]);
    }
  }

  /** Looking up `dir + rel` is looking up `rel` from the entry at `dir`. */
  lemma {:induction false} LookupAppend(root: Entry, dir: Path, rel: Path)
    requires Lookup(root, dir).Some?
    ensures Lookup(root, dir + rel) == Lookup(Lookup(root, dir).value, rel)
    decreases |dir|
  {
    if |dir| == 0 {
      assert dir + rel == rel;
    } else {
      var i := ChildIndex(root.entries, dir[0]).value;
      assert (dir + rel)[0] == dir[0];
      assert (dir + rel)[1..] == dir[1..] + rel;
      LookupAppend(root.entries[i], dir[1..], rel);
    }
  }

  /** The path a walk reaches through `e` leads, by name, to a code file. */
  lemma {:induction false} ReachesFound(e: Entry, rel: Path)
    requires WellFormed(e) && Reaches(e, rel)
    ensures var f := Lookup(e, rel[1..]);
            f.Some? && f.value.File? && f.value.name == rel[|rel| - 1] && IsValidCodeFile(f.value.name)
    decreases e
  {
    match e
    case File(_, _, _) =>
      assert rel[1..] == [];
    case Dir(_, _, es) =>
      var i :| 0 <= i < |es| && Reaches(es[i], rel[1..]);
      ChildIndexDistinct(es, i);
      ReachesFound(es[i], rel[1..]);
      assert rel[1..][1..] == rel[2..];
  }

  /** In a well-formed tree every listed path names a code file, found by
      name from the root: reading a listed path reads the listed file. */
  lemma ListedPathIsFile(root: Entry, dir: Path, p: Path)
    requires WellFormed(root) && p in Listing(root, dir)
    ensures var f := Lookup(root, p);
            f.Some? && f.value.File? && f.value.name == Basename(p) && IsValidCodeFile(Basename(p))
  {
    var d := Lookup(root, dir).value;
    LookupWellFormed(root, dir);
    WalkMembers(d, dir, |d.entries|, p);
    var rel := p[|dir|..];
    ReachedChildFound(d, rel);
    assert p == dir + rel;
    LookupAppend(root, dir, rel);
  }

  /** A path some child of a well-formed directory reaches leads, by name
      from that directory, to a code file. */
  lemma ReachedChildFound(d: Entry, rel: Path)
    requires WellFormed(d) && d.Dir? && exists i :: 0 <= i < |d.entries| && Reaches(d.entries[i], rel)
    ensures var f := Lookup(d, rel);
            f.Some? && f.value.File? && f.value.name == rel[|rel| - 1] && IsValidCodeFile(f.value.name)
  {
    var i :| 0 <= i < |d.entries| && Reaches(d.entries[i], rel);
    ChildIndexDistinct(d.entries, i);
    ReachesFound(d.entries[i], rel);
  }

  // ---------------------------------------------------------------------
  // readFileContent and createFileInfo

  /** `readFileContent(filePath, maxSize)`: the whole text of a readable file
      of at most `maxSize` bytes, and `""` in every other case. */
  function ReadFileContent(root: Entry, filePath: Path, maxSize: int): (r: string)
    ensures r != "" ==> Lookup(root, filePath).Some? && Lookup(root, filePath).value.File?
    ensures (Lookup(root, filePath).Some? && Lookup(root, filePath).value.File?) ==>
              var f := Lookup(root, filePath).value;
              && (f.size > maxSize ==> r == "")
              && (f.size <= maxSize ==> r == f.content.GetOr(""))
  {
    match Lookup(root, filePath)
    case None => ""                      // the stat fails
    case Some(Dir(_, _, _)) => ""        // reading a directory fails
    case Some(File(_, size, content)) =>
      if size > maxSize then "" else content.GetOr("")
  }

  /** The size cap is inclusive: a file of exactly `maxSize` bytes is still read. */
  lemma SizeCapIsInclusive(root: Entry, filePath: Path, maxSize: nat, c: string)
    requires Lookup(root, filePath) == Some(File(Basename(filePath), maxSize, Some(c)))
    ensures ReadFileContent(root, filePath, maxSize) == c
  {
  }

  /** `createFileInfo(filePath, type, baseDir, maxSize)`: no record for an
      empty, oversized or unreadable file; otherwise a record that keeps
      the path, the role, and the path relative to the scan root. */
  function CreateFileInfo(root: Entry, filePath: Path, role: Role, baseDir: string, maxSize: int): (r: Option<FileInfo>)
    ensures r.None? <==> ReadFileContent(root, filePath, maxSize) == ""
    ensures r.Some? ==>
              && r.value.path == filePath
              && r.value.role == role
              && r.value.content == ReadFileContent(root, filePath, maxSize)
              && r.value.relativePath == Relative(Parse(baseDir), filePath)
  {
    var content := ReadFileContent(root, filePath, maxSize);
    if content == "" then None
    else Some(FileInfo(filePath, content, role, Relative(Parse(baseDir), filePath)))
  }

  /** A loaded record's content is non-empty and comes from a file within the size cap. */
  lemma FileInfoWithinCap(root: Entry, filePath: Path, role: Role, baseDir: string, maxSize: int)
    requires CreateFileInfo(root, filePath, role, baseDir, maxSize).Some?
    ensures var f := Lookup(root, filePath);
            f.Some? && f.value.File? && f.value.size <= maxSize &&
            f.value.content == Some(CreateFileInfo(root, filePath, role, baseDir, maxSize).value.content) &&
            CreateFileInfo(root, filePath, role, baseDir, maxSize).value.content != ""
  {
  }

  /** For a file found under its scan root, joining the root and the
      relative path gives back the file's path. */
  lemma RelativePathRoundTrip(base: Path, filePath: Path)
    requires Below(base, filePath) && Normal(filePath)
    ensures Join(base, Relative(base, filePath)) == filePath
  {
    RelativeOfDescendant(base, filePath);
    assert base + filePath[|base|..] == filePath;
    NormalizeNormal(filePath);
  }

  // ---------------------------------------------------------------------
  // writeFile

  datatype WriteResult = Written | DirFailed | WriteFailed

  /** The directories `ensureDir(dir)` creates: `dir` and every ancestor. */
  function Ancestors(dir: Path): set<Path>
  {
    set k | 1 <= k <= |dir| :: dir[..k]
  }

  /** The output file system. `uncreatable` and `unwritable` stand for the
      I/O failures the environment may produce. `attempts` records every
      write the tool asked for, in order. */
  class Disk {
    var files: map<Path, string>
    var dirs: set<Path>
    var attempts: seq<Path>
    const uncreatable: set<Path>
    const unwritable: set<Path>

    constructor (files: map<Path, string>, dirs: set<Path>, uncreatable: set<Path>, unwritable: set<Path>)
      ensures this.files == files && this.dirs == dirs && attempts == []
      ensures this.uncreatable == uncreatable && this.unwritable == unwritable
    {
      this.files := files;
      this.dirs := dirs;
      this.attempts := [];
      this.uncreatable := uncreatable;
      this.unwritable := unwritable;
    }

    /** The outcome of writing to `filePath` on this disk. */
    function Outcome(filePath: Path): WriteResult
    {
      if Dirname(filePath) in uncreatable then DirFailed
      else if filePath in unwritable then WriteFailed
      else Written
    }

    /** `writeFile(filePath, content)`: create the parent directory, then
        write; a failure at either step is reported to the caller, and a
        failed directory creation means nothing is written. */
    method WriteFile(filePath: Path, content: string) returns (r: WriteResult)
      modifies this
      ensures r == Outcome(filePath)
      ensures attempts == old(attempts) + [filePath]
      ensures dirs == if r == DirFailed then old(dirs) else old(dirs) + Ancestors(Dirname(filePath))
      ensures files == if r == Written then old(files)[filePath := content] else old(files)
      ensures r == Written ==> Dirname(filePath) == [] || Dirname(filePath) in dirs
    {
      attempts := attempts + [filePath];
      var dir := Dirname(filePath);
      if dir in uncreatable {
        return DirFailed;
      }
      dirs := dirs + Ancestors(dir);
      assert |dir| > 0 ==> dir[..|dir|] == dir;
      if filePath in unwritable {
        return WriteFailed;
      }
      files := files[filePath := content];
      r := Written;
    }
  }
}
