/** Prompting the model and reading its replies (src/services/aiService.ts).

    The hosted model is a function `ai` from (model name, prompt) to either
    the reply text or a transport error. `JSON.parse` is a partial decoder
    `decode` that yields the three fields of the reply object when the
    captured text is valid JSON; each field is absent (`None`, which also
    stands for JSON `null`) or has the type the reply format asks for. */
module Services {
  import opened Wrappers
  import opened Text
  import opened Paths
  import opened Types

  datatype Fields = Fields(
    generatedTest: Option<string>,
    testFileName: Option<string>,
    dependencies: Option<seq<string>>)

  datatype CallResult = Reply(text: string) | TransportError

  /** What the per-file loop does, in order: one call per file, and the
      one-second pause that follows a successful one. */
  datatype Event = Called(file: Path) | Delayed(ms: nat)

  const RateLimitDelay: nat := 1000
  const TestSuffix: string := ".test.ts"

  // ---------------------------------------------------------------------
  // The JSON span: `response.match(/\{[\s\S]*\}/)`

  /** `s[i..j]` runs from the first `{` of `s` to its last `}`. */
  predicate SpanAt(s: string, i: int, j: int)
  {
    0 <= i < j < |s| && s[i] == '{' && s[j] == '}' && '{' !in s[..i] && '}' !in s[j + 1..]
  }

  /** The greedy match of `\{[\s\S]*\}`: from the first `{` to the last `}`,
      present exactly when some `}` follows some `{`. */
  function JsonSpan(s: string): (r: Option<string>)
    ensures r.Some? <==> exists i, j :: 0 <= i < j < |s| && s[i] == '{' && s[j] == '}'
    ensures r.Some? ==> exists i, j :: SpanAt(s, i, j) && r.value == s[i..j + 1]
  {
    match FirstIndexOf(s, '{')
    case None => None
    case Some(i) =>
      match LastIndexOf(s, '}')
      case None => None
      case Some(j) =>
        if i < j then
          assert SpanAt(s, i, j);
          Some(s[i..j + 1])
        else
          assert forall i', j' :: 0 <= i' < j' < |s| && s[i'] == '{' && s[j'] == '}' ==> i <= i' && j' <= j;
          None
  }

  /** A reply that is exactly one brace-delimited text is captured whole. */
  lemma SpanOfObject(s: string)
    requires |s| >= 2 && s[0] == '{' && s[|s| - 1] == '}'
    ensures JsonSpan(s) == Some(s)
  {
    var i := FirstIndexOf(s, '{').value;
    var j := LastIndexOf(s, '}').value;
    assert i == 0;
    assert s[0..|s|] == s;
  }

  // ---------------------------------------------------------------------
  // Names derived from the source file

  /** The path text `path.relative` returns: `""` for the scan root itself. */
  function RelativeText(p: Path): string
  {
    if |p| == 0 then "" else Render(p)
  }

  /** `generateTestFileName(file)`: the source file's directory (relative to
      its scan root) joined with its name, extension dropped, plus `.test.ts`. */
  function GenerateTestFileName(file: FileInfo): (r: string)
    ensures EndsWith(r, TestSuffix)
    ensures Normal(file.relativePath) && Clean(file.relativePath) ==>
              Parse(r) == Dirname(file.relativePath) + [Stem(Basename(file.relativePath)) + TestSuffix]
  {
    var rel := file.relativePath;
    TestPathShape(rel);
    Render(Join(Dirname(rel), [Stem(Basename(rel)) + TestSuffix]))
  }

  lemma TestPathShape(rel: Path)
    ensures var name := Stem(Basename(rel)) + TestSuffix;
            var joined := Join(Dirname(rel), [name]);
            && EndsWith(Render(joined), TestSuffix)
            && (Normal(rel) && Clean(rel) ==> Parse(Render(joined)) == Dirname(rel) + [name])
  {
    var dir := Dirname(rel);
    var name := Stem(Basename(rel)) + TestSuffix;
    TestName(Basename(rel));
    var joined := Join(dir, [name]);
    NormalizeSnoc(dir, name);
    assert joined == Normalize(dir) + [name];
    JoinWithEndsWith(joined, "/", TestSuffix);
    if Normal(rel) && Clean(rel) {
      DirnameNormal(rel);
      assert Clean(joined) by {
        NormalizeIsNormal(dir);
      }
      ParseRender(joined);
    }
  }

  /** The test file's own name: never empty, `.` or `..`, ends in the suffix,
      and has no separator when the base name had none. */
  lemma TestName(base: string)
    ensures var name := Stem(base) + TestSuffix;
            && IsSegment(name) && name != ".." && EndsWith(name, TestSuffix)
            && ('/' !in base ==> '/' !in name)
  {
    var stem := Stem(base);
    var name := stem + TestSuffix;
    assert name[|name| - |TestSuffix|..] == TestSuffix;
    assert |name| >= 8;
    if '/' !in base {
      assert stem + Extname(base) == base;
      assert '/' !in stem;
      assert '/' !in TestSuffix;
    }
  }

  /** The directory of a normalized, clean path is normalized and clean. */
  lemma DirnameNormal(p: Path)
    requires Normal(p) && Clean(p)
    ensures Normal(Dirname(p)) && Clean(Dirname(p))
    ensures Normalize(Dirname(p)) == Dirname(p)
  {
    var dir := Dirname(p);
    assert forall k :: 0 <= k < |dir| ==> dir[k] == p[k];
    NormalizeNormal(dir);
  }

  /** `getFileExtension(filePath)`: the extension without its dot, or
      `"javascript"` when there is none (or it is a bare dot). */
  function GetFileExtension(filePath: Path): (r: string)
    ensures r != ""
    ensures |Extname(Basename(filePath))| > 1 ==> "." + r == Extname(Basename(filePath))
    ensures |Extname(Basename(filePath))| <= 1 ==> r == "javascript"
  {
    var ext := Extname(Basename(filePath));
    var tag := if |ext| == 0 then "" else ext[1..];
    if tag != "" then tag else "javascript"
  }

  // ---------------------------------------------------------------------
  // createPrompt

  /** The sentence that names the framework. */
  function FrameworkPhrase(testFramework: string): string
  {
    "Generate comprehensive " + testFramework + " tests"
  }

  function Intro(testFramework: string, role: Role): string
  {
    "You are an expert test generator. " + FrameworkPhrase(testFramework)
    + (" for the following " + RoleName(role) + " file.\n\n")
  }

  function StructureLine(projectStructure: string): string
  {
    "PROJECT STRUCTURE:\n" + projectStructure + "\n"
  }

  function FileTypeLine(role: Role): string
  {
    "FILE TYPE: " + RoleName(role) + "\n"
  }

  function FilePathLine(relativePath: Path): string
  {
    "FILE PATH: " + RelativeText(relativePath) + "\n"
  }

  /** The content between code fences tagged with the language. */
  function Fenced(tag: string, content: string): string
  {
    "```" + tag + "\n" + content + "\n```"
  }

  function FileBlock(file: FileInfo): string
  {
    FileTypeLine(file.role) + FilePathLine(file.relativePath) + "FILE CONTENT:\n"
    + Fenced(GetFileExtension(file.path), file.content) + "\n\n"
  }

  function Requirements(testFramework: string): string
  {
    "REQUIREMENTS:\n"
    + "1. Generate complete, runnable " + testFramework + " tests\n"
    + "2. Include imports and setup code\n"
    + "3. Test all exported functions/methods/routes\n"
    + "4. Include both positive and negative test cases\n"
    + "5. Mock external dependencies appropriately\n"
    + "6. Follow best practices for " + testFramework + "\n"
    + "7. Include proper error handling tests\n"
    + "8. Test edge cases and boundary conditions\n\n"
  }

  const RoleInstructions: string :=
    "For ROUTES:\n"
    + "- Test HTTP methods (GET, POST, PUT, DELETE, etc.)\n"
    + "- Test request/response handling\n"
    + "- Test middleware functionality\n"
    + "- Test error responses and status codes\n"
    + "- Mock database calls and external services\n\n"
    + "For CONTROLLERS:\n"
    + "- Test all public methods\n"
    + "- Test input validation\n"
    + "- Test business logic\n"
    + "- Test error handling\n"
    + "- Mock dependencies and services\n\n"

  const ResponseFormat: string :=
    "RESPONSE FORMAT:\n"
    + "Return a JSON object with the following structure:\n"
    + "{\n"
    + "  \"generatedTest\": \"complete test code here\",\n"
    + "  \"testFileName\": \"appropriate test file name with .test.ts or .test.js extension\",\n"
    + "  \"dependencies\": [\"array of additional npm packages needed for testing\"]\n"
    + "}\n\n"
    + "Generate the tests now:"

  /** The instructions that close every prompt. */
  function Instructions(testFramework: string): string
  {
    Requirements(testFramework) + RoleInstructions + ResponseFormat
  }

  /** The part of a prompt that depends on the file and the request, then `closing`. */
  function Compose(file: FileInfo, testFramework: string, projectStructure: string, closing: string): string
  {
    Intro(testFramework, file.role) + (StructureLine(projectStructure) + "\n") + FileBlock(file) + closing
  }

  /** `createPrompt(file, testFramework, projectStructure)` */
  function CreatePrompt(file: FileInfo, testFramework: string, projectStructure: string): string
  {
    Compose(file, testFramework, projectStructure, Instructions(testFramework))
  }

  lemma ContainsSelf(t: string)
    ensures Contains(t, t)
  {
    assert t[0..|t|] == t;
    ContainsAt(t, t, 0);
  }

  lemma ContainsLeft(a: string, b: string, t: string)
    requires Contains(a, t)
    ensures Contains(a + b, t)
  {
    var i :| OccursAt(a, t, i);
    assert (a + b)[i..i + |t|] == a[i..i + |t|];
    ContainsAt(a + b, t, i);
  }

  lemma ContainsRight(a: string, b: string, t: string)
    requires Contains(b, t)
    ensures Contains(a + b, t)
  {
    var i :| OccursAt(b, t, i);
    assert (a + b)[|a| + i..|a| + i + |t|] == b[i..i + |t|];
    ContainsAt(a + b, t, |a| + i);
  }

  /** Text in one of the first three parts of a four-part text is in the whole. */
  lemma ContainsInHead(a: string, b: string, c: string, d: string, t: string)
    requires Contains(a, t) || Contains(b, t) || Contains(c, t)
    ensures Contains(a + b + c + d, t)
  {
    if Contains(a, t) {
      ContainsLeft(a, b, t);
    } else if Contains(b, t) {
      ContainsRight(a, b, t);
    }
    if Contains(a + b, t) {
      ContainsLeft(a + b, c, t);
    } else {
      ContainsRight(a + b, c, t);
    }
    ContainsLeft(a + b + c, d, t);
  }

  /** Whatever the instructions, the prompt embeds the framework, the
      file's role and relative path, the project overview, and the file's
      content fenced with a tag made from the file's extension. */
  lemma ComposeEmbedsFile(file: FileInfo, testFramework: string, projectStructure: string, closing: string)
    ensures var p := Compose(file, testFramework, projectStructure, closing);
            && Contains(p, "Generate comprehensive " + testFramework + " tests")
            && Contains(p, "PROJECT STRUCTURE:\n" + projectStructure + "\n")
            && Contains(p, "FILE TYPE: " + RoleName(file.role) + "\n")
            && Contains(p, "FILE PATH: " + RelativeText(file.relativePath) + "\n")
            && Contains(p, "```" + GetFileExtension(file.path) + "\n" + file.content + "\n```")
  {
    var a, b, c := Intro(testFramework, file.role), StructureLine(projectStructure) + "\n", FileBlock(file);
    var phrase := FrameworkPhrase(testFramework);
    var lead := "You are an expert test generator. ";
    ContainsSelf(phrase);
    ContainsRight(lead, phrase, phrase);
    ContainsLeft(lead + phrase, " for the following " + RoleName(file.role) + " file.\n\n", phrase);
    ContainsInHead(a, b, c, closing, phrase);

    var line := StructureLine(projectStructure);
    ContainsSelf(line);
    ContainsLeft(line, "\n", line);
    ContainsInHead(a, b, c, closing, line);

    var ty, pa := FileTypeLine(file.role), FilePathLine(file.relativePath);
    var fe := Fenced(GetFileExtension(file.path), file.content);
    var co := "FILE CONTENT:\n";
    ContainsSelf(ty);
    ContainsSelf(pa);
    ContainsSelf(fe);
    ContainsLeft(ty, pa, ty);
    ContainsRight(ty, pa, pa);
    ContainsLeft(ty + pa, co, ty);
    ContainsLeft(ty + pa, co, pa);
    ContainsRight(ty + pa + co, fe, fe);
    ContainsLeft(ty + pa + co, fe, ty);
    ContainsLeft(ty + pa + co, fe, pa);
    ContainsLeft(ty + pa + co + fe, "\n\n", ty);
    ContainsLeft(ty + pa + co + fe, "\n\n", pa);
    ContainsLeft(ty + pa + co + fe, "\n\n", fe);
    ContainsInHead(a, b, c, closing, ty);
    ContainsInHead(a, b, c, closing, pa);
    ContainsInHead(a, b, c, closing, fe);
  }

  /** In particular the prompt `createPrompt` builds embeds all of them. */
  lemma PromptEmbedsFile(file: FileInfo, testFramework: string, projectStructure: string)
    ensures var p := CreatePrompt(file, testFramework, projectStructure);
            && Contains(p, "Generate comprehensive " + testFramework + " tests")
            && Contains(p, "PROJECT STRUCTURE:\n" + projectStructure + "\n")
            && Contains(p, "FILE TYPE: " + RoleName(file.role) + "\n")
            && Contains(p, "FILE PATH: " + RelativeText(file.relativePath) + "\n")
            && Contains(p, "```" + GetFileExtension(file.path) + "\n" + file.content + "\n```")
  {
    ComposeEmbedsFile(file, testFramework, projectStructure, Instructions(testFramework));
  }

  /** The prompt depends on the file's path only through its extension. */
  lemma PromptDependsOnlyOnExtension(f1: FileInfo, f2: FileInfo, testFramework: string, projectStructure: string)
    requires f1.role == f2.role && f1.relativePath == f2.relativePath && f1.content == f2.content
    requires Extname(Basename(f1.path)) == Extname(Basename(f2.path))
    ensures CreatePrompt(f1, testFramework, projectStructure) == CreatePrompt(f2, testFramework, projectStructure)
  {
    assert GetFileExtension(f1.path) == GetFileExtension(f2.path);
    assert FileBlock(f1) == FileBlock(f2);
  }

  // ---------------------------------------------------------------------
  // parseAIResponse

  /** The reply falls back to raw text: no JSON span, or a span that does not decode. */
  predicate Unparsed(response: string, decode: string -> Option<Fields>)
  {
    JsonSpan(response).None? || decode(JsonSpan(response).value).None?
  }

  /** `parseAIResponse(response, file)`: fields of a decoded reply where they
      are present and truthy, defaults one by one where they are not, and a
      whole raw-text result when nothing decodes. It never fails: the result
      always has a file name and a dependency list, and its test body is
      empty only when the reply was. */
  function ParseAIResponse(response: string, file: FileInfo, decode: string -> Option<Fields>): (r: AIResponse)
    ensures r.dependencies.Some? && r.testFileName != ""
    ensures r.generatedTest == "" ==> response == ""
    ensures Unparsed(response, decode) ==> r == AIResponse(response, GenerateTestFileName(file), Some([]))
    ensures !Unparsed(response, decode) ==>
              var f := decode(JsonSpan(response).value).value;
              && (f.generatedTest.Some? && f.generatedTest.value != "" ==> r.generatedTest == f.generatedTest.value)
              && (!(f.generatedTest.Some? && f.generatedTest.value != "") ==> r.generatedTest == response)
              && (f.testFileName.Some? && f.testFileName.value != "" ==> r.testFileName == f.testFileName.value)
              && (!(f.testFileName.Some? && f.testFileName.value != "") ==> r.testFileName == GenerateTestFileName(file))
              && (f.dependencies.Some? ==> r.dependencies == f.dependencies)
              && (f.dependencies.None? ==> r.dependencies == Some([]))
  {
    match JsonSpan(response)
    case None => AIResponse(response, GenerateTestFileName(file), Some([]))
    case Some(span) =>
      match decode(span)
      case None => AIResponse(response, GenerateTestFileName(file), Some([]))
      case Some(parsed) =>
        AIResponse(
          Or(parsed.generatedTest, response),
          Or(parsed.testFileName, GenerateTestFileName(file)),
          Some(parsed.dependencies.GetOr([])))
  }

  /** A reply that is exactly a JSON object with all three fields set yields
      those fields unchanged. */
  lemma ParseWholeObject(response: string, file: FileInfo, decode: string -> Option<Fields>,
                         test: string, name: string, deps: seq<string>)
    requires |response| >= 2 && response[0] == '{' && response[|response| - 1] == '}'
    requires decode(response) == Some(Fields(Some(test), Some(name), Some(deps)))
    requires test != "" && name != ""
    ensures ParseAIResponse(response, file, decode) == AIResponse(test, name, Some(deps))
  {
    SpanOfObject(response);
  }

  /** A reply in which no `}` follows a `{` (plain prose, or `}{`) is kept
      verbatim as the test body, under a derived name ending in `.test.ts`. */
  lemma ParseProse(response: string, file: FileInfo, decode: string -> Option<Fields>)
    requires !exists i, j :: 0 <= i < j < |response| && response[i] == '{' && response[j] == '}'
    ensures var r := ParseAIResponse(response, file, decode);
            r.generatedTest == response && EndsWith(r.testFileName, TestSuffix) && r.dependencies == Some([])
  {
  }

  /** A missing test body falls back to the whole reply, not to the captured
      span, and a missing name to the derived one. */
  lemma ParseDefaultsPerField(response: string, file: FileInfo, decode: string -> Option<Fields>)
    requires JsonSpan(response).Some?
    requires decode(JsonSpan(response).value) == Some(Fields(None, None, None))
    ensures ParseAIResponse(response, file, decode) == AIResponse(response, GenerateTestFileName(file), Some([]))
  {
  }

  // ---------------------------------------------------------------------
  // generateTests

  /** The model as the loop sees it: one call per file, with that file's prompt. */
  type Ask = FileInfo -> CallResult

  /** How the service builds the prompt of one file. */
  type PromptBuilder = (FileInfo, string, string) -> string

  /** The call the service makes for each file of a request. */
  function Asker(model: string, ai: (string, string) -> CallResult, prompts: PromptBuilder,
                 testFramework: string, projectStructure: string): Ask
  {
    file => ai(model, prompts(file, testFramework, projectStructure))
  }

  /** One file's turn in the loop: the reply parsed, or nothing when the call failed. */
  function Attempt(file: FileInfo, ask: Ask, decode: string -> Option<Fields>): Option<AIResponse>
  {
    match ask(file)
    case TransportError => None
    case Reply(text) => Some(ParseAIResponse(text, file, decode))
  }

  /** `Attempt` for every file. */
  function Attempts(ask: Ask, decode: string -> Option<Fields>): FileInfo -> Option<AIResponse>
  {
    file => Attempt(file, ask, decode)
  }

  /** The responses of the loop over `files`, where `attempt` is one file's turn. */
  function Responses(files: seq<FileInfo>, attempt: FileInfo -> Option<AIResponse>): seq<AIResponse>
  {
    if |files| == 0 then []
    else
      var last := attempt(files[|files| - 1]);
      Responses(files[..|files| - 1], attempt) + (if last.Some? then [last.value] else [])
  }

  /** One file's events: its call, then the pause when the turn succeeded. */
  function Turn(file: FileInfo, succeeded: bool): seq<Event>
  {
    [Called(file.relativePath)] + (if succeeded then [Delayed(RateLimitDelay)] else [])
  }

  /** The calls and pauses of the loop over `files`. */
  function Trace(files: seq<FileInfo>, attempt: FileInfo -> Option<AIResponse>): seq<Event>
  {
    if |files| == 0 then []
    else
      var file := files[|files| - 1];
      Trace(files[..|files| - 1], attempt) + Turn(file, attempt(file).Some?)
  }

  /** The positions, in increasing order, of the files whose turn produced a response. */
  function Succeeded(files: seq<FileInfo>, attempt: FileInfo -> Option<AIResponse>): (idx: seq<nat>)
    ensures forall k :: 0 <= k < |idx| ==> idx[k] < |files|
    ensures forall k, l :: 0 <= k < l < |idx| ==> idx[k] < idx[l]
    ensures forall i :: 0 <= i < |files| ==> (i in idx <==> attempt(files[i]).Some?)
  {
    if |files| == 0 then []
    else
      var n := |files| - 1;
      var init := Succeeded(files[..n], attempt);
      assert forall i :: 0 <= i < n ==> files[..n][i] == files[i];
      assert forall i :: 0 <= i < n ==> (i in init + [n] <==> i in init);
      assert n !in init;
      if attempt(files[n]).Some? then init + [n] else init
  }

  /** A turn produces a response exactly when the call gets a reply. */
  lemma AttemptSucceedsOnReply(ask: Ask, decode: string -> Option<Fields>, file: FileInfo)
    ensures Attempts(ask, decode)(file).Some? <==> ask(file).Reply?
    ensures ask(file).Reply? ==> Attempts(ask, decode)(file) == Some(ParseAIResponse(ask(file).text, file, decode))
  {
  }

  /** The loop keeps input order and yields exactly one response per file
      whose turn succeeded: the k-th response is the k-th successful file's. */
  lemma {:induction false} ResponsesAreSuccesses(files: seq<FileInfo>, attempt: FileInfo -> Option<AIResponse>)
    ensures var rs := Responses(files, attempt);
            var idx := Succeeded(files, attempt);
            && |rs| == |idx| <= |files|
            && forall k :: 0 <= k < |rs| ==> Some(rs[k]) == attempt(files[idx[k]])
  {
    if |files| > 0 {
      var n := |files| - 1;
      ResponsesAreSuccesses(files[..n], attempt);
      IncreasingBounded(Succeeded(files, attempt), |files|);
      assert forall i :: 0 <= i < n ==> files[..n][i] == files[i];
    }
  }

  /** A strictly increasing sequence of positions below `n` has at most `n` elements. */
  lemma {:induction false} IncreasingBounded(idx: seq<nat>, n: nat)
    requires forall k :: 0 <= k < |idx| ==> idx[k] < n
    requires forall k, l :: 0 <= k < l < |idx| ==> idx[k] < idx[l]
    ensures |idx| <= n
  {
    if |idx| > 0 {
      IncreasingBounded(idx[..|idx| - 1], idx[|idx| - 1]);
    }
  }

  /** A failed call drops only its own file: the loop over `a + b` is the
      loop over `a` followed by the loop over `b`. */
  lemma {:induction false} ResponsesAppend(a: seq<FileInfo>, b: seq<FileInfo>, attempt: FileInfo -> Option<AIResponse>)
    ensures Responses(a + b, attempt) == Responses(a, attempt) + Responses(b, attempt)
  {
    if |b| == 0 {
      assert a + b == a;
    } else {
      var n := |b| - 1;
      ResponsesAppend(a, b[..n], attempt);
      assert (a + b)[..|a + b| - 1] == a + b[..n];
      var last := attempt(b[n]);
      var tail := if last.Some? then [last.value] else [];
      calc {
        Responses(a + b, attempt);
        Responses(a + b[..n], attempt) + tail;
        (Responses(a, attempt) + Responses(b[..n], attempt)) + tail;
        Responses(a, attempt) + (Responses(b[..n], attempt) + tail);
      }
    }
  }

  /** The same for the calls and pauses. */
  lemma {:induction false} TraceAppend(a: seq<FileInfo>, b: seq<FileInfo>, attempt: FileInfo -> Option<AIResponse>)
    ensures Trace(a + b, attempt) == Trace(a, attempt) + Trace(b, attempt)
  {
    if |b| == 0 {
      assert a + b == a;
    } else {
      var n := |b| - 1;
      TraceAppend(a, b[..n], attempt);
      assert (a + b)[..|a + b| - 1] == a + b[..n];
      var tail := Turn(b[n], attempt(b[n]).Some?);
      calc {
        Trace(a + b, attempt);
        Trace(a + b[..n], attempt) + tail;
        (Trace(a, attempt) + Trace(b[..n], attempt)) + tail;
        Trace(a, attempt) + (Trace(b[..n], attempt) + tail);
      }
    }
  }

  /** One call per file and one pause per response. */
  lemma {:induction false} TraceLength(files: seq<FileInfo>, attempt: FileInfo -> Option<AIResponse>)
    ensures |Trace(files, attempt)| == |files| + |Responses(files, attempt)|
  {
    if |files| > 0 {
      TraceLength(files[..|files| - 1], attempt);
    }
  }

  /** The first event is the call for the first file. */
  lemma TraceHead(files: seq<FileInfo>, attempt: FileInfo -> Option<AIResponse>)
    requires |files| > 0
    ensures Trace(files, attempt)[0] == Called(files[0].relativePath)
  {
    var c := files[1..];
    assert files == [files[0]] + c;
    TraceAppend([files[0]], c, attempt);
    assert [files[0]][..0] == [];
  }

  /** The call for the i-th file sits after the events of the files before
      it, and a pause follows it exactly when that turn succeeded. */
  lemma TraceCallAt(files: seq<FileInfo>, attempt: FileInfo -> Option<AIResponse>, i: nat)
    requires i < |files|
    ensures var t := Trace(files, attempt);
            var pos := i + |Responses(files[..i], attempt)|;
            && pos < |t| && t[pos] == Called(files[i].relativePath)
            && (attempt(files[i]).Some? ==> pos + 1 < |t| && t[pos + 1] == Delayed(RateLimitDelay))
            && (attempt(files[i]).None? ==> pos + 1 == |t| || t[pos + 1].Called?)
  {
    var a, b, c := files[..i], files[i..], files[i + 1..];
    assert files == a + b;
    assert b == [files[i]] + c;
    TraceAppend(a, b, attempt);
    TraceAppend([files[i]], c, attempt);
    TraceLength(a, attempt);
    assert [files[i]][..0] == [];
    assert Trace([files[i]], attempt) == Turn(files[i], attempt(files[i]).Some?);
    if |c| > 0 {
      TraceHead(c, attempt);
    }
  }

  /** Every file is called once, in order; a pause of one second follows
      a successful turn and only a successful one. The call for the i-th
      file sits after the events of the files before it: one call each,
      plus one pause per response among them. */
  lemma {:induction false} TraceShape(files: seq<FileInfo>, attempt: FileInfo -> Option<AIResponse>)
    ensures var t := Trace(files, attempt);
            && |t| == |files| + |Responses(files, attempt)|
            && (forall k :: 0 <= k < |t| && t[k].Delayed? ==> k > 0 && t[k - 1].Called? && t[k].ms == RateLimitDelay)
            && (forall i :: 0 <= i < |files| ==>
                  var pos := i + |Responses(files[..i], attempt)|;
                  && pos < |t| && t[pos] == Called(files[i].relativePath)
                  && (attempt(files[i]).Some? ==> pos + 1 < |t| && t[pos + 1] == Delayed(RateLimitDelay))
                  && (attempt(files[i]).None? ==> pos + 1 == |t| || t[pos + 1].Called?))
  {
    TraceLength(files, attempt);
    TraceCalls(files, attempt);
    TracePauses(files, attempt);
  }

  /** `TracePauseAt` for every pause. */
  lemma TracePauses(files: seq<FileInfo>, attempt: FileInfo -> Option<AIResponse>)
    ensures var t := Trace(files, attempt);
            forall k :: 0 <= k < |t| && t[k].Delayed? ==> k > 0 && t[k - 1].Called? && t[k].ms == RateLimitDelay
  {
    var t := Trace(files, attempt);
    forall k | 0 <= k < |t| && t[k].Delayed? {
      TracePauseAt(files, attempt, k);
    }
  }

  /** `TraceCallAt` for every file. */
  lemma {:induction false} TraceCalls(files: seq<FileInfo>, attempt: FileInfo -> Option<AIResponse>)
    ensures var t := Trace(files, attempt);
            forall i :: 0 <= i < |files| ==>
              var pos := i + |Responses(files[..i], attempt)|;
              && pos < |t| && t[pos] == Called(files[i].relativePath)
              && (attempt(files[i]).Some? ==> pos + 1 < |t| && t[pos + 1] == Delayed(RateLimitDelay))
              && (attempt(files[i]).None? ==> pos + 1 == |t| || t[pos + 1].Called?)
  {
    forall i | 0 <= i < |files| {
      TraceCallAt(files, attempt, i);
    }
  }

  /** A pause lasts one second and directly follows a call. */
  lemma {:induction false} TracePauseAt(files: seq<FileInfo>, attempt: FileInfo -> Option<AIResponse>, k: nat)
    requires k < |Trace(files, attempt)| && Trace(files, attempt)[k].Delayed?
    ensures k > 0 && Trace(files, attempt)[k - 1].Called? && Trace(files, attempt)[k].ms == RateLimitDelay
  {
    var n := |files| - 1;
    var t0, turn := Trace(files[..n], attempt), Turn(files[n], attempt(files[n]).Some?);
    var t := Trace(files, attempt);
    assert t == t0 + turn;
    if k >= |t0| {
      assert turn[0] == Called(files[n].relativePath);
      assert |turn| == 2 ==> turn[1] == Delayed(RateLimitDelay);
      assert t[k] == turn[k - |t0|];
      assert k - |t0| == 1 && t[k - 1] == turn[0];
    } else {
      assert t[k] == t0[k];
      TracePauseAt(files[..n], attempt, k);
      assert t[k - 1] == t0[k - 1];
    }
  }

  /** The service object. The source also holds the network client, which
      is the function `ai` here. */
  class AIService {
    const model: string
    /** The prompt builder: `createPrompt`, fixed at construction. */
    const prompts: PromptBuilder

    constructor (model: string)
      ensures this.model == model && prompts == CreatePrompt
    {
      this.model := model;
      this.prompts := CreatePrompt;
    }

    /** `generateTests(request)`: one call per file, in order; a failing
        call is skipped and the loop goes on. */
    method GenerateTests(request: TestGenerationRequest, ai: (string, string) -> CallResult,
                         decode: string -> Option<Fields>)
      returns (responses: seq<AIResponse>, trace: seq<Event>)
      ensures responses == Responses(request.files, Attempts(Asker(model, ai, prompts, request.testFramework, request.projectStructure), decode))
      ensures trace == Trace(request.files, Attempts(Asker(model, ai, prompts, request.testFramework, request.projectStructure), decode))
    {
      var files := request.files;
      ghost var attempt := Attempts(Asker(model, ai, prompts, request.testFramework, request.projectStructure), decode);
      responses, trace := [], [];
      for i := 0 to |files|
        invariant responses == Responses(files[..i], attempt)
        invariant trace == Trace(files[..i], attempt)
      {
        var file := files[i];
        assert files[..i + 1][..i] == files[..i];
        var prompt := prompts(file, request.testFramework, request.projectStructure);
        trace := trace + [Called(file.relativePath)];
        match ai(model, prompt) {
          case TransportError =>
            // logged, and the loop moves on to the next file
          case Reply(text) =>
            var aiResponse := ParseAIResponse(text, file, decode);
            responses := responses + [aiResponse];
            trace := trace + [Delayed(RateLimitDelay)];
        }
      }
      assert files[..|files|] == files;
    }
  }
}
