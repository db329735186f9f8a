# ai-api-tester, modelled in Dafny

ai-api-tester is a command-line tool for Node.js projects. It finds the
route and controller sources of a project and sends each one to a hosted
language model with a prompt that describes the project. It then writes
the test file the model returns for each source under the tests
directory. This project models that pipeline and proves what it promises
about file selection, prompts, reply parsing, output paths, the summary
and the configuration.

Modules, in dependency order:

- `Wrappers`, `Text` (text.dfy): `Option`, and the string operations the
  sources use (`endsWith`, `join`, `||` on strings, and the first `{` and
  last `}` that bound the greedy match of the reply's object), with the
  predicate `Contains` ("one text occurs in another"), which only the
  proofs use, to state what prompts and the overview hold.
- `Paths` (paths.dfy): the part of Node's POSIX `path` module the tool
  relies on.
  - A path is its sequence of segments.
  - `path.join` is "concatenate, then normalize lexically".
  - `dirname`, `extname`, `parse(..).name` and `relative` are modelled too.
- `Types` (types.dfy): the records and default values of the tool.
- `FileUtils` (fileutils.dfy): listing, reading and writing files.
  - The file tree the tool reads is a value (`Entry`).
  - The disk it writes to is the class `Disk`. Its `uncreatable` and
    `unwritable` sets decide which writes fail.
- `Services` (services.dfy): the class `AIService`.
  - It builds the prompt and calls the model once per file.
  - It parses each reply, keeping fields or falling back field by field.
  - It derives the test file name.
- `Core` (testgenerator.dfy): the class `TestGenerator`, which scans,
  describes the project, generates, writes and summarises.
- `Cli` (cli.dfy): layout detection, the configuration merge, the
  API-key check and `--init`.

Several classes of the source become state or parameters in the model:

- The language model is a function `ai` from (model name, prompt) to a
  reply text or a transport error.
- `JSON.parse` is a partial decoder `decode` from the captured text to
  the three reply fields.
- `fs.pathExists` in the CLI is a predicate on normalized paths.
- The per-file "Generating tests for" line and the one-second pause are
  recorded as a trace of `Event`s (`Called` and `Delayed`) rather than
  printed and performed. The rest of the console output is left out.

Four behaviours of the code worth noting:

- The pause of one second happens only after a successful call, because
  the code's `await this.delay(1000)` sits inside the `try` after the
  push. A failed call is followed directly by the next file.
- The `--dry-run` flag is parsed but never consulted, so a dry run writes
  files like any other run. `Cli.Run` models it that way.
- The project overview is built from the raw listings. It therefore names
  files that the scan drops for being empty, unreadable or too large
  (`Core.TestGenerator.OverviewListsEveryFile`).
- The key is read from the variable `AI_API_KEY` (src/index.ts:223), but
  the error hint and the `.env` written by `--init` name `OPENAI_API_KEY`.
  `Cli.Env.aiApiKey` stands for `AI_API_KEY`.
- The OpenAI client is built from the variable `AI_API_KEY` alone
  (src/services/aiService.ts:10-14), so the key given by `--ai-key`
  (src/index.ts:223) passes `main`'s check (src/index.ts:244) but never
  reaches the client. With the key given only by the flag, the source
  either fails while building the client, and `main` exits with code 1
  having written nothing (src/index.ts:286-292), or calls the model with
  some other key. The model's `ai` parameter carries no key, so
  `Cli.Run` returns `Ran` with a full generation there.

## Model

| member | source | states |
|---|---|---|
| Paths.Split | src/utils/fileUtils.ts:19 | splitting on `/` gives at least one piece and no piece holds a separator |
| Paths.SplitJoin | src/services/aiService.ts:144 | splitting the `/`-joined form of a clean path gives the path back |
| Paths.NormalizeIsNormal | src/utils/fileUtils.ts:19 | `path.join` yields a normalized path: no empty or `.` segment, `..` only leading, and clean input stays clean |
| Paths.NormalizeIdempotent | src/utils/fileUtils.ts:19 | normalizing twice is normalizing once |
| Paths.NormalizeAppendNames | src/core/testGenerator.ts:116 | appending ordinary names to a path commutes with normalization |
| Paths.NormalizePrefix | src/core/testGenerator.ts:116 | normalizing the prefix first does not change a join |
| Paths.ParseRender | src/services/aiService.ts:144 | reading back the rendered form of a normalized path gives the path |
| Paths.JoinStrParsed | src/core/testGenerator.ts:116 | `path.join(a, b)` depends on `a` only through its normalized form |
| Paths.Extname | src/services/aiService.ts:148 | the extension is empty or one dot followed by no other dot, and is a suffix of the name |
| Paths.Stem | src/services/aiService.ts:142 | the name without its extension, followed by the extension, is the name |
| Paths.ExtnameOfSuffix | src/utils/fileUtils.ts:70-73 | a name longer than a dotted suffix such as `.ts` has exactly that extension |
| Paths.CommonPrefixLen | src/utils/fileUtils.ts:91 | the longest common prefix of two paths: equal up to it, different right after it |
| Paths.RelativeOfDescendant | src/utils/fileUtils.ts:91 | `path.relative(from, to)` of a path inside `from` is the rest of that path |
| Paths.Normalize | src/utils/fileUtils.ts:19 | the lexical clean-up of `path.join`; its output is normal (`Paths.NormalizeIsNormal`) and a fixed point (`Paths.NormalizeIdempotent`) |
| Paths.Join | src/utils/fileUtils.ts:19 | `path.join` on segment paths; appending ordinary names commutes with it (`Paths.NormalizeAppendNames`) |
| Paths.JoinStr | src/core/testGenerator.ts:116 | `path.join` on two strings; it depends on the first only through its normal form (`Paths.JoinStrParsed`) |
| Paths.Relative | src/utils/fileUtils.ts:91 | `path.relative`; for a path inside the base it is the rest of the path (`Paths.RelativeOfDescendant`), and joining it back gives the path (`FileUtils.RelativePathRoundTrip`) |
| Paths.Dirname | src/services/aiService.ts:143 | `path.dirname`; the derived test name parses back to it plus the new base name (`Services.GenerateTestFileName`) |
| Paths.Basename | src/services/aiService.ts:142 | the last segment, the input of `path.parse(..).name` and `path.extname` (`Paths.Stem`, `Paths.Extname`) |
| Text.FirstIndexOf | src/services/aiService.ts:116 | the first position of a character, and `None` exactly when it does not occur |
| Text.LastIndexOf | src/services/aiService.ts:116 | the last position of a character, and `None` exactly when it does not occur |
| Text.Or | src/services/aiService.ts:122-123 | JavaScript `a \|\| b` on strings: `a` when it is a non-empty string, `b` otherwise |
| Text.OrElse | src/index.ts:227-228 | `a \|\| b` on two optional strings: `a` when it is a non-empty string, `b` otherwise |
| FileUtils.ChildIndex | src/utils/fileUtils.ts:15-19 | the first entry of a directory with a given name (it has the name and no earlier entry does), or `None` when no entry has it |
| FileUtils.IsValidCodeFile | src/utils/fileUtils.ts:70-73 | `isValidCodeFile`: some listed extension ends the name; equivalent to the `path.extname` test (`FileUtils.ValidCodeFileByExtension`) |
| FileUtils.Walk | src/utils/fileUtils.ts:15-29 | the files the entry loop collects; membership is characterized by `FileUtils.WalkMembers` |
| FileUtils.Listing | src/utils/fileUtils.ts:7-34 | what `readDirectory` returns (`FileUtils.ReadDirectory`); only paths below the directory (`Core.ListingBelow`) that name code files (`FileUtils.ListedPathIsFile`) |
| FileUtils.ValidCodeFileByExtension | src/utils/fileUtils.ts:70-73 | the suffix test agrees with `path.extname` being one of `.js .ts .jsx .tsx`, except that the bare names `.ts` and the like also pass |
| FileUtils.ValidCodeFileExamples | src/utils/fileUtils.ts:70-73 | `x.d.ts` passes the suffix test and `x.json` does not |
| FileUtils.ReadDirectory | src/utils/fileUtils.ts:7-34 | returns the walk of the directory, or nothing when the path is missing or cannot be listed |
| FileUtils.ReadEntries | src/utils/fileUtils.ts:15-29 | the loop over the entries returns the files in listing order, with each subdirectory's files spliced in where it is listed |
| FileUtils.WalkMembers | src/utils/fileUtils.ts:18-27 | a path is listed exactly when it lies below the directory and reaches a code file through the listed entries |
| FileUtils.EntryMembers | src/utils/fileUtils.ts:21-26 | one entry contributes exactly the code files reachable through it |
| FileUtils.SubdirectoryExample | src/utils/fileUtils.ts:21-23 | a directory named `x.js` is descended into, and only its code files are listed |
| FileUtils.DirectoryNamedLikeCodeFile | src/utils/fileUtils.ts:21-26 | example: a directory named `x.js` is not listed, but its `x.d.ts` is |
| FileUtils.DirectoryNeverListed | src/utils/fileUtils.ts:21-26 | a directory is never listed itself, whatever its name |
| FileUtils.ListedPathIsFile | src/utils/fileUtils.ts:7-34 | in a tree whose directories hold distinct ordinary names, every listed path names a code file that a lookup by that path finds, so reading a listed path reads that file |
| FileUtils.LookupAppend | src/utils/fileUtils.ts:19 | looking up `path.join(dir, rel)` is looking up `rel` from the entry at `dir` |
| FileUtils.ReachesFound | src/utils/fileUtils.ts:18-27 | a path the walk reaches through an entry leads, by name, to a code file with the path's last name |
| FileUtils.ReachedChildFound | src/utils/fileUtils.ts:15-27 | in a well-formed directory, a path one of its entries reaches is found by name from that directory, as a code file with the path's last segment as its name |
| FileUtils.ReadFileContent | src/utils/fileUtils.ts:36-57 | reads the whole text of a readable file of at most `maxSize` bytes; an oversized, missing or unreadable file, or a directory, reads as `""` |
| FileUtils.SizeCapIsInclusive | src/utils/fileUtils.ts:43 | every file of exactly `maxSize` bytes is still read, whole |
| FileUtils.CreateFileInfo | src/utils/fileUtils.ts:75-93 | gives no record exactly when the content read is empty; otherwise the record keeps the path, role and content, and the path relative to the scan root |
| FileUtils.FileInfoWithinCap | src/utils/fileUtils.ts:81-85 | a record's content is non-empty and comes from a file within the size cap |
| FileUtils.RelativePathRoundTrip | src/utils/fileUtils.ts:91 | joining the scan root and a file's relative path gives back the file's path |
| FileUtils.Disk.WriteFile | src/utils/fileUtils.ts:59-68 | every write is logged. A failed directory creation writes nothing. Otherwise the ancestors of the parent exist afterwards, and only a write that succeeds changes the file map, at exactly that path |
| Services.JsonSpan | src/services/aiService.ts:116-117 | the greedy match of `\{[\s\S]*\}`: present exactly when some `}` follows some `{`, and runs from the first `{` to the last `}` |
| Services.SpanOfObject | src/services/aiService.ts:116 | a reply that is one brace-delimited text is captured whole |
| Services.GenerateTestFileName | src/services/aiService.ts:141-145 | the name ends in `.test.ts`, and it reads back as the source's directory followed by its base name with the extension replaced by `.test.ts` |
| Services.TestName | src/services/aiService.ts:142-144 | the derived base name is never empty, `.` or `..`, ends in `.test.ts`, and has no separator when the source name had none |
| Services.TestPathShape | src/services/aiService.ts:141-145 | joining the directory and the derived name ends in `.test.ts` and parses back to that directory plus that name |
| Services.GetFileExtension | src/services/aiService.ts:147-149 | the extension without its dot, or `javascript` when the extension is empty or a bare dot; never empty |
| Services.CreatePrompt | src/services/aiService.ts:46-98 | the prompt text; what it embeds is `Services.PromptEmbedsFile`, and what it depends on is `Services.PromptDependsOnlyOnExtension` |
| Services.ComposeEmbedsFile | src/services/aiService.ts:51-63 | whatever instructions close it, the prompt embeds the framework sentence, the project overview, the file's role and relative path, and the content fenced with the extension tag |
| Services.PromptEmbedsFile | src/services/aiService.ts:46-98 | the prompt `createPrompt` builds embeds all of these |
| Services.PromptDependsOnlyOnExtension | src/services/aiService.ts:58-63 | two files with the same role, relative path, content and extension get the same prompt |
| Services.ParseAIResponse | src/services/aiService.ts:114-139 | parsing never fails. With no brace span, or a span that does not decode, the result is the whole reply under the derived name with no dependencies. Otherwise each field is taken from the object when truthy and defaulted on its own: the body to the whole reply, the name to the derived one, the dependencies to none. The name is never empty, and the body is empty only when the reply was |
| Services.ParseWholeObject | src/services/aiService.ts:116-125 | a reply that is exactly an object with all three fields set yields those fields |
| Services.ParseProse | src/services/aiService.ts:116-137 | a reply in which no `}` follows a `{` (prose, or `}{`) is kept verbatim as the test body, under a derived `.test.ts` name with no dependencies |
| Services.ParseDefaultsPerField | src/services/aiService.ts:122-124 | a decoded object with no fields falls back to the whole reply (not the captured span), the derived name and no dependencies |
| Services.Succeeded | src/services/aiService.ts:20-41 | the positions of the files whose turn succeeded, strictly increasing, and containing a position exactly when that turn succeeded |
| Services.AttemptSucceedsOnReply | src/services/aiService.ts:29-32 | a turn gives a response exactly when the call gets a reply, and that response is the parse of the reply |
| Services.ResponsesAreSuccesses | src/services/aiService.ts:20-43 | the loop keeps input order: the k-th response is the k-th successful file's, and there are at most as many responses as files |
| Services.ResponsesAppend | src/services/aiService.ts:35-40 | a failed call drops only its own file: the loop over `a + b` is the loop over `a` followed by the loop over `b` |
| Services.TraceAppend | src/services/aiService.ts:20-41 | the same for the calls and pauses |
| Services.TraceLength | src/services/aiService.ts:20-41 | the loop records one call per file and one pause per response |
| Services.TraceHead | src/services/aiService.ts:22-25 | the first event is the call for the first file |
| Services.TraceCallAt | src/services/aiService.ts:20-41 | the call for the i-th file comes right after the events of the files before it, and a one-second pause follows it exactly when that call succeeded |
| Services.TraceCalls | src/services/aiService.ts:20-41 | the same for every file |
| Services.TracePauseAt | src/services/aiService.ts:32 | every pause lasts one second and directly follows a call |
| Services.TracePauses | src/services/aiService.ts:32 | the same for every pause |
| Services.TraceShape | src/services/aiService.ts:20-41 | every file is called once, in order, at the position its predecessors' events leave. A one-second pause follows a successful call and only a successful one |
| Services.AIService.constructor | src/services/aiService.ts:10-15 | the service keeps the model name and builds its prompts with `createPrompt` |
| Services.AIService.GenerateTests | src/services/aiService.ts:17-44 | the responses and the call trace are those of one turn per file, in order, each sending the file's prompt to the model and parsing the reply |
| Core.CollectMembers | src/core/testGenerator.ts:57-67 | a record is collected exactly when some listed path yields it, and there are at most as many records as paths |
| Core.LoaderRole | src/core/testGenerator.ts:58-63 | every record a loader makes carries its role |
| Core.CollectRole | src/core/testGenerator.ts:57-83 | every record scanned for a role carries that role |
| Core.LoaderRetag | src/core/testGenerator.ts:58-79 | loading the same path from an equivalent root under the other role gives the same record retagged |
| Core.CollectRetag | src/core/testGenerator.ts:57-83 | scanning the same listing under both roles gives the same records, retagged |
| Core.ListingBelow | src/utils/fileUtils.ts:19 | every listed path lies strictly below the listed directory |
| Core.BulletsAt | src/core/testGenerator.ts:98-105 | one overview line per listed file, in listing order |
| Core.OverviewLayout | src/core/testGenerator.ts:97-105 | the overview lines are `ROUTES:`, the route files, `\nCONTROLLERS:`, the controller files |
| Core.JoinWithContains | src/core/testGenerator.ts:110 | every line of a joined text occurs in it |
| Core.Dedupe | src/core/testGenerator.ts:131-136 | the insertion-ordered `Set` of dependency names; characterized by `Core.DedupeIsSet` |
| Core.DedupeIsSet | src/core/testGenerator.ts:131-136 | the dependency set has no repeats and holds exactly the named dependencies |
| Core.DedupeIdempotent | src/core/testGenerator.ts:131-136 | adding the members of a set again changes nothing |
| Core.DedupeDistinct | src/core/testGenerator.ts:131-136 | a list without repeats is its own set |
| Core.DedupeSnoc | src/core/testGenerator.ts:134 | adding one dependency appends it exactly when it is new |
| Core.TestGenerator.constructor | src/core/testGenerator.ts:11-14 | the generator keeps the configuration and creates the service with the configured model, or `gpt-5` when it is empty, building prompts with `createPrompt` (`ServiceConfigured`) |
| Core.TestGenerator.TestPaths | src/core/testGenerator.ts:114-116 | there is one test path per response, each `path.join(testsDir, testFileName)` |
| Core.TestGenerator.RoutesBeforeControllers | src/core/testGenerator.ts:52-86 | all route records come before all controller records |
| Core.TestGenerator.RouteRecordsInsideRoot | src/core/testGenerator.ts:56-67 | a route record is tagged `route`, has content, lies below the routes root, and its relative path is the rest of its path below that root |
| Core.TestGenerator.ControllerRecordsInsideRoot | src/core/testGenerator.ts:70-83 | the same for controller records and the controllers root |
| Core.TestGenerator.SharedRootScannedTwice | src/core/testGenerator.ts:52-86 | when both roots name one directory, every file is scanned twice: once as a route, and once, identical but for its role, as a controller |
| Core.TestGenerator.OverviewListsEveryFile | src/core/testGenerator.ts:88-111 | the overview names every listed file of both roots, including files the scan drops |
| Core.TestGenerator.TestPathInsideTestsDir | src/core/testGenerator.ts:116 | a test file name made of ordinary names lands inside the tests directory, at the path it spells out |
| Core.TestGenerator.DerivedTestPath | src/core/testGenerator.ts:116 | a derived test name lands in the tests directory, mirroring the source file's place below its root |
| Core.TestGenerator.DerivedNamesCollide | src/core/testGenerator.ts:113-125 | `routes/users.ts` and `controllers/users.ts` get the same derived test path |
| Core.TestGenerator.LastWriteWins | src/core/testGenerator.ts:114-124 | the last successful write to a path decides its content |
| Core.TestGenerator.WritesElsewhere | src/core/testGenerator.ts:114-124 | a path no successful write targets keeps its content |
| Core.TestGenerator.ScanFiles | src/core/testGenerator.ts:52-86 | returns the route records, then the controller records, each from its root's listing, with files that give no record left out |
| Core.TestGenerator.AddFileInfos | src/core/testGenerator.ts:57-67 | one scan loop appends the record of each listed path that has one, in order |
| Core.TestGenerator.GenerateProjectStructure | src/core/testGenerator.ts:88-111 | returns the overview lines joined by newlines |
| Core.TestGenerator.AddBullets | src/core/testGenerator.ts:98-100 | one `forEach` appends a line per listed file |
| Core.TestGenerator.WriteTestFiles | src/core/testGenerator.ts:113-125 | every response is written in order at its test path; a failed write does not stop the later ones; the directories afterwards are exactly `DirsAfterWrites` |
| Core.TestGenerator.DirsAfterWrites | src/core/testGenerator.ts:113-125 | the directories after a sequence of writes: those before, plus the parent of each write whose `ensureDir` succeeds and all its ancestors; never fewer than before |
| Core.TestGenerator.ParentCreated | src/utils/fileUtils.ts:59-68 | a test file that is written finds its parent directory among the directories afterwards |
| Core.TestGenerator.ShowSummary | src/core/testGenerator.ts:127-144 | the count is the number of responses, not of successful writes, and the dependencies are the duplicate-free union in first-named order, with responses that name none adding nothing |
| Core.TestGenerator.Generate | src/core/testGenerator.ts:16-50 | with no files nothing is asked or written. Otherwise every scanned file is sent with the overview, the answers are written in order, and the summary covers them all. The directories afterwards are `DirsAfterWrites`. The same is stated once more as the predicate `Generated` |
| Cli.DetectFramework | src/index.ts:32-53 | Jest when `jest` or `@types/jest` is declared; else Mocha when `mocha` or `@types/mocha` is; nothing without a parsed `devDependencies` |
| Cli.JestOverMocha | src/index.ts:38-48 | whenever a Jest package and a Mocha package are both declared, Jest wins |
| Cli.NoFrameworkWithoutDevDependencies | src/index.ts:32-53 | a missing or unparsable manifest, or one without `devDependencies`, detects nothing |
| Cli.FirstIndex | src/index.ts:65-76 | the first candidate in order that satisfies the test, with none before it; `None` when no candidate does |
| Cli.FirstIndexIs | src/index.ts:65-76 | a candidate that passes with none passing before it is the one taken |
| Cli.LayoutIsFirstMatch | src/index.ts:56-76 | the first layout with either directory present is taken, and only the directories of it that exist are set |
| Cli.NoLayoutFound | src/index.ts:65-76 | with no layout present, neither directory is detected |
| Cli.FirstExistingIsFirst | src/index.ts:79-91 | the tests directory is the first existing candidate, and none exactly when no candidate exists |
| Cli.DetectLayout | src/index.ts:65-76 | the layout loop sets the directories of the first match and stops there |
| Cli.DetectTestsDir | src/index.ts:86-91 | the test-directory loop sets the first existing directory and stops there |
| Cli.DetectProjectStructure | src/index.ts:26-94 | returns the detected framework, the first matching layout's existing directories and the first existing tests directory |
| Cli.FrameworkOr | src/index.ts:236-239 | `a \|\| b` on an optional framework; its use is stated by `Cli.MergeConfig` |
| Cli.SizeOr | src/index.ts:240 | `a \|\| b` on an optional size, where `0` is falsy; its use is stated by `Cli.MergeConfig` |
| Cli.MergeConfig | src/index.ts:221-241 | the key comes from the flag or the variable. The URL defaults to `https://api.openai.com/v1`. The framework is the flag, else the detected value, else Jest. The size cap is the flag unless that is missing or zero, else 50000 |
| Cli.MergePrecedence | src/index.ts:225-235 | a non-empty flag wins over a non-empty detected value, which wins over the default; an empty string falls through |
| Cli.MergedConfigComplete | src/index.ts:221-241 | the merged configuration always names a model and three directories, and never has a zero size cap |
| Cli.SizeIgnoresDetection | src/index.ts:222-241 | detection never changes the size cap or the key |
| Cli.Run | src/index.ts:212-293 | assumes that detection, the manifest and the scan see one file system. `--init` returns before anything else. A missing key gives exit code 1 before a generator exists, and nothing is written. Otherwise the merged configuration drives one generation run. The generator's service builds prompts with `createPrompt` and uses the merged model. The run has `generate`'s full effect on the report and on the disk's files, directories and write attempts |

## Left out

- The network call (`callAI`, src/services/aiService.ts:100-112) and the
  OpenAI client: the model is the function parameter `ai`, and a thrown
  error is its `TransportError` result.
- `JSON.parse`: the decoder is the function parameter `decode`. A reply
  whose span is not a JSON object, or is `null`, decodes to `None`.
- Services.ParseAIResponse: a field with the wrong type is treated as
  absent. The source's `||` keeps any truthy value whatever its type. A
  `dependencies` string, for example, is kept and then makes `forEach`
  throw in `showSummary` (src/core/testGenerator.ts:134). That error
  reaches `main`, which exits with code 1.
- `delay` (src/services/aiService.ts:151-153): real time is not modelled.
  The pause is a `Delayed(1000)` event in the trace.
- File-system I/O (`pathExists`, `readdir`, `stat`, `readFile`,
  `ensureDir`, `writeFile`): the tree `Entry`, the class `Disk` and the
  predicate `pathExists` stand for them.
  - The I/O errors the code catches become the `listable` flag, content
    that is missing, and the `uncreatable`/`unwritable` sets.
  - Paths are relative to the working directory: absolute paths and a
    trailing `/` are not modelled.
  - Symbolic links are not modelled.
- `initializeProject` (src/index.ts:96-138): the `.env` and `package.json`
  scaffolding is not modelled. `Cli.Run` ends with `Initialized` there,
  and its promise that the disk is unchanged holds of the model's `Disk`
  only: the source writes `.env` and may rewrite `package.json`.
- yargs parsing, the console output and colours, the verbose listing,
  `process.exit` beyond the exit code of the key check, and the
  `unhandledRejection` hook. The flags arrive already parsed in `CliArgs`.
- libs/envSetup.ts (a timer-driven self-ping and dotenv loading) is not
  part of this model.
- The catch blocks of `generate` and `main` (src/core/testGenerator.ts:46-49,
  src/index.ts:290-293): every failure the model has is a value, so in
  the model nothing is left to be thrown at that level. In the source a
  reply field of the wrong type can still throw there (see above).
- FileUtils.ReadDirectory: an empty path string parses to the root, so
  the whole tree is listed, where `fs.pathExists("")` is false and the
  source returns `[]`. `Cli.Run` never reaches this, because the
  configuration's `||` fallbacks never yield an empty directory.
- Cli.Run: detection's `pathExists` is required to agree with the tree
  the scan reads, and the manifest is `Missing` exactly when the tree has
  no `package.json`. Whether a present manifest parses, and what it
  declares, is not tied to that entry's content. Changes to the file
  system between detection and the scan are not modelled.
- Paths leading above the working directory (`../x`): their leading `..`
  segments name nothing in a well-formed tree (`FileUtils.WellFormed`),
  so they are reported as missing rather than read outside it.
- The fallback text "Unable to generate project structure"
  (src/core/testGenerator.ts:106-108): listing a directory never throws in
  the model, so it is never produced.
- Core.TestGenerator.GenerateProjectStructure: `path.relative(process.cwd(), file)`
  is the listed path itself, because every path is relative to the
  working directory.
- Services.AIService.GenerateTests: the service holds its prompt builder as a
  constant set to `createPrompt` at construction, rather than calling
  that function by name, so that proofs about the loop stay independent
  of the fixed prompt text.
- Cli.MergeConfig: `max-file-size` is an integer. A `NaN` given on the
  command line, which JavaScript would also treat as falsy, is not
  modelled.
- Cli.DetectFramework: a `devDependencies` value counts as declared when it
  is a non-empty string. Other JSON values (numbers, objects) are not
  modelled.
