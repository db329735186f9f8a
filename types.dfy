/** The records the tool passes between its stages, and its built-in
    defaults (src/types.d.ts and src/config/default.ts). */
module Types {
  import opened Wrappers
  import opened Paths

  /** The role of a source file: which scan root it was found under. */
  datatype Role = Route | Controller

  /** The text the source uses for a role (`"route" | "controller"`). */
  function RoleName(r: Role): string
  {
    match r
    case Route => "route"
    case Controller => "controller"
  }

  datatype Framework = Jest | Mocha

  function FrameworkName(f: Framework): string
  {
    match f
    case Jest => "jest"
    case Mocha => "mocha"
  }

  /** The resolved run configuration. `model` is optional in the source's
      interface but the configuration merge always fills it. */
  datatype Config = Config(
    aiApiUrl: string,
    aiApiKey: string,
    model: string,
    routesDir: string,
    controllersDir: string,
    testsDir: string,
    testFramework: Framework,
    maxFileSize: int)

  /** One loaded source file. `path` is the path the scan produced and
      `relativePath` the same path relative to its scan root. */
  datatype FileInfo = FileInfo(path: Path, content: string, role: Role, relativePath: Path)

  datatype TestGenerationRequest = TestGenerationRequest(
    files: seq<FileInfo>,
    testFramework: string,
    projectStructure: string)

  /** What the model returned for one file, after parsing. */
  datatype AIResponse = AIResponse(
    generatedTest: string,
    testFileName: string,
    dependencies: Option<seq<string>>)

  const DefaultModel: string := "gpt-5"
  const DefaultRoutesDir: string := "./routes"
  const DefaultControllersDir: string := "./controllers"
  const DefaultTestsDir: string := "./tests"
  const DefaultTestFramework: Framework := Jest
  const DefaultMaxFileSize: int := 50000
}
