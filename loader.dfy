/** Loading the configuration: the command line, the working directory, the
    two packaged YAML files, and the LLM concurrency limits added to the LLM
    settings. */
module Loader {

  import opened Results
  import opened Text
  import opened JsonDoc
  import opened Errors
  import opened Cli
  import opened Paths

  const LogConfigFile := "logging_defaults.yaml"
  const LlmConfigFile := "llm_config.yaml"

  // ---------------------------------------------------------------------------
  // Command line

  /** `parser.error`/argparse failures: exit status and message. */
  datatype ParseExit = ParseExit(status: int, message: string)

  const UsageErrorStatus := 2
  const LogRequiredMessage := "--log is required when using log file options"

  /** `parse_arguments`: `parsed` is what argparse makes of the command line
      (a namespace, or its own usage error); on top of it, a file-handler
      option without `--log` is a usage error. */
  function ParseArguments(parsed: Result<CliArgs, ParseExit>): (r: Result<CliArgs, ParseExit>)
    ensures parsed.Err? ==> r == parsed
    ensures parsed.Ok? ==> (r.Err? <==> LogFileOptionsGiven(parsed.value) && !parsed.value.log)
    ensures r.Ok? ==> r == parsed
    ensures parsed.Ok? && r.Err? ==> r.error == ParseExit(UsageErrorStatus, LogRequiredMessage)
  {
    match parsed
    case Err(e) => Err(e)
    case Ok(args) =>
      if LogFileOptionsGiven(args) && !args.log then Err(ParseExit(UsageErrorStatus, LogRequiredMessage))
      else Ok(args)
  }

  /** Accepted arguments never ask for file-handler settings without the file handler. */
  lemma AcceptedArgumentsEnableLog(parsed: Result<CliArgs, ParseExit>)
    requires ParseArguments(parsed).Ok?
    ensures LogFileOptionsGiven(ParseArguments(parsed).value) ==> ParseArguments(parsed).value.log
  {
  }

  // ---------------------------------------------------------------------------
  // Project arguments

  datatype ProjectArgs = ProjectArgs(action: string, workingDir: string, interactive: bool)

  /** The failures of loading: the loader's own `ConfigError`, or another
      exception passed on. */
  datatype LoadError =
    | ConfigError(message: string)
    | Other(error: Raised)

  const WorkingDirPrefix := "Error identifying working directory: "

  /** `build_project_args`: the absolute form of `--directory` when it is
      given and non-empty, else the current directory. `cwd` is what
      `os.getcwd()` returns, or the text of its OSError. */
  function BuildProjectArgs(args: CliArgs, cwd: Result<string, string>): (r: Result<ProjectArgs, LoadError>)
    ensures r.Ok? ==> r.value.action == args.action && r.value.interactive == args.interactive
    ensures TruthyText(args.directory) ==>
      (r.Ok? <==> AbsPath(args.directory.value, cwd).Ok?)
      && (r.Ok? ==> r.value.workingDir == AbsPath(args.directory.value, cwd).value)
    ensures !TruthyText(args.directory) ==>
      (r.Ok? <==> cwd.Ok?) && (r.Ok? ==> r.value.workingDir == cwd.value)
    ensures r.Err? ==> cwd.Err? && r.error == ConfigError(WorkingDirPrefix + cwd.error)
    ensures r.Ok? && cwd.Ok? && IsAbsolute(cwd.value) ==> IsAbsolute(r.value.workingDir)
  {
    var dir := if TruthyText(args.directory) then AbsPath(args.directory.value, cwd) else cwd;
    match dir
    case Err(e) => Err(ConfigError(WorkingDirPrefix + e))
    case Ok(d) => Ok(ProjectArgs(args.action, d, args.interactive))
  }

  // ---------------------------------------------------------------------------
  // Configuration files

  /** What opening a packaged file and `yaml.safe_load` give: the file is
      missing, the YAML does not parse (with the parser's message), the
      document (an empty file is `JNull`), or another exception. */
  datatype ResourceRead =
    | Missing
    | Unparsable(detail: string)
    | Parsed(doc: Json)
    | Failed(error: Raised)

  function Quoted(configFile: string): string {
    "'" + configFile + "'"
  }

  function NotFoundMessage(configFile: string): string {
    "Configuration file " + Quoted(configFile) + " not found"
  }

  function InvalidMessage(configFile: string, detail: string): string {
    "Invalid configuration file " + Quoted(configFile) + ": " + detail
  }

  function NotMappingMessage(configFile: string): string {
    "Configuration file " + Quoted(configFile) + " must contain a YAML mapping"
  }

  /** `load_config_file`: the parsed document, which must be a mapping. */
  function LoadConfigFile(configFile: string, read: ResourceRead): (r: Result<Json, LoadError>)
    ensures r.Ok? <==> read.Parsed? && read.doc.JObject?
    ensures r.Ok? ==> r.value == read.doc
    ensures read.Missing? ==> r == Err(ConfigError(NotFoundMessage(configFile)))
    ensures read.Unparsable? ==> r == Err(ConfigError(InvalidMessage(configFile, read.detail)))
    ensures read.Parsed? && !read.doc.JObject? ==> r == Err(ConfigError(NotMappingMessage(configFile)))
    ensures read.Failed? ==> r == Err(Other(read.error))
  {
    match read
    case Missing => Err(ConfigError(NotFoundMessage(configFile)))
    case Unparsable(detail) => Err(ConfigError(InvalidMessage(configFile, detail)))
    case Failed(e) => Err(Other(e))
    case Parsed(doc) =>
      if doc.JObject? then Ok(doc)
      else Err(ConfigError(NotMappingMessage(configFile)))
  }

  lemma InfixIsSubstring(prefix: string, infix: string, suffix: string)
    ensures IsSubstring(infix, prefix + infix + suffix)
  {
    var s := prefix + infix + suffix;
    assert s[|prefix|..|prefix| + |infix|] == infix;
    assert OccursAt(infix, s, |prefix|);
  }

  /** Every `ConfigError` of `load_config_file` names the file, quoted. */
  lemma {:induction false} ConfigErrorsNameTheFile(configFile: string, read: ResourceRead)
    requires LoadConfigFile(configFile, read).Err? && LoadConfigFile(configFile, read).error.ConfigError?
    ensures IsSubstring(Quoted(configFile), LoadConfigFile(configFile, read).error.message)
  {
    match read {
      case Missing =>
        InfixIsSubstring("Configuration file ", Quoted(configFile), " not found");
      case Unparsable(detail) =>
        InfixIsSubstring("Invalid configuration file ", Quoted(configFile), ": " + detail);
        assert InvalidMessage(configFile, detail) == "Invalid configuration file " + Quoted(configFile) + (": " + detail);
      case Parsed(_) =>
        InfixIsSubstring("Configuration file ", Quoted(configFile), " must contain a YAML mapping");
    }
  }

  // ---------------------------------------------------------------------------
  // LLM concurrency limits

  const GlobalsKey := "globals"
  const MaxConcurrencyKey := "max_concurrency"
  const SemaphoreKey := "semaphore"
  const InflightKey := "inflight_semaphore"
  const DefaultConcurrency := 1

  /** A value of the LLM settings dictionary: loaded YAML, or an
      `asyncio.Semaphore` with its initial capacity. */
  datatype LlmValue =
    | Data(json: Json)
    | Semaphore(capacity: nat)

  /** `llm_args.get("globals", {}).get("max_concurrency", 1)`; a `globals`
      entry that is not a mapping has no `get` (AttributeError). */
  function RequestedConcurrency(entries: map<string, LlmValue>): (r: Result<Json, Raised>)
    ensures GlobalsKey !in entries ==> r == Ok(JInt(DefaultConcurrency))
    ensures GlobalsKey in entries && entries[GlobalsKey].Data? && entries[GlobalsKey].json.JObject? ==>
      r == Ok(if MaxConcurrencyKey in entries[GlobalsKey].json.fields
              then entries[GlobalsKey].json.fields[MaxConcurrencyKey] else JInt(DefaultConcurrency))
    ensures r.Err? <==> GlobalsKey in entries && !(entries[GlobalsKey].Data? && entries[GlobalsKey].json.JObject?)
    ensures r.Err? ==> r.error.Foreign? && r.error.className == "AttributeError"
  {
    if GlobalsKey !in entries then Ok(JInt(DefaultConcurrency))
    else match entries[GlobalsKey]
      case Data(JObject(globals)) =>
        Ok(if MaxConcurrencyKey in globals then globals[MaxConcurrencyKey] else JInt(DefaultConcurrency))
      case _ => Err(Foreign("AttributeError", "object has no attribute 'get'"))
  }

  const NegativeCapacityError := Foreign("ValueError", "Semaphore initial value must be >= 0")
  const IncomparableCapacityError := Foreign("TypeError", "'<' not supported between instances")

  /** `asyncio.Semaphore(value)`: a negative value raises ValueError, a value
      that cannot be compared with 0 raises TypeError; a bool counts as 0 or 1. */
  function SemaphoreCapacity(value: Json): (r: Result<nat, Raised>)
    ensures value.JInt? ==> (r.Ok? <==> value.i >= 0) && (r.Ok? ==> r.value == value.i)
    ensures value.JBool? ==> r == Ok(if value.b then 1 else 0)
    ensures !value.JInt? && !value.JBool? ==> r == Err(IncomparableCapacityError)
    ensures value.JInt? && value.i < 0 ==> r == Err(NegativeCapacityError)
  {
    match value
    case JInt(n) => if n < 0 then Err(NegativeCapacityError) else Ok(n)
    case JBool(b) => Ok(if b then 1 else 0)
    case _ => Err(IncomparableCapacityError)
  }

  /** The capacity of the main semaphore, or the exception `setup_llm` raises. */
  function Capacity(entries: map<string, LlmValue>): Result<nat, Raised> {
    match RequestedConcurrency(entries)
    case Err(e) => Err(e)
    case Ok(v) => SemaphoreCapacity(v)
  }

  /** Without a `globals` entry, or without `max_concurrency` in it, one
      request runs at a time and two may be in flight. */
  lemma DefaultCapacityIsOne(entries: map<string, LlmValue>)
    requires GlobalsKey !in entries
             || (entries[GlobalsKey].Data? && entries[GlobalsKey].json.JObject?
                 && MaxConcurrencyKey !in entries[GlobalsKey].json.fields)
    ensures Capacity(entries) == Ok(1)
  {
  }

  /** The LLM settings dictionary, which `setup_llm` extends in place. */
  class LlmArgs {
    var entries: map<string, LlmValue>

    constructor(entries: map<string, LlmValue>)
      ensures this.entries == entries
    {
      this.entries := entries;
    }

    /** `setup_llm`: adds `semaphore` with the configured capacity and
        `inflight_semaphore` with twice that; when the capacity cannot be
        read or is rejected, the exception escapes and nothing is added. */
    method SetupLlm() returns (err: Option<Raised>)
      modifies this
      ensures err.None? <==> Capacity(old(entries)).Ok?
      ensures err.Some? ==> err.value == Capacity(old(entries)).error && entries == old(entries)
      ensures err.None? ==>
        entries == old(entries)[SemaphoreKey := Semaphore(Capacity(old(entries)).value)]
                               [InflightKey := Semaphore(2 * Capacity(old(entries)).value)]
      ensures err.None? ==> entries[InflightKey].capacity == 2 * entries[SemaphoreKey].capacity
      ensures forall k :: k in old(entries) && k != SemaphoreKey && k != InflightKey ==>
        k in entries && entries[k] == old(entries)[k]
    {
      var requested := RequestedConcurrency(entries);
      if requested.Err? {
        return Some(requested.error);
      }
      var capacity := SemaphoreCapacity(requested.value);
      if capacity.Err? {
        return Some(capacity.error);
      }
      var maxConcurrency := capacity.value;
      var inflight := maxConcurrency * 2;
      entries := entries[SemaphoreKey := Semaphore(maxConcurrency)];
      entries := entries[InflightKey := Semaphore(inflight)];
      err := None;
    }
  }

  // ---------------------------------------------------------------------------
  // The whole configuration

  datatype Config = Config(projectArgs: ProjectArgs, loggerArgs: Json, cliArgs: CliArgs, llmArgs: LlmArgs)

  /** Where `load_config` stops: a usage error of the command line, a loading
      error, or an exception of `setup_llm`. */
  datatype LoadFailure =
    | UsageError(exit: ParseExit)
    | LoadFailed(error: LoadError)
    | SetupFailed(raised: Raised)

  /** The LLM settings of a loaded `llm_config.yaml`. */
  function LlmEntries(doc: Json): map<string, LlmValue>
    requires doc.JObject?
  {
    map k | k in doc.fields :: Data(doc.fields[k])
  }

  /** `load_config`: the command line, the project arguments, the logging
      file, the LLM file and the LLM limits, in that order; the first failure
      ends it. */
  method LoadConfig(parsed: Result<CliArgs, ParseExit>, cwd: Result<string, string>,
                    logRead: ResourceRead, llmRead: ResourceRead)
    returns (r: Result<Config, LoadFailure>)
    ensures ParseArguments(parsed).Err? ==> r == Err(UsageError(ParseArguments(parsed).error))
    ensures ParseArguments(parsed).Ok? && BuildProjectArgs(parsed.value, cwd).Err? ==>
      r == Err(LoadFailed(BuildProjectArgs(parsed.value, cwd).error))
    ensures ParseArguments(parsed).Ok? && BuildProjectArgs(parsed.value, cwd).Ok?
            && LoadConfigFile(LogConfigFile, logRead).Err? ==>
      r == Err(LoadFailed(LoadConfigFile(LogConfigFile, logRead).error))
    ensures ParseArguments(parsed).Ok? && BuildProjectArgs(parsed.value, cwd).Ok?
            && LoadConfigFile(LogConfigFile, logRead).Ok? && LoadConfigFile(LlmConfigFile, llmRead).Err? ==>
      r == Err(LoadFailed(LoadConfigFile(LlmConfigFile, llmRead).error))
    ensures ParseArguments(parsed).Ok? && BuildProjectArgs(parsed.value, cwd).Ok?
            && LoadConfigFile(LogConfigFile, logRead).Ok? && LoadConfigFile(LlmConfigFile, llmRead).Ok? ==>
      var entries := LlmEntries(llmRead.doc);
      match Capacity(entries)
      case Err(e) => r == Err(SetupFailed(e))
      case Ok(n) =>
        && r.Ok?
        && r.value.projectArgs == BuildProjectArgs(parsed.value, cwd).value
        && r.value.loggerArgs == logRead.doc
        && r.value.cliArgs == parsed.value
        && fresh(r.value.llmArgs)
        && r.value.llmArgs.entries == entries[SemaphoreKey := Semaphore(n)][InflightKey := Semaphore(2 * n)]
  {
    var cliArgs := ParseArguments(parsed);
    if cliArgs.Err? {
      return Err(UsageError(cliArgs.error));
    }
    var projectArgs := BuildProjectArgs(cliArgs.value, cwd);
    if projectArgs.Err? {
      return Err(LoadFailed(projectArgs.error));
    }
    var loggerArgs := LoadConfigFile(LogConfigFile, logRead);
    if loggerArgs.Err? {
      return Err(LoadFailed(loggerArgs.error));
    }
    var llmDoc := LoadConfigFile(LlmConfigFile, llmRead);
    if llmDoc.Err? {
      return Err(LoadFailed(llmDoc.error));
    }
    var llmArgs := new LlmArgs(LlmEntries(llmDoc.value));
    var err := llmArgs.SetupLlm();
    if err.Some? {
      return Err(SetupFailed(err.value));
    }
    r := Ok(Config(projectArgs.value, loggerArgs.value, cliArgs.value, llmArgs));
  }
}
