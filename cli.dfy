/** The parsed command line (`argparse.Namespace`) and Python truthiness of its options. */
module Cli {

  import opened Results

  datatype CliArgs = CliArgs(
    action: string,
    directory: Option<string>,
    verbose: bool,
    quiet: bool,
    silent: bool,
    log: bool,
    logLevel: Option<string>,
    logFile: Option<string>,
    logMaxSize: Option<int>,
    logBackupCount: Option<int>,
    interactive: bool,
    llmDefault: Option<string>,
    llmFallback: Option<string>)

  /** A string option is truthy when given and non-empty. */
  predicate TruthyText(o: Option<string>) {
    o.Some? && o.value != ""
  }

  /** An integer option is truthy when given and non-zero. */
  predicate TruthyNumber(o: Option<int>) {
    o.Some? && o.value != 0
  }

  /** Some file-handler option (level, file, size or backup count) is set. */
  predicate LogFileOptionsGiven(cli: CliArgs) {
    TruthyText(cli.logLevel) || TruthyText(cli.logFile)
    || TruthyNumber(cli.logMaxSize) || TruthyNumber(cli.logBackupCount)
  }
}
