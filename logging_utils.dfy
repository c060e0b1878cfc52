/** `setup_logging`: the command-line overrides applied to a copy of the
    logging configuration, then the outcome of handing that copy to
    `logging.config.dictConfig`. */
module LoggingUtils {

  import opened Results
  import opened Text
  import opened JsonDoc
  import opened Errors
  import opened Cli
  import opened Paths

  const LoggerKey := "docai_project"

  /** The standard `logging` level numbers. */
  const Debug := 10
  const Warning := 30
  const Critical := 50

  /** `errno.EROFS`: the log file lies on a read-only file system. */
  const ReadOnlyFileSystem := 30

  const LoggerPath: seq<string> := ["loggers", LoggerKey]
  const LevelPath: seq<string> := ["loggers", LoggerKey, "level"]
  const HandlersPath: seq<string> := ["loggers", LoggerKey, "handlers"]
  const FileHandlerPath: seq<string> := ["handlers", "file"]

  function FileFieldPath(field: string): seq<string> {
    FileHandlerPath + [field]
  }

  /** The project logger's level the verbosity flags ask for; the first of
      verbose, quiet and silent that is set wins. */
  function RequestedLevel(cli: CliArgs): Option<int> {
    if cli.verbose then Some(Debug)
    else if cli.quiet then Some(Warning)
    else if cli.silent then Some(Critical)
    else None
  }

  /** Python's `"file" in handlers`: element test on a list, key test on a
      mapping, substring test on a string; None where `in` raises TypeError. */
  function ContainsFile(h: Json): Option<bool> {
    match h
    case JList(items) => Some(JStr("file") in items)
    case JObject(f) => Some("file" in f)
    case JStr(s) => Some(IsSubstring("file", s))
    case _ => None
  }

  /** The handlers after `if "file" not in handlers: handlers.append('file')`;
      None where the test raises TypeError or `append` raises AttributeError. */
  function WithFileHandler(h: Json): (r: Option<Json>)
    ensures r.Some? <==> ContainsFile(h) == Some(true) || h.JList?
    ensures r.Some? ==> ContainsFile(r.value) == Some(true)
    ensures ContainsFile(h) == Some(true) ==> r == Some(h)
    ensures h.JList? ==> r.value.JList? && h.items <= r.value.items
    ensures h.JList? && ContainsFile(h) == Some(false) ==> r == Some(JList(h.items + [JStr("file")]))
  {
    match ContainsFile(h)
    case None => None
    case Some(true) => Some(h)
    case Some(false) => if h.JList? then Some(JList(h.items + [JStr("file")])) else None
  }

  /** A verbosity flag is set but the project logger's entry is no mapping. */
  predicate LevelFails(cli: CliArgs, config: Json) {
    RequestedLevel(cli).Some? && !IsObjectAt(config, LoggerPath)
  }

  /** `--log` is set but the project logger has no usable handler list. */
  predicate HandlersFail(cli: CliArgs, config: Json) {
    cli.log && (Get(config, HandlersPath).None? || WithFileHandler(Get(config, HandlersPath).value).None?)
  }

  predicate FileHandlerMissing(config: Json) {
    !IsObjectAt(config, FileHandlerPath)
  }

  predicate LogFileUnresolvable(cli: CliArgs, cwd: Result<string, string>) {
    TruthyText(cli.logFile) && AbsPath(cli.logFile.value, cwd).Err?
  }

  /** Every override goes through. */
  predicate OverridesApply(cli: CliArgs, config: Json, cwd: Result<string, string>) {
    && !LevelFails(cli, config)
    && !HandlersFail(cli, config)
    && !(LogFileOptionsGiven(cli) && FileHandlerMissing(config))
    && !LogFileUnresolvable(cli, cwd)
  }

  /** The log file's absolute path cannot be computed, and no earlier step
      failed: the OSError of `abspath` escapes. */
  predicate OverridesRaiseOSError(cli: CliArgs, config: Json, cwd: Result<string, string>) {
    && !LevelFails(cli, config)
    && !HandlersFail(cli, config)
    && !(TruthyText(cli.logLevel) && FileHandlerMissing(config))
    && LogFileUnresolvable(cli, cwd)
  }

  /** A path none of the file-handler options writes to, or through. */
  predicate OutsideFileOptions(q: seq<string>) {
    && Independent(FileFieldPath("level"), q)
    && Independent(FileFieldPath("filename"), q)
    && Independent(FileFieldPath("maxBytes"), q)
    && Independent(FileFieldPath("backupCount"), q)
  }

  /** A path none of the overrides writes to, or through. */
  predicate OutsideOverrides(q: seq<string>) {
    Independent(LevelPath, q) && Independent(HandlersPath, q) && OutsideFileOptions(q)
  }

  /** `after` is `before` with the file-handler options applied. */
  ghost predicate FileOptionsHold(cli: CliArgs, cwd: Result<string, string>, before: Json, after: Json) {
    && Get(after, FileFieldPath("level"))
       == (if TruthyText(cli.logLevel) then Some(JStr(cli.logLevel.value)) else Get(before, FileFieldPath("level")))
    && (TruthyText(cli.logFile) ==> AbsPath(cli.logFile.value, cwd).Ok?
                                    && Get(after, FileFieldPath("filename")) == Some(JStr(AbsPath(cli.logFile.value, cwd).value)))
    && (!TruthyText(cli.logFile) ==> Get(after, FileFieldPath("filename")) == Get(before, FileFieldPath("filename")))
    && Get(after, FileFieldPath("maxBytes"))
       == (if TruthyNumber(cli.logMaxSize) then Some(JInt(cli.logMaxSize.value)) else Get(before, FileFieldPath("maxBytes")))
    && Get(after, FileFieldPath("backupCount"))
       == (if TruthyNumber(cli.logBackupCount) then Some(JInt(cli.logBackupCount.value)) else Get(before, FileFieldPath("backupCount")))
    && (forall q :: OutsideFileOptions(q) ==> Get(after, q) == Get(before, q))
  }

  /** `config` is `original` with the command-line overrides applied: each
      overridden entry holds the option's value, an option that is not set
      leaves its entry alone, and so does every override at every other path. */
  ghost predicate OverridesHold(cli: CliArgs, original: Json, cwd: Result<string, string>, config: Json) {
    && Get(config, LevelPath)
       == (if RequestedLevel(cli).Some? then Some(JInt(RequestedLevel(cli).value)) else Get(original, LevelPath))
    && (cli.log ==> Get(original, HandlersPath).Some? && Get(config, HandlersPath).Some?
                    && Get(config, HandlersPath) == WithFileHandler(Get(original, HandlersPath).value))
    && (!cli.log ==> Get(config, HandlersPath) == Get(original, HandlersPath))
    && Get(config, FileFieldPath("level"))
       == (if TruthyText(cli.logLevel) then Some(JStr(cli.logLevel.value)) else Get(original, FileFieldPath("level")))
    && (TruthyText(cli.logFile) ==> AbsPath(cli.logFile.value, cwd).Ok?
                                    && Get(config, FileFieldPath("filename")) == Some(JStr(AbsPath(cli.logFile.value, cwd).value)))
    && (!TruthyText(cli.logFile) ==> Get(config, FileFieldPath("filename")) == Get(original, FileFieldPath("filename")))
    && Get(config, FileFieldPath("maxBytes"))
       == (if TruthyNumber(cli.logMaxSize) then Some(JInt(cli.logMaxSize.value)) else Get(original, FileFieldPath("maxBytes")))
    && Get(config, FileFieldPath("backupCount"))
       == (if TruthyNumber(cli.logBackupCount) then Some(JInt(cli.logBackupCount.value)) else Get(original, FileFieldPath("backupCount")))
    && (forall q :: OutsideOverrides(q) ==> Get(config, q) == Get(original, q))
  }

  /** Two paths that differ at a position both reach are independent. */
  lemma DifferAt(p: seq<string>, q: seq<string>, i: nat)
    requires i < |p| && i < |q| && p[i] != q[i]
    ensures Independent(p, q)
  {
  }

  /** The verbosity and `--log` steps write away from the file handler. */
  lemma LoggerStepsMissFileHandler()
    ensures Independent(LevelPath, HandlersPath)
    ensures Independent(LevelPath, FileHandlerPath) && Independent(HandlersPath, FileHandlerPath)
  {
    DifferAt(LevelPath, HandlersPath, 2);
    DifferAt(LevelPath, FileHandlerPath, 0);
    DifferAt(HandlersPath, FileHandlerPath, 0);
  }

  /** An assignment that succeeds puts its value at its path and changes no
      independent path. */
  lemma {:induction false} SetFrame(j: Json, path: seq<string>, v: Json)
    requires |path| > 0 && Set(j, path, v).Some?
    ensures Get(Set(j, path, v).value, path) == Some(v)
    ensures forall q :: Independent(path, q) ==> Get(Set(j, path, v).value, q) == Get(j, q)
  {
    GetAfterSet(j, path, v);
    forall q | Independent(path, q) ensures Get(Set(j, path, v).value, q) == Get(j, q) {
      GetIndependentOfSet(j, path, v, q);
    }
  }

  /** `after` agrees with `before` everywhere an assignment at `path` cannot reach. */
  ghost predicate FrameOf(before: Json, after: Json, path: seq<string>) {
    forall q :: Independent(path, q) ==> Get(after, q) == Get(before, q)
  }

  /** Where applying the overrides ends. */
  datatype OverrideOutcome =
    | Overridden(config: Json)
    | InvalidConfig
    | AbsPathFailed(message: string)

  /** The verbosity step: the project logger's level, if a flag asks for one. */
  method OverrideLevel(cli: CliArgs, config: Json) returns (next: Option<Json>)
    ensures next.Some? <==> !LevelFails(cli, config)
    ensures next.Some? ==> FrameOf(config, next.value, LevelPath)
    ensures next.Some? ==>
      Get(next.value, LevelPath)
      == (if RequestedLevel(cli).Some? then Some(JInt(RequestedLevel(cli).value)) else Get(config, LevelPath))
  {
    var level := RequestedLevel(cli);
    if level.None? {
      return Some(config);
    }
    assert LevelPath[..2] == LoggerPath;
    SetDefinedIff(config, LevelPath, JInt(level.value));
    next := Set(config, LevelPath, JInt(level.value));
    if next.Some? {
      SetFrame(config, LevelPath, JInt(level.value));
    }
  }

  /** The `--log` step: `file` joins the project logger's handlers. */
  method OverrideHandlers(cli: CliArgs, config: Json) returns (next: Option<Json>)
    ensures next.Some? <==> !HandlersFail(cli, config)
    ensures next.Some? ==> FrameOf(config, next.value, HandlersPath)
    ensures next.Some? && cli.log ==> Get(next.value, HandlersPath) == WithFileHandler(Get(config, HandlersPath).value)
    ensures next.Some? && !cli.log ==> next.value == config
  {
    if !cli.log {
      return Some(config);
    }
    var handlers := Get(config, HandlersPath);
    if handlers.None? {
      return None;
    }
    var present := ContainsFile(handlers.value);
    if present.None? {
      return None;
    }
    if present.value {
      return Some(config);
    }
    if !handlers.value.JList? {
      return None;
    }
    var appended := JList(handlers.value.items + [JStr("file")]);
    GetHasObjectParent(config, HandlersPath);
    SetDefinedIff(config, HandlersPath, appended);
    SetFrame(config, HandlersPath, appended);
    next := Set(config, HandlersPath, appended);
  }

  /** One file-handler option: `config['handlers']['file'][field] = v` when
      the option is set. */
  method OverrideFileField(config: Json, field: string, value: Option<Json>) returns (next: Option<Json>)
    ensures next.Some? <==> value.None? || IsObjectAt(config, FileHandlerPath)
    ensures next.Some? ==> FrameOf(config, next.value, FileFieldPath(field))
    ensures next.Some? ==> IsObjectAt(next.value, FileHandlerPath) == IsObjectAt(config, FileHandlerPath)
    ensures next.Some? ==>
      Get(next.value, FileFieldPath(field)) == (if value.Some? then value else Get(config, FileFieldPath(field)))
  {
    if value.None? {
      return Some(config);
    }
    var p := FileFieldPath(field);
    assert p[..|p| - 1] == FileHandlerPath;
    SetDefinedIff(config, p, value.value);
    next := Set(config, p, value.value);
    if next.Some? {
      SetFrame(config, p, value.value);
      assert IsPrefix(FileHandlerPath, p) by { assert p[..2] == FileHandlerPath; }
      SetKeepsContainers(config, p, value.value, FileHandlerPath);
    }
  }

  /** Four assignments at pairwise independent paths compose: each entry
      written survives the later writes, and every path independent of all
      four keeps its value. */
  lemma {:induction false} FourFramesCompose(c0: Json, c1: Json, c2: Json, c3: Json, c4: Json,
                                             p1: seq<string>, p2: seq<string>, p3: seq<string>, p4: seq<string>)
    requires FrameOf(c0, c1, p1) && FrameOf(c1, c2, p2) && FrameOf(c2, c3, p3) && FrameOf(c3, c4, p4)
    requires Independent(p2, p1) && Independent(p3, p1) && Independent(p4, p1)
    requires Independent(p1, p2) && Independent(p3, p2) && Independent(p4, p2)
    requires Independent(p1, p3) && Independent(p2, p3) && Independent(p4, p3)
    requires Independent(p1, p4) && Independent(p2, p4) && Independent(p3, p4)
    ensures Get(c4, p1) == Get(c1, p1) && Get(c4, p2) == Get(c2, p2) && Get(c4, p3) == Get(c3, p3)
    ensures Get(c1, p2) == Get(c0, p2) && Get(c2, p3) == Get(c0, p3) && Get(c3, p4) == Get(c0, p4)
    ensures forall q :: (Independent(p1, q) && Independent(p2, q) && Independent(p3, q) && Independent(p4, q))
                        ==> Get(c4, q) == Get(c0, q)
  {
  }

  /** The pairwise independence of the six override paths. */
  lemma OverridePathsPairwise()
    ensures
      var pl, ph, fl, ff, fm, fb :=
        LevelPath, HandlersPath, FileFieldPath("level"), FileFieldPath("filename"), FileFieldPath("maxBytes"), FileFieldPath("backupCount");
      && Independent(pl, ph) && Independent(ph, pl)
      && Independent(fl, pl) && Independent(ff, pl) && Independent(fm, pl) && Independent(fb, pl)
      && Independent(fl, ph) && Independent(ff, ph) && Independent(fm, ph) && Independent(fb, ph)
      && Independent(pl, fl) && Independent(ph, fl) && Independent(ff, fl) && Independent(fm, fl) && Independent(fb, fl)
      && Independent(pl, ff) && Independent(ph, ff) && Independent(fl, ff) && Independent(fm, ff) && Independent(fb, ff)
      && Independent(pl, fm) && Independent(ph, fm) && Independent(fl, fm) && Independent(ff, fm) && Independent(fb, fm)
      && Independent(pl, fb) && Independent(ph, fb) && Independent(fl, fb) && Independent(ff, fb) && Independent(fm, fb)
  {
    var fl, ff, fm, fb := FileFieldPath("level"), FileFieldPath("filename"), FileFieldPath("maxBytes"), FileFieldPath("backupCount");
    assert fl[0] == "handlers" && ff[0] == "handlers" && fm[0] == "handlers" && fb[0] == "handlers";
    assert fl[2] == "level" && ff[2] == "filename" && fm[2] == "maxBytes" && fb[2] == "backupCount";
    DifferAt(HandlersPath, LevelPath, 2);
    DifferAt(LevelPath, HandlersPath, 2);
    DifferAt(fl, LevelPath, 0);
    DifferAt(ff, LevelPath, 0);
    DifferAt(fm, LevelPath, 0);
    DifferAt(fb, LevelPath, 0);
    DifferAt(fl, HandlersPath, 0);
    DifferAt(ff, HandlersPath, 0);
    DifferAt(fm, HandlersPath, 0);
    DifferAt(fb, HandlersPath, 0);
    DifferAt(LevelPath, fl, 0);
    DifferAt(HandlersPath, fl, 0);
    DifferAt(ff, fl, 2);
    DifferAt(fm, fl, 2);
    DifferAt(fb, fl, 2);
    DifferAt(LevelPath, ff, 0);
    DifferAt(HandlersPath, ff, 0);
    DifferAt(fl, ff, 2);
    DifferAt(fm, ff, 2);
    DifferAt(fb, ff, 2);
    DifferAt(LevelPath, fm, 0);
    DifferAt(HandlersPath, fm, 0);
    DifferAt(fl, fm, 2);
    DifferAt(ff, fm, 2);
    DifferAt(fb, fm, 2);
    DifferAt(LevelPath, fb, 0);
    DifferAt(HandlersPath, fb, 0);
    DifferAt(fl, fb, 2);
    DifferAt(ff, fb, 2);
    DifferAt(fm, fb, 2);
  }

  /** The four file-handler steps compose into `FileOptionsHold`. */
  lemma {:induction false} FileStepsCompose(cli: CliArgs, cwd: Result<string, string>, filename: Option<Json>,
                                            c0: Json, c1: Json, c2: Json, c3: Json, c4: Json)
    requires FrameOf(c0, c1, FileFieldPath("level"))
    requires Get(c1, FileFieldPath("level"))
             == (if TruthyText(cli.logLevel) then Some(JStr(cli.logLevel.value)) else Get(c0, FileFieldPath("level")))
    requires TruthyText(cli.logFile) ==> AbsPath(cli.logFile.value, cwd).Ok?
                                         && filename == Some(JStr(AbsPath(cli.logFile.value, cwd).value))
    requires !TruthyText(cli.logFile) ==> filename == None
    requires FrameOf(c1, c2, FileFieldPath("filename"))
    requires Get(c2, FileFieldPath("filename")) == (if filename.Some? then filename else Get(c1, FileFieldPath("filename")))
    requires FrameOf(c2, c3, FileFieldPath("maxBytes"))
    requires Get(c3, FileFieldPath("maxBytes"))
             == (if TruthyNumber(cli.logMaxSize) then Some(JInt(cli.logMaxSize.value)) else Get(c2, FileFieldPath("maxBytes")))
    requires FrameOf(c3, c4, FileFieldPath("backupCount"))
    requires Get(c4, FileFieldPath("backupCount"))
             == (if TruthyNumber(cli.logBackupCount) then Some(JInt(cli.logBackupCount.value)) else Get(c3, FileFieldPath("backupCount")))
    ensures FileOptionsHold(cli, cwd, c0, c4)
  {
    OverridePathsPairwise();
    FourFramesCompose(c0, c1, c2, c3, c4, FileFieldPath("level"), FileFieldPath("filename"),
                      FileFieldPath("maxBytes"), FileFieldPath("backupCount"));
  }

  /** The file-handler options of the first `try` block, applied in order to
      `config`. */
  method OverrideFileOptions(cli: CliArgs, config: Json, cwd: Result<string, string>) returns (r: OverrideOutcome)
    ensures r.Overridden? <==> !(LogFileOptionsGiven(cli) && FileHandlerMissing(config)) && !LogFileUnresolvable(cli, cwd)
    ensures r.AbsPathFailed? <==> !(TruthyText(cli.logLevel) && FileHandlerMissing(config)) && LogFileUnresolvable(cli, cwd)
    ensures r.AbsPathFailed? ==> r.message == AbsPath(cli.logFile.value, cwd).error
    ensures r.Overridden? ==> FileOptionsHold(cli, cwd, config, r.config)
  {
    ghost var fileHandler := IsObjectAt(config, FileHandlerPath);
    var c1 := OverrideFileField(config, "level",
                                if TruthyText(cli.logLevel) then Some(JStr(cli.logLevel.value)) else None);
    if c1.None? {
      return InvalidConfig;
    }
    var filename := None;
    if TruthyText(cli.logFile) {
      var path := AbsPath(cli.logFile.value, cwd);
      if path.Err? {
        return AbsPathFailed(path.error);
      }
      filename := Some(JStr(path.value));
    }
    var c2 := OverrideFileField(c1.value, "filename", filename);
    if c2.None? {
      return InvalidConfig;
    }
    var c3 := OverrideFileField(c2.value, "maxBytes",
                                if TruthyNumber(cli.logMaxSize) then Some(JInt(cli.logMaxSize.value)) else None);
    if c3.None? {
      return InvalidConfig;
    }
    var c4 := OverrideFileField(c3.value, "backupCount",
                                if TruthyNumber(cli.logBackupCount) then Some(JInt(cli.logBackupCount.value)) else None);
    if c4.None? {
      return InvalidConfig;
    }
    FileStepsCompose(cli, cwd, filename, config, c1.value, c2.value, c3.value, c4.value);
    return Overridden(c4.value);
  }

  /** Every path a file-handler option writes is outside the verbosity and
      `--log` steps, and the reverse. */
  lemma LoggerPathsMissFileOptions()
    ensures Independent(LevelPath, HandlersPath) && Independent(HandlersPath, LevelPath)
    ensures OutsideFileOptions(LevelPath) && OutsideFileOptions(HandlersPath)
    ensures forall f :: Independent(LevelPath, FileFieldPath(f)) && Independent(HandlersPath, FileFieldPath(f))
  {
    DifferAt(LevelPath, HandlersPath, 2);
    DifferAt(HandlersPath, LevelPath, 2);
    forall f ensures Independent(FileFieldPath(f), LevelPath) && Independent(FileFieldPath(f), HandlersPath)
      && Independent(LevelPath, FileFieldPath(f)) && Independent(HandlersPath, FileFieldPath(f))
    {
      assert FileFieldPath(f)[0] == "handlers";
      DifferAt(FileFieldPath(f), LevelPath, 0);
      DifferAt(FileFieldPath(f), HandlersPath, 0);
      DifferAt(LevelPath, FileFieldPath(f), 0);
      DifferAt(HandlersPath, FileFieldPath(f), 0);
    }
  }

  /** The verbosity, `--log` and file-handler steps compose into `OverridesHold`. */
  lemma {:induction false} LoggerStepsCompose(cli: CliArgs, cwd: Result<string, string>, c0: Json, c1: Json, c2: Json, c3: Json)
    requires FrameOf(c0, c1, LevelPath)
    requires Get(c1, LevelPath)
             == (if RequestedLevel(cli).Some? then Some(JInt(RequestedLevel(cli).value)) else Get(c0, LevelPath))
    requires FrameOf(c1, c2, HandlersPath)
    requires !HandlersFail(cli, c1)
    requires cli.log ==> Get(c2, HandlersPath) == WithFileHandler(Get(c1, HandlersPath).value)
    requires !cli.log ==> c2 == c1
    requires FileOptionsHold(cli, cwd, c2, c3)
    ensures OverridesHold(cli, c0, cwd, c3)
  {
    LoggerPathsMissFileOptions();
    assert Get(c3, LevelPath) == Get(c1, LevelPath) by {
      assert Get(c3, LevelPath) == Get(c2, LevelPath);
    }
    assert Get(c3, HandlersPath) == Get(c2, HandlersPath);
    assert Get(c1, HandlersPath) == Get(c0, HandlersPath);
    forall f ensures Get(c2, FileFieldPath(f)) == Get(c0, FileFieldPath(f)) {
      assert Get(c2, FileFieldPath(f)) == Get(c1, FileFieldPath(f));
    }
    forall q | OutsideOverrides(q) ensures Get(c3, q) == Get(c0, q) {
      assert Get(c3, q) == Get(c2, q);
      assert Get(c1, q) == Get(c0, q);
    }
  }

  /** The first `try` block of `setup_logging`, on a copy of the configuration
      (a `Json` is a value, so the caller's configuration is never changed).
      `cwd` is what `os.getcwd()` gives when the log file path is relative.
      KeyError, TypeError and AttributeError end in `InvalidConfig`; the
      OSError of `abspath` escapes as `AbsPathFailed`. */
  method ApplyOverrides(cli: CliArgs, loggerArgs: Json, cwd: Result<string, string>) returns (r: OverrideOutcome)
    ensures r.Overridden? <==> OverridesApply(cli, loggerArgs, cwd)
    ensures r.AbsPathFailed? <==> OverridesRaiseOSError(cli, loggerArgs, cwd)
    ensures r.AbsPathFailed? ==> r.message == AbsPath(cli.logFile.value, cwd).error
    ensures r.Overridden? ==> OverridesHold(cli, loggerArgs, cwd, r.config)
  {
    LoggerStepsMissFileHandler();
    var c1 := OverrideLevel(cli, loggerArgs);
    if c1.None? {
      return InvalidConfig;
    }
    var c2 := OverrideHandlers(cli, c1.value);
    if c2.None? {
      return InvalidConfig;
    }
    assert Get(c1.value, HandlersPath) == Get(loggerArgs, HandlersPath);
    assert Get(c2.value, FileHandlerPath) == Get(loggerArgs, FileHandlerPath);
    r := OverrideFileOptions(cli, c2.value, cwd);
    if r.Overridden? {
      LoggerStepsCompose(cli, cwd, loggerArgs, c1.value, c2.value, r.config);
    }
  }

  /** `logger_config.get("handlers", {}).get("file", {}).get("filename")`;
      a step that reaches something other than a mapping raises AttributeError. */
  function LogLocation(config: Json): (r: Result<Option<Json>, Raised>)
    ensures r.Err? <==>
      || !config.JObject?
      || (Get(config, ["handlers"]).Some? && !IsObjectAt(config, ["handlers"]))
      || (Get(config, FileHandlerPath).Some? && !IsObjectAt(config, FileHandlerPath))
    ensures r.Err? ==> r.error == NoGetError
    ensures r.Ok? ==> r.value == Get(config, FileFieldPath("filename"))
    ensures config.JObject? && "handlers" !in config.fields ==> r == Ok(None)
    ensures IsObjectAt(config, ["handlers"]) && Get(config, FileHandlerPath).None? ==> r == Ok(None)
  {
    assert FileFieldPath("filename") == ["handlers", "file", "filename"];
    match config
    case JObject(top) =>
      if "handlers" !in top then Ok(None)
      else (match top["handlers"]
        case JObject(handlers) =>
          if "file" !in handlers then Ok(None)
          else (match handlers["file"]
            case JObject(file) => Ok(if "filename" in file then Some(file["filename"]) else None)
            case _ => Err(NoGetError))
        case _ => Err(NoGetError))
    case _ => Err(NoGetError)
  }

  /** What `.get` on something other than a mapping raises. */
  const NoGetError: Raised := Foreign("AttributeError", "object has no attribute 'get'")

  /** What `logging.config.dictConfig` does with the configuration; every
      OSError subclass is a `RaisedOSError`. Any other exception carries the
      names of the classes it is an instance of (its class and every base
      class), which decide the `except` clause that catches it. */
  datatype DictConfigOutcome =
    | Accepted
    | RaisedOSError(errno: int, message: string)
    | RaisedOther(className: string, classes: seq<string>, message: string)

  datatype ExitReason =
    | InvalidConfiguration
    | UnwritableLogLocation(location: Option<Json>)

  /** The end of `setup_logging`: logging configured, `exit(1)` after a
      critical log record, or an exception passed on to the caller. */
  datatype LoggingOutcome =
    | Configured(config: Json)
    | Exited(status: int, reason: ExitReason)
    | Propagated(error: Raised)

  const ConfigurationErrors: seq<string> := ["ValueError", "TypeError", "KeyError"]

  /** `isinstance(exc, (ValueError, TypeError, KeyError))`. */
  predicate IsConfigurationError(classes: seq<string>) {
    exists i :: 0 <= i < |classes| && classes[i] in ConfigurationErrors
  }

  /** The second `try` block: the outcome of `dictConfig(config)`. */
  function AfterDictConfig(config: Json, outcome: DictConfigOutcome): (r: LoggingOutcome)
    ensures r.Configured? <==> outcome.Accepted?
    ensures r.Configured? ==> r.config == config
    ensures r.Exited? ==> r.status == 1
    ensures outcome.RaisedOSError? && outcome.errno != ReadOnlyFileSystem ==>
      r == Propagated(Foreign("OSError", outcome.message))
    ensures outcome.RaisedOSError? && outcome.errno == ReadOnlyFileSystem && IsObjectAt(config, FileHandlerPath) ==>
      r == Exited(1, UnwritableLogLocation(Get(config, FileFieldPath("filename"))))
    ensures outcome.RaisedOSError? && outcome.errno == ReadOnlyFileSystem ==>
      r == (match LogLocation(config)
            case Ok(location) => Exited(1, UnwritableLogLocation(location))
            case Err(e) => Propagated(e))
    ensures outcome.RaisedOther? ==>
      (r.Exited? <==> IsConfigurationError(outcome.classes))
      && (r.Exited? ==> r.reason == InvalidConfiguration)
      && (r.Propagated? ==> r.error == Foreign(outcome.className, outcome.message))
  {
    match outcome
    case Accepted => Configured(config)
    case RaisedOSError(errno, message) =>
      if errno == ReadOnlyFileSystem then
        match LogLocation(config)
        case Ok(location) => Exited(1, UnwritableLogLocation(location))
        case Err(e) => Propagated(e)
      else Propagated(Foreign("OSError", message))
    case RaisedOther(className, classes, message) =>
      if IsConfigurationError(classes) then Exited(1, InvalidConfiguration)
      else Propagated(Foreign(className, message))
  }

  /** `setup_logging(cli_args, logger_args)`. `dictConfig` gives what
      `logging.config.dictConfig` does with a configuration; `applied` is the
      configuration it was handed, if the overrides got that far. */
  method SetupLogging(cli: CliArgs, loggerArgs: Json, cwd: Result<string, string>, dictConfig: Json -> DictConfigOutcome)
    returns (r: LoggingOutcome, applied: Option<Json>)
    ensures applied.Some? <==> OverridesApply(cli, loggerArgs, cwd)
    ensures applied.Some? ==>
      OverridesHold(cli, loggerArgs, cwd, applied.value) && r == AfterDictConfig(applied.value, dictConfig(applied.value))
    ensures OverridesRaiseOSError(cli, loggerArgs, cwd) ==>
      r == Propagated(Foreign("OSError", AbsPath(cli.logFile.value, cwd).error))
    ensures applied.None? && !OverridesRaiseOSError(cli, loggerArgs, cwd) ==> r == Exited(1, InvalidConfiguration)
  {
    var overridden := ApplyOverrides(cli, loggerArgs, cwd);
    match overridden
    case InvalidConfig =>
      r, applied := Exited(1, InvalidConfiguration), None;
    case AbsPathFailed(message) =>
      r, applied := Propagated(Foreign("OSError", message)), None;
    case Overridden(config) =>
      r, applied := AfterDictConfig(config, dictConfig(config)), Some(config);
  }

  /** With `--log`, the project logger ends up with a `file` handler, and the
      handlers it had stay in place. */
  lemma FileHandlerEnabled(cli: CliArgs, original: Json, cwd: Result<string, string>, config: Json)
    requires OverridesHold(cli, original, cwd, config) && cli.log
    ensures Get(config, HandlersPath).Some? && ContainsFile(Get(config, HandlersPath).value) == Some(true)
    ensures Get(original, HandlersPath).value.JList? ==>
      Get(config, HandlersPath).value.JList? && Get(original, HandlersPath).value.items <= Get(config, HandlersPath).value.items
  {
  }

  /** The verbosity flags: verbose over quiet over silent. */
  lemma VerbosityPrecedence(cli: CliArgs, original: Json, cwd: Result<string, string>, config: Json)
    requires OverridesHold(cli, original, cwd, config)
    ensures cli.verbose ==> Get(config, LevelPath) == Some(JInt(Debug))
    ensures !cli.verbose && cli.quiet ==> Get(config, LevelPath) == Some(JInt(Warning))
    ensures !cli.verbose && !cli.quiet && cli.silent ==> Get(config, LevelPath) == Some(JInt(Critical))
    ensures !cli.verbose && !cli.quiet && !cli.silent ==> Get(config, LevelPath) == Get(original, LevelPath)
  {
  }
}
