# docai core in Dafny

This project models the configuration and LLM-provider core of `docai`, a
command-line tool that documents a code base with a large language model.
The model covers:

- **Command-line rules.** `parse_arguments` refuses the log-file options
  without `--log`.
- **Loading.** The project arguments, the two packaged YAML files and the
  two LLM semaphores, in the order `load_config` builds them.
- **Logging setup.** `setup_logging` overrides the packaged logging
  configuration from the command line and classifies how `dictConfig`
  fails.
- **Error hierarchy.** `LLMError` with its client (4xx) and server (5xx)
  subclasses and the 6xx codes of the system.
- **Request and response records.** The messages a request carries.
- **Provider selection.** `get_client` supports only "google".
- **The Google adapter.** Building the client and its tool tables,
  validation, idempotent close, the request settings, tool resolution,
  translating messages to Google contents, and turning the SDK's answer
  into a response or a classified error.
- **File types.** `get_file_type` takes the text after the last dot.

The model follows the Python code closely:

- Frozen dataclasses become datatypes.
- The two things the code changes in place become classes with `modifies`
  clauses: the Google client (its `_closed` flag) and the LLM settings
  dictionary that `setup_llm` extends.
- Everything the code gets from outside becomes a parameter standing for
  the outcome:
  - the Gemini SDK;
  - YAML parsing and package resources;
  - `os.getcwd`;
  - `logging.config.dictConfig`;
  - `argparse`.

One module per source file, plus small supporting modules:

| module | contents |
|---|---|
| `Results` | the `Option` and `Result` types |
| `Text` | decimal rendering and parsing; substring tests |
| `JsonDoc` | loaded YAML and nested `d[k1][k2] = v` writes |
| `Paths` | `os.path.abspath` |
| `Cli` | the parsed command line |
| `Genai` | the SDK's contents, tools and responses |

## Model

| member | source | states |
|---|---|---|
| Errors.NewLLMError | src/docai/llm/errors.py:16-19 | an `LLMError` keeps its code and text and is neither a client nor a server error |
| Errors.NewClientError | src/docai/llm/errors.py:22-32 | a client error is an `LLMError`, a client error and not a server error, with code and text kept |
| Errors.NewServerError | src/docai/llm/errors.py:35-49 | a server error is an `LLMError`, a server error and not a client error, with code and text kept |
| Errors.RenderRoundTrip | src/docai/llm/errors.py:19 | the exception text `code <n> -> <response>` can be parsed back into the code and the response |
| Errors.RenderInjective | src/docai/llm/errors.py:19 | two errors with the same exception text have the same code and the same response |
| Text.IntToStringRoundTrip | src/docai/llm/errors.py:19 | the decimal rendering of the status code parses back to the same integer, negative codes included |
| Datatypes.NewRetryConfig | src/docai/llm/datatypes.py:44-48 | a retry configuration without `retry_on` retries on "5..", "408" and "429" |
| Datatypes.Message.Original | src/docai/llm/datatypes.py:77-117 | only provider messages (assistant message, function call) carry original content; internal messages never do |
| Datatypes.NewFunctionCall | src/docai/llm/datatypes.py:108-111 | a function call keeps its name, arguments and original content, and its arguments default to empty |
| Datatypes.NewFunctionResponse | src/docai/llm/datatypes.py:114-117 | a function response keeps the call it answers, and its payload defaults to empty |
| Datatypes.NewRequest | src/docai/llm/datatypes.py:120-131 | a request keeps its prompt, id, system prompt, history, allowed tools and schema; the optional ones default to none or empty |
| Client.SelectProvider | src/docai/llm/client.py:26-35 | a provider is accepted exactly when its name is "google"; any other name is error 600, a plain `LLMError` whose text ends with the name |
| Client.UnsupportedNameInMessage | src/docai/llm/client.py:32-35 | the rejected provider name appears in the error text |
| Client.GetClient | src/docai/llm/client.py:26-35 | "google" yields a fresh, open client with no custom tools and the "search" provider tool, or raises exactly what building the client raises (the classified `APIError`, or the other exception unchanged); any other name raises 600 without building a client |
| FileInfos.Split | src/docai/scanning/file_infos.py:8 | `str.split` yields at least one piece and no piece holds the separator |
| FileInfos.JoinSplit | src/docai/scanning/file_infos.py:8 | joining the pieces of a split with the separator gives back the original text |
| FileInfos.SplitWithoutSeparator | src/docai/scanning/file_infos.py:8 | text without the separator splits into itself alone |
| FileInfos.LastPieceFollowsLastSeparator | src/docai/scanning/file_infos.py:8 | the last piece is the text after the last separator |
| FileInfos.GetFileType | src/docai/scanning/file_infos.py:1-8 | a name without a dot raises `ValueError("Could not detect file type")`; otherwise the type is dot-free and the name is some prefix, a dot, then the type |
| FileInfos.FileTypeIsAfterLastDot | src/docai/scanning/file_infos.py:5-8 | the file type is exactly the text after the last dot |
| FileInfos.GetFileTypeExamples | src/docai/scanning/file_infos.py:5-8 | "archive." has the empty type, "/a.b/c" has "b/c", "notes.tar.gz" has "gz" |
| GoogleProvider.ClassifyApiError | src/docai/llm/google_provider.py:36-42 | an SDK `APIError` becomes a client error exactly for codes 400-499 and a server error exactly for 500-599, with code and message kept |
| GoogleProvider.CallFailure | src/docai/llm/google_provider.py:162-187 | a failing SDK call raises the classified `APIError`, with a missing message as ""; any other exception raises 601 with its text |
| GoogleProvider.DocumentedCodesClassify | src/docai/llm/errors.py:7-49 | every documented client code classifies as a client error and every documented server code as a server error; the 6xx codes stay plain |
| GoogleProvider.ValidationError | src/docai/llm/google_provider.py:57-85 | validation fails exactly when listing the models fails, and then raises that failure classified |
| GoogleProvider.FirstUnknownTool | src/docai/llm/google_provider.py:125-136 | no name is reported exactly when every allowed name is in a tool table; otherwise the name reported is the first one in neither table |
| GoogleProvider.FirstUnknownAt | src/docai/llm/google_provider.py:125-136 | a name unknown to both tables with only known names before it is the one reported |
| GoogleProvider.ResolvedCount | src/docai/llm/google_provider.py:125-129 | when all names are known, each one contributes exactly one custom declaration or one provider tool |
| GoogleProvider.CustomShadowsProvider | src/docai/llm/google_provider.py:126-129 | a name in the custom table never selects a provider tool, even if the provider table has it too |
| GoogleProvider.NoNamesNoTools | src/docai/llm/google_provider.py:121 | without allowed names no tool is resolved |
| GoogleProvider.DeclarationsToolIsLast | src/docai/llm/google_provider.py:138-139 | when custom declarations were selected, the last tool bundles exactly those declarations |
| GoogleProvider.Settings | src/docai/llm/google_provider.py:107-143 | the `config=` keys are the model's generation keys plus `system_instruction` when a system prompt is given, the MIME type and schema when a schema is given, and `tools` when tools were resolved; the request's entries override, and every generation value the request does not override is kept, including a configured `tools` or `system_instruction` |
| GoogleProvider.TransformContent | src/docai/llm/google_provider.py:231-274 | a message from Google goes back verbatim; user messages and function responses become "user" contents, assistant messages and function calls "model" contents; direct base-class instances raise `TypeError` naming the class |
| GoogleProvider.TransformAll | src/docai/llm/google_provider.py:148 | the history translates exactly when every message does, element by element in order; otherwise the first failure is raised |
| GoogleProvider.RequestContents | src/docai/llm/google_provider.py:145-152 | the contents are the translated prompt followed by the translated history; a failing prompt raises its error first, and otherwise the first failing history message raises its error |
| GoogleProvider.DecideResponse | src/docai/llm/google_provider.py:189-228 | no content gives 602; more than one function call gives 603; exactly one gives an `LLMFunctionCall`; otherwise non-empty text gives an `LLMAssistantMessage` and empty text 602. Empty or missing text gives 602 with the response's text appended. A response always carries the request id and Google's content tagged "google". A missing or empty candidate list escapes as a foreign exception |
| GoogleProvider.ReplayIsVerbatim | src/docai/llm/google_provider.py:198-219 | a response put back into a history is sent to Google as exactly the content Google returned |
| GoogleProvider.BuildCustomTools | src/docai/llm/google_provider.py:46-49 | the custom table has exactly the given tool names, each built from the last description given for it |
| GoogleProvider.GoogleClient.constructor | src/docai/llm/google_provider.py:44-53 | a new client is open, has not closed its SDK client, and holds the given custom table and the "search" provider tool |
| GoogleProvider.GoogleClient.Init | src/docai/llm/google_provider.py:26-55 | an SDK `APIError` while building is classified, another exception escapes unchanged; otherwise a fresh open client with the "search" provider tool and a custom table holding exactly the given tool names, each built from its last description (empty when no tools are given) |
| GoogleProvider.GoogleClient.Create | src/docai/llm/google_provider.py:87-94 | build, then validate: a build failure raises exactly what `__init__` raises, then a validation failure raises its classified error; otherwise a fresh open client with the tool tables `__init__` builds |
| GoogleProvider.GoogleClient.Close | src/docai/llm/google_provider.py:96-102 | closing an open client closes the SDK client once; closing again does nothing; a failing `aclose` leaves the client open and re-raises |
| GoogleProvider.GoogleClient.ResolveTools | src/docai/llm/google_provider.py:121-139 | the tool loop raises 606 "Tool '<name>' not found" for the first unknown name, and otherwise returns the provider tools in order followed by one tool with the custom declarations |
| GoogleProvider.GoogleClient.GenerationSettings | src/docai/llm/google_provider.py:107-143 | the settings are those of `Settings` with the resolved tools, or 606 for the first unknown allowed tool |
| GoogleProvider.GoogleClient.Generate | src/docai/llm/google_provider.py:104-228 | an unknown tool raises 606 and a failing translation raises its error, in both cases before anything is sent; otherwise exactly one `generate_content` call is sent with the model name, the contents and the settings, and its outcome is decided or classified; any response carries the request id |
| JsonDoc.SetDefinedIff | src/docai/utils/logging_utils.py:14-31 | a nested assignment `d[k1]...[kn] = v` succeeds exactly when every key before the last leads to a mapping |
| JsonDoc.GetAfterSet | src/docai/utils/logging_utils.py:14-31 | after a nested assignment the path reads the assigned value |
| JsonDoc.GetIndependentOfSet | src/docai/utils/logging_utils.py:14-31 | a nested assignment leaves every path that is not a prefix or extension of it unchanged |
| JsonDoc.SetKeepsContainers | src/docai/utils/logging_utils.py:14-31 | a nested assignment keeps the mappings along its path |
| JsonDoc.GetHasObjectParent | src/docai/utils/logging_utils.py:40-42 | a readable path has a mapping at its parent |
| Paths.AbsPath | src/docai/config/loader.py:104 | an absolute path is kept; a relative one fails exactly when the current directory cannot be determined, and otherwise ends with the given path |
| LoggingUtils.WithFileHandler | src/docai/utils/logging_utils.py:20-23 | the handlers then contain "file"; handlers already containing it are unchanged; a list without it gains exactly one "file" at its end; a non-list without "file" fails |
| LoggingUtils.OverrideLevel | src/docai/utils/logging_utils.py:13-18 | the logger level becomes DEBUG, WARNING or CRITICAL by precedence verbose, quiet, silent; nothing else changes; a missing logger fails |
| LoggingUtils.OverrideHandlers | src/docai/utils/logging_utils.py:20-23 | with `--log` the logger's handlers gain "file"; without it the configuration is unchanged |
| LoggingUtils.OverrideFileField | src/docai/utils/logging_utils.py:24-31 | a given file-handler setting is written into the file handler, which must exist; nothing else changes |
| LoggingUtils.OverrideFileOptions | src/docai/utils/logging_utils.py:24-31 | the four file options are applied in order; a missing file handler fails; an unresolvable log file raises OSError |
| LoggingUtils.ApplyOverrides | src/docai/utils/logging_utils.py:10-34 | the overrides succeed exactly when no step hits a missing key or wrong type and the log file resolves; on success the configuration has every requested setting and is otherwise the original; an unresolvable log file raises its OSError |
| LoggingUtils.LogLocation | src/docai/utils/logging_utils.py:40-42 | the `.get` chain raises `AttributeError` exactly when the configuration, its `handlers` entry or its `handlers.file` entry is present but not a mapping; otherwise it reads `handlers.file.filename`, which is none when any key on the way is missing |
| LoggingUtils.AfterDictConfig | src/docai/utils/logging_utils.py:36-52 | an accepted configuration is the result; errno 30 (read-only file system) exits with status 1 and the log location read by the `.get` chain, or propagates the `AttributeError` of that chain; any instance of `ValueError`, `TypeError` or `KeyError` (subclasses included) exits with status 1; any other exception propagates |
| LoggingUtils.SetupLogging | src/docai/utils/logging_utils.py:9-52 | `dictConfig` is called exactly when the overrides succeed, with the overridden configuration; an unresolvable log file propagates its OSError; any other override failure exits with status 1 |
| Loader.ParseArguments | src/docai/config/loader.py:93-99 | any of the four log-file options without `--log` exits with status 2 and "--log is required when using log file options"; otherwise the arguments pass through |
| Loader.BuildProjectArgs | src/docai/config/loader.py:102-112 | the working directory is the absolute form of a non-empty `--directory`, else the current directory; failing to get the current directory raises `ConfigError` with its text; action and interactive flag are kept |
| Loader.LoadConfigFile | src/docai/config/loader.py:115-129 | a file loads exactly when it parses to a mapping, which is returned; a missing file, unparsable YAML and a non-mapping document each raise `ConfigError` with their message; other exceptions pass through |
| Loader.ConfigErrorsNameTheFile | src/docai/config/loader.py:119-127 | every `ConfigError` of loading names the file, quoted |
| Loader.RequestedConcurrency | src/docai/config/loader.py:133 | `max_concurrency` is read from `globals` and defaults to 1; a `globals` that is not a mapping raises `AttributeError`, and nothing else raises |
| Loader.SemaphoreCapacity | src/docai/config/loader.py:134-135 | a capacity is accepted exactly when it is a non-negative integer or a boolean; a negative integer raises `ValueError`, anything else `TypeError` |
| Loader.LlmArgs.constructor | src/docai/config/loader.py:144 | the LLM settings hold the loaded mapping |
| Loader.LlmArgs.SetupLlm | src/docai/config/loader.py:132-137 | succeeds exactly when the capacity is accepted, and then adds `semaphore` with that capacity and `inflight_semaphore` with twice it, keeping the other entries; on failure nothing changes |
| Loader.LoadConfig | src/docai/config/loader.py:140-152 | the command line, project arguments, logging file, LLM file and semaphores are done in that order and the first failure is the result; on success the configuration holds each of them |

## Left out

- The LLM client facade, the retry and fallback logic, the request models
  and the service layer are outside this model. So are the dependency
  scanner, the workflows, the entry point and the JSON schemas.
  `llm_datatypes.py` declares `RetryPolicy` and `LLMExecutionPlan`, but no
  code executes them; there is no dispatcher, cache or plan resolver.
- Asynchrony is not modelled. Every `await` is one step, and a failing
  call's exception comes back as a value.
- The external libraries are oracles: parameters that stand for their
  outcome. This covers the Gemini SDK, `yaml.safe_load`,
  `importlib.resources`, `argparse`, `os.getcwd` and
  `logging.config.dictConfig`. The model does not check what they do
  internally.
- Log messages (`logger.debug`, `logger.error`, `logging.critical`) are
  side effects that are not modelled.
- Paths.AbsPath: does not normalise `..`, `.` or repeated slashes (the
  `normpath` part of `os.path.abspath`). It only joins a relative path to
  the current directory.
- Json: YAML floats are not modelled. A float `max_concurrency` would be
  accepted by `asyncio.Semaphore`, and `SemaphoreCapacity` has no case for
  it.
- GoogleProvider.ClassifyApiError: a `None` message from the SDK at
  construction or validation is stored as "". Python would store `None`
  there.
- GoogleProvider.DecideResponse: the SDK's function-call objects are
  assumed to expose `name` and `arguments` as the code reads them.
  Whether the SDK attribute is named `arguments` or `args` is not part of
  this model.
- GoogleProvider.TransformContent: the handler around translation names
  `genai.APIError` (`google_provider.py:153`), while every other handler
  names `genai_errors.APIError`. Whether `google.genai` exports `APIError`
  is not part of this model. If it does not, a `TypeError` from
  translation would turn into an `AttributeError` when Python evaluates
  that `except` clause. The model raises the `TypeError`.
- GoogleProvider.DecideResponse: "no content" is modelled as a candidate
  whose content is missing. Other falsy content is not modelled.
- GoogleProvider.TransformContent: error 607 is never raised. Translation
  raises only `TypeError`, and the `except genai.APIError` around it can
  never fire.
- GoogleProvider.BuildCustomTools: `types.FunctionDeclaration(**desc)` is
  modelled as keeping the description. Its validation errors are not
  modelled.
- GoogleProvider.AllowedNames: `allowed_tools` is a Python set, so it is
  modelled as a sequence in the set's iteration order.
- Client.GetClient: the `LLMClient` protocol has one implementation, so
  `get_client` returns the Google client directly.
- GoogleProvider.GoogleClient.Generate: as in the source, `generate` does
  not check whether the client was closed.
- Loader.ParseArguments: only the `--log` rule is modelled. Option
  choices, types and defaults are left to `argparse`, whose outcome is a
  parameter.
- LoggingUtils.AfterDictConfig: OSError subclasses are folded into one
  case with an errno. Any other exception is described by the names of
  its classes, so subclasses of `ValueError`, `TypeError` and `KeyError`
  exit with status 1 as the source's `except` clause catches them.
- LoggingUtils.ApplyOverrides: the nested assignments and the in-place
  `handlers.append('file')` are modelled as value updates on a tree.
  YAML anchors and aliases (`&h` … `*h`) load as one shared object, and
  `copy.deepcopy` keeps that sharing; the model treats them as independent
  copies. For such a file the appended "file" would also appear at every
  aliased handler list, which the frame of the overrides does not capture.
- Datatypes: `ProfileConfig`, `ProfileSelection`, `ConcurrencyConfig`,
  `LLMConfig` and `Role` are declarations only. No modelled operation reads
  them; the code that consumes them is outside this model.
- LoggingUtils.SetupLogging: `exit(1)` is an outcome value, not a process
  exit.
