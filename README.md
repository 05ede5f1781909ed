# Auto-Claude insights runtime, modelled in Dafny

This project models the parts of Auto-Claude that start and supervise its
Python agent processes, and the helpers those processes rely on.

- **Insights executor** (`insights-executor.ts`). An Electron main-process
  class keeps one worker process per project. `execute` cancels the
  project's running worker. It then finds the worker source and its runner
  script, writes the conversation history to a temporary file, spawns the
  interpreter and registers the process. The pending promise is fed by
  callbacks:
  - stdout chunks, split into lines that are text or `__TASK_SUGGESTION__:`,
    `__TOOL_START__:` and `__TOOL_END__:` markers;
  - stderr chunks;
  - `close`, `error`, and a 70-second hard timeout.

  The promise is resolved or rejected once. The `settled` flag guards
  only the error path: a successful `close` resolves without setting it.
  A 10 000-character output buffer
  supplies the rate-limit check and the last 25 lines of error details.
- **Insights configuration** (`insights/config.ts`). Locates the worker
  source directory and its virtual-environment interpreter. Parses the
  `.env` file. Merges the spawn environment.
- **Python detection** (`python-detector.ts`). Picks the first candidate
  command that reports Python 3. Splits a command string into a program
  and its arguments.
- **Updater HTTP helpers** (`updater/http-client.ts`). Builds proxied
  GitHub URLs. Keeps at most 10 KiB of an error body. Retries a failed
  request once through the proxy.
- **Credential resolution** (`core/auth.py`). Looks for a token in two
  environment variables, then `~/.claude/settings.json`, then the macOS
  keychain. Builds the SDK environment. Fills missing variables in place.
- **Prompt loading** (`prompts_pkg/prompt_loader.py`). Tries the localized
  prompt file, then falls back to the English one.
- **Logging setup** (`core/logging_setup.py`). Optionally attaches a
  rotating file handler to the root logger.

State the source changes in place is modelled with classes:

- the executor's registry;
- one `Session` per `execute` promise, holding its closure variables and
  the events it emitted;
- the config object;
- `os.environ`;
- the root logger;
- the error-body accumulator.

Loops are methods with invariants, proved equal to specification
functions. Properties of those functions are proved as lemmas.

Things the model takes as inputs rather than computing:

- **Oracles:** JSON parsers, the rate-limit detector, the `--version`
  probe, the HTTP request, and the keychain command's output.
- **Parameters:** the clock, the platform flags, the process environment
  and the file system. The clock is read once per tool-start line (a
  sequence of readings per stdout chunk, one per line) and once per
  history file name. The file system is a set of existing paths plus
  file contents.

The model is built on a few shared pieces:

- `Common` holds `Option`, `Result` and JSON values.
- `Strings` holds the JavaScript and Python string primitives used by the
  code: `trim`, `strip`, `split`, `join`, path joins, and decimal
  conversion.

## Model

| member | source | states |
|---|---|---|
| PythonDetector.Candidates | auto-claude-ui/src/main/python-detector.ts:14-16 | four candidates on Windows, two elsewhere |
| PythonDetector.GetDefaultPythonCommand | auto-claude-ui/src/main/python-detector.ts:45-47 | `python` on Windows, `python3` elsewhere, and it is one of the candidates |
| PythonDetector.FindPythonCommand | auto-claude-ui/src/main/python-detector.ts:9-37 | the loop returns the first candidate whose version output contains `Python 3`, else the platform default; never empty |
| PythonDetector.ParsePythonCommand | auto-claude-ui/src/main/python-detector.ts:56-68 | a path starting with `/` or a drive letter is kept whole; otherwise command and arguments contain no space and rejoin with spaces to the input |
| InsightsConfig.AutoBuildSourceChoice | auto-claude-ui/src/main/insights/config.ts:56-78 | a configured existing directory wins; otherwise the first candidate that exists and holds `requirements.txt`, none exactly when no candidate qualifies |
| InsightsConfig.VenvCandidates | auto-claude-ui/src/main/insights/config.ts:37-42 | one interpreter candidate on Windows, two elsewhere |
| InsightsConfig.PythonPathChoice | auto-claude-ui/src/main/insights/config.ts:32-51 | the first existing venv interpreter of the source directory, else the configured command |
| InsightsConfig.StripQuotes | auto-claude-ui/src/main/insights/config.ts:104-107 | one pair of matching outer quotes is removed; a lone quote gives the empty string; anything else is unchanged |
| InsightsConfig.ParseEnvLineSkips | auto-claude-ui/src/main/insights/config.ts:96-100 | blank lines, comments and lines without a key before `=` define nothing |
| InsightsConfig.ParseEnvLineKey | auto-claude-ui/src/main/insights/config.ts:99-101 | a defined key is non-empty and contains no `=` |
| InsightsConfig.ParseEnvLinesStep | auto-claude-ui/src/main/insights/config.ts:95-111 | each further line updates the variables parsed so far by its own entry |
| InsightsConfig.ApplyEntriesLastWins | auto-claude-ui/src/main/insights/config.ts:109 | a key other than `__proto__` takes the value of its last definition |
| InsightsConfig.Assign | auto-claude-ui/src/main/insights/config.ts:109 | assigning `__proto__` leaves the object as it was; any other key takes the value; other keys are untouched |
| InsightsConfig.ApplyEntriesNoProto | auto-claude-ui/src/main/insights/config.ts:109 | no `.env` line defines an own `__proto__` key |
| InsightsConfig.ApplyEntriesKeys | auto-claude-ui/src/main/insights/config.ts:109 | every defined key comes from a line defining it |
| InsightsConfig.EnvLineSplitsAtKey | auto-claude-ui/src/main/insights/config.ts:99-107 | `key=rest` splits at the first `=`, after the key |
| InsightsConfig.EnvLineRoundTrip | auto-claude-ui/src/main/insights/config.ts:95-111 | `KEY=value` parses back to the key and value, including values that hold `=` |
| InsightsConfig.EnvLineQuotedRoundTrip | auto-claude-ui/src/main/insights/config.ts:102-107 | `KEY="value"` parses back to exactly the value, inner whitespace and quotes included |
| InsightsConfig.MergeProcessEnvPrecedence | auto-claude-ui/src/main/insights/config.ts:123-135 | every source's keys are kept; the forced UTF-8 settings win, then the profile, then `.env`, then the process |
| InsightsConfig.Config.constructor | auto-claude-ui/src/main/insights/config.ts:13-14 | the interpreter starts as the detected command and the source path as unset |
| InsightsConfig.Config.Configure | auto-claude-ui/src/main/insights/config.ts:19-26 | an absent or empty argument leaves its field as it was |
| InsightsConfig.Config.GetAutoBuildSourcePath | auto-claude-ui/src/main/insights/config.ts:56-78 | the loop returns what `AutoBuildSource` specifies |
| InsightsConfig.Config.GetPythonPath | auto-claude-ui/src/main/insights/config.ts:32-51 | the loop returns what `PythonPath` specifies |
| InsightsConfig.Config.LoadAutoBuildEnv | auto-claude-ui/src/main/insights/config.ts:83-117 | the line loop yields the parsed `.env` map, in which a `__proto__` line defines nothing; empty without a source, a file, or a readable file |
| InsightsConfig.Config.GetProcessEnv | auto-claude-ui/src/main/insights/config.ts:123-135 | the process, `.env`, profile and forced settings, merged in that order |
| InsightsExecutor.HandleLineSpec | auto-claude-ui/src/main/insights/insights-executor.ts:213-230 | one line emits at most one chunk, which announces exactly what it appends to the response and tools; marker lines never reach the response; a plain line is appended with its line feed and streamed; blank lines do nothing |
| InsightsExecutor.MarkersExclusive | auto-claude-ui/src/main/insights/insights-executor.ts:215-222 | no line carries two of the three markers, so the order of the checks decides nothing |
| InsightsExecutor.MarkerLineSpec | auto-claude-ui/src/main/insights/insights-executor.ts:308-370 | a parsed task suggestion streams and records the task; a non-null tool start streams name and input and records them with the line's clock reading; a non-null tool end streams its name; an unparsable or `null` payload does nothing |
| InsightsExecutor.DemuxSpec | auto-claude-ui/src/main/insights/insights-executor.ts:207-231 | the lines of a chunk stream exactly what they add to the response, tools and task, and the response grows by the plain lines in order |
| InsightsExecutor.DemuxTimestamps | auto-claude-ui/src/main/insights/insights-executor.ts:329-342 | the timestamps of the recorded tool uses are the clock readings of the tool-start lines that made them, in line order |
| InsightsExecutor.KeepLast | auto-claude-ui/src/main/insights/insights-executor.ts:210 | the buffer keeps the last 10 000 characters, or all of them |
| InsightsExecutor.TailLines | auto-claude-ui/src/main/insights/insights-executor.ts:163-168 | empty exactly for blank text |
| InsightsExecutor.TailLinesAreLastLines | auto-claude-ui/src/main/insights/insights-executor.ts:163-168 | splitting the tail gives back exactly the last `maxLines` lines of the trimmed text |
| InsightsExecutor.TimeoutMessageValue | auto-claude-ui/src/main/insights/insights-executor.ts:183-186 | without details the message reads `Insights timed out after 70s` |
| InsightsExecutor.ModelId | auto-claude-ui/src/shared/constants/models.ts:19-23 | a known model maps to its id; any other name falls back to sonnet's |
| InsightsExecutor.BuildArgs | auto-claude-ui/src/main/insights/insights-executor.ts:133-145 | seven arguments, eleven with a model configuration |
| InsightsExecutor.BuildArgsRoundTrip | auto-claude-ui/src/main/insights/insights-executor.ts:133-145 | a positional reading of the vector gives back the runner, project, message, history file and model id, whatever the message holds |
| InsightsExecutor.RunnerLocation | auto-claude-ui/src/main/insights/insights-executor.ts:92-105 | succeeds exactly when a source exists and holds the runner script; otherwise the source error or the runner error |
| InsightsExecutor.Executor.constructor | auto-claude-ui/src/main/insights/insights-executor.ts:52-58 | no active sessions |
| InsightsExecutor.Executor.IsSessionActive | auto-claude-ui/src/main/insights/insights-executor.ts:63-65 | true exactly when the project has a registered process |
| InsightsExecutor.Executor.CancelSession | auto-claude-ui/src/main/insights/insights-executor.ts:70-77 | true exactly when a process was registered; that process is killed and forgotten; nothing else changes |
| InsightsExecutor.Executor.LocateRunner | auto-claude-ui/src/main/insights/insights-executor.ts:92-105 | returns what `RunnerLocation` specifies |
| InsightsExecutor.Executor.Launch | auto-claude-ui/src/main/insights/insights-executor.ts:122-154 | writes the history file, registers a fresh pid under the project and returns a fresh session |
| InsightsExecutor.Executor.StartSession | auto-claude-ui/src/main/insights/insights-executor.ts:92-161 | the source error, runner error or history-write error, or a fresh session with the interpreter, arguments, working directory and merged environment; the thinking status is emitted once the runner is found |
| InsightsExecutor.Executor.Execute | auto-claude-ui/src/main/insights/insights-executor.ts:82-161 | cancels the project's previous process first, then as `StartSession` |
| InsightsExecutor.Session.constructor | auto-claude-ui/src/main/insights/insights-executor.ts:156-161 | unsettled, not closed, empty response, buffer and tools, timer armed |
| InsightsExecutor.Session.OnStdout | auto-claude-ui/src/main/insights/insights-executor.ts:207-231 | the buffer keeps the last 10 000 characters; the emitted chunks, response, tools and suggested task become the old ones with the chunk's lines applied as `Demux` specifies; the settlement and timer are untouched; the session invariant holds |
| InsightsExecutor.Session.HandleStdoutLines | auto-claude-ui/src/main/insights/insights-executor.ts:213-230 | the streamed state becomes the old one with `Demux` of the lines applied; nothing else changes |
| InsightsExecutor.Session.HandleStdoutLine | auto-claude-ui/src/main/insights/insights-executor.ts:214-229 | the streamed state becomes the old one with `HandleLine` of the line applied (task suggestion, tool start, tool end or plain text); nothing else changes |
| InsightsExecutor.Session.OnStderr | auto-claude-ui/src/main/insights/insights-executor.ts:233-238 | stderr only feeds the buffer |
| InsightsExecutor.Session.EmitErrorOnce | auto-claude-ui/src/main/insights/insights-executor.ts:170-180 | only the first error settlement emits the error chunk and event and rejects; a later one changes nothing; the `close` flag is untouched |
| InsightsExecutor.Session.Resolve | auto-claude-ui/src/main/insights/insights-executor.ts:263-276 | `done` then `complete`, resolving with the trimmed response, task and tools; the `settled` flag stays clear |
| InsightsExecutor.Session.HandleRateLimit | auto-claude-ui/src/main/insights/insights-executor.ts:376-391 | a rate-limit event exactly when the detector recognises the buffer |
| InsightsExecutor.Session.Release | auto-claude-ui/src/main/insights/insights-executor.ts:193-202 | the project's registry entry and the history file are removed |
| InsightsExecutor.Session.OnClose | auto-claude-ui/src/main/insights/insights-executor.ts:240-284 | delivered once: afterwards the session is closed; timer cleared, entry and this history file removed, other files, pid counter, buffer and response kept; a non-zero or signal exit checks the rate limit even when settled; an unsettled session resolves on 0 without becoming settled, else rejects with the exit code and tail and becomes settled |
| InsightsExecutor.Session.OnError | auto-claude-ui/src/main/insights/insights-executor.ts:286-301 | timer cleared, entry and this history file removed, everything else kept; rejects with the error's message unless already settled; the session is settled afterwards |
| InsightsExecutor.Session.OnTimeout | auto-claude-ui/src/main/insights/insights-executor.ts:182-205 | a cleared timer changes nothing; otherwise kills the process, removes the entry and this history file only, and rejects with the timeout message and tail |
| InsightsExecutor.LateCloseOfCancelledSession | auto-claude-ui/src/main/insights/insights-executor.ts:242 | a late `close` from a cancelled process unregisters the newer, still running session of the same project, whose history file survives |
| InsightsExecutor.HistoryFileDistinct | auto-claude-ui/src/main/insights/insights-executor.ts:116-120 | history files written at different times have different names |
| Strings.IntToStringInjective | auto-claude-ui/src/main/insights/insights-executor.ts:119 | different integers are written differently |
| HttpClient.StripTrailingSlashesSpec | auto-claude-ui/src/main/updater/http-client.ts:13 | the result is the input without its run of trailing slashes |
| HttpClient.NormalizeProxyBase | auto-claude-ui/src/main/updater/http-client.ts:12-13 | null exactly for no base or only slashes; otherwise a non-empty prefix ending in no slash |
| HttpClient.NormalizeProxyBaseIdempotent | auto-claude-ui/src/main/updater/http-client.ts:12-13 | normalising twice is normalising once |
| HttpClient.BuildProxiedUrl | auto-claude-ui/src/main/updater/http-client.ts:18-24 | null exactly without a base and with the fallback off; the caller's base before the built-in proxy; an already proxied URL is kept |
| HttpClient.BuildProxiedUrlIdempotent | auto-claude-ui/src/main/updater/http-client.ts:21-23 | proxying a proxied URL again changes nothing |
| HttpClient.CappedSpec | auto-claude-ui/src/main/updater/http-client.ts:51-57 | the kept body is at most 10 KiB, a prefix of what arrived, and all of it while it fits |
| HttpClient.CappedGrows | auto-claude-ui/src/main/updater/http-client.ts:53-57 | more data never changes what was kept |
| HttpClient.ErrorBody.constructor | auto-claude-ui/src/main/updater/http-client.ts:52 | starts empty |
| HttpClient.ErrorBody.OnData | auto-claude-ui/src/main/updater/http-client.ts:142-146 | the kept body stays the capped prefix of everything received, only grows, and stays within 10 KiB |
| HttpClient.ErrorMessage | auto-claude-ui/src/main/updater/http-client.ts:148 | `HTTP <code>: ` then the body, else the status message, else `No error details` |
| HttpClient.BothFailed | auto-claude-ui/src/main/updater/http-client.ts:99-102 | the combined error ends with the retry advice |
| HttpClient.WithFallback | auto-claude-ui/src/main/updater/http-client.ts:89-105 | direct request first; the proxy only after a failure; the direct error is rethrown without a proxied URL; both errors combined when both fail |
| HttpClient.FetchJsonWithFallback | auto-claude-ui/src/main/updater/http-client.ts:89-105 | direct first; after a failure with a proxied URL, exactly that URL is tried and decides the result; the update-check wording when both fail |
| HttpClient.DownloadFileWithFallback | auto-claude-ui/src/main/updater/http-client.ts:193-216 | succeeds exactly when one of at most two downloads to the same path succeeds; after a direct failure with a proxied URL, exactly that URL is tried and decides the result; the download wording when both fail |
| Auth.ReadSettings | auto-claude/core/auth.py:76-100 | nothing when the file is missing or is not JSON; values found are non-empty |
| Auth.ReadKeychain | auto-claude/core/auth.py:46-73 | nothing off macOS or when the command fails; a found token is non-empty |
| Auth.AuthTokenPriority | auto-claude/core/auth.py:103-146 | token and source name follow the order OAuth variable, auth-token variable, settings file, keychain |
| Auth.TokenAndSourceAgree | auto-claude/core/auth.py:103-146 | a source is named exactly when a token is found; a found token is non-empty |
| Auth.GetAuthToken | auto-claude/core/auth.py:103-127 | the loop returns the token `AuthToken` specifies |
| Auth.GetAuthTokenSource | auto-claude/core/auth.py:130-146 | the loop returns the source `AuthTokenSource` specifies |
| Auth.RequireAuthToken | auto-claude/core/auth.py:149-167 | an error exactly when no token is found, with the full diagnostic text; otherwise the token |
| Auth.OverlayAt | auto-claude/core/auth.py:187-191 | a variable is overridden exactly when it is one of the listed names and set in the environment; the others keep the base value |
| Auth.SettingsBaseAt | auto-claude/core/auth.py:180-185 | the settings file contributes exactly its token and base URL |
| Auth.SdkEnvSpec | auto-claude/core/auth.py:170-193 | the settings values overlaid with the environment hold exactly the SDK variables set in either, non-empty, the environment winning |
| Auth.GetSdkEnvVars | auto-claude/core/auth.py:170-193 | exactly the SDK variables set in the environment or the settings file, the environment winning |
| Auth.EnsuredEnvOnlyFills | auto-claude/core/auth.py:196-215 | set variables are never overwritten; only the three auth variables change; the token and base URL come from the settings file where unset |
| Auth.EnsuredEnvAt | auto-claude/core/auth.py:196-215 | for one variable: a set value is kept, and a variable other than the three auth ones is untouched |
| Auth.FillTokenVariables | auto-claude/core/auth.py:203-206 | after filling, the OAuth variable is as before and the auth-token variable is the settings token where it was unset |
| Auth.FillKeepsToken | auto-claude/core/auth.py:203-209 | filling from the settings file keeps the OAuth variable and the resolved token |
| Auth.EnsuredEnvKeepsToken | auto-claude/core/auth.py:196-215 | the resolved token is unchanged, and afterwards the OAuth variable is set whenever a token exists |
| Auth.ProcessEnvironment.EnsureClaudeCodeOauthToken | auto-claude/core/auth.py:196-215 | the environment becomes `EnsuredEnv` of the old one, with the OAuth variable set when a token is found |
| PromptLoader.Language | auto-claude/prompts_pkg/prompt_loader.py:49 | `zh-CN` when the variable is unset |
| PromptLoader.WithSuffix | auto-claude/prompts_pkg/prompt_loader.py:52-53 | the name ends in `.md`, added only when missing |
| PromptLoader.WithSuffixIdempotent | auto-claude/prompts_pkg/prompt_loader.py:52-53 | adding the suffix twice is adding it once |
| PromptLoader.TriedPaths | auto-claude/prompts_pkg/prompt_loader.py:67-70 | the localized path unless English, then the default path |
| PromptLoader.GetPromptPath | auto-claude/prompts_pkg/prompt_loader.py:14-75 | a returned path exists; the error lists the tried paths |
| PromptLoader.GetPromptPathFirstExisting | auto-claude/prompts_pkg/prompt_loader.py:55-75 | the result is the first tried path that exists, else the not-found error |
| PromptLoader.EnglishIgnoresLocalized | auto-claude/prompts_pkg/prompt_loader.py:56-64 | in English only the default path matters |
| PromptLoader.GetPromptsDir | auto-claude/prompts_pkg/prompt_loader.py:102-136 | the localized directory exactly when the language is not English and it is a directory, else the `prompts` folder |
| LoggingSetup.ParsePyIntRoundTrip | auto-claude/core/logging_setup.py:24 | `int()` reads back every integer's decimal form of at most 4300 digits |
| LoggingSetup.ParsePyIntTooLong | auto-claude/core/logging_setup.py:24 | a decimal form of more than 4300 digits is refused, as `int()` raises beyond `sys.get_int_max_str_digits()` |
| LoggingSetup.ParsePyIntRejects | auto-claude/core/logging_setup.py:23-26 | text that is not an optionally signed digit run is refused |
| LoggingSetup.IntEnv | auto-claude/core/logging_setup.py:19-26 | the default when unset, empty or not an integer; otherwise the value |
| LoggingSetup.IntEnvRoundTrip | auto-claude/core/logging_setup.py:19-26 | a variable set to a number's decimal form of at most 4300 digits yields that number |
| LoggingSetup.IntEnvTooLong | auto-claude/core/logging_setup.py:19-26 | a variable set to a decimal form of more than 4300 digits yields the default |
| LoggingSetup.LogPath | auto-claude/core/logging_setup.py:35-47 | no path exactly when neither variable is set |
| LoggingSetup.LogPathChoice | auto-claude/core/logging_setup.py:41-47 | the file setting beats the directory; the directory names `auto-claude.log`; a relative file or directory goes under the project directory; an absolute one is kept |
| LoggingSetup.LevelNamed | auto-claude/core/logging_setup.py:51-52 | each level name of the `logging` module gives its level; any other name gives INFO |
| LoggingSetup.ConfigureLogging | auto-claude/core/logging_setup.py:29-75 | returns `LogPath`; without one nothing changes; otherwise appends the rotating handler with the configured size and count, and sets the level when the root had no handlers or no level |

## Left out

- Process spawning, `kill`, file writes and removal, timers and the event
  emitter are modelled as state:
  - the registry;
  - the kill log;
  - the temporary-file map;
  - the timer flag;
  - per-session event lists.
- Events are kept per session and per executor. The order in which events
  of different sessions interleave on the shared emitter is not captured.
- Debug logging, `console` output and `redactSensitiveOutput` are left
  out. They have no effect on the state.
- A failure of the history-file write, and a failed history-file removal,
  are not modelled as exceptions. The write's outcome is an input. A
  failed removal leaves the file, and the model always removes it.
- `MODEL_ID_MAP` lookups of inherited object keys such as `constructor`
  are not modelled. Unknown names fall back to sonnet.
- The `sdk-rate-limit` payload is not modelled: `createSDKRateLimitInfo`
  is not part of this model. The event carries the output buffer it is
  built from.
- InsightsExecutor.KeepLast: lengths are counted in code points, not in
  UTF-16 code units as JavaScript counts them.
- HttpClient.ErrorBody.OnData: lengths are counted in code points, not in
  UTF-16 code units as JavaScript counts them.
- `path.join`, `path.resolve` and `pathlib` joins are written as
  separator joins, without normalisation of `.`, `..` or doubled
  separators. The five candidate source directories are given already
  resolved.
- Windows drive-letter paths are not treated as absolute by the logging
  setup, which models POSIX paths.
- `fetchJson` and `downloadFile` themselves are oracles from a URL to a
  value or an error message. Not modelled:
  - redirects;
  - headers;
  - JSON parsing of the body;
  - timeouts;
  - progress callbacks;
  - the write stream.
- `formatError` is not modelled: errors are represented by their message
  text.
- `load_prompt` reading the file is not modelled, and neither is
  `diagnose_auth`: they are reports and I/O over the modelled functions.
- Auth.ReadSettings: a truthy token or base URL that is not a JSON string
  is treated as absent. A non-empty string is what every caller uses.
- Auth.ReadKeychain: a truthy access token that is not a JSON string is
  treated as absent.
- LoggingSetup.IntEnv: only ASCII digits are accepted. Python's `int()`
  also accepts other Unicode decimal digits.
- Node delivers no event of a child process after its `close` event.
  `Session.OnClose` and `Session.OnError` therefore require that `close`
  has not yet been delivered. An `error` following a successful `close`,
  which would reach the error path of a resolved session, is not modelled.
- LoggingSetup.ParsePyInt: the digit limit is the interpreter's default
  of 4300. A limit changed through `sys.set_int_max_str_digits` or
  `PYTHONINTMAXSTRDIGITS` is not modelled.
- Spawning is always taken to succeed. Node's `spawn` throws synchronously
  on an argument, working directory or environment entry that holds a NUL
  character. `execute` then rejects, no process is registered and the
  history file stays. The message is passed through unchecked.
- The worker's own option parser is not part of this model. The argument
  vector is read back positionally.
- LoggingSetup.LevelNamed: only the standard level names are mapped.
  `getattr` on other attributes of the `logging` module is not modelled.
- LoggingSetup.ConfiguredLevel: upper-casing covers ASCII letters only.
- The following parts of logging setup are not modelled:
  - the directory creation;
  - the handler's formatter and encoding;
  - `basicConfig` details other than the level and the handler list.
- Keychain and settings reads are inputs: the command output and the file
  text, each `None` when the read fails.
