# mcp-process command gateway, modelled in Dafny

This project models the core of `mcp-process`, an MCP server with one tool: it runs an
operating-system command behind a fixed launcher prefix (by default
`wsl.exe --cd <cwd>`) and returns the exit code, stdout and stderr as text. The core is
`handle_call_tool`, the blocklist check `requires_validation` it calls, the tool listing
`handle_list_tools`, and the configuration record built by `load_config`, all in
`src/mcp_process/server_process.py`.

A call goes through these steps:

- An unknown tool name raises. Missing or empty `arguments` also raise.
- A missing or falsy `input` gets the fixed reply `Error: Command not specified.`. This
  check comes before the blocklist.
- A command that contains any forbidden word as a raw, case-sensitive substring gets a
  warning. The warning starts with the glyph ⚠️ and echoes the command.
- Any other command is launched as `prefix + " " + command`. The timeout is the call's
  own `timeout` or else `exec_timeout`.
- A completed run is reported as `return code: N`, then `STDOUT:` and `STDERR:` sections
  for the streams that are non-empty. A timeout and any other exception become ordinary
  replies; they are never raised.

Files and modules:

- `wrappers.dfy` (`Wrappers`): `Option` and `Result`.
- `text.dfy` (`Text`): Python's `p in s` on strings (`Contains`) and its reference
  definition `IsSubstring`. Also `str(n)` for integers (`Decimal`) with the parser that
  inverts it.
- `config.dfy` (`ServerConfig`): the configuration record and its command-line defaults.
  Also the argument values a call carries: JSON strings and integers, with Python truthiness.
- `validation.dfy` (`Validation`): `requires_validation`, including the `TypeError` that
  `cmd in command` raises when the input is an integer.
- `report.dfy` (`Report`): the launch outcome, the completed-run report, and the reply for
  each outcome.
- `tools.dfy` (`ToolList`): the advertised tool and its JSON input schema.
- `gateway.dfy` (`Gateway`): `handle_call_tool`. `Classify` decides the terminal state:
  empty command, blocked, or launched. `ReplyText` renders that state.
- `scenarios.dfy` (`Scenarios`): the repository's integration tests, restated over the
  default configuration.

The process launch (`subprocess.run` with `shell=False` and captured output) is the
parameter `run: (commandLine, timeout) -> Outcome`. Its outcome is `Completed(code,
stdout, stderr)`, `TimedOut` or `SpawnFailed(message)`. UTF-8 decoding with replacement is
the parameter `decode: seq<byte> -> string`. The model relies only on it being total.
Configuration is an immutable record passed to each call. The tests overwrite and then
restore `forbidden_words`; here that is a call with a modified record.

Two behaviours of the code are worth stating plainly:

- The `--filter-patterns` help text (src/mcp_process/server_process.py:29) says the
  patterns filter session output, but no call applies them. The model applies no filter,
  and `Gateway.ConfigFieldsUnused` proves that the patterns cannot affect a reply.
- The timeout is read at src/mcp_process/server_process.py:115 and passed to
  `subprocess.run` at line 139 without any check that it is positive. The timeout
  message echoes whatever value the call supplied.

## Model

| member | source | states |
|---|---|---|
| `Text.ContainsIsSubstring` | src/mcp_process/server_process.py:99 | Python's `p in s`, as modelled, holds exactly when `p` occurs in `s` at some index. So `""` is in every string, and matching is case-sensitive with no tokenising. |
| `Text.Decimal` | src/mcp_process/server_process.py:142 | `str(n)` is non-empty and starts with `-` exactly for negative `n`. The rest is digits with no leading zero, except for `0` itself. So it has no newline. |
| `Text.DecimalRoundTrip` | src/mcp_process/server_process.py:142 | Parsing `str(n)` back gives `n` for every integer. |
| `Validation.RequiresValidationSpec` | src/mcp_process/server_process.py:97-99 | `requires_validation(command)` is true exactly when some forbidden word is a substring of the command. |
| `Validation.NoWordsNeverBlock` | src/mcp_process/server_process.py:99 | An empty blocklist never blocks. |
| `Validation.EmptyWordBlocksAll` | src/mcp_process/server_process.py:99 | A blocklist that holds the empty string blocks every command. |
| `Validation.SubstringNotToken` | src/mcp_process/server_process.py:99 | A forbidden word blocks even when it is only part of a longer word. |
| `Validation.CheckArgument` | src/mcp_process/server_process.py:124 | For an integer input and a non-empty blocklist, the check raises (`TypeError`). An integer input with an empty blocklist passes, because `any` never evaluates `in`. A string input gets the blocklist answer, and a blocked input contains a forbidden word. |
| `Report.FormatCompleted` | src/mcp_process/server_process.py:142-146 | The `output +=` steps build exactly the completed-run report. |
| `Report.HeaderReadBack` | src/mcp_process/server_process.py:142 | Whatever follows the header line, the exit code can be read back from the header line. |
| `Report.ReturnCodeReadBack` | src/mcp_process/server_process.py:142-146 | The exit code can be read back from every completed-run report, whatever the streams hold. |
| `Report.SectionsLayout` | src/mcp_process/server_process.py:143-146 | The text after the header line starts with the STDOUT section exactly when stdout is non-empty, and otherwise with `STDERR:\n` exactly when stderr is non-empty. With an empty stderr it is the STDOUT section alone, or nothing. |
| `Report.CompletedLayout` | src/mcp_process/server_process.py:142-146 | The report starts with the header line. The text after it starts with `STDOUT:\n` exactly when stdout is non-empty, and then it starts with the whole STDOUT section holding the decoded stdout. When stdout is empty, the text after the header starts with `STDERR:\n` exactly when stderr is non-empty. With an empty stderr, the text after the header is the STDOUT section alone, or nothing. |
| `Report.StdoutShown` | src/mcp_process/server_process.py:143-144 | A non-empty stdout is always shown: the report contains `STDOUT` and every text that occurs in the decoded stdout, whatever the exit code and stderr. |
| `Report.StderrSectionLast` | src/mcp_process/server_process.py:145-146 | A non-empty stderr always ends the report with its own section, after any stdout section. |
| `Report.SectionsAmbiguous` | src/mcp_process/server_process.py:143-146 | Whenever a stdout decodes to some stdout text, a newline, `STDERR:\n` and some stderr text, its report without stderr equals the report of that shorter stdout with that stderr. So a stderr section cannot always be split back out of the text. |
| `ToolList.ExecSchemaFields` | src/mcp_process/server_process.py:77-91 | In the exec schema, `required` is `["input"]`, `input` has type string, and `timeout` has type integer with the given default. |
| `ToolList.ListTools` | src/mcp_process/server_process.py:66-95 | The list is empty exactly when `exec_name` is empty. Otherwise it holds one tool with the configured name and description, and its schema requires `input` and defaults `timeout` to `exec_timeout`. |
| `Gateway.RaisesExactly` | src/mcp_process/server_process.py:110-162 | A call raises exactly for an unknown name, for missing or empty arguments, or for an integer command checked against a non-empty blocklist. Every other call returns one text item; this includes timeouts and launch failures. |
| `Gateway.EmptyCommandFirst` | src/mcp_process/server_process.py:114-121 | A missing, empty or zero `input` gets exactly `Error: Command not specified.`, whatever the blocklist holds, and nothing is launched. |
| `Gateway.WarningEchoesCommand` | src/mcp_process/server_process.py:125-129 | The warning starts with the warning glyph and contains the command verbatim. |
| `Gateway.BlockedCommand` | src/mcp_process/server_process.py:123-129 | A non-empty command that contains a forbidden word is blocked, and the reply is the warning that echoes it. |
| `Gateway.LaunchedExactly` | src/mcp_process/server_process.py:110-140 | A call launches exactly when the name matches, arguments are present, the command is present and the blocklist passes it. The command line is then `prefix + " " + command`, with no escaping. The timeout is the call's own or else `exec_timeout`. A launched command contains no forbidden word. |
| `Gateway.LaunchesCommand` | src/mcp_process/server_process.py:131-148 | A present string command that passes the blocklist is launched as the prefix, one space and the command, with the effective timeout. The reply renders that launch's outcome. |
| `Gateway.NotLaunchedIgnoresRun` | src/mcp_process/server_process.py:110-129 | A call that does not launch gives the same result whatever the process would have done. |
| `Gateway.LaunchedReply` | src/mcp_process/server_process.py:131-159 | A launched call always returns a reply. For a completed run the exit code can be read back from it. A timeout gives exactly `The command timed out after {timeout} seconds` with the effective timeout. Any other failure gives `Error executing the command: ` plus the message. |
| `Gateway.ConfigFieldsUnused` | src/mcp_process/server_process.py:53-60 | Changing the output-filter patterns or the tool description never changes the result of a call. |
| `Gateway.UnlistedNameStillCalled` | src/mcp_process/server_process.py:110 | With an empty `exec_name`, no tool is listed, yet a call named `""` is dispatched rather than rejected as unknown. |
| `Gateway.RepliesAreReadable` | src/mcp_process/server_process.py:117-159 | From the reply text alone, a caller can tell which case produced it: empty command, blocked, completed, timed out or failed to execute. |
| `Scenarios.DefaultBlocklist` | src/mcp_process/server_process.py:23-25 | The default blocklist blocks exactly the commands containing `rm -rf`, `shutdown` or `reboot`. |
| `Scenarios.DefaultAllowsWithout` | src/mcp_process/server_process.py:23-25 | A command with no `-`, `u` or `b` passes the default blocklist. |
| `Scenarios.EchoMessageAllowed` | tests/test_process.py:75-76 | The test's command `echo "Hello from WSL test"` passes the default blocklist. |
| `Scenarios.SleepAllowed` | src/mcp_process/server_process.py:23-25 | `sleep 3` passes the default blocklist. |
| `Scenarios.DefaultBlocksRmRf` | src/mcp_process/server_process.py:124-129 | With the defaults, `rm -rf /` gets the warning echoing it. |
| `Scenarios.OverwrittenWordBlocks` | tests/test_process.py:106-126 | With the blocklist set to `["test_dangerous"]`, `echo test_dangerous` gets a reply holding the glyph and the word. |
| `Scenarios.SleepTimesOut` | tests/test_process.py:128-139 | `sleep 3` with timeout 1 is launched behind the default prefix. If it times out, the reply is `The command timed out after 1 seconds`. |
| `Scenarios.SuccessfulReport` | src/mcp_process/server_process.py:142-144 | A run that exits 0 with output only on stdout is reported starting with `return code: 0\n`, and the report holds the STDOUT section. |
| `Scenarios.EchoCompletes` | tests/test_process.py:70-81 | `echo "Hello from WSL test"` is launched behind the default prefix with the default 60 seconds. If it completes with the message in its stdout, the reply is one text item that contains `STDOUT` and the message, whatever the exit code and stderr. |

## Left out

- Process spawning, wall-clock timeouts and killing the child are not modelled. They are OS I/O, so `subprocess.run` is the abstract `run` parameter.
- UTF-8 decoding with `errors='replace'` is the abstract total `decode` parameter, because it is a standard-library call.
- Regex compilation in `load_config` (line 58) is not modelled, because regex semantics belong to a foreign library. The configuration keeps the pattern strings, which no call reads.
- Argument parsing, the module-level encoding and event-loop settings, the MCP `Server` wiring, `handle_list_prompts`, `handle_list_resources`, `main` and `cli_entry_point` are left out. They are protocol and start-up plumbing. `os.getcwd()` in the default prefix is the `cwd` parameter of `DefaultConfig`.
- asyncio scheduling is left out, because nothing in the core depends on it.
- Line 133 reads the prefix from `args` rather than from `config`. The two hold the same value, so the model has one `prefix` field.
- Only strings and integers are modelled as JSON argument values. Floats, booleans, null, lists and nested objects are not: the tool schema declares `input` a string and `timeout` an integer.
- `Gateway.RaisesExactly` names which exception is raised, but not its message text. The message goes to the protocol layer, and the stderr line printed at line 161 is I/O.
