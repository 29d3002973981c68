# cunzhi-cli (寸止 CLI) in Dafny

寸止 CLI is an MCP (Model Context Protocol, JSON-RPC 2.0) server. It offers two tools:
- `zhi` (alias `zhi_cunzhi`) asks a human for a reply.
- `ji` (alias `ji_cunzhi`) stores and recalls project memories.

A `zhi` request goes to three surfaces in turn:
1. a separate UI process;
2. when the request asks for it and the configuration allows it, a terminal window started with a generated shell script and polled for a reply file;
3. otherwise, inline prompts.

Around this sit helpers for:
- configuration defaults and validation;
- project templates and project-name checks;
- size and duration formatting;
- exit codes and retries;
- a table and task bookkeeping;
- the memory store and its summary;
- the MCP client-configuration merge;
- the small Markdown renderer of the stand-alone interaction program.

This project models that logic and proves what the code promises about it. Each source file becomes one module:
- Code that computes a value becomes functions and lemmas.
- Code that loops or updates fields becomes methods with loop invariants and classes with `modifies` frames.

Everything the program does to the world becomes an explicit input:
- spawning processes and probing `PATH`;
- reading directories and files;
- user key-presses and menu selections;
- environment variables, the target OS and the clock.

Plain functions, function-typed parameters or `Result` values stand for these, so every outcome the world can produce is covered.

Shared modules:
- `Results` holds `Option`, `Result` and `Unit`.
- `Strings` holds the string operations the Rust code relies on:
  - Unicode-white-space `trim`, and ASCII lower-casing;
  - search, replace, join and split, and `str::lines`;
  - decimal rendering and UTF-8 byte length.
- `Json` is a small `serde_json::Value`, whose objects are maps.

| module | file | source |
|---|---|---|
| `TerminalLauncher` | terminal_launcher.dfy | cli/src/utils/terminal_launcher.rs |
| `Server` | server.dfy | cli/src/mcp/server.rs |
| `Interaction` | interaction.dfy | cli/src/mcp/tools/interaction/mcp.rs |
| `McpTypes` | mcp_types.dfy | cli/src/mcp/types.rs |
| `McpErrors` | mcp_errors.dfy | cli/src/mcp/utils/errors.rs |
| `Settings` | settings.dfy | cli/src/config/settings.rs |
| `Init` | init.dfy | cli/src/cli/init.rs |
| `CliHelpers` | cli_helpers.dfy | cli/src/utils/cli_helpers.rs |
| `ErrorHandler` | error_handler.dfy | cli/src/utils/error_handler.rs |
| `Ui` | ui.dfy | cli/src/utils/ui.rs |
| `MemoryTool` | memory_tool.dfy | cli/src/mcp/tools/memory/mcp.rs |
| `Memory` | memory_manager.dfy | cli/src/mcp/tools/memory/manager.rs |
| `McpClientConfig` | mcp_config.dfy | cli/src/mcp/config.rs |
| `CunzhiUi` | cunzhi_ui.dfy | cli/src/bin/cunzhi-ui.rs |

## Model

| member | source | states |
|---|---|---|
| TerminalLauncher.TestCommandExists | cli/src/utils/terminal_launcher.rs:352-427 | The probe answers exactly `CommandExists`: the `which`/`where` lookup succeeded, or a platform special case decided, or a `--version`-style run succeeded, or a bare run failed without "not found", "not recognized" or "no such file" in its lower-cased stderr |
| TerminalLauncher.VersionRunSuffices | cli/src/utils/terminal_launcher.rs:390-409 | A successful version-check run proves the command exists |
| TerminalLauncher.BareRunFailureCounts | cli/src/utils/terminal_launcher.rs:411-424 | A bare run that fails with stderr that names no missing file counts as installed |
| TerminalLauncher.BareRunSuccessIsNotEvidence | cli/src/utils/terminal_launcher.rs:411-424 | When every other probe fails, a bare run that succeeds does not count as installed |
| TerminalLauncher.IsTerminalAvailable | cli/src/utils/terminal_launcher.rs:294-349 | The availability check answers exactly `TerminalAvailable`, the per-terminal rule over OS, probes and environment |
| TerminalLauncher.AvailabilityFollowsPlatform | cli/src/utils/terminal_launcher.rs:294-349 | `cmd` is available exactly on Windows. Terminal.app and iTerm2 are available only on macOS, GNOME Terminal and Konsole only on Linux, xterm only on Linux or FreeBSD, and Windows Terminal only on Windows |
| TerminalLauncher.Candidates | cli/src/utils/terminal_launcher.rs:268-291 | Every OS has a non-empty, duplicate-free candidate list with no custom entry |
| TerminalLauncher.DebugNames | cli/src/utils/terminal_launcher.rs:228 | The candidate list in the error message names each candidate in order |
| TerminalLauncher.FirstAvailable | cli/src/utils/terminal_launcher.rs:216-224 | It finds the first available candidate, or reports that none is available |
| TerminalLauncher.BestTerminalMeaning | cli/src/utils/terminal_launcher.rs:198-229 | The choice is always available. It is the preferred terminal when that is configured and available, otherwise the first available candidate in list order. It fails exactly when neither exists |
| TerminalLauncher.DetectBestTerminal | cli/src/utils/terminal_launcher.rs:198-229 | The detection loop computes `BestTerminal` for the configured preference |
| TerminalLauncher.DetectSystemTerminal | cli/src/utils/terminal_launcher.rs:597-600 | System detection is best-terminal detection with no preference |
| TerminalLauncher.EscapeAppleScript | cli/src/utils/terminal_launcher.rs:574-579 | Replaces backslash, double quote, line feed and carriage return, in that order. Its meaning is stated by the AppleScript rows below: one table per character, and a literal that reads back as the original text |
| TerminalLauncher.EscapeAppleScriptAppend | cli/src/utils/terminal_launcher.rs:574-579 | AppleScript escaping distributes over concatenation |
| TerminalLauncher.EscapeAppleScriptChar | cli/src/utils/terminal_launcher.rs:574-579 | The four chained replacements escape one character by the per-character table (`\`, `"`, LF, CR) |
| TerminalLauncher.EscapeAppleScriptCons | cli/src/utils/terminal_launcher.rs:574-579 | Escaping a text is escaping its first character, then the rest |
| TerminalLauncher.EscapeAppleScriptNoLineBreaks | cli/src/utils/terminal_launcher.rs:574-579 | The escaped text holds no raw LF or CR |
| TerminalLauncher.DecodeAppleScriptEscaped | cli/src/utils/terminal_launcher.rs:574-579 | Decoding an escaped character gives that character back, followed by the decoding of the rest |
| TerminalLauncher.EscapeAppleScriptRoundTrip | cli/src/utils/terminal_launcher.rs:574-579 | Reading an escaped AppleScript literal back gives exactly the original text |
| TerminalLauncher.EscapePowershellAsWritten | cli/src/utils/terminal_launcher.rs:582-587 | The escaping the launcher uses, as written: double quote, single quote, backtick and dollar are replaced in that order. The as-written rows below state what it does to each character and what PowerShell reads back |
| TerminalLauncher.EscapePowershellAsWrittenAppend | cli/src/utils/terminal_launcher.rs:582-587 | The as-written escaping distributes over concatenation |
| TerminalLauncher.EscapePowershellAsWrittenChar | cli/src/utils/terminal_launcher.rs:582-587 | As written, `"` becomes ``` ``" ``` and `'` becomes ``` ``' ```, because the third replacement doubles the backtick the first two add. `` ` `` becomes ```` `` ```` and `$` becomes `` `$ ``. Every other character is kept |
| TerminalLauncher.EscapePowershellAsWrittenCons | cli/src/utils/terminal_launcher.rs:582-587 | The as-written escaping works character by character from the front |
| TerminalLauncher.DecodePowershellAsWrittenEscaped | cli/src/utils/terminal_launcher.rs:582-587 | Read back by PowerShell, an as-written escaped `"` ends the string. An escaped `'` reads as a backtick and the quote. Any other escaped character reads as itself, followed by the reading of the rest |
| TerminalLauncher.AsWrittenQuoteEndsString | cli/src/utils/terminal_launcher.rs:582-587 | A text holding `"` never reads back from the as-written escaping |
| TerminalLauncher.AsWrittenMarksSingleQuotes | cli/src/utils/terminal_launcher.rs:582-587 | A text without `"` reads back from the as-written escaping with a backtick before every single quote |
| TerminalLauncher.EscapePowershellAsWrittenReadsBack | cli/src/utils/terminal_launcher.rs:582-587 | A text holding `"` does not read back from the as-written escaping: the string ends early. Any other text reads back with a backtick before every single quote |
| TerminalLauncher.EscapePowershellAppend | cli/src/utils/terminal_launcher.rs:582-587 | The corrected PowerShell escaping distributes over concatenation |
| TerminalLauncher.EscapePowershellChar | cli/src/utils/terminal_launcher.rs:582-587 | The corrected PowerShell escaping puts a backtick before `` ` ``, `"`, `'` and `$` and keeps every other character |
| TerminalLauncher.EscapePowershellCons | cli/src/utils/terminal_launcher.rs:582-587 | The corrected escaping works character by character from the front |
| TerminalLauncher.DecodePowershellEscaped | cli/src/utils/terminal_launcher.rs:582-587 | Decoding an escaped character gives it back, followed by the rest |
| TerminalLauncher.EscapePowershellRoundTrip | cli/src/utils/terminal_launcher.rs:582-587 | A double-quoted PowerShell string built by the corrected escaping reads back as exactly the original text |
| TerminalLauncher.PowershellQuoteClosesString | cli/src/utils/terminal_launcher.rs:582-587 | As written, `"` becomes ``` ``" ```, which ends the PowerShell string early so it does not read back. The corrected escaping reads back as `"` |
| TerminalLauncher.FullCommandSplits | cli/src/utils/terminal_launcher.rs:431-434 | The full command line is the command then each argument, separated by single spaces: split at spaces it gives `[command] + args` |
| TerminalLauncher.BuildTerminalCommand | cli/src/utils/terminal_launcher.rs:430-562 | Builds the program and arguments for each terminal kind. The rows below state what each kind gets: the shell that stays open, the Windows prompts, a custom terminal, and the AppleScript and PowerShell string literals |
| TerminalLauncher.ShellTerminalsKeepShellOpen | cli/src/utils/terminal_launcher.rs:430-562 | The kinds whose start-up is awaited (GNOME Terminal, Konsole, Alacritty, xterm) get the window title and end with the default shell, `-c` and "{full command}; exec {shell}", so the window stays open |
| TerminalLauncher.PromptsSetTitleThenRun | cli/src/utils/terminal_launcher.rs:430-562 | `cmd` and Windows Terminal end with `/K` and "title {title} && {full command}", so the prompt sets the title, runs the command and stays open |
| TerminalLauncher.CustomGetsFullCommand | cli/src/utils/terminal_launcher.rs:430-562 | A custom terminal is started with the full command line as its one argument |
| TerminalLauncher.AppleScriptCarriesCommand | cli/src/utils/terminal_launcher.rs:430-562 | Terminal.app and iTerm2 are driven by `osascript -e`. The script holds a quoted string literal that AppleScript reads back as exactly the full command |
| TerminalLauncher.EscapedLiteralBetweenQuotes | cli/src/utils/terminal_launcher.rs:574-579 | Between the two double quotes around the escaped text, a script holds a literal that AppleScript reads back as exactly that text |
| TerminalLauncher.PowershellCarriesCommand | cli/src/utils/terminal_launcher.rs:532-543 | PowerShell is started with `-NoProfile -Command`. Its last argument is `Start-Process …` followed by a double-quoted string built by the as-written escaping. When the title or the full command holds `"`, the string ends early. Otherwise it reads back as the command that sets the title and runs the full command, with a backtick before every single quote. It never reads back as that command itself |
| TerminalLauncher.PsCommandQuotesMarked | cli/src/utils/terminal_launcher.rs:534-537 | The title-setting command always holds a single quote, so marking its single quotes changes it |
| TerminalLauncher.PowershellIntendedCarriesCommand | cli/src/utils/terminal_launcher.rs:532-543 | Built with the corrected escaping, the argument's string reads back as exactly the command that sets the title and runs the full command |
| TerminalLauncher.TotalDelay | cli/src/utils/terminal_launcher.rs:137-185 | The total sleep over n attempts is ≤ 1000·n ms, and ≤ 2500 ms over the full three |
| TerminalLauncher.ShouldWaitForStartup | cli/src/utils/terminal_launcher.rs:188-195 | Exactly GNOME Terminal, Konsole, Alacritty and xterm are waited for after starting |
| TerminalLauncher.RunAttempt | cli/src/utils/terminal_launcher.rs:144-181 | One attempt succeeds exactly per `AttemptSucceeds`: a waiting kind fails only on an early non-success exit or a `try_wait` error. The attempt reports the matching error and the delay that follows |
| TerminalLauncher.Backoffs | cli/src/utils/terminal_launcher.rs:174-180 | The 1000 ms backoff happens at most once per attempt and at most twice in all |
| TerminalLauncher.TryLaunchWithRetry | cli/src/utils/terminal_launcher.rs:137-185 | It makes 1 to 3 attempts and stops at the first success. Every earlier attempt failed. An error means three failures and carries the last attempt's error. At most 2500 ms are slept and at most 2 backoffs made |
| TerminalLauncher.StartChosenTerminal | cli/src/utils/terminal_launcher.rs:84-101 | Starting the chosen terminal succeeds iff some attempt succeeded. A failure asks for the CLI fallback when enabled, otherwise it reports the last attempt's error |
| TerminalLauncher.LaunchTerminalWithCommand | cli/src/utils/terminal_launcher.rs:60-102 | With no terminal there is the detection error and nothing is launched. Otherwise the built command line is launched. It succeeds iff some attempt succeeded. A failure asks for the CLI fallback when enabled, otherwise it reports the last attempt's error |
| Server.NewServer | cli/src/mcp/server.rs:33-49 | A server takes the configured tool switches. When the configuration does not load, it falls back to exactly `zhi` and `ji`, both on |
| Server.ToolEnabled | cli/src/mcp/server.rs:52-65 | A tool is enabled unless its switch, from the loaded or the cached configuration, says false |
| Server.UnlistedToolEnabled | cli/src/mcp/server.rs:52-65 | A tool missing from the switches counts as enabled |
| Server.FallbackServerEnablesAll | cli/src/mcp/server.rs:33-65 | When no configuration can be read at all, every tool counts as enabled |
| Server.EnabledTools | cli/src/mcp/server.rs:68-83 | The enabled list holds exactly the switched-on names, without duplicates |
| Server.EmptySwitchesListNothing | cli/src/mcp/server.rs:52-83 | With no switches at all, the enabled list is empty, yet every single tool still counts as enabled |
| Server.Status | cli/src/mcp/server.rs:471-478 | The status is "未运行 - 没有启用的工具" when no tool is enabled, otherwise "运行中 - {n} 个工具已启用" with n the number of enabled tools |
| Server.StatusRunningIff | cli/src/mcp/server.rs:471-478 | The status reports running iff some tool is enabled |
| Server.ListTools | cli/src/mcp/server.rs:429-461 | The tool list is computed from the `zhi` and `ji` switches |
| Server.ToolListShape | cli/src/mcp/server.rs:429-461 | The list always starts with `zhi` and then `zhi_cunzhi`. It holds `ji` and `ji_cunzhi` iff `ji` is enabled, so its length is 2 or 4 |
| Server.NormalizeToolName | cli/src/mcp/server.rs:390-394 | `zhi_cunzhi` maps to `zhi` and `ji_cunzhi` to `ji`. Every other name maps to itself |
| Server.NormalizeIdempotent | cli/src/mcp/server.rs:390-394 | Normalising twice is normalising once |
| Server.CallTool | cli/src/mcp/server.rs:386-426 | After normalisation: a disabled `ji` is refused with InternalError before its arguments are decoded. A `zhi` argument error is InvalidParams. Otherwise the call goes to the matching tool. Any other name is the MethodNotFound error |
| Server.AliasCallsAgree | cli/src/mcp/server.rs:386-426 | A call by alias answers exactly as a call by the plain name |
| Server.DisabledMemoryToolRefuses | cli/src/mcp/server.rs:406-412 | A disabled `ji` refuses every call with the same InternalError, whatever the arguments and name form |
| Server.InputSchema | cli/src/mcp/server.rs:268-341 | Every schema is an object schema. `zhi`/`zhi_cunzhi` require `message`, `ji`/`ji_cunzhi` require `action` and `project_path`, and any other name gets an empty schema |
| Server.ToolsJson | cli/src/mcp/server.rs:283-352 | The `tools/list` array has one entry per listed tool, in order |
| Server.HandleJsonRpcRequest | cli/src/mcp/server.rs:255-383 | Unparsable text is "JSON 解析失败: …". Otherwise it routes on the method, where a missing method counts as "". Only `initialize`, `tools/list` and `tools/call` give a result, in the `{jsonrpc:"2.0", result, id}` envelope with the request id echoed. Any other method is "未知方法: …" |
| Server.InitializeAnswer | cli/src/mcp/server.rs:268-280 | `initialize` answers protocol version "2024-11-05", a tools capability and the server information |
| Server.ToolCallSendsContentOnly | cli/src/mcp/server.rs:354-369 | A successful `tools/call` answers `{content: […]}` with the tool's content only (its error flag is dropped). A tool error fails the request with "工具调用失败: …" |
| Server.LineResponse | cli/src/mcp/server.rs:138-156 | Every answer to a line is a JSON-RPC 2.0 object. A failure of any kind becomes an error object with code -32000 and id null, and a success is written unchanged |
| Server.AnsweredAppend | cli/src/mcp/server.rs:124-161 | Reading two runs of lines one after the other answers the lines of the first run, then those of the second run in the state the first one left. The final state is reached the same way |
| Server.ResponsesAppend | cli/src/mcp/server.rs:124-161 | The answers to two runs of lines, one after the other, are the answers to the first run, then the answers the second run gets when started in the state the first one left |
| Server.SingleLineResponse | cli/src/mcp/server.rs:131-158 | A blank line yields no output and changes nothing. Any other line yields exactly its answer in the current state, and then the state takes that line's effect |
| Server.SecondLineSeesFirst | cli/src/mcp/server.rs:124-161 | The second of two requests is answered with what the collaborators give in the state the first request left: the configuration is read again, and a memory stored by the first line is there |
| Server.ResponsesSnoc | cli/src/mcp/server.rs:131-158 | Reading one more line adds at most its answer, given in the state the earlier lines left. The state moves on only when that line is answered |
| Server.RespondTo | cli/src/mcp/server.rs:138-156 | Answering a line computes `LineResponse` |
| Server.Step | cli/src/mcp/server.rs:131-158 | One loop step extends the output and the state from the lines before to the lines up to and including this one |
| Server.RunMcpProtocol | cli/src/mcp/server.rs:124-161 | The stdio loop answers every line in order and skips blank ones. Each line is answered in the state the earlier lines left. It stops only at the end of input, or with the read error of some line. The output is exactly the answers to the lines read before it stopped, and the final state is the one those lines leave |
| Server.StartWithMode | cli/src/mcp/server.rs:91-121 | It refuses to start ("没有启用的 MCP 工具") exactly when no tool switch in force at start-up is on, and then reads nothing and writes nothing. Otherwise both stdio and HTTP mode run the stdio loop and report what it reports: the output, the read error or success, the lines read and the final state |
| Server.HandleHttpRequest | cli/src/mcp/server.rs:166-252 | POST `/mcp` gives 400 when the body cannot be read or is not UTF-8, 500 on a handler error, and 200 otherwise. OPTIONS `/mcp` gives 200 with the CORS headers. GET `/health` gives 200. Every other path or method gives 404 |
| Server.HealthListsEnabledTools | cli/src/mcp/server.rs:231-244 | The health answer is 200 and reports exactly the enabled tools |
| Interaction.TrimmedReplyCases | cli/src/mcp/tools/interaction/mcp.rs:53-61 | Trimmed custom input maps to "用户确认继续" iff it is empty or case-insensitively "continue", and to "用户取消了操作" iff it is "cancel". Anything else maps to "用户输入: " plus the trimmed text |
| Interaction.KeywordsAnyCase | cli/src/mcp/tools/interaction/mcp.rs:53-61 | The keywords work in any case ("CANCEL", "Continue") |
| Interaction.HandleCustomInput | cli/src/mcp/tools/interaction/mcp.rs:42-62 | An answer is mapped on its trimmed text. Cancelling the prompt is the InternalError "用户取消了操作", and a prompt failure is "输入失败: …" |
| Interaction.Menu | cli/src/mcp/tools/interaction/mcp.rs:18-20 | The menu is the given options, then "自定义输入", then "取消" |
| Interaction.SelectionReply | cli/src/mcp/tools/interaction/mcp.rs:22-38 | "取消" gives "用户取消了操作", and "自定义输入" defers to custom input. Any other item X gives "用户选择: X". A cancelled or failed selection is an InternalError |
| Interaction.HandleOptionSelection | cli/src/mcp/tools/interaction/mcp.rs:16-39 | The selection is offered the menu, and the reply is the selection's meaning |
| Interaction.MenuItemMeaning | cli/src/mcp/tools/interaction/mcp.rs:18-38 | Choosing a given option gives "用户选择: " plus that option. Choosing one of the two extra items gives the custom-input reply or the cancel reply |
| Interaction.HandleCliInteraction | cli/src/mcp/tools/interaction/mcp.rs:374-397 | The inline path computes `CliReply` |
| Interaction.CliReply | cli/src/mcp/tools/interaction/mcp.rs:374-397 | Without predefined options it asks for custom input. Otherwise it offers the option menu |
| Interaction.UiProcessInteraction | cli/src/mcp/tools/interaction/mcp.rs:113-140 | A UI reply is passed through. A UI failure becomes "UI进程交互失败: …" |
| Interaction.Reply | cli/src/mcp/tools/interaction/mcp.rs:78-79 | A reply is one text content with no error flag |
| Interaction.Zhi | cli/src/mcp/tools/interaction/mcp.rs:72-110 | The tool computes the fallback chain `ZhiOutcome`, starting with the UI process |
| Interaction.ZhiOutcome | cli/src/mcp/tools/interaction/mcp.rs:76-109 | Every successful outcome is exactly one text content with no error flag |
| Interaction.ZhiOneAnswer | cli/src/mcp/tools/interaction/mcp.rs:76-109 | Exactly one reply or error comes out. A UI success wins. The terminal path is tried only when the request asks for it, the configuration loads and the terminal is enabled. Otherwise the inline reply is used, and only its error can surface |
| Interaction.DefaultRequestSkipsTerminal | cli/src/mcp/tools/interaction/mcp.rs:76-109 | A request that leaves `terminal_mode` at its default never reaches the terminal |
| Interaction.ParseTerminalType | cli/src/mcp/tools/interaction/mcp.rs:187-202 | An unrecognised name becomes a custom terminal carrying the name as given, not lower-cased |
| Interaction.ParseTerminalTypeKnown | cli/src/mcp/tools/interaction/mcp.rs:190-201 | A name is recognised iff its lower-case form is one of the twelve known spellings. Names equal up to case parse alike |
| Interaction.ParseConfigName | cli/src/mcp/tools/interaction/mcp.rs:190-201 | Parsing a terminal's configuration name gives that terminal back |
| Interaction.LauncherConfigFor | cli/src/mcp/tools/interaction/mcp.rs:156-165 | The launcher gets the configured title, fallback flag and working directory, plus the parsed preferred terminal when one is set |
| Interaction.TerminalInteraction | cli/src/mcp/tools/interaction/mcp.rs:143-184 | A configuration that does not load gives "加载配置失败: …". A script error passes through. A launch failure gives "终端启动失败: …" and removes the script. Otherwise the outcome is the wait's result |
| Interaction.ResponseFiles | cli/src/mcp/tools/interaction/mcp.rs:217-225 | A listing keeps exactly the readable entries whose names start with "cunzhi_response_" |
| Interaction.ResponseFilesAppend | cli/src/mcp/tools/interaction/mcp.rs:217-225 | The reply files keep listing order: an entry appended to the listing is appended to the result when it is a readable reply file, and adds nothing otherwise |
| Interaction.FilesAtLatestListing | cli/src/mcp/tools/interaction/mcp.rs:216-226 | The files polled are those of the latest listing that succeeded, or none when no listing has succeeded yet |
| Interaction.FirstReply | cli/src/mcp/tools/interaction/mcp.rs:229-241 | It finds the first response file with readable, non-blank content, and no earlier file has one |
| Interaction.ProgressEveryThirtySeconds | cli/src/mcp/tools/interaction/mcp.rs:247-250 | After n polls there are n/30 progress notes, at seconds 30, 60, 90, … |
| Interaction.CheckResponseFiles | cli/src/mcp/tools/interaction/mcp.rs:229-241 | Checking the files computes `FirstReply` |
| Interaction.WaitForTerminalResult | cli/src/mcp/tools/interaction/mcp.rs:205-260 | It polls at most `timeout` times and not at all for 0. It succeeds iff some poll finds a reply. A success returns the trimmed content, removes the script and that file, and every earlier poll found nothing. A timeout waits all `timeout` seconds, removes only the script, and reports "终端交互超时（N秒），未收到用户响应" |
| Interaction.OptionLines | cli/src/mcp/tools/interaction/mcp.rs:322-328 | Option i (from 0) is listed as "    {i+1}. {option}" |
| Interaction.CaseArms | cli/src/mcp/tools/interaction/mcp.rs:331-339 | Option i (from 0) becomes the case arm "        {i+1}) selected_option=\"{option}\" ;;" |
| Interaction.FormatOptionsForScript | cli/src/mcp/tools/interaction/mcp.rs:322-328 | Joins the numbered option lines with "\n". `ScriptLinesPerOption` states that the text splits back into them |
| Interaction.GenerateCaseStatements | cli/src/mcp/tools/interaction/mcp.rs:331-339 | Joins the case arms with "\n". `ScriptLinesPerOption` states that the text splits back into them |
| Interaction.ScriptLinesPerOption | cli/src/mcp/tools/interaction/mcp.rs:322-339 | For options without line breaks, the script text splits back at "\n" into exactly one numbered line and one case arm per option, in order |
| Interaction.PairAt | cli/src/mcp/tools/interaction/mcp.rs:442-444 | It finds a delimiter pair, where the second delimiter starts after the first one ends. There is none iff there is no first delimiter or none after it |
| Interaction.RemovePair | cli/src/mcp/tools/interaction/mcp.rs:445-446 | Removing one pair shortens the text by twice the delimiter length |
| Interaction.StripPairsLength | cli/src/mcp/tools/interaction/mcp.rs:440-462 | Stripping never lengthens the text, and shortens it by at least one pair when a pair is there |
| Interaction.StripStep | cli/src/mcp/tools/interaction/mcp.rs:440-462 | One removal moves toward the same stripped text and shortens it by one pair |
| Interaction.StripPairsAbsent | cli/src/mcp/tools/interaction/mcp.rs:440-462 | A text without the delimiter is left as it is |
| Interaction.StripPairsLeavesNoPair | cli/src/mcp/tools/interaction/mcp.rs:440-462 | No delimiter pair is left after stripping |
| Interaction.RemovePairs | cli/src/mcp/tools/interaction/mcp.rs:442-450 | The in-place removal loop computes `StripPairs` and terminates |
| Interaction.RenderSimpleMarkdownPlain | cli/src/mcp/tools/interaction/mcp.rs:438-464 | It strips `**` pairs, then backtick pairs. The result is never longer than the input, and equals the input when it has neither marker |
| Interaction.PlainMarkdownShorter | cli/src/mcp/tools/interaction/mcp.rs:438-464 | Plain rendering never lengthens a text and leaves a marker-free text unchanged |
| Interaction.BoldPhrasePlain | cli/src/mcp/tools/interaction/mcp.rs:438-464 | "a **b** c" renders as "a b c" |
| McpTypes.DecodeZhiRequest | cli/src/mcp/types.rs:5-25 | A value that is neither an object nor an array is refused. An object decodes iff its members are of the right types and `message` is present. A wrong-typed member is reported first, in sorted key order, so a bad `is_markdown` is reported before anything else. A missing message is reported after that. An array decodes iff it has 1 to 4 items of the right types, given by position. An empty array is "invalid length 0", and more than four items are refused. Absent options, `is_markdown` and `terminal_mode` default to [], true and Some(false), and a null terminal mode is None |
| McpTypes.ZhiRequestRoundTrip | cli/src/mcp/types.rs:5-25 | Decoding an encoded `ZhiRequest` gives it back, as an object and as a positional array |
| McpTypes.ZhiRequestDefaults | cli/src/mcp/types.rs:9-25 | A request holding only a message gets no options, `is_markdown` true and `terminal_mode` Some(false), as an object and as a one-item array |
| McpTypes.DecodeJiyiRequest | cli/src/mcp/types.rs:28-43 | A value that is neither an object nor an array is refused. An object decodes iff every member is a string and `action` and `project_path` are present. A wrong-typed member is reported first, in sorted key order, then a missing action, then a missing path. An array decodes iff it has 2 to 4 strings, given by position, and fewer strings are "invalid length". Missing content and category default to "" and "context" |
| McpTypes.JiyiRequestRoundTrip | cli/src/mcp/types.rs:28-43 | Decoding an encoded `JiyiRequest` gives it back, as an object and as a positional array |
| McpTypes.JiyiRequestDefaults | cli/src/mcp/types.rs:34-43 | A request holding only action and path gets content "" and category "context", as an object and as a two-item array |
| McpTypes.WrongTypeBeforeMissing | cli/src/mcp/types.rs:5-43 | A wrong-typed member is reported even when a required member is missing, because serde looks for missing fields only after visiting every member |
| McpTypes.TextContent | cli/src/mcp/types.rs:56-62 | Text content has type "text", the given text and no annotations |
| McpTypes.ContentListJson | cli/src/mcp/types.rs:46-53 | The content list serialises one entry per content, in order |
| McpTypes.TextContentJson | cli/src/mcp/types.rs:46-53 | Text content serialises as exactly `{type:"text", text}`, since absent annotations are skipped |
| McpTypes.Success | cli/src/mcp/types.rs:73-78 | A success keeps its content and has no error flag |
| McpTypes.ErrorResult | cli/src/mcp/types.rs:80-85 | An error result is exactly one text content with the error flag set |
| McpTypes.McpErrorText | cli/src/mcp/types.rs:88-96 | An error's text is its kind's prefix followed by its message |
| McpTypes.McpErrorTextInjective | cli/src/mcp/types.rs:88-96 | Different errors have different texts |
| McpTypes.InvalidParamsError | cli/src/mcp/types.rs:99-101 | `invalid_params` builds the InvalidParams kind with the message, and the data is dropped |
| McpTypes.InternalErrorError | cli/src/mcp/types.rs:103-105 | `internal_error` builds the InternalError kind with the message, and the data is dropped |
| McpTypes.InvalidRequestError | cli/src/mcp/types.rs:107-109 | `invalid_request` builds the MethodNotFound kind with the message |
| McpTypes.BuildMcpResponse | cli/src/mcp/types.rs:163-180 | The response carries the user input, the selected options, one entry per image whose i-th entry is `{data, media_type, filename}` of the i-th attachment, and metadata holding the request id, source and timestamp |
| McpTypes.BuildContinueResponse | cli/src/mcp/types.rs:195-205 | The continue response's input is the configured prompt, or "请按照最佳实践继续" when none could be read. Its selections and images are empty, and the request id, source and timestamp are passed on into the metadata |
| McpErrors.ToolErrorText | cli/src/mcp/utils/errors.rs:9-25 | Each tool error's message is its fixed prefix followed by the payload |
| McpErrors.ToolErrorTextInjective | cli/src/mcp/utils/errors.rs:9-25 | Different tool errors have different messages |
| McpErrors.ProjectPathError | cli/src/mcp/utils/errors.rs:27-29 | The result is InvalidParams("项目路径错误: " + message) |
| McpErrors.PopupError | cli/src/mcp/utils/errors.rs:32-34 | The result is InternalError("弹窗创建失败: " + message) |
| McpErrors.ResponseParsingError | cli/src/mcp/utils/errors.rs:37-39 | The result is InternalError("响应解析失败: " + message) |
| Settings.Validate | cli/src/config/settings.rs:176-183 | The configuration is invalid exactly when the auto-continue threshold is 0, with that error |
| Settings.DefaultConfigFacts | cli/src/config/settings.rs:62-171 | The defaults are zhi = ji = true, threshold 1000, terminal enabled with CLI fallback, timeout 300 and title "寸止 CLI 交互". The default configuration validates |
| Settings.FilterEnabled | cli/src/config/settings.rs:240-246 | The filter keeps exactly the listed names that are switched on, with no duplicates |
| Settings.IsToolEnabled | cli/src/config/settings.rs:230-232 | A tool is enabled iff it is in the map and switched on, so unknown names are off |
| Settings.SetToolEnabled | cli/src/config/settings.rs:235-237 | Setting a switch adds its name to the keys and keeps all others |
| Settings.SetThenIsToolEnabled | cli/src/config/settings.rs:230-237 | After setting n to b, n reads as b, and every other name reads as before |
| Settings.GetEnabledTools | cli/src/config/settings.rs:240-246 | The result lists exactly the enabled tools, each once |
| Settings.GetSummary | cli/src/config/settings.rs:186-207 | The summary starts with "配置版本: {version}" |
| Settings.SummaryHasThreeLines | cli/src/config/settings.rs:186-207 | The summary splits into its three lines, in this order: version, the enabled-tools line, then the continue-reply line (by flag) |
| Settings.TelegramIsValid | cli/src/config/settings.rs:212-220 | A disabled bot is always valid. An enabled one is valid iff its token is non-empty and holds ':' and its chat id is non-empty |
| Settings.DefaultTelegramValid | cli/src/config/settings.rs:91-99 | The default Telegram configuration is disabled and therefore valid |
| Settings.TelegramTokenNeedsColon | cli/src/config/settings.rs:212-220 | An enabled Telegram configuration whose token has no ':' is invalid |
| Settings.GetApiUrl | cli/src/config/settings.rs:223-225 | The URL is base + token + "/" + method |
| Init.BuildToolMap | cli/src/cli/init.rs:384-387 | The tool map has exactly the keys zhi and ji. Each is true iff the template lists it |
| Init.TemplateNamed | cli/src/cli/init.rs:379-382 | The lookup finds a template with that name, and fails iff none has it |
| Init.CreateConfigTemplate | cli/src/cli/init.rs:376-401 | An unknown name is the error "未知的模板: …", iff no template has it. Otherwise the result is the template's configuration |
| Init.ConfigureFromTemplate | cli/src/cli/init.rs:170-196 | Configuring from a template gives the same configuration as creating it by name |
| Init.TemplateFacts | cli/src/cli/init.rs:23-47 | There are exactly three templates: 基础配置 (zhi only, continue off), 完整配置 (both, on) and 自定义配置 (none, on). Each has threshold 1000 and validates |
| Init.ValidateProjectName | cli/src/cli/init.rs:340-355 | Empty is rejected first, then more than 50 bytes, then a character that is not alphanumeric, `-` or `_`. Otherwise the name is accepted |
| Init.AsciiNameAccepted | cli/src/cli/init.rs:350-354 | A name of 1 to 50 ASCII letters, digits, `-` and `_` is accepted |
| Init.ProjectNameExamples | cli/src/cli/init.rs:340-355 | "with-dashes" is accepted, "with spaces" is rejected, and 60 letters are too long |
| CliHelpers.ProgressIndicator.Tick | cli/src/utils/cli_helpers.rs:21-27 | On a terminal it writes the current spinner frame and advances the index modulo 10. Otherwise it writes nothing and changes nothing. The index stays in range |
| CliHelpers.Pow1024 | cli/src/utils/cli_helpers.rs:47-62 | Powers of 1024 are positive |
| CliHelpers.UnitIndexFor | cli/src/utils/cli_helpers.rs:47-62 | The unit chosen is the largest one (up to TB) whose power of 1024 does not exceed the size |
| CliHelpers.FormatFileSize | cli/src/utils/cli_helpers.rs:47-62 | Below 1024 bytes the text is "{bytes} B", exactly. Otherwise the size is scaled to the chosen unit |
| CliHelpers.ScaleStep | cli/src/utils/cli_helpers.rs:52-55 | Dividing by 1024 once more is the same as scaling to the next unit |
| CliHelpers.LoopExitUnit | cli/src/utils/cli_helpers.rs:52-55 | When the scaling loop stops, its unit is the chosen unit |
| CliHelpers.FormatDuration | cli/src/utils/cli_helpers.rs:65-81 | Formats a duration by its largest non-zero part. `FormatDurationParts` states each of the four texts |
| CliHelpers.FormatDurationParts | cli/src/utils/cli_helpers.rs:65-81 | Hours, minutes and seconds recompose the total, with minutes and seconds below 60. From one hour, the text is "Hh Mm Ss". From one minute to below an hour, it is "Mm Ss". From one to 59 seconds, it is "S.Ts" with T the one-digit tenths. Zero seconds give "Nms" |
| CliHelpers.FormatDurationExamples | cli/src/utils/cli_helpers.rs:65-81 | 0 s 500 ms is "500ms", 1 s is "1.0s", 65 s is "1m 5s", and 3665 s is "1h 1m 5s" |
| CliHelpers.IsCiEnvironment | cli/src/utils/cli_helpers.rs:84-89 | A CI environment is one where any of `CI`, `GITHUB_ACTIONS`, `GITLAB_CI` or `JENKINS_URL` is set |
| CliHelpers.SupportsColor | cli/src/utils/cli_helpers.rs:92-96 | Colour is supported iff standard error is a terminal, `NO_COLOR` is unset and it is not a CI environment |
| CliHelpers.Colorize | cli/src/utils/cli_helpers.rs:99-105 | Without colour support the text is unchanged. With it, the text is framed by the colour code and the reset code |
| CliHelpers.ColorizeStrips | cli/src/utils/cli_helpers.rs:99-105 | The coloured text holds the original text between the two codes and nothing else |
| CliHelpers.NoColorMeansPlain | cli/src/utils/cli_helpers.rs:84-105 | With `NO_COLOR` or a CI environment the text is never coloured |
| CliHelpers.MaxWidth | cli/src/utils/cli_helpers.rs:133-134 | The box width is at least the title width and every line's width, and equals one of them |
| CliHelpers.PrintBoxedMessage | cli/src/utils/cli_helpers.rs:132-146 | The printed lines are the box layout for the title and message |
| CliHelpers.Utf8LenSpaces | cli/src/utils/cli_helpers.rs:138-142 | n spaces take n bytes |
| CliHelpers.PadToWidth | cli/src/utils/cli_helpers.rs:138-142 | Padding makes a line exactly the box width |
| CliHelpers.BoxRowsAligned | cli/src/utils/cli_helpers.rs:132-146 | The title row and every message row have the same byte length, the width plus the bar and space on each side |
| CliHelpers.BoxLayoutRowAt | cli/src/utils/cli_helpers.rs:132-146 | Row 1 of a box shows the title and row k below the separator shows message line k - 3, each padded to the box width, which every one of these texts fits |
| CliHelpers.RowLength | cli/src/utils/cli_helpers.rs:138-142 | A boxed row is the width plus the bar and space on each side, 8 bytes in all |
| CliHelpers.ConfirmPrompt | cli/src/utils/cli_helpers.rs:149-151 | The prompt is the question, then " [", then "Y/n" when the default is yes or "y/N" when it is no, then "]: ". The capital letter marks the default |
| CliHelpers.Confirm | cli/src/utils/cli_helpers.rs:149-167 | "y"/"yes" gives true and "n"/"no" gives false. Any other answer, or a read error, gives the default |
| CliHelpers.ConfirmOverridesOnlyExplicitly | cli/src/utils/cli_helpers.rs:157-166 | The answer differs from the default only after an explicit yes or no |
| CliHelpers.Prompt | cli/src/utils/cli_helpers.rs:170-186 | There is no answer iff the read failed or the trimmed input is empty. Otherwise the answer is the trimmed input |
| CliHelpers.PromptAnswerTrimmed | cli/src/utils/cli_helpers.rs:176-184 | An answer is non-empty and has no white space at either end |
| ErrorHandler.AppErrorText | cli/src/utils/error_handler.rs:11-33 | The display text is the variant's prefix followed by its message |
| ErrorHandler.AppErrorTextSaysError | cli/src/utils/error_handler.rs:11-33 | Every display text contains "错误" |
| ErrorHandler.MakeAppError | cli/src/utils/error_handler.rs:38-75 | Each constructor builds its own variant and keeps the message |
| ErrorHandler.ExitCode | cli/src/utils/error_handler.rs:105-148 | Exit codes are 1 to 8 |
| ErrorHandler.ExitCodeIdentifiesKind | cli/src/utils/error_handler.rs:105-148 | Two errors share an exit code iff they are of the same kind, so the codes map Config…Internal one-to-one onto 1…8 |
| ErrorHandler.HandleGenericError | cli/src/utils/error_handler.rs:151-170 | A foreign error exits with 99 and prints "发生错误: …". In verbose mode it also prints its cause chain, one line per cause |
| ErrorHandler.CauseLineShape | cli/src/utils/error_handler.rs:159-166 | The i-th cause line is indented by 2(i+1) spaces and ends with that cause |
| ErrorHandler.AppErrorHeadline | cli/src/utils/error_handler.rs:107-145 | Each kind's headline ("配置错误: ", "文件操作失败: ", "网络连接失败: ", …) ends with the error's message after a non-empty prefix |
| ErrorHandler.HeadlineFirstCharTellsKind | cli/src/utils/error_handler.rs:107-145 | Two headlines start with the same character iff the errors are of the same kind |
| ErrorHandler.AppErrorHeadlineIdentifiesError | cli/src/utils/error_handler.rs:107-145 | Two application errors show the same headline iff they are the same error (same kind and message) |
| ErrorHandler.HandleError | cli/src/utils/error_handler.rs:95-102 | An application error exits with its kind's code, shows its `AppErrorHeadline` and no report. Any other error gets `handle_generic_error`'s headline "发生错误: …", its report (empty, or the cause chain when verbose) and 99. 99 means exactly that the error is not an application error |
| ErrorHandler.RetryWarning | cli/src/utils/error_handler.rs:286-287 | The retry warning reads "操作失败，{delay} 秒后重试 (", then the attempt number, and ends "/{max_retries})" |
| ErrorHandler.ExecuteWithRetry | cli/src/utils/error_handler.rs:269-293 | It returns the first success. It calls the operation at most max_retries+1 times, with one warning between calls and none after the last. After that many failures it returns the last error (max_retries = 0: the first failure, without waiting) |
| Ui.ColumnWidth | cli/src/utils/ui.rs:248-270 | A column's width covers its header and every stored cell of that column |
| Ui.ColumnWidthAttained | cli/src/utils/ui.rs:248-270 | A column's width is its header's width or the width of one of its cells |
| Ui.Table.constructor | cli/src/utils/ui.rs:248-257 | A new table has one width per header, with each width the header's length, and no rows |
| Ui.Table.AddRow | cli/src/utils/ui.rs:259-270 | It appends exactly one row and keeps the headers. Each width becomes the larger of the old width and the cell's, and extra cells are ignored. It keeps the invariant that widths cover headers and cells |
| Ui.Table.WidthsCoverCells | cli/src/utils/ui.rs:250-267 | Every width is at least the length of every stored cell in its column |
| Ui.TaskProgressManager.constructor | cli/src/utils/ui.rs:96-101 | A new manager has no tasks |
| Ui.TaskProgressManager.AddTask | cli/src/utils/ui.rs:104-114 | It appends a fresh task and returns its index, so ids are 0, 1, 2, … |
| Ui.TaskProgressManager.UpdateTask | cli/src/utils/ui.rs:117-122 | It sets the position and message of task `id` only, and does nothing for an unknown id |
| Ui.TaskProgressManager.FinishTask | cli/src/utils/ui.rs:125-129 | It marks task `id` finished with the message, and does nothing for an unknown id |
| Ui.AnswerMeaning | cli/src/utils/ui.rs:222-234 | "y"/"yes" is yes and "n"/"no" is no. An empty answer is the default, and anything else is no answer |
| Ui.BlankLineTakesDefault | cli/src/utils/ui.rs:222-234 | A white-space-only line takes the default |
| Ui.ConfirmDialog | cli/src/utils/ui.rs:211-237 | The dialog prompts again after a failed read or an unrecognised answer, warning once per unrecognised typed answer. It returns the meaning of the first decisive answer, and every earlier read was not decisive. When the reads run out first there is no answer |
| Ui.CountRejectedSnoc | cli/src/utils/ui.rs:222-234 | Each typed answer that decides nothing adds one warning, and a failed read adds none |
| MemoryTool.ParseCategory | cli/src/mcp/tools/memory/mcp.rs:32-38 | "rule", "preference" and "pattern" map to their categories, and anything else maps to Context |
| MemoryTool.ParseCategoryName | cli/src/mcp/tools/memory/mcp.rs:32-38 | Parsing a category's name gives that category back |
| MemoryTool.Jiyi | cli/src/mcp/tools/memory/mcp.rs:13-59 | A missing path is InvalidParams before any store opens, and a store that fails to open is InternalError. "记忆" with non-blank content adds it under the parsed category, and blank content is refused. "回忆" returns the summary. Any other action is InvalidParams. A success is one text content with no error flag |
| MemoryTool.BlankMemoryRefused | cli/src/mcp/tools/memory/mcp.rs:27-30 | "记忆" with white-space-only content is refused and stores nothing |
| Memory.CategoryDir | cli/src/mcp/tools/memory/manager.rs:96-101 | Each category's directory is one of the four created at initialisation |
| Memory.CategoryDirBijective | cli/src/mcp/tools/memory/manager.rs:61-64 | Rule, Preference, Pattern and Context map one-to-one onto "rules", "preferences", "patterns" and "context" |
| Memory.ReadableMember | cli/src/mcp/tools/memory/manager.rs:126-136 | A memory is listed iff some `.json` file of the directory reads and parses to it |
| Memory.EntryError | cli/src/mcp/tools/memory/manager.rs:126-131 | Only a failed listing entry or an unreadable `.json` file stops the scan. Any other entry is a file that is skipped or read |
| Memory.FirstError | cli/src/mcp/tools/memory/manager.rs:126-131 | A listing has no error iff none of its entries stops the scan |
| Memory.FirstErrorAt | cli/src/mcp/tools/memory/manager.rs:126-131 | The first entry that cannot be scanned gives the listing's error |
| Memory.FirstErrorPrefix | cli/src/mcp/tools/memory/manager.rs:126-131 | Once an error appears in the entries scanned so far, the later entries do not change it |
| Memory.CollectErrorAt | cli/src/mcp/tools/memory/manager.rs:117-143 | A scan that fails at an entry of one directory, after clean earlier directories and entries, returns exactly that entry's error |
| Memory.CollectErrorPrefix | cli/src/mcp/tools/memory/manager.rs:117-143 | Once an error appears in the directories scanned so far, later directories do not change it |
| Memory.CollectErrorReplace | cli/src/mcp/tools/memory/manager.rs:117-143 | Replacing one directory's listing by one with the same first error leaves the scan's error as it was |
| Memory.CollectAllReplace | cli/src/mcp/tools/memory/manager.rs:117-143 | Changing one directory changes only that directory's share of the full listing |
| Memory.InsertNewest | cli/src/mcp/tools/memory/manager.rs:140 | Inserting into a newest-first list keeps it newest-first and adds exactly that memory |
| Memory.SortNewestFirst | cli/src/mcp/tools/memory/manager.rs:140 | Sorting gives a newest-first permutation of the memories |
| Memory.CreatedAt | cli/src/mcp/tools/memory/manager.rs:140 | The memories of one creation time hold exactly the listed memories with that time |
| Memory.InsertNewestStable | cli/src/mcp/tools/memory/manager.rs:140 | Inserting a memory puts it in front of the memories already there with its own creation time, and keeps their order |
| Memory.SortNewestFirstStable | cli/src/mcp/tools/memory/manager.rs:140 | The sort is stable, as `sort_by` is: memories with equal creation time come out in their listing order |
| Memory.SortKeepsSorted | cli/src/mcp/tools/memory/manager.rs:140 | Sorting an already newest-first list leaves it unchanged |
| Memory.WriteFile | cli/src/mcp/tools/memory/manager.rs:103-108 | Writing a file makes it present and readable. A name no listed file has is appended to the directory |
| Memory.NormalizeProjectPath | cli/src/mcp/tools/memory/manager.rs:41-56 | A canonical path is used as it is. A path that does not resolve is "项目路径不存在或无法访问: …" |
| Memory.CategoryCountsSum | cli/src/mcp/tools/memory/manager.rs:208-220 | The four per-category counts sum to the number of memories |
| Memory.CountCategoryBound | cli/src/mcp/tools/memory/manager.rs:208-220 | No category counts more than all memories |
| Memory.RecentLines | cli/src/mcp/tools/memory/manager.rs:230-241 | The recent list has min(5, n) items |
| Memory.RecentLineShape | cli/src/mcp/tools/memory/manager.rs:230-241 | Item i reads "{i+1}. [category] " followed by the first at most 50 characters of its content |
| Memory.SummaryOpensWithPath | cli/src/mcp/tools/memory/manager.rs:198-244 | The summary opens with the project path line. It is that line plus "暂无记忆条目" iff there are no memories; otherwise the total follows |
| Memory.MemoryManager.constructor | cli/src/mcp/tools/memory/manager.rs:16-80 | A new store keeps the existing directories and creates the four empty category directories that are missing. It keeps existing metadata, or starts it at zero entries |
| Memory.MemoryManager.GetAllMemories | cli/src/mcp/tools/memory/manager.rs:117-143 | The first listing or read error, in directory and listing order, is returned. Otherwise the result is every readable memory of the four directories, newest first, as a permutation of the listing |
| Memory.MemoryManager.GetMemoriesByCategory | cli/src/mcp/tools/memory/manager.rs:146-177 | A missing directory gives no memories. The directory's first listing or read error is returned. Otherwise the result is the readable memories of that category's directory, newest first |
| Memory.MemoryManager.UpdateMetadata | cli/src/mcp/tools/memory/manager.rs:180-195 | A listing error is returned and leaves the metadata as it was. Otherwise the metadata records the number of readable memories and the version. The directories never change |
| Memory.MemoryManager.AddMemory | cli/src/mcp/tools/memory/manager.rs:83-114 | It writes the memory as `{id}.json` into its category's directory, then refreshes the metadata. When the listing fails, the file stays written, the metadata is unchanged and the error is returned. Otherwise the metadata counts the readable memories, and the id is returned |
| Memory.MemoryManager.GetProjectSummary | cli/src/mcp/tools/memory/manager.rs:198-244 | A listing error is returned. Otherwise the summary is `SummaryText` of the newest-first listing |
| Memory.SummaryText | cli/src/mcp/tools/memory/manager.rs:198-244 | Builds the summary text: the path line and "暂无记忆条目" for no memories; otherwise the path, total, category counts and recent memories. `SummaryOpensWithPath` and the counting and recent-line rows state its parts |
| Memory.CountByCategory | cli/src/mcp/tools/memory/manager.rs:208-220 | The counting loop yields each category's count |
| Memory.RecentText | cli/src/mcp/tools/memory/manager.rs:230-241 | The loop yields the recent lines joined |
| Memory.AddFreshCountsOneMore | cli/src/mcp/tools/memory/manager.rs:83-114 | Adding a memory under a fresh id raises the count of readable memories by exactly one, and the scan fails exactly as it failed before |
| Memory.ReadableAppend | cli/src/mcp/tools/memory/manager.rs:126-136 | A readable, parsable `.json` file added to a directory adds its memory to the listing and no error |
| Memory.CategoryDirsDistinct | cli/src/mcp/tools/memory/manager.rs:61-64 | The four category directories are distinct |
| Memory.JsonNameIsJsonFile | cli/src/mcp/tools/memory/manager.rs:103-105 | The file written for an id is a `.json` file |
| McpClientConfig.NewCunzhiConfig | cli/src/mcp/config.rs:23-43 | The default client configuration has the single server "cunzhi-cli", run as the current executable (or "cunzhi") with args ["mcp-server"] and env {RUST_LOG: "info"} |
| McpClientConfig.ServerJson | cli/src/mcp/config.rs:8-19 | A server serialises its command and args, and has `env` exactly when it has an environment |
| McpClientConfig.ClientJson | cli/src/mcp/config.rs:8-19 | A client configuration serialises as `{mcpServers: …}` with one entry per server |
| McpClientConfig.MergeConfig | cli/src/mcp/config.rs:112-134 | The in-place merge computes `MergeOutcome` |
| McpClientConfig.MergeSetsServer | cli/src/mcp/config.rs:126-127 | After a merge, `mcpServers["cunzhi-cli"]` is the new server |
| McpClientConfig.MergeOutcomeCases | cli/src/mcp/config.rs:112-134 | The merge fails iff there is no readable file. It panics iff `mcpServers` exists and is neither an object nor null |
| McpClientConfig.MergeNonObjectRoot | cli/src/mcp/config.rs:117-119 | A root that is not an object is replaced, leaving only the new server |
| McpClientConfig.MergeKeepsOthers | cli/src/mcp/config.rs:112-131 | Other top-level keys and other servers are unchanged |
| McpClientConfig.MergeAddsServers | cli/src/mcp/config.rs:121-123 | A missing `mcpServers` is added, holding just the new server |
| McpClientConfig.CandidatePaths | cli/src/mcp/config.rs:66-78 | The candidate files end with the working-directory `mcp_config.json` |
| McpClientConfig.GenerateMcpConfig | cli/src/mcp/config.rs:62-109 | Each candidate file in turn gets its action: merge into an existing file, overwrite it when the merge fails, or create it when absent. A panicking merge stops the pass. Exactly the files acted on are written, with their contents |
| McpClientConfig.CandidatePathsDistinct | cli/src/mcp/config.rs:66-78 | No candidate file is listed twice |
| McpClientConfig.FreshLocationsGetNewConfig | cli/src/mcp/config.rs:86-96 | An absent file is created with the new configuration |
| CunzhiUi.DelimitedLength | cli/src/bin/cunzhi-ui.rs:105-116 | A trimmed line that passes a bold, italic or code length test is long enough to drop both delimiters |
| CunzhiUi.RenderTrimmed | cli/src/bin/cunzhi-ui.rs:86-127 | The forms are tried in fixed order and the first match wins: "# ", "## ", "### ", "- "/"* ", bold, italic, code, fence, empty, plain. A line without a break renders without one |
| CunzhiUi.ClassifyLineNoBreak | cli/src/bin/cunzhi-ui.rs:86-127 | A rendered line holds no line break |
| CunzhiUi.RenderSimpleMarkdown | cli/src/bin/cunzhi-ui.rs:80-130 | Each input line renders to exactly one styled line, in order |
| CunzhiUi.Texts | cli/src/bin/cunzhi-ui.rs:84-127 | The texts of the rendered lines are listed in order |
| CunzhiUi.RenderedTextIsJoin | cli/src/bin/cunzhi-ui.rs:84-127 | The rendered text is each line followed by "\n" |
| CunzhiUi.LinesHaveNoBreak | cli/src/bin/cunzhi-ui.rs:84 | No line from `str::lines` holds a line break |
| CunzhiUi.RenderedLinesPerInputLine | cli/src/bin/cunzhi-ui.rs:84-127 | The rendered text splits back into exactly one "\n"-terminated line per input line |
| CunzhiUi.HeadingRendersTitle | cli/src/bin/cunzhi-ui.rs:89-92 | "# title" renders the title in the level-one style |
| CunzhiUi.SecondLevelHeading | cli/src/bin/cunzhi-ui.rs:93-96 | "## title" renders in the level-two style, not as a level-one heading |
| CunzhiUi.ListItemRendersBullet | cli/src/bin/cunzhi-ui.rs:101-104 | A list item is "  • " followed by its text |
| CunzhiUi.FenceLineIsInlineCode | cli/src/bin/cunzhi-ui.rs:113-119 | A line that is exactly "```" takes the inline-code branch and renders as one backtick |
| CunzhiUi.PlainLineKeptUntrimmed | cli/src/bin/cunzhi-ui.rs:123-125 | A plain line is kept untrimmed |
| CunzhiUi.BlankLineRendersEmpty | cli/src/bin/cunzhi-ui.rs:120-122 | A white-space-only line renders as an empty line |
| CunzhiUi.ChooseInteraction | cli/src/bin/cunzhi-ui.rs:66-76 | Non-empty options go to option selection. None or empty options go to custom input |
| CunzhiUi.ExecuteCliInteraction | cli/src/bin/cunzhi-ui.rs:50-77 | The chosen interaction's answer is returned. Its error is prefixed "交互失败: " |

## Left out

- Process work is outside the model: spawning, `which`/`where`, the `osascript`/`wt` probes and `/Applications` checks. So are `configure_process_detachment` (it mutates a process builder), `log_diagnostic_info` and `diagnose_terminal_availability`, which build log text only. Each probe result is an input of the host record.
- Environment reads, `atty`, the target OS and `current_dir` are inputs of the host or request records.
- Stdio and HTTP transport, and JSON text parsing and printing, are outside the model. Requests arrive parsed (`services.parse`), and a write error on stdout is not modelled.
- Filesystem effects are outside the model. This covers the configuration storage, the memory files, `create_temp_script` and the temp-directory scan. Listings, file contents and removals are inputs or reported outputs. uuids and timestamps are inputs.
- Sleeping and timing are counted rather than performed (`sleptMs`, `waited`).
- Interactive prompts, console styles, progress bars and `Table::print` are outside the model. Answers and selections are inputs, and styles are tags.
- `generate_interaction_script`'s fixed script template and `create_temp_script` are left out. Only the option lines and case arms that differ per request are modelled.
- `create_cli_popup` is not part of this model. The UI-process outcome is an input of `Interaction.Zhi`.
- The coloured `render_simple_markdown` of the interaction tool is left out: without colour support it equals the plain variant. `handle_mcp_interaction` is left out because it only delegates.
- `popup.rs` is a placeholder, `response.rs` a wrapper and `mcp/commands.rs` static data, so these are left out. So are the logger, the CLI plumbing and demos, `build_send_response` and the test programs.
- `colorize_with_style` is left out: it is `colorize` with the bold code put before the colour.
- `CliHelpers.FormatFileSize`: the scaled branch is stated at the unit chosen, not at its floating-point digits: the f64 division is not modelled.
- Lower-casing is ASCII only. This covers `to_lowercase` on the known terminal names, the stderr keywords, the reply keywords of `Interaction.TrimmedReplyCases`, and the answers of `CliHelpers.Confirm` and `Ui.AnswerMeaning`. The keywords compared against are ASCII. `is_alphanumeric` is a parameter holding Unicode's table.
- HashMap iteration order is a parameter (`order`, a duplicate-free listing of the keys).
- `Interaction.StripPairsLength`: the count of removed pairs is not stated, only the length bounds.
- `Interaction.RemovePairs` searches through `PairAt` (first delimiter, then the next one after it). The Rust code's byte offsets equal character offsets here because both delimiters are ASCII.
- `Interaction.ParseTerminalType`: the Debug quoting of a custom name in log text is not modelled.
- `Server.StartWithMode`: HTTP mode runs the stdio loop as written. Binding a port is not modelled.
- `Server.RunMcpProtocol`: the world the loop runs in has one state per answered line. Every configuration read while answering one line therefore sees the same file; the state between lines (a stored memory, a changed configuration file) moves on by a parameter, `effect`.
- `McpTypes.DecodeZhiRequest` and `McpTypes.DecodeJiyiRequest`: the missing-field and length messages have serde's wording. The invalid-type messages do not: serde names the value it found and the type it expected ("invalid type: integer `1`, expected a boolean"), and the model names the field instead. Member order is serde_json's default sorted map order, without its `preserve_order` feature.
- `Memory.WriteFile`: the position of a newly written file in its directory's `read_dir` listing is chosen by the operating system; the model puts it at the end. That choice decides the order among memories with equal creation time, and which error a later scan meets first.
- `Memory.MemoryManager.AddMemory`: a failing write of the memory file or of the metadata file is not modelled. Only listing and read errors are. A directory whose `read_dir` fails is a listing whose first entry failed.
- `ErrorHandler.HandleError`: the hint lines `show_config_help` … `show_internal_help` print after an application error's headline are console text with no effect on the result; they are not modelled, so the application-error report is empty.
- `ErrorHandler.ExecuteWithRetry`: `max_retries` is unbounded, so the overflow of the u32 attempt counter at `max_retries == u32::MAX` is not modelled.
- `Json.Number` holds integers only, so a JSON-RPC id that is a fraction or exponent number cannot be represented or echoed.
- `McpClientConfig.CandidatePaths` joins paths with "/", where `PathBuf::join` uses the platform separator.
- `McpClientConfig.GenerateMcpConfig`: a panicking merge is an outcome (`MergePanicked`) that stops the pass, not a precondition.
- `Server.ToolEnabled`: the server's view defaults an unknown tool to enabled, while `Settings.IsToolEnabled` defaults it to disabled. Both are modelled as written.

## Findings

| source | as written | input that shows it | evidently intended | confidence | as-written member | corrected member |
|---|---|---|---|---|---|---|
| cli/src/utils/terminal_launcher.rs:582-587 | `escape_powershell` replaces `"`, then `'`, then `` ` ``, then `$`. The third step doubles the backticks the first two inserted, so `"` becomes ``` ``" ```. Inside a double-quoted PowerShell string, ```` `` ```` is a literal backtick and the `"` that follows ends the string | the title or command `"` | a single backtick before each of `` ` ``, `"`, `'` and `$`, so the string reads back as the original text | not executed | TerminalLauncher.PowershellQuoteClosesString | TerminalLauncher.EscapePowershellRoundTrip |

The launcher is modelled with the escaping as written: `TerminalLauncher.PowershellCarriesCommand` states what PowerShell reads back from the program's command line, and `TerminalLauncher.PowershellIntendedCarriesCommand` what it would read with the corrected escaping.
