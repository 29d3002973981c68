/**
  The `zhi` interaction tool: the inline option menu and free-text reply, the fallback from
  the separate UI process to a terminal window to the inline prompts, the terminal-name
  parser, the polling for the terminal's reply file, the option lines of the interaction
  script, and the plain-text Markdown stripper. Prompts, the file system and the UI process
  are inputs: each appears as the value (or the function of the iteration) it yields.
*/
module Interaction {
  import opened Results
  import opened Strings
  import opened McpTypes
  import Settings
  import TerminalLauncher

  const CustomInputItem: string := "自定义输入"
  const CancelItem: string := "取消"
  const CancelledReply: string := "用户取消了操作"
  const ContinueReply: string := "用户确认继续"

  // ---------------------------------------------------------------------------------------
  // Inline prompts

  /** What the free-text prompt gave: a line, a cancellation (Esc), or another failure
      (an interruption by Ctrl+C included). */
  datatype PromptOutcome = Answered(text: string) | PromptCanceled | PromptFailed(error: string)

  /** What the selection prompt gave: the chosen menu item, a cancellation, or another failure. */
  datatype SelectOutcome = Chosen(item: string) | SelectCanceled | SelectFailed(error: string)

  /** The reply made of a free-text answer: it is decided on the trimmed text. */
  function CustomInputReply(input: string): string {
    TrimmedReply(Trim(input))
  }

  /** The reply for the trimmed answer `t`. */
  function TrimmedReply(t: string): string {
    if t == "" then ContinueReply
    else if Lower(t) == "cancel" then CancelledReply
    else if Lower(t) == "continue" then ContinueReply
    else "用户输入: " + t
  }

  /** The three kinds of free-text reply, each with its exact condition on the trimmed text. */
  lemma TrimmedReplyCases(t: string)
    ensures TrimmedReply(t) == ContinueReply <==> t == "" || Lower(t) == "continue"
    ensures TrimmedReply(t) == CancelledReply <==> t != "" && Lower(t) == "cancel"
    ensures TrimmedReply(t) != ContinueReply && TrimmedReply(t) != CancelledReply ==>
      TrimmedReply(t) == "用户输入: " + t
  {
    var typed := "用户输入: " + t;
    assert typed[2] == '输';
    assert ContinueReply[2] == '确' && CancelledReply[2] == '取';
    if Lower(t) == "cancel" {
      assert Lower(t)[1] == 'a';
    }
  }

  /** Case does not matter for the two keywords. */
  lemma KeywordsAnyCase()
    ensures TrimmedReply("CANCEL") == CancelledReply
    ensures TrimmedReply("Continue") == ContinueReply
  {
    assert Lower("CANCEL") == "cancel";
    assert Lower("Continue") == "continue";
  }

  /** `handle_custom_input`, with the prompt's outcome as input. */
  function HandleCustomInput(prompt: PromptOutcome): (r: Result<string, McpError>)
    ensures prompt.Answered? <==> r.Ok?
    ensures prompt.Answered? ==> r.value == CustomInputReply(prompt.text)
    ensures prompt.PromptCanceled? ==> r == Err(InternalError(CancelledReply))
    ensures prompt.PromptFailed? ==> r == Err(InternalError("输入失败: " + prompt.error))
  {
    match prompt
    case Answered(text) => Ok(CustomInputReply(text))
    case PromptCanceled => Err(InternalErrorError(CancelledReply, None))
    case PromptFailed(e) => Err(InternalErrorError("输入失败: " + e, None))
  }

  /** The menu offered: the given options, then custom input, then cancel. */
  function Menu(options: seq<string>): (m: seq<string>)
    ensures |m| == |options| + 2 && m[..|options|] == options
    ensures m[|options|] == CustomInputItem && m[|options| + 1] == CancelItem
  {
    options + [CustomInputItem, CancelItem]
  }

  /** The reply to the item chosen from the menu; `custom` is what the free-text prompt gives
      if that prompt is reached. */
  function SelectionReply(selection: SelectOutcome, custom: PromptOutcome): (r: Result<string, McpError>)
    ensures selection.SelectCanceled? ==> r == Err(InternalError(CancelledReply))
    ensures selection.SelectFailed? ==> r == Err(InternalError("选择失败: " + selection.error))
    ensures selection.Chosen? && selection.item == CancelItem ==> r == Ok(CancelledReply)
    ensures selection.Chosen? && selection.item == CustomInputItem ==> r == HandleCustomInput(custom)
    ensures selection.Chosen? && selection.item != CancelItem && selection.item != CustomInputItem ==>
      r == Ok("用户选择: " + selection.item)
  {
    match selection
    case SelectCanceled => Err(InternalErrorError(CancelledReply, None))
    case SelectFailed(e) => Err(InternalErrorError("选择失败: " + e, None))
    case Chosen(item) =>
      if item == CancelItem then Ok(CancelledReply)
      else if item == CustomInputItem then HandleCustomInput(custom)
      else Ok("用户选择: " + item)
  }

  /** `handle_option_selection`: builds the menu, asks `select` to pick from it, and answers the
      pick. */
  method HandleOptionSelection(options: seq<string>, select: seq<string> -> SelectOutcome, custom: PromptOutcome)
    returns (menu: seq<string>, r: Result<string, McpError>)
    ensures menu == Menu(options)
    ensures r == SelectionReply(select(menu), custom)
  {
    menu := options;
    menu := menu + [CustomInputItem];
    menu := menu + [CancelItem];
    var selection := select(menu);
    if selection.SelectCanceled? {
      return menu, Err(InternalErrorError(CancelledReply, None));
    } else if selection.SelectFailed? {
      return menu, Err(InternalErrorError("选择失败: " + selection.error, None));
    }
    if selection.item == CancelItem {
      r := Ok(CancelledReply);
    } else if selection.item == CustomInputItem {
      r := HandleCustomInput(custom);
    } else {
      r := Ok("用户选择: " + selection.item);
    }
  }

  /** What each menu position means: the last cancels, the one before it asks for free text, and
      an ordinary option is answered with its own text; an option that happens to read "取消" is
      taken for cancel. */
  lemma MenuItemMeaning(options: seq<string>, custom: PromptOutcome, i: nat)
    requires i < |Menu(options)|
    ensures var item := Menu(options)[i];
      (i == |options| + 1 ==> SelectionReply(Chosen(item), custom) == Ok(CancelledReply))
      && (i == |options| ==> SelectionReply(Chosen(item), custom) == HandleCustomInput(custom))
      && (i < |options| && options[i] != CancelItem && options[i] != CustomInputItem ==>
            SelectionReply(Chosen(item), custom) == Ok("用户选择: " + options[i]))
      && (i < |options| && options[i] == CancelItem ==> SelectionReply(Chosen(item), custom) == Ok(CancelledReply))
  {
    if i < |options| {
      assert Menu(options)[i] == Menu(options)[..|options|][i] == options[i];
    }
  }

  /** `handle_cli_interaction`: the option menu when there are options, the free-text prompt
      otherwise (the message display is output only). */
  method HandleCliInteraction(request: ZhiRequest, select: seq<string> -> SelectOutcome, custom: PromptOutcome)
    returns (r: Result<string, McpError>)
    ensures r == CliReply(request, select, custom)
  {
    if request.predefinedOptions != [] {
      var menu;
      menu, r := HandleOptionSelection(request.predefinedOptions, select, custom);
    } else {
      r := HandleCustomInput(custom);
    }
  }

  /** The reply the inline prompts give for `request`. */
  function CliReply(request: ZhiRequest, select: seq<string> -> SelectOutcome, custom: PromptOutcome): (r: Result<string, McpError>)
    ensures request.predefinedOptions == [] ==> r == HandleCustomInput(custom)
    ensures request.predefinedOptions != [] ==> r == SelectionReply(select(Menu(request.predefinedOptions)), custom)
  {
    if request.predefinedOptions != [] then SelectionReply(select(Menu(request.predefinedOptions)), custom)
    else HandleCustomInput(custom)
  }

  // ---------------------------------------------------------------------------------------
  // The fallback chain

  /** `handle_ui_process_interaction`, with what the UI process answered (its error text on
      failure). */
  function UiProcessInteraction(popup: Result<string, string>): (r: Result<string, McpError>)
    ensures popup.Ok? <==> r.Ok?
    ensures popup.Ok? ==> r.value == popup.value
    ensures popup.Err? ==> r == Err(InternalError("UI进程交互失败: " + popup.error))
  {
    match popup
    case Ok(response) => Ok(response)
    case Err(e) => Err(InternalErrorError("UI进程交互失败: " + e, None))
  }

  /** Whether `zhi` tries the terminal window after the UI process failed: only when the request
      asks for it and the configuration loads with the terminal mode enabled. */
  predicate TriesTerminal(request: ZhiRequest, config: Result<Settings.AppConfig, string>) {
    request.terminalMode == Some(true) && config.Ok? && config.value.terminalConfig.enabled
  }

  /** The successful tool result carrying `text` as its single block. */
  function Reply(text: string): (r: CallToolResult)
    ensures r.content == [TextContent(text)] && r.isError == None
  {
    Success([TextContent(text)])
  }

  /** `zhi`: the UI process first, then (when asked for and enabled) the terminal window, then
      the inline prompts, whose error is the only one that reaches the caller. */
  method Zhi(request: ZhiRequest, popup: Result<string, string>, config: Result<Settings.AppConfig, string>,
             terminal: Result<string, McpError>, select: seq<string> -> SelectOutcome, custom: PromptOutcome)
    returns (r: Result<CallToolResult, McpError>)
    ensures r == ZhiOutcome(request, popup, config, terminal, CliReply(request, select, custom))
  {
    var ui := UiProcessInteraction(popup);
    if ui.Ok? {
      return Ok(Reply(ui.value));
    }
    var terminalMode := request.terminalMode.GetOr(false);
    if terminalMode && config.Ok? && config.value.terminalConfig.enabled {
      if terminal.Ok? {
        return Ok(Reply(terminal.value));
      }
    }
    var response := HandleCliInteraction(request, select, custom);
    if response.Err? {
      return Err(response.error);
    }
    r := Ok(Reply(response.value));
  }

  /** The outcome of `zhi` given what each of its three paths gives. */
  function ZhiOutcome(request: ZhiRequest, popup: Result<string, string>, config: Result<Settings.AppConfig, string>,
                      terminal: Result<string, McpError>, cli: Result<string, McpError>): (r: Result<CallToolResult, McpError>)
    ensures r.Ok? ==> |r.value.content| == 1 && r.value.isError == None
  {
    if popup.Ok? then Ok(Reply(popup.value))
    else if TriesTerminal(request, config) && terminal.Ok? then Ok(Reply(terminal.value))
    else match cli
      case Ok(text) => Ok(Reply(text))
      case Err(e) => Err(e)
  }

  /** Exactly one path answers: its text is the single block, and an error can only be the
      inline prompts' error, after both other paths gave none. */
  lemma ZhiOneAnswer(request: ZhiRequest, popup: Result<string, string>, config: Result<Settings.AppConfig, string>,
                     terminal: Result<string, McpError>, cli: Result<string, McpError>)
    ensures var r := ZhiOutcome(request, popup, config, terminal, cli);
      (popup.Ok? ==> r == Ok(Reply(popup.value)))
      && (popup.Err? && TriesTerminal(request, config) && terminal.Ok? ==> r == Ok(Reply(terminal.value)))
      && (r.Err? <==> popup.Err? && !(TriesTerminal(request, config) && terminal.Ok?) && cli.Err?)
      && (r.Err? ==> r.error == cli.error)
      && (r.Ok? ==> (popup.Ok? && r.value.content[0].text == popup.value)
                    || (terminal.Ok? && r.value.content[0].text == terminal.value)
                    || (cli.Ok? && r.value.content[0].text == cli.value))
  {
  }

  /** With the default request (no terminal mode) the terminal window is never tried, whatever
      it would have given. */
  lemma DefaultRequestSkipsTerminal(message: string, popup: Result<string, string>, config: Result<Settings.AppConfig, string>,
                                    terminal: Result<string, McpError>, cli: Result<string, McpError>)
    ensures var request := ZhiRequest(message, [], true, Some(false));
      ZhiOutcome(request, popup, config, terminal, cli) == ZhiOutcome(request, popup, config, Err(InternalError("")), cli)
  {
  }

  // ---------------------------------------------------------------------------------------
  // The terminal window

  /** `parse_terminal_type`: the name is matched lower-cased; an unknown name is kept, as
      given, as a custom command. */
  function ParseTerminalType(name: string): (t: TerminalLauncher.TerminalType)
    ensures t.Custom? ==> t.command == name
  {
    var n := Lower(name);
    if n == "terminal" || n == "terminal.app" then TerminalLauncher.TerminalApp
    else if n == "iterm" || n == "iterm2" then TerminalLauncher.ITerm2
    else if n == "alacritty" then TerminalLauncher.Alacritty
    else if n == "gnome-terminal" then TerminalLauncher.GnomeTerminal
    else if n == "konsole" then TerminalLauncher.Konsole
    else if n == "xterm" then TerminalLauncher.Xterm
    else if n == "cmd" then TerminalLauncher.Cmd
    else if n == "powershell" then TerminalLauncher.PowerShell
    else if n == "wt" || n == "windows-terminal" then TerminalLauncher.WindowsTerminal
    else TerminalLauncher.Custom(name)
  }

  /** The lower-case names the parser knows. */
  const KnownNames: seq<string> := ["terminal", "terminal.app", "iterm", "iterm2", "alacritty", "gnome-terminal",
                                    "konsole", "xterm", "cmd", "powershell", "wt", "windows-terminal"]

  /** A name is taken for a built-in terminal exactly when it is a known name in some case;
      two names that differ only in case name the same built-in terminal. */
  lemma ParseTerminalTypeKnown(name: string, other: string)
    ensures !ParseTerminalType(name).Custom? <==> Lower(name) in KnownNames
    ensures Lower(name) == Lower(other) && !ParseTerminalType(name).Custom? ==>
      ParseTerminalType(name) == ParseTerminalType(other)
  {
  }

  /** Every built-in terminal has a name the parser maps back to it. */
  function ConfigName(t: TerminalLauncher.TerminalType): string {
    match t
    case TerminalApp => "terminal"
    case ITerm2 => "iterm2"
    case Alacritty => "alacritty"
    case GnomeTerminal => "gnome-terminal"
    case Konsole => "konsole"
    case Xterm => "xterm"
    case Cmd => "cmd"
    case PowerShell => "powershell"
    case WindowsTerminal => "windows-terminal"
    case Custom(command) => command
  }

  lemma LowerOfLower(s: string)
    requires forall k :: 0 <= k < |s| ==> !('A' <= s[k] <= 'Z')
    ensures Lower(s) == s
  {
  }

  lemma ParseConfigName(t: TerminalLauncher.TerminalType)
    requires !t.Custom? || Lower(t.command) !in KnownNames
    ensures ParseTerminalType(ConfigName(t)) == t
  {
    if !t.Custom? {
      var n := ConfigName(t);
      LowerOfLower(n);
    }
  }

  /** The launcher settings `handle_terminal_interaction` derives from the terminal
      configuration, with `cwd` the current directory when the system tells it. */
  function LauncherConfigFor(tc: Settings.TerminalConfig, cwd: Option<string>): (c: TerminalLauncher.LauncherConfig)
    ensures c.windowTitle == Some(tc.windowTitle) && c.fallbackToCli == tc.fallbackToCli && c.workingDirectory == cwd
    ensures tc.preferredTerminal.None? ==> c.preferredTerminal.None?
    ensures tc.preferredTerminal.Some? ==> c.preferredTerminal == Some(ParseTerminalType(tc.preferredTerminal.value))
  {
    var base := TerminalLauncher.DefaultLauncherConfig;
    var preferred := match tc.preferredTerminal
      case None => base.preferredTerminal
      case Some(name) => Some(ParseTerminalType(name));
    TerminalLauncher.LauncherConfig(preferred, tc.fallbackToCli, cwd, Some(tc.windowTitle))
  }

  /** `handle_terminal_interaction`, with the outcomes of its steps as inputs: loading the
      configuration, writing the script (its path), launching the terminal, and waiting for the
      reply. The second result says whether the script was removed on a failed launch. */
  function TerminalInteraction(config: Result<Settings.AppConfig, string>, script: Result<string, McpError>,
                               launched: Result<Unit, string>, wait: Result<string, McpError>): (r: (Result<string, McpError>, bool))
    ensures config.Err? ==> r.0 == Err(InternalError("加载配置失败: " + config.error)) && !r.1
    ensures config.Ok? && script.Err? ==> r.0 == Err(script.error) && !r.1
    ensures config.Ok? && script.Ok? && launched.Err? ==> r.0 == Err(InternalError("终端启动失败: " + launched.error)) && r.1
    ensures config.Ok? && script.Ok? && launched.Ok? ==> r.0 == wait && !r.1
  {
    if config.Err? then (Err(InternalErrorError("加载配置失败: " + config.error, None)), false)
    else if script.Err? then (Err(script.error), false)
    else if launched.Err? then (Err(InternalErrorError("终端启动失败: " + launched.error, None)), true)
    else (wait, false)
  }

  // ---------------------------------------------------------------------------------------
  // Waiting for the reply file

  /** One entry of the temporary directory (`None` for an entry that could not be read). */
  datatype DirEntry = DirEntry(name: string, path: string)

  const ResponsePrefix: string := "cunzhi_response_"

  /** The readable entries whose name starts with the reply prefix, in listing order. */
  function ResponseFiles(entries: seq<Option<DirEntry>>): (r: seq<DirEntry>)
    ensures forall e :: e in r <==> Some(e) in entries && StartsWith(e.name, ResponsePrefix)
  {
    if entries == [] then []
    else
      var rest := ResponseFiles(entries[1..]);
      assert forall e :: Some(e) in entries <==> Some(e) == entries[0] || Some(e) in entries[1..];
      match entries[0]
      case Some(e) => if StartsWith(e.name, ResponsePrefix) then [e] + rest else rest
      case None => rest
  }

  /** The reply files keep listing order: one more entry at the end of the listing adds that
      entry, when it is a readable reply file, at the end of the result. */
  lemma {:induction false} ResponseFilesAppend(entries: seq<Option<DirEntry>>, x: Option<DirEntry>)
    ensures ResponseFiles(entries + [x])
         == ResponseFiles(entries) + (if x.Some? && StartsWith(x.value.name, ResponsePrefix) then [x.value] else [])
  {
    if entries != [] {
      assert (entries + [x])[1..] == entries[1..] + [x];
      ResponseFilesAppend(entries[1..], x);
    }
  }

  /** The reply files the poll looks at on iteration `i`: those of that iteration's listing, or,
      when listing the directory failed, those of the last listing that worked. */
  function FilesAt(scan: nat -> Option<seq<Option<DirEntry>>>, i: nat): seq<DirEntry>
    decreases i
  {
    match scan(i)
    case Some(entries) => ResponseFiles(entries)
    case None => if i == 0 then [] else FilesAt(scan, i - 1)
  }

  /** The files looked at are those of the latest listing that worked, or none if none did. */
  lemma {:induction false} FilesAtLatestListing(scan: nat -> Option<seq<Option<DirEntry>>>, i: nat)
    ensures (forall j :: 0 <= j <= i ==> scan(j).None?) ==> FilesAt(scan, i) == []
    ensures forall j :: 0 <= j <= i && scan(j).Some? && (forall k :: j < k <= i ==> scan(k).None?) ==>
      FilesAt(scan, i) == ResponseFiles(scan(j).value)
    decreases i
  {
    if i > 0 {
      FilesAtLatestListing(scan, i - 1);
    }
  }

  /** File `f` holds a reply on iteration `i`: it exists, reads, and is not blank. */
  predicate HasReply(content: (nat, string) -> Option<string>, i: nat, f: DirEntry) {
    content(i, f.path).Some? && !Blank(content(i, f.path).value)
  }

  /** The first of `files` that holds a reply on iteration `i`. */
  function FirstReply(files: seq<DirEntry>, content: (nat, string) -> Option<string>, i: nat): (r: Option<nat>)
    ensures r.Some? ==> r.value < |files| && HasReply(content, i, files[r.value])
    ensures r.Some? ==> forall k :: 0 <= k < r.value ==> !HasReply(content, i, files[k])
    ensures r.None? ==> forall k :: 0 <= k < |files| ==> !HasReply(content, i, files[k])
  {
    if files == [] then None
    else if HasReply(content, i, files[0]) then Some(0)
    else match FirstReply(files[1..], content, i)
      case None => None
      case Some(k) => Some(k + 1)
  }

  /** The reply file found on iteration `i`, if any. */
  function ReplyAt(scan: nat -> Option<seq<Option<DirEntry>>>, content: (nat, string) -> Option<string>, i: nat): Option<DirEntry> {
    var files := FilesAt(scan, i);
    match FirstReply(files, content, i)
    case None => None
    case Some(k) => Some(files[k])
  }

  /** The progress values logged after `n` one-second waits: i + 1 for each iteration i with
      i % 30 == 29. */
  function ProgressMarks(n: nat): seq<nat> {
    if n == 0 then [] else ProgressMarks(n - 1) + (if (n - 1) % 30 == 29 then [n] else [])
  }

  /** A progress line is logged every thirty seconds: after `n` waits, at 30, 60, … seconds. */
  lemma {:induction false} ProgressEveryThirtySeconds(n: nat)
    ensures |ProgressMarks(n)| == n / 30
    ensures forall k :: 0 <= k < |ProgressMarks(n)| ==> ProgressMarks(n)[k] == 30 * (k + 1)
  {
    if n > 0 {
      ProgressEveryThirtySeconds(n - 1);
      if (n - 1) % 30 == 29 {
        assert n / 30 == (n - 1) / 30 + 1;
      } else {
        assert n / 30 == (n - 1) / 30;
      }
    }
  }

  /** The loop over the reply files of one iteration: the index of the first with a reply. */
  method CheckResponseFiles(files: seq<DirEntry>, content: (nat, string) -> Option<string>, i: nat)
    returns (found: Option<nat>)
    ensures found == FirstReply(files, content, i)
  {
    var k := 0;
    while k < |files|
      invariant k <= |files|
      invariant forall j :: 0 <= j < k ==> !HasReply(content, i, files[j])
    {
      var text := content(i, files[k].path);
      if text.Some? {
        BlankIffTrimmedEmpty(text.value);
        if Trim(text.value) != "" {
          return Some(k);
        }
      }
      k := k + 1;
    }
    return None;
  }

  /** `wait_for_terminal_result`: for at most `timeout` iterations, list the temporary directory
      (`scan`), keep the reply files, and take the first that holds a non-blank reply (`content`
      gives what reading a path yields on an iteration, `None` for a missing or unreadable file);
      wait one second between iterations. `removed` lists the files deleted, `waited` the
      seconds slept, `progress` the values logged. */
  method WaitForTerminalResult(scriptPath: string, timeout: Settings.U32, scan: nat -> Option<seq<Option<DirEntry>>>,
                               content: (nat, string) -> Option<string>)
    returns (r: Result<string, McpError>, removed: seq<string>, waited: nat, progress: seq<nat>)
    ensures r.Ok? <==> exists i :: 0 <= i < timeout && ReplyAt(scan, content, i).Some?
    ensures forall j :: 0 <= j < waited ==> ReplyAt(scan, content, j).None?
    ensures r.Ok? ==>
      waited < timeout && ReplyAt(scan, content, waited).Some?
      && r.value == Trim(content(waited, ReplyAt(scan, content, waited).value.path).value)
      && removed == [scriptPath, ReplyAt(scan, content, waited).value.path]
    ensures r.Err? ==>
      waited == timeout && removed == [scriptPath]
      && r.error == InternalError("终端交互超时（" + NatToString(timeout) + "秒），未收到用户响应")
    ensures progress == ProgressMarks(waited)
  {
    var files: seq<DirEntry> := [];
    progress := [];
    waited := 0;
    var i := 0;
    while i < timeout
      invariant i <= timeout && waited == i
      invariant i > 0 ==> files == FilesAt(scan, i - 1)
      invariant i == 0 ==> files == []
      invariant forall j :: 0 <= j < i ==> ReplyAt(scan, content, j).None?
      invariant progress == ProgressMarks(i)
    {
      var listing := scan(i);
      if listing.Some? {
        files := ResponseFiles(listing.value);
      }
      assert files == FilesAt(scan, i);
      var found := CheckResponseFiles(files, content, i);
      if found.Some? {
        var path := files[found.value].path;
        assert ReplyAt(scan, content, i) == Some(files[found.value]);
        removed := [scriptPath, path];
        r := Ok(Trim(content(i, path).value));
        return;
      }
      waited := waited + 1;
      if i % 30 == 29 {
        progress := progress + [i + 1];
      }
      i := i + 1;
    }
    removed := [scriptPath];
    r := Err(InternalErrorError("终端交互超时（" + NatToString(timeout) + "秒），未收到用户响应", None));
  }

  // ---------------------------------------------------------------------------------------
  // The interaction script

  /** One option line of the script's menu (1-based). */
  function OptionLine(options: seq<string>, i: nat): string
    requires i < |options|
  {
    "    " + NatToString(i + 1) + ". " + options[i]
  }

  /** One `case` arm of the script (1-based). */
  function CaseArm(options: seq<string>, i: nat): string
    requires i < |options|
  {
    "        " + NatToString(i + 1) + ") selected_option=\"" + options[i] + "\" ;;"
  }

  function OptionLines(options: seq<string>): (r: seq<string>)
    ensures |r| == |options| && forall i :: 0 <= i < |options| ==> r[i] == OptionLine(options, i)
  {
    seq(|options|, i requires 0 <= i < |options| => OptionLine(options, i))
  }

  function CaseArms(options: seq<string>): (r: seq<string>)
    ensures |r| == |options| && forall i :: 0 <= i < |options| ==> r[i] == CaseArm(options, i)
  {
    seq(|options|, i requires 0 <= i < |options| => CaseArm(options, i))
  }

  /** `format_options_for_script`. */
  function FormatOptionsForScript(options: seq<string>): string {
    Join(OptionLines(options), "\n")
  }

  /** `generate_case_statements`. */
  function GenerateCaseStatements(options: seq<string>): string {
    Join(CaseArms(options), "\n")
  }

  /** The decimal text of a number holds no line break. */
  lemma NatToStringNoBreak(n: nat)
    ensures '\n' !in NatToString(n)
    decreases n
  {
    if n >= 10 {
      NatToStringNoBreak(n / 10);
    }
  }

  /** When no option holds a line break, the script shows one menu line and one `case` arm per
      option, in order, numbered from 1. */
  lemma {:induction false} ScriptLinesPerOption(options: seq<string>)
    requires options != []
    requires forall k :: 0 <= k < |options| ==> '\n' !in options[k]
    ensures Split(FormatOptionsForScript(options), '\n') == OptionLines(options)
    ensures Split(GenerateCaseStatements(options), '\n') == CaseArms(options)
    ensures forall i :: 0 <= i < |options| ==>
      StartsWith(OptionLines(options)[i], "    " + NatToString(i + 1) + ". ")
      && EndsWith(OptionLines(options)[i], options[i])
  {
    forall i | 0 <= i < |options|
      ensures '\n' !in OptionLines(options)[i] && '\n' !in CaseArms(options)[i]
    {
      NatToStringNoBreak(i + 1);
    }
    SplitJoin(OptionLines(options), '\n');
    SplitJoin(CaseArms(options), '\n');
    forall i | 0 <= i < |options|
      ensures StartsWith(OptionLines(options)[i], "    " + NatToString(i + 1) + ". ")
      ensures EndsWith(OptionLines(options)[i], options[i])
    {
      var p := "    " + NatToString(i + 1) + ". ";
      assert OptionLines(options)[i] == p + options[i];
      assert (p + options[i])[|p|..] == options[i];
    }
  }

  // ---------------------------------------------------------------------------------------
  // Plain-text Markdown

  /** Where the loop finds its next pair: the first delimiter, and the first one after it. */
  function PairAt(s: string, d: string): (r: Option<(nat, nat)>)
    requires |d| > 0
    ensures r.Some? ==> r.value.0 + |d| <= r.value.1 && r.value.1 + |d| <= |s|
    ensures r.None? <==> Find(s, d).None? || Find(s[Find(s, d).value + |d|..], d).None?
  {
    match Find(s, d)
    case None => None
    case Some(start) =>
      match Find(s[start + |d|..], d)
      case None => None
      case Some(rel) => Some((start, start + |d| + rel))
  }

  /** The text with the delimiters at `start` and `end` taken out. */
  function RemovePair(s: string, d: string, start: nat, end: nat): (r: string)
    requires start + |d| <= end && end + |d| <= |s|
    ensures |r| == |s| - 2 * |d|
  {
    s[..start] + s[start + |d|..end] + s[end + |d|..]
  }

  /** Removes matched pairs of the delimiter `d`, keeping the text between them; after each
      removal the search starts again from the front. */
  function StripPairs(s: string, d: string): string
    requires |d| > 0
    decreases |s|
  {
    match PairAt(s, d)
    case None => s
    case Some(p) => StripPairs(RemovePair(s, d, p.0, p.1), d)
  }

  /** Stripping never lengthens the text, and a text holding a pair loses at least the two
      delimiters of it. */
  lemma {:induction false} StripPairsLength(s: string, d: string)
    requires |d| > 0
    ensures |StripPairs(s, d)| <= |s|
    ensures PairAt(s, d).Some? ==> |StripPairs(s, d)| <= |s| - 2 * |d|
    decreases |s|
  {
    if PairAt(s, d).Some? {
      var next := StripStep(s, d);
      StripPairsLength(next, d);
    }
  }

  /** One removal: the text it leaves, whose stripping is the stripping of `s`. */
  lemma StripStep(s: string, d: string) returns (next: string)
    requires |d| > 0 && PairAt(s, d).Some?
    ensures |next| == |s| - 2 * |d|
    ensures StripPairs(s, d) == StripPairs(next, d)
  {
    var p := PairAt(s, d).value;
    next := RemovePair(s, d, p.0, p.1);
  }

  /** A text without the delimiter is left as it is. */
  lemma StripPairsAbsent(s: string, d: string)
    requires |d| > 0 && !Contains(s, d)
    ensures StripPairs(s, d) == s
  {
  }

  /** Stripping leaves no pair behind: at most one delimiter is left, with no match after it. */
  lemma {:induction false} StripPairsLeavesNoPair(s: string, d: string)
    requires |d| > 0
    ensures PairAt(StripPairs(s, d), d).None?
    decreases |s|
  {
    match PairAt(s, d)
    case None =>
    case Some(p) =>
      StripPairsLeavesNoPair(RemovePair(s, d, p.0, p.1), d);
  }


  /** `render_simple_markdown_plain`'s loop for one delimiter. */
  method RemovePairs(text: string, d: string) returns (result: string)
    requires |d| > 0
    ensures result == StripPairs(text, d)
  {
    result := text;
    while true
      invariant StripPairs(result, d) == StripPairs(text, d)
      decreases |result|
    {
      var pair := PairAt(result, d);
      if pair.None? {
        return;
      }
      result := RemovePair(result, d, pair.value.0, pair.value.1);
    }
  }

  /** `render_simple_markdown_plain`: bold markers first, then code markers. */
  method RenderSimpleMarkdownPlain(text: string) returns (result: string)
    ensures result == PlainMarkdown(text)
    ensures |result| <= |text|
    ensures !Contains(text, "**") && !Contains(text, "`") ==> result == text
  {
    var unbolded := RemovePairs(text, "**");
    result := RemovePairs(unbolded, "`");
    PlainMarkdownShorter(text);
  }

  /** The text with bold and then code marker pairs removed. */
  function PlainMarkdown(text: string): string {
    StripPairs(StripPairs(text, "**"), "`")
  }

  lemma PlainMarkdownShorter(text: string)
    ensures |PlainMarkdown(text)| <= |text|
    ensures !Contains(text, "**") && !Contains(text, "`") ==> PlainMarkdown(text) == text
  {
    StripPairsLength(text, "**");
    StripPairsLength(StripPairs(text, "**"), "`");
    if !Contains(text, "**") && !Contains(text, "`") {
      StripPairsAbsent(text, "**");
      StripPairsAbsent(text, "`");
    }
  }

  /** A bold phrase loses its markers. */
  lemma BoldPhrasePlain()
    ensures PlainMarkdown("a **b** c") == "a b c"
  {
    var s := "a **b** c";
    assert s[0..2][0] == 'a' && s[1..3][0] == ' ' && s[2..4] == "**";
    assert Find(s, "**") == Some(2);
    var tail := s[4..];
    assert tail == "b** c";
    assert tail[0..2][0] == 'b' && tail[1..3] == "**";
    assert FindFrom(tail, "**", 1) == Some(1);
    assert Find(tail, "**") == Some(1);
    assert PairAt(s, "**") == Some((2, 5));
    assert RemovePair(s, "**", 2, 5) == "a b c";
    FindAbsent("a b c", "**");
    StripPairsAbsent("a b c", "**");
    FindAbsent("a b c", "`");
    StripPairsAbsent("a b c", "`");
  }
}
