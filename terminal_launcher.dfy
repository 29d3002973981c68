/**
  The cross-platform terminal launcher: which terminal programs a host offers, which one is
  chosen, the command line that opens it running a given command, and the retrying spawn.
  The host (its operating system, the programs it can run and what they print, its files
  and environment) and the spawned processes are inputs.
*/
module TerminalLauncher {
  import opened Results
  import opened Strings

  /** The terminal programs the launcher knows, and a custom one by command name. */
  datatype TerminalType =
    | TerminalApp
    | ITerm2
    | Alacritty
    | GnomeTerminal
    | Konsole
    | Xterm
    | Cmd
    | PowerShell
    | WindowsTerminal
    | Custom(command: string)

  /** The target operating system the program was built for. */
  datatype Os = MacOs | Linux | Windows | FreeBsd | OtherOs

  /** `TerminalLauncherConfig`. */
  datatype LauncherConfig = LauncherConfig(preferredTerminal: Option<TerminalType>, fallbackToCli: bool,
                                           workingDirectory: Option<string>, windowTitle: Option<string>)

  /** `TerminalLauncherConfig::default`: no preference, fall back to the CLI, no working
      directory, and the interaction window title. */
  const DefaultLauncherConfig: LauncherConfig := LauncherConfig(None, true, None, Some("寸止 CLI 交互"))

  /** What running a program to completion reported. */
  datatype ProbeOutput = ProbeOutput(success: bool, stdout: string, stderr: string)

  /** The host: its system, `run(program, args)` (`None` when the program cannot be started),
      which paths exist, and its environment variables. */
  datatype Host = Host(os: Os, run: (string, seq<string>) -> Option<ProbeOutput>,
                       pathExists: string -> bool, env: string -> Option<string>)

  // ---------------------------------------------------------------------------------------
  // Whether a command exists

  function WhichProgram(os: Os): string {
    if os == Windows then "where" else "which"
  }

  predicate Succeeds(o: Option<ProbeOutput>) {
    o.Some? && o.value.success
  }

  /** `which`/`where` succeeded and printed something. */
  predicate WhichFinds(host: Host, command: string) {
    var o := host.run(WhichProgram(host.os), [command]);
    o.Some? && o.value.success && o.value.stdout != []
  }

  /** The commands checked in their own way, and the answer for each. */
  function SpecialCase(host: Host, command: string): Option<bool> {
    if command == "cmd" && host.os == Windows then Some(true)
    else if command == "osascript" && host.os == MacOs then Some(Succeeds(host.run("osascript", ["-e", "return 1"])))
    else if command == "wt" && host.os == Windows then Some(Succeeds(host.run("wt", ["--help"])))
    else None
  }

  /** The argument lists tried in turn to see whether a command runs. */
  const VersionChecks: seq<seq<string>> := [["--version"], ["-v"], ["--help"], ["-h"]]

  predicate AnyVersionCheck(host: Host, command: string) {
    exists k :: 0 <= k < |VersionChecks| && Succeeds(host.run(command, VersionChecks[k]))
  }

  /** The last resort: running the command bare failed, but not with a "not found" kind of
      message. A bare run that succeeds does not count. */
  predicate BareRunLooksInstalled(o: Option<ProbeOutput>) {
    o.Some? && !o.value.success
    && var e := Lower(o.value.stderr);
       !Contains(e, "not found") && !Contains(e, "not recognized") && !Contains(e, "no such file")
  }

  /** Whether `test_command_exists` says yes: `which`/`where` finds it; otherwise the special
      case decides when there is one; otherwise a version or help run succeeds, or the bare run
      fails in a way that shows the command is there. */
  predicate CommandExists(host: Host, command: string) {
    WhichFinds(host, command)
    || (SpecialCase(host, command).Some? && SpecialCase(host, command).value)
    || (SpecialCase(host, command).None?
        && (AnyVersionCheck(host, command) || BareRunLooksInstalled(host.run(command, []))))
  }

  /** `test_command_exists`: the probes in the original's order, stopping at the first answer. */
  method TestCommandExists(host: Host, command: string) returns (b: bool)
    ensures b == CommandExists(host, command)
  {
    var which := host.run(WhichProgram(host.os), [command]);
    if which.Some? && which.value.success && which.value.stdout != [] {
      return true;
    }
    if command == "cmd" && host.os == Windows {
      return true;
    } else if command == "osascript" && host.os == MacOs {
      return Succeeds(host.run("osascript", ["-e", "return 1"]));
    } else if command == "wt" && host.os == Windows {
      return Succeeds(host.run("wt", ["--help"]));
    }
    var i := 0;
    while i < |VersionChecks|
      invariant 0 <= i <= |VersionChecks|
      invariant forall k :: 0 <= k < i ==> !Succeeds(host.run(command, VersionChecks[k]))
    {
      if Succeeds(host.run(command, VersionChecks[i])) {
        return true;
      }
      i := i + 1;
    }
    b := BareRunLooksInstalled(host.run(command, []));
  }

  /** A command that answers a version or help request counts as present even when `which`
      does not find it, unless a special case has decided otherwise. */
  lemma VersionRunSuffices(host: Host, command: string, k: nat)
    requires SpecialCase(host, command).None?
    requires k < |VersionChecks| && Succeeds(host.run(command, VersionChecks[k]))
    ensures CommandExists(host, command)
  {
  }

  /** A command that fails when run bare still counts as present, unless its lower-cased error
      output says it was not found, not recognised, or that there is no such file. */
  lemma BareRunFailureCounts(host: Host, command: string)
    requires SpecialCase(host, command).None?
    requires var o := host.run(command, []);
      o.Some? && !o.value.success
      && !Contains(Lower(o.value.stderr), "not found") && !Contains(Lower(o.value.stderr), "not recognized")
      && !Contains(Lower(o.value.stderr), "no such file")
    ensures CommandExists(host, command)
  {
  }

  /** A command that is found by no probe and whose bare run succeeds is reported missing:
      only a failing bare run counts as evidence. */
  lemma BareRunSuccessIsNotEvidence(host: Host, command: string)
    requires !WhichFinds(host, command) && SpecialCase(host, command).None?
    requires forall k :: 0 <= k < |VersionChecks| ==> !Succeeds(host.run(command, VersionChecks[k]))
    requires Succeeds(host.run(command, []))
    ensures !CommandExists(host, command)
  {
  }

  // ---------------------------------------------------------------------------------------
  // Which terminals are available

  function EnvOrEmpty(host: Host, name: string): string {
    host.env(name).GetOr("")
  }

  /** `is_terminal_available`. */
  predicate TerminalAvailable(host: Host, t: TerminalType) {
    match t
    case TerminalApp =>
      host.os == MacOs && CommandExists(host, "osascript")
      && (host.pathExists("/Applications/Utilities/Terminal.app")
          || host.pathExists("/System/Applications/Utilities/Terminal.app"))
    case ITerm2 =>
      host.os == MacOs && CommandExists(host, "osascript")
      && (host.pathExists("/Applications/iTerm.app") || host.pathExists("/Applications/iTerm2.app"))
    case Alacritty => CommandExists(host, "alacritty")
    case GnomeTerminal =>
      host.os == Linux && CommandExists(host, "gnome-terminal")
      && (Contains(EnvOrEmpty(host, "XDG_CURRENT_DESKTOP"), "GNOME") || Contains(EnvOrEmpty(host, "DESKTOP_SESSION"), "gnome"))
    case Konsole =>
      host.os == Linux && CommandExists(host, "konsole")
      && (Contains(EnvOrEmpty(host, "XDG_CURRENT_DESKTOP"), "KDE") || Contains(EnvOrEmpty(host, "DESKTOP_SESSION"), "kde"))
    case Xterm =>
      (host.os == Linux || host.os == FreeBsd) && CommandExists(host, "xterm") && host.env("DISPLAY").Some?
    case Cmd => host.os == Windows
    case PowerShell =>
      if host.os == Windows then CommandExists(host, "powershell") || CommandExists(host, "pwsh")
      else CommandExists(host, "pwsh")
    case WindowsTerminal => host.os == Windows && CommandExists(host, "wt")
    case Custom(c) => CommandExists(host, c)
  }

  /** `is_terminal_available`, running the probes it needs. */
  method IsTerminalAvailable(host: Host, t: TerminalType) returns (b: bool)
    ensures b == TerminalAvailable(host, t)
  {
    match t
    case TerminalApp =>
      if host.os != MacOs {
        return false;
      }
      var osascript := TestCommandExists(host, "osascript");
      b := osascript && (host.pathExists("/Applications/Utilities/Terminal.app")
                         || host.pathExists("/System/Applications/Utilities/Terminal.app"));
    case ITerm2 =>
      if host.os != MacOs {
        return false;
      }
      var osascript := TestCommandExists(host, "osascript");
      b := osascript && (host.pathExists("/Applications/iTerm.app") || host.pathExists("/Applications/iTerm2.app"));
    case Alacritty =>
      b := TestCommandExists(host, "alacritty");
    case GnomeTerminal =>
      if host.os != Linux {
        return false;
      }
      var found := TestCommandExists(host, "gnome-terminal");
      b := found && (Contains(EnvOrEmpty(host, "XDG_CURRENT_DESKTOP"), "GNOME")
                     || Contains(EnvOrEmpty(host, "DESKTOP_SESSION"), "gnome"));
    case Konsole =>
      if host.os != Linux {
        return false;
      }
      var found := TestCommandExists(host, "konsole");
      b := found && (Contains(EnvOrEmpty(host, "XDG_CURRENT_DESKTOP"), "KDE")
                     || Contains(EnvOrEmpty(host, "DESKTOP_SESSION"), "kde"));
    case Xterm =>
      if host.os != Linux && host.os != FreeBsd {
        return false;
      }
      var found := TestCommandExists(host, "xterm");
      b := found && host.env("DISPLAY").Some?;
    case Cmd =>
      b := host.os == Windows;
    case PowerShell =>
      if host.os == Windows {
        b := TestCommandExists(host, "powershell");
        if !b {
          b := TestCommandExists(host, "pwsh");
        }
      } else {
        b := TestCommandExists(host, "pwsh");
      }
    case WindowsTerminal =>
      if host.os != Windows {
        return false;
      }
      b := TestCommandExists(host, "wt");
    case Custom(c) =>
      b := TestCommandExists(host, c);
  }

  /** The platform-specific terminals are only ever available on their own platform, and the
      Windows command prompt always is there. */
  lemma AvailabilityFollowsPlatform(host: Host)
    ensures TerminalAvailable(host, Cmd) <==> host.os == Windows
    ensures TerminalAvailable(host, TerminalApp) || TerminalAvailable(host, ITerm2) ==> host.os == MacOs
    ensures TerminalAvailable(host, GnomeTerminal) || TerminalAvailable(host, Konsole) ==> host.os == Linux
    ensures TerminalAvailable(host, Xterm) ==> host.os == Linux || host.os == FreeBsd
    ensures TerminalAvailable(host, WindowsTerminal) ==> host.os == Windows
  {
  }

  // ---------------------------------------------------------------------------------------
  // Choosing a terminal

  /** `get_platform_terminal_candidates`, most preferred first. */
  function Candidates(os: Os): (r: seq<TerminalType>)
    ensures |r| >= 1 && Distinct(r)
    ensures forall i :: 0 <= i < |r| ==> !r[i].Custom?
  {
    match os
    case MacOs => [ITerm2, TerminalApp, Alacritty]
    case Linux => [GnomeTerminal, Konsole, Alacritty, Xterm]
    case Windows => [WindowsTerminal, PowerShell, Cmd]
    case _ => [Xterm]
  }

  /** The terminal's `Debug` text. */
  function TerminalDebug(t: TerminalType): string {
    match t
    case TerminalApp => "TerminalApp"
    case ITerm2 => "ITerm2"
    case Alacritty => "Alacritty"
    case GnomeTerminal => "GnomeTerminal"
    case Konsole => "Konsole"
    case Xterm => "Xterm"
    case Cmd => "Cmd"
    case PowerShell => "PowerShell"
    case WindowsTerminal => "WindowsTerminal"
    case Custom(c) => "Custom(\"" + c + "\")"
  }

  function DebugNames(ts: seq<TerminalType>): (r: seq<string>)
    ensures |r| == |ts| && forall i :: 0 <= i < |ts| ==> r[i] == TerminalDebug(ts[i])
  {
    seq(|ts|, i requires 0 <= i < |ts| => TerminalDebug(ts[i]))
  }

  /** A list's `Debug` text: the names in brackets, separated by ", ". */
  function ListDebug(ts: seq<TerminalType>): string {
    "[" + Join(DebugNames(ts), ", ") + "]"
  }

  /** The index of the first available terminal in `cs`. */
  function FirstAvailable(host: Host, cs: seq<TerminalType>): (r: Option<nat>)
    ensures r.Some? ==> r.value < |cs| && TerminalAvailable(host, cs[r.value])
                        && forall k :: 0 <= k < r.value ==> !TerminalAvailable(host, cs[k])
    ensures r.None? ==> forall k :: 0 <= k < |cs| ==> !TerminalAvailable(host, cs[k])
  {
    if cs == [] then None
    else if TerminalAvailable(host, cs[0]) then Some(0)
    else match FirstAvailable(host, cs[1..])
      case None => None
      case Some(i) => Some(i + 1)
  }

  /** The choice `detect_best_terminal` makes. */
  function BestTerminal(host: Host, preferred: Option<TerminalType>): Result<TerminalType, string> {
    if preferred.Some? && TerminalAvailable(host, preferred.value) then Ok(preferred.value)
    else match FirstAvailable(host, Candidates(host.os))
      case Some(i) => Ok(Candidates(host.os)[i])
      case None => Err("未找到可用的终端程序。候选列表: " + ListDebug(Candidates(host.os)))
  }

  /** The chosen terminal is available; it is the preferred one whenever that is available,
      and otherwise the first available platform candidate. There is no choice exactly when
      neither the preferred terminal nor any candidate is available. */
  lemma BestTerminalMeaning(host: Host, preferred: Option<TerminalType>)
    ensures var r := BestTerminal(host, preferred);
      (r.Ok? ==> TerminalAvailable(host, r.value))
      && (preferred.Some? && TerminalAvailable(host, preferred.value) ==> r == Ok(preferred.value))
      && (r.Ok? && r != Ok(preferred.GetOr(r.value)) ==> r.value in Candidates(host.os))
      && (r.Ok? && (preferred.None? || !TerminalAvailable(host, preferred.value)) ==>
            exists i :: 0 <= i < |Candidates(host.os)| && r.value == Candidates(host.os)[i]
                        && forall k :: 0 <= k < i ==> !TerminalAvailable(host, Candidates(host.os)[k]))
      && (r.Err? <==> (preferred.None? || !TerminalAvailable(host, preferred.value))
                      && forall k :: 0 <= k < |Candidates(host.os)| ==> !TerminalAvailable(host, Candidates(host.os)[k]))
  {
    var cs := Candidates(host.os);
    if !(preferred.Some? && TerminalAvailable(host, preferred.value)) {
      match FirstAvailable(host, cs)
      case Some(i) =>
        assert BestTerminal(host, preferred) == Ok(cs[i]);
      case None =>
    }
  }

  /** `detect_best_terminal`: the preferred terminal if it is available, else the first
      available platform candidate, else an error listing the candidates. */
  method DetectBestTerminal(host: Host, config: LauncherConfig) returns (r: Result<TerminalType, string>)
    ensures r == BestTerminal(host, config.preferredTerminal)
  {
    if config.preferredTerminal.Some? {
      var ok := IsTerminalAvailable(host, config.preferredTerminal.value);
      if ok {
        return Ok(config.preferredTerminal.value);
      }
    }
    var candidates := Candidates(host.os);
    for i := 0 to |candidates|
      invariant forall k :: 0 <= k < i ==> !TerminalAvailable(host, candidates[k])
    {
      var ok := IsTerminalAvailable(host, candidates[i]);
      if ok {
        return Ok(candidates[i]);
      }
    }
    r := Err("未找到可用的终端程序。候选列表: " + ListDebug(candidates));
  }

  /** `detect_system_terminal`: detection with the default configuration. */
  method DetectSystemTerminal(host: Host) returns (r: Result<TerminalType, string>)
    ensures r == BestTerminal(host, None)
  {
    r := DetectBestTerminal(host, DefaultLauncherConfig);
  }

  // ---------------------------------------------------------------------------------------
  // Escaping for AppleScript and PowerShell string literals

  /** `escape_applescript`: backslash, double quote, line feed and carriage return are
      replaced in that order. */
  function EscapeAppleScript(text: string): string {
    ReplaceChar(ReplaceChar(ReplaceChar(ReplaceChar(text, '\\', "\\\\"), '"', "\\\""), '\n', "\\n"), '\r', "\\r")
  }

  /** The AppleScript escape of one character. */
  function AppleScriptCharEscape(c: char): string {
    if c == '\\' then "\\\\"
    else if c == '"' then "\\\""
    else if c == '\n' then "\\n"
    else if c == '\r' then "\\r"
    else [c]
  }

  lemma EscapeAppleScriptAppend(a: string, b: string)
    ensures EscapeAppleScript(a + b) == EscapeAppleScript(a) + EscapeAppleScript(b)
  {
    ReplaceCharAppend(a, b, '\\', "\\\\");
    var a1, b1 := ReplaceChar(a, '\\', "\\\\"), ReplaceChar(b, '\\', "\\\\");
    ReplaceCharAppend(a1, b1, '"', "\\\"");
    var a2, b2 := ReplaceChar(a1, '"', "\\\""), ReplaceChar(b1, '"', "\\\"");
    ReplaceCharAppend(a2, b2, '\n', "\\n");
    var a3, b3 := ReplaceChar(a2, '\n', "\\n"), ReplaceChar(b2, '\n', "\\n");
    ReplaceCharAppend(a3, b3, '\r', "\\r");
  }

  lemma EscapeAppleScriptChar(c: char)
    ensures EscapeAppleScript([c]) == AppleScriptCharEscape(c)
  {
    ReplaceCharSingle(c, '\\', "\\\\");
    var s1 := ReplaceChar([c], '\\', "\\\\");
    if c != '\\' {
      ReplaceCharSingle(c, '"', "\\\"");
    } else {
      ReplaceCharAbsent(s1, '"', "\\\"");
    }
    var s2 := ReplaceChar(s1, '"', "\\\"");
    if c != '\\' && c != '"' {
      ReplaceCharSingle(c, '\n', "\\n");
    } else {
      ReplaceCharAbsent(s2, '\n', "\\n");
    }
    var s3 := ReplaceChar(s2, '\n', "\\n");
    if c != '\\' && c != '"' && c != '\n' {
      ReplaceCharSingle(c, '\r', "\\r");
    } else {
      ReplaceCharAbsent(s3, '\r', "\\r");
    }
  }

  /** The escaped text is the escapes of its characters, one after the other. */
  lemma {:induction false} EscapeAppleScriptCons(s: string)
    requires s != []
    ensures EscapeAppleScript(s) == AppleScriptCharEscape(s[0]) + EscapeAppleScript(s[1..])
  {
    assert s == [s[0]] + s[1..];
    EscapeAppleScriptAppend([s[0]], s[1..]);
    EscapeAppleScriptChar(s[0]);
  }

  /** The escaped text holds no raw line feed or carriage return. */
  lemma {:induction false} EscapeAppleScriptNoLineBreaks(s: string)
    ensures '\n' !in EscapeAppleScript(s) && '\r' !in EscapeAppleScript(s)
  {
    if s != [] {
      EscapeAppleScriptCons(s);
      EscapeAppleScriptNoLineBreaks(s[1..]);
    }
  }

  function Prepend(c: char, o: Option<string>): Option<string> {
    if o.None? then None else Some([c] + o.value)
  }

  /** The character a backslash escape inside an AppleScript string literal stands for. */
  function AppleScriptUnescape(c: char): Option<char> {
    if c == '\\' then Some('\\')
    else if c == '"' then Some('"')
    else if c == 'n' then Some('\n')
    else if c == 'r' then Some('\r')
    else if c == 't' then Some('\t')
    else None
  }

  /** What an AppleScript reads from the body of a double-quoted string literal; `None` when
      the body holds an unescaped double quote (the literal would end there) or a bad escape. */
  function DecodeAppleScriptLiteral(s: string): Option<string>
    decreases |s|
  {
    if s == [] then Some([])
    else if s[0] == '"' then None
    else if s[0] == '\\' then
      if |s| < 2 then None
      else match AppleScriptUnescape(s[1])
        case None => None
        case Some(c) => Prepend(c, DecodeAppleScriptLiteral(s[2..]))
    else Prepend(s[0], DecodeAppleScriptLiteral(s[1..]))
  }

  lemma DecodeAppleScriptEscaped(c: char, rest: string)
    ensures DecodeAppleScriptLiteral(AppleScriptCharEscape(c) + rest) == Prepend(c, DecodeAppleScriptLiteral(rest))
  {
    var s := AppleScriptCharEscape(c) + rest;
    if c == '\\' || c == '"' || c == '\n' || c == '\r' {
      assert s[0] == '\\' && s[2..] == rest;
    } else {
      assert s[0] == c && s[1..] == rest;
    }
  }

  /** The escaped text, put between double quotes, reads back as the original text. */
  lemma {:induction false} EscapeAppleScriptRoundTrip(s: string)
    ensures DecodeAppleScriptLiteral(EscapeAppleScript(s)) == Some(s)
  {
    if s == [] {
    } else {
      EscapeAppleScriptCons(s);
      DecodeAppleScriptEscaped(s[0], EscapeAppleScript(s[1..]));
      EscapeAppleScriptRoundTrip(s[1..]);
      assert [s[0]] + s[1..] == s;
    }
  }

  /** `escape_powershell` as written: double quote, single quote, backtick and dollar are
      replaced in that order, so the backticks the first two replacements add are doubled by
      the third. */
  function EscapePowershellAsWritten(text: string): string {
    ReplaceChar(ReplaceChar(ReplaceChar(ReplaceChar(text, '"', "`\""), '\'', "`'"), '`', "``"), '$', "`$")
  }

  /** `escape_powershell` as evidently intended: each of backtick, double quote, single quote
      and dollar gets one backtick in front (backticks are escaped first). */
  function EscapePowershell(text: string): string {
    ReplaceChar(ReplaceChar(ReplaceChar(ReplaceChar(text, '`', "``"), '"', "`\""), '\'', "`'"), '$', "`$")
  }

  /** The intended PowerShell escape of one character. */
  function PowershellCharEscape(c: char): string {
    if c == '`' || c == '"' || c == '\'' || c == '$' then ['`', c] else [c]
  }

  lemma EscapePowershellAppend(a: string, b: string)
    ensures EscapePowershell(a + b) == EscapePowershell(a) + EscapePowershell(b)
  {
    ReplaceCharAppend(a, b, '`', "``");
    var a1, b1 := ReplaceChar(a, '`', "``"), ReplaceChar(b, '`', "``");
    ReplaceCharAppend(a1, b1, '"', "`\"");
    var a2, b2 := ReplaceChar(a1, '"', "`\""), ReplaceChar(b1, '"', "`\"");
    ReplaceCharAppend(a2, b2, '\'', "`'");
    var a3, b3 := ReplaceChar(a2, '\'', "`'"), ReplaceChar(b2, '\'', "`'");
    ReplaceCharAppend(a3, b3, '$', "`$");
  }

  lemma EscapePowershellChar(c: char)
    ensures EscapePowershell([c]) == PowershellCharEscape(c)
  {
    ReplaceCharSingle(c, '`', "``");
    var s1 := ReplaceChar([c], '`', "``");
    if c != '`' {
      ReplaceCharSingle(c, '"', "`\"");
    } else {
      ReplaceCharAbsent(s1, '"', "`\"");
    }
    var s2 := ReplaceChar(s1, '"', "`\"");
    if c != '`' && c != '"' {
      ReplaceCharSingle(c, '\'', "`'");
    } else {
      ReplaceCharAbsent(s2, '\'', "`'");
    }
    var s3 := ReplaceChar(s2, '\'', "`'");
    if c != '`' && c != '"' && c != '\'' {
      ReplaceCharSingle(c, '$', "`$");
    } else {
      ReplaceCharAbsent(s3, '$', "`$");
    }
  }

  lemma {:induction false} EscapePowershellCons(s: string)
    requires s != []
    ensures EscapePowershell(s) == PowershellCharEscape(s[0]) + EscapePowershell(s[1..])
  {
    assert s == [s[0]] + s[1..];
    EscapePowershellAppend([s[0]], s[1..]);
    EscapePowershellChar(s[0]);
  }

  /** What PowerShell reads from the body of a double-quoted string for the escapes above;
      `None` when the body holds an unescaped double quote (the string would end there), an
      unescaped dollar (a variable would be expanded) or another escape. */
  function DecodePowershellString(s: string): Option<string>
    decreases |s|
  {
    if s == [] then Some([])
    else if s[0] == '"' || s[0] == '$' then None
    else if s[0] == '`' then
      if |s| >= 2 && (s[1] == '`' || s[1] == '"' || s[1] == '\'' || s[1] == '$') then
        Prepend(s[1], DecodePowershellString(s[2..]))
      else None
    else Prepend(s[0], DecodePowershellString(s[1..]))
  }

  lemma DecodePowershellEscaped(c: char, rest: string)
    ensures DecodePowershellString(PowershellCharEscape(c) + rest) == Prepend(c, DecodePowershellString(rest))
  {
    var s := PowershellCharEscape(c) + rest;
    if c == '`' || c == '"' || c == '\'' || c == '$' {
      assert s[0] == '`' && s[1] == c && s[2..] == rest;
    } else {
      assert s[0] == c && s[1..] == rest;
    }
  }

  /** The intended escape, put between double quotes, reads back as the original text. */
  lemma {:induction false} EscapePowershellRoundTrip(s: string)
    ensures DecodePowershellString(EscapePowershell(s)) == Some(s)
  {
    if s != [] {
      EscapePowershellCons(s);
      DecodePowershellEscaped(s[0], EscapePowershell(s[1..]));
      EscapePowershellRoundTrip(s[1..]);
      assert [s[0]] + s[1..] == s;
    }
  }

  /** As written, a double quote comes out as two backticks and the quote: PowerShell reads an
      escaped backtick and then a double quote that closes the string. */
  lemma PowershellQuoteClosesString()
    ensures EscapePowershellAsWritten("\"") == "``\""
    ensures DecodePowershellString(EscapePowershellAsWritten("\"")) == None
    ensures DecodePowershellString(EscapePowershell("\"")) == Some("\"")
  {
    assert ReplaceChar("\"", '"', "`\"") == "`\"";
    assert ReplaceChar("`\"", '\'', "`'") == "`\"";
    assert ReplaceChar("`\"", '`', "``") == "``\"";
    assert ReplaceChar("``\"", '$', "`$") == "``\"";
    var e := "``\"";
    assert e[2..] == "\"";
    assert DecodePowershellString(e[2..]) == None;
    EscapePowershellRoundTrip("\"");
  }

  /** The as-written PowerShell escape of one character: the backtick added before a double
      or single quote is itself doubled, a backtick is doubled and a dollar gets one. */
  function PowershellCharEscapeAsWritten(c: char): string {
    if c == '"' then "``\""
    else if c == '\'' then "``'"
    else if c == '`' then "``"
    else if c == '$' then "`$"
    else [c]
  }

  lemma EscapePowershellAsWrittenAppend(a: string, b: string)
    ensures EscapePowershellAsWritten(a + b) == EscapePowershellAsWritten(a) + EscapePowershellAsWritten(b)
  {
    ReplaceCharAppend(a, b, '"', "`\"");
    var a1, b1 := ReplaceChar(a, '"', "`\""), ReplaceChar(b, '"', "`\"");
    ReplaceCharAppend(a1, b1, '\'', "`'");
    var a2, b2 := ReplaceChar(a1, '\'', "`'"), ReplaceChar(b1, '\'', "`'");
    ReplaceCharAppend(a2, b2, '`', "``");
    var a3, b3 := ReplaceChar(a2, '`', "``"), ReplaceChar(b2, '`', "``");
    ReplaceCharAppend(a3, b3, '$', "`$");
  }

  lemma EscapePowershellAsWrittenChar(c: char)
    ensures EscapePowershellAsWritten([c]) == PowershellCharEscapeAsWritten(c)
  {
    if c == '"' {
      assert ReplaceChar("\"", '"', "`\"") == "`\"";
      assert ReplaceChar("`\"", '\'', "`'") == "`\"";
      assert ReplaceChar("`\"", '`', "``") == "``\"";
      assert ReplaceChar("``\"", '$', "`$") == "``\"";
    } else if c == '\'' {
      assert ReplaceChar("'", '"', "`\"") == "'";
      assert ReplaceChar("'", '\'', "`'") == "`'";
      assert ReplaceChar("`'", '`', "``") == "``'";
      assert ReplaceChar("``'", '$', "`$") == "``'";
    } else {
      ReplaceCharSingle(c, '"', "`\"");
      ReplaceCharSingle(c, '\'', "`'");
      ReplaceCharSingle(c, '`', "``");
      if c == '`' {
        assert ReplaceChar("``", '$', "`$") == "``";
      } else {
        ReplaceCharSingle(c, '$', "`$");
      }
    }
  }

  lemma {:induction false} EscapePowershellAsWrittenCons(s: string)
    requires s != []
    ensures EscapePowershellAsWritten(s) == PowershellCharEscapeAsWritten(s[0]) + EscapePowershellAsWritten(s[1..])
  {
    assert s == [s[0]] + s[1..];
    EscapePowershellAsWrittenAppend([s[0]], s[1..]);
    EscapePowershellAsWrittenChar(s[0]);
  }

  /** What PowerShell reads from one as-written escape followed by more text: a double quote
      ends the string, a single quote reads as a backtick and the quote, and any other
      character reads as itself. */
  lemma DecodePowershellAsWrittenEscaped(c: char, rest: string)
    ensures c == '"' ==> DecodePowershellString(PowershellCharEscapeAsWritten(c) + rest) == None
    ensures c == '\'' ==> DecodePowershellString(PowershellCharEscapeAsWritten(c) + rest)
                          == Prepend('`', Prepend('\'', DecodePowershellString(rest)))
    ensures c != '"' && c != '\'' ==>
      DecodePowershellString(PowershellCharEscapeAsWritten(c) + rest) == Prepend(c, DecodePowershellString(rest))
  {
    var e := PowershellCharEscapeAsWritten(c) + rest;
    if c == '"' {
      assert e[0] == '`' && e[1] == '`' && e[2..] == "\"" + rest;
      assert DecodePowershellString(e[2..]) == None;
    } else if c == '\'' {
      assert e[0] == '`' && e[1] == '`' && e[2..] == "'" + rest;
      assert (e[2..])[0] == '\'' && (e[2..])[1..] == rest;
    } else if c == '`' || c == '$' {
      assert e[0] == '`' && e[1] == c && e[2..] == rest;
    } else {
      assert e[0] == c && e[1..] == rest;
    }
  }

  /** As written, a text holding a double quote never reads back: its string ends early. */
  lemma {:induction false} AsWrittenQuoteEndsString(s: string)
    requires '"' in s
    ensures DecodePowershellString(EscapePowershellAsWritten(s)) == None
  {
    var c, tail := s[0], s[1..];
    EscapePowershellAsWrittenCons(s);
    DecodePowershellAsWrittenEscaped(c, EscapePowershellAsWritten(tail));
    if c != '"' {
      assert '"' in tail by {
        assert s == [c] + tail;
      }
      AsWrittenQuoteEndsString(tail);
    }
  }

  /** As written, a text without a double quote reads back with a backtick before every
      single quote. */
  lemma {:induction false} AsWrittenMarksSingleQuotes(s: string)
    requires '"' !in s
    ensures DecodePowershellString(EscapePowershellAsWritten(s)) == Some(ReplaceChar(s, '\'', "`'"))
  {
    if s != [] {
      var c, tail := s[0], s[1..];
      var rest := EscapePowershellAsWritten(tail);
      EscapePowershellAsWrittenCons(s);
      assert '"' !in tail && c != '"' by {
        assert s == [c] + tail;
      }
      AsWrittenMarksSingleQuotes(tail);
      DecodePowershellAsWrittenEscaped(c, rest);
      var r := ReplaceChar(tail, '\'', "`'");
      assert ReplaceChar(s, '\'', "`'") == (if c == '\'' then "`'" else [c]) + r;
      if c == '\'' {
        assert ['`'] + (['\''] + r) == "`'" + r;
      }
    }
  }

  /** What PowerShell reads from the as-written escape of a text: nothing usable when the text
      holds a double quote (the string ends there), and otherwise the text with a backtick
      before every single quote. */
  lemma EscapePowershellAsWrittenReadsBack(s: string)
    ensures '"' in s ==> DecodePowershellString(EscapePowershellAsWritten(s)) == None
    ensures '"' !in s ==> DecodePowershellString(EscapePowershellAsWritten(s)) == Some(ReplaceChar(s, '\'', "`'"))
  {
    if '"' in s {
      AsWrittenQuoteEndsString(s);
    } else {
      AsWrittenMarksSingleQuotes(s);
    }
  }

  // ---------------------------------------------------------------------------------------
  // The command line that opens a terminal

  /** The command and its arguments separated by spaces. */
  function FullCommand(command: string, args: seq<string>): string {
    if args == [] then command else command + " " + Join(args, " ")
  }

  /** When no piece holds a space, splitting the full command at spaces gives back the command
      and its arguments. */
  lemma FullCommandSplits(command: string, args: seq<string>)
    requires ' ' !in command && forall k :: 0 <= k < |args| ==> ' ' !in args[k]
    ensures Split(FullCommand(command, args), ' ') == [command] + args
  {
    var xs := [command] + args;
    assert xs[1..] == args;
    assert Join(xs, " ") == FullCommand(command, args);
    SplitJoin(xs, ' ');
  }

  /** The window title: the configured one or "寸止 CLI". */
  function WindowTitle(config: LauncherConfig): string {
    config.windowTitle.GetOr("寸止 CLI")
  }

  /** `get_default_shell`. */
  function DefaultShell(host: Host): string {
    if host.os == Windows then "cmd" else host.env("SHELL").GetOr("/bin/bash")
  }

  const Indent20: string := "                    "
  const Indent24: string := "                        "
  const Indent28: string := "                            "

  /** The Terminal.app script up to the command's opening quote. */
  const TerminalAppHead: string :=
    "tell application \"Terminal\"\n" + Indent24 + "activate\n" + Indent24 + "do script "

  /** The Terminal.app script after the command's closing quote. */
  function TerminalAppTail(title: string): string {
    " in window 1\n" + Indent24 + "set custom title of front window to \"" + title + "\"\n" + Indent20 + "end tell"
  }

  /** The iTerm2 script up to the command's opening quote. */
  const ITermHead: string :=
    "tell application \"iTerm\"\n" + Indent24 + "activate\n" + Indent24 + "create window with default profile\n"
    + Indent24 + "tell current session of current window\n" + Indent28 + "write text "

  /** The iTerm2 script after the command's closing quote. */
  function ITermTail(title: string): string {
    "\n" + Indent28 + "set name to \"" + title + "\"\n" + Indent24 + "end tell\n" + Indent20 + "end tell"
  }

  /** A text between double quotes. */
  function Quoted(s: string): string {
    "\"" + s + "\""
  }

  /** The PowerShell command the new window runs: set the title, run the command, wait. */
  function PsCommand(title: string, full: string): string {
    "$Host.UI.RawUI.WindowTitle = '" + title + "'; " + full + "; Read-Host 'Press Enter to continue'"
  }

  const PsHead: string := "Start-Process powershell -ArgumentList '-NoProfile', '-Command', \""

  /** `build_terminal_command`: the program to start and its arguments (the original never
      fails here). */
  function BuildTerminalCommand(config: LauncherConfig, host: Host, t: TerminalType, command: string, args: seq<string>)
    : (string, seq<string>)
  {
    var full := FullCommand(command, args);
    var title := WindowTitle(config);
    var shell := DefaultShell(host);
    var stay := full + "; exec " + shell;
    match t
    case TerminalApp =>
      ("osascript", ["-e", TerminalAppHead + Quoted(EscapeAppleScript(full)) + TerminalAppTail(EscapeAppleScript(title))])
    case ITerm2 =>
      ("osascript", ["-e", ITermHead + Quoted(EscapeAppleScript(full)) + ITermTail(EscapeAppleScript(title))])
    case Alacritty => ("alacritty", ["--title", title, "-e", shell, "-c", stay])
    case GnomeTerminal => ("gnome-terminal", ["--title", title, "--", shell, "-c", stay])
    case Konsole => ("konsole", ["--new-tab", "-p", "tabtitle=" + title, "-e", shell, "-c", stay])
    case Xterm => ("xterm", ["-T", title, "-e", shell, "-c", stay])
    case Cmd => ("cmd", ["/C", "start", "\"" + title + "\"", "cmd", "/K", "title " + title + " && " + full])
    case PowerShell =>
      ("powershell", ["-NoProfile", "-Command", PsHead + EscapePowershellAsWritten(PsCommand(title, full)) + "\""])
    case WindowsTerminal =>
      ("wt", ["new-tab", "--title", title, "--", "cmd", "/K", "title " + title + " && " + full])
    case Custom(c) => (c, [full])
  }

  /** The terminals whose start-up is awaited are exactly the ones that run the command in the
      default shell and then keep that shell open. */
  lemma ShellTerminalsKeepShellOpen(config: LauncherConfig, host: Host, t: TerminalType, command: string, args: seq<string>)
    requires ShouldWaitForStartup(t)
    ensures var (program, a) := BuildTerminalCommand(config, host, t, command, args);
      |a| >= 3
      && a[|a| - 3..] == [DefaultShell(host), "-c", FullCommand(command, args) + "; exec " + DefaultShell(host)]
      && (if t == Konsole then a[2] == "tabtitle=" + WindowTitle(config) else a[1] == WindowTitle(config))
  {
  }

  /** The Windows prompts set the title and then run the command, and keep the prompt open. */
  lemma PromptsSetTitleThenRun(config: LauncherConfig, host: Host, t: TerminalType, command: string, args: seq<string>)
    requires t == Cmd || t == WindowsTerminal
    ensures var (program, a) := BuildTerminalCommand(config, host, t, command, args);
      |a| >= 2 && a[|a| - 2..] == ["/K", "title " + WindowTitle(config) + " && " + FullCommand(command, args)]
  {
  }

  /** A custom terminal is given the full command as its only argument. */
  lemma CustomGetsFullCommand(config: LauncherConfig, host: Host, c: string, command: string, args: seq<string>)
    ensures BuildTerminalCommand(config, host, Custom(c), command, args) == (c, [FullCommand(command, args)])
  {
  }

  /** On macOS the script handed to `osascript` holds the full command as a string literal
      that AppleScript reads back as exactly that command. */
  lemma AppleScriptCarriesCommand(config: LauncherConfig, host: Host, t: TerminalType, command: string, args: seq<string>)
    requires t == TerminalApp || t == ITerm2
    ensures var (program, a) := BuildTerminalCommand(config, host, t, command, args);
      program == "osascript" && |a| == 2 && a[0] == "-e"
      && exists i, j :: 0 < i <= j < |a[1]| && a[1][i - 1] == '"' && a[1][j] == '"'
                        && DecodeAppleScriptLiteral(a[1][i..j]) == Some(FullCommand(command, args))
  {
    var full := FullCommand(command, args);
    var title := EscapeAppleScript(WindowTitle(config));
    var head := if t == TerminalApp then TerminalAppHead else ITermHead;
    var tail := if t == TerminalApp then TerminalAppTail(title) else ITermTail(title);
    var script := head + Quoted(EscapeAppleScript(full)) + tail;
    var built := BuildTerminalCommand(config, host, t, command, args);
    assert built == ("osascript", ["-e", script]);
    var i, j := EscapedLiteralBetweenQuotes(script, head, full, tail);
    var a := built.1;
    assert a[1] == script;
    assert 0 < i <= j < |a[1]| && a[1][i - 1] == '"' && a[1][j] == '"'
           && DecodeAppleScriptLiteral(a[1][i..j]) == Some(full);
  }

  /** A script that puts the AppleScript escape of a text between double quotes holds a
      literal reading back as that text. */
  lemma EscapedLiteralBetweenQuotes(script: string, head: string, full: string, tail: string) returns (i: nat, j: nat)
    requires script == head + Quoted(EscapeAppleScript(full)) + tail
    ensures 0 < i <= j < |script| && script[i - 1] == '"' && script[j] == '"'
    ensures DecodeAppleScriptLiteral(script[i..j]) == Some(full)
  {
    var e := EscapeAppleScript(full);
    i, j := |head| + 1, |head| + 1 + |e|;
    assert script[i - 1] == '"';
    assert script[j] == '"';
    assert script[i..j] == e;
    EscapeAppleScriptRoundTrip(full);
  }

  /** On Windows PowerShell the last argument ends with a double-quoted string built by the
      as-written escaping. When the title or the command holds a double quote, PowerShell's
      string ends early; otherwise it reads back as the command that sets the title and runs
      the full command, but with a backtick before every single quote, so never as that
      command itself (it always holds the quotes around the title). */
  lemma PowershellCarriesCommand(config: LauncherConfig, host: Host, command: string, args: seq<string>)
    ensures var (program, a) := BuildTerminalCommand(config, host, PowerShell, command, args);
      var ps := PsCommand(WindowTitle(config), FullCommand(command, args));
      program == "powershell" && |a| == 3 && a[..2] == ["-NoProfile", "-Command"]
      && var last := a[2];
         |last| > |PsHead| && last[..|PsHead|] == PsHead && last[|last| - 1] == '"'
         && ('"' in ps ==> DecodePowershellString(last[|PsHead|..|last| - 1]) == None)
         && ('"' !in ps ==> DecodePowershellString(last[|PsHead|..|last| - 1]) == Some(ReplaceChar(ps, '\'', "`'")))
         && DecodePowershellString(last[|PsHead|..|last| - 1]) != Some(ps)
  {
    var title, full := WindowTitle(config), FullCommand(command, args);
    var ps := PsCommand(title, full);
    var e := EscapePowershellAsWritten(ps);
    var last := PsHead + e + "\"";
    assert BuildTerminalCommand(config, host, PowerShell, command, args).1[2] == last;
    assert last[|PsHead|..|last| - 1] == e;
    EscapePowershellAsWrittenReadsBack(ps);
    PsCommandQuotesMarked(title, full);
  }

  /** Putting a backtick before every single quote changes the PowerShell command: it opens
      with the title assignment's quote. */
  lemma PsCommandQuotesMarked(title: string, full: string)
    ensures ReplaceChar(PsCommand(title, full), '\'', "`'") != PsCommand(title, full)
  {
    var ps := PsCommand(title, full);
    var h0 := "$Host.UI.RawUI.WindowTitle = ";
    assert ps == h0 + "'" + title + "'; " + full + "; Read-Host 'Press Enter to continue'";
    assert ps[|h0|] == '\'';
    ReplaceCharGrows(ps, '\'', "`'");
  }

  /** The evidently intended PowerShell argument: built by the corrected escaping, it reads
      back as exactly the command that sets the title and runs the full command. */
  lemma PowershellIntendedCarriesCommand(title: string, full: string)
    ensures var e := EscapePowershell(PsCommand(title, full));
      var last := PsHead + e + "\"";
      last[|PsHead|..|last| - 1] == e && DecodePowershellString(e) == Some(PsCommand(title, full))
  {
    EscapePowershellRoundTrip(PsCommand(title, full));
  }

  // ---------------------------------------------------------------------------------------
  // Starting the terminal

  /** `should_wait_for_startup`: the terminals that may exit right after starting. */
  predicate ShouldWaitForStartup(t: TerminalType) {
    t == GnomeTerminal || t == Konsole || t == Alacritty || t == Xterm
  }

  /** What a poll of a started process reported. */
  datatype WaitStatus = StillRunning | Exited(success: bool, status: string) | WaitFailed(error: string)

  /** What one attempt to start the terminal gave: a spawn error, or a started process and
      what polling it half a second later reported. */
  datatype SpawnOutcome = SpawnFailed(error: string) | Spawned(wait: WaitStatus)

  const MaxRetries: nat := 3

  /** The attempt counts as a successful start. */
  predicate AttemptSucceeds(t: TerminalType, o: SpawnOutcome) {
    o.Spawned? && (!ShouldWaitForStartup(t) || o.wait.StillRunning? || (o.wait.Exited? && o.wait.success))
  }

  /** The error a failed attempt leaves behind. */
  function AttemptError(o: SpawnOutcome): string {
    match o
    case SpawnFailed(e) => "启动终端失败: " + e
    case Spawned(Exited(_, status)) => "终端进程异常退出: " + status
    case Spawned(WaitFailed(e)) => "检查进程状态失败: " + e
    case Spawned(StillRunning) => ""
  }

  /** The time attempt `n` spends waiting: one second after a failed spawn that will be
      retried, half a second before polling a started terminal that is awaited. */
  function AttemptDelay(t: TerminalType, o: SpawnOutcome, n: nat): nat {
    if o.SpawnFailed? then (if n < MaxRetries then 1000 else 0)
    else if ShouldWaitForStartup(t) then 500 else 0
  }

  /** The milliseconds waited over the first `n` attempts. */
  function TotalDelay(t: TerminalType, attempt: nat -> SpawnOutcome, n: nat): (d: nat)
    ensures n <= MaxRetries ==> d <= (if n == MaxRetries then 2500 else 1000 * n)
  {
    if n == 0 then 0 else TotalDelay(t, attempt, n - 1) + AttemptDelay(t, attempt(n), n)
  }

  /** One pass of the retry loop over attempt `n`: whether it started the terminal, the
      error it leaves behind otherwise, and the time it waited. */
  method RunAttempt(t: TerminalType, outcome: SpawnOutcome, n: nat) returns (ok: bool, error: string, delay: nat)
    ensures ok == AttemptSucceeds(t, outcome)
    ensures !ok ==> error == AttemptError(outcome)
    ensures delay == AttemptDelay(t, outcome, n)
  {
    error, delay := "", 0;
    match outcome
    case SpawnFailed(e) =>
      ok, error := false, "启动终端失败: " + e;
      if n < MaxRetries {
        delay := 1000;
      }
    case Spawned(wait) =>
      if !ShouldWaitForStartup(t) {
        return true, "", 0;
      }
      delay := 500;
      match wait
      case Exited(success, status) =>
        ok := success;
        if !success {
          error := "终端进程异常退出: " + status;
        }
      case StillRunning =>
        ok := true;
      case WaitFailed(e) =>
        ok, error := false, "检查进程状态失败: " + e;
  }

  /** The number of one-second back-offs over the first `n` attempts: one after each failed
      spawn that will be retried. */
  function Backoffs(attempt: nat -> SpawnOutcome, n: nat): (b: nat)
    ensures b <= n && (n <= MaxRetries ==> b <= MaxRetries - 1)
  {
    if n == 0 then 0 else Backoffs(attempt, n - 1) + (if attempt(n).SpawnFailed? && n < MaxRetries then 1 else 0)
  }

  /** `try_launch_with_retry`, with `attempt(n)` what the n-th spawn gave: up to three attempts,
      stopping at the first success; after three failures the error is the last attempt's. */
  method TryLaunchWithRetry(t: TerminalType, attempt: nat -> SpawnOutcome)
    returns (r: Result<Unit, string>, tries: nat, sleptMs: nat, backoffs: nat)
    ensures 1 <= tries <= MaxRetries
    ensures forall k :: 1 <= k < tries ==> !AttemptSucceeds(t, attempt(k))
    ensures r.Ok? <==> AttemptSucceeds(t, attempt(tries))
    ensures r.Err? ==> tries == MaxRetries && r.error == AttemptError(attempt(MaxRetries))
    ensures sleptMs == TotalDelay(t, attempt, tries) && sleptMs <= 2500
    ensures backoffs == Backoffs(attempt, tries) && backoffs <= 2
  {
    var lastError: Option<string> := None;
    sleptMs, backoffs := 0, 0;
    tries := 0;
    var n := 1;
    while n <= MaxRetries
      invariant 1 <= n <= MaxRetries + 1 && tries == n - 1
      invariant forall k :: 1 <= k < n ==> !AttemptSucceeds(t, attempt(k))
      invariant n > 1 ==> lastError == Some(AttemptError(attempt(n - 1)))
      invariant sleptMs == TotalDelay(t, attempt, n - 1)
      invariant backoffs == Backoffs(attempt, n - 1)
    {
      tries := n;
      var ok, error, delay := RunAttempt(t, attempt(n), n);
      assert TotalDelay(t, attempt, n) == TotalDelay(t, attempt, n - 1) + delay;
      sleptMs := sleptMs + delay;
      if attempt(n).SpawnFailed? && n < MaxRetries {
        backoffs := backoffs + 1;
      }
      assert backoffs == Backoffs(attempt, n);
      if ok {
        return Ok(Unit), tries, sleptMs, backoffs;
      }
      lastError := Some(error);
      n := n + 1;
    }
    assert n == MaxRetries + 1;
    r := Err(lastError.GetOr("未知错误"));
  }

  /** The program, arguments and working directory the terminal was started with. */
  datatype CommandLine = CommandLine(program: string, args: seq<string>, currentDir: Option<string>)

  const FallbackError: string := "终端启动失败，需要回退到CLI模式"

  /** The start-up part of `launch_terminal_with_command` for the chosen terminal: start it
      with retries; a failed start asks for the CLI fallback when the configuration allows it
      and reports the last attempt's error otherwise. */
  method StartChosenTerminal(config: LauncherConfig, terminal: TerminalType, attempt: nat -> SpawnOutcome)
    returns (r: Result<Unit, string>)
    ensures r.Ok? <==> exists k :: 1 <= k <= MaxRetries && AttemptSucceeds(terminal, attempt(k))
    ensures r.Err? ==> r.error == if config.fallbackToCli then FallbackError
                                  else "终端启动失败: " + AttemptError(attempt(MaxRetries))
  {
    var result, tries, sleptMs, backoffs := TryLaunchWithRetry(terminal, attempt);
    if result.Ok? {
      r := Ok(Unit);
    } else {
      assert forall k :: 1 <= k <= MaxRetries ==> !AttemptSucceeds(terminal, attempt(k));
      if config.fallbackToCli {
        r := Err(FallbackError);
      } else {
        r := Err("终端启动失败: " + result.error);
      }
    }
  }

  /** `launch_terminal_with_command`: choose a terminal, build its command line, and start it
      with retries. A failed start asks for the CLI fallback when the configuration allows it
      and reports the last attempt's error otherwise. */
  method LaunchTerminalWithCommand(host: Host, config: LauncherConfig, command: string, args: seq<string>,
                                   attempt: nat -> SpawnOutcome)
    returns (r: Result<Unit, string>, launched: Option<CommandLine>)
    ensures var best := BestTerminal(host, config.preferredTerminal);
      best.Err? ==> r == Err(best.error) && launched.None?
    ensures var best := BestTerminal(host, config.preferredTerminal);
      best.Ok? ==>
        var built := BuildTerminalCommand(config, host, best.value, command, args);
        launched == Some(CommandLine(built.0, built.1, config.workingDirectory))
        && (r.Ok? <==> exists k :: 1 <= k <= MaxRetries && AttemptSucceeds(best.value, attempt(k)))
        && (r.Err? ==> r.error == if config.fallbackToCli then FallbackError
                                  else "终端启动失败: " + AttemptError(attempt(MaxRetries)))
  {
    var detected := DetectBestTerminal(host, config);
    if detected.Err? {
      return Err(detected.error), None;
    }
    var terminal := detected.value;
    var built := BuildTerminalCommand(config, host, terminal, command, args);
    launched := Some(CommandLine(built.0, built.1, config.workingDirectory));
    r := StartChosenTerminal(config, terminal, attempt);
  }
}
