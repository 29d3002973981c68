/**
  Application errors: the eight error kinds with their messages and constructors, the exit
  code the top-level handler returns for each, the verbose report of a foreign error's
  cause chain, and the retry loop of the recovery strategy.
*/
module ErrorHandler {
  import opened Results
  import opened Strings

  datatype AppError =
    | Config(message: string)
    | FileOperation(message: string)
    | Network(message: string)
    | McpServer(message: string)
    | UserInput(message: string)
    | Permission(message: string)
    | Dependency(message: string)
    | Internal(message: string)

  /** The fixed text `Display` puts before each kind's message. */
  function AppErrorPrefix(e: AppError): string {
    match e
    case Config(_) => "配置错误: "
    case FileOperation(_) => "文件操作错误: "
    case Network(_) => "网络错误: "
    case McpServer(_) => "MCP 服务器错误: "
    case UserInput(_) => "用户输入错误: "
    case Permission(_) => "权限错误: "
    case Dependency(_) => "依赖错误: "
    case Internal(_) => "内部错误: "
  }

  /** `Display` for `AppError`. */
  function AppErrorText(e: AppError): (r: string)
    ensures r == AppErrorPrefix(e) + e.message
  {
    AppErrorPrefix(e) + e.message
  }

  /** Every application error's text says it is an error ("错误"), whatever its message. */
  lemma AppErrorTextSaysError(e: AppError)
    ensures Contains(AppErrorText(e), "错误")
  {
    var t := AppErrorText(e);
    var i := match e
      case Config(_) => 2
      case FileOperation(_) => 4
      case Network(_) => 2
      case McpServer(_) => 7
      case UserInput(_) => 4
      case Permission(_) => 2
      case Dependency(_) => 2
      case Internal(_) => 2;
    assert t[i..i + 2] == AppErrorPrefix(e)[i..i + 2] == "错误";
    ContainsAt(t, "错误", i);
  }

  /** The constructors `AppError::config` … `AppError::internal`, by kind. */
  datatype Kind = KConfig | KFileOperation | KNetwork | KMcpServer | KUserInput | KPermission | KDependency | KInternal

  function KindOf(e: AppError): Kind {
    match e
    case Config(_) => KConfig
    case FileOperation(_) => KFileOperation
    case Network(_) => KNetwork
    case McpServer(_) => KMcpServer
    case UserInput(_) => KUserInput
    case Permission(_) => KPermission
    case Dependency(_) => KDependency
    case Internal(_) => KInternal
  }

  /** The constructor for `kind`: it builds that kind and keeps the message. */
  function MakeAppError(kind: Kind, msg: string): (r: AppError)
    ensures KindOf(r) == kind && r.message == msg
  {
    match kind
    case KConfig => Config(msg)
    case KFileOperation => FileOperation(msg)
    case KNetwork => Network(msg)
    case KMcpServer => McpServer(msg)
    case KUserInput => UserInput(msg)
    case KPermission => Permission(msg)
    case KDependency => Dependency(msg)
    case KInternal => Internal(msg)
  }

  /** `handle_app_error`'s exit code. */
  function ExitCode(e: AppError): (code: int)
    ensures 1 <= code <= 8
  {
    match e
    case Config(_) => 1
    case FileOperation(_) => 2
    case Network(_) => 3
    case McpServer(_) => 4
    case UserInput(_) => 5
    case Permission(_) => 6
    case Dependency(_) => 7
    case Internal(_) => 8
  }

  /** The exit code tells the error kind: different kinds never share a code. */
  lemma ExitCodeIdentifiesKind(e1: AppError, e2: AppError)
    ensures ExitCode(e1) == ExitCode(e2) <==> KindOf(e1) == KindOf(e2)
  {
  }

  /** The fixed text `handle_app_error` puts before each kind's message (its wording differs
      from `Display`). */
  function HeadlinePrefix(e: AppError): string {
    match e
    case Config(_) => "配置错误: "
    case FileOperation(_) => "文件操作失败: "
    case Network(_) => "网络连接失败: "
    case McpServer(_) => "MCP 服务器错误: "
    case UserInput(_) => "输入错误: "
    case Permission(_) => "权限不足: "
    case Dependency(_) => "依赖错误: "
    case Internal(_) => "内部错误: "
  }

  /** The headline `handle_app_error` shows: a non-empty prefix, then the error's message. */
  function AppErrorHeadline(e: AppError): (r: string)
    ensures EndsWith(r, e.message) && |r| > |e.message|
  {
    HeadlinePrefix(e) + e.message
  }

  /** The first character of a headline already tells the kind of the error. */
  lemma HeadlineFirstCharTellsKind(e1: AppError, e2: AppError)
    ensures AppErrorHeadline(e1)[0] == AppErrorHeadline(e2)[0] <==> KindOf(e1) == KindOf(e2)
  {
    assert AppErrorHeadline(e1)[0] == HeadlinePrefix(e1)[0];
    assert AppErrorHeadline(e2)[0] == HeadlinePrefix(e2)[0];
  }

  /** Two application errors show the same headline exactly when they are the same error:
      kind and message can both be read back from the headline. */
  lemma AppErrorHeadlineIdentifiesError(e1: AppError, e2: AppError)
    ensures AppErrorHeadline(e1) == AppErrorHeadline(e2) <==> e1 == e2
  {
    if AppErrorHeadline(e1) == AppErrorHeadline(e2) {
      HeadlineFirstCharTellsKind(e1, e2);
      assert HeadlinePrefix(e1) == HeadlinePrefix(e2);
      var n := |HeadlinePrefix(e1)|;
      assert e1.message == AppErrorHeadline(e1)[n..] == AppErrorHeadline(e2)[n..] == e2.message;
    }
  }

  /** An error reaching the top-level handler: an application error, or any other error
      given by its text and the texts of its chain of causes, nearest first. */
  datatype AnyError = App(error: AppError) | Foreign(text: string, causes: seq<string>)

  /** The exit code for a foreign error. */
  const GenericExitCode: int := 99

  /** The cause lines of the verbose report: the cause at depth `level` (from 1) is indented
      by `level` double spaces. */
  ghost function CauseLines(causes: seq<string>): seq<string> {
    seq(|causes|, i requires 0 <= i < |causes| => Repeat("  ", i + 1) + "└─ " + causes[i])
  }

  /** `handle_generic_error`: reports the error, and when verbose a blank line, a heading and
      the walk down the cause chain; always exit code 99. */
  method HandleGenericError(text: string, causes: seq<string>, verbose: bool)
    returns (code: int, headline: string, report: seq<string>)
    ensures code == GenericExitCode
    ensures headline == "发生错误: " + text
    ensures !verbose ==> report == []
    ensures verbose ==> report == ["", "详细错误信息:"] + CauseLines(causes)
  {
    headline := "发生错误: " + text;
    report := [];
    if verbose {
      report := ["", "详细错误信息:"];
      var current := 0;
      var level := 1;
      while current < |causes|
        invariant 0 <= current <= |causes| && level == current + 1
        invariant report == ["", "详细错误信息:"] + CauseLines(causes)[..current]
      {
        assert CauseLines(causes)[..current + 1] == CauseLines(causes)[..current] + [CauseLines(causes)[current]];
        report := report + [Repeat("  ", level) + "└─ " + causes[current]];
        current := current + 1;
        level := level + 1;
      }
      assert CauseLines(causes)[..|causes|] == CauseLines(causes);
    }
    code := GenericExitCode;
  }

  /** Each cause line ends with its cause and is indented two spaces per level. */
  lemma CauseLineShape(causes: seq<string>, i: nat)
    requires i < |causes|
    ensures EndsWith(CauseLines(causes)[i], causes[i])
    ensures StartsWith(CauseLines(causes)[i], Repeat(" ", 2 * (i + 1)))
  {
    RepeatDoubleSpace(i + 1);
  }

  lemma {:induction false} RepeatDoubleSpace(n: nat)
    ensures Repeat("  ", n) == Repeat(" ", 2 * n)
  {
    if n > 0 {
      RepeatDoubleSpace(n - 1);
      assert Repeat(" ", 2 * n) == " " + (" " + Repeat(" ", 2 * n - 2));
    }
  }

  /** `handle_error`: an application error shows its kind's headline and exits with the
      kind's code; any other error gets `handle_generic_error`'s headline, report and 99. */
  method HandleError(e: AnyError, verbose: bool) returns (code: int, headline: string, report: seq<string>)
    ensures e.App? ==> code == ExitCode(e.error) && headline == AppErrorHeadline(e.error) && report == []
    ensures e.Foreign? ==> code == GenericExitCode && headline == "发生错误: " + e.text
    ensures e.Foreign? && !verbose ==> report == []
    ensures e.Foreign? && verbose ==> report == ["", "详细错误信息:"] + CauseLines(e.causes)
    ensures code == GenericExitCode <==> e.Foreign?
  {
    match e
    case App(err) =>
      code, headline, report := ExitCode(err), AppErrorHeadline(err), [];
    case Foreign(text, causes) =>
      code, headline, report := HandleGenericError(text, causes, verbose);
  }

  /** The warning shown before each retry. */
  function RetryWarning(delaySecs: nat, attempt: nat, maxRetries: nat): (r: string)
    ensures StartsWith(r, "操作失败，" + NatToString(delaySecs) + " 秒后重试 (")
    ensures EndsWith(r, "/" + NatToString(maxRetries) + ")")
  {
    "操作失败，" + NatToString(delaySecs) + " 秒后重试 (" + NatToString(attempt) + "/" + NatToString(maxRetries) + ")"
  }

  /** `RecoveryStrategy::execute_with_retry`: `operation(i)` is what the (i+1)-th call returns.
      The first success is returned; after `maxRetries + 1` failures the last error is
      returned. Every failure but the final one is followed by a warning and one sleep. */
  method ExecuteWithRetry<T, E>(maxRetries: nat, delaySecs: nat, operation: nat -> Result<T, E>)
    returns (r: Result<T, E>, calls: nat, warnings: seq<string>)
    ensures 1 <= calls <= maxRetries + 1
    ensures r == operation(calls - 1)
    ensures forall i :: 0 <= i < calls - 1 ==> operation(i).Err?
    ensures r.Err? ==> calls == maxRetries + 1
    ensures |warnings| == calls - 1
    ensures forall i :: 0 <= i < |warnings| ==> warnings[i] == RetryWarning(delaySecs, i + 1, maxRetries)
  {
    var attempts := 0;
    warnings := [];
    while true
      invariant attempts <= maxRetries
      invariant forall i :: 0 <= i < attempts ==> operation(i).Err?
      invariant |warnings| == attempts
      invariant forall i :: 0 <= i < attempts ==> warnings[i] == RetryWarning(delaySecs, i + 1, maxRetries)
      decreases maxRetries - attempts
    {
      var outcome := operation(attempts);
      if outcome.Ok? {
        return outcome, attempts + 1, warnings;
      }
      attempts := attempts + 1;
      if attempts > maxRetries {
        return outcome, attempts, warnings;
      }
      warnings := warnings + [RetryWarning(delaySecs, attempts, maxRetries)];
    }
  }
}
