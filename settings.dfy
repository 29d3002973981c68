/**
  The application configuration: continue-reply settings, the MCP tool switches, the
  Telegram bot settings and the terminal-launcher settings, with their documented
  defaults, validation and summary text.
*/
module Settings {
  import opened Results
  import opened Strings

  /** Rust's `u32`. */
  type U32 = x: nat | x < 0x1_0000_0000

  datatype ReplyConfig = ReplyConfig(enableContinueReply: bool, autoContinueThreshold: U32, continuePrompt: string)

  /** Tool switches by tool name. */
  datatype McpConfig = McpConfig(tools: map<string, bool>)

  datatype TelegramConfig = TelegramConfig(
    enabled: bool,
    botToken: string,
    chatId: string,
    hideFrontendPopup: bool,
    apiBaseUrl: string)

  datatype TerminalConfig = TerminalConfig(
    enabled: bool,
    preferredTerminal: Option<string>,
    fallbackToCli: bool,
    windowTitle: string,
    timeoutSeconds: U32)

  datatype AppConfig = AppConfig(
    replyConfig: ReplyConfig,
    mcpConfig: McpConfig,
    terminalConfig: TerminalConfig,
    version: string)

  /** The crate version the build embeds as the default configuration version. */
  const PackageVersion: string := "0.2.12"

  const DefaultContinuePrompt: string := "请按照最佳实践继续"
  const DefaultThreshold: U32 := 1000
  const DefaultWindowTitle: string := "寸止 CLI 交互"
  const DefaultTerminalTimeout: U32 := 300
  const DefaultTelegramApiBase: string := "https://api.telegram.org/bot"

  /** `default_mcp_tools`: both tools switched on. */
  const DefaultMcpTools: map<string, bool> := map["zhi" := true, "ji" := true]

  const DefaultReplyConfig: ReplyConfig := ReplyConfig(true, DefaultThreshold, DefaultContinuePrompt)

  const DefaultTelegramConfig: TelegramConfig := TelegramConfig(false, "", "", false, DefaultTelegramApiBase)

  const DefaultTerminalConfig: TerminalConfig :=
    TerminalConfig(true, None, true, DefaultWindowTitle, DefaultTerminalTimeout)

  /** `AppConfig::default`. */
  const DefaultAppConfig: AppConfig :=
    AppConfig(DefaultReplyConfig, McpConfig(DefaultMcpTools), DefaultTerminalConfig, PackageVersion)

  /** The message `validate` fails with. */
  const ZeroThresholdError: string := "自动继续阈值不能为 0"

  /** `AppConfig::validate`: a configuration is refused exactly when its continue threshold is 0. */
  function Validate(c: AppConfig): (r: Result<Unit, string>)
    ensures r.Err? <==> c.replyConfig.autoContinueThreshold == 0
    ensures r.Err? ==> r.error == ZeroThresholdError
  {
    if c.replyConfig.autoContinueThreshold == 0 then Err(ZeroThresholdError) else Ok(Unit)
  }

  /** The default configuration has both tools on, threshold 1000, the terminal on with CLI
      fallback, a 300 second timeout and the documented window title, and it validates. */
  lemma DefaultConfigFacts()
    ensures DefaultAppConfig.mcpConfig.tools == map["zhi" := true, "ji" := true]
    ensures DefaultAppConfig.replyConfig.autoContinueThreshold == 1000
    ensures DefaultAppConfig.terminalConfig.enabled && DefaultAppConfig.terminalConfig.fallbackToCli
    ensures DefaultAppConfig.terminalConfig.timeoutSeconds == 300
    ensures DefaultAppConfig.terminalConfig.windowTitle == "寸止 CLI 交互"
    ensures Validate(DefaultAppConfig).Ok?
  {
  }

  /** `order` lists every key of `m` exactly once: the iteration order of a `HashMap`. */
  ghost predicate IsListing<V>(order: seq<string>, m: map<string, V>) {
    Distinct(order) && forall k :: k in order <==> k in m
  }

  /** The names in `order` that `tools` switches on, in `order`'s order. */
  function FilterEnabled(tools: map<string, bool>, order: seq<string>): (r: seq<string>)
    ensures forall x :: x in r <==> x in order && x in tools && tools[x]
    ensures Distinct(order) ==> Distinct(r)
  {
    if order == [] then []
    else (if order[0] in tools && tools[order[0]] then [order[0]] else []) + FilterEnabled(tools, order[1..])
  }

  /** `McpConfig::is_tool_enabled`: a tool absent from the map is off. */
  function IsToolEnabled(c: McpConfig, name: string): (r: bool)
    ensures r <==> name in c.tools && c.tools[name]
  {
    if name in c.tools then c.tools[name] else false
  }

  /** `McpConfig::set_tool_enabled`: inserts or overwrites one switch. */
  function SetToolEnabled(c: McpConfig, name: string, enabled: bool): (r: McpConfig)
    ensures r.tools.Keys == c.tools.Keys + {name}
  {
    McpConfig(c.tools[name := enabled])
  }

  /** After setting a switch it reads back as set, and every other switch reads as before. */
  lemma SetThenIsToolEnabled(c: McpConfig, name: string, enabled: bool, other: string)
    ensures IsToolEnabled(SetToolEnabled(c, name, enabled), name) == enabled
    ensures other != name ==> IsToolEnabled(SetToolEnabled(c, name, enabled), other) == IsToolEnabled(c, other)
  {
  }

  /** `McpConfig::get_enabled_tools`, with the map's iteration order as `order`: exactly the
      tools switched on, each once. */
  function GetEnabledTools(c: McpConfig, order: seq<string>): (r: seq<string>)
    requires IsListing(order, c.tools)
    ensures forall x :: x in r <==> IsToolEnabled(c, x)
    ensures Distinct(r)
  {
    FilterEnabled(c.tools, order)
  }

  /** The summary's three lines. */
  function SummaryLines(c: AppConfig, order: seq<string>): seq<string>
    requires IsListing(order, c.mcpConfig.tools)
  {
    [ "配置版本: " + c.version,
      "启用的 MCP 工具: " + Join(GetEnabledTools(c.mcpConfig, order), ", "),
      if c.replyConfig.enableContinueReply
      then "自动继续回复: 已启用 (阈值: " + NatToString(c.replyConfig.autoContinueThreshold) + " 字符)"
      else "自动继续回复: 已禁用" ]
  }

  /** `AppConfig::get_summary`, with the tool map's iteration order as `order`. */
  function GetSummary(c: AppConfig, order: seq<string>): (r: string)
    requires IsListing(order, c.mcpConfig.tools)
    ensures StartsWith(r, "配置版本: " + c.version)
  {
    var ls := SummaryLines(c, order);
    assert Join(ls, "\n") == ls[0] + "\n" + Join(ls[1..], "\n");
    Join(ls, "\n")
  }

  /** When neither the version nor a tool name holds a line break, the summary is exactly
      three lines: the version, the enabled tools, and the continue-reply state. */
  lemma SummaryHasThreeLines(c: AppConfig, order: seq<string>)
    requires IsListing(order, c.mcpConfig.tools)
    requires '\n' !in c.version
    requires forall k :: 0 <= k < |order| ==> '\n' !in order[k]
    ensures Split(GetSummary(c, order), '\n') == SummaryLines(c, order)
    ensures Split(GetSummary(c, order), '\n')[2] ==
      (if c.replyConfig.enableContinueReply
       then "自动继续回复: 已启用 (阈值: " + NatToString(c.replyConfig.autoContinueThreshold) + " 字符)"
       else "自动继续回复: 已禁用")
  {
    var ls := SummaryLines(c, order);
    var tools := GetEnabledTools(c.mcpConfig, order);
    forall k | 0 <= k < |tools| ensures '\n' !in tools[k] {
      assert tools[k] in order;
    }
    JoinAvoids(tools, ", ", '\n');
    assert '\n' !in "启用的 MCP 工具: ";
    NatDigitsOnly(c.replyConfig.autoContinueThreshold);
    assert forall k :: 0 <= k < |ls| ==> '\n' !in ls[k];
    SplitJoin(ls, '\n');
  }

  /** A decimal rendering holds no line break. */
  lemma {:induction false} NatDigitsOnly(n: nat)
    ensures '\n' !in NatToString(n)
    decreases n
  {
    if n >= 10 {
      NatDigitsOnly(n / 10);
    }
  }

  /** `TelegramConfig::is_valid`: a disabled bot is always valid; an enabled one needs a
      non-empty token holding ':' and a non-empty chat id. */
  predicate TelegramIsValid(t: TelegramConfig) {
    !t.enabled || (t.botToken != "" && t.chatId != "" && ':' in t.botToken)
  }

  /** The documented default bot settings are valid (the bot is off). */
  lemma DefaultTelegramValid()
    ensures !DefaultTelegramConfig.enabled && TelegramIsValid(DefaultTelegramConfig)
  {
  }

  /** An enabled bot whose token lacks ':' is invalid. */
  lemma TelegramTokenNeedsColon(t: TelegramConfig)
    requires t.enabled && ':' !in t.botToken
    ensures !TelegramIsValid(t)
  {
  }

  /** `TelegramConfig::get_api_url`: base, token, "/", method. */
  function GetApiUrl(t: TelegramConfig, apiMethod: string): (r: string)
    ensures StartsWith(r, t.apiBaseUrl + t.botToken)
    ensures EndsWith(r, "/" + apiMethod)
    ensures |r| == |t.apiBaseUrl| + |t.botToken| + 1 + |apiMethod|
  {
    t.apiBaseUrl + t.botToken + "/" + apiMethod
  }
}
