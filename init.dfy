/**
  Project initialisation: the three configuration templates, the configuration a template
  produces, and project-name validation.
*/
module Init {
  import opened Results
  import opened Strings
  import opened Settings

  datatype ProjectTemplate = ProjectTemplate(
    name: string,
    description: string,
    mcpTools: seq<string>,
    enableContinueReply: bool,
    continueThreshold: U32)

  /** `ProjectTemplate::get_templates`. */
  const Templates: seq<ProjectTemplate> := [
    ProjectTemplate("基础配置", "最小化配置，只启用核心功能", ["zhi"], false, 1000),
    ProjectTemplate("完整配置", "启用所有功能，适合完整的代码审查工作流", ["zhi", "ji"], true, 1000),
    ProjectTemplate("自定义配置", "手动选择需要的功能和配置", [], true, 1000)
  ]

  /** The tools every generated configuration has a switch for, in insertion order. */
  const KnownTools: seq<string> := ["zhi", "ji"]

  /** The switch map a template's tool list yields: one entry per known tool, on exactly
      when the template names it. */
  ghost function ToolMapFor(tools: seq<string>): map<string, bool> {
    map k | k in KnownTools :: k in tools
  }

  /** The configuration a template yields: its reply settings with the standard prompt,
      its switch map, the default terminal settings and the package version. */
  ghost function ConfigFor(t: ProjectTemplate): AppConfig {
    AppConfig(
      ReplyConfig(t.enableContinueReply, t.continueThreshold, DefaultContinuePrompt),
      McpConfig(ToolMapFor(t.mcpTools)),
      DefaultTerminalConfig,
      PackageVersion)
  }

  /** The `for tool in &["zhi", "ji"]` loop that fills the switch map. */
  method BuildToolMap(tools: seq<string>) returns (m: map<string, bool>)
    ensures m == ToolMapFor(tools)
    ensures m.Keys == {"zhi", "ji"}
    ensures forall k :: k in m ==> (m[k] <==> k in tools)
  {
    m := map[];
    for i := 0 to |KnownTools|
      invariant m == map k | k in KnownTools[..i] :: k in tools
    {
      assert KnownTools[..i + 1] == KnownTools[..i] + [KnownTools[i]];
      m := m[KnownTools[i] := KnownTools[i] in tools];
    }
    assert KnownTools[..|KnownTools|] == KnownTools;
  }

  /** `Iterator::find` over the templates by name. */
  function TemplateNamed(name: string): (r: Option<ProjectTemplate>)
    ensures r.Some? ==> r.value in Templates && r.value.name == name
    ensures r.None? <==> forall i :: 0 <= i < |Templates| ==> Templates[i].name != name
  {
    if Templates[0].name == name then Some(Templates[0])
    else if Templates[1].name == name then Some(Templates[1])
    else if Templates[2].name == name then Some(Templates[2])
    else None
  }

  /** `create_config_template`: the named template's configuration, or an error naming the
      unknown template. */
  method CreateConfigTemplate(templateName: string) returns (r: Result<AppConfig, string>)
    ensures r.Err? <==> TemplateNamed(templateName).None?
    ensures r.Err? ==> r.error == "未知的模板: " + templateName
    ensures r.Ok? ==> r.value == ConfigFor(TemplateNamed(templateName).value)
  {
    var found := TemplateNamed(templateName);
    if found.None? {
      return Err("未知的模板: " + templateName);
    }
    var template := found.value;
    var tools := BuildToolMap(template.mcpTools);
    r := Ok(AppConfig(
      ReplyConfig(template.enableContinueReply, template.continueThreshold, DefaultContinuePrompt),
      McpConfig(tools),
      DefaultTerminalConfig,
      PackageVersion));
  }

  /** `configure_from_template`: the same configuration `create_config_template` builds. */
  method ConfigureFromTemplate(template: ProjectTemplate) returns (c: AppConfig)
    ensures c == ConfigFor(template)
  {
    var tools := BuildToolMap(template.mcpTools);
    c := AppConfig(
      ReplyConfig(template.enableContinueReply, template.continueThreshold, DefaultContinuePrompt),
      McpConfig(tools),
      DefaultTerminalConfig,
      PackageVersion);
  }

  /** The three templates and the switches each produces: basic has only zhi and no continue
      reply, full has both tools with continue reply, custom has neither tool. */
  lemma TemplateFacts()
    ensures |Templates| == 3
    ensures ConfigFor(Templates[0]).mcpConfig.tools == map["zhi" := true, "ji" := false]
    ensures !ConfigFor(Templates[0]).replyConfig.enableContinueReply
    ensures ConfigFor(Templates[1]).mcpConfig.tools == map["zhi" := true, "ji" := true]
    ensures ConfigFor(Templates[1]).replyConfig.enableContinueReply
    ensures ConfigFor(Templates[2]).mcpConfig.tools == map["zhi" := false, "ji" := false]
    ensures forall i :: 0 <= i < 3 ==> ConfigFor(Templates[i]).replyConfig.autoContinueThreshold == 1000
    ensures forall i :: 0 <= i < 3 ==> Validate(ConfigFor(Templates[i])).Ok?
  {
    assert "ji" !in ["zhi"];
  }

  const EmptyNameError: string := "项目名称不能为空"
  const LongNameError: string := "项目名称不能超过 50 个字符"
  const BadCharError: string := "项目名称只能包含字母、数字、连字符和下划线"

  /** A character a project name may hold; `isAlphanumeric` is Rust's `char::is_alphanumeric`. */
  predicate NameCharAllowed(c: char, isAlphanumeric: char -> bool) {
    isAlphanumeric(c) || c == '-' || c == '_'
  }

  /** `validate_project_name`: non-empty, at most 50 bytes of UTF-8, and only
      alphanumerics, '-' and '_'; the checks run in that order. */
  function ValidateProjectName(name: string, isAlphanumeric: char -> bool): (r: Result<Unit, string>)
    ensures r.Ok? <==> name != "" && Utf8Len(name) <= 50
                       && forall k :: 0 <= k < |name| ==> NameCharAllowed(name[k], isAlphanumeric)
    ensures name == "" ==> r == Err(EmptyNameError)
    ensures name != "" && Utf8Len(name) > 50 ==> r == Err(LongNameError)
    ensures r.Err? && name != "" && Utf8Len(name) <= 50 ==> r == Err(BadCharError)
  {
    if name == "" then Err(EmptyNameError)
    else if Utf8Len(name) > 50 then Err(LongNameError)
    else if exists k :: 0 <= k < |name| && !NameCharAllowed(name[k], isAlphanumeric) then Err(BadCharError)
    else Ok(Unit)
  }

  /** Rust's `is_alphanumeric` holds for the ASCII letters and digits and fails for the
      ASCII punctuation and space. */
  ghost predicate AsciiFaithful(isAlphanumeric: char -> bool) {
    forall c: char :: c as int < 0x80 ==>
      (isAlphanumeric(c) <==> ('a' <= c <= 'z' || 'A' <= c <= 'Z' || '0' <= c <= '9'))
  }

  /** A name of 1 to 50 ASCII letters, digits, '-' and '_' is accepted. */
  lemma AsciiNameAccepted(name: string, isAlphanumeric: char -> bool)
    requires AsciiFaithful(isAlphanumeric)
    requires 1 <= |name| <= 50
    requires forall k :: 0 <= k < |name| ==>
      'a' <= name[k] <= 'z' || 'A' <= name[k] <= 'Z' || '0' <= name[k] <= '9' || name[k] == '-' || name[k] == '_'
    ensures ValidateProjectName(name, isAlphanumeric).Ok?
  {
    Utf8LenAscii(name);
    forall k | 0 <= k < |name| ensures NameCharAllowed(name[k], isAlphanumeric) {
      assert name[k] as int < 0x80;
    }
  }

  /** Some of the names the project's tests accept and reject. */
  lemma ProjectNameExamples(isAlphanumeric: char -> bool)
    requires AsciiFaithful(isAlphanumeric)
    ensures ValidateProjectName("with-dashes", isAlphanumeric).Ok?
    ensures ValidateProjectName("with spaces", isAlphanumeric).Err?
    ensures ValidateProjectName(Repeat("a", 60), isAlphanumeric) == Err(LongNameError)
  {
    AsciiNameAccepted("with-dashes", isAlphanumeric);
    assert !NameCharAllowed("with spaces"[4], isAlphanumeric);
    Utf8LenAscii(Repeat("a", 60));
  }
}
