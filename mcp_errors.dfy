/** The tool-level error enum and the three helpers that turn a message into an MCP error. */
module McpErrors {
  import opened Results
  import opened McpTypes

  datatype McpToolError =
    | ProjectPath(payload: string)
    | PopupCreation(payload: string)
    | ResponseParsing(payload: string)
    | Configuration(payload: string)
    | Internal(payload: string)

  /** Each variant's fixed prefix. */
  function ToolErrorPrefix(e: McpToolError): string {
    match e
    case ProjectPath(_) => "项目路径错误: "
    case PopupCreation(_) => "弹窗创建失败: "
    case ResponseParsing(_) => "响应解析失败: "
    case Configuration(_) => "配置错误: "
    case Internal(_) => "内部错误: "
  }

  /** `Display` for `McpToolError`: the variant's prefix, then its payload. */
  function ToolErrorText(e: McpToolError): (r: string)
    ensures r == ToolErrorPrefix(e) + e.payload
  {
    ToolErrorPrefix(e) + e.payload
  }

  /** Distinct tool errors never display alike: the text tells the variant and the payload. */
  lemma ToolErrorTextInjective(e1: McpToolError, e2: McpToolError)
    requires ToolErrorText(e1) == ToolErrorText(e2)
    ensures e1 == e2
  {
    var t := ToolErrorText(e1);
    assert t[0] == ToolErrorPrefix(e1)[0] == ToolErrorPrefix(e2)[0];
    assert ToolErrorPrefix(e1) == ToolErrorPrefix(e2);
    var n := |ToolErrorPrefix(e1)|;
    assert e1.payload == t[n..] == e2.payload;
  }

  /** `project_path_error`: invalid parameters carrying the project-path text. */
  function ProjectPathError(message: string): (r: McpError)
    ensures r == InvalidParams(ToolErrorText(ProjectPath(message)))
  {
    InvalidParamsError("项目路径错误: " + message, None)
  }

  /** `popup_error`: an internal error carrying the popup-creation text. */
  function PopupError(message: string): (r: McpError)
    ensures r == InternalError(ToolErrorText(PopupCreation(message)))
  {
    InternalErrorError("弹窗创建失败: " + message, None)
  }

  /** `response_parsing_error`: an internal error carrying the response-parsing text. */
  function ResponseParsingError(message: string): (r: McpError)
    ensures r == InternalError(ToolErrorText(ResponseParsing(message)))
  {
    InternalErrorError("响应解析失败: " + message, None)
  }
}
