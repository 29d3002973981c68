/**
  The `jiyi` (memory) MCP tool: it checks the project path, opens the project's memory
  store, and either adds a memory ("记忆") or returns the store's summary ("回忆"). The
  store's answers are inputs here; which store operation the tool asked for is an output.
*/
module MemoryTool {
  import opened Results
  import opened Strings
  import opened McpTypes
  import opened Memory

  /** What the store answered: opening it, adding a memory (the new id), and the summary. */
  datatype StoreOutcomes = StoreOutcomes(openResult: Result<Unit, string>, added: Result<string, string>, summary: Result<string, string>)

  /** The store operation the tool performed, if any. */
  datatype StoreCall = NoCall | AddCall(content: string, category: MemoryCategory) | SummaryCall

  /** The request's category name; an unknown name means a context memory. */
  function ParseCategory(name: string): (c: MemoryCategory)
    ensures name !in {"rule", "preference", "pattern"} ==> c == Context
  {
    match name
    case "rule" => Rule
    case "preference" => Preference
    case "pattern" => Pattern
    case "context" => Context
    case _ => Context
  }

  /** The name a caller uses for each category. */
  function CategoryName(c: MemoryCategory): string {
    match c
    case Rule => "rule"
    case Preference => "preference"
    case Pattern => "pattern"
    case Context => "context"
  }

  /** Every category is reachable by its own name. */
  lemma ParseCategoryName(c: MemoryCategory)
    ensures ParseCategory(CategoryName(c)) == c
  {
  }

  /** The category's `Debug` text in the confirmation. */
  function CategoryDebug(c: MemoryCategory): string {
    match c
    case Rule => "Rule"
    case Preference => "Preference"
    case Pattern => "Pattern"
    case Context => "Context"
  }

  const MissingContentError: string := "缺少记忆内容"

  /** The confirmation text after a memory was added. */
  function AddedText(id: string, content: string, c: MemoryCategory): string {
    "✅ 记忆已添加，ID: " + id + "\n📝 内容: " + content + "\n📂 分类: " + CategoryDebug(c)
  }

  /** `MemoryTool::jiyi`, with `pathExists` whether the project path exists. */
  function Jiyi(request: JiyiRequest, pathExists: bool, store: StoreOutcomes): (r: (Result<CallToolResult, McpError>, StoreCall))
    ensures !pathExists ==> r == (Err(InvalidParams("项目路径不存在: " + request.projectPath)), NoCall)
    ensures pathExists && store.openResult.Err? ==> r == (Err(InternalError("创建记忆管理器失败: " + store.openResult.error)), NoCall)
    ensures r.1.AddCall? <==> pathExists && store.openResult.Ok? && request.action == "记忆" && Trim(request.content) != ""
    ensures r.1.AddCall? ==> r.1 == AddCall(request.content, ParseCategory(request.category))
    ensures r.1.SummaryCall? <==> pathExists && store.openResult.Ok? && request.action == "回忆"
    ensures pathExists && store.openResult.Ok? && request.action == "记忆" && Trim(request.content) == ""
            ==> r.0 == Err(InvalidParams(MissingContentError))
    ensures pathExists && store.openResult.Ok? && request.action != "记忆" && request.action != "回忆"
            ==> r.0 == Err(InvalidParams("未知的操作类型: " + request.action + "，支持的操作: 记忆, 回忆"))
    ensures r.0.Ok? ==> r.0.value.isError == None && |r.0.value.content| == 1 && r.0.value.content[0].contentType == "text"
    ensures r.0.Ok? && r.1.AddCall? ==>
      (store.added.Ok?
       && r.0.value.content[0].text == AddedText(store.added.value, request.content, ParseCategory(request.category)))
    ensures r.0.Ok? && r.1.SummaryCall? ==> store.summary.Ok? && r.0.value.content[0].text == store.summary.value
    ensures r.0.Ok? ==> r.1 != NoCall
  {
    if !pathExists then
      (Err(InvalidParamsError("项目路径不存在: " + request.projectPath, None)), NoCall)
    else if store.openResult.Err? then
      (Err(InternalErrorError("创建记忆管理器失败: " + store.openResult.error, None)), NoCall)
    else if request.action == "记忆" then
      if Trim(request.content) == "" then
        (Err(InvalidParamsError(MissingContentError, None)), NoCall)
      else
        var category := ParseCategory(request.category);
        var call := AddCall(request.content, category);
        match store.added
        case Err(e) => (Err(InternalErrorError("添加记忆失败: " + e, None)), call)
        case Ok(id) => (Ok(Success([TextContent(AddedText(id, request.content, category))])), call)
    else if request.action == "回忆" then
      match store.summary
      case Err(e) => (Err(InternalErrorError("获取项目信息失败: " + e, None)), SummaryCall)
      case Ok(text) => (Ok(Success([TextContent(text)])), SummaryCall)
    else
      (Err(InvalidParamsError("未知的操作类型: " + request.action + "，支持的操作: 记忆, 回忆", None)), NoCall)
  }

  /** A memory of only white space is refused before the store is asked to add anything. */
  lemma BlankMemoryRefused(request: JiyiRequest, store: StoreOutcomes)
    requires request.action == "记忆" && store.openResult.Ok?
    requires forall k :: 0 <= k < |request.content| ==> IsWhitespace(request.content[k])
    ensures Jiyi(request, true, store) == (Err(InvalidParams(MissingContentError)), NoCall)
  {
    TrimEmptyIff(request.content);
  }
}
