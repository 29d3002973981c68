/**
  The MCP server: the enabled-tool switches, the tool list it advertises, the dispatch of a
  tool call after alias normalisation, the JSON-RPC request router with its result and error
  envelopes, the line-by-line stdio loop and the HTTP routes.

  What the environment supplies is an input: the configuration file as read at each call, the
  JSON parser's verdict on a line, and the two tools' own answers (modelled in the memory-tool
  and interaction modules).
*/
module Server {
  import opened Results
  import opened Strings
  import opened Json
  import opened McpTypes
  import Settings

  /** `ZhiServer`: its tool switches, cached when it was created. */
  datatype ZhiServer = ZhiServer(enabledTools: map<string, bool>)

  /** What the server's collaborators answer: the configuration file's tool switches as read
      now (an error when it cannot be loaded), the JSON parser, and the two tools. */
  datatype Services = Services(
    config: Result<map<string, bool>, string>,
    parse: string -> Result<Value, string>,
    zhi: ZhiRequest -> Result<CallToolResult, McpError>,
    jiyi: JiyiRequest -> Result<CallToolResult, McpError>)

  /** `ZhiServer::new`: the loaded switches, or "zhi" and "ji" both on when loading fails. */
  function NewServer(loaded: Result<map<string, bool>, string>): (s: ZhiServer)
    ensures loaded.Ok? ==> s.enabledTools == loaded.value
    ensures loaded.Err? ==> s.enabledTools.Keys == {"zhi", "ji"} && s.enabledTools["zhi"] && s.enabledTools["ji"]
  {
    match loaded
    case Ok(tools) => ZhiServer(tools)
    case Err(_) => ZhiServer(map["zhi" := true, "ji" := true])
  }

  /** The switches in force: the freshly read ones, or the cached ones when reading fails. */
  function Switches(server: ZhiServer, config: Result<map<string, bool>, string>): map<string, bool> {
    if config.Ok? then config.value else server.enabledTools
  }

  /** `is_tool_enabled`: the switch in force, and on for a tool it does not mention. */
  function ToolEnabled(server: ZhiServer, config: Result<map<string, bool>, string>, name: string): (r: bool)
    ensures var m := Switches(server, config); r <==> (name in m ==> m[name])
  {
    match config
    case Ok(tools) => if name in tools then tools[name] else true
    case Err(_) => if name in server.enabledTools then server.enabledTools[name] else true
  }

  /** A tool the switches do not mention counts as enabled, whether they were read now or
      cached; a server that could not load its configuration enables every tool. */
  lemma UnlistedToolEnabled(server: ZhiServer, config: Result<map<string, bool>, string>, name: string)
    requires name !in Switches(server, config)
    ensures ToolEnabled(server, config, name)
  {
  }

  lemma FallbackServerEnablesAll(loadError: string, config: Result<map<string, bool>, string>, name: string)
    requires config.Err?
    ensures ToolEnabled(NewServer(Err(loadError)), config, name)
  {
  }

  /** `get_enabled_tools`, with `order` the iteration order of the switches in force: the tools
      switched on, in that order. A tool the switches do not mention is not listed. */
  function EnabledTools(server: ZhiServer, config: Result<map<string, bool>, string>, order: seq<string>): (r: seq<string>)
    ensures Settings.IsListing(order, Switches(server, config)) ==>
      Distinct(r) && forall x :: x in r <==> x in Switches(server, config) && Switches(server, config)[x]
  {
    Settings.FilterEnabled(Switches(server, config), order)
  }

  /** Listing and querying disagree on unmentioned tools: with no switches at all nothing is
      listed as enabled, although every tool answers as enabled. */
  lemma EmptySwitchesListNothing(server: ZhiServer, config: Result<map<string, bool>, string>, name: string)
    requires Switches(server, config) == map[]
    ensures EnabledTools(server, config, []) == [] && ToolEnabled(server, config, name)
  {
  }

  /** `status`. */
  function Status(server: ZhiServer, config: Result<map<string, bool>, string>, order: seq<string>): (r: string)
    ensures |EnabledTools(server, config, order)| == 0 ==> r == "未运行 - 没有启用的工具"
    ensures |EnabledTools(server, config, order)| > 0 ==>
      r == "运行中 - " + NatToString(|EnabledTools(server, config, order)|) + " 个工具已启用"
  {
    var enabled := EnabledTools(server, config, order);
    if |enabled| == 0 then "未运行 - 没有启用的工具"
    else "运行中 - " + NatToString(|enabled|) + " 个工具已启用"
  }

  /** The server reports itself running exactly when some switch in force is on. */
  lemma StatusRunningIff(server: ZhiServer, config: Result<map<string, bool>, string>, order: seq<string>)
    requires Settings.IsListing(order, Switches(server, config))
    ensures StartsWith(Status(server, config, order), "运行中")
        <==> exists x :: x in Switches(server, config) && Switches(server, config)[x]
  {
    var enabled := EnabledTools(server, config, order);
    if |enabled| > 0 {
      assert enabled[0] in enabled;
      assert StartsWith(Status(server, config, order), "运行中");
    } else {
      assert Status(server, config, order)[0] == '未';
    }
  }

  // ---------------------------------------------------------------------------------------
  // The advertised tools

  /** `ToolInfo`. */
  datatype ToolInfo = ToolInfo(name: string, description: string, enabled: bool)

  /** The tool list for the given switch states. */
  function ToolList(zhiEnabled: bool, jiEnabled: bool): seq<ToolInfo> {
    [ToolInfo("zhi", "智能代码审查工具", zhiEnabled),
     ToolInfo("zhi_cunzhi", "智能代码审查工具 (Augment 兼容)", zhiEnabled)]
    + (if jiEnabled then [ToolInfo("ji", "记忆管理工具", true), ToolInfo("ji_cunzhi", "记忆管理工具 (Augment 兼容)", true)]
       else [])
  }

  /** `list_tools`: pushes the two names of the interaction tool, then the two names of the
      memory tool if that one is enabled. */
  method ListTools(server: ZhiServer, config: Result<map<string, bool>, string>) returns (tools: seq<ToolInfo>)
    ensures tools == ToolList(ToolEnabled(server, config, "zhi"), ToolEnabled(server, config, "ji"))
  {
    tools := [];
    tools := tools + [ToolInfo("zhi", "智能代码审查工具", ToolEnabled(server, config, "zhi"))];
    tools := tools + [ToolInfo("zhi_cunzhi", "智能代码审查工具 (Augment 兼容)", ToolEnabled(server, config, "zhi"))];
    if ToolEnabled(server, config, "ji") {
      tools := tools + [ToolInfo("ji", "记忆管理工具", true)];
      tools := tools + [ToolInfo("ji_cunzhi", "记忆管理工具 (Augment 兼容)", true)];
    }
  }

  /** The list always opens with the interaction tool under both names; the memory tool's two
      names follow exactly when it is enabled, so there are two or four entries, and every
      listed name is one `call_tool` dispatches. */
  lemma ToolListShape(zhiEnabled: bool, jiEnabled: bool)
    ensures var ts := ToolList(zhiEnabled, jiEnabled);
      |ts| == (if jiEnabled then 4 else 2)
      && ts[0].name == "zhi" && ts[1].name == "zhi_cunzhi"
      && (jiEnabled ==> ts[2].name == "ji" && ts[3].name == "ji_cunzhi")
      && (forall i :: 0 <= i < |ts| ==> NormalizeToolName(ts[i].name) == "zhi" || NormalizeToolName(ts[i].name) == "ji")
      && ((exists i :: 0 <= i < |ts| && NormalizeToolName(ts[i].name) == "ji") <==> jiEnabled)
  {
    var ts := ToolList(zhiEnabled, jiEnabled);
    if jiEnabled {
      assert NormalizeToolName(ts[2].name) == "ji";
    }
  }

  // ---------------------------------------------------------------------------------------
  // Tool calls

  /** The alias names used by Augment map to the tools' own names. */
  function NormalizeToolName(name: string): (r: string)
    ensures r == "zhi" <==> name == "zhi" || name == "zhi_cunzhi"
    ensures r == "ji" <==> name == "ji" || name == "ji_cunzhi"
    ensures name != "zhi_cunzhi" && name != "ji_cunzhi" ==> r == name
  {
    if name == "zhi_cunzhi" then "zhi"
    else if name == "ji_cunzhi" then "ji"
    else name
  }

  /** Normalising twice is normalising once. */
  lemma NormalizeIdempotent(name: string)
    ensures NormalizeToolName(NormalizeToolName(name)) == NormalizeToolName(name)
  {
  }

  /** `call_tool`. */
  function CallTool(server: ZhiServer, services: Services, toolName: string, arguments: Value)
    : (r: Result<CallToolResult, McpError>)
    ensures var n := NormalizeToolName(toolName);
      n != "zhi" && n != "ji" ==> r == Err(MethodNotFound("未知的工具: " + toolName + " (标准化后: " + n + ")"))
    ensures NormalizeToolName(toolName) == "ji" && !ToolEnabled(server, services.config, "ji") ==>
      r == Err(InternalError("记忆管理工具已被禁用"))
    ensures NormalizeToolName(toolName) == "zhi" && DecodeZhiRequest(arguments).Err? ==>
      r == Err(InvalidParams("参数解析失败: " + DecodeErrorText(DecodeZhiRequest(arguments).error)))
    ensures NormalizeToolName(toolName) == "zhi" && DecodeZhiRequest(arguments).Ok? ==>
      r == services.zhi(DecodeZhiRequest(arguments).value)
    ensures NormalizeToolName(toolName) == "ji" && ToolEnabled(server, services.config, "ji") ==>
      r == match DecodeJiyiRequest(arguments)
           case Err(e) => Err(InvalidParams("参数解析失败: " + DecodeErrorText(e)))
           case Ok(q) => services.jiyi(q)
  {
    var normalized := NormalizeToolName(toolName);
    if normalized == "zhi" then
      match DecodeZhiRequest(arguments)
      case Err(e) => Err(InvalidParamsError("参数解析失败: " + DecodeErrorText(e), None))
      case Ok(request) => services.zhi(request)
    else if normalized == "ji" then
      if !ToolEnabled(server, services.config, "ji") then
        Err(InternalErrorError("记忆管理工具已被禁用", None))
      else
        match DecodeJiyiRequest(arguments)
        case Err(e) => Err(InvalidParamsError("参数解析失败: " + DecodeErrorText(e), None))
        case Ok(request) => services.jiyi(request)
    else
      Err(InvalidRequestError("未知的工具: " + toolName + " (标准化后: " + normalized + ")", None))
  }

  /** A call under an alias is the same call as under the tool's own name. */
  lemma AliasCallsAgree(server: ZhiServer, services: Services, arguments: Value)
    ensures CallTool(server, services, "zhi_cunzhi", arguments) == CallTool(server, services, "zhi", arguments)
    ensures CallTool(server, services, "ji_cunzhi", arguments) == CallTool(server, services, "ji", arguments)
  {
  }

  /** A disabled memory tool refuses every call, whatever its arguments, before they are read. */
  lemma DisabledMemoryToolRefuses(server: ZhiServer, services: Services, a1: Value, a2: Value)
    requires !ToolEnabled(server, services.config, "ji")
    ensures CallTool(server, services, "ji", a1) == CallTool(server, services, "ji_cunzhi", a2)
    ensures CallTool(server, services, "ji", a1).Err? && CallTool(server, services, "ji", a1).error.InternalError?
  {
  }

  // ---------------------------------------------------------------------------------------
  // JSON-RPC

  const ProtocolVersion: string := "2024-11-05"

  /** The `initialize` result. */
  const InitializeResult: Value := Object(map[
    "protocolVersion" := Str(ProtocolVersion),
    "capabilities" := Object(map["tools" := EmptyObject]),
    "serverInfo" := Object(map["name" := Str("cunzhi-cli"), "version" := Str(Settings.PackageVersion)])])

  function Prop(typ: string, description: string): Value {
    Object(map["type" := Str(typ), "description" := Str(description)])
  }

  function PropWithDefault(typ: string, description: string, default: bool): Value {
    Object(map["type" := Str(typ), "description" := Str(description), "default" := Bool(default)])
  }

  function Schema(properties: map<string, Value>, required: seq<string>): Value {
    Object(map["type" := Str("object"), "properties" := Object(properties), "required" := StrArray(required)])
  }

  /** The interaction tool's input schema. */
  const ZhiSchema: Value := Schema(map[
    "message" := Prop("string", "要显示给用户的消息"),
    "predefined_options" := Object(map["type" := Str("array"), "items" := Object(map["type" := Str("string")]),
                                       "description" := Str("预定义的选项列表（可选）")]),
    "is_markdown" := PropWithDefault("boolean", "消息是否为Markdown格式，默认为true", true),
    "terminal_mode" := PropWithDefault("boolean", "是否在新终端窗口中启动交互，默认为false", false)],
    ["message"])

  /** The memory tool's input schema. */
  const JiSchema: Value := Schema(map[
    "action" := Object(map["type" := Str("string"), "description" := Str("操作类型：记忆(添加记忆), 回忆(获取项目信息)"),
                           "enum" := StrArray(["记忆", "回忆"])]),
    "project_path" := Prop("string", "项目路径（必需）"),
    "content" := Prop("string", "记忆内容（记忆操作时必需）"),
    "category" := Object(map["type" := Str("string"),
                             "description" := Str("记忆分类：rule(规范规则), preference(用户偏好), pattern(最佳实践), context(项目上下文)"),
                             "enum" := StrArray(["rule", "preference", "pattern", "context"]),
                             "default" := Str("context")])],
    ["action", "project_path"])

  /** The input schema advertised for a tool name. */
  function InputSchema(name: string): (v: Value)
    ensures v.Object? && Get(v, "type") == Str("object")
    ensures NormalizeToolName(name) == "zhi" ==> Get(v, "required") == StrArray(["message"])
    ensures NormalizeToolName(name) == "ji" ==> Get(v, "required") == StrArray(["action", "project_path"])
    ensures NormalizeToolName(name) != "zhi" && NormalizeToolName(name) != "ji" ==>
      Get(v, "required") == StrArray([]) && Get(v, "properties") == EmptyObject
  {
    if name == "zhi" || name == "zhi_cunzhi" then ZhiSchema
    else if name == "ji" || name == "ji_cunzhi" then JiSchema
    else Schema(map[], [])
  }

  /** One entry of the `tools/list` result; the enabled flag is not sent. */
  function ToolJson(t: ToolInfo): Value {
    Object(map["name" := Str(t.name), "description" := Str(t.description), "inputSchema" := InputSchema(t.name)])
  }

  function ToolsJson(ts: seq<ToolInfo>): (v: Value)
    ensures v.Array? && |v.items| == |ts| && forall i :: 0 <= i < |ts| ==> v.items[i] == ToolJson(ts[i])
  {
    Array(seq(|ts|, i requires 0 <= i < |ts| => ToolJson(ts[i])))
  }

  /** `{"jsonrpc": "2.0", "result": …, "id": …}`. */
  function ResultEnvelope(result: Value, id: Value): Value {
    Object(map["jsonrpc" := Str("2.0"), "result" := result, "id" := id])
  }

  /** The reply for a failed request: code -32000, the message, and a null id. */
  function ErrorEnvelope(message: string): Value {
    Object(map["jsonrpc" := Str("2.0"), "error" := Object(map["code" := Number(-32000), "message" := Str(message)]),
               "id" := Null])
  }

  /** The request's method name; a missing or non-string method is "". */
  function MethodOf(req: Value): string {
    AsStr(Get(req, "method")).GetOr("")
  }

  /** The result of the routed method, or the error that ends the request. */
  function MethodResult(server: ZhiServer, services: Services, req: Value): Result<Value, string> {
    var rpcMethod := MethodOf(req);
    var params := Get(req, "params");
    if rpcMethod == "initialize" then Ok(InitializeResult)
    else if rpcMethod == "tools/list" then
      Ok(Object(map["tools" := ToolsJson(ToolList(ToolEnabled(server, services.config, "zhi"),
                                                  ToolEnabled(server, services.config, "ji")))]))
    else if rpcMethod == "tools/call" then
      match CallTool(server, services, AsStr(Get(params, "name")).GetOr(""), Get(params, "arguments"))
      case Ok(result) => Ok(Object(map["content" := ContentListJson(result.content)]))
      case Err(e) => Err("工具调用失败: " + McpErrorText(e))
    else Err("未知方法: " + rpcMethod)
  }

  /** `handle_jsonrpc_request`: the response document, or the error message. */
  function HandleJsonRpcRequest(server: ZhiServer, services: Services, request: string): (r: Result<Value, string>)
    ensures services.parse(request).Err? ==> r == Err("JSON 解析失败: " + services.parse(request).error)
    ensures services.parse(request).Ok? ==>
      var req := services.parse(request).value;
      var rpcMethod := MethodOf(req);
      (r.Ok? ==> (rpcMethod == "initialize" || rpcMethod == "tools/list" || rpcMethod == "tools/call")
                 && r.value.Object? && Get(r.value, "jsonrpc") == Str("2.0") && Get(r.value, "id") == Get(req, "id")
                 && "result" in r.value.fields && "error" !in r.value.fields)
      && (rpcMethod != "initialize" && rpcMethod != "tools/list" && rpcMethod != "tools/call" ==> r == Err("未知方法: " + rpcMethod))
  {
    match services.parse(request)
    case Err(e) => Err("JSON 解析失败: " + e)
    case Ok(req) =>
      match MethodResult(server, services, req)
      case Ok(result) => Ok(ResultEnvelope(result, Get(req, "id")))
      case Err(e) => Err(e)
  }

  /** `initialize` answers with protocol version 2024-11-05, echoing the request's id. */
  lemma InitializeAnswer(server: ZhiServer, services: Services, request: string)
    requires services.parse(request).Ok? && MethodOf(services.parse(request).value) == "initialize"
    ensures var r := HandleJsonRpcRequest(server, services, request);
      r.Ok? && Get(Get(r.value, "result"), "protocolVersion") == Str(ProtocolVersion)
      && Get(r.value, "id") == Get(services.parse(request).value, "id")
  {
  }

  /** A successful tool call sends only the content: the tool's error flag is not passed on. */
  lemma ToolCallSendsContentOnly(server: ZhiServer, services: Services, request: string)
    requires services.parse(request).Ok? && MethodOf(services.parse(request).value) == "tools/call"
    ensures var req := services.parse(request).value;
      var params := Get(req, "params");
      var call := CallTool(server, services, AsStr(Get(params, "name")).GetOr(""), Get(params, "arguments"));
      var r := HandleJsonRpcRequest(server, services, request);
      (call.Ok? ==> r == Ok(ResultEnvelope(Object(map["content" := ContentListJson(call.value.content)]), Get(req, "id"))))
      && (call.Err? ==> r == Err("工具调用失败: " + McpErrorText(call.error)))
  {
  }

  // ---------------------------------------------------------------------------------------
  // The stdio loop

  /** The line written for one non-blank input line: the response, or the error envelope. */
  function LineResponse(server: ZhiServer, services: Services, line: string): (v: Value)
    ensures v.Object? && Get(v, "jsonrpc") == Str("2.0")
    ensures "error" in v.fields ==> Get(Get(v, "error"), "code") == Number(-32000) && Get(v, "id") == Null
    ensures HandleJsonRpcRequest(server, services, line).Err? ==> v == ErrorEnvelope(HandleJsonRpcRequest(server, services, line).error)
    ensures HandleJsonRpcRequest(server, services, line).Ok? ==> v == HandleJsonRpcRequest(server, services, line).value
  {
    match HandleJsonRpcRequest(server, services, line)
    case Ok(response) => response
    case Err(e) => ErrorEnvelope(e)
  }


  /** The world the stdio loop runs in, with `S` its state: `services(st)` is what the
      collaborators answer in state `st` (the configuration file as it reads then, the tools'
      answers given the memory store then), and `effect(st, line)` is the state once the line
      has been answered (a memory a line added, a configuration file changed meanwhile). The
      loop itself keeps nothing from one line to the next. */
  datatype World<!S> = World(services: S -> Services, effect: (S, string) -> S)

  /** The state of the world after the lines read: every answered line leaves its effect, a
      blank line or a failed read leaves none. */
  function StateAfter<S>(world: World<S>, start: S, lines: seq<Result<string, string>>): S {
    if lines == [] then start
    else
      var last := lines[|lines| - 1];
      var before := StateAfter(world, start, lines[..|lines| - 1]);
      if last.Err? || Blank(last.value) then before else world.effect(before, last.value)
  }

  /** The lines answered, in order, each with the state of the world it is answered in: every
      line read except the blank ones and the failed reads. */
  function Answered<S>(world: World<S>, start: S, lines: seq<Result<string, string>>): seq<(S, string)> {
    if lines == [] then []
    else
      var last := lines[|lines| - 1];
      Answered(world, start, lines[..|lines| - 1])
      + (if last.Err? || Blank(last.value) then [] else [(StateAfter(world, start, lines[..|lines| - 1]), last.value)])
  }

  /** The lines written for the lines read, in order: for every answered line its answer in
      the state the lines before it left. */
  function Responses<S>(server: ZhiServer, world: World<S>, start: S, lines: seq<Result<string, string>>): (r: seq<Value>)
    ensures var p := Answered(world, start, lines);
      |r| == |p| && forall i :: 0 <= i < |p| ==> r[i] == LineResponse(server, world.services(p[i].0), p[i].1)
  {
    var p := Answered(world, start, lines);
    seq(|p|, i requires 0 <= i < |p| => LineResponse(server, world.services(p[i].0), p[i].1))
  }

  lemma {:induction false} AnsweredAppend<S>(world: World<S>, start: S,
                                             a: seq<Result<string, string>>, b: seq<Result<string, string>>)
    ensures StateAfter(world, start, a + b) == StateAfter(world, StateAfter(world, start, a), b)
    ensures Answered(world, start, a + b) == Answered(world, start, a) + Answered(world, StateAfter(world, start, a), b)
    decreases |b|
  {
    if b == [] {
      assert a + b == a;
    } else {
      var init := b[..|b| - 1];
      assert (a + b)[..|a + b| - 1] == a + init;
      assert (a + b)[|a + b| - 1] == b[|b| - 1];
      AnsweredAppend(world, start, a, init);
    }
  }

  /** The loop carries nothing but the world from one stretch of input to the next: the
      replies to `a + b` are the replies to `a`, then the replies `b` gets in a run started in
      the state `a` left. */
  lemma ResponsesAppend<S>(server: ZhiServer, world: World<S>, start: S,
                           a: seq<Result<string, string>>, b: seq<Result<string, string>>)
    ensures StateAfter(world, start, a + b) == StateAfter(world, StateAfter(world, start, a), b)
    ensures Responses(server, world, start, a + b)
         == Responses(server, world, start, a) + Responses(server, world, StateAfter(world, start, a), b)
  {
    AnsweredAppend(world, start, a, b);
  }

  /** One non-blank line gets exactly one reply; a blank one gets none and changes nothing. */
  lemma SingleLineResponse<S>(server: ZhiServer, world: World<S>, start: S, line: string)
    ensures Blank(line) ==> Responses(server, world, start, [Result<string, string>.Ok(line)]) == []
                            && StateAfter(world, start, [Result<string, string>.Ok(line)]) == start
    ensures !Blank(line) ==> Responses(server, world, start, [Result<string, string>.Ok(line)])
                             == [LineResponse(server, world.services(start), line)]
                             && StateAfter(world, start, [Result<string, string>.Ok(line)]) == world.effect(start, line)
  {
    var one: seq<Result<string, string>> := [Ok(line)];
    assert one[..0] == [];
    assert Answered(world, start, one) == if Blank(line) then [] else [(start, line)];
  }

  /** The second of two requests is answered in the world the first one left: a memory the
      first line stored is there for the second, and the configuration is read again. */
  lemma SecondLineSeesFirst<S>(server: ZhiServer, world: World<S>, start: S, first: string, second: string)
    requires !Blank(first) && !Blank(second)
    ensures Responses(server, world, start, [Ok(first), Ok(second)])
         == [LineResponse(server, world.services(start), first),
             LineResponse(server, world.services(world.effect(start, first)), second)]
  {
    var two: seq<Result<string, string>> := [Ok(first), Ok(second)];
    assert two == [Ok(first)] + [Ok(second)];
    ResponsesAppend(server, world, start, [Ok(first)], [Ok(second)]);
    SingleLineResponse(server, world, start, first);
    SingleLineResponse(server, world, world.effect(start, first), second);
  }

  lemma ResponsesSnoc<S>(server: ZhiServer, world: World<S>, start: S, lines: seq<Result<string, string>>, i: nat)
    requires i < |lines| && lines[i].Ok?
    ensures var before := StateAfter(world, start, lines[..i]);
      Responses(server, world, start, lines[..i + 1])
      == Responses(server, world, start, lines[..i])
         + (if Blank(lines[i].value) then [] else [LineResponse(server, world.services(before), lines[i].value)])
      && StateAfter(world, start, lines[..i + 1])
         == if Blank(lines[i].value) then before else world.effect(before, lines[i].value)
  {
    assert lines[..i + 1][..i] == lines[..i];
  }

  /** One pass of the loop over a non-blank line: the response, or the error envelope. */
  method RespondTo(server: ZhiServer, services: Services, line: string) returns (v: Value)
    ensures v == LineResponse(server, services, line)
  {
    match HandleJsonRpcRequest(server, services, line)
    case Ok(response) =>
      v := response;
    case Err(e) =>
      v := ErrorEnvelope(e);
  }

  /** One pass of the loop: a line whose trimmed text is empty is skipped, any other is
      answered with what the world offers now, and the world then moves on. */
  method Step<S>(server: ZhiServer, world: World<S>, start: S, lines: seq<Result<string, string>>, i: nat,
                 output: seq<Value>, state: S)
    returns (next: seq<Value>, nextState: S)
    requires i < |lines| && lines[i].Ok?
    requires output == Responses(server, world, start, lines[..i])
    requires state == StateAfter(world, start, lines[..i])
    ensures next == Responses(server, world, start, lines[..i + 1])
    ensures nextState == StateAfter(world, start, lines[..i + 1])
  {
    ResponsesSnoc(server, world, start, lines, i);
    BlankIffTrimmedEmpty(lines[i].value);
    next, nextState := output, state;
    if Trim(lines[i].value) != "" {
      var response := RespondTo(server, world.services(state), lines[i].value);
      next := output + [response];
      nextState := world.effect(state, lines[i].value);
    }
  }

  /** `run_mcp_protocol` over the lines read from standard input (`Err` for a failed read,
      which ends the loop with that error), starting in state `start`. */
  method RunMcpProtocol<S>(server: ZhiServer, world: World<S>, start: S, lines: seq<Result<string, string>>)
    returns (output: seq<Value>, r: Result<Unit, string>, read: nat, final: S)
    ensures read <= |lines| && (forall k :: 0 <= k < read ==> lines[k].Ok?)
    ensures output == Responses(server, world, start, lines[..read])
    ensures final == StateAfter(world, start, lines[..read])
    ensures r.Ok? ==> read == |lines|
    ensures r.Err? ==> read < |lines| && lines[read] == Err(r.error)
  {
    output, final := [], start;
    read := 0;
    while read < |lines|
      invariant read <= |lines| && forall k :: 0 <= k < read ==> lines[k].Ok?
      invariant output == Responses(server, world, start, lines[..read])
      invariant final == StateAfter(world, start, lines[..read])
    {
      var line := lines[read];
      if line.Err? {
        return output, Err(line.error), read, final;
      }
      output, final := Step(server, world, start, lines, read, output, final);
      read := read + 1;
    }
    r := Ok(Unit);
  }

  /** How the server was asked to run; the HTTP mode also serves standard input. */
  datatype ServerMode = Stdio | Http(port: nat)

  /** `start_with_mode`: refuses to start when no switch in force at start-up is on, then runs
      the stdio loop in either mode. `order` is the iteration order of those switches. */
  method StartWithMode<S>(server: ZhiServer, world: World<S>, start: S, order: seq<string>, mode: ServerMode,
                          lines: seq<Result<string, string>>)
    returns (output: seq<Value>, r: Result<Unit, string>, read: nat, final: S)
    requires Settings.IsListing(order, Switches(server, world.services(start).config))
    ensures EnabledTools(server, world.services(start).config, order) == []
        <==> forall x :: x in Switches(server, world.services(start).config) ==> !Switches(server, world.services(start).config)[x]
    ensures EnabledTools(server, world.services(start).config, order) == [] ==>
      output == [] && r == Err("没有启用的 MCP 工具") && read == 0 && final == start
    ensures EnabledTools(server, world.services(start).config, order) != [] ==>
      read <= |lines| && (forall k :: 0 <= k < read ==> lines[k].Ok?)
      && output == Responses(server, world, start, lines[..read])
      && final == StateAfter(world, start, lines[..read])
      && (r.Ok? ==> read == |lines|)
      && (r.Err? ==> read < |lines| && lines[read] == Err(r.error))
  {
    var enabled := EnabledTools(server, world.services(start).config, order);
    if enabled != [] {
      assert enabled[0] in enabled;
    }
    if enabled == [] {
      return [], Err("没有启用的 MCP 工具"), 0, start;
    }
    output, r, read, final := RunMcpProtocol(server, world, start, lines);
  }

  // ---------------------------------------------------------------------------------------
  // HTTP routes

  datatype HttpMethod = GET | POST | OPTIONS | OtherMethod(name: string)

  /** The request body as read: reading failed, it is not UTF-8, or its text. */
  datatype RequestBody = BodyReadFailed | BodyNotUtf8 | BodyText(text: string)

  datatype HttpBody = TextBody(text: string) | JsonBody(json: Value) | NoBody

  datatype HttpResponse = HttpResponse(status: nat, headers: seq<(string, string)>, body: HttpBody)

  const CorsHeaders: seq<(string, string)> := [
    ("Access-Control-Allow-Origin", "*"),
    ("Access-Control-Allow-Methods", "POST, OPTIONS"),
    ("Access-Control-Allow-Headers", "Content-Type")]

  /** `handle_http_request`; `order` is the switches' iteration order for the health report. */
  function HandleHttpRequest(server: ZhiServer, services: Services, order: seq<string>,
                             httpMethod: HttpMethod, path: string, body: RequestBody): (r: HttpResponse)
    ensures r.status == 200 || r.status == 400 || r.status == 404 || r.status == 500
    ensures r.status == 404 <==> !(path == "/mcp" && (httpMethod == POST || httpMethod == OPTIONS)) && !(path == "/health" && httpMethod == GET)
    ensures r.status == 400 <==> path == "/mcp" && httpMethod == POST && !body.BodyText?
    ensures httpMethod == POST && path == "/mcp" && body.BodyText? ==>
      (r.status == 200 <==> HandleJsonRpcRequest(server, services, body.text).Ok?)
      && (r.status == 500 ==> r.body == JsonBody(ErrorEnvelope(HandleJsonRpcRequest(server, services, body.text).error)))
    ensures httpMethod == OPTIONS && path == "/mcp" ==> r.status == 200 && r.headers == CorsHeaders && r.body == NoBody
  {
    if httpMethod == POST && path == "/mcp" then
      match body
      case BodyReadFailed => HttpResponse(400, [], TextBody("Failed to read request body"))
      case BodyNotUtf8 => HttpResponse(400, [], TextBody("Invalid UTF-8 in request body"))
      case BodyText(text) =>
        match HandleJsonRpcRequest(server, services, text)
        case Ok(response) => HttpResponse(200, [("Content-Type", "application/json")] + CorsHeaders, JsonBody(response))
        case Err(e) => HttpResponse(500, [("Content-Type", "application/json")], JsonBody(ErrorEnvelope(e)))
    else if httpMethod == OPTIONS && path == "/mcp" then
      HttpResponse(200, CorsHeaders, NoBody)
    else if httpMethod == GET && path == "/health" then
      HttpResponse(200, [("Content-Type", "application/json")], JsonBody(Object(map[
        "status" := Str("healthy"),
        "server" := Str("cunzhi-cli MCP Server"),
        "version" := Str(Settings.PackageVersion),
        "tools" := StrArray(EnabledTools(server, services.config, order))])))
    else
      HttpResponse(404, [], TextBody("Not Found"))
  }

  /** The health report lists exactly the tools switched on. */
  lemma HealthListsEnabledTools(server: ZhiServer, services: Services, order: seq<string>, body: RequestBody)
    requires Settings.IsListing(order, Switches(server, services.config))
    ensures var r := HandleHttpRequest(server, services, order, GET, "/health", body);
      r.status == 200 && r.body.JsonBody?
      && var tools := Get(r.body.json, "tools");
         tools.Array?
         && forall x :: Str(x) in tools.items <==> x in Switches(server, services.config) && Switches(server, services.config)[x]
  {
    var enabled := EnabledTools(server, services.config, order);
    var tools := StrArray(enabled);
    forall x ensures Str(x) in tools.items <==> x in enabled {
      if Str(x) in tools.items {
        var i :| 0 <= i < |tools.items| && tools.items[i] == Str(x);
        assert enabled[i] == x;
      }
      if x in enabled {
        var i :| 0 <= i < |enabled| && enabled[i] == x;
        assert tools.items[i] == Str(x);
      }
    }
  }
}
