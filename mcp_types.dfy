/**
  The MCP request and response types: the two tool requests with their serde defaults,
  text content, tool-call results, the three MCP error kinds with their messages, and the
  structured reply document built for the "continue" answer.
*/
module McpTypes {
  import opened Results
  import opened Strings
  import Json

  /**
    Why serde refused to build a request struct from a JSON value.
    `NotAStruct` is a value that is neither an object nor an array, `MissingField` a required
    member that is absent, `InvalidType` a member (or array item) of the wrong JSON type, and
    `InvalidLength` an array with too few items for the required fields or too many items.
  */
  datatype DecodeError = NotAStruct | MissingField(field: string) | InvalidType(field: string)
                       | InvalidLength(length: nat, expected: string)

  /** The message serde gives for a decode error (its missing-field and length wording). */
  function DecodeErrorText(e: DecodeError): string {
    match e
    case NotAStruct => "invalid type: expected struct"
    case MissingField(f) => "missing field `" + f + "`"
    case InvalidType(f) => "invalid type for field `" + f + "`"
    case InvalidLength(n, expected) => "invalid length " + NatToString(n) + ", expected " + expected
  }

  /** A JSON array whose every item is a string: what a `Vec<String>` accepts. */
  predicate IsStringArray(v: Json.Value) {
    v.Array? && forall i :: 0 <= i < |v.items| ==> v.items[i].Str?
  }

  /** The strings of a string array. */
  function StringItems(v: Json.Value): (r: seq<string>)
    requires IsStringArray(v)
    ensures |r| == |v.items| && forall i :: 0 <= i < |r| ==> v.items[i] == Json.Str(r[i])
  {
    seq(|v.items|, i requires 0 <= i < |v.items| => v.items[i].s)
  }

  /** What an `Option<bool>` accepts: a boolean, or null for `None`. */
  predicate IsOptionalBool(v: Json.Value) {
    v.Bool? || v.Null?
  }

  function OptionalBool(v: Json.Value): Option<bool>
    requires IsOptionalBool(v)
  {
    if v.Null? then None else Some(v.b)
  }

  /** `ask_user` request: the message, optional predefined answers, whether the message is
      Markdown, and whether to ask in a separate terminal window. */
  datatype ZhiRequest = ZhiRequest(
    message: string,
    predefinedOptions: seq<string>,
    isMarkdown: bool,
    terminalMode: Option<bool>)

  const ZhiArity: string := "struct ZhiRequest with 4 elements"
  const FewerItems: string := "fewer elements in array"

  /** The members of a `ZhiRequest` object are of the right types. */
  predicate ZhiMembersTyped(f: map<string, Json.Value>) {
    ("is_markdown" in f ==> f["is_markdown"].Bool?) && ("message" in f ==> f["message"].Str?)
    && ("predefined_options" in f ==> IsStringArray(f["predefined_options"]))
    && ("terminal_mode" in f ==> IsOptionalBool(f["terminal_mode"]))
  }

  /** The items of a positional `ZhiRequest` are of the right types. */
  predicate ZhiItemsTyped(a: seq<Json.Value>) {
    (|a| > 0 ==> a[0].Str?) && (|a| > 1 ==> IsStringArray(a[1])) && (|a| > 2 ==> a[2].Bool?)
    && (|a| > 3 ==> IsOptionalBool(a[3]))
  }

  /**
    serde `Deserialize` for `ZhiRequest` from a `serde_json::Value`. An object's members are
    visited in the map's key order (sorted: `is_markdown`, `message`, `predefined_options`,
    `terminal_mode`), so the first wrong-typed member in that order is reported, and a missing
    `message` only after all of them; unknown members are ignored. An array gives the fields by
    position in declaration order. Absent options, `is_markdown` and `terminal_mode` take no
    options, true and `Some(false)`; an explicit null terminal mode is `None`.
  */
  function DecodeZhiRequest(v: Json.Value): (r: Result<ZhiRequest, DecodeError>)
    ensures !v.Object? && !v.Array? ==> r == Err(NotAStruct)
    ensures v.Object? ==> (r.Ok? <==> ZhiMembersTyped(v.fields) && "message" in v.fields)
    ensures v.Object? && "is_markdown" in v.fields && !v.fields["is_markdown"].Bool? ==> r == Err(InvalidType("is_markdown"))
    ensures v.Object? && ZhiMembersTyped(v.fields) && "message" !in v.fields ==> r == Err(MissingField("message"))
    ensures r.Ok? && v.Object? ==>
      var f := v.fields;
      f["message"] == Json.Str(r.value.message)
      && r.value.predefinedOptions == (if "predefined_options" in f then StringItems(f["predefined_options"]) else [])
      && r.value.isMarkdown == (if "is_markdown" in f then f["is_markdown"].b else true)
      && r.value.terminalMode == (if "terminal_mode" in f then OptionalBool(f["terminal_mode"]) else Some(false))
    ensures v.Array? ==> (r.Ok? <==> 1 <= |v.items| <= 4 && ZhiItemsTyped(v.items))
    ensures v.Array? && v.items == [] ==> r == Err(InvalidLength(0, ZhiArity))
    ensures v.Array? && |v.items| > 4 && ZhiItemsTyped(v.items) ==> r == Err(InvalidLength(|v.items|, FewerItems))
    ensures r.Ok? && v.Array? ==>
      var a := v.items;
      a[0] == Json.Str(r.value.message)
      && r.value.predefinedOptions == (if |a| > 1 then StringItems(a[1]) else [])
      && r.value.isMarkdown == (if |a| > 2 then a[2].b else true)
      && r.value.terminalMode == (if |a| > 3 then OptionalBool(a[3]) else Some(false))
  {
    if v.Object? then
      var f := v.fields;
      if "is_markdown" in f && !f["is_markdown"].Bool? then Err(InvalidType("is_markdown"))
      else if "message" in f && !f["message"].Str? then Err(InvalidType("message"))
      else if "predefined_options" in f && !IsStringArray(f["predefined_options"]) then Err(InvalidType("predefined_options"))
      else if "terminal_mode" in f && !IsOptionalBool(f["terminal_mode"]) then Err(InvalidType("terminal_mode"))
      else if "message" !in f then Err(MissingField("message"))
      else
        Ok(ZhiRequest(
          f["message"].s,
          if "predefined_options" in f then StringItems(f["predefined_options"]) else [],
          if "is_markdown" in f then f["is_markdown"].b else true,
          if "terminal_mode" in f then OptionalBool(f["terminal_mode"]) else Some(false)))
    else if v.Array? then
      var a := v.items;
      if |a| == 0 then Err(InvalidLength(0, ZhiArity))
      else if !a[0].Str? then Err(InvalidType("message"))
      else if |a| > 1 && !IsStringArray(a[1]) then Err(InvalidType("predefined_options"))
      else if |a| > 2 && !a[2].Bool? then Err(InvalidType("is_markdown"))
      else if |a| > 3 && !IsOptionalBool(a[3]) then Err(InvalidType("terminal_mode"))
      else if |a| > 4 then Err(InvalidLength(|a|, FewerItems))
      else
        Ok(ZhiRequest(
          a[0].s,
          if |a| > 1 then StringItems(a[1]) else [],
          if |a| > 2 then a[2].b else true,
          if |a| > 3 then OptionalBool(a[3]) else Some(false)))
    else Err(NotAStruct)
  }

  /** serde `Serialize` for `ZhiRequest`. */
  function ZhiRequestJson(z: ZhiRequest): Json.Value {
    Json.Object(map[
      "message" := Json.Str(z.message),
      "predefined_options" := Json.StrArray(z.predefinedOptions),
      "is_markdown" := Json.Bool(z.isMarkdown),
      "terminal_mode" := match z.terminalMode case Some(b) => Json.Bool(b) case None => Json.Null])
  }

  /** The request's fields as a positional array, in declaration order. */
  function ZhiRequestArray(z: ZhiRequest): Json.Value {
    Json.Array([Json.Str(z.message), Json.StrArray(z.predefinedOptions), Json.Bool(z.isMarkdown),
                match z.terminalMode case Some(b) => Json.Bool(b) case None => Json.Null])
  }

  /** Decoding what serialising wrote gives the request back, and so does decoding its
      fields as an array. */
  lemma {:induction false} ZhiRequestRoundTrip(z: ZhiRequest)
    ensures DecodeZhiRequest(ZhiRequestJson(z)) == Ok(z)
    ensures DecodeZhiRequest(ZhiRequestArray(z)) == Ok(z)
  {
    var options := Json.StrArray(z.predefinedOptions);
    assert IsStringArray(options);
    assert StringItems(options) == z.predefinedOptions;
  }

  /** A request holding only a message gets every default, as an object or as an array. */
  lemma ZhiRequestDefaults(message: string)
    ensures DecodeZhiRequest(Json.Object(map["message" := Json.Str(message)]))
         == Ok(ZhiRequest(message, [], true, Some(false)))
    ensures DecodeZhiRequest(Json.Array([Json.Str(message)])) == Ok(ZhiRequest(message, [], true, Some(false)))
  {
  }

  /** Memory-tool request: the action ("记忆" to add, "回忆" to recall), the project path,
      the memory text and its category. */
  datatype JiyiRequest = JiyiRequest(action: string, projectPath: string, content: string, category: string)

  /** The category used when a request names none. */
  const DefaultCategory: string := "context"

  const JiyiArity: string := "struct JiyiRequest with 4 elements"

  /** The members of a `JiyiRequest` object are all strings. */
  predicate JiyiMembersTyped(f: map<string, Json.Value>) {
    ("action" in f ==> f["action"].Str?) && ("category" in f ==> f["category"].Str?)
    && ("content" in f ==> f["content"].Str?) && ("project_path" in f ==> f["project_path"].Str?)
  }

  /**
    serde `Deserialize` for `JiyiRequest`. An object's members are visited in sorted key order
    (`action`, `category`, `content`, `project_path`) and the first wrong-typed one is
    reported; then a missing `action`, then a missing `project_path`. An array gives action,
    project path, content and category by position. `content` defaults to "" and `category`
    to "context".
  */
  function DecodeJiyiRequest(v: Json.Value): (r: Result<JiyiRequest, DecodeError>)
    ensures !v.Object? && !v.Array? ==> r == Err(NotAStruct)
    ensures v.Object? ==> (r.Ok? <==> JiyiMembersTyped(v.fields) && "action" in v.fields && "project_path" in v.fields)
    ensures v.Object? && "action" in v.fields && !v.fields["action"].Str? ==> r == Err(InvalidType("action"))
    ensures v.Object? && JiyiMembersTyped(v.fields) && "action" !in v.fields ==> r == Err(MissingField("action"))
    ensures v.Object? && JiyiMembersTyped(v.fields) && "action" in v.fields && "project_path" !in v.fields
            ==> r == Err(MissingField("project_path"))
    ensures r.Ok? && v.Object? ==>
      var f := v.fields;
      f["action"] == Json.Str(r.value.action) && f["project_path"] == Json.Str(r.value.projectPath)
      && r.value.content == (if "content" in f then f["content"].s else "")
      && r.value.category == (if "category" in f then f["category"].s else DefaultCategory)
    ensures v.Array? ==> (r.Ok? <==> 2 <= |v.items| <= 4 && forall i :: 0 <= i < |v.items| ==> v.items[i].Str?)
    ensures v.Array? && |v.items| < 2 && (forall i :: 0 <= i < |v.items| ==> v.items[i].Str?)
            ==> r == Err(InvalidLength(|v.items|, JiyiArity))
    ensures r.Ok? && v.Array? ==>
      var a := v.items;
      r.value == JiyiRequest(a[0].s, a[1].s, if |a| > 2 then a[2].s else "", if |a| > 3 then a[3].s else DefaultCategory)
  {
    if v.Object? then
      var f := v.fields;
      if "action" in f && !f["action"].Str? then Err(InvalidType("action"))
      else if "category" in f && !f["category"].Str? then Err(InvalidType("category"))
      else if "content" in f && !f["content"].Str? then Err(InvalidType("content"))
      else if "project_path" in f && !f["project_path"].Str? then Err(InvalidType("project_path"))
      else if "action" !in f then Err(MissingField("action"))
      else if "project_path" !in f then Err(MissingField("project_path"))
      else
        Ok(JiyiRequest(f["action"].s, f["project_path"].s,
                       if "content" in f then f["content"].s else "",
                       if "category" in f then f["category"].s else DefaultCategory))
    else if v.Array? then
      var a := v.items;
      if |a| == 0 then Err(InvalidLength(0, JiyiArity))
      else if !a[0].Str? then Err(InvalidType("action"))
      else if |a| == 1 then Err(InvalidLength(1, JiyiArity))
      else if !a[1].Str? then Err(InvalidType("project_path"))
      else if |a| > 2 && !a[2].Str? then Err(InvalidType("content"))
      else if |a| > 3 && !a[3].Str? then Err(InvalidType("category"))
      else if |a| > 4 then Err(InvalidLength(|a|, FewerItems))
      else
        Ok(JiyiRequest(a[0].s, a[1].s, if |a| > 2 then a[2].s else "", if |a| > 3 then a[3].s else DefaultCategory))
    else Err(NotAStruct)
  }

  /** serde `Serialize` for `JiyiRequest`. */
  function JiyiRequestJson(j: JiyiRequest): Json.Value {
    Json.Object(map[
      "action" := Json.Str(j.action),
      "project_path" := Json.Str(j.projectPath),
      "content" := Json.Str(j.content),
      "category" := Json.Str(j.category)])
  }

  lemma JiyiRequestRoundTrip(j: JiyiRequest)
    ensures DecodeJiyiRequest(JiyiRequestJson(j)) == Ok(j)
    ensures DecodeJiyiRequest(Json.Array([Json.Str(j.action), Json.Str(j.projectPath), Json.Str(j.content),
                                          Json.Str(j.category)])) == Ok(j)
  {
  }

  /** A memory request naming only its action and path gets content "" and category "context". */
  lemma JiyiRequestDefaults(action: string, path: string)
    ensures DecodeJiyiRequest(Json.Object(map["action" := Json.Str(action), "project_path" := Json.Str(path)]))
         == Ok(JiyiRequest(action, path, "", DefaultCategory))
    ensures DecodeJiyiRequest(Json.Array([Json.Str(action), Json.Str(path)])) == Ok(JiyiRequest(action, path, "", DefaultCategory))
  {
  }

  /** serde reports a wrong-typed member before a missing required one, because the missing
      fields are only looked for after every member has been visited. */
  lemma WrongTypeBeforeMissing(other: Json.Value)
    requires !other.Bool?
    ensures DecodeZhiRequest(Json.Object(map["is_markdown" := other])) == Err(InvalidType("is_markdown"))
    ensures DecodeJiyiRequest(Json.Object(map["category" := other, "project_path" := Json.Str("p")]))
         == (if other.Str? then Err(MissingField("action")) else Err(InvalidType("category")))
  {
  }

  /** One content block of a tool result. */
  datatype Content = Content(contentType: string, text: string, annotations: Option<Json.Value>)

  /** `Content::text`: a text block without annotations. */
  function TextContent(text: string): (r: Content)
    ensures r.contentType == "text" && r.text == text && r.annotations == None
  {
    Content("text", text, None)
  }

  /** serde `Serialize` for `Content`: the kind goes under "type", and absent annotations are skipped. */
  function ContentJson(c: Content): Json.Value {
    match c.annotations
    case None => Json.Object(map["type" := Json.Str(c.contentType), "text" := Json.Str(c.text)])
    case Some(a) => Json.Object(map["type" := Json.Str(c.contentType), "text" := Json.Str(c.text), "annotations" := a])
  }

  /** JSON of a list of content blocks. */
  function ContentListJson(cs: seq<Content>): (r: Json.Value)
    ensures r.Array? && |r.items| == |cs|
    ensures forall i :: 0 <= i < |cs| ==> r.items[i] == ContentJson(cs[i])
  {
    Json.Array(seq(|cs|, i requires 0 <= i < |cs| => ContentJson(cs[i])))
  }

  /** A text block is written as exactly `{"type": "text", "text": …}`. */
  lemma TextContentJson(text: string)
    ensures ContentJson(TextContent(text)) == Json.Object(map["type" := Json.Str("text"), "text" := Json.Str(text)])
  {
  }

  /** The outcome of one tool call. */
  datatype CallToolResult = CallToolResult(content: seq<Content>, isError: Option<bool>)

  /** `CallToolResult::success`: the content kept as given, no error flag. */
  function Success(content: seq<Content>): (r: CallToolResult)
    ensures r.content == content && r.isError == None
  {
    CallToolResult(content, None)
  }

  /** `CallToolResult::error`: the message as the single text block, flagged as an error. */
  function ErrorResult(message: string): (r: CallToolResult)
    ensures |r.content| == 1 && r.content[0] == TextContent(message) && r.isError == Some(true)
  {
    CallToolResult([TextContent(message)], Some(true))
  }

  /** The three MCP error kinds. */
  datatype McpError = InvalidParams(msg: string) | InternalError(msg: string) | MethodNotFound(msg: string)

  /** The fixed text in front of each kind's message. */
  function McpErrorPrefix(e: McpError): string {
    match e
    case InvalidParams(_) => "Invalid parameters: "
    case InternalError(_) => "Internal error: "
    case MethodNotFound(_) => "Method not found: "
  }

  /** `Display` for `McpError`. */
  function McpErrorText(e: McpError): (r: string)
    ensures r == McpErrorPrefix(e) + e.msg
  {
    McpErrorPrefix(e) + e.msg
  }

  /** Distinct errors never display alike: the text tells the kind and the message. */
  lemma McpErrorTextInjective(e1: McpError, e2: McpError)
    requires McpErrorText(e1) == McpErrorText(e2)
    ensures e1 == e2
  {
    var t := McpErrorText(e1);
    assert t[0] == McpErrorPrefix(e1)[0] && t[2] == McpErrorPrefix(e1)[2];
    assert t[0] == McpErrorPrefix(e2)[0] && t[2] == McpErrorPrefix(e2)[2];
    assert McpErrorPrefix(e1) == McpErrorPrefix(e2);
    var n := |McpErrorPrefix(e1)|;
    assert e1.msg == t[n..] == e2.msg;
  }

  /** `McpError::invalid_params`: the data argument is dropped. */
  function InvalidParamsError(msg: string, data: Option<Json.Value>): (r: McpError)
    ensures r.InvalidParams? && r.msg == msg
  {
    InvalidParams(msg)
  }

  /** `McpError::internal_error`: the data argument is dropped. */
  function InternalErrorError(msg: string, data: Option<Json.Value>): (r: McpError)
    ensures r.InternalError? && r.msg == msg
  {
    InternalError(msg)
  }

  /** `McpError::invalid_request`, which builds the method-not-found kind; data is dropped. */
  function InvalidRequestError(msg: string, data: Option<Json.Value>): (r: McpError)
    ensures r.MethodNotFound? && r.msg == msg
  {
    MethodNotFound(msg)
  }

  /** An image attached to a reply. */
  datatype ImageAttachment = ImageAttachment(data: string, mediaType: string, filename: Option<string>)

  function ImageJson(img: ImageAttachment): Json.Value {
    Json.Object(map[
      "data" := Json.Str(img.data),
      "media_type" := Json.Str(img.mediaType),
      "filename" := Json.OptStr(img.filename)])
  }

  /** `build_mcp_response`: the reply document; `timestamp` is the clock reading in RFC 3339. */
  function BuildMcpResponse(userInput: Option<string>, selected: seq<string>, images: seq<ImageAttachment>,
                            requestId: Option<string>, source: string, timestamp: string): (r: Json.Value)
    ensures Json.Get(r, "user_input") == Json.OptStr(userInput)
    ensures Json.Get(r, "selected_options") == Json.StrArray(selected)
    ensures Json.Get(r, "images").Array? && |Json.Get(r, "images").items| == |images|
    ensures forall i :: 0 <= i < |images| ==> Json.Get(r, "images").items[i] == ImageJson(images[i])
    ensures Json.Get(Json.Get(r, "metadata"), "request_id") == Json.OptStr(requestId)
    ensures Json.Get(Json.Get(r, "metadata"), "source") == Json.Str(source)
    ensures Json.Get(Json.Get(r, "metadata"), "timestamp") == Json.Str(timestamp)
  {
    Json.Object(map[
      "user_input" := Json.OptStr(userInput),
      "selected_options" := Json.StrArray(selected),
      "images" := Json.Array(seq(|images|, i requires 0 <= i < |images| => ImageJson(images[i]))),
      "metadata" := Json.Object(map[
        "timestamp" := Json.Str(timestamp),
        "request_id" := Json.OptStr(requestId),
        "source" := Json.Str(source)])])
  }

  /** The continue prompt used when the configuration cannot be loaded. */
  const DefaultContinuePrompt: string := "请按照最佳实践继续"

  /** `build_continue_response`: `configuredPrompt` is the loaded configuration's continue
      prompt, or `None` when loading failed. */
  function BuildContinueResponse(configuredPrompt: Option<string>, requestId: Option<string>,
                                 source: string, timestamp: string): (r: Json.Value)
    ensures Json.Get(r, "user_input") == Json.Str(configuredPrompt.GetOr(DefaultContinuePrompt))
    ensures Json.Get(r, "selected_options") == Json.Array([])
    ensures Json.Get(r, "images") == Json.Array([])
    ensures Json.Get(Json.Get(r, "metadata"), "request_id") == Json.OptStr(requestId)
    ensures Json.Get(Json.Get(r, "metadata"), "source") == Json.Str(source)
    ensures Json.Get(Json.Get(r, "metadata"), "timestamp") == Json.Str(timestamp)
  {
    BuildMcpResponse(Some(configuredPrompt.GetOr(DefaultContinuePrompt)), [], [], requestId, source, timestamp)
  }
}
