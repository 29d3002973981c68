/**
  The MCP client configuration generator: the server entry that launches this program as an
  MCP server, the merge of that entry into an existing client configuration file, and the
  pass over the usual configuration locations that merges into or writes each file.
*/
module McpClientConfig {
  import opened Results
  import opened Strings
  import opened Json

  /** One MCP server entry: the command, its arguments and optional environment. */
  datatype ServerConfig = ServerConfig(command: string, args: seq<string>, env: Option<map<string, string>>)

  /** A client configuration: server entries by name. */
  datatype ClientConfig = ClientConfig(mcpServers: map<string, ServerConfig>)

  const ServerName: string := "cunzhi-cli"

  /** `new_cunzhi_config`, with `currentExe` the running executable's path when the system
      tells it: a single "cunzhi-cli" entry running "<exe> mcp-server" with RUST_LOG=info. */
  function NewCunzhiConfig(currentExe: Option<string>): (c: ClientConfig)
    ensures c.mcpServers.Keys == {ServerName}
    ensures c.mcpServers[ServerName].command == currentExe.GetOr("cunzhi")
    ensures c.mcpServers[ServerName].args == ["mcp-server"]
    ensures c.mcpServers[ServerName].env == Some(map["RUST_LOG" := "info"])
  {
    var exePath := if currentExe.Some? then currentExe.value else "cunzhi";
    ClientConfig(map[ServerName := ServerConfig(exePath, ["mcp-server"], Some(map["RUST_LOG" := "info"]))])
  }

  /** A server entry as serde writes it; `env` is left out when absent. */
  function ServerJson(s: ServerConfig): (v: Value)
    ensures v.Object? && Get(v, "command") == Str(s.command) && Get(v, "args") == StrArray(s.args)
    ensures s.env.None? <==> "env" !in v.fields
  {
    var base := map["command" := Str(s.command), "args" := StrArray(s.args)];
    match s.env
    case None => Object(base)
    case Some(e) => Object(base["env" := Object(map k | k in e :: Str(e[k]))])
  }

  /** A whole client configuration as serde writes it. */
  function ClientJson(c: ClientConfig): (v: Value)
    ensures v.Object? && v.fields.Keys == {"mcpServers"}
    ensures Get(v, "mcpServers").Object? && Get(v, "mcpServers").fields.Keys == c.mcpServers.Keys
  {
    Object(map["mcpServers" := Object(map k | k in c.mcpServers :: ServerJson(c.mcpServers[k]))])
  }

  /** How a merge ends: the merged document, a failure to read or parse the file, or a panic
      (indexing into a "mcpServers" member that is neither an object nor null). */
  datatype MergeResult = Merged(value: Value) | MergeFailed | MergePanicked

  /** The merge of server entry `server` into the existing file, `existing` being what parsing
      the file gave (`None` when it could not be read or parsed). */
  function MergeOutcome(server: Value, existing: Option<Value>): MergeResult {
    if existing.None? then MergeFailed
    else
      var root := if existing.value.Object? then existing.value.fields else map[];
      var withServers := if "mcpServers" in root then root else root["mcpServers" := EmptyObject];
      var servers := withServers["mcpServers"];
      if servers.Null? then Merged(Object(withServers["mcpServers" := Object(map[ServerName := server])]))
      else if servers.Object? then Merged(Object(withServers["mcpServers" := Object(servers.fields[ServerName := server])]))
      else MergePanicked
  }

  /** `merge_config`: the document is made an object, given a "mcpServers" member if it has
      none, and its "cunzhi-cli" server entry is set to the new one. Assigning through
      `value[key]` turns a null into an object and panics on any other non-object. */
  method MergeConfig(newConfig: ClientConfig, existing: Option<Value>) returns (r: MergeResult)
    requires ServerName in newConfig.mcpServers
    ensures r == MergeOutcome(ServerJson(newConfig.mcpServers[ServerName]), existing)
  {
    if existing.None? {
      return MergeFailed;
    }
    var value := existing.value;
    if !value.Object? {
      value := EmptyObject;
    }
    if "mcpServers" !in value.fields {
      value := Object(value.fields["mcpServers" := EmptyObject]);
    }
    var serverJson := ServerJson(newConfig.mcpServers[ServerName]);
    var servers := value.fields["mcpServers"];
    if servers.Null? {
      servers := EmptyObject;
    }
    if !servers.Object? {
      return MergePanicked;
    }
    value := Object(value.fields["mcpServers" := Object(servers.fields[ServerName := serverJson])]);
    r := Merged(value);
  }

  /** The merged document's "cunzhi-cli" entry is the new server entry. */
  lemma MergeSetsServer(server: Value, existing: Option<Value>)
    requires MergeOutcome(server, existing).Merged?
    ensures Get(Get(MergeOutcome(server, existing).value, "mcpServers"), ServerName) == server
  {
  }

  /** A merge fails exactly when the file could not be parsed, and panics exactly when the
      file is an object whose "mcpServers" member is neither an object nor null. */
  lemma MergeOutcomeCases(server: Value, existing: Option<Value>)
    ensures MergeOutcome(server, existing).MergeFailed? <==> existing.None?
    ensures MergeOutcome(server, existing).MergePanicked? <==>
      (existing.Some? && existing.value.Object? && "mcpServers" in existing.value.fields
       && !existing.value.fields["mcpServers"].Null? && !existing.value.fields["mcpServers"].Object?)
  {
  }

  /** A file that is not a JSON object is replaced by a document holding only the new entry. */
  lemma MergeNonObjectRoot(server: Value, v: Value)
    requires !v.Object?
    ensures MergeOutcome(server, Some(v)) == Merged(Object(map["mcpServers" := Object(map[ServerName := server])]))
  {
    var empty: map<string, Value> := map[];
    assert empty["mcpServers" := EmptyObject]["mcpServers" := Object(map[ServerName := server])]
        == map["mcpServers" := Object(map[ServerName := server])];
  }

  /** Merging keeps every other top-level member and every other server entry; the only
      top-level key it may add is "mcpServers". */
  lemma MergeKeepsOthers(server: Value, fields: map<string, Value>)
    requires MergeOutcome(server, Some(Object(fields))).Merged?
    ensures var merged := MergeOutcome(server, Some(Object(fields))).value;
      merged.Object? && merged.fields.Keys == fields.Keys + {"mcpServers"}
      && (forall k :: k in fields && k != "mcpServers" ==> merged.fields[k] == fields[k])
      && merged.fields["mcpServers"].Object?
      && (forall k :: "mcpServers" in fields && fields["mcpServers"].Object? && k in fields["mcpServers"].fields && k != ServerName
            ==> k in merged.fields["mcpServers"].fields
                && merged.fields["mcpServers"].fields[k] == fields["mcpServers"].fields[k])
  {
  }

  /** A document without "mcpServers" gains one holding only the new entry. */
  lemma MergeAddsServers(server: Value, fields: map<string, Value>)
    requires "mcpServers" !in fields
    ensures MergeOutcome(server, Some(Object(fields))) == Merged(Object(fields["mcpServers" := Object(map[ServerName := server])]))
  {
    assert fields["mcpServers" := EmptyObject]["mcpServers" := Object(map[ServerName := server])]
        == fields["mcpServers" := Object(map[ServerName := server])];
  }

  /** The usual configuration locations: the Claude Desktop, Augment and generic MCP files
      under the user's configuration directory when there is one, then the current directory. */
  function CandidatePaths(configDir: Option<string>): (r: seq<string>)
    ensures |r| >= 1 && r[|r| - 1] == "mcp_config.json"
  {
    match configDir
    case None => ["mcp_config.json"]
    case Some(d) => [d + "/Claude/claude_desktop_config.json", d + "/augment/mcp_config.json",
                     d + "/mcp/config.json", "mcp_config.json"]
  }

  /** What the generator does with one file. */
  datatype FileAction =
    | Updated(value: Value)      // merged into the existing file
    | Overwritten(value: Value)  // the existing file could not be merged; the new configuration replaces it
    | Created(value: Value)      // no file there; the new configuration is written

  /** The action for the file at `path` (`None` when the merge panics); `existing` maps each
      existing file to what parsing it gave. */
  function ActionFor(config: ClientConfig, existing: map<string, Option<Value>>, path: string): Option<FileAction>
    requires ServerName in config.mcpServers
  {
    if path !in existing then Some(Created(ClientJson(config)))
    else
      match MergeOutcome(ServerJson(config.mcpServers[ServerName]), existing[path])
      case Merged(v) => Some(Updated(v))
      case MergeFailed => Some(Overwritten(ClientJson(config)))
      case MergePanicked => None
  }

  /** `generate_mcp_config`: each candidate file in turn is merged into, overwritten or
      created; a panicking merge stops the pass. `files` is what was written, by path. */
  method GenerateMcpConfig(currentExe: Option<string>, configDir: Option<string>, existing: map<string, Option<Value>>)
    returns (actions: seq<FileAction>, completed: bool, files: map<string, Value>)
    ensures var paths := CandidatePaths(configDir);
      |actions| <= |paths|
      && (completed <==> |actions| == |paths|)
      && (!completed ==> ActionFor(NewCunzhiConfig(currentExe), existing, paths[|actions|]).None?)
      && (forall i :: 0 <= i < |actions| ==> ActionFor(NewCunzhiConfig(currentExe), existing, paths[i]) == Some(actions[i]))
      && files.Keys == (set i | 0 <= i < |actions| :: paths[i])
      && (forall i :: 0 <= i < |actions| ==> files[paths[i]] == actions[i].value)
  {
    var config := NewCunzhiConfig(currentExe);
    var paths := CandidatePaths(configDir);
    CandidatePathsDistinct(configDir);
    actions := [];
    files := map[];
    var i := 0;
    while i < |paths|
      invariant 0 <= i <= |paths| && |actions| == i
      invariant forall k :: 0 <= k < i ==> ActionFor(config, existing, paths[k]) == Some(actions[k])
      invariant files.Keys == (set k | 0 <= k < i :: paths[k])
      invariant forall k :: 0 <= k < i ==> files[paths[k]] == actions[k].value
    {
      var path := paths[i];
      var action: FileAction;
      if path in existing {
        var merged := MergeConfig(config, existing[path]);
        match merged
        case Merged(v) =>
          action := Updated(v);
        case MergeFailed =>
          action := Overwritten(ClientJson(config));
        case MergePanicked =>
          completed := false;
          return;
      } else {
        action := Created(ClientJson(config));
      }
      actions := actions + [action];
      files := files[path := action.value];
      i := i + 1;
    }
    completed := true;
  }

  /** The candidate locations are all different (the first three hold a '/', the last does not). */
  lemma CandidatePathsDistinct(configDir: Option<string>)
    ensures Distinct(CandidatePaths(configDir))
  {
    if configDir.Some? {
      var d := configDir.value;
      var ps := CandidatePaths(configDir);
      assert '/' !in ps[3];
      assert ps[0][|d|] == '/' && ps[1][|d|] == '/' && ps[2][|d|] == '/';
      assert ps[0][|d| + 1] == 'C' && ps[1][|d| + 1] == 'a' && ps[2][|d| + 1] == 'm';
      assert '/' in ps[0] && '/' in ps[1] && '/' in ps[2];
    }
  }

  /** Where no configuration file exists yet, every location gets the new configuration. */
  lemma FreshLocationsGetNewConfig(currentExe: Option<string>, existing: map<string, Option<Value>>, path: string)
    requires path !in existing
    ensures ActionFor(NewCunzhiConfig(currentExe), existing, path) == Some(Created(ClientJson(NewCunzhiConfig(currentExe))))
  {
  }
}
