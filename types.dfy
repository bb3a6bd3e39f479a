/**
 * The wire shapes of the server: JSON values, JSON-RPC requests, responses
 * and notifications, tool-call results, the IDE context and the discovery
 * descriptor.
 */
module Types {
  import opened Wrappers

  /** A decoded JSON value (numbers are kept as integers). */
  datatype Json =
    | JNull
    | JBool(b: bool)
    | JNumber(n: int)
    | JString(s: string)
    | JArray(items: seq<Json>)
    | JObject(fields: map<string, Json>)

  /** A JSON-RPC request; absent `params` decode as the empty map and an absent `id` as null. */
  datatype McpRequest = McpRequest(jsonrpc: string, id: Json, methodName: string, params: map<string, Json>)

  datatype McpError = McpError(code: int, message: string)

  /** One content block of a tool result; `kind` is the JSON field `type`. */
  datatype ContentBlock = ContentBlock(kind: string, text: string)

  datatype ToolCallResult = ToolCallResult(content: seq<ContentBlock>, isError: bool)

  /** One entry of the `tools/list` result. */
  datatype ToolInfo = ToolInfo(name: string, description: string, inputSchema: Json)

  /** The `result` member of a successful response. */
  datatype McpResult =
    | InitializeResult(protocolVersion: string, serverName: string, serverVersion: string, toolsListChanged: bool)
    | ToolsListResult(tools: seq<ToolInfo>)
    | CallResult(call: ToolCallResult)

  /** A JSON-RPC response: `result` or `error`, never both. */
  datatype McpResponse =
    | ResultResponse(id: Json, result: McpResult)
    | ErrorResponse(id: Json, error: McpError)

  datatype McpNotification = McpNotification(jsonrpc: string, methodName: string, params: map<string, Json>)

  datatype Cursor = Cursor(line: int, character: int)

  datatype File = File(path: string, timestamp: int, isActive: Option<bool>, cursor: Option<Cursor>, selectedText: Option<string>)

  datatype WorkspaceState = WorkspaceState(openFiles: seq<File>, isTrusted: Option<bool>)

  /** The IDE context; `workspaceState` is a nullable pointer in Go. */
  datatype IdeContext = IdeContext(workspaceState: Option<WorkspaceState>)

  datatype IdeInfo = IdeInfo(name: string, displayName: string)

  /** The content of a discovery descriptor file. */
  datatype DiscoveryFile = DiscoveryFile(port: int, workspacePath: string, authToken: string, ideInfo: IdeInfo)

  /** A JSON member that `omitempty` leaves out when the pointer is nil. */
  function OptionalMember<T>(m: map<string, Json>, key: string, v: Option<T>, encode: T -> Json): map<string, Json> {
    if v.Some? then m[key := encode(v.value)] else m
  }

  function CursorJson(c: Cursor): Json {
    JObject(map["line" := JNumber(c.line), "character" := JNumber(c.character)])
  }

  function FileJson(f: File): Json {
    var m := map["path" := JString(f.path), "timestamp" := JNumber(f.timestamp)];
    var m := OptionalMember(m, "isActive", f.isActive, b => JBool(b));
    var m := OptionalMember(m, "cursor", f.cursor, CursorJson);
    JObject(OptionalMember(m, "selectedText", f.selectedText, t => JString(t)))
  }

  /** A workspace state as `encoding/json` writes it: empty or nil members are omitted. */
  function WorkspaceStateJson(ws: Option<WorkspaceState>): (j: Json)
    ensures ws.None? <==> j == JNull
  {
    match ws
    case None => JNull
    case Some(w) =>
      var m: map<string, Json> := if w.openFiles == [] then map[] else
        map["openFiles" := JArray(seq(|w.openFiles|, i requires 0 <= i < |w.openFiles| => FileJson(w.openFiles[i])))];
      JObject(OptionalMember(m, "isTrusted", w.isTrusted, b => JBool(b)))
  }
}
