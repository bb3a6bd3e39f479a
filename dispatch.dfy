/**
 * The decision logic of the MCP server: the tool table, the four tool
 * handlers, `tools/call` validation, JSON-RPC method routing and the
 * bearer-token gate. The Neovim client is an oracle from the call the
 * server makes to the client's answer.
 */
module Dispatch {
  import opened Wrappers
  import opened Types
  import Text

  /** JSON-RPC error codes used by the server. */
  const MethodNotFound: int := -32601
  const InvalidParams: int := -32602
  const InternalError: int := -32603

  /** The answer to `initialize`. */
  const ProtocolVersion: string := "2025-06-18"
  const ServerName: string := "nvim-gemini-cli"
  const ServerVersion: string := "0.1.0"

  // ---------------------------------------------------------------------
  // The tool table

  /** The handler a tool runs; the four tools are a closed set. */
  datatype ToolKind = OpenDiff | CloseDiff | AcceptDiff | RejectDiff

  datatype Tool = Tool(name: string, description: string, handler: ToolKind)

  const OpenDiffTool: Tool := Tool("openDiff", "Open a diff view for a file", OpenDiff)
  const CloseDiffTool: Tool := Tool("closeDiff", "Close a diff view for a file", CloseDiff)
  const AcceptDiffTool: Tool := Tool("acceptDiff", "Accept diff changes and apply them to the original file", AcceptDiff)
  const RejectDiffTool: Tool := Tool("rejectDiff", "Reject diff changes and close the diff view", RejectDiff)

  /** The input schema every tool advertises: `filePath` required, `newContent` optional. */
  const InputSchema: Json :=
    JObject(map[
      "type" := JString("object"),
      "properties" := JObject(map[
        "filePath" := JObject(map["type" := JString("string"), "description" := JString("Absolute path to the file")]),
        "newContent" := JObject(map["type" := JString("string"), "description" := JString("New content for the file (for openDiff)")])
      ]),
      "required" := JArray([JString("filePath")])
    ])

  /** The tool table a new server registers: each tool under its own name. */
  function Registry(): (tools: map<string, Tool>)
    ensures tools.Keys == {"openDiff", "closeDiff", "acceptDiff", "rejectDiff"}
    ensures forall name :: name in tools ==> tools[name].name == name
    ensures tools["openDiff"].handler == OpenDiff && tools["closeDiff"].handler == CloseDiff
    ensures tools["acceptDiff"].handler == AcceptDiff && tools["rejectDiff"].handler == RejectDiff
  {
    map[OpenDiffTool.name := OpenDiffTool, CloseDiffTool.name := CloseDiffTool,
        AcceptDiffTool.name := AcceptDiffTool, RejectDiffTool.name := RejectDiffTool]
  }

  /** How `tools/list` describes one tool. */
  function Describe(tool: Tool): (info: ToolInfo)
    ensures info.name == tool.name && info.description == tool.description
  {
    ToolInfo(tool.name, tool.description, InputSchema)
  }

  // ---------------------------------------------------------------------
  // The editor client, as an oracle

  /** A request the server makes to the editor client. */
  datatype ClientCall =
    | OpenDiffCall(filePath: string, newContent: string)
    | CloseDiffCall(filePath: string)
    | AcceptDiffCall(filePath: string)
    | RejectDiffCall(filePath: string)

  /** The client's answer: success with a text (the final content, for CloseDiff only) or an error message. */
  datatype ClientReply = ClientOk(content: string) | ClientErr(message: string)

  type Client = ClientCall -> ClientReply

  // ---------------------------------------------------------------------
  // Tool handlers

  /** A tool result holding one text block. */
  function TextResult(text: string, isError: bool): ToolCallResult {
    ToolCallResult([ContentBlock("text", text)], isError)
  }

  /** The successful result with no content. */
  const EmptyResult: ToolCallResult := ToolCallResult([], false)

  /** A string-valued argument; `None` when it is missing or not a string. */
  function StringArg(args: map<string, Json>, key: string): (r: Option<string>)
    ensures r.Some? <==> key in args && args[key].JString?
    ensures r.Some? ==> args[key] == JString(r.value)
  {
    if key in args && args[key].JString? then Some(args[key].s) else None
  }

  /**
   * What a handler returns: a tool result, or a Go error that the dispatcher
   * turns into an internal error. No handler of this server uses the second.
   */
  datatype HandlerOutcome = Handled(result: ToolCallResult) | HandlerError(message: string)

  /** The result for a client failure: one text block naming the operation, flagged as an error. */
  function ClientFailure(operation: string, message: string): (r: ToolCallResult)
    ensures r.isError && r.content == [ContentBlock("text", "Failed to " + operation + ": " + message)]
  {
    TextResult("Failed to " + operation + ": " + message, true)
  }

  function HandleOpenDiff(args: map<string, Json>, client: Client): (o: HandlerOutcome)
    ensures o.Handled?
    ensures StringArg(args, "filePath").None? ==> o.result == TextResult("Invalid filePath", true)
    ensures StringArg(args, "filePath").Some? && StringArg(args, "newContent").None? ==>
              o.result == TextResult("Invalid newContent", true)
    ensures StringArg(args, "filePath").Some? && StringArg(args, "newContent").Some? ==>
              var reply := client(OpenDiffCall(args["filePath"].s, args["newContent"].s));
              o.result == if reply.ClientErr? then ClientFailure("open diff", reply.message) else EmptyResult
  {
    match StringArg(args, "filePath")
    case None => Handled(TextResult("Invalid filePath", true))
    case Some(filePath) =>
      match StringArg(args, "newContent")
      case None => Handled(TextResult("Invalid newContent", true))
      case Some(newContent) =>
        match client(OpenDiffCall(filePath, newContent))
        case ClientErr(m) => Handled(ClientFailure("open diff", m))
        case ClientOk(_) => Handled(EmptyResult)
  }

  function HandleCloseDiff(args: map<string, Json>, client: Client): (o: HandlerOutcome)
    ensures o.Handled?
    ensures StringArg(args, "filePath").None? ==> o.result == TextResult("Invalid filePath", true)
    ensures StringArg(args, "filePath").Some? ==>
              var reply := client(CloseDiffCall(args["filePath"].s));
              o.result == if reply.ClientErr? then ClientFailure("close diff", reply.message)
                          else ToolCallResult([ContentBlock("text", reply.content)], false)
  {
    match StringArg(args, "filePath")
    case None => Handled(TextResult("Invalid filePath", true))
    case Some(filePath) =>
      match client(CloseDiffCall(filePath))
      case ClientErr(m) => Handled(ClientFailure("close diff", m))
      case ClientOk(content) => Handled(TextResult(content, false))
  }

  function HandleAcceptDiff(args: map<string, Json>, client: Client): (o: HandlerOutcome)
    ensures o.Handled?
    ensures StringArg(args, "filePath").None? ==> o.result == TextResult("Invalid filePath", true)
    ensures StringArg(args, "filePath").Some? ==>
              var reply := client(AcceptDiffCall(args["filePath"].s));
              o.result == if reply.ClientErr? then ClientFailure("accept diff", reply.message) else EmptyResult
  {
    match StringArg(args, "filePath")
    case None => Handled(TextResult("Invalid filePath", true))
    case Some(filePath) =>
      match client(AcceptDiffCall(filePath))
      case ClientErr(m) => Handled(ClientFailure("accept diff", m))
      case ClientOk(_) => Handled(EmptyResult)
  }

  function HandleRejectDiff(args: map<string, Json>, client: Client): (o: HandlerOutcome)
    ensures o.Handled?
    ensures StringArg(args, "filePath").None? ==> o.result == TextResult("Invalid filePath", true)
    ensures StringArg(args, "filePath").Some? ==>
              var reply := client(RejectDiffCall(args["filePath"].s));
              o.result == if reply.ClientErr? then ClientFailure("reject diff", reply.message) else EmptyResult
  {
    match StringArg(args, "filePath")
    case None => Handled(TextResult("Invalid filePath", true))
    case Some(filePath) =>
      match client(RejectDiffCall(filePath))
      case ClientErr(m) => Handled(ClientFailure("reject diff", m))
      case ClientOk(_) => Handled(EmptyResult)
  }

  /** The operation a handler names when the client fails. */
  function Operation(kind: ToolKind): string {
    match kind
    case OpenDiff => "open diff"
    case CloseDiff => "close diff"
    case AcceptDiff => "accept diff"
    case RejectDiff => "reject diff"
  }

  /**
   * The handler registered for a tool. Every handler answers with a tool
   * result: an incomplete argument list names the first missing argument,
   * and a client failure names the handler's operation.
   */
  function RunHandler(kind: ToolKind, args: map<string, Json>, client: Client): (o: HandlerOutcome)
    ensures o.Handled?
    ensures StringArg(args, "filePath").None? ==> o.result == TextResult("Invalid filePath", true)
    ensures StringArg(args, "filePath").Some? && !ArgumentsComplete(kind, args) ==>
              kind == OpenDiff && o.result == TextResult("Invalid newContent", true)
    ensures ArgumentsComplete(kind, args) && client(CallFor(kind, args)).ClientErr? ==>
              o.result == ClientFailure(Operation(kind), client(CallFor(kind, args)).message)
  {
    match kind
    case OpenDiff => HandleOpenDiff(args, client)
    case CloseDiff => HandleCloseDiff(args, client)
    case AcceptDiff => HandleAcceptDiff(args, client)
    case RejectDiff => HandleRejectDiff(args, client)
  }

  /** The arguments a handler needs before it talks to the client. */
  predicate ArgumentsComplete(kind: ToolKind, args: map<string, Json>) {
    StringArg(args, "filePath").Some? && (kind == OpenDiff ==> StringArg(args, "newContent").Some?)
  }

  /**
   * A handler whose arguments are incomplete answers without consulting the
   * client: any two clients give the same, error-flagged, result.
   */
  lemma IncompleteArgumentsSkipClient(kind: ToolKind, args: map<string, Json>, c1: Client, c2: Client)
    requires !ArgumentsComplete(kind, args)
    ensures RunHandler(kind, args, c1) == RunHandler(kind, args, c2)
    ensures RunHandler(kind, args, c1).result.isError
  {
  }

  /**
   * Every handler reports success exactly when its arguments are complete
   * and the client succeeded; it never returns a Go error.
   */
  lemma HandlerSucceedsIff(kind: ToolKind, args: map<string, Json>, client: Client)
    ensures RunHandler(kind, args, client).Handled?
    ensures !RunHandler(kind, args, client).result.isError <==>
              ArgumentsComplete(kind, args) && client(CallFor(kind, args)).ClientOk?
  {
  }

  /** The client call a handler makes once its arguments are complete. */
  function CallFor(kind: ToolKind, args: map<string, Json>): ClientCall
    requires ArgumentsComplete(kind, args)
  {
    var filePath := args["filePath"].s;
    match kind
    case OpenDiff => OpenDiffCall(filePath, args["newContent"].s)
    case CloseDiff => CloseDiffCall(filePath)
    case AcceptDiff => AcceptDiffCall(filePath)
    case RejectDiff => RejectDiffCall(filePath)
  }

  // ---------------------------------------------------------------------
  // tools/call

  /** `sendError`: an error response echoing the request's id, with the code and message. */
  function SendError(id: Json, code: int, message: string): (r: McpResponse)
    ensures r.ErrorResponse? && r.id == id && r.error.code == code && r.error.message == message
  {
    ErrorResponse(id, McpError(code, message))
  }

  /** The `arguments` object of a call, or the empty map when it is missing or not an object. */
  function CallArguments(params: map<string, Json>): (args: map<string, Json>)
    ensures "arguments" in params && params["arguments"].JObject? ==> args == params["arguments"].fields
    ensures !("arguments" in params && params["arguments"].JObject?) ==> args == map[]
  {
    if "arguments" in params && params["arguments"].JObject? then params["arguments"].fields else map[]
  }

  /** `tools/call`: validate the tool name, look the tool up, run its handler. */
  function ToolsCall(tools: map<string, Tool>, req: McpRequest, client: Client): (resp: McpResponse)
    ensures resp.id == req.id
    ensures StringArg(req.params, "name").Some? && req.params["name"].s in tools ==>
              resp == ResultResponse(req.id, CallResult(RunHandler(tools[req.params["name"].s].handler, CallArguments(req.params), client).result))
  {
    match StringArg(req.params, "name")
    case None => SendError(req.id, InvalidParams, "Missing tool name")
    case Some(name) =>
      if name !in tools then SendError(req.id, InvalidParams, "Tool not found")
      else
        match RunHandler(tools[name].handler, CallArguments(req.params), client)
        case Handled(result) => ResultResponse(req.id, CallResult(result))
        case HandlerError(message) => SendError(req.id, InternalError, message)
  }

  /**
   * A missing or non-string tool name, or a name that is not registered, is
   * refused with -32602 and no handler runs (the client is never consulted).
   */
  lemma ToolsCallRejectsBadName(tools: map<string, Tool>, req: McpRequest, c1: Client, c2: Client)
    ensures StringArg(req.params, "name").None? ==>
              ToolsCall(tools, req, c1) == SendError(req.id, InvalidParams, "Missing tool name")
    ensures StringArg(req.params, "name").Some? && req.params["name"].s !in tools ==>
              ToolsCall(tools, req, c1) == SendError(req.id, InvalidParams, "Tool not found")
    ensures StringArg(req.params, "name").None? || req.params["name"].s !in tools ==>
              ToolsCall(tools, req, c1) == ToolsCall(tools, req, c2)
  {
  }

  /**
   * A call to a registered tool always gets a `result` envelope, never the
   * -32603 error, whatever the arguments and whatever the client answers.
   */
  lemma RegisteredToolNeverInternalError(tools: map<string, Tool>, req: McpRequest, client: Client)
    requires StringArg(req.params, "name").Some? && req.params["name"].s in tools
    ensures ToolsCall(tools, req, client).ResultResponse?
    ensures ToolsCall(tools, req, client).result.CallResult?
  {
    var kind := tools[req.params["name"].s].handler;
    HandlerSucceedsIff(kind, CallArguments(req.params), client);
  }

  /**
   * Without an `arguments` object every registered tool answers with the
   * error result "Invalid filePath".
   */
  lemma ToolsCallWithoutArguments(tools: map<string, Tool>, req: McpRequest, client: Client)
    requires StringArg(req.params, "name").Some? && req.params["name"].s in tools
    requires !("arguments" in req.params && req.params["arguments"].JObject?)
    ensures ToolsCall(tools, req, client) == ResultResponse(req.id, CallResult(TextResult("Invalid filePath", true)))
  {
    var kind := tools[req.params["name"].s].handler;
    assert StringArg(CallArguments(req.params), "filePath").None?;
  }

  /**
   * A successful `closeDiff` returns exactly one text block with the content
   * the client gave back; the other three tools return no content.
   */
  lemma SuccessfulCallContent(tools: map<string, Tool>, req: McpRequest, client: Client)
    requires StringArg(req.params, "name").Some? && req.params["name"].s in tools
    requires !ToolsCall(tools, req, client).result.call.isError
    ensures var kind := tools[req.params["name"].s].handler;
            var args := CallArguments(req.params);
            ArgumentsComplete(kind, args) &&
            ToolsCall(tools, req, client).result.call.content ==
              if kind == CloseDiff then [ContentBlock("text", client(CallFor(kind, args)).content)] else []
  {
    RegisteredToolNeverInternalError(tools, req, client);
    var kind := tools[req.params["name"].s].handler;
    HandlerSucceedsIff(kind, CallArguments(req.params), client);
  }

  // ---------------------------------------------------------------------
  // Routing and authentication

  /** Where an HTTP request to the MCP endpoint is sent. */
  datatype Route =
    | ToStream
    | HttpFailure(status: int, text: string)
    | Initialize(id: Json)
    | ListTools(id: Json)
    | CallTool(request: McpRequest)
    | InitializedAck
    | UnknownMethod(id: Json)

  /**
   * The routing of the MCP endpoint: a GET that accepts an event stream is
   * the event stream; any other non-POST is refused with 405; a body that
   * does not decode (`None`) is refused with 400; a decoded request is
   * routed by its JSON-RPC method.
   */
  function RouteRequest(httpMethod: string, accept: string, body: Option<McpRequest>): (r: Route)
    ensures r.ToStream? <==> httpMethod == "GET" && Text.Contains(accept, "text/event-stream")
    ensures r.HttpFailure? && r.status == 405 <==> !r.ToStream? && httpMethod != "POST"
    ensures r.HttpFailure? && r.status == 400 <==> httpMethod == "POST" && body.None?
    ensures r.UnknownMethod? <==>
              httpMethod == "POST" && body.Some? &&
              body.value.methodName !in {"initialize", "tools/list", "tools/call", "notifications/initialized"}
    ensures httpMethod == "POST" && body.Some? ==>
              var req := body.value;
              (req.methodName == "initialize" ==> r == Initialize(req.id)) &&
              (req.methodName == "tools/list" ==> r == ListTools(req.id)) &&
              (req.methodName == "tools/call" ==> r == CallTool(req)) &&
              (req.methodName == "notifications/initialized" ==> r == InitializedAck)
  {
    if httpMethod == "GET" && Text.Contains(accept, "text/event-stream") then ToStream
    else if httpMethod != "POST" then HttpFailure(405, "Method not allowed")
    else if body.None? then HttpFailure(400, "Invalid request")
    else
      var req := body.value;
      if req.methodName == "initialize" then Initialize(req.id)
      else if req.methodName == "tools/list" then ListTools(req.id)
      else if req.methodName == "tools/call" then CallTool(req)
      else if req.methodName == "notifications/initialized" then InitializedAck
      else UnknownMethod(req.id)
  }

  /** The answer to `initialize`: the protocol version, the server's name and version, and a tool list that never changes. */
  function InitializeResponse(id: Json): (r: McpResponse)
    ensures r.ResultResponse? && r.id == id && r.result.InitializeResult?
    ensures r.result.protocolVersion == "2025-06-18"
    ensures r.result.serverName == "nvim-gemini-cli" && r.result.serverVersion == "0.1.0"
    ensures !r.result.toolsListChanged
  {
    ResultResponse(id, InitializeResult(ProtocolVersion, ServerName, ServerVersion, false))
  }

  /** The gate in front of the MCP endpoint. */
  datatype Gate = Preflight | Unauthorized | Proceed

  /** The credential a request must present for a server whose token is `authToken`. */
  function ExpectedAuth(authToken: string): string {
    "Bearer " + authToken
  }

  /**
   * The authentication middleware: an OPTIONS request is answered 200 and
   * never reaches the handler; any other request reaches it exactly when its
   * Authorization header equals "Bearer " followed by the token.
   */
  function AuthGate(httpMethod: string, authHeader: string, authToken: string): (g: Gate)
    ensures g == Preflight <==> httpMethod == "OPTIONS"
    ensures g == Proceed <==> httpMethod != "OPTIONS" && authHeader == ExpectedAuth(authToken)
  {
    if httpMethod == "OPTIONS" then Preflight
    else if authHeader != ExpectedAuth(authToken) then Unauthorized
    else Proceed
  }

  /**
   * The header "Bearer <t>" passes only for the server's own token `t`; a
   * header without the "Bearer " prefix, including the empty header, never
   * passes.
   */
  lemma AuthRejectsWrongCredentials(httpMethod: string, authToken: string, other: string, header: string)
    requires httpMethod != "OPTIONS"
    ensures other != authToken ==> AuthGate(httpMethod, "Bearer " + other, authToken) == Unauthorized
    ensures !(|header| >= 7 && header[..7] == "Bearer ") ==> AuthGate(httpMethod, header, authToken) == Unauthorized
    ensures AuthGate(httpMethod, "", authToken) == Unauthorized
  {
    var expected := ExpectedAuth(authToken);
    assert expected[..7] == "Bearer ";
    assert expected[7..] == authToken;
    assert ("Bearer " + other)[7..] == other;
  }
}
