/**
 * The MCP server object: its token, its tool table and its subscriber list,
 * with the operations that read or update them: tool registration,
 * `tools/list`, the HTTP entry points, the notification fan-out and the
 * event-stream lifecycle.
 */
module Mcp {
  import opened Wrappers
  import opened Types
  import opened Dispatch
  import opened Fanout

  /** What the server answers on the MCP endpoint. */
  datatype HttpReply =
    | StreamRequested
    | Status(code: int, text: string)
    | Body(response: McpResponse)

  /** The outcome of opening an event stream: one error event, or a registered channel and the comment written first. */
  datatype StreamOpen = Refused(event: string) | Connected(channel: nat, comment: string)

  /** The frames of the event stream. */
  const UnauthorizedEvent: string := "event: error\ndata: {\"error\":\"Unauthorized\"}\n\n"
  const StreamingUnsupportedEvent: string := "event: error\ndata: {\"error\":\"Streaming unsupported\"}\n\n"
  const ConnectedComment: string := ": connected\n\n"

  function DataFrame(json: string): string {
    "data: " + json + "\n\n"
  }

  /** JSON encoding of a notification; `None` is a marshalling error. */
  type Marshal = McpNotification -> Option<string>

  /** The frames written for a run of received notifications: one per notification that marshals, none for one that does not. */
  function DataFrames(items: seq<McpNotification>, marshal: Marshal): seq<string> {
    if items == [] then []
    else
      var init := DataFrames(items[..|items| - 1], marshal);
      match marshal(items[|items| - 1])
      case None => init
      case Some(json) => init + [DataFrame(json)]
  }

  /** How many of `items` fail to marshal. */
  function MarshalFailures(items: seq<McpNotification>, marshal: Marshal): nat {
    if items == [] then 0
    else MarshalFailures(items[..|items| - 1], marshal) + (if marshal(items[|items| - 1]).None? then 1 else 0)
  }

  /**
   * Exactly one frame per notification that marshals, in order: the number of
   * frames is the number of notifications less the failures, and every frame
   * is a `data:` frame.
   */
  lemma {:induction false} DataFramesCount(items: seq<McpNotification>, marshal: Marshal)
    ensures |DataFrames(items, marshal)| == |items| - MarshalFailures(items, marshal)
    ensures forall k :: 0 <= k < |DataFrames(items, marshal)| ==>
              exists json :: DataFrames(items, marshal)[k] == DataFrame(json)
  {
    if items != [] {
      var init := items[..|items| - 1];
      DataFramesCount(init, marshal);
      var frames := DataFrames(items, marshal);
      forall k | 0 <= k < |frames|
        ensures exists json :: frames[k] == DataFrame(json)
      {
        if k < |DataFrames(init, marshal)| {
          assert frames[k] == DataFrames(init, marshal)[k];
        } else {
          assert frames[k] == DataFrame(marshal(items[|items| - 1]).value);
        }
      }
    }
  }

  /** When every notification marshals, frame `k` carries notification `k`. */
  lemma {:induction false} DataFramesAllMarshal(items: seq<McpNotification>, marshal: Marshal)
    requires forall k :: 0 <= k < |items| ==> marshal(items[k]).Some?
    ensures |DataFrames(items, marshal)| == |items|
    ensures forall k :: 0 <= k < |items| ==> DataFrames(items, marshal)[k] == DataFrame(marshal(items[k]).value)
  {
    if items != [] {
      var init := items[..|items| - 1];
      DataFramesAllMarshal(init, marshal);
    }
  }

  /** The notifications the server emits. */
  function Notification(methodName: string, params: map<string, Json>): McpNotification {
    McpNotification("2.0", methodName, params)
  }

  function ContextUpdateNotification(context: IdeContext): McpNotification {
    Notification("ide/contextUpdate", map["workspaceState" := WorkspaceStateJson(context.workspaceState)])
  }

  function DiffAcceptedNotification(filePath: string, content: string): McpNotification {
    Notification("ide/diffAccepted", map["filePath" := JString(filePath), "content" := JString(content)])
  }

  function DiffRejectedNotification(filePath: string): McpNotification {
    Notification("ide/diffRejected", map["filePath" := JString(filePath)])
  }

  /** `list` describes every tool of `tools` once and nothing else. */
  ghost predicate IsToolListing(tools: map<string, Tool>, list: seq<ToolInfo>) {
    |list| == |tools| &&
    (forall k :: k in tools ==> Describe(tools[k]) in list) &&
    (forall i :: 0 <= i < |list| ==> exists k :: k in tools && list[i] == Describe(tools[k]))
  }

  /** The reply of the MCP endpoint to a request routed to `route`. */
  ghost predicate RepliesTo(reply: HttpReply, route: Route, tools: map<string, Tool>, client: Client) {
    match route
    case ToStream => reply == StreamRequested
    case HttpFailure(status, text) => reply == Status(status, text)
    case Initialize(id) => reply == Body(InitializeResponse(id))
    case ListTools(id) =>
      reply.Body? && reply.response.ResultResponse? && reply.response.id == id &&
      reply.response.result.ToolsListResult? && IsToolListing(tools, reply.response.result.tools)
    case CallTool(req) => reply == Body(ToolsCall(tools, req, client))
    case InitializedAck => reply == Status(202, "")
    case UnknownMethod(id) => reply == Body(SendError(id, MethodNotFound, "Method not found"))
  }

  class Server {
    const authToken: string
    var tools: map<string, Tool>
    var subscribers: seq<Channel>
    /** Channel identities are never reused: every identity handed out is below this one. */
    var nextChannel: nat

    /** Every channel is within capacity, appears once, and has an identity already handed out. */
    ghost predicate Valid()
      reads this
    {
      Bounded(subscribers) && DistinctIds(subscribers) &&
      forall i :: 0 <= i < |subscribers| ==> subscribers[i].id < nextChannel
    }

    /** A new server has the four tools registered and no subscribers. */
    constructor (authToken: string)
      ensures Valid()
      ensures this.authToken == authToken && tools == Registry() && subscribers == []
    {
      this.authToken := authToken;
      tools := map[];
      subscribers := [];
      nextChannel := 0;
      new;
      RegisterTools();
    }

    /** Registers the four tools, each under its name. */
    method RegisterTools()
      modifies this`tools
      ensures tools == old(tools) + Registry()
    {
      tools := tools[OpenDiffTool.name := OpenDiffTool];
      tools := tools[CloseDiffTool.name := CloseDiffTool];
      tools := tools[AcceptDiffTool.name := AcceptDiffTool];
      tools := tools[RejectDiffTool.name := RejectDiffTool];
    }

    /**
     * The `tools/list` result: every registered tool described once, in the
     * order `order` of the table's iteration (which Go leaves unspecified).
     */
    method HandleToolsList() returns (list: seq<ToolInfo>, ghost order: seq<string>)
      ensures |list| == |order| == |tools|
      ensures forall i :: 0 <= i < |order| ==> order[i] in tools && list[i] == Describe(tools[order[i]])
      ensures forall i, j :: 0 <= i < j < |order| ==> order[i] != order[j]
      ensures forall k :: k in tools ==> k in order
      ensures IsToolListing(tools, list)
    {
      var remaining := tools.Keys;
      list, order := [], [];
      while remaining != {}
        invariant remaining <= tools.Keys
        invariant |order| + |remaining| == |tools|
        invariant |list| == |order|
        invariant forall i :: 0 <= i < |order| ==> order[i] in tools && order[i] !in remaining
        invariant forall i :: 0 <= i < |order| ==> list[i] == Describe(tools[order[i]])
        invariant forall i, j :: 0 <= i < j < |order| ==> order[i] != order[j]
        invariant forall k :: k in tools ==> k in remaining || k in order
        decreases |remaining|
      {
        var k :| k in remaining;
        list := list + [Describe(tools[k])];
        order := order + [k];
        remaining := remaining - {k};
      }
      forall k | k in tools
        ensures Describe(tools[k]) in list
      {
        var i :| 0 <= i < |order| && order[i] == k;
        assert list[i] == Describe(tools[k]);
      }
    }

    /** The MCP endpoint behind the authentication gate. */
    method HandleMCP(httpMethod: string, accept: string, body: Option<McpRequest>, client: Client)
      returns (reply: HttpReply)
      ensures RepliesTo(reply, RouteRequest(httpMethod, accept, body), tools, client)
    {
      var route := RouteRequest(httpMethod, accept, body);
      match route
      case ToStream =>
        reply := StreamRequested;
      case HttpFailure(status, text) =>
        reply := Status(status, text);
      case Initialize(id) =>
        reply := Body(InitializeResponse(id));
      case ListTools(id) =>
        var list, order := HandleToolsList();
        reply := Body(ResultResponse(id, ToolsListResult(list)));
      case CallTool(req) =>
        reply := Body(ToolsCall(tools, req, client));
      case InitializedAck =>
        reply := Status(202, "");
      case UnknownMethod(id) =>
        reply := Body(SendError(id, MethodNotFound, "Method not found"));
    }

    /**
     * The MCP endpoint as mounted: an OPTIONS request gets 200 and a request
     * with the wrong credential gets 401, neither reaching the handler;
     * every other request is answered by the handler.
     */
    method ServeMCP(httpMethod: string, authHeader: string, accept: string, body: Option<McpRequest>, client: Client)
      returns (reply: HttpReply)
      ensures httpMethod == "OPTIONS" ==> reply == Status(200, "")
      ensures httpMethod != "OPTIONS" && authHeader != ExpectedAuth(authToken) ==> reply == Status(401, "Unauthorized")
      ensures httpMethod != "OPTIONS" && authHeader == ExpectedAuth(authToken) ==>
                RepliesTo(reply, RouteRequest(httpMethod, accept, body), tools, client)
    {
      match AuthGate(httpMethod, authHeader, authToken)
      case Preflight =>
        reply := Status(200, "");
      case Unauthorized =>
        reply := Status(401, "Unauthorized");
      case Proceed =>
        reply := HandleMCP(httpMethod, accept, body, client);
    }

    /**
     * Offers the notification to every subscriber without blocking: each
     * channel with room gets it at the end of its buffer, each full channel
     * drops it; no subscriber is added or removed.
     */
    method SendNotification(methodName: string, params: map<string, Json>)
      requires Valid()
      modifies this`subscribers
      ensures Valid()
      ensures subscribers == Broadcast(old(subscribers), Notification(methodName, params))
    {
      var n := Notification(methodName, params);
      ghost var before := subscribers;
      var i := 0;
      while i < |subscribers|
        invariant 0 <= i <= |subscribers| == |before|
        invariant forall j :: 0 <= j < i ==> subscribers[j] == Offer(before[j], n)
        invariant forall j :: i <= j < |subscribers| ==> subscribers[j] == before[j]
      {
        if HasRoom(subscribers[i]) {
          subscribers := subscribers[i := subscribers[i].(buffer := subscribers[i].buffer + [n])];
        }
        i := i + 1;
      }
      BroadcastPointwise(before, n, subscribers);
      BroadcastKeepsShape(before, n);
    }

    method SendContextUpdate(context: IdeContext)
      requires Valid()
      modifies this`subscribers
      ensures Valid()
      ensures subscribers == Broadcast(old(subscribers), ContextUpdateNotification(context))
    {
      SendNotification("ide/contextUpdate", map["workspaceState" := WorkspaceStateJson(context.workspaceState)]);
    }

    method SendDiffAccepted(filePath: string, content: string)
      requires Valid()
      modifies this`subscribers
      ensures Valid()
      ensures subscribers == Broadcast(old(subscribers), DiffAcceptedNotification(filePath, content))
    {
      SendNotification("ide/diffAccepted", map["filePath" := JString(filePath), "content" := JString(content)]);
    }

    method SendDiffRejected(filePath: string)
      requires Valid()
      modifies this`subscribers
      ensures Valid()
      ensures subscribers == Broadcast(old(subscribers), DiffRejectedNotification(filePath))
    {
      SendNotification("ide/diffRejected", map["filePath" := JString(filePath)]);
    }

    /**
     * Opening the event stream. A wrong credential writes one error event and
     * registers nothing. Otherwise one empty channel is appended at the end of
     * the list; if the response cannot stream, an error event is written and
     * the teardown removes the channel again; else the `: connected` comment
     * is written and the channel stays registered.
     */
    method OpenEventStream(authHeader: string, canFlush: bool) returns (outcome: StreamOpen)
      requires Valid()
      modifies this`subscribers, this`nextChannel
      ensures Valid()
      ensures authHeader != ExpectedAuth(authToken) ==>
                outcome == Refused(UnauthorizedEvent) && subscribers == old(subscribers)
      ensures authHeader == ExpectedAuth(authToken) && !canFlush ==>
                outcome == Refused(StreamingUnsupportedEvent) && subscribers == old(subscribers)
      ensures authHeader == ExpectedAuth(authToken) && canFlush ==>
                outcome == Connected(old(nextChannel), ConnectedComment) &&
                subscribers == old(subscribers) + [Channel(old(nextChannel), [])]
    {
      if authHeader != ExpectedAuth(authToken) {
        return Refused(UnauthorizedEvent);
      }
      var id := nextChannel;
      nextChannel := nextChannel + 1;
      ghost var before := subscribers;
      subscribers := subscribers + [Channel(id, [])];
      if !canFlush {
        CloseEventStream(id);
        RegisterThenRemove(before, Channel(id, []));
        return Refused(StreamingUnsupportedEvent);
      }
      outcome := Connected(id, ConnectedComment);
    }

    /** The teardown of a stream: removes the first channel with this identity, keeping the others in order. */
    method CloseEventStream(id: nat)
      requires Valid()
      modifies this`subscribers
      ensures Valid()
      ensures subscribers == RemoveFirst(old(subscribers), id)
    {
      var i := 0;
      while i < |subscribers|
        invariant 0 <= i <= |subscribers|
        invariant forall j :: 0 <= j < i ==> subscribers[j].id != id
        invariant subscribers == old(subscribers)
      {
        if subscribers[i].id == id {
          RemoveFirstSplices(subscribers, id, i);
          SpliceKeepsShape(subscribers, i);
          subscribers := subscribers[..i] + subscribers[i + 1..];
          return;
        }
        i := i + 1;
      }
      RemoveFirstAbsent(subscribers, id);
    }

    /**
     * The receive loop of a stream: takes the notifications buffered in the
     * channel one at a time, oldest first, and writes one `data:` frame for
     * each that marshals, skipping those that do not. The channel ends empty;
     * every other channel is untouched.
     */
    method Deliver(id: nat, marshal: Marshal) returns (frames: seq<string>)
      requires Valid()
      modifies this`subscribers
      ensures Valid()
      ensures |subscribers| == |old(subscribers)|
      ensures forall j :: 0 <= j < |subscribers| && old(subscribers)[j].id != id ==> subscribers[j] == old(subscribers)[j]
      ensures forall j :: 0 <= j < |subscribers| && old(subscribers)[j].id == id ==>
                subscribers[j] == Channel(id, []) && frames == DataFrames(old(subscribers)[j].buffer, marshal)
      ensures (forall j :: 0 <= j < |subscribers| ==> old(subscribers)[j].id != id) ==> frames == []
    {
      frames := [];
      var k := 0;
      while k < |subscribers| && subscribers[k].id != id
        invariant 0 <= k <= |subscribers|
        invariant forall j :: 0 <= j < k ==> subscribers[j].id != id
      {
        k := k + 1;
      }
      if k == |subscribers| {
        return;
      }
      ghost var before := subscribers;
      ghost var pending := subscribers[k].buffer;
      var taken := 0;
      while subscribers[k].buffer != []
        invariant |subscribers| == |before| && 0 <= taken <= |pending|
        invariant forall j :: 0 <= j < |subscribers| && j != k ==> subscribers[j] == before[j]
        invariant subscribers[k] == Channel(id, pending[taken..])
        invariant frames == DataFrames(pending[..taken], marshal)
        decreases |subscribers[k].buffer|
      {
        var notif := subscribers[k].buffer[0];
        subscribers := subscribers[k := subscribers[k].(buffer := subscribers[k].buffer[1..])];
        assert pending[..taken + 1][..taken] == pending[..taken];
        taken := taken + 1;
        match marshal(notif)
        case None =>
        case Some(json) =>
          frames := frames + [DataFrame(json)];
      }
      assert pending[..taken] == pending;
      assert DistinctIds(before);
    }
  }
}
