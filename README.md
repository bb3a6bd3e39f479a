# nvim-gemini-cli server core in Dafny

This project models the Go server that connects Neovim to the Gemini CLI as an
MCP ("Model Context Protocol") IDE companion, and proves properties of the model.
The server has four pieces of logic, and each one is modelled here.

- **Request dispatch** (`dispatch.dfy`, module `Dispatch`). This covers:
  - the table of four diff tools (`openDiff`, `closeDiff`, `acceptDiff`, `rejectDiff`);
  - the four tool handlers, with the Neovim client as an oracle from the call made to its answer;
  - `tools/call` validation and its JSON-RPC error codes -32602 and -32603;
  - routing of the MCP endpoint by HTTP method and JSON-RPC method, with -32601 for an unknown method;
  - the bearer-token gate.
- **The server object** (`server.dfy`, module `Mcp`, class `Server`). It holds the token, the tool table and the ordered list of subscriber channels. Its methods are:
  - tool registration and `tools/list`;
  - the MCP endpoint behind the gate;
  - `SendNotification` and its three wrappers;
  - the event-stream lifecycle: the auth gate, registration of a channel, the `: connected` comment, one `data:` frame per received notification, and teardown.
- **Subscriber lists as values** (`fanout.dfy`, module `Fanout`). These are the functions that specify the server's updates: `Broadcast`, the non-blocking send into every channel of capacity 10, and `RemoveFirst`, the teardown splice. The lemmas about them are also here.
- **Process discovery** (`discovery.dfy`, module `Discovery`). This covers:
  - the start-up argument check and the descriptor names `gemini-ide-server-<pid>-<port>.json`;
  - parent-pid extraction from `/proc/<pid>/stat` text (an imperative backward scan, proved against a functional specification);
  - the "is this Neovim" test and the signal-0 liveness classification;
  - creation and removal of the owner and parent descriptors, as updates to a map of file names (class `DescriptorDirectory`).
- **Logger** (`logger.dfy`, class `Logger.Logger`): the mutable threshold, level-name parsing, the `level >= currentLevel` filter and `Fatal`.
- **Supporting modules**:
  - `wrappers.dfy`: `Option` and `Outcome`.
  - `text.dfy`: Go's `unicode.IsSpace`, `strings.ToLower`, `strings.Contains`, `strings.TrimSpace` and `strings.Fields`.
  - `decimal.dfy`: `%d` formatting and `fmt.Sscanf("%d")` scanning, including the int64 range.
  - `types.dfy`: the JSON-RPC and discovery data shapes.

Everything the operating system or a library supplies is a parameter:
- the Neovim client's answers;
- JSON marshalling of a notification;
- whether the response can stream;
- the text of `/proc/<pid>/stat` and `/proc/<pid>/cmdline`, or the output of `ps`;
- the signal-0 result;
- the errors of `MkdirAll` and `WriteFile`.

Three facts about the Go program shape the model:
- The handlers accept any `filePath`; none checks that it is absolute.
- `closeDiff` has no flag that suppresses notifications.
- The accept/reject state machine of a diff session (supersede, at-most-once accept or reject) lives in the Lua module. The Go side only forwards calls to the client and relays notifications.

A GET on `/mcp` that accepts `text/event-stream` is routed to the event stream: `Mcp.Server.HandleMCP` returns the `StreamRequested` reply, and the stream itself is `Mcp.Server.OpenEventStream` followed by `Mcp.Server.Deliver`.

## Model

| member | source | states |
|---|---|---|
| Dispatch.Registry | server/mcp/server.go:44-72 | the table holds exactly the four tool names, each under its own name with its own handler |
| Mcp.Server.constructor | server/mcp/server.go:32-41 | a new server has the four tools registered and no subscribers, and its invariant holds |
| Mcp.Server.RegisterTools | server/mcp/server.go:44-72 | registration adds the four tools to the table and changes nothing else |
| Dispatch.Describe | server/mcp/server.go:289-306 | a tool is listed with its own name and description |
| Dispatch.StringArg | server/mcp/server.go:79-85 | an argument is found exactly when it is present and a JSON string, and then it is that string |
| Dispatch.HandleOpenDiff | server/mcp/server.go:75-112 | `filePath` is checked first ("Invalid filePath"), then `newContent` ("Invalid newContent"); only with both does the client get an open call; a client error gives "Failed to open diff: …" flagged as an error, success gives an empty result; never a Go error |
| Dispatch.HandleCloseDiff | server/mcp/server.go:115-138 | a missing `filePath` gives "Invalid filePath"; otherwise a client error is flagged "Failed to close diff: …", and success is one text block holding the content the client returned |
| Dispatch.HandleAcceptDiff | server/mcp/server.go:141-164 | a missing `filePath` gives "Invalid filePath"; a client error gives "Failed to accept diff: …"; success gives an empty result |
| Dispatch.HandleRejectDiff | server/mcp/server.go:167-190 | a missing `filePath` gives "Invalid filePath"; a client error gives "Failed to reject diff: …"; success gives an empty result |
| Dispatch.ClientFailure | server/mcp/server.go:100-105 | a client failure is one text block "Failed to <operation>: <message>" with the error flag set |
| Dispatch.IncompleteArgumentsSkipClient | server/mcp/server.go:79-92 | with incomplete arguments the result is an error and does not depend on the client, so the client is not consulted |
| Dispatch.RunHandler | server/mcp/server.go:345-346 | the tool's own handler runs and always returns a tool result; a missing `filePath` gives "Invalid filePath", a missing `newContent` (openDiff only) gives "Invalid newContent", and a client failure names the handler's operation |
| Dispatch.HandlerSucceedsIff | server/mcp/server.go:75-190 | every handler returns a tool result, never a Go error, and the result is not an error exactly when the arguments are complete and the client succeeded |
| Dispatch.SendError | server/mcp/server.go:408-418 | an error response carrying the request's id, the code and the message |
| Dispatch.CallArguments | server/mcp/server.go:339-342 | the `arguments` object when it is present and an object, otherwise the empty map |
| Dispatch.ToolsCall | server/mcp/server.go:321-359 | the response carries the request's id; for a registered tool it is the result envelope holding exactly the tool's handler result on the call's arguments, so a client failure gives the error-flagged "Failed to <operation>: …" result and an `openDiff` without `newContent` gives "Invalid newContent" |
| Dispatch.ToolsCallRejectsBadName | server/mcp/server.go:322-337 | a missing or non-string name gives -32602 "Missing tool name"; an unregistered name gives -32602 "Tool not found"; in both cases the response does not depend on the client |
| Dispatch.RegisteredToolNeverInternalError | server/mcp/server.go:345-358 | a call to a registered tool always gets a result envelope with a tool result, never the -32603 error |
| Dispatch.ToolsCallWithoutArguments | server/mcp/server.go:339-342 | without an `arguments` object every registered tool answers with the error result "Invalid filePath" |
| Dispatch.SuccessfulCallContent | server/mcp/server.go:107-111 | a successful call had complete arguments; `closeDiff` returns exactly one text block with the client's content, and the other tools return no content |
| Dispatch.RouteRequest | server/mcp/server.go:219-258 | a GET accepting `text/event-stream` goes to the stream; any other non-POST gets 405; a POST whose body does not decode gets 400; a method other than the four known ones gets "Method not found", each in both directions; a POSTed `initialize`, `tools/list`, `tools/call` or `notifications/initialized` goes to its own route, with the request's id or the request itself |
| Dispatch.InitializeResponse | server/mcp/server.go:261-280 | the `initialize` answer echoes the id and gives protocol version "2025-06-18", server "nvim-gemini-cli" 0.1.0 and `listChanged` false |
| Dispatch.AuthGate | server/mcp/server.go:193-216 | OPTIONS is answered without the handler; any other request reaches the handler exactly when its header equals "Bearer " + token |
| Dispatch.AuthRejectsWrongCredentials | server/mcp/server.go:206-212 | a wrong token, a header without the "Bearer " prefix, and the empty header are all refused |
| Mcp.Server.HandleToolsList | server/mcp/server.go:283-318 | the list describes every registered tool exactly once and nothing else, in some iteration order of the table |
| Mcp.Server.HandleMCP | server/mcp/server.go:219-258 | the reply is the one the route calls for: the stream, 405 or 400, the initialize result, the tool listing, the tools/call response, 202, or -32601 |
| Mcp.Server.ServeMCP | server/mcp/server.go:193-216 | OPTIONS gets 200 and a wrong credential gets 401 "Unauthorized", neither reaching the handler; every other request is answered by the handler |
| Mcp.Server.SendNotification | server/mcp/server.go:362-380 | every channel with room gets the notification at the end of its buffer, full channels are unchanged, no subscriber is added or removed, and the capacity bound holds |
| Mcp.Server.SendContextUpdate | server/mcp/server.go:383-388 | broadcasts `ide/contextUpdate` carrying the workspace state |
| Mcp.Server.SendDiffAccepted | server/mcp/server.go:391-397 | broadcasts `ide/diffAccepted` carrying the file path and content |
| Mcp.Server.SendDiffRejected | server/mcp/server.go:400-405 | broadcasts `ide/diffRejected` carrying the file path |
| Mcp.Server.OpenEventStream | server/mcp/sse.go:22-65 | a wrong credential writes one error event and leaves the list unchanged; without streaming support the new channel is appended and then torn down, so the list is unchanged; otherwise exactly one new empty channel is appended at the end and `: connected` is written |
| Mcp.Server.CloseEventStream | server/mcp/sse.go:42-52 | teardown removes the first channel with this identity and keeps the invariant |
| Mcp.Server.Deliver | server/mcp/sse.go:68-82 | the channel's buffered notifications are taken oldest first, each giving one `data:` frame unless it fails to marshal; the channel ends empty and every other channel is untouched |
| Mcp.DataFramesCount | server/mcp/sse.go:73-80 | the number of frames is the number of notifications less the marshal failures, and every frame is a `data:` frame |
| Mcp.DataFramesAllMarshal | server/mcp/sse.go:73-80 | when every notification marshals, frame k carries notification k |
| Fanout.BroadcastAt | server/mcp/server.go:372-379 | the broadcast keeps length, order and identities; a channel with room gains the notification at its end; a full channel is untouched |
| Fanout.BroadcastPointwise | server/mcp/server.go:372-379 | the broadcast is the per-channel non-blocking send applied at every position |
| Fanout.BroadcastKeepsShape | server/mcp/server.go:372-379 | the broadcast keeps every channel within capacity 10 and keeps the identities |
| Fanout.RemoveFirstSplices | server/mcp/sse.go:44-48 | when k is the first position holding the channel, teardown splices out exactly position k |
| Fanout.RemoveFirstAbsent | server/mcp/sse.go:44-49 | tearing down a channel that is not in the list changes nothing |
| Fanout.RegisterThenRemove | server/mcp/sse.go:37-51 | appending a new channel and tearing it down restores the list |
| Fanout.SpliceKeepsShape | server/mcp/sse.go:46 | splicing one position out keeps the capacity bound and distinct identities, and adds no channel |
| Discovery.StartupError | server/main.go:38-40 | start-up stops with the usage line exactly when the address or the workspace is empty or the pid is 0 |
| Discovery.DescriptorName | server/main.go:219 | the name is "gemini-ide-server-", then the `%d` pid and port joined by a dash, then ".json" |
| Discovery.DescriptorNameInjective | server/main.go:219 | distinct (pid, port) pairs give distinct descriptor names, for all integers |
| Discovery.DescriptorNamesDiffer | server/main.go:219 | the same fact stated the other way round: different pids or ports never share a descriptor file |
| Discovery.LastIndexOf | server/main.go:275-281 | the result is -1 or a position holding the character, with no occurrence after it |
| Discovery.StatParentPid | server/main.go:272-291 | a non-zero parent pid comes only from a text holding `)`, and it lies in the int64 range |
| Discovery.ParseStatParentPid | server/main.go:272-291 | the backward scan for the last `)` followed by the field split computes the stat specification |
| Discovery.StatWithoutParen | server/main.go:282-284 | a text without `)` gives parent pid 0 |
| Discovery.StatParentPidWellFormed | server/main.go:272-291 | a line `<head>) <state> <ppid><rest>` gives ppid, whatever the command name in `head` holds, `)` and spaces included |
| Discovery.GetParentPid | server/main.go:263-306 | 0 when the probe fails and on any platform other than Linux and macOS; on Linux the stat parse; on macOS the `%d` scan of the trimmed `ps` output, or 0 when it does not scan |
| Discovery.DarwinParentPid | server/main.go:292-302 | `ps` output holding the parent pid padded with white space gives that pid |
| Discovery.IsNvimProcess | server/main.go:309-333 | on Linux and macOS a process looks like Neovim exactly when its command probe succeeds and the text contains "nvim" (trimming on macOS does not matter); elsewhere it never does |
| Discovery.ParentDescriptorName | server/main.go:233-241 | a parent descriptor exists exactly when the parent pid is positive, differs from the pid and looks like Neovim; its name differs from the owner's |
| Discovery.Signal | server/main.go:182 | the error signal 0 returns: nil on success, `os.ErrProcessDone` exactly when `kill` reports ESRCH, otherwise the wrapped errno; never a bare errno |
| Discovery.IsProcessAliveAsWritten | server/main.go:176-191 | as written: dead only when the process is not found or the error equals the bare errno ESRCH |
| Discovery.AsWrittenNeverDetectsExit | server/main.go:183-188 | as written, a found process is reported alive whatever `kill` reports, including ESRCH |
| Discovery.IsProcessAlive | server/main.go:176-191 | as intended: dead when not found, or on `os.ErrProcessDone` or ESRCH bare or wrapped; any other error, a permission error included, means alive |
| Discovery.AliveIffKillFinds | server/main.go:176-191 | with the intended test, a found process is alive exactly when `kill` does not report ESRCH |
| Discovery.CreateThenRemove | server/main.go:193-260 | when the host's probes answer the same at creation and at removal, creation followed by removal restores a directory that held neither descriptor |
| Discovery.RemoveLeaksParentWhenUnprobed | server/main.go:350-351 | when the process can no longer be probed at removal, the parent's descriptor written at creation survives removal |
| Discovery.WrittenNames | server/main.go:219-248 | the names creation writes: always the owner's, and otherwise only the parent's |
| Discovery.AfterRemoveWritten | server/main.go:335-361 | removal of recorded names deletes exactly those names and keeps every other file's content |
| Discovery.CreateThenRemoveWritten | server/main.go:193-260 | creation adds exactly the written names, and removing them restores the directory whatever the host answers at shutdown |
| Discovery.CreateWritesAtMostTwo | server/main.go:219-248 | creation writes the owner's descriptor and at most the parent's besides, both with the same content |
| Discovery.DescriptorDirectory.CreateDiscoveryFile | server/main.go:193-260 | a directory or main-write failure is an error and writes nothing; otherwise the call succeeds, and a failed parent write is only logged |
| Discovery.DescriptorDirectory.RemoveDiscoveryFile | server/main.go:335-361 | removes the owner's descriptor and, under the same rule, the parent's; it never reports an error |
| Decimal.FormatIntInjective | server/main.go:219 | distinct integers have distinct `%d` renderings |
| Decimal.ScanFormatRoundTrip | server/main.go:289-290 | scanning the `%d` rendering of an int64 gives the number back |
| Text.FieldsWordThenRest | server/main.go:286 | a space-free word followed by white space or nothing is the first field, and the fields of the rest follow it |
| Text.TrimPadded | server/main.go:301 | trimming a space-free word padded with white space gives the word |
| Text.ContainsTrimSpace | server/main.go:329-330 | trimming white space does not change whether a space-free word occurs |
| Logger.ParseLevel | server/logger/logger.go:40-50 | a name parses exactly when its lower case is "debug", "info", "warn", "warning" or "error", and then denotes one of the four named levels; every other string is rejected |
| Logger.ParseLevelIgnoresCase | server/logger/logger.go:40 | names that lower-case alike parse alike |
| Logger.ParseLevelName | server/logger/logger.go:25-30 | every level's own name parses back to that level |
| Logger.ParseLevelWarning | server/logger/logger.go:45 | "warning" in any case is WARN |
| Logger.EmitsMonotone | server/logger/logger.go:13-21 | levels are ordered, so a message passing at a threshold passes at every lower one, and a more severe message passes whenever a less severe one does |
| Logger.ErrorAlwaysEmitted | server/logger/logger.go:62 | with a named threshold, ERROR messages always pass |
| Logger.FormatLine | server/logger/logger.go:63-64 | a written line starts with `[NAME] ` |
| Logger.Logger.constructor | server/logger/logger.go:24 | the threshold starts at INFO |
| Logger.Logger.SetLevel | server/logger/logger.go:34-36 | the threshold becomes the given level |
| Logger.Logger.SetLevelFromString | server/logger/logger.go:39-53 | success exactly for the four names (and "warning") in any case, setting that level; otherwise the error "invalid log level: <s>" and the threshold is unchanged |
| Logger.Logger.GetLevel | server/logger/logger.go:56-58 | returns the current threshold |
| Logger.Logger.Logf | server/logger/logger.go:61-66 | a line is written exactly when the level is at least the threshold, and it is `[NAME] ` followed by the message |
| Logger.Logger.Fatal | server/logger/logger.go:89-92 | an `[ERROR]` line is written whenever the threshold is at most ERROR, and the process exits with the message |

## Findings

| source | as written | input that shows it | evidently intended | confidence | as-written member | corrected member |
|---|---|---|---|---|---|---|
| server/main.go:183-188 | `err == syscall.ESRCH` compares with the bare errno, but on Unix `os.Process.Signal` turns ESRCH into `os.ErrProcessDone` and wraps other errnos, so the comparison never matches | a Neovim process that has exited: `kill` reports ESRCH, `Signal` returns `os.ErrProcessDone`, and the process is reported alive, so the liveness monitor never shuts the server down | dead on `errors.Is(err, os.ErrProcessDone)` (or ESRCH, bare or wrapped) | medium (rests on the Go standard library's `Signal`); not executed | Discovery.AsWrittenNeverDetectsExit | Discovery.AliveIffKillFinds |
| server/main.go:349-351 | removal recomputes the parent pid from `/proc/<pid>/stat` or `ps` at shutdown | shutdown after the Neovim process is gone: the probe fails, the parent pid reads 0, and the parent descriptor written at creation stays in the directory | remove the names written at creation | medium; not executed | Discovery.RemoveLeaksParentWhenUnprobed | Discovery.CreateThenRemoveWritten |

`Discovery.DescriptorDirectory.RemoveDiscoveryFile` keeps the as-written removal, since it models the Go function. Nothing else in the model uses the liveness test.

## Left out

- HTTP plumbing is not modelled: response headers, CORS, `http.Error` bodies, JSON encoding of responses and request-body decoding. A body that fails to decode is the input `None`. The health endpoint is also left out.
- Concurrency is not modelled: goroutines, the mutex, the shutdown channel, the two-second ticker and OS signal handling. The fan-out and the stream are sequential operations on the subscriber list.
- The Go `main` function's wiring is not modelled: dialling Neovim, registering callbacks, the listener, token generation with `uuid.New`, and the shutdown sequence. Its start-up argument check and the discovery functions it calls are modelled.
- `server/nvim/client.go` is not part of this model. The client is an oracle. The diff-session state machine of the Lua module is not modelled.
- Mcp.Server.Deliver: it drains whatever is buffered in one step. Request-context cancellation, which ends the stream, is not modelled.
- Mcp.Server.OpenEventStream: it covers headers up to the `: connected` comment. Frames written later are `Deliver`'s.
- Mcp.Server.HandleToolsList: it fixes the listing's content but not its order, because Go's map iteration order is unspecified.
- Channel identity is a number handed out by the server. A Go channel value compares by reference; fresh numbers play that role.
- Text.ToLower: it lowers ASCII letters and the two non-ASCII letters whose lower case is ASCII. Lowering of other Unicode letters is not modelled. It cannot change whether the result equals an ASCII level name.
- JSON numbers are integers in `Types.Json`. Floating point is not modelled.
- Debug, Info, Warn and Error in the logger are `Logf` at a fixed level, so they have no members of their own. The printf-style formatting of the message and the `log` package's timestamp prefix are not modelled.
- Marshalling the discovery descriptor cannot fail for its plain fields, so the "failed to marshal discovery file" error is not modelled. The file's JSON text is the `DiscoveryFile` value itself.
- The directory path (`os.TempDir()/gemini/ide`) is left out. Files are keyed by name within that directory.
- Discovery.DescriptorDirectory.RemoveDiscoveryFile: a removal error other than an absent file (a permission error, say) would leave the file in place. The model removes the name in every case.
