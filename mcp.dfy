/**
 * The Model Context Protocol endpoint (src/mcp.rs): one JSON-RPC 2.0 request
 * in, one response out. The envelope is checked, the method dispatched
 * ("initialize", "tools/list", "tools/call"), and failures mapped to the
 * error codes of section 5.1 of the JSON-RPC 2.0 Specification plus -32000
 * for memory-store failures. tools/call reaches the memory store directly,
 * through four tools of its own.
 */
module Mcp {
  import opened Wrappers
  import opened Json
  import opened Store
  import Memory
  import opened ToolBase
  import MemoryTools

  datatype Request = Request(jsonrpc: string, id: Option<Json>, rpcMethod: string, params: Json)

  datatype RpcError = RpcError(code: int, message: string)

  datatype Response = Response(jsonrpc: string, id: Json, result: Option<Json>, error: Option<RpcError>)

  const InvalidRequest: int := -32600
  const MethodNotFound: int := -32601
  const InvalidParams: int := -32602
  const ServerError: int := -32000

  const ProtocolVersion: string := "2024-11-05"

  /** JsonRpcResponse::ok. */
  function OkResponse(id: Json, result: Json): (r: Response)
    ensures r.jsonrpc == "2.0" && r.id == id && r.result == Some(result) && r.error.None?
  {
    Response("2.0", id, Some(result), None)
  }

  /** JsonRpcResponse::err. */
  function ErrResponse(id: Json, code: int, message: string): (r: Response)
    ensures r.jsonrpc == "2.0" && r.id == id && r.result.None? && r.error == Some(RpcError(code, message))
  {
    Response("2.0", id, None, Some(RpcError(code, message)))
  }

  /** The answer to "initialize"; `version` is the crate version the server is built with. */
  function InitializeResult(name: string, version: string): (r: Json)
    ensures Get(r, "protocolVersion") == Str(ProtocolVersion)
    ensures Get(Get(r, "serverInfo"), "name") == Str(name)
  {
    Object(map[
      "protocolVersion" := Str(ProtocolVersion),
      "capabilities" := Object(map["tools" := EmptyObject]),
      "serverInfo" := Object(map["name" := Str(name), "version" := Str(version)])])
  }

  function ListedTool(name: string, description: string, schema: Json): (r: Json)
    ensures Get(r, "name") == Str(name)
  {
    Object(map["name" := Str(name), "description" := Str(description), "inputSchema" := schema])
  }

  const ListedNames: seq<string> := ["read_core_memory", "update_core_memory", "search_logs", "read_daily_log"]

  /** The description of each listed tool, in the order of ListedNames. */
  function ListedDescription(i: nat): string
    requires i < |ListedNames|
  {
    if i == 0 then "Read identity.md, user.md, or state.md"
    else if i == 1 then "Update user.md or state.md"
    else if i == 2 then "Search past logs for a keyword"
    else "Read a daily log by date (YYYY-MM-DD)"
  }

  /** The input schema of each listed tool, in the order of ListedNames. */
  function ListedSchema(i: nat): Json
    requires i < |ListedNames|
  {
    if i == 0 then ObjectSchema(map["file" := EnumSchema(["identity.md", "user.md", "state.md"])], ["file"])
    else if i == 1 then
      ObjectSchema(map["file" := EnumSchema(["user.md", "state.md"]), "content" := StrSchema()], ["file", "content"])
    else if i == 2 then ObjectSchema(map["query" := StrSchema()], ["query"])
    else ObjectSchema(map["date" := StrSchema()], ["date"])
  }

  /** tools_list: the four memory tools the endpoint serves. */
  function ToolsList(): (r: Json)
    ensures r.Array? && |r.items| == |ListedNames|
    ensures forall i :: 0 <= i < |r.items| ==> Get(r.items[i], "name") == Str(ListedNames[i])
  {
    Array(seq(|ListedNames|, i requires 0 <= i < |ListedNames| =>
      ListedTool(ListedNames[i], ListedDescription(i), ListedSchema(i))))
  }

  /** `{"content": [{"type": "text", "text": text}]}`. */
  function TextContent(text: string): Json {
    Object(map["content" := Array([Object(map["type" := Str("text"), "text" := Str(text)])])])
  }

  /** The memory directory after a call, and what the call produced. */
  datatype CallOutcome = CallOutcome(files: Files, result: Result<Json, RpcError>)

  function Failed(e: Memory.MemError): RpcError {
    RpcError(ServerError, e.message)
  }

  /** The text of a memory tool, or the error it maps to, with the memory directory after it. */
  function ToolText(files: Files, name: string, args: Json): (r: (Files, Result<string, RpcError>))
    ensures name != "update_core_memory" ==> r.0 == files
  {
    if name == "read_core_memory" then
      (files, match Memory.ReadCore(files, StrArg(args, "file", "state.md"))
              case Ok(s) => Ok(s)
              case Err(e) => Err(Failed(e)))
    else if name == "update_core_memory" then
      var file := StrArg(args, "file", "state.md");
      if file == "identity.md" then (files, Err(RpcError(ServerError, "identity.md is read-only")))
      else
        match Memory.WriteCoreTo(files, file, StrArg(args, "content", ""))
        case Err(e) => (files, Err(Failed(e)))
        case Ok(f) => (f, Ok("Updated " + file))
    else if name == "search_logs" then
      (files, Ok(MemoryTools.SearchText(SearchHits(files, StrArg(args, "query", "")))))
    else if name == "read_daily_log" then
      var d := StrArg(args, "date", "");
      (files, match Memory.ReadDailyLog(files, d)
              case Ok(found) => Ok(found.GetOr("No log for " + d))
              case Err(e) => Err(Failed(e)))
    else (files, Err(RpcError(InvalidParams, "Unknown tool: " + name)))
  }

  /** tools_call. */
  function ToolsCall(files: Files, params: Json): (r: CallOutcome)
    ensures !Get(params, "name").Str? ==> r == CallOutcome(files, Err(RpcError(InvalidParams, "Missing tool name")))
    ensures Get(params, "name").Str? && Get(params, "name").s !in ListedNames ==>
      r == CallOutcome(files, Err(RpcError(InvalidParams, "Unknown tool: " + Get(params, "name").s)))
    ensures Get(params, "name").Str? ==>
      var answer := ToolText(files, Get(params, "name").s, Get(params, "arguments"));
      && (answer.1.Ok? ==> r == CallOutcome(answer.0, Ok(TextContent(answer.1.value))))
      && (answer.1.Err? ==> r == CallOutcome(files, Err(answer.1.error)))
    ensures r.result.Err? ==> r.files == files
  {
    match AsStr(Get(params, "name"))
    case None => CallOutcome(files, Err(RpcError(InvalidParams, "Missing tool name")))
    case Some(name) =>
      var (f, text) := ToolText(files, name, Get(params, "arguments"));
      match text
      case Ok(t) => CallOutcome(f, Ok(TextContent(t)))
      case Err(e) => CallOutcome(files, Err(e))
  }

  /** The memory directory after a request, and the response. */
  datatype Reply = Reply(files: Files, response: Response)

  /** handle_rpc. */
  function Handle(files: Files, serverName: string, version: string, req: Request): (r: Reply)
    ensures r.response.jsonrpc == "2.0"
    ensures r.response.id == req.id.GetOr(Null)
    ensures r.response.result.Some? != r.response.error.Some?
    ensures req.jsonrpc != "2.0" ==>
      r == Reply(files, ErrResponse(req.id.GetOr(Null), InvalidRequest, "Invalid JSON-RPC version"))
    ensures req.jsonrpc == "2.0" && req.rpcMethod !in {"initialize", "tools/list", "tools/call"} ==>
      r == Reply(files, ErrResponse(req.id.GetOr(Null), MethodNotFound, "Method not found: " + req.rpcMethod))
    ensures r.files != files ==> req.rpcMethod == "tools/call"
  {
    var id := req.id.GetOr(Null);
    if req.jsonrpc != "2.0" then Reply(files, ErrResponse(id, InvalidRequest, "Invalid JSON-RPC version"))
    else
      var outcome :=
        if req.rpcMethod == "initialize" then CallOutcome(files, Ok(InitializeResult(serverName, version)))
        else if req.rpcMethod == "tools/list" then CallOutcome(files, Ok(Object(map["tools" := ToolsList()])))
        else if req.rpcMethod == "tools/call" then ToolsCall(files, req.params)
        else CallOutcome(files, Err(RpcError(MethodNotFound, "Method not found: " + req.rpcMethod)));
      match outcome.result
      case Ok(v) => Reply(outcome.files, OkResponse(id, v))
      case Err(e) => Reply(outcome.files, ErrResponse(id, e.code, e.message))
  }

  /** Only a successful update_core_memory call writes, and it writes what write_core writes. */
  lemma OnlyUpdateWrites(files: Files, serverName: string, version: string, req: Request)
    requires Handle(files, serverName, version, req).files != files
    ensures var args := Get(req.params, "arguments");
      var file := StrArg(args, "file", "state.md");
      && req.jsonrpc == "2.0" && req.rpcMethod == "tools/call"
      && Get(req.params, "name") == Str("update_core_memory")
      && file != "identity.md"
      && Memory.WriteCoreTo(files, file, StrArg(args, "content", "")).Ok?
      && Handle(files, serverName, version, req).files == Memory.WriteCoreTo(files, file, StrArg(args, "content", "")).value
      && Handle(files, serverName, version, req).response.result == Some(TextContent("Updated " + file))
  {
  }

  /** identity.md is refused with a server error and nothing is written. */
  lemma IdentityReadOnly(files: Files, serverName: string, version: string, req: Request)
    requires req.jsonrpc == "2.0" && req.rpcMethod == "tools/call"
    requires Get(req.params, "name") == Str("update_core_memory")
    requires StrArg(Get(req.params, "arguments"), "file", "state.md") == "identity.md"
    ensures Handle(files, serverName, version, req)
      == Reply(files, ErrResponse(req.id.GetOr(Null), ServerError, "identity.md is read-only"))
  {
  }

  /** The agent's own tool of a listed name, run on the same arguments. */
  function AgentTool(files: Files, name: string, args: Json): MemoryTools.Outcome {
    if name == "read_core_memory" then MemoryTools.Outcome(files, MemoryTools.ReadCoreMemory(files, args))
    else if name == "update_core_memory" then MemoryTools.UpdateCoreMemory(files, args)
    else if name == "search_logs" then MemoryTools.Outcome(files, MemoryTools.SearchLogsSpec(files, args))
    else MemoryTools.Outcome(files, MemoryTools.ReadDailyLog(files, args))
  }

  /** The endpoint's answer and the agent tool's agree: same success, same text, same files, same message. */
  predicate Agrees(answer: (Files, Result<string, RpcError>), tool: MemoryTools.Outcome) {
    && (answer.1.Ok? <==> tool.result.Ok?)
    && (answer.1.Ok? ==> tool.result.value == ForLlm(answer.1.value) && tool.files == answer.0)
    && (answer.1.Err? ==> answer.1.error == RpcError(ServerError, tool.result.error))
  }

  /**
   * A call that succeeds answers with the same text the agent's own tool of
   * that name gives; a call that fails is a failure of that tool too
   * (identity.md aside, which the agent's tool refuses in its answer).
   */
  lemma CallsAgreeWithAgentTools(files: Files, name: string, args: Json)
    requires name in ListedNames
    requires name == "update_core_memory" ==> StrArg(args, "file", "state.md") != "identity.md"
    ensures Agrees(ToolText(files, name, args), AgentTool(files, name, args))
  {
    if name == "read_core_memory" {
      ReadCoreAgrees(files, args);
    } else if name == "update_core_memory" {
      UpdateCoreAgrees(files, args);
    } else if name == "search_logs" {
      SearchLogsAgrees(files, args);
    } else {
      ReadDailyLogAgrees(files, args);
    }
  }

  lemma ReadCoreAgrees(files: Files, args: Json)
    ensures Agrees(ToolText(files, "read_core_memory", args), AgentTool(files, "read_core_memory", args))
  {
  }

  lemma UpdateCoreAgrees(files: Files, args: Json)
    requires StrArg(args, "file", "state.md") != "identity.md"
    ensures Agrees(ToolText(files, "update_core_memory", args), AgentTool(files, "update_core_memory", args))
  {
  }

  lemma SearchLogsAgrees(files: Files, args: Json)
    ensures Agrees(ToolText(files, "search_logs", args), AgentTool(files, "search_logs", args))
  {
  }

  lemma ReadDailyLogAgrees(files: Files, args: Json)
    ensures Agrees(ToolText(files, "read_daily_log", args), AgentTool(files, "read_daily_log", args))
  {
  }

  /** The endpoint over the agent's memory store, as served by `start`. */
  class McpServer {
    const memory: Memory.MemoryManager
    const name: string
    const version: string

    constructor (memory: Memory.MemoryManager, name: string, version: string)
      ensures this.memory == memory && this.name == name && this.version == version
    {
      this.memory := memory;
      this.name := name;
      this.version := version;
    }

    method HandleRpc(req: Request) returns (resp: Response)
      modifies memory
      ensures Reply(memory.files, resp) == Handle(old(memory.files), name, version, req)
    {
      var id := req.id.GetOr(Null);
      if req.jsonrpc != "2.0" {
        return ErrResponse(id, InvalidRequest, "Invalid JSON-RPC version");
      }
      var result: Result<Json, RpcError>;
      if req.rpcMethod == "initialize" {
        result := Ok(InitializeResult(name, version));
      } else if req.rpcMethod == "tools/list" {
        result := Ok(Object(map["tools" := ToolsList()]));
      } else if req.rpcMethod == "tools/call" {
        result := CallTool(req.params);
      } else {
        result := Err(RpcError(MethodNotFound, "Method not found: " + req.rpcMethod));
      }
      match result
      case Ok(v) => resp := OkResponse(id, v);
      case Err(e) => resp := ErrResponse(id, e.code, e.message);
    }

    method CallTool(params: Json) returns (result: Result<Json, RpcError>)
      modifies memory
      ensures CallOutcome(memory.files, result) == ToolsCall(old(memory.files), params)
    {
      if !Get(params, "name").Str? {
        return Err(RpcError(InvalidParams, "Missing tool name"));
      }
      var tool := Get(params, "name").s;
      var args := Get(params, "arguments");
      var text: string;
      if tool == "read_core_memory" {
        match Memory.ReadCore(memory.files, StrArg(args, "file", "state.md"))
        case Err(e) => return Err(Failed(e));
        case Ok(s) => text := s;
      } else if tool == "update_core_memory" {
        var file := StrArg(args, "file", "state.md");
        if file == "identity.md" {
          return Err(RpcError(ServerError, "identity.md is read-only"));
        }
        var w := memory.WriteCore(file, StrArg(args, "content", ""));
        if w.Err? {
          return Err(Failed(w.error));
        }
        text := "Updated " + file;
      } else if tool == "search_logs" {
        var r := memory.SearchLogs(StrArg(args, "query", ""));
        text := if r == [] then MemoryTools.NoResults else Text.Join(r, "\n");
      } else if tool == "read_daily_log" {
        var d := StrArg(args, "date", "");
        match Memory.ReadDailyLog(memory.files, d)
        case Err(e) => return Err(Failed(e));
        case Ok(found) => text := found.GetOr("No log for " + d);
      } else {
        return Err(RpcError(InvalidParams, "Unknown tool: " + tool));
      }
      result := Ok(TextContent(text));
    }
  }
}
