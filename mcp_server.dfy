/** The capability-server base class: a JSON-RPC 2.0 dispatcher with two
    lifecycle flags and a table of tool handlers, and the loop that reads
    framed requests from standard input and writes framed responses to
    standard output. */
module McpServer {
  import opened Prelude
  import opened Json
  import opened Utf8
  import opened McpFraming

  /** A tool handler: the arguments in, the result out, or the text of the
      exception it raised. */
  type Handler = Json -> Result<Json, string>

  /** The JSON text codec the loop relies on: `json.loads` (`None` for a
      decode error), `json.dumps`, and the id recovered from a request
      whose handling raised. */
  datatype Codec = Codec(
    parse: string -> Option<Json>,
    dumps: Json -> string,
    recoverId: string -> Option<Json>)

  /** What the server was constructed with. */
  datatype ServerInfo = ServerInfo(name: string, version: string, tools: seq<Json>)

  /** `_initialized` and `_shutdown_requested`. */
  datatype Flags = Flags(initialized: bool, shutdownRequested: bool)

  /** What handling a request ends in: the response, if any, or the text of
      an exception that escaped. */
  datatype Outcome = Reply(response: Option<Json>) | Raised(message: string)

  datatype Handled = Handled(outcome: Outcome, flags: Flags)

  /** Error codes of section 5.1 of the JSON-RPC 2.0 specification, and the
      one the server uses for a raising tool. */
  const MethodNotFound: int := -32601
  const InternalError: int := -32603
  const ToolExecutionFailed: int := -32000

  const ToolErrorPrefix: string := "Tool execution error: "
  const ToolNotFoundPrefix: string := "Tool not found: "
  const MethodNotFoundPrefix: string := "Method not found: "
  const InternalErrorPrefix: string := "Internal error: "

  // ---------------------------------------------------------------------
  // Python's view of a decoded request

  /** `d.get(key)`: `None`, here `JNull`, for a missing key or a non-object. */
  function Lookup(d: Json, key: string): Json
  {
    match Get(d, key)
    case Some(v) => v
    case None => JNull
  }

  /** Python truthiness of a decoded JSON value. */
  predicate Truthy(v: Json)
  {
    match v
    case JNull => false
    case JBool(b) => b
    case JInt(i) => i != 0
    case JStr(s) => s != []
    case JArr(items) => items != []
    case JObj(fields) => fields != []
  }

  /** The values whose `str()` the messages can show: scalars and empty
      containers. */
  predicate Printable(v: Json)
  {
    !(v.JArr? && v.items != []) && !(v.JObj? && v.fields != [])
  }

  /** `str(v)` in an f-string. */
  function PyStr(v: Json): string
    requires Printable(v)
  {
    match v
    case JNull => "None"
    case JBool(b) => if b then "True" else "False"
    case JInt(i) => if i < 0 then "-" + NatToDecimal(-i) else NatToDecimal(i)
    case JStr(s) => s
    case JArr(_) => "[]"
    case JObj(_) => "{}"
  }

  /** `type(v).__name__`. */
  function TypeName(v: Json): string
  {
    match v
    case JNull => "NoneType"
    case JBool(_) => "bool"
    case JInt(_) => "int"
    case JStr(_) => "str"
    case JArr(_) => "list"
    case JObj(_) => "dict"
  }

  /** The `AttributeError` a method name that is not a string raises at
      `.startswith`. */
  function NoStartsWith(v: Json): string
  {
    "'" + TypeName(v) + "' object has no attribute 'startswith'"
  }

  /** The `TypeError` a list or dict tool name raises as a key of the
      handler table. */
  function Unhashable(v: Json): string
  {
    "unhashable type: '" + TypeName(v) + "'"
  }

  // ---------------------------------------------------------------------
  // Responses

  /** `_create_capabilities`. */
  function Capabilities(info: ServerInfo): Json
  {
    JObj([
      ("serverInfo", JObj([("name", JStr(info.name)), ("version", JStr(info.version))])),
      ("capabilities", JObj([("tools", JArr(info.tools)), ("resources", JArr([]))])),
      ("status", JStr("initialized"))])
  }

  function Success(id: Json, result: Json): Json
  {
    JObj([("jsonrpc", JStr("2.0")), ("id", id), ("result", result)])
  }

  function Failure(id: Json, code: int, message: string): Json
  {
    JObj([("jsonrpc", JStr("2.0")), ("id", id),
          ("error", JObj([("code", JInt(code)), ("message", JStr(message))]))])
  }

  // ---------------------------------------------------------------------
  // Dispatch

  /** `request.get("params", {})`. */
  function Params(request: Json): Json
  {
    match Get(request, "params")
    case Some(p) => p
    case None => JObj([])
  }

  /** The tool name: `tool_name`, or `name` when that is missing or null;
      `None` unless the parameters are an object. */
  function ToolName(params: Json): Json
  {
    if !params.JObj? then JNull
    else if Lookup(params, "tool_name") != JNull then Lookup(params, "tool_name")
    else Lookup(params, "name")
  }

  /** `params.get("arguments", {})`, or `{}` unless the parameters are an
      object. */
  function Arguments(params: Json): Json
  {
    if !params.JObj? then JObj([])
    else match Get(params, "arguments")
      case Some(a) => a
      case None => JObj([])
  }

  /** The `tool/execute` branch for a request with an id. */
  function ExecuteTool(id: Json, params: Json, handlers: map<string, Handler>): Outcome
  {
    var name := ToolName(params);
    if name.JArr? || name.JObj? then Raised(Unhashable(name))
    else if name.JStr? && name.s in handlers then
      match handlers[name.s](Arguments(params))
      case Ok(result) => Reply(Some(Success(id, result)))
      case Err(e) => Reply(Some(Failure(id, ToolExecutionFailed, ToolErrorPrefix + e)))
    else Reply(Some(Failure(id, MethodNotFound, ToolNotFoundPrefix + PyStr(name))))
  }

  /** The final `else` branch, for every other method. */
  function OtherMethod(methodName: Json, id: Json): Outcome
  {
    if Truthy(methodName) && !methodName.JStr? then Raised(NoStartsWith(methodName))
    else if Truthy(methodName) && StartsWith(methodName.s, "$/") then Reply(None)
    else if id != JNull then Reply(Some(Failure(id, MethodNotFound, MethodNotFoundPrefix + PyStr(methodName))))
    else Reply(None)
  }

  /** `_handle_request` on a decoded object. */
  function Dispatch(request: Json, info: ServerInfo, handlers: map<string, Handler>, flags: Flags): Handled
    requires request.JObj?
  {
    var methodName := Lookup(request, "method");
    var id := Lookup(request, "id");
    if methodName == JStr("initialize") then
      Handled(if id != JNull then Reply(Some(Success(id, Capabilities(info)))) else Reply(None),
              flags.(initialized := true))
    else if methodName == JStr("shutdown") then
      Handled(if id != JNull then Reply(Some(Success(id, JNull))) else Reply(None),
              flags.(shutdownRequested := true))
    else if methodName == JStr("exit") then
      Handled(Reply(None), flags.(shutdownRequested := true))
    else if methodName == JStr("tool/execute") || methodName == JStr("mcp/tool/execute") then
      Handled(if id == JNull then Reply(None) else ExecuteTool(id, Params(request), handlers), flags)
    else
      Handled(OtherMethod(methodName, id), flags)
  }

  // ---------------------------------------------------------------------
  // Properties of dispatch

  /** The capabilities name the server, list its tools, offer no resources
      and report the server initialized. */
  lemma CapabilitiesDescribeServer(info: ServerInfo)
    ensures Get(Capabilities(info), "serverInfo").Some?
    ensures Get(Get(Capabilities(info), "serverInfo").value, "name") == Some(JStr(info.name))
    ensures Get(Get(Capabilities(info), "serverInfo").value, "version") == Some(JStr(info.version))
    ensures Get(Capabilities(info), "capabilities").Some?
    ensures Get(Get(Capabilities(info), "capabilities").value, "tools") == Some(JArr(info.tools))
    ensures Get(Get(Capabilities(info), "capabilities").value, "resources") == Some(JArr([]))
    ensures Get(Capabilities(info), "status") == Some(JStr("initialized"))
  {
    var n, v := ("name", JStr(info.name)), ("version", JStr(info.version));
    var t, r := ("tools", JArr(info.tools)), ("resources", JArr([]));
    var a, b, c := ("serverInfo", JObj([n, v])), ("capabilities", JObj([t, r])), ("status", JStr("initialized"));
    GetOfThree(a, b, c, "serverInfo");
    GetOfThree(a, b, c, "capabilities");
    GetOfThree(a, b, c, "status");
    GetOfTwo(n, v, "name");
    GetOfTwo(n, v, "version");
    GetOfTwo(t, r, "tools");
    GetOfTwo(t, r, "resources");
  }

  lemma GetOfTwo(a: (string, Json), b: (string, Json), key: string)
    ensures Get(JObj([a, b]), key) ==
      if a.0 == key then Some(a.1) else if b.0 == key then Some(b.1) else None
  {
    assert [a, b][1..] == [b];
    assert [b][1..] == [];
  }

  lemma GetOfThree(a: (string, Json), b: (string, Json), c: (string, Json), key: string)
    ensures Get(JObj([a, b, c]), key) ==
      if a.0 == key then Some(a.1) else if b.0 == key then Some(b.1) else if c.0 == key then Some(c.1) else None
  {
    assert [a, b, c][1..] == [b, c];
    GetOfTwo(b, c, key);
  }

  /** What a client reads from a success or an error response. */
  lemma ResponseFields(id: Json, result: Json, code: int, message: string)
    ensures Get(Success(id, result), "jsonrpc") == Some(JStr("2.0"))
    ensures Get(Success(id, result), "id") == Some(id)
    ensures Get(Success(id, result), "result") == Some(result)
    ensures Get(Failure(id, code, message), "jsonrpc") == Some(JStr("2.0"))
    ensures Get(Failure(id, code, message), "id") == Some(id)
    ensures Get(Failure(id, code, message), "error").Some?
    ensures Get(Get(Failure(id, code, message), "error").value, "code") == Some(JInt(code))
    ensures Get(Get(Failure(id, code, message), "error").value, "message") == Some(JStr(message))
  {
    var v, i, r, e := ("jsonrpc", JStr("2.0")), ("id", id), ("result", result), ("error", JObj([("code", JInt(code)), ("message", JStr(message))]));
    GetOfThree(v, i, r, "jsonrpc");
    GetOfThree(v, i, r, "id");
    GetOfThree(v, i, r, "result");
    GetOfThree(v, i, e, "jsonrpc");
    GetOfThree(v, i, e, "id");
    GetOfThree(v, i, e, "error");
    GetOfTwo(("code", JInt(code)), ("message", JStr(message)), "code");
    GetOfTwo(("code", JInt(code)), ("message", JStr(message)), "message");
  }

  /** Every response the dispatcher produces answers a request that has an
      id, and carries `jsonrpc: "2.0"` and that id. */
  lemma RepliesCarryVersionAndId(request: Json, info: ServerInfo, handlers: map<string, Handler>, flags: Flags, response: Json)
    requires request.JObj?
    requires Dispatch(request, info, handlers, flags).outcome == Reply(Some(response))
    ensures Lookup(request, "id") != JNull
    ensures Get(response, "jsonrpc") == Some(JStr("2.0"))
    ensures Get(response, "id") == Some(Lookup(request, "id"))
  {
    var id := Lookup(request, "id");
    var methodName := Lookup(request, "method");
    if methodName == JStr("tool/execute") || methodName == JStr("mcp/tool/execute") {
      var name := ToolName(Params(request));
      if name.JStr? && name.s in handlers {
        match handlers[name.s](Arguments(Params(request)))
        case Ok(result) => ResponseFields(id, result, 0, "");
        case Err(e) => ResponseFields(id, JNull, ToolExecutionFailed, ToolErrorPrefix + e);
      } else if !name.JArr? && !name.JObj? {
        ResponseFields(id, JNull, MethodNotFound, ToolNotFoundPrefix + PyStr(name));
      }
    } else if methodName == JStr("initialize") {
      ResponseFields(id, Capabilities(info), 0, "");
    } else if methodName == JStr("shutdown") {
      ResponseFields(id, JNull, 0, "");
    } else if methodName != JStr("exit") && id != JNull && (methodName.JStr? || !Truthy(methodName)) {
      ResponseFields(id, JNull, MethodNotFound, MethodNotFoundPrefix + PyStr(methodName));
    }
  }

  /** `initialize` marks the server initialized and answers a request with
      the capabilities; a notification gets no answer. */
  lemma InitializeAnswersCapabilities(request: Json, info: ServerInfo, handlers: map<string, Handler>, flags: Flags)
    requires request.JObj? && Lookup(request, "method") == JStr("initialize")
    ensures Dispatch(request, info, handlers, flags).flags == Flags(true, flags.shutdownRequested)
    ensures Lookup(request, "id") != JNull ==>
      Dispatch(request, info, handlers, flags).outcome
        == Reply(Some(Success(Lookup(request, "id"), Capabilities(info))))
    ensures Lookup(request, "id") == JNull ==> Dispatch(request, info, handlers, flags).outcome == Reply(None)
  {
  }

  /** `shutdown` and `exit` both request the shutdown; `shutdown` with an id
      is answered with a null result, `exit` never is. */
  lemma ShutdownAndExitStop(request: Json, info: ServerInfo, handlers: map<string, Handler>, flags: Flags)
    requires request.JObj?
    requires Lookup(request, "method") in {JStr("shutdown"), JStr("exit")}
    ensures Dispatch(request, info, handlers, flags).flags == Flags(flags.initialized, true)
    ensures Lookup(request, "method") == JStr("exit") ==> Dispatch(request, info, handlers, flags).outcome == Reply(None)
    ensures Lookup(request, "method") == JStr("shutdown") ==>
      Dispatch(request, info, handlers, flags).outcome
        == if Lookup(request, "id") != JNull then Reply(Some(Success(Lookup(request, "id"), JNull))) else Reply(None)
  {
  }

  /** Only the lifecycle methods touch the flags, and they only ever set
      them. */
  lemma FlagsOnlyRise(request: Json, info: ServerInfo, handlers: map<string, Handler>, flags: Flags)
    requires request.JObj?
    ensures flags.initialized ==> Dispatch(request, info, handlers, flags).flags.initialized
    ensures flags.shutdownRequested ==> Dispatch(request, info, handlers, flags).flags.shutdownRequested
    ensures Lookup(request, "method") !in {JStr("initialize"), JStr("shutdown"), JStr("exit")} ==>
      Dispatch(request, info, handlers, flags).flags == flags
  {
  }

  /** The tool name comes from `tool_name`, and from `name` when that is
      missing or null. */
  lemma ToolNameFallsBack(params: Json)
    requires params.JObj?
    ensures Get(params, "tool_name").Some? && Get(params, "tool_name").value != JNull ==>
      ToolName(params) == Get(params, "tool_name").value
    ensures (Get(params, "tool_name").None? || Get(params, "tool_name") == Some(JNull)) ==>
      ToolName(params) == Lookup(params, "name")
  {
  }

  /** A tool request with an id runs the registered handler on the
      arguments and answers with its result, or with -32000 and the text of
      what it raised; an unregistered name is answered with -32601. A tool
      request without an id is not answered, and nothing is run. */
  lemma ToolExecution(request: Json, info: ServerInfo, handlers: map<string, Handler>, flags: Flags)
    requires request.JObj?
    requires Lookup(request, "method") in {JStr("tool/execute"), JStr("mcp/tool/execute")}
    ensures Dispatch(request, info, handlers, flags).flags == flags
    ensures Lookup(request, "id") == JNull ==> Dispatch(request, info, handlers, flags).outcome == Reply(None)
    ensures var name := ToolName(Params(request));
      Lookup(request, "id") != JNull && name.JStr? && name.s in handlers ==>
        Dispatch(request, info, handlers, flags).outcome ==
          match handlers[name.s](Arguments(Params(request)))
          case Ok(result) => Reply(Some(Success(Lookup(request, "id"), result)))
          case Err(e) => Reply(Some(Failure(Lookup(request, "id"), ToolExecutionFailed, ToolErrorPrefix + e)))
    ensures var name := ToolName(Params(request));
      Lookup(request, "id") != JNull && !name.JArr? && !name.JObj? && !(name.JStr? && name.s in handlers) ==>
        Dispatch(request, info, handlers, flags).outcome ==
          Reply(Some(Failure(Lookup(request, "id"), MethodNotFound, ToolNotFoundPrefix + PyStr(name))))
  {
  }

  /** Registering a handler under a name makes every later tool request for
      that name run it, whatever was registered before. */
  lemma RegisteredToolRuns(request: Json, info: ServerInfo, handlers: map<string, Handler>, flags: Flags,
                           name: string, handler: Handler)
    requires request.JObj?
    requires Lookup(request, "method") == JStr("tool/execute") && Lookup(request, "id") != JNull
    requires ToolName(Params(request)) == JStr(name)
    ensures Dispatch(request, info, handlers[name := handler], flags).outcome ==
      match handler(Arguments(Params(request)))
      case Ok(result) => Reply(Some(Success(Lookup(request, "id"), result)))
      case Err(e) => Reply(Some(Failure(Lookup(request, "id"), ToolExecutionFailed, ToolErrorPrefix + e)))
  {
  }

  /** Any other method: a `$/` notification is ignored, an unknown method
      with an id is answered with -32601 and one without is ignored; a
      method name that is a non-empty non-string raises. */
  lemma OtherMethodsAnswered(request: Json, info: ServerInfo, handlers: map<string, Handler>, flags: Flags)
    requires request.JObj?
    requires Lookup(request, "method") !in
      {JStr("initialize"), JStr("shutdown"), JStr("exit"), JStr("tool/execute"), JStr("mcp/tool/execute")}
    ensures var methodName := Lookup(request, "method");
      methodName.JStr? && StartsWith(methodName.s, "$/") ==> Dispatch(request, info, handlers, flags).outcome == Reply(None)
    ensures var methodName := Lookup(request, "method");
      (methodName.JStr? || !Truthy(methodName)) && !(methodName.JStr? && StartsWith(methodName.s, "$/")) ==>
        Dispatch(request, info, handlers, flags).outcome ==
          if Lookup(request, "id") != JNull
          then Reply(Some(Failure(Lookup(request, "id"), MethodNotFound, MethodNotFoundPrefix + PyStr(methodName))))
          else Reply(None)
    ensures var methodName := Lookup(request, "method");
      Truthy(methodName) && !methodName.JStr? ==> Dispatch(request, info, handlers, flags).outcome.Raised?
  {
    var methodName := Lookup(request, "method");
    if methodName.JStr? && methodName.s == [] {
      assert !Truthy(methodName);
    }
  }

  // ---------------------------------------------------------------------
  // The message loop

  datatype Served = Served(out: seq<byte>, flags: Flags, rest: seq<seq<byte>>)

  /** One message body through the loop: a body that does not decode to a
      JSON object is skipped; a response is framed and written; an
      exception is answered with -32603 only if an id can be recovered. */
  function Answer(content: string, info: ServerInfo, handlers: map<string, Handler>, flags: Flags, codec: Codec): (seq<byte>, Flags)
  {
    match codec.parse(content)
    case None => ([], flags)
    case Some(request) =>
      if !request.JObj? then ([], flags)
      else
        var handled := Dispatch(request, info, handlers, flags);
        match handled.outcome
        case Reply(None) => ([], handled.flags)
        case Reply(Some(response)) => (Frame(codec.dumps(response)), handled.flags)
        case Raised(e) =>
          match codec.recoverId(content)
          case None => ([], handled.flags)
          case Some(id) => (Frame(codec.dumps(Failure(id, InternalError, InternalErrorPrefix + e))), handled.flags)
  }

  /** One turn of the loop on what the reader returned: stop with the flag
      set if the read failed, otherwise answer the message. */
  function ServeOne(received: Received, info: ServerInfo, handlers: map<string, Handler>, flags: Flags, codec: Codec): Served
  {
    match received.message
    case None => Served([], flags.(shutdownRequested := true), received.rest)
    case Some((_, content)) =>
      var (out, next) := Answer(content, info, handlers, flags, codec);
      Served(out, next, received.rest)
  }

  /** `_run_message_loop` from input `cs`: turns until the shutdown flag is
      set. */
  function Serve(cs: seq<seq<byte>>, info: ServerInfo, handlers: map<string, Handler>, flags: Flags, codec: Codec): Served
    requires Chunked(cs)
    decreases |Flatten(cs)| + if flags.shutdownRequested then 0 else 1
  {
    if flags.shutdownRequested then Served([], flags, cs)
    else
      ReadMessageAsWrittenConsumes(cs);
      var one := ServeOne(ReadMessageAsWritten(cs), info, handlers, flags, codec);
      var later := Serve(one.rest, info, handlers, one.flags, codec);
      Served(one.out + later.out, later.flags, later.rest)
  }

  /** The loop only ever ends with the shutdown flag set. */
  lemma {:induction false} ServeEndsShutDown(cs: seq<seq<byte>>, info: ServerInfo, handlers: map<string, Handler>, flags: Flags, codec: Codec)
    requires Chunked(cs)
    ensures Serve(cs, info, handlers, flags, codec).flags.shutdownRequested
    decreases |Flatten(cs)| + if flags.shutdownRequested then 0 else 1
  {
    if !flags.shutdownRequested {
      ReadMessageAsWrittenConsumes(cs);
      var one := ServeOne(ReadMessageAsWritten(cs), info, handlers, flags, codec);
      ServeEndsShutDown(one.rest, info, handlers, one.flags, codec);
    }
  }

  /** A framed `exit` notification that arrives in a chunk of its own stops
      the loop: nothing is written and nothing after the frame is read. */
  lemma {:induction false} ExitFrameStops(body: string, tail: seq<seq<byte>>, request: Json,
                       info: ServerInfo, handlers: map<string, Handler>, flags: Flags, codec: Codec)
    requires Chunked(tail)
    requires |NatToDecimal(ByteLength(body))| <= MaxHeaderBytes + 1 - 20
    requires codec.parse(body) == Some(request) && request.JObj? && Lookup(request, "method") == JStr("exit")
    requires !flags.shutdownRequested
    ensures Chunked([Frame(body)] + tail)
    ensures Serve([Frame(body)] + tail, info, handlers, flags, codec) == Served([], Flags(flags.initialized, true), tail)
  {
    WholeFrameReadAsWritten(body, tail);
    ReadMessageAsWrittenConsumes([Frame(body)] + tail);
  }

  /** A framed `initialize` request with an id that arrives in a chunk of
      its own is answered first with the framed capabilities, and the loop
      goes on initialized with the chunks after it. */
  lemma {:induction false} InitializeFrameAnswered(body: string, tail: seq<seq<byte>>, request: Json,
                                info: ServerInfo, handlers: map<string, Handler>, flags: Flags, codec: Codec)
    requires Chunked(tail)
    requires |NatToDecimal(ByteLength(body))| <= MaxHeaderBytes + 1 - 20
    requires codec.parse(body) == Some(request) && request.JObj?
    requires Lookup(request, "method") == JStr("initialize") && Lookup(request, "id") != JNull
    requires !flags.shutdownRequested
    ensures Chunked([Frame(body)] + tail)
    ensures Serve([Frame(body)] + tail, info, handlers, flags, codec).out ==
      Frame(codec.dumps(Success(Lookup(request, "id"), Capabilities(info))))
        + Serve(tail, info, handlers, flags.(initialized := true), codec).out
  {
    WholeFrameReadAsWritten(body, tail);
    ReadMessageAsWrittenConsumes([Frame(body)] + tail);
  }

  /** An `initialize` frame whose body arrives in two pieces is never
      answered: the single raw read drops it and the loop stops with the
      shutdown flag set and nothing written, although the reader that
      waits for the whole body gets the request. */
  lemma SplitInitializeStopsAsWritten(body: string, request: Json,
                                      info: ServerInfo, handlers: map<string, Handler>, flags: Flags, codec: Codec)
    requires ByteLength(body) >= 2
    requires |NatToDecimal(ByteLength(body))| <= MaxHeaderBytes + 1 - 20
    requires codec.parse(body) == Some(request) && request.JObj?
    requires Lookup(request, "method") == JStr("initialize") && Lookup(request, "id") != JNull
    requires !flags.shutdownRequested
    ensures ReadMessage(SplitFrame(body)).message == Some((HeaderText(ByteLength(body)), body))
    ensures Serve(SplitFrame(body), info, handlers, flags, codec).out == []
    ensures Serve(SplitFrame(body), info, handlers, flags, codec).flags == flags.(shutdownRequested := true)
  {
    SplitBodyDroppedAsWritten(body);
  }

  /** A read that fails stops the loop with the flag set and nothing
      written. */
  lemma FailedReadStops(cs: seq<seq<byte>>, info: ServerInfo, handlers: map<string, Handler>, flags: Flags, codec: Codec)
    requires Chunked(cs) && !flags.shutdownRequested && ReadMessageAsWritten(cs).message.None?
    ensures Serve(cs, info, handlers, flags, codec) == Served([], flags.(shutdownRequested := true), ReadMessageAsWritten(cs).rest)
  {
  }

  // ---------------------------------------------------------------------
  // The server object

  /** The unbuffered standard output. */
  class RawStdout {
    var written: seq<byte>

    constructor()
      ensures written == []
    {
      written := [];
    }

    method Write(bs: seq<byte>)
      modifies this
      ensures written == old(written) + bs
    {
      written := written + bs;
    }
  }

  class McpBaseServer {
    const name: string
    const version: string
    const tools: seq<Json>
    var toolHandlers: map<string, Handler>
    var initialized: bool
    var shutdownRequested: bool

    constructor(name: string, version: string, tools: seq<Json>)
      ensures this.name == name && this.version == version && this.tools == tools
      ensures toolHandlers == map[] && !initialized && !shutdownRequested
    {
      this.name := name;
      this.version := version;
      this.tools := tools;
      toolHandlers := map[];
      initialized := false;
      shutdownRequested := false;
    }

    function Info(): ServerInfo
    {
      ServerInfo(name, version, tools)
    }

    function State(): Flags
      reads this
    {
      Flags(initialized, shutdownRequested)
    }

    /** `register_tool`: a later registration under the same name replaces
        the earlier one. */
    method RegisterTool(name: string, handler: Handler)
      modifies this
      ensures toolHandlers == old(toolHandlers)[name := handler]
      ensures State() == old(State())
    {
      toolHandlers := toolHandlers[name := handler];
    }

    /** `_handle_request`. */
    method HandleRequest(request: Json) returns (outcome: Outcome)
      requires request.JObj?
      modifies this
      ensures Dispatch(request, Info(), old(toolHandlers), old(State())) == Handled(outcome, State())
      ensures toolHandlers == old(toolHandlers)
    {
      var methodName := Lookup(request, "method");
      var id := Lookup(request, "id");
      outcome := Reply(None);
      if methodName == JStr("initialize") {
        initialized := true;
        if id != JNull {
          outcome := Reply(Some(Success(id, Capabilities(Info()))));
        }
      } else if methodName == JStr("shutdown") {
        shutdownRequested := true;
        if id != JNull {
          outcome := Reply(Some(Success(id, JNull)));
        }
      } else if methodName == JStr("exit") {
        shutdownRequested := true;
      } else if methodName == JStr("tool/execute") || methodName == JStr("mcp/tool/execute") {
        if id == JNull {
          return Reply(None);
        }
        outcome := ExecuteTool(id, Params(request), toolHandlers);
      } else {
        outcome := OtherMethod(methodName, id);
      }
    }

    /** `_send_response`: the header announcing the byte length of the
        UTF-8 body, then the body, in one write. */
    method SendResponse(stdout: RawStdout, response: Json, dumps: Json -> string)
      modifies stdout
      ensures stdout.written == old(stdout.written) + Frame(dumps(response))
    {
      var responseBytes := Encode(dumps(response));
      var header := Encode(HeaderText(|responseBytes|));
      stdout.Write(header + responseBytes);
    }

    /** One turn of `_run_message_loop`. */
    method ServeMessage(stdin: RawStdin, stdout: RawStdout, codec: Codec)
      requires Chunked(stdin.chunks)
      modifies this, stdin, stdout
      ensures stdout.written == old(stdout.written) + ServeOne(ReadMessageAsWritten(old(stdin.chunks)), Info(), old(toolHandlers), old(State()), codec).out
      ensures State() == ServeOne(ReadMessageAsWritten(old(stdin.chunks)), Info(), old(toolHandlers), old(State()), codec).flags
      ensures stdin.chunks == ServeOne(ReadMessageAsWritten(old(stdin.chunks)), Info(), old(toolHandlers), old(State()), codec).rest
      ensures toolHandlers == old(toolHandlers)
    {
      var message := ReadHeaderAndContent(stdin);
      if message.None? {
        shutdownRequested := true;
        return;
      }
      var content := message.value.1;
      var parsed := codec.parse(content);
      if parsed.None? || !parsed.value.JObj? {
        return;
      }
      var outcome := HandleRequest(parsed.value);
      match outcome
      case Reply(None) =>
      case Reply(Some(response)) =>
        SendResponse(stdout, response, codec.dumps);
      case Raised(e) =>
        var requestId := codec.recoverId(content);
        if requestId.Some? {
          SendResponse(stdout, Failure(requestId.value, InternalError, InternalErrorPrefix + e), codec.dumps);
        }
    }

    /** `_run_message_loop`. */
    method RunMessageLoop(stdin: RawStdin, stdout: RawStdout, codec: Codec)
      requires Chunked(stdin.chunks)
      modifies this, stdin, stdout
      ensures stdout.written ==
        old(stdout.written) + Serve(old(stdin.chunks), Info(), old(toolHandlers), old(State()), codec).out
      ensures State() == Serve(old(stdin.chunks), Info(), old(toolHandlers), old(State()), codec).flags
      ensures stdin.chunks == Serve(old(stdin.chunks), Info(), old(toolHandlers), old(State()), codec).rest
      ensures toolHandlers == old(toolHandlers)
    {
      ghost var total := Serve(stdin.chunks, Info(), toolHandlers, State(), codec);
      while !shutdownRequested
        invariant Chunked(stdin.chunks) && toolHandlers == old(toolHandlers)
        invariant LoopTracks(total, old(stdout.written), stdout.written, Serve(stdin.chunks, Info(), toolHandlers, State(), codec))
        decreases |Flatten(stdin.chunks)| + if shutdownRequested then 0 else 1
      {
        ghost var one := ServeOne(ReadMessageAsWritten(stdin.chunks), Info(), toolHandlers, State(), codec);
        TurnProgresses(stdin.chunks, Info(), toolHandlers, State(), codec, one);
        TurnKeepsTracking(total, old(stdout.written), stdout.written, stdin.chunks, Info(), toolHandlers, State(), codec, one);
        ServeMessage(stdin, stdout, codec);
      }
    }
  }

  /** A turn of the loop brings it closer to its end: it consumes input or
      sets the flag. */
  lemma TurnProgresses(cs: seq<seq<byte>>, info: ServerInfo, handlers: map<string, Handler>, flags: Flags, codec: Codec, one: Served)
    requires Chunked(cs)
    requires one == ServeOne(ReadMessageAsWritten(cs), info, handlers, flags, codec)
    ensures Chunked(one.rest)
    ensures |Flatten(one.rest)| + (if one.flags.shutdownRequested then 0 else 1) < |Flatten(cs)| + 1
  {
    ReadMessageAsWrittenConsumes(cs);
    if ReadMessageAsWritten(cs).message.None? {
      assert one.flags.shutdownRequested;
    }
  }

  /** A turn of the loop keeps the invariant. */
  lemma TurnKeepsTracking(total: Served, start: seq<byte>, written: seq<byte>, cs: seq<seq<byte>>,
                          info: ServerInfo, handlers: map<string, Handler>, flags: Flags, codec: Codec, one: Served)
    requires Chunked(cs) && !flags.shutdownRequested
    requires LoopTracks(total, start, written, Serve(cs, info, handlers, flags, codec))
    requires one == ServeOne(ReadMessageAsWritten(cs), info, handlers, flags, codec)
    requires Chunked(one.rest)
    ensures LoopTracks(total, start, written + one.out, Serve(one.rest, info, handlers, one.flags, codec))
  {
    var later := Serve(one.rest, info, handlers, one.flags, codec);
    assert Serve(cs, info, handlers, flags, codec) == Served(one.out + later.out, later.flags, later.rest);
    assert start + total.out == (written + one.out) + later.out;
  }

  /** The loop invariant: what is written so far plus what the rest of the
      input will produce is what the whole input produces, and it ends in
      the same state. */
  ghost predicate LoopTracks(total: Served, start: seq<byte>, written: seq<byte>, now: Served)
  {
    start + total.out == written + now.out && total.flags == now.flags && total.rest == now.rest
  }
}
