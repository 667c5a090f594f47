# Verified model of the gemini-cli capability bridge, IPC server, MCP base server and configuration

This project models four parts of the gemini-cli system in Dafny and proves
properties of the model:

- **The capability bridge** (`src/mcp/gemini.rs`). It turns the tools that MCP
  (Model Context Protocol) servers offer into function declarations for the
  language model. It builds the system-prompt addendum that lists tools and
  resources. It pulls function calls out of fenced JSON blocks in the model's
  reply. It also gates each call: it restores the `server/tool` name, splits
  it, asks the operator unless the pair is on the auto-execute list, and then
  runs the tool.
  Files: `capability_bridge.dfy`, `function_calls.dfy`, `authorization.dfy`.
- **The IPC server of the HAPPE daemon** (`happe/src/ipc_server.rs`). It
  handles one connection: a request framed by a little-endian 32-bit length,
  the `__LIST_SESSIONS__` and `__PING__` commands, and queries run against a
  session that is fetched or created, has its expiry refreshed and is saved
  afterwards. The response goes back in the same framing.
  File: `ipc_server.dfy`.
- **The Python MCP base server** (`python_mcp/servers/base_server.py`). It
  covers tool registration, the capabilities answer, the JSON-RPC dispatcher,
  the `Content-Length` framing in both directions (with the byte-by-byte
  header reader over an unbuffered pipe), and the message loop with its
  `initialized` and `shutdown` flags. The loop runs on the reader as
  written, which takes the body with one raw read; the reader that waits for
  the whole body is the corrected half of the first finding below.
  Files: `mcp_framing.dfy`, `mcp_server.dfy`.
- **The CLI configuration** (`src/config.rs`). It covers the defaults, the
  fallback when the file cannot be loaded, the config file path, the
  `--enable-history`, `--disable-history`, `--set-api-key`,
  `--set-system-prompt` and `--show-config` flags, and the truncated display
  of the key and the prompt. `--show-config` uses the byte slices as
  written, so it can panic part-way through its report; the cut at a
  character boundary is the corrected half of the second finding below.
  File: `app_config.dfy`.

Shared pieces:

| File | Contents |
|---|---|
| `prelude.dfy` | Results, options, sequence search and decimal numerals |
| `json.dfy` | JSON values, as an object's ordered list of members |
| `utf8.dfy` | The UTF-8 encoding and decoding of strings |
| `text.dfy` | Rust's `trim`, `to_lowercase` on ASCII, and `lines` |

The model is imperative where the source changes state:

- the MCP host's auto-execute set;
- the session store;
- the server object's handler table and flags;
- the pipes, sockets and console;
- the configuration record and its file.

Each method is proved against a function that specifies it, and the lemmas
state what the source promises about those functions.

Where the code and the documented design disagree, the model follows the
code:

- **config.rs:126** returns `history_config_changed && !config_updated &&
  !args.show_config`. Both of the other flags have already caused an earlier
  return by then, so the value always equals `history_config_changed`. The
  model keeps the expression, and `AppConfig.ExitDecision` states the
  resulting exit rule.
- **Operator answers** that are neither `n`, `a` nor `always` (including an
  empty line) allow the call once.
- **Qualified-name split:** empty server and tool parts are accepted.
- **Name rename:** the `/` to `.` rename undoes itself only for names without
  a `.`.

## Model

| member | source | states |
|---|---|---|
| CapabilityBridge.FunctionDefMeaning | src/mcp/gemini.rs:44-68 | each definition's name is the qualified name with every `/` made `.`, so it holds no `/`; the description is the tool's own or "No description provided"; the schema is the tool's own or the empty object schema (`type` object, no properties, nothing required) |
| CapabilityBridge.ConvertTools | src/mcp/gemini.rs:39-71 | one definition per tool, in the order of the tools, each as `FunctionDefMeaning` describes |
| CapabilityBridge.GenerateDeclarations | src/mcp/gemini.rs:166-174 | `None` exactly when there are no tools; otherwise the converted list, one per tool, in order |
| CapabilityBridge.BuildSystemPrompt | src/mcp/gemini.rs:74-108 | the prompt the loop builds equals the specification `SystemPrompt` (header, tool section, resource section, footer) |
| CapabilityBridge.AppendToolsSection | src/mcp/gemini.rs:78-90 | appends exactly the tools section: nothing for no tools, otherwise the heading and one bullet per tool |
| CapabilityBridge.AppendResourcesSection | src/mcp/gemini.rs:93-102 | appends exactly the resources section: nothing for no resources, otherwise the heading and one bullet per resource |
| CapabilityBridge.PromptFrame | src/mcp/gemini.rs:75-105 | the addendum always starts with the fixed header and ends with the instruction to use function calls |
| CapabilityBridge.SectionsPresentIffNonEmpty | src/mcp/gemini.rs:78-102 | right after the header the tools heading appears iff there are tools; right after the tools section the resources heading appears iff there are resources |
| CapabilityBridge.PromptListsEveryCapability | src/mcp/gemini.rs:80-101 | every tool appears by its dotted name and every resource by its name, each with its description or the placeholder |
| CapabilityBridge.ToolLinesListEveryTool | src/mcp/gemini.rs:80-89 | the bullet of each tool occurs in the tool lines |
| CapabilityBridge.ResourceLinesListEveryResource | src/mcp/gemini.rs:95-101 | the bullet of each resource occurs in the resource lines |
| FunctionCalls.FenceIgnoresTrailingSpace | src/mcp/gemini.rs:127-129 | a line is a fence iff, after trimming, it starts with three backticks; indentation does not matter |
| FunctionCalls.FenceMarkAt | src/mcp/gemini.rs:127-129 | the mark of line `j` is exactly whether line `j` is a fence |
| FunctionCalls.Fences | src/mcp/gemini.rs:127-160 | the recorded fence positions are fences, below the bound, strictly increasing |
| FunctionCalls.FencesComplete | src/mcp/gemini.rs:127-160 | every fence line is recorded |
| FunctionCalls.BlocksBetweenFences | src/mcp/gemini.rs:129-159 | fences pair up: block k holds exactly the lines strictly between fence 2k and fence 2k+1, none of them a fence; an unpaired last fence adds no block |
| FunctionCalls.NoFenceAfterLast | src/mcp/gemini.rs:127-160 | no line after the last recorded fence is a fence |
| FunctionCalls.FenceFreeLinesAddNothing | src/mcp/gemini.rs:155-160 | text after the last closing fence, or an unclosed block at the end, adds no block |
| FunctionCalls.DecodeAllAppend | src/mcp/gemini.rs:140-153 | closing one more block adds its call exactly when it decodes |
| FunctionCalls.DecodedCallsComeFromBlocks | src/mcp/gemini.rs:140-153 | every call comes from a block that decodes to it; there are never more calls than blocks, and as many when every block decodes |
| FunctionCalls.ClassifyLine | src/mcp/gemini.rs:127-137 | reports whether the line is a fence, and whether the fence carries a language tag (more than three bytes once trimmed) |
| FunctionCalls.ParseFunctionCalls | src/mcp/gemini.rs:113-163 | the calls found are the decoded closed blocks, in order, skipping blocks that do not decode |
| FunctionCalls.CallsFromFences | src/mcp/gemini.rs:113-163 | a reply without fences yields no call; at most one call per pair of fences, and exactly one per pair when every block decodes |
| Authorization.RenameRoundTrip | src/mcp/gemini.rs:183 | turning dots back into slashes restores the qualified name iff the name has no `.` |
| Authorization.SplitQualified | src/mcp/gemini.rs:190-195 | succeeds iff the name has a `/`; then the server part has no `/` and joining the parts with `/` gives the name back; otherwise the error is "Invalid qualified tool name: " and the name |
| Authorization.SplitJoined | src/mcp/gemini.rs:190-195 | splitting `server/tool` gives back `server` and `tool` when the server part has no `/` |
| Authorization.ReadFileExample | src/mcp/gemini.rs:183-195 | `fs.read_file` names tool `read_file` of server `fs` |
| Authorization.RecoverJoined | src/mcp/gemini.rs:183 | a dotted name whose parts hold no dot comes back joined by `/` |
| Authorization.EmptyPartsAccepted | src/mcp/gemini.rs:190-193 | `/` and `fs/` pass the split with empty parts |
| Authorization.GateOnlyAddsThisPair | src/mcp/gemini.rs:198-221 | the auto-execute set only grows, and only by the pair of this call, and only when the call runs |
| Authorization.ConfirmOnlyAddsThisPair | src/mcp/gemini.rs:214-221 | after the operator's answer the set grows only by this pair, and only for a call that runs |
| Authorization.AutoExecuteSkipsOperator | src/mcp/gemini.rs:198-200 | a pair already in the set runs whatever the operator would answer, and the set is unchanged |
| Authorization.OperatorDecides | src/mcp/gemini.rs:210-221 | for a pair not in the set, the trimmed, lower-cased answer `n` refuses with "User denied execution of tool: …"; `a` or `always` adds the pair and runs; anything else, the empty line included, runs once and leaves the set alone |
| Authorization.AlwaysIsRemembered | src/mcp/gemini.rs:216-219 | after `always`, every later call of the same pair runs without asking |
| Authorization.AlwaysAddsPair | src/mcp/gemini.rs:216-219 | answering `always` adds the pair and runs the call |
| Authorization.GateOfListedPair | src/mcp/gemini.rs:198-200 | a listed pair runs with the set unchanged |
| Authorization.GateOfUnlistedPair | src/mcp/gemini.rs:200-221 | an unlisted pair is decided by the operator's answer |
| Authorization.UnqualifiedNameRefused | src/mcp/gemini.rs:183-193 | a name with neither `.` nor `/` is refused whatever the answer, and the set is unchanged |
| Authorization.McpHost.constructor | src/mcp/gemini.rs:177-180 | the host starts with the given auto-execute set and no executions |
| Authorization.McpHost.ProcessFunctionCall | src/mcp/gemini.rs:177-228 | the new auto-execute set is the gate's; a call the gate lets through runs the tool once with the call's arguments and passes its result on unchanged; a refused call runs nothing and returns the gate's error |
| IpcServer.EncodeU32Le | happe/src/ipc_server.rs:169-172 | a length below 2^32 is written as four bytes |
| IpcServer.DecodeU32Le | happe/src/ipc_server.rs:95-97 | four bytes give a length below 2^32 |
| IpcServer.LittleEndianRoundTrip | happe/src/ipc_server.rs:97-172 | decoding the bytes written for a length gives the length back |
| IpcServer.LittleEndianBytesRoundTrip | happe/src/ipc_server.rs:97-172 | every four bytes are the encoding of the length they decode to |
| IpcServer.ResponseFrame | happe/src/ipc_server.rs:168-175 | the frame is four length bytes followed by the payload unchanged |
| IpcServer.ReadFrame | happe/src/ipc_server.rs:94-101 | the payload is the announced number of bytes after the four length bytes; reading fails exactly when the stream ends first |
| IpcServer.FrameRoundTrip | happe/src/ipc_server.rs:94-175 | a response frame read back with the same framing gives the payload, whatever follows it |
| IpcServer.ReadFrameOf | happe/src/ipc_server.rs:94-101 | length bytes announcing the payload's length, then the payload, read back as the payload |
| IpcServer.OversizedPayloadMisframed | happe/src/ipc_server.rs:169 | a payload of 4 GiB or more gets a wrapped length, so it does not read back |
| IpcServer.NewSession | happe/src/ipc_server.rs:213 | a created session carries the requested id and an empty history |
| IpcServer.SessionsInOrder | happe/src/ipc_server.rs:186 | the listed sessions are the stored ones, in the listing order |
| IpcServer.IdsOf | happe/src/ipc_server.rs:189 | the id list holds each listed session's id, in order |
| IpcServer.EnumerationOf | happe/src/ipc_server.rs:186 | some order lists every stored id exactly once |
| IpcServer.ListedIdsAreStoredIds | happe/src/ipc_server.rs:186-189 | in a store keyed by id, the ids listed are exactly the listing order of the stored ids |
| IpcServer.SessionStore.constructor | happe/src/ipc_server.rs:200-219 | a new store is empty |
| IpcServer.SessionStore.Get | happe/src/ipc_server.rs:205 | finds a session exactly when one has that id, and returns it |
| IpcServer.SessionStore.Create | happe/src/ipc_server.rs:213-216 | stores and returns a new session under the id, or fails and changes nothing |
| IpcServer.SessionStore.Save | happe/src/ipc_server.rs:139-154 | stores the session under its own id, or fails and changes nothing |
| IpcServer.SessionStore.List | happe/src/ipc_server.rs:186 | returns every stored session once, in an order that enumerates the store, or the store's error |
| IpcServer.AppendInOrder | happe/src/ipc_server.rs:189 | listing one more id appends that session |
| IpcServer.SessionIdFor | happe/src/ipc_server.rs:121 | the request's session id when present, otherwise the fresh id |
| IpcServer.GetOrCreateResumesOrCreates | happe/src/ipc_server.rs:200-219 | fails iff the id is not stored and creation fails, with "Failed to create session: " and the error; otherwise the session has the requested id and is stored under it, a new one is empty, and no other stored session is lost or altered |
| IpcServer.Refreshed | happe/src/ipc_server.rs:124-125 | the coordinator gets the same id and history with the expiry set to now plus 24 hours |
| IpcServer.RequestIn | happe/src/ipc_server.rs:94-104 | a connection carries no request only because the frame is cut short or does not decode |
| IpcServer.BadRequestTouchesNothing | happe/src/ipc_server.rs:94-104 | a cut-short or undecodable request ends the connection with an error, writing nothing and leaving the store unchanged |
| IpcServer.PingAnswersPong | happe/src/ipc_server.rs:111-117 | `__PING__` is answered with `PONG` and the request's own session id, and the store is not touched |
| IpcServer.ListingNamesEveryStoredSession | happe/src/ipc_server.rs:182-197 | `__LIST_SESSIONS__` answers with the ids of all stored sessions and no session id, or fails with the store's error; the store is unchanged |
| IpcServer.QuerySavesOnBothOutcomes | happe/src/ipc_server.rs:118-164 | a query fails only when the session is missing and cannot be created; otherwise the session as the coordinator left it is saved after success and after failure alike, a newly created session stays stored even if the save fails, and no other session changes |
| IpcServer.ExpiryRefreshedBeforeCoordinator | happe/src/ipc_server.rs:124-125 | the session handed to the coordinator expires 86400 seconds from now and keeps its id and history |
| IpcServer.SaveFailureOnlyLogged | happe/src/ipc_server.rs:137-163 | the response does not depend on whether the save fails |
| IpcServer.QueryResponseShapes | happe/src/ipc_server.rs:144-162 | a query's response always carries the session id; it has an error iff the coordinator failed, and then the text is empty and the error reads "Failed to process query: " and the cause |
| IpcServer.SessionIdAbsentOnlyForListingOrBarePing | happe/src/ipc_server.rs:108-164 | only listing, and a ping sent without a session id, answer without one |
| IpcServer.HandleKeepsSessionsKeyed | happe/src/ipc_server.rs:93-179 | each exchange keeps every session stored under its own id |
| IpcServer.HangUpCutsResponse | happe/src/ipc_server.rs:168-178 | a peer that hangs up before the whole response is written makes the exchange fail with the write error and leaves it a cut-off frame that does not read as a response; a peer that stays gets the whole frame and reads back the response |
| IpcServer.Connection.constructor | happe/src/ipc_server.rs:93 | a connection starts with the peer's bytes unread, nothing written, and the peer's hang-up point |
| IpcServer.Connection.ReadExact | happe/src/ipc_server.rs:94-101 | returns exactly the next n bytes, or fails at the end of the stream |
| IpcServer.Connection.WriteAll | happe/src/ipc_server.rs:171-175 | writes every byte, or, when the peer hangs up first, only the bytes it still took and returns the error |
| IpcServer.GetOrCreateSession | happe/src/ipc_server.rs:200-219 | the result and the new store are those of `GetOrCreate`; a failure leaves the store unchanged |
| IpcServer.HandleListSessions | happe/src/ipc_server.rs:182-197 | answers the listing command as the dispatch specifies, for the order the store listed |
| IpcServer.ReadRequest | happe/src/ipc_server.rs:94-104 | reads and decodes the request as `RequestIn` specifies, writing nothing |
| IpcServer.Respond | happe/src/ipc_server.rs:107-165 | the reply and the new store are those of the dispatch on the old store |
| IpcServer.WriteResponse | happe/src/ipc_server.rs:169-175 | writes the length and then the payload, skipping the payload once the length write has failed; the result and the bytes written are those of `Delivered` on the response frame |
| IpcServer.HandleConnection | happe/src/ipc_server.rs:93-179 | the result, the bytes written and the store afterwards are those of `Handle` on the bytes the peer sent, including the write failure when the peer hangs up |
| McpFraming.SkipKeepsChunks | python_mcp/servers/base_server.py:443-558 | reading part of the pipe leaves a well-formed pipe |
| McpFraming.SkipFlatten | python_mcp/servers/base_server.py:443-558 | skipping k bytes drops exactly the first k bytes of the input |
| McpFraming.ReadInFrontChunk | python_mcp/servers/base_server.py:550 | a raw read that starts inside the front chunk returns between one and n of its next bytes |
| McpFraming.ReadAfterSkip | python_mcp/servers/base_server.py:550 | a raw read returns nothing exactly at the end of the input, otherwise between one and n of the next bytes |
| McpFraming.RawStdin.constructor | python_mcp/servers/base_server.py:21-31 | the pipe holds the peer's chunks |
| McpFraming.RawStdin.Read | python_mcp/servers/base_server.py:550 | one raw read takes up to n bytes of the front chunk and never more |
| McpFraming.ScanHeader | python_mcp/servers/base_server.py:443-524 | a header the loop finds ends after the bytes already taken and within the input |
| McpFraming.ScanHeaderMeaning | python_mcp/servers/base_server.py:443-524 | the loop finds the shortest prefix holding a terminator, which ends with it, at most one byte over the 4096 limit; or it reaches the end of the input with no terminator; or it passes 4096 bytes with none |
| McpFraming.ScanFindsCrLf | python_mcp/servers/base_server.py:463-474 | the loop stops at the first prefix ending in CRLF CRLF when no shorter prefix holds a terminator |
| McpFraming.DigitRun | python_mcp/servers/base_server.py:537 | `\d+` takes the longest run of ASCII digits |
| McpFraming.ContentLengthHasTag | python_mcp/servers/base_server.py:537-543 | a length found is announced by a `Content-Length: ` tag |
| McpFraming.DigitRunOf | python_mcp/servers/base_server.py:537 | the digit run after the tag is exactly the digits written there |
| McpFraming.DigitsValueOfDecimal | python_mcp/servers/base_server.py:543 | `int()` of the decimal digits written for n is n |
| McpFraming.HeaderLayout | python_mcp/servers/base_server.py:256-261 | the header's bytes are the tag, the decimal digits and CRLF CRLF |
| McpFraming.ReadMessageFindsHeader | python_mcp/servers/base_server.py:430-570 | a message the corrected reader reads comes after a header that announces a length |
| McpFraming.ReadMessageMeaning | python_mcp/servers/base_server.py:430-570 | a message the corrected reader reads has a header of at most 4097 bytes that ends with its first terminator and holds the tag; header and body are the decoded bytes; the body has the announced length unless the backslashed terminator was used |
| McpFraming.ScanFindsBlankLine | python_mcp/servers/base_server.py:463-474 | a header without line feeds or backslashes before its blank line ends the loop right after it |
| McpFraming.TagAnnounces | python_mcp/servers/base_server.py:537-543 | a tag followed by digits announces their value |
| McpFraming.HeaderEndsScan | python_mcp/servers/base_server.py:443-474 | the header the writer produces ends the reader's loop exactly at its blank line, whatever follows |
| McpFraming.HeaderAnnouncesLength | python_mcp/servers/base_server.py:537-543 | the header written for n announces n |
| McpFraming.ReaderAfterHeader | python_mcp/servers/base_server.py:550-570 | once the header is found, the message is the completed header and body read until full |
| McpFraming.ReaderAsWrittenAfterHeader | python_mcp/servers/base_server.py:550-570 | the reader as written differs only in reading the body with one raw read |
| McpFraming.FrameRoundTrip | python_mcp/servers/base_server.py:430-570 | however the pipe splits a written frame, the reader gets back the header text and the body, and the input continues right after the frame |
| McpFraming.SplitFrame | python_mcp/servers/base_server.py:269 | the two-chunk delivery is a well-formed pipe that carries exactly the frame |
| McpFraming.SplitBodyDroppedAsWritten | python_mcp/servers/base_server.py:550-558 | the as-written reader drops a frame whose body arrives in two chunks; reading until complete gets it |
| McpFraming.ShortReadDropsAsWritten | python_mcp/servers/base_server.py:550-558 | with one raw read, a short body read loses the message |
| McpFraming.SkipLength | python_mcp/servers/base_server.py:443-558 | skipping shortens the input by that many bytes, or empties it |
| McpFraming.ReadMessageConsumes | python_mcp/servers/base_server.py:430-570 | the corrected read leaves a well-formed input that is no longer, and strictly shorter when it yields a message |
| McpFraming.ReadOnceShortens | python_mcp/servers/base_server.py:550 | one raw read keeps the input well-formed and takes exactly the bytes it returns off the front |
| McpFraming.ReadMessageAsWrittenConsumes | python_mcp/servers/base_server.py:430-570 | the read as written leaves a well-formed input that is no longer, and strictly shorter when it yields a message |
| McpFraming.WholeFrameReadAsWritten | python_mcp/servers/base_server.py:430-570 | a frame that arrives in a chunk of its own is read back whole by the reader as written, and the input goes on with the next chunks |
| McpFraming.EmptyChunks | python_mcp/servers/base_server.py:444-448 | the input is empty exactly when the pipe has no chunks |
| McpFraming.ReadHeader | python_mcp/servers/base_server.py:443-524 | the header read byte by byte is the one `ScanHeader` finds; the input is used up at EOF, and exactly 4097 bytes are taken when the header is too large |
| McpFraming.ReadHeaderAndContent | python_mcp/servers/base_server.py:430-570 | returns the message `ReadMessageAsWritten` specifies, with the body taken by one raw read, and leaves the rest of the input |
| McpServer.CapabilitiesDescribeServer | python_mcp/servers/base_server.py:112-124 | the capabilities name the server and its version, list its tools, offer no resources and report it initialized |
| McpServer.ResponseFields | python_mcp/servers/base_server.py:138-249 | success responses carry `jsonrpc` "2.0", the id and the result; error responses carry the id, the code and the message |
| McpServer.RepliesCarryVersionAndId | python_mcp/servers/base_server.py:126-251 | every response answers a request with an id, and carries `jsonrpc` "2.0" and that id |
| McpServer.InitializeAnswersCapabilities | python_mcp/servers/base_server.py:138-154 | `initialize` sets the initialized flag and answers a request with an id with the capabilities; a notification gets no answer |
| McpServer.ShutdownAndExitStop | python_mcp/servers/base_server.py:156-172 | `shutdown` and `exit` set the shutdown flag; `shutdown` with an id is answered with a null result, `exit` never is |
| McpServer.FlagsOnlyRise | python_mcp/servers/base_server.py:126-251 | flags are only ever set, and only by the lifecycle methods |
| McpServer.ToolNameFallsBack | python_mcp/servers/base_server.py:183-188 | the tool name is `tool_name`, or `name` when that is missing or null |
| McpServer.ToolExecution | python_mcp/servers/base_server.py:174-225 | a tool request without an id is not answered and runs nothing; with an id, a registered handler runs on the arguments and the answer is its result or -32000 with "Tool execution error: …"; an unregistered name is answered with -32601 "Tool not found: …" |
| McpServer.RegisteredToolRuns | python_mcp/servers/base_server.py:195-215 | after registering a handler under a name, tool requests for that name run it, whatever was registered before |
| McpServer.OtherMethodsAnswered | python_mcp/servers/base_server.py:227-249 | a `$/` notification is ignored; an unknown method with an id is answered with -32601 "Method not found: …", one without is ignored; a method name that is a truthy non-string raises |
| McpServer.ServeEndsShutDown | python_mcp/servers/base_server.py:338-350 | the loop only ends with the shutdown flag set |
| McpServer.ExitFrameStops | python_mcp/servers/base_server.py:166-172 | a framed `exit` that arrives in a chunk of its own stops the loop with nothing written and nothing after the frame read |
| McpServer.InitializeFrameAnswered | python_mcp/servers/base_server.py:369-376 | a framed `initialize` with an id that arrives in a chunk of its own is answered with the framed capabilities, and the loop continues initialized on the next chunks |
| McpServer.SplitInitializeStopsAsWritten | python_mcp/servers/base_server.py:338-350 | an `initialize` frame whose body arrives in two chunks is never answered: the loop stops with the shutdown flag set and nothing written, though the reader that waits for the whole body gets the request |
| McpServer.FailedReadStops | python_mcp/servers/base_server.py:343-350 | a failed read stops the loop with the flag set and nothing written |
| McpServer.RawStdout.constructor | python_mcp/servers/base_server.py:31 | nothing has been written |
| McpServer.RawStdout.Write | python_mcp/servers/base_server.py:269 | appends the bytes to the output |
| McpServer.McpBaseServer.constructor | python_mcp/servers/base_server.py:62-69 | keeps name, version and tools; no handlers; neither flag set |
| McpServer.McpBaseServer.RegisterTool | python_mcp/servers/base_server.py:107-110 | the handler is stored under the name, replacing an earlier one; the flags are unchanged |
| McpServer.McpBaseServer.HandleRequest | python_mcp/servers/base_server.py:126-251 | the outcome and the new flags are the dispatcher's; the handler table is unchanged |
| McpServer.McpBaseServer.SendResponse | python_mcp/servers/base_server.py:253-290 | writes the header announcing the UTF-8 byte length of the JSON text, then the text |
| McpServer.McpBaseServer.ServeMessage | python_mcp/servers/base_server.py:338-412 | one turn's output, flags and remaining input are those of `ServeOne` on what the reader as written returned |
| McpServer.McpBaseServer.RunMessageLoop | python_mcp/servers/base_server.py:330-422 | the output, the final flags and the remaining input are those of `Serve`, which ends only with the shutdown flag set |
| McpServer.TurnProgresses | python_mcp/servers/base_server.py:338-412 | each turn consumes input or sets the shutdown flag |
| McpServer.TurnKeepsTracking | python_mcp/servers/base_server.py:338-412 | each turn preserves the loop invariant linking the output so far to the whole run |
| AppConfig.DefaultConfig | src/config.rs:17-31 | no key, the built-in prompt, history on |
| AppConfig.LoadConfig | src/config.rs:44-52 | what the file held, or the default when it cannot be read; never an error |
| AppConfig.ConfigFilePath | src/config.rs:40-42 | the path starts with the directory and ends with `config.toml`, with one `/` between them unless the directory is empty or already ends with one |
| AppConfig.BytePrefix | src/config.rs:111-117 | the byte slice succeeds exactly when n is a character boundary, and then it is the prefix of exactly n bytes |
| AppConfig.BoundaryStep | src/config.rs:111-117 | byte n is a character boundary exactly when the first character fits in n and n less its width is a boundary of the rest |
| AppConfig.FloorPrefix | src/config.rs:111-117 | the longest prefix of at most n bytes |
| AppConfig.FloorPrefixAgrees | src/config.rs:111-117 | where the byte slice does not panic, cutting at the character boundary gives the same text |
| AppConfig.FloorPrefixAscii | src/config.rs:111-117 | on ASCII text the cut takes the first n characters |
| AppConfig.SliceInsideCharPanics | src/config.rs:111-117 | a byte slice that ends inside a character panics |
| AppConfig.TruncationPanicsAsWritten | src/config.rs:111-117 | a key of 7 ASCII characters and `é`, or a prompt of 49 and `é`, crashes the display as written; the corrected display shows 7 or 49 characters and `...` |
| AppConfig.DisplayAgrees | src/config.rs:111-117 | wherever the display as written does not crash, the corrected display shows the same |
| AppConfig.ReportAgrees | src/config.rs:109-121 | the report as written is a beginning of the corrected report, all of it unless a slice panicked, and it panics exactly when one of the two displays does |
| AppConfig.ShowConfigPanicsAsWritten | src/config.rs:109-114 | with a key of 7 ASCII characters and `é`, `--show-config` prints its header and panics |
| AppConfig.DisplayHidesKey | src/config.rs:111-117 | a key longer than 8 bytes shows as a proper prefix of at most 8 bytes and `...`, a shorter one as `Set`; a prompt longer than 50 bytes shows as a proper prefix of at most 50 bytes and `...` |
| AppConfig.FloorPrefixWhole | src/config.rs:111-117 | ASCII text followed by a character that does not fit keeps exactly the ASCII text |
| AppConfig.HistoryPrecedence | src/config.rs:66-78 | enabling history wins over disabling; either sets the setting to what it asks, and without either the setting is unchanged |
| AppConfig.UnnamedFieldsKept | src/config.rs:61-106 | a field no flag names is never modified, and a named field only takes the flag's value |
| AppConfig.SavedOnlyWhenChanged | src/config.rs:66-106 | nothing is saved when no value actually changes, and the last save stores the final record |
| AppConfig.ExitDecision | src/config.rs:61-127 | with saves succeeding, the handling panics exactly when it shows the configuration and a display panics; otherwise the result says "exit" exactly when the record changed or the configuration was shown |
| AppConfig.ShowConfigOnly | src/config.rs:109-122 | `--show-config` alone changes and saves nothing, prints the report as written, and returns "exit" or panics as that report does |
| AppConfig.FlagsIdempotent | src/config.rs:61-127 | the same flags applied to the result change nothing and save nothing |
| AppConfig.AppConfig.constructor | src/config.rs:11-15 | the object holds the given record |
| AppConfig.ConfigFile.constructor | src/config.rs:54-58 | the file has its path, its failure mode and no saves |
| AppConfig.ConfigFile.Save | src/config.rs:54-58 | stores the record, or returns the error and stores nothing |
| AppConfig.Console.constructor | src/config.rs:61-127 | nothing has been printed |
| AppConfig.Console.PrintLine | src/config.rs:61-127 | appends one line |
| AppConfig.ApplyHistoryFlags | src/config.rs:66-78 | the changed flag, the record and the printed lines are those of the history step |
| AppConfig.ApplyEditFlags | src/config.rs:86-100 | the updated flag, the record and the printed lines are those of the key and prompt step |
| AppConfig.ShowConfig | src/config.rs:109-122 | prints the lines of the report as written up to the first panicking slice, and says whether one panicked |
| AppConfig.FinishConfigFlags | src/config.rs:80-127 | the outcome (a result or a panic), record, saves and printed lines are those of the rest of the flag handling |
| AppConfig.HandleConfigFlags | src/config.rs:61-127 | the outcome (a result or a panic), the record, the saves and the printed lines are those of `ConfigFlags` on the old record |

## Left out

- Terminal output colours, `GEMINI_DEBUG` printing, `tracing` logging, stderr diagnostics and log files: they do not affect results. Printed text is modelled without colour codes.
- JSON serialisation (`serde_json`, `json.loads`, `json.dumps`): these are parameters of the model. Request decoding, response encoding and the codec used by the message loop are given as functions.
- Authorization.McpHost.ProcessFunctionCall: `execute_tool` and the remote MCP servers are a function parameter. Reading the operator's line is an input. A failure to record the pair in the auto-execute list is a parameter.
- IpcServer.HandleConnection: the coordinator (`process_query`), `Utc::now()` and `Uuid::new_v4()` are parameters. Store failures and the point where the peer hangs up are parameters as well, and the store is a map rather than its real implementation. `serde_json::to_vec` of a response is taken to succeed.
- IpcServer.SessionStore.List: the order the store lists sessions in is a ghost choice, so any order is covered.
- `run_server`, the socket accept loop and the session reaper: they are concurrency and timing, outside the single-connection model.
- McpServer: signal handlers, `run`'s stdout setup and the `_setup_logging` log files are left out.
- McpServer: the regex recovery of an id after an exception is a `Codec` parameter.
- McpServer: exceptions are modelled only where the dispatcher's inputs make them happen (a non-string method name, a list or dict tool name).
- McpFraming: on the backslash-escaped terminator path the body's length is not checked, as written. The corrected reader reads that body until complete, like the main path. No body bytes can precede the terminator's detection, so the source's `content_start` is always empty and is not modelled.
- Python `str()` of a non-empty list or dict in an error message is left out; those values raise before a message is built.
- AppConfig: `get_config_dir` and the `confy` crate are left out. The directory is an input, and loading is given as a result. `save_config` fails or succeeds as the file's failure mode says.
- Text.AsciiLower: `to_lowercase` is modelled on ASCII letters only. Unicode case mapping is not modelled.
- Every integer is unbounded except the `u32` length of IPC frames, whose wrap-around is written out (`IpcServer.OversizedPayloadMisframed`).

## Findings

| source | as written | input that shows it | evidently intended | confidence | as-written member | corrected member |
|---|---|---|---|---|---|---|
| python_mcp/servers/base_server.py:550-558 | the body is read with a single raw `read(content_length)` on an unbuffered pipe, which may return fewer bytes; the length check then drops the message | a frame whose header and first body byte come in one chunk and the rest of the body in the next (`SplitFrame`) | read until the announced number of bytes has arrived or the input ends | not executed | McpFraming.SplitBodyDroppedAsWritten | McpFraming.FrameRoundTrip |
| src/config.rs:111-117 | `&key[..8]` and `&prompt[..50]` slice by bytes and panic when the cut falls inside a multi-byte character, so `--show-config` prints only part of its report and crashes | an API key of 7 ASCII characters followed by `é`, or a system prompt of 49 ASCII characters followed by `é` | cut at the nearest character boundary at or below 8 (or 50) bytes | not executed | AppConfig.TruncationPanicsAsWritten | AppConfig.DisplayHidesKey |
