/**
 * The records exchanged between the bridge, its control-plane callers and the
 * workers (types.go), plus the abstract collaborators the bridge calls into:
 * JSON encoding and decoding, and the worker pool.
 */
module Types {
  import opened Wrappers

  /** A JSON document, standing for Go's `interface{}` values and `map[string]interface{}`. */
  datatype Json =
    | Null
    | Bool(b: bool)
    | Number(n: int)
    | Str(s: string)
    | Array(items: seq<Json>)
    | Object(fields: map<string, Json>)

  newtype byte = x: int | 0 <= x < 256

  /** Serialized bytes: a JSON encoding or a worker's raw reply body. */
  type Bytes = seq<byte>

  /** Nanoseconds, as Go's `time.Time` and `time.Duration` are counted here. */
  type Time = int

  /** A tool definition as declared by a worker over RPC. */
  datatype ToolDefinition = ToolDefinition(name: string, description: string, inputSchema: map<string, Json>)

  datatype DeclareToolsRequest = DeclareToolsRequest(tools: seq<ToolDefinition>)

  datatype DeclareToolsResponse = DeclareToolsResponse(registered: seq<string>, updated: seq<string>)

  /** The protocol-level tool installed in the registry and advertised to clients. */
  datatype Tool = Tool(name: string, description: string, inputSchema: map<string, Json>)

  datatype ClientConnectedPayload = ClientConnectedPayload(sessionId: string, credentials: map<string, string>)

  datatype ClientConnectedResponse = ClientConnectedResponse(allowed: bool, token: string, message: string)

  datatype CallToolPayload = CallToolPayload(sessionId: string, toolName: string, arguments: Bytes)

  /** One content item of a worker's tool reply; `kind` is the JSON `type` tag. */
  datatype McpContent = McpContent(kind: string, text: string, data: string, uri: string, mimeType: string)

  datatype CallToolResponse = CallToolResponse(content: seq<McpContent>, isError: bool)

  /** Content in the protocol engine's representation. */
  datatype Content = TextContent(text: string) | ImageContent(data: string, mimeType: string)

  /** The result handed back to the protocol engine for a tool call. */
  datatype CallToolResult = CallToolResult(content: seq<Content>, isError: bool)

  /** An active client session. `metadata` is `None` where Go stores a nil map. */
  datatype SessionInfo = SessionInfo(
    id: string,
    token: string,
    connectedAt: Time,
    lastActivity: Time,
    transport: string,
    metadata: Option<map<string, Json>>)

  const EventClientConnected: string := "ClientConnected"
  const EventCallTool: string := "CallTool"

  /** The payloads the bridge sends to a worker, one per event. */
  datatype EventPayload =
    | ClientConnected(connected: ClientConnectedPayload)
    | CallTool(call: CallToolPayload)

  /** Worker-bound header set: name to values. */
  type Headers = map<string, seq<string>>

  /**
   * JSON encoding and decoding as partial functions (`None` is a failed
   * `json.Marshal` or `json.Unmarshal`).
   */
  datatype Codec = Codec(
    encodeArguments: map<string, Json> -> Option<Bytes>,
    encodeEvent: EventPayload -> Option<Bytes>,
    encodeHeaders: Headers -> Bytes,
    decodeAuthReply: Bytes -> Option<ClientConnectedResponse>,
    decodeToolReply: Bytes -> Option<CallToolResponse>)

  /** The unit handed to the worker pool. */
  datatype WorkerPayload = WorkerPayload(context: Bytes, body: Bytes)

  /** One item of the pool's response stream. */
  datatype WorkerResponse = WorkerResponse(error: Option<string>, body: Bytes)

  /** What the pool's `Exec` gives back: an error, or a stream of responses. */
  datatype ExecOutcome = ExecError(message: string) | Stream(responses: seq<WorkerResponse>)

  /** The worker pool, as an oracle from payload to outcome. */
  type Pool = WorkerPayload -> ExecOutcome
}
