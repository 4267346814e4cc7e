# MCP server bridge: a Dafny model of its bookkeeping and decisions

The RoadRunner `mcp` plugin is a bridge. It exposes tools to clients of the
Model Context Protocol (MCP) and hands every tool call to a pool of PHP
workers. This project models the bridge's core as a sequential state
machine: a tool registry and a session registry (two maps on the `Plugin`
state object), the RPC service workers use to declare and remove tools, the
per-tool call handler, event dispatch to a worker, the connections of the
SSE and stdio transports, and configuration defaulting and validation.

The model's collaborators are oracles passed in as parameters:
- JSON encoding and decoding: `Types.Codec`, partial functions where `None` is a failed marshal or unmarshal.
- The worker pool's `Exec`: `Types.Pool`, from a worker payload to an error or a stream of responses.
- The clock: a `now` value.
- The generated session id: a parameter.

Modules follow the Go files:
- `Types` (types.go)
- `Config` (config.go)
- `PluginState` (the state fields of plugin.go)
- `Handler` (handler.go)
- `Rpc` (rpc.go)
- `Transport` (transport.go)
- `Wrappers` holds Option/Result/Outcome.

Go methods on `*Plugin` become module-level methods that take the `Plugin`
object and name the fields they change in `modifies`. The closure that
`createToolHandler` returns becomes the method `Rpc.CallToolHandler`, which
takes the tool name it closes over as a parameter. Durations and times are
integer nanoseconds.

The proved properties include these:
- Every declared entry is reported exactly once. It is `updated` exactly when its name was registered before the call or declared earlier in the same request. Otherwise it is `registered`.
- The last declaration of a name wins, and names a request does not mention keep their entries.
- Removal deletes exactly the given names.
- Either notification fires exactly when it is enabled and the request is non-empty.
- The `X-Client-Token` header is present exactly when the session is tracked with a non-empty token.
- Only the first response of the worker's stream is used.
- An authentication reply of `allowed=false`, a failed dispatch or an undecodable reply rejects the connection, and nothing is tracked.
- Tool replies keep their length and their `isError` flag. Images stay images and every other content type becomes text.
- Defaulting fills only zero fields and is idempotent. The default values pass validation, and after defaulting the address check can never fail.
- Both transports remove their session when the connection ends, whether or not the protocol server's `Connect` failed. A connection with a fresh session id leaves the session registry as it found it.

`RemoveTools` deletes names from the registry only. The protocol server
keeps advertising and routing the removed tools, because nothing in the
source removes them there. `RpcService.RemoveTools` states this:
`advertised` is unchanged.

Behaviours of the code the model keeps on purpose:
- `DeclareTools` reports sequences in request order, repeats included, not sets (rpc.go:50-54).
- `resource` content is rendered as text, and its URI is dropped (rpc.go:153-155).
- The bridge never checks the context itself; cancellation is left to the pool (handler.go:14-71).
- A tool call touches the session's `lastActivity` before dispatch, even when the dispatch then fails (rpc.go:107).
- Defaulting forces `notify_clients_on_change` and `skip_for_stdio` on (config.go:77, 80), so neither can be turned off by configuration and stdio is never authenticated. The `Plugin` accepts any settings, so the contracts also cover configurations the program never builds.

## Model

| member | source | states |
|---|---|---|
| `PluginState.Plugin.constructor` | plugin.go:91-92 | The plugin starts with an empty tool registry, an empty session registry, nothing advertised and no notification fired |
| `Config.Config.constructor` | plugin.go:76-79 | A configuration holds exactly the values read from the plugin's section |
| `Config.Validate` | config.go:86-114 | Accepts exactly the configurations with transport "sse" or "stdio", a non-empty address for "sse", at least one connection and all three durations at least one second. Each error is reported exactly when every earlier check passes and its own check fails, in the order transport, address, connections, read timeout, write timeout, ping interval |
| `Config.Config.InitDefaults` | config.go:47-83 | The new configuration is `WithDefaults` of the old one, and the result is exactly `Validate` of the new configuration |
| `Config.WithDefaults` | config.go:48-80 | Each of transport, address, connection limit and the three durations is kept when non-zero and takes its default when zero. Notify-on-change and skip-for-stdio are forced on. The auth and debug flags are kept |
| `Config.DefaultsIdempotent` | config.go:48-80 | Defaulting an already defaulted configuration changes nothing |
| `Config.ZeroConfigAccepted` | config.go:48-82 | An all-zero configuration becomes sse on 127.0.0.1:9333 with 100 connections, 60s/10s/30s durations, and it passes validation |
| `Config.MissingAddressUnreachable` | config.go:52-54 | After defaulting, the "address required for SSE" check can never be the failing one |
| `Config.NegativeMaxConnectionsRejected` | config.go:63-65 | When the transport is empty, "sse" or "stdio", a negative connection limit survives defaulting and is rejected by the connection-limit check |
| `Config.UnknownTransportRejected` | config.go:89-91 | A non-empty transport other than sse and stdio is rejected after defaulting |
| `Handler.SessionToken` | handler.go:24-36 | A token is found exactly when the session is tracked and its token is non-empty, and it is that session's token |
| `Handler.WorkerHeaders` | handler.go:28-38 | The headers always hold the event name, the session id, `application/json` and `POST`. `X-Client-Token` is present exactly when the session has a non-empty token and then carries it. No other header is added |
| `Handler.FirstReply` | handler.go:56-70 | A pool error becomes an error. An empty stream is "no response from worker". Otherwise only the first response decides: its error if it has one, else its body |
| `Handler.TakeFirst` | handler.go:61-70 | Reading the response stream and returning on its first item yields exactly `FirstReply` |
| `Handler.SendEventOutcomeAsWritten` | handler.go:14-71 | A marshal failure is an error and the pool is not consulted. For Context = Body = JSON, a pool error becomes `ExecFailed`, an empty stream `NoResponse`, and a first response with an error `WorkerFailed` carrying it. A first response without an error gives success with its body, and a success arises no other way |
| `Handler.SendEventOutcome` | handler.go:14-71 | As above, except that the pool is given the encoded header set in the Context |
| `Handler.SendEventAsWritten` | handler.go:14-71 | The method returns exactly `SendEventOutcomeAsWritten` of the current sessions |
| `Handler.SendEvent` | handler.go:14-71 | The method returns exactly `SendEventOutcome` of the current sessions |
| `Handler.TokenNeverReachesWorkerAsWritten` | handler.go:36-44 | As written, a session's token is put in the headers, yet the worker sees exactly what it would see for an untracked session |
| `Handler.TokenCheckingWorkerRejectsAsWritten` | handler.go:36-44 | Concretely: a worker that admits only requests with a token refuses a tokened session as written and accepts it once headers are delivered |
| `Handler.TokenReachesWorker` | handler.go:36-38 | Once headers are delivered, sessions with different tokens give the worker different requests, assuming the header encoding is injective |
| `Handler.DispatchOutcome` | handler.go:14-71 | A marshal failure is an error whichever dispatch is chosen. Without header delivery the outcome is `SendEventOutcomeAsWritten`; with it, `SendEventOutcome` |
| `Handler.AuthDecision` | handler.go:89-109 | A dispatch error is a rejection carrying the cause, and an undecodable reply is an invalid-reply rejection. `allowed=false` is a denial carrying the worker's message. `allowed=true` yields the worker's token, which may be empty |
| `Handler.AuthOutcome` | handler.go:74-110 | With auth disabled the result is an empty token and no error, with or without header delivery. Otherwise it is `AuthDecision` of a `ClientConnected` event carrying the session id and credentials, dispatched as the flag selects |
| `Handler.AuthDisabledAdmitsAll` | handler.go:78-80 | With auth disabled every connection is admitted with an empty token, whatever its credentials and whichever dispatch is chosen |
| `Handler.AuthenticateSession` | handler.go:74-110 | The method returns exactly `AuthOutcome` for the plugin's auth flag and current sessions, dispatched as written |
| `Rpc.InstalledKeys` | rpc.go:29-47 | After installing a request, the registry's names are the old names plus the declared ones |
| `Rpc.PresentIffTaken` | rpc.go:31 | When an entry is processed, its name is in the registry exactly when it was registered before the call or declared earlier in the request |
| `Rpc.InstalledLastWins` | rpc.go:34-47 | A name maps to the tool built from its last declaration in the request |
| `Rpc.InstalledKeepsOthers` | rpc.go:29-47 | Names the request does not mention keep their entry, or stay absent |
| `Rpc.ReportCounts` | rpc.go:50-54 | `registered` and `updated` together have exactly one entry per declared entry: their lengths add up and their multisets union to the declared names |
| `Rpc.RegisteredAreNew` | rpc.go:31-54 | The registered names are exactly the declared names that were not registered before, each reported once |
| `Rpc.UpdatedAreTaken` | rpc.go:31-52 | A name is reported as updated exactly when some entry for it found the name already taken |
| `Rpc.RedeclaredIsUpdated` | rpc.go:31-54 | A name declared again by the next request is updated and not registered the second time |
| `Rpc.InstalledAllKeys` | rpc.go:29-47 | After a run of declaring requests, the registry's names are the old names plus every name any of the requests declared |
| `Rpc.RedeclaredAfterRunIsUpdated` | rpc.go:31-54 | A name declared by any request of a run of declarations and declared again by a later request is updated and not registered, provided no `RemoveTools` came in between |
| `Rpc.DeclareTwiceScenario` | rpc.go:29-54 | Declaring "t1" twice reports `registered=["t1"]` and then `updated=["t1"]`, `registered=[]`, and the second description wins |
| `Rpc.RepeatedInOneRequest` | rpc.go:29-54 | A new name declared twice in one request is registered, then updated, and holds the second declaration |
| `Rpc.Removed` | rpc.go:77-79 | Every given name is gone and every other entry is unchanged. Absent names make no difference |
| `Rpc.NotifyToolsChanged` | rpc.go:177-180 | The stub records one notification fired and does nothing else |
| `Rpc.RpcService.constructor` | rpc.go:15-17 | The service is bound to its plugin |
| `Rpc.RpcService.DeclareTools` | rpc.go:20-68 | The registry and the advertised set become `Installed` of the request. Responses are `RegisteredNames`/`UpdatedNames` in request order. One notification fires exactly when enabled and the request is non-empty. Sessions are untouched and the call never fails |
| `Rpc.RpcService.RemoveTools` | rpc.go:71-88 | The registry loses exactly the given names and the advertised set is unchanged. One notification fires exactly when enabled and the name list is non-empty, even if no name existed |
| `Rpc.Touched` | rpc.go:183-190 | Touching an untracked id changes nothing. Otherwise only that session's `lastActivity` changes, and it becomes `now` |
| `Rpc.UpdateSessionActivity` | rpc.go:183-190 | The session registry becomes `Touched` of the old one |
| `Rpc.TouchKeepsDispatch` | rpc.go:107-123 | Touching a session changes neither its worker headers nor the outcome of its later dispatches, with or without header delivery |
| `Rpc.ResolveSessionId` | rpc.go:94-99 | The session id is the request metadata's `sessionId` when present and `"unknown"` otherwise |
| `Rpc.ToProtocolContent` | rpc.go:147-158 | An item becomes image content exactly when its type is "image", with its data and MIME type. Text, resource and unknown types become text content with its text |
| `Rpc.ConvertContent` | rpc.go:145-159 | The converted content has one item per worker item, each converted by `ToProtocolContent` |
| `Rpc.ToolCallOutcome` | rpc.go:110-164 | An argument marshal failure, a dispatch failure and an undecodable reply are errors with no result. On success the content has the reply's length, is converted item by item, and `isError` is copied. This holds with or without header delivery |
| `Rpc.CallToolHandler` | rpc.go:91-174 | The resolved session is touched whatever the outcome, and the result is `ToolCallOutcome` for the resolved session id, dispatched as written |
| `Rpc.ToolErrorIsNotCallFailure` | rpc.go:161-164 | A worker reply with `isError=true` is a successful call whose result is marked as an error |
| `Rpc.EchoScenario` | rpc.go:145-164 | A worker answering one text item "1" with `isError=false` yields exactly one text content "1" and no error |
| `Transport.TrimPrefix` | transport.go:27 | With the prefix present, the prefix followed by the result is the input. Without it, the input is returned unchanged |
| `Transport.ExtractCredentials` | transport.go:25-31 | `token` is present exactly when the Authorization header is non-empty, and holds the header minus one leading "Bearer ". `ip` and `user_agent` are always set, and no other key appears |
| `Transport.CopyToMetadata` | transport.go:49-52 | Copying key by key yields the credentials entry for entry |
| `Transport.TrackSession` | transport.go:140-159 | `sessions[id]` becomes the given token, transport and metadata with both timestamps at `now`. Other sessions are unchanged and an existing id is overwritten |
| `Transport.RemoveSession` | transport.go:162-169 | The id is absent afterwards and the other sessions are unchanged. Removing an absent id changes nothing |
| `Transport.ServeSseConnect` | transport.go:22-53 | Credentials are taken from the request. With auth disabled the session is tracked as "sse" with an empty token. With auth enabled, a rejection answers 401 and leaves the registry untouched, and acceptance tracks the worker's token. The metadata is the credentials, entry for entry |
| `Transport.StdioNeverAuthenticatesAfterDefaults` | transport.go:113-118 | Defaulting forces the stdio exemption on, so the stdio connection is never authenticated, whatever the auth flag |
| `Transport.ServeStdioConnect` | transport.go:111-121 | Authenticates with empty credentials only when auth is enabled and stdio is not exempt. A failure is an error and nothing is tracked. Otherwise the session is tracked as "stdio" with no metadata |
| `Transport.ServeSseConnection` | transport.go:20-79 | A connection is refused exactly when auth is enabled and authentication fails, and then the registry is untouched. Otherwise the session is removed at the end whether `Connect` fails (500) or not, so the id is absent afterwards; a fresh id leaves the registry as it was |
| `Transport.ServeStdioConnection` | transport.go:101-137 | An authentication error is returned exactly when stdio authenticates and authentication fails, and then the registry is untouched. Otherwise the result is the `Connect` error or success, the session is removed at the end, and the id is absent afterwards; a fresh id leaves the registry as it was |
| `Transport.ConnectThenDisconnect` | transport.go:53-65 | Tracking a fresh session id and removing it when the connection ends restores the session registry |

## Findings

| source | as written | input that shows it | evidently intended | confidence | as-written member | corrected member |
|---|---|---|---|---|---|---|
| handler.go:28-44 | `sendEvent` builds a header map with the event name, session id and `X-Client-Token`. It never uses that map: the worker payload is Context = Body = payload JSON | A session tracked with token "secret" calls a tool. The worker gets the same bytes as for an untracked session, so a worker that checks the token refuses the call | The headers, token included, reach the worker, so that it can re-check authorization on each call. The model carries the encoded header set in the payload's Context | medium, not executed | `Handler.SendEventAsWritten`, `Handler.TokenNeverReachesWorkerAsWritten`, `Handler.TokenCheckingWorkerRejectsAsWritten` | `Handler.SendEvent`, `Handler.TokenReachesWorker` |

`Handler.AuthenticateSession`, `Rpc.CallToolHandler` and both transports
dispatch as written, through `Handler.SendEventAsWritten`. The spec functions
`Handler.AuthOutcome`, `Rpc.ToolReply` and `Rpc.ToolCallOutcome` take a
`deliverHeaders` flag: `false` is the code as written, `true` the corrected
dispatch of `Handler.SendEvent`, and their contracts hold for both.

## Left out

- Concurrency: the `sync.RWMutex` and the lock discipline are not modelled. Every operation is one atomic step.
- The worker pool is an oracle: pool creation, `stopCh`, the response channel and context cancellation or deadlines are not modelled. The pool is a pure function, so repeated dispatches get the same answer.
- JSON encoding and decoding are oracles and are not modelled byte by byte.
- The MCP SDK is not modelled: server creation, `Connect`, the SSE and stdio transport objects and the SDK content types. What `mcp.AddTool` does is kept as the abstract `advertised` map. The handler stored with each tool is `Rpc.CallToolHandler` with the tool's name.
- HTTP and process plumbing are not modelled: `http.Server`, `ListenAndServe`, the text of `http.Error` responses, uuid generation (a parameter) and the blocking serve loop. A connection's end is the deferred `RemoveSession`.
- Transport.TrackSession: both timestamps come from one clock value, where the source reads `time.Now()` twice.
- Rpc.ResolveSessionId: metadata values are given as the text `fmt.Sprintf("%v", …)` renders. The formatting itself is not modelled.
- Session metadata is `map<string, Json>` for `map[string]interface{}`. The nil map stdio passes is `None`.
- The pool sub-configuration and `Pool.InitDefaults` belong to the pool library and are not modelled. The `Config` class holds the other fields.
- Logging (zap) is not modelled, because it has no effect on state.
- metrics.go, utils.go and the lifecycle parts of plugin.go (`Init`, `Serve`, `Stop`, dependency injection, logger adapters) are not part of this model. Only the empty initial maps are.
- Transport.ServeSseConnect: the response to a rejected connection is the outcome `Unauthorized`. The HTTP 401 write itself is not modelled.
- Transport.ServeSseConnection: the protocol server's `Connect` is a parameter, its error or none. Other operations that run while a connection is open are not interleaved with it.
- Transport.ServeStdioConnection: the same holds, and the error wrapping of `errors.E` is the `StdioError` constructor.
