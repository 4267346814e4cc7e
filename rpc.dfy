/**
 * The control-plane RPC service and the per-tool call handler (rpc.go):
 * declaring and removing tools, touching a session on every call, dispatching
 * the call to a worker and translating the worker's content items.
 */
module Rpc {
  import opened Wrappers
  import opened Types
  import opened PluginState
  import opened Handler

  // ---------------------------------------------------------------------------
  // Tool registry

  /** The protocol-level tool built from a declaration. */
  function ToTool(d: ToolDefinition): Tool {
    Tool(d.name, d.description, d.inputSchema)
  }

  /** The declared names, in request order. */
  function Names(defs: seq<ToolDefinition>): (ns: seq<string>)
    ensures |ns| == |defs|
    ensures forall i :: 0 <= i < |defs| ==> ns[i] == defs[i].name
  {
    seq(|defs|, i requires 0 <= i < |defs| => defs[i].name)
  }

  /** A registry after installing each declaration in turn: the last declaration of a name wins. */
  function Installed(m: map<string, Tool>, defs: seq<ToolDefinition>): map<string, Tool>
    decreases |defs|
  {
    if defs == [] then m
    else
      var last := defs[|defs| - 1];
      Installed(m, defs[..|defs| - 1])[last.name := ToTool(last)]
  }

  /** Entry `i` finds its name taken: already registered, or declared earlier in the same request. */
  predicate Taken(m: map<string, Tool>, defs: seq<ToolDefinition>, i: int)
    requires 0 <= i < |defs|
  {
    defs[i].name in m || defs[i].name in Names(defs[..i])
  }

  /** The names reported as registered: entries whose name was not taken, in request order. */
  function RegisteredNames(m: map<string, Tool>, defs: seq<ToolDefinition>): seq<string>
    decreases |defs|
  {
    if defs == [] then []
    else
      var k := |defs| - 1;
      RegisteredNames(m, defs[..k]) + (if Taken(m, defs, k) then [] else [defs[k].name])
  }

  /** The names reported as updated: entries whose name was taken, in request order. */
  function UpdatedNames(m: map<string, Tool>, defs: seq<ToolDefinition>): seq<string>
    decreases |defs|
  {
    if defs == [] then []
    else
      var k := |defs| - 1;
      UpdatedNames(m, defs[..k]) + (if Taken(m, defs, k) then [defs[k].name] else [])
  }

  /** Installing a request adds exactly its names to the registry's keys. */
  lemma {:induction false} InstalledKeys(m: map<string, Tool>, defs: seq<ToolDefinition>)
    ensures Installed(m, defs).Keys == m.Keys + NameSet(Names(defs))
    decreases |defs|
  {
    if defs != [] {
      var k := |defs| - 1;
      InstalledKeys(m, defs[..k]);
      assert Names(defs) == Names(defs[..k]) + [defs[k].name];
    }
  }

  /** When an entry is processed, its name is in the registry exactly when it is taken. */
  lemma PresentIffTaken(m: map<string, Tool>, defs: seq<ToolDefinition>, i: int)
    requires 0 <= i < |defs|
    ensures defs[i].name in Installed(m, defs[..i]) <==> Taken(m, defs, i)
  {
    InstalledKeys(m, defs[..i]);
  }

  /** A declaration not overridden later in the request is what the registry holds afterwards. */
  lemma {:induction false} InstalledLastWins(m: map<string, Tool>, defs: seq<ToolDefinition>, i: int)
    requires 0 <= i < |defs|
    requires forall j :: i < j < |defs| ==> defs[j].name != defs[i].name
    ensures defs[i].name in Installed(m, defs)
    ensures Installed(m, defs)[defs[i].name] == ToTool(defs[i])
    decreases |defs|
  {
    var k := |defs| - 1;
    if i < k {
      InstalledLastWins(m, defs[..k], i);
    }
  }

  /** The names a sequence mentions. */
  function NameSet(ns: seq<string>): (r: set<string>)
    ensures forall n :: n in r <==> n in ns
  {
    set n | n in ns
  }

  /** Names the request does not mention keep their entry, or their absence. */
  lemma {:induction false} InstalledKeepsOthers(m: map<string, Tool>, defs: seq<ToolDefinition>, n: string)
    requires n !in Names(defs)
    ensures n in Installed(m, defs) <==> n in m
    ensures n in m ==> Installed(m, defs)[n] == m[n]
    decreases |defs|
  {
    if defs != [] {
      var k := |defs| - 1;
      assert Names(defs) == Names(defs[..k]) + [defs[k].name];
      InstalledKeepsOthers(m, defs[..k], n);
    }
  }

  /** Every entry is reported exactly once, as registered or as updated. */
  lemma {:induction false} ReportCounts(m: map<string, Tool>, defs: seq<ToolDefinition>)
    ensures |RegisteredNames(m, defs)| + |UpdatedNames(m, defs)| == |defs|
    ensures multiset(RegisteredNames(m, defs)) + multiset(UpdatedNames(m, defs)) == multiset(Names(defs))
    decreases |defs|
  {
    if defs != [] {
      var k := |defs| - 1;
      ReportCounts(m, defs[..k]);
      assert Names(defs) == Names(defs[..k]) + [defs[k].name];
    }
  }

  /** Registered names are new to the registry, each reported once: one per new name declared. */
  lemma {:induction false} RegisteredAreNew(m: map<string, Tool>, defs: seq<ToolDefinition>)
    ensures NameSet(RegisteredNames(m, defs)) == NameSet(Names(defs)) - m.Keys
    ensures forall a, b :: 0 <= a < b < |RegisteredNames(m, defs)| ==>
              RegisteredNames(m, defs)[a] != RegisteredNames(m, defs)[b]
    decreases |defs|
  {
    if defs != [] {
      var k := |defs| - 1;
      var name := defs[k].name;
      var before := RegisteredNames(m, defs[..k]);
      RegisteredAreNew(m, defs[..k]);
      assert Names(defs) == Names(defs[..k]) + [name];
      assert NameSet(Names(defs)) == NameSet(Names(defs[..k])) + {name};
      if Taken(m, defs, k) {
        assert RegisteredNames(m, defs) == before;
      } else {
        assert RegisteredNames(m, defs) == before + [name];
        assert NameSet(before + [name]) == NameSet(before) + {name};
        assert name !in before;
      }
    }
  }

  /** Updated names are those already registered or declared more than once. */
  lemma {:induction false} UpdatedAreTaken(m: map<string, Tool>, defs: seq<ToolDefinition>)
    ensures forall n :: n in UpdatedNames(m, defs) <==>
              exists i :: 0 <= i < |defs| && defs[i].name == n && Taken(m, defs, i)
    decreases |defs|
  {
    if defs != [] {
      var k := |defs| - 1;
      UpdatedAreTaken(m, defs[..k]);
      forall n ensures n in UpdatedNames(m, defs) <==>
                         exists i :: 0 <= i < |defs| && defs[i].name == n && Taken(m, defs, i)
      {
        if n in UpdatedNames(m, defs[..k]) {
          var i :| 0 <= i < k && defs[..k][i].name == n && Taken(m, defs[..k], i);
          assert defs[..k][..i] == defs[..i];
          assert Taken(m, defs, i);
        }
        if exists i :: 0 <= i < |defs| && defs[i].name == n && Taken(m, defs, i) {
          var i :| 0 <= i < |defs| && defs[i].name == n && Taken(m, defs, i);
          if i < k {
            assert defs[..k][..i] == defs[..i];
            assert Taken(m, defs[..k], i);
          }
        }
      }
    }
  }

  /** The registry after a run of `DeclareTools` requests, in order, with no removal in between. */
  function InstalledAll(m: map<string, Tool>, requests: seq<seq<ToolDefinition>>): map<string, Tool>
    decreases |requests|
  {
    if requests == [] then m
    else Installed(InstalledAll(m, requests[..|requests| - 1]), requests[|requests| - 1])
  }

  /** Declarations only add names: every name registered before or declared in the run stays registered. */
  lemma {:induction false} InstalledAllKeys(m: map<string, Tool>, requests: seq<seq<ToolDefinition>>)
    ensures InstalledAll(m, requests).Keys
         == m.Keys + (set j, n | 0 <= j < |requests| && n in Names(requests[j]) :: n)
    decreases |requests|
  {
    if requests != [] {
      var k := |requests| - 1;
      InstalledAllKeys(m, requests[..k]);
      InstalledKeys(InstalledAll(m, requests[..k]), requests[k]);
      assert forall j :: 0 <= j < k ==> requests[..k][j] == requests[j];
    }
  }

  /**
   * A name declared by some request of a run of declarations and declared
   * again by a later request is reported as updated, never as registered,
   * provided no `RemoveTools` came in between.
   */
  lemma RedeclaredAfterRunIsUpdated(m: map<string, Tool>, requests: seq<seq<ToolDefinition>>,
                                    later: seq<ToolDefinition>, j: int, n: string)
    requires 0 <= j < |requests| && n in Names(requests[j]) && n in Names(later)
    ensures n !in RegisteredNames(InstalledAll(m, requests), later)
    ensures n in UpdatedNames(InstalledAll(m, requests), later)
  {
    var before := InstalledAll(m, requests);
    InstalledAllKeys(m, requests);
    assert n in before;
    RegisteredAreNew(before, later);
    var i :| 0 <= i < |later| && Names(later)[i] == n;
    UpdatedAreTaken(before, later);
    assert Taken(before, later, i);
  }

  /**
   * A name declared by one request and declared again by the next is
   * reported as updated, never as registered, the second time.
   */
  lemma RedeclaredIsUpdated(m: map<string, Tool>, first: seq<ToolDefinition>, second: seq<ToolDefinition>, n: string)
    requires n in Names(first) && n in Names(second)
    ensures n !in RegisteredNames(Installed(m, first), second)
    ensures n in UpdatedNames(Installed(m, first), second)
  {
    InstalledKeys(m, first);
    RegisteredAreNew(Installed(m, first), second);
    var i :| 0 <= i < |second| && Names(second)[i] == n;
    UpdatedAreTaken(Installed(m, first), second);
    assert Taken(Installed(m, first), second, i);
  }

  /** Declaring `t1`, then declaring it again with a new description. */
  lemma DeclareTwiceScenario(schema: map<string, Json>)
    ensures var first := [ToolDefinition("t1", "first", schema)];
            var second := [ToolDefinition("t1", "second", schema)];
            && RegisteredNames(map[], first) == ["t1"] && UpdatedNames(map[], first) == []
            && RegisteredNames(Installed(map[], first), second) == []
            && UpdatedNames(Installed(map[], first), second) == ["t1"]
            && Installed(Installed(map[], first), second) == map["t1" := Tool("t1", "second", schema)]
  {
    var first := [ToolDefinition("t1", "first", schema)];
    var second := [ToolDefinition("t1", "second", schema)];
    assert first[..0] == [] && second[..0] == [];
    assert Taken(Installed(map[], first), second, 0);
  }

  /** A name repeated within one request is registered, then updated. */
  lemma RepeatedInOneRequest(m: map<string, Tool>, d1: ToolDefinition, d2: ToolDefinition)
    requires d1.name == d2.name && d1.name !in m
    ensures RegisteredNames(m, [d1, d2]) == [d1.name]
    ensures UpdatedNames(m, [d1, d2]) == [d2.name]
    ensures Installed(m, [d1, d2]) == m[d2.name := ToTool(d2)]
  {
    assert [d1, d2][..1] == [d1] && [d1][..0] == [];
    assert Names([d1]) == [d1.name];
    assert Taken(m, [d1, d2], 1) && !Taken(m, [d1], 0);
    assert Installed(m, [d1]) == m[d1.name := ToTool(d1)];
    assert RegisteredNames(m, [d1]) == [d1.name] && UpdatedNames(m, [d1]) == [];
  }

  /** Removing names: each is gone, every other entry stays. */
  function Removed(m: map<string, Tool>, names: seq<string>): (r: map<string, Tool>)
    ensures forall n :: n in names ==> n !in r
    ensures forall n :: n in m && n !in names ==> n in r && r[n] == m[n]
    ensures r.Keys <= m.Keys
  {
    m - NameSet(names)
  }

  /** Fires the "tools changed" notification; delivery is not implemented, so only the firing is recorded. */
  method NotifyToolsChanged(p: Plugin)
    modifies p`toolsChangedSignals
    ensures p.toolsChangedSignals == old(p.toolsChangedSignals) + 1
  {
    p.toolsChangedSignals := p.toolsChangedSignals + 1;
  }

  /** The RPC endpoint workers call to declare and remove tools. */
  class RpcService {
    const plugin: Plugin

    constructor (plugin: Plugin)
      ensures this.plugin == plugin
    {
      this.plugin := plugin;
    }

    /** Installs each declaration, reporting it as registered or updated; never fails. */
    method DeclareTools(req: DeclareToolsRequest) returns (resp: DeclareToolsResponse)
      modifies plugin`tools, plugin`advertised, plugin`toolsChangedSignals
      ensures plugin.tools == Installed(old(plugin.tools), req.tools)
      ensures plugin.advertised == Installed(old(plugin.advertised), req.tools)
      ensures resp.registered == RegisteredNames(old(plugin.tools), req.tools)
      ensures resp.updated == UpdatedNames(old(plugin.tools), req.tools)
      ensures plugin.toolsChangedSignals ==
                old(plugin.toolsChangedSignals) + if plugin.cfg.notifyClientsOnChange && req.tools != [] then 1 else 0
    {
      var defs := req.tools;
      ghost var m0 := plugin.tools;
      resp := DeclareToolsResponse([], []);
      for i := 0 to |defs|
        invariant plugin.tools == Installed(m0, defs[..i])
        invariant plugin.advertised == Installed(old(plugin.advertised), defs[..i])
        invariant resp.registered == RegisteredNames(m0, defs[..i])
        invariant resp.updated == UpdatedNames(m0, defs[..i])
        invariant plugin.toolsChangedSignals == old(plugin.toolsChangedSignals)
      {
        var def := defs[i];
        var known := def.name in plugin.tools;
        var tool := ToTool(def);
        // mcp.AddTool: the server advertises the tool under its name, replacing any earlier one.
        plugin.advertised := plugin.advertised[def.name := tool];
        plugin.tools := plugin.tools[def.name := tool];
        PresentIffTaken(m0, defs, i);
        assert defs[..i + 1][..i] == defs[..i];
        assert Taken(m0, defs[..i + 1], i) == Taken(m0, defs, i);
        if known {
          resp := resp.(updated := resp.updated + [def.name]);
        } else {
          resp := resp.(registered := resp.registered + [def.name]);
        }
      }
      assert defs[..|defs|] == defs;
      ReportCounts(m0, defs);
      if plugin.cfg.notifyClientsOnChange && |resp.registered| + |resp.updated| > 0 {
        NotifyToolsChanged(plugin);
      }
    }

    /**
     * Deletes each name from the registry; absent names are ignored and the
     * call never fails. The protocol server keeps advertising the removed tools.
     */
    method RemoveTools(names: seq<string>)
      modifies plugin`tools, plugin`toolsChangedSignals
      ensures plugin.tools == Removed(old(plugin.tools), names)
      ensures plugin.advertised == old(plugin.advertised)
      ensures plugin.toolsChangedSignals ==
                old(plugin.toolsChangedSignals) + if plugin.cfg.notifyClientsOnChange && names != [] then 1 else 0
    {
      for i := 0 to |names|
        invariant plugin.tools == old(plugin.tools) - NameSet(names[..i])
        invariant plugin.toolsChangedSignals == old(plugin.toolsChangedSignals)
      {
        plugin.tools := plugin.tools - {names[i]};
        assert names[..i + 1] == names[..i] + [names[i]];
      }
      assert names[..|names|] == names;
      if plugin.cfg.notifyClientsOnChange && |names| > 0 {
        NotifyToolsChanged(plugin);
      }
    }
  }

  // ---------------------------------------------------------------------------
  // Sessions touched by tool calls

  /** The session registry after a tool call for `id` marks activity at `now`. */
  function Touched(sessions: map<string, SessionInfo>, id: string, now: Time): (r: map<string, SessionInfo>)
    ensures id !in sessions ==> r == sessions
    ensures r.Keys == sessions.Keys
    ensures forall k :: k in sessions && k != id ==> r[k] == sessions[k]
    ensures id in sessions ==> r[id].lastActivity == now && r[id].(lastActivity := sessions[id].lastActivity) == sessions[id]
  {
    if id in sessions then sessions[id := sessions[id].(lastActivity := now)] else sessions
  }

  /** Marks a session active; does nothing for an untracked session. */
  method UpdateSessionActivity(p: Plugin, id: string, now: Time)
    modifies p`sessions
    ensures p.sessions == Touched(old(p.sessions), id, now)
  {
    if id in p.sessions {
      var info := p.sessions[id];
      p.sessions := p.sessions[id := info.(lastActivity := now)];
    }
  }

  /** Touching a session changes neither the headers of its later events nor their dispatch. */
  lemma TouchKeepsDispatch(deliverHeaders: bool, sessions: map<string, SessionInfo>, id: string, now: Time,
                           sessionId: string, eventName: string, payload: EventPayload, codec: Codec, pool: Pool)
    ensures WorkerHeaders(Touched(sessions, id, now), sessionId, eventName) == WorkerHeaders(sessions, sessionId, eventName)
    ensures DispatchOutcome(deliverHeaders, Touched(sessions, id, now), sessionId, eventName, payload, codec, pool)
         == DispatchOutcome(deliverHeaders, sessions, sessionId, eventName, payload, codec, pool)
  {
    assert SessionToken(Touched(sessions, id, now), sessionId) == SessionToken(sessions, sessionId);
  }

  // ---------------------------------------------------------------------------
  // The tool call handler

  /** The parameters of a call request; `meta` values are as `%v` renders them. */
  datatype CallToolParams = CallToolParams(meta: Option<map<string, string>>)

  datatype CallError =
    | ArgumentsMarshalFailed
    | ToolExecutionFailed(cause: SendError)
    | InvalidWorkerResponse

  const UnknownSession: string := "unknown"

  /** The request carries a session id in its metadata. */
  predicate CarriesSessionId(params: Option<CallToolParams>) {
    params.Some? && params.value.meta.Some? && "sessionId" in params.value.meta.value
  }

  /** The session a call is attributed to, `"unknown"` when the request names none. */
  function ResolveSessionId(params: Option<CallToolParams>): (sid: string)
    ensures CarriesSessionId(params) ==> sid == params.value.meta.value["sessionId"]
    ensures !CarriesSessionId(params) ==> sid == UnknownSession
  {
    match params
    case Some(CallToolParams(Some(meta))) => if "sessionId" in meta then meta["sessionId"] else UnknownSession
    case _ => UnknownSession
  }

  /** One worker content item in the protocol's representation: images stay images, all else is text. */
  function ToProtocolContent(c: McpContent): (r: Content)
    ensures r.ImageContent? <==> c.kind == "image"
    ensures r.ImageContent? ==> r.data == c.data && r.mimeType == c.mimeType
    ensures r.TextContent? ==> r.text == c.text
  {
    match c.kind
    case "text" => TextContent(c.text)
    case "image" => ImageContent(c.data, c.mimeType)
    case "resource" => TextContent(c.text)
    case _ => TextContent(c.text)
  }

  /** Fills the protocol content slice item by item. */
  method ConvertContent(items: seq<McpContent>) returns (out: seq<Content>)
    ensures |out| == |items|
    ensures forall i :: 0 <= i < |items| ==> out[i] == ToProtocolContent(items[i])
  {
    var converted := new Content[|items|];
    for i := 0 to |items|
      invariant forall j :: 0 <= j < i ==> converted[j] == ToProtocolContent(items[j])
    {
      converted[i] := ToProtocolContent(items[i]);
    }
    out := converted[..];
  }

  /**
   * The worker's decoded reply to a call, when arguments encode, dispatch
   * succeeds and the reply decodes; `deliverHeaders` selects the dispatch.
   */
  function ToolReply(deliverHeaders: bool, sessions: map<string, SessionInfo>, toolName: string, sessionId: string,
                     args: map<string, Json>, codec: Codec, pool: Pool): Option<CallToolResponse>
  {
    match codec.encodeArguments(args)
    case None => None
    case Some(argsJson) =>
      match DispatchOutcome(deliverHeaders, sessions, sessionId, EventCallTool,
                            CallTool(CallToolPayload(sessionId, toolName, argsJson)), codec, pool)
      case Failure(_) => None
      case Success(body) => codec.decodeToolReply(body)
  }

  /** The outcome of a tool call once the session id is resolved and the session touched. */
  function ToolCallOutcome(deliverHeaders: bool, sessions: map<string, SessionInfo>, toolName: string, sessionId: string,
                           args: map<string, Json>, codec: Codec, pool: Pool): (r: Result<CallToolResult, CallError>)
    ensures codec.encodeArguments(args).None? ==> r == Failure(ArgumentsMarshalFailed)
    ensures r.Success? <==> ToolReply(deliverHeaders, sessions, toolName, sessionId, args, codec, pool).Some?
    ensures r.Success? ==>
              var reply := ToolReply(deliverHeaders, sessions, toolName, sessionId, args, codec, pool).value;
              && |r.value.content| == |reply.content|
              && (forall i :: 0 <= i < |reply.content| ==> r.value.content[i] == ToProtocolContent(reply.content[i]))
              && r.value.isError == reply.isError
    ensures codec.encodeArguments(args).Some? ==>
              var reply := DispatchOutcome(deliverHeaders, sessions, sessionId, EventCallTool,
                                           CallTool(CallToolPayload(sessionId, toolName, codec.encodeArguments(args).value)),
                                           codec, pool);
              && (reply.Failure? ==> r == Failure(ToolExecutionFailed(reply.error)))
              && (reply.Success? && codec.decodeToolReply(reply.value).None? ==> r == Failure(InvalidWorkerResponse))
  {
    match codec.encodeArguments(args)
    case None => Failure(ArgumentsMarshalFailed)
    case Some(argsJson) =>
      match DispatchOutcome(deliverHeaders, sessions, sessionId, EventCallTool,
                            CallTool(CallToolPayload(sessionId, toolName, argsJson)), codec, pool)
      case Failure(e) => Failure(ToolExecutionFailed(e))
      case Success(body) =>
        match codec.decodeToolReply(body)
        case None => Failure(InvalidWorkerResponse)
        case Some(reply) =>
          Success(CallToolResult(seq(|reply.content|, i requires 0 <= i < |reply.content| => ToProtocolContent(reply.content[i])),
                                 reply.isError))
  }

  /**
   * The handler installed for `toolName`: resolves the session, touches it,
   * dispatches the call as written and translates the reply.
   */
  method CallToolHandler(p: Plugin, toolName: string, params: Option<CallToolParams>, args: map<string, Json>,
                         now: Time, codec: Codec, pool: Pool) returns (r: Result<CallToolResult, CallError>)
    modifies p`sessions
    ensures p.sessions == Touched(old(p.sessions), ResolveSessionId(params), now)
    ensures r == ToolCallOutcome(false, old(p.sessions), toolName, ResolveSessionId(params), args, codec, pool)
  {
    var sessionId := UnknownSession;
    if params.Some? && params.value.meta.Some? {
      if "sessionId" in params.value.meta.value {
        sessionId := params.value.meta.value["sessionId"];
      }
    }
    UpdateSessionActivity(p, sessionId, now);
    var argsJson := codec.encodeArguments(args);
    if argsJson.None? {
      return Failure(ArgumentsMarshalFailed);
    }
    var payload := CallToolPayload(sessionId, toolName, argsJson.value);
    var reply := SendEventAsWritten(p, sessionId, EventCallTool, CallTool(payload), codec, pool);
    TouchKeepsDispatch(false, old(p.sessions), sessionId, now, sessionId, EventCallTool, CallTool(payload), codec, pool);
    if reply.Failure? {
      return Failure(ToolExecutionFailed(reply.error));
    }
    var result := codec.decodeToolReply(reply.value);
    if result.None? {
      return Failure(InvalidWorkerResponse);
    }
    var content := ConvertContent(result.value.content);
    assert content == seq(|result.value.content|, i requires 0 <= i < |result.value.content| =>
                                                    ToProtocolContent(result.value.content[i]));
    r := Success(CallToolResult(content, result.value.isError));
  }

  /** A tool-level error from the worker is a successful call whose result is marked as an error. */
  lemma ToolErrorIsNotCallFailure(deliverHeaders: bool, sessions: map<string, SessionInfo>, toolName: string, sessionId: string,
                                  args: map<string, Json>, codec: Codec, pool: Pool)
    requires ToolReply(deliverHeaders, sessions, toolName, sessionId, args, codec, pool).Some?
    requires ToolReply(deliverHeaders, sessions, toolName, sessionId, args, codec, pool).value.isError
    ensures ToolCallOutcome(deliverHeaders, sessions, toolName, sessionId, args, codec, pool).Success?
    ensures ToolCallOutcome(deliverHeaders, sessions, toolName, sessionId, args, codec, pool).value.isError
  {
  }

  /**
   * A worker answering `{"content":[{"type":"text","text":"1"}],"isError":false}`
   * yields one text item "1" and no error.
   */
  lemma EchoScenario(deliverHeaders: bool, sessions: map<string, SessionInfo>, args: map<string, Json>, codec: Codec, pool: Pool, body: Bytes)
    requires codec.encodeArguments(args).Some?
    requires DispatchOutcome(deliverHeaders, sessions, "s1", EventCallTool,
                             CallTool(CallToolPayload("s1", "echo", codec.encodeArguments(args).value)), codec, pool)
             == Success(body)
    requires codec.decodeToolReply(body) == Some(CallToolResponse([McpContent("text", "1", "", "", "")], false))
    ensures ToolCallOutcome(deliverHeaders, sessions, "echo", "s1", args, codec, pool)
         == Success(CallToolResult([TextContent("1")], false))
  {
    var r := ToolCallOutcome(deliverHeaders, sessions, "echo", "s1", args, codec, pool);
    assert ToProtocolContent(McpContent("text", "1", "", "", "")) == TextContent("1");
    assert r.Success? && |r.value.content| == 1 && r.value.content[0] == TextContent("1");
    assert r.value.content == [TextContent("1")] && !r.value.isError;
  }
}
