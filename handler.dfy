/**
 * Event dispatch to a worker (handler.go): the worker-bound header set, the
 * first-response rule of the pool's stream and the authentication decision.
 */
module Handler {
  import opened Wrappers
  import opened Types
  import opened PluginState

  datatype SendError =
    | MarshalFailed
    | ExecFailed(message: string)
    | WorkerFailed(message: string)
    | NoResponse

  datatype AuthError =
    | AuthDispatchFailed(cause: SendError)
    | AuthInvalidReply
    | AuthDenied(message: string)

  /** The names of the worker-bound headers. */
  const EventHeader: string := "X-MCP-Event"
  const SessionHeader: string := "X-Session-ID"
  const ContentTypeHeader: string := "Content-Type"
  const MethodHeader: string := "X-MCP-Method"
  const TokenHeader: string := "X-Client-Token"

  /** The session's token, when the session is tracked and its token is non-empty. */
  function SessionToken(sessions: map<string, SessionInfo>, sessionId: string): (t: Option<string>)
    ensures t.Some? <==> sessionId in sessions && sessions[sessionId].token != ""
    ensures t.Some? ==> t.value == sessions[sessionId].token
  {
    if sessionId in sessions && sessions[sessionId].token != "" then Some(sessions[sessionId].token) else None
  }

  /** The headers that go with an event to a worker. */
  function WorkerHeaders(sessions: map<string, SessionInfo>, sessionId: string, eventName: string): (h: Headers)
    ensures EventHeader in h && h[EventHeader] == [eventName]
    ensures SessionHeader in h && h[SessionHeader] == [sessionId]
    ensures ContentTypeHeader in h && h[ContentTypeHeader] == ["application/json"]
    ensures MethodHeader in h && h[MethodHeader] == ["POST"]
    ensures TokenHeader in h <==> SessionToken(sessions, sessionId).Some?
    ensures TokenHeader in h ==> h[TokenHeader] == [sessions[sessionId].token]
    ensures h.Keys <= {EventHeader, SessionHeader, ContentTypeHeader, MethodHeader, TokenHeader}
  {
    var base := map[EventHeader := [eventName], SessionHeader := [sessionId],
                     ContentTypeHeader := ["application/json"], MethodHeader := ["POST"]];
    match SessionToken(sessions, sessionId)
    case Some(token) => base[TokenHeader := [token]]
    case None => base
  }

  /** The reply taken from the pool: its error, else the first response of the stream. */
  function FirstReply(out: ExecOutcome): (r: Result<Bytes, SendError>)
    ensures out.ExecError? ==> r == Failure(ExecFailed(out.message))
    ensures out.Stream? && out.responses == [] ==> r == Failure(NoResponse)
    ensures r.Success? <==> out.Stream? && out.responses != [] && out.responses[0].error.None?
    ensures r.Success? ==> r.value == out.responses[0].body
    ensures out.Stream? && out.responses != [] && out.responses[0].error.Some? ==>
              r == Failure(WorkerFailed(out.responses[0].error.value))
    ensures r.Failure? && r.error.WorkerFailed? ==>
              out.Stream? && out.responses != [] && out.responses[0].error == Some(r.error.message)
  {
    match out
    case ExecError(message) => Failure(ExecFailed(message))
    case Stream(responses) =>
      if responses == [] then Failure(NoResponse)
      else if responses[0].error.Some? then Failure(WorkerFailed(responses[0].error.value))
      else Success(responses[0].body)
  }

  /** Reads the pool's response stream and returns on its first item. */
  method TakeFirst(out: ExecOutcome) returns (r: Result<Bytes, SendError>)
    ensures r == FirstReply(out)
  {
    if out.ExecError? {
      return Failure(ExecFailed(out.message));
    }
    var responses := out.responses;
    for i := 0 to |responses|
      invariant i == 0
    {
      var response := responses[i];
      if response.error.Some? {
        return Failure(WorkerFailed(response.error.value));
      }
      return Success(response.body);
    }
    return Failure(NoResponse);
  }

  /** What the worker receives as written: the payload JSON as both Context and Body. */
  function PoolInputAsWritten(json: Bytes): WorkerPayload {
    WorkerPayload(json, json)
  }

  /** What the worker receives once the header set is delivered in the Context. */
  function PoolInput(codec: Codec, headers: Headers, json: Bytes): WorkerPayload {
    WorkerPayload(codec.encodeHeaders(headers), json)
  }

  /** The outcome of `sendEvent` as written: the header set never leaves the function. */
  function SendEventOutcomeAsWritten(sessions: map<string, SessionInfo>, sessionId: string, eventName: string,
                                     payload: EventPayload, codec: Codec, pool: Pool): (r: Result<Bytes, SendError>)
    ensures codec.encodeEvent(payload).None? ==> r == Failure(MarshalFailed)
    ensures r.Success? ==>
              && codec.encodeEvent(payload).Some?
              && var out := pool(PoolInputAsWritten(codec.encodeEvent(payload).value));
                 out.Stream? && out.responses != [] && out.responses[0].error.None? && r.value == out.responses[0].body
    ensures codec.encodeEvent(payload).Some? ==>
              var out := pool(PoolInputAsWritten(codec.encodeEvent(payload).value));
              && (out.ExecError? ==> r == Failure(ExecFailed(out.message)))
              && (out.Stream? && out.responses == [] ==> r == Failure(NoResponse))
              && (out.Stream? && out.responses != [] && out.responses[0].error.Some? ==>
                    r == Failure(WorkerFailed(out.responses[0].error.value)))
              && (out.Stream? && out.responses != [] && out.responses[0].error.None? ==>
                    r == Success(out.responses[0].body))
  {
    match codec.encodeEvent(payload)
    case None => Failure(MarshalFailed)
    case Some(json) => FirstReply(pool(PoolInputAsWritten(json)))
  }

  /** The outcome of `sendEvent` with the header set delivered to the worker. */
  function SendEventOutcome(sessions: map<string, SessionInfo>, sessionId: string, eventName: string,
                            payload: EventPayload, codec: Codec, pool: Pool): (r: Result<Bytes, SendError>)
    ensures codec.encodeEvent(payload).None? ==> r == Failure(MarshalFailed)
    ensures r.Success? ==>
              && codec.encodeEvent(payload).Some?
              && var out := pool(PoolInput(codec, WorkerHeaders(sessions, sessionId, eventName),
                                           codec.encodeEvent(payload).value));
                 out.Stream? && out.responses != [] && out.responses[0].error.None? && r.value == out.responses[0].body
    ensures codec.encodeEvent(payload).Some? ==>
              var out := pool(PoolInput(codec, WorkerHeaders(sessions, sessionId, eventName),
                                        codec.encodeEvent(payload).value));
              && (out.ExecError? ==> r == Failure(ExecFailed(out.message)))
              && (out.Stream? && out.responses == [] ==> r == Failure(NoResponse))
              && (out.Stream? && out.responses != [] && out.responses[0].error.Some? ==>
                    r == Failure(WorkerFailed(out.responses[0].error.value)))
              && (out.Stream? && out.responses != [] && out.responses[0].error.None? ==>
                    r == Success(out.responses[0].body))
  {
    match codec.encodeEvent(payload)
    case None => Failure(MarshalFailed)
    case Some(json) => FirstReply(pool(PoolInput(codec, WorkerHeaders(sessions, sessionId, eventName), json)))
  }

  /**
   * The outcome of dispatching an event: as written when `deliverHeaders` is
   * false, with the header set delivered when it is true.
   */
  function DispatchOutcome(deliverHeaders: bool, sessions: map<string, SessionInfo>, sessionId: string, eventName: string,
                           payload: EventPayload, codec: Codec, pool: Pool): (r: Result<Bytes, SendError>)
    ensures codec.encodeEvent(payload).None? ==> r == Failure(MarshalFailed)
    ensures !deliverHeaders ==> r == SendEventOutcomeAsWritten(sessions, sessionId, eventName, payload, codec, pool)
    ensures deliverHeaders ==> r == SendEventOutcome(sessions, sessionId, eventName, payload, codec, pool)
  {
    if deliverHeaders then SendEventOutcome(sessions, sessionId, eventName, payload, codec, pool)
    else SendEventOutcomeAsWritten(sessions, sessionId, eventName, payload, codec, pool)
  }

  /**
   * `sendEvent` as written: the headers, token included, are built and then
   * dropped; the pool sees the payload JSON twice.
   */
  method SendEventAsWritten(p: Plugin, sessionId: string, eventName: string, payload: EventPayload,
                            codec: Codec, pool: Pool) returns (r: Result<Bytes, SendError>)
    ensures r == SendEventOutcomeAsWritten(p.sessions, sessionId, eventName, payload, codec, pool)
  {
    var encoded := codec.encodeEvent(payload);
    if encoded.None? {
      return Failure(MarshalFailed);
    }
    var json := encoded.value;
    var headers: Headers := map[EventHeader := [eventName], SessionHeader := [sessionId],
                                ContentTypeHeader := ["application/json"], MethodHeader := ["POST"]];
    if sessionId in p.sessions && p.sessions[sessionId].token != "" {
      headers := headers[TokenHeader := [p.sessions[sessionId].token]];
    }
    assert headers == WorkerHeaders(p.sessions, sessionId, eventName);
    var workerPayload := WorkerPayload(json, json);
    r := TakeFirst(pool(workerPayload));
  }

  /** `sendEvent` with the header set carried to the worker in the payload's Context. */
  method SendEvent(p: Plugin, sessionId: string, eventName: string, payload: EventPayload,
                   codec: Codec, pool: Pool) returns (r: Result<Bytes, SendError>)
    ensures r == SendEventOutcome(p.sessions, sessionId, eventName, payload, codec, pool)
  {
    var encoded := codec.encodeEvent(payload);
    if encoded.None? {
      return Failure(MarshalFailed);
    }
    var json := encoded.value;
    var headers: Headers := map[EventHeader := [eventName], SessionHeader := [sessionId],
                                ContentTypeHeader := ["application/json"], MethodHeader := ["POST"]];
    if sessionId in p.sessions && p.sessions[sessionId].token != "" {
      headers := headers[TokenHeader := [p.sessions[sessionId].token]];
    }
    assert headers == WorkerHeaders(p.sessions, sessionId, eventName);
    var workerPayload := WorkerPayload(codec.encodeHeaders(headers), json);
    r := TakeFirst(pool(workerPayload));
  }

  /**
   * As written, the worker cannot tell a session holding a token from an
   * untracked one: the token header is computed and never delivered.
   */
  lemma TokenNeverReachesWorkerAsWritten(sessions: map<string, SessionInfo>, sessionId: string, eventName: string,
                                         payload: EventPayload, codec: Codec, pool: Pool)
    requires sessionId in sessions && sessions[sessionId].token != ""
    ensures WorkerHeaders(sessions, sessionId, eventName)[TokenHeader] == [sessions[sessionId].token]
    ensures SendEventOutcomeAsWritten(sessions, sessionId, eventName, payload, codec, pool)
         == SendEventOutcomeAsWritten(map[], sessionId, eventName, payload, codec, pool)
  {
  }

  /** A concrete pool that admits only requests carrying a token is refused as written. */
  lemma TokenCheckingWorkerRejectsAsWritten(codec: Codec)
    requires codec.encodeEvent(CallTool(CallToolPayload("s1", "echo", []))) == Some([1])
    requires forall h: Headers :: codec.encodeHeaders(h) == if TokenHeader in h then [2] else [3]
    ensures var sessions := map["s1" := SessionInfo("s1", "secret", 0, 0, "sse", None)];
            var pool: Pool := (w: WorkerPayload) => if w.context == [2] then Stream([WorkerResponse(None, [7])])
                                                    else ExecError("unauthorized");
            && SendEventOutcomeAsWritten(sessions, "s1", EventCallTool, CallTool(CallToolPayload("s1", "echo", [])), codec, pool)
               == Failure(ExecFailed("unauthorized"))
            && SendEventOutcome(sessions, "s1", EventCallTool, CallTool(CallToolPayload("s1", "echo", [])), codec, pool)
               == Success([7])
  {
    var sessions := map["s1" := SessionInfo("s1", "secret", 0, 0, "sse", None)];
    assert TokenHeader in WorkerHeaders(sessions, "s1", EventCallTool);
  }

  /**
   * With the headers delivered, sessions whose tokens differ give the worker
   * different requests, provided the header encoding tells header sets apart.
   */
  lemma TokenReachesWorker(s1: map<string, SessionInfo>, s2: map<string, SessionInfo>, sessionId: string,
                           eventName: string, json: Bytes, codec: Codec)
    requires forall h1: Headers, h2: Headers :: codec.encodeHeaders(h1) == codec.encodeHeaders(h2) ==> h1 == h2
    requires SessionToken(s1, sessionId) != SessionToken(s2, sessionId)
    ensures PoolInput(codec, WorkerHeaders(s1, sessionId, eventName), json)
         != PoolInput(codec, WorkerHeaders(s2, sessionId, eventName), json)
  {
    var h1 := WorkerHeaders(s1, sessionId, eventName);
    var h2 := WorkerHeaders(s2, sessionId, eventName);
    if SessionToken(s1, sessionId).Some? {
      assert TokenHeader in h1;
      assert h1 != h2 by {
        if TokenHeader in h2 {
          assert h1[TokenHeader] != h2[TokenHeader];
        }
      }
    } else {
      assert TokenHeader in h2 && TokenHeader !in h1;
    }
  }

  /** The authentication decision on a dispatched `ClientConnected` event. */
  function AuthDecision(reply: Result<Bytes, SendError>, decode: Bytes -> Option<ClientConnectedResponse>): (r: Result<string, AuthError>)
    ensures reply.Failure? ==> r == Failure(AuthDispatchFailed(reply.error))
    ensures reply.Success? && decode(reply.value).None? ==> r == Failure(AuthInvalidReply)
    ensures r.Success? <==> reply.Success? && decode(reply.value).Some? && decode(reply.value).value.allowed
    ensures r.Success? ==> r.value == decode(reply.value).value.token
    ensures reply.Success? && decode(reply.value).Some? && !decode(reply.value).value.allowed ==>
              r == Failure(AuthDenied(decode(reply.value).value.message))
    ensures r.Failure? && r.error.AuthDenied? ==>
              && reply.Success? && decode(reply.value).Some? && !decode(reply.value).value.allowed
              && r.error.message == decode(reply.value).value.message
  {
    match reply
    case Failure(e) => Failure(AuthDispatchFailed(e))
    case Success(body) =>
      match decode(body)
      case None => Failure(AuthInvalidReply)
      case Some(answer) =>
        if !answer.allowed then Failure(AuthDenied(answer.message)) else Success(answer.token)
  }

  /**
   * The outcome of `authenticateSession`: an empty token without dispatch
   * when auth is off, otherwise the decision on a `ClientConnected` dispatch.
   */
  function AuthOutcome(deliverHeaders: bool, enabled: bool, sessions: map<string, SessionInfo>, sessionId: string,
                       credentials: map<string, string>, codec: Codec, pool: Pool): (r: Result<string, AuthError>)
    ensures !enabled ==> r == Success("")
    ensures enabled ==> r == AuthDecision(DispatchOutcome(deliverHeaders, sessions, sessionId, EventClientConnected,
                                            ClientConnected(ClientConnectedPayload(sessionId, credentials)), codec, pool),
                                          codec.decodeAuthReply)
  {
    if !enabled then Success("")
    else AuthDecision(DispatchOutcome(deliverHeaders, sessions, sessionId, EventClientConnected,
                                      ClientConnected(ClientConnectedPayload(sessionId, credentials)), codec, pool),
                      codec.decodeAuthReply)
  }

  /** With auth off every connection is admitted with an empty token, whatever its credentials. */
  lemma AuthDisabledAdmitsAll(deliverHeaders: bool, sessions: map<string, SessionInfo>, sessionId: string,
                              c1: map<string, string>, c2: map<string, string>, codec: Codec, pool: Pool)
    ensures AuthOutcome(deliverHeaders, false, sessions, sessionId, c1, codec, pool) == Success("")
    ensures AuthOutcome(deliverHeaders, false, sessions, sessionId, c1, codec, pool)
         == AuthOutcome(deliverHeaders, false, sessions, sessionId, c2, codec, pool)
  {
  }

  /** Authenticates a new session through a worker, dispatching as written. */
  method AuthenticateSession(p: Plugin, sessionId: string, credentials: map<string, string>,
                             codec: Codec, pool: Pool) returns (r: Result<string, AuthError>)
    ensures r == AuthOutcome(false, p.cfg.authEnabled, p.sessions, sessionId, credentials, codec, pool)
  {
    if !p.cfg.authEnabled {
      return Success("");
    }
    var payload := ClientConnectedPayload(sessionId, credentials);
    var reply := SendEventAsWritten(p, sessionId, EventClientConnected, ClientConnected(payload), codec, pool);
    if reply.Failure? {
      return Failure(AuthDispatchFailed(reply.error));
    }
    var answer := codec.decodeAuthReply(reply.value);
    if answer.None? {
      return Failure(AuthInvalidReply);
    }
    if !answer.value.allowed {
      return Failure(AuthDenied(answer.value.message));
    }
    return Success(answer.value.token);
  }
}
