/**
 * Client transports (transport.go): what each transport does when a client
 * connects (credentials, optional authentication, tracking the session) and
 * the session registry's insert and delete. Listening, HTTP responses and the
 * protocol connection itself are not modelled; a connection's end is the
 * `RemoveSession` each transport defers.
 */
module Transport {
  import opened Wrappers
  import opened Types
  import opened PluginState
  import opened Handler
  import Config

  const TransportSse: string := "sse"
  const TransportStdio: string := "stdio"
  const BearerPrefix: string := "Bearer "

  /** The parts of an incoming SSE request the bridge reads. */
  datatype SseRequest = SseRequest(authorization: string, remoteAddr: string, userAgent: string)

  /** How an SSE connection attempt ends. */
  datatype ConnectOutcome = Connected | Unauthorized

  /**
   * How a whole SSE connection ends: refused with 401, failed to connect
   * the protocol server with 500, or closed after serving.
   */
  datatype ConnectionEnd = Refused | ConnectFailed(message: string) | Closed

  /** Why the stdio transport returns an error. */
  datatype StdioError = StdioAuthFailed(cause: AuthError) | StdioConnectFailed(message: string)

  /** `s` without one leading `prefix`; unchanged when `s` does not start with it. */
  function TrimPrefix(s: string, prefix: string): (r: string)
    ensures prefix <= s ==> prefix + r == s
    ensures !(prefix <= s) ==> r == s
  {
    if prefix <= s then s[|prefix|..] else s
  }

  /** `credentials` are those an SSE request yields. */
  predicate CredentialsOf(req: SseRequest, credentials: map<string, string>) {
    && ("token" in credentials <==> req.authorization != "")
    && ("token" in credentials ==> credentials["token"] == TrimPrefix(req.authorization, BearerPrefix))
    && "ip" in credentials && credentials["ip"] == req.remoteAddr
    && "user_agent" in credentials && credentials["user_agent"] == req.userAgent
    && credentials.Keys <= {"token", "ip", "user_agent"}
  }

  /** Builds the credentials of an SSE request by successive insertions. */
  method ExtractCredentials(req: SseRequest) returns (credentials: map<string, string>)
    ensures CredentialsOf(req, credentials)
  {
    credentials := map[];
    if req.authorization != "" {
      var token := TrimPrefix(req.authorization, BearerPrefix);
      credentials := credentials["token" := token];
    }
    credentials := credentials["ip" := req.remoteAddr];
    credentials := credentials["user_agent" := req.userAgent];
  }

  /** The credentials as session metadata, entry for entry. */
  function AsMetadata(credentials: map<string, string>): (meta: map<string, Json>)
    ensures meta.Keys == credentials.Keys
    ensures forall k :: k in credentials ==> meta[k] == Str(credentials[k])
  {
    map k | k in credentials :: Str(credentials[k])
  }

  /** Copies the credentials into a fresh metadata map, one key at a time. */
  method CopyToMetadata(credentials: map<string, string>) returns (meta: map<string, Json>)
    ensures meta == AsMetadata(credentials)
  {
    meta := map[];
    var pending := credentials.Keys;
    while pending != {}
      invariant pending <= credentials.Keys
      invariant meta.Keys == credentials.Keys - pending
      invariant forall k :: k in meta ==> meta[k] == Str(credentials[k])
      decreases pending
    {
      var k :| k in pending;
      meta := meta[k := Str(credentials[k])];
      pending := pending - {k};
    }
  }

  /** Tracks a session, replacing any earlier one under the same id. */
  method TrackSession(p: Plugin, id: string, token: string, transport: string,
                      metadata: Option<map<string, Json>>, now: Time)
    modifies p`sessions
    ensures p.sessions == old(p.sessions)[id := SessionInfo(id, token, now, now, transport, metadata)]
  {
    var info := SessionInfo(id, token, now, now, transport, metadata);
    p.sessions := p.sessions[id := info];
  }

  /** Forgets a session; forgetting an untracked id changes nothing. */
  method RemoveSession(p: Plugin, id: string)
    modifies p`sessions
    ensures p.sessions == old(p.sessions) - {id}
    ensures id !in old(p.sessions) ==> p.sessions == old(p.sessions)
  {
    p.sessions := p.sessions - {id};
  }

  /** The session an SSE connection is tracked with once admitted. */
  function SseSession(id: string, token: string, credentials: map<string, string>, now: Time): SessionInfo {
    SessionInfo(id, token, now, now, TransportSse, Some(AsMetadata(credentials)))
  }

  /**
   * A new SSE connection: credentials from the request, authentication when
   * enabled (refusal leaves the registry untouched), then tracking.
   */
  method ServeSseConnect(p: Plugin, req: SseRequest, sessionId: string, now: Time, codec: Codec, pool: Pool)
    returns (outcome: ConnectOutcome, ghost credentials: map<string, string>)
    modifies p`sessions
    ensures CredentialsOf(req, credentials)
    ensures !p.cfg.authEnabled ==>
              outcome == Connected && p.sessions == old(p.sessions)[sessionId := SseSession(sessionId, "", credentials, now)]
    ensures p.cfg.authEnabled ==>
              var auth := AuthOutcome(false, true, old(p.sessions), sessionId, credentials, codec, pool);
              && (auth.Failure? ==> outcome == Unauthorized && p.sessions == old(p.sessions))
              && (auth.Success? ==>
                    outcome == Connected
                    && p.sessions == old(p.sessions)[sessionId := SseSession(sessionId, auth.value, credentials, now)])
  {
    var creds := ExtractCredentials(req);
    credentials := creds;
    var sessionToken := "";
    if p.cfg.authEnabled {
      var auth := AuthenticateSession(p, sessionId, creds, codec, pool);
      if auth.Failure? {
        return Unauthorized, credentials;
      }
      sessionToken := auth.value;
    }
    var meta := CopyToMetadata(creds);
    TrackSession(p, sessionId, sessionToken, TransportSse, Some(meta), now);
    outcome := Connected;
  }

  /** Stdio authenticates only when auth is on and stdio is not exempt. */
  predicate StdioAuthenticates(enabled: bool, skipForStdio: bool) {
    enabled && !skipForStdio
  }

  /**
   * Defaulting forces the stdio exemption on, so a configured plugin never
   * authenticates its stdio connection, whatever its auth flag.
   */
  lemma StdioNeverAuthenticatesAfterDefaults(c: Config.Settings)
    ensures !StdioAuthenticates(Config.WithDefaults(c).authEnabled, Config.WithDefaults(c).skipForStdio)
  {
  }

  /**
   * The stdio connection: authentication with empty credentials unless
   * exempt (refusal is an error and nothing is tracked), then tracking with
   * no metadata.
   */
  method ServeStdioConnect(p: Plugin, sessionId: string, now: Time, codec: Codec, pool: Pool)
    returns (err: Outcome<AuthError>)
    modifies p`sessions
    ensures !StdioAuthenticates(p.cfg.authEnabled, p.cfg.skipForStdio) ==>
              err == Pass && p.sessions == old(p.sessions)[sessionId := SessionInfo(sessionId, "", now, now, TransportStdio, None)]
    ensures StdioAuthenticates(p.cfg.authEnabled, p.cfg.skipForStdio) ==>
              var auth := AuthOutcome(false, true, old(p.sessions), sessionId, map[], codec, pool);
              && (auth.Failure? ==> err == Fail(auth.error) && p.sessions == old(p.sessions))
              && (auth.Success? ==>
                    err == Pass
                    && p.sessions == old(p.sessions)[sessionId := SessionInfo(sessionId, auth.value, now, now, TransportStdio, None)])
  {
    var sessionToken := "";
    if p.cfg.authEnabled && !p.cfg.skipForStdio {
      var auth := AuthenticateSession(p, sessionId, map[], codec, pool);
      if auth.Failure? {
        return Fail(auth.error);
      }
      sessionToken := auth.value;
    }
    TrackSession(p, sessionId, sessionToken, TransportStdio, None, now);
    err := Pass;
  }

  /**
   * A whole SSE connection: the connect step, then, once the session is
   * tracked, the protocol server's `Connect` (whose error, if any, is
   * `connectError`) and the deferred removal of the session, which runs
   * whether or not `Connect` fails.
   */
  method ServeSseConnection(p: Plugin, req: SseRequest, sessionId: string, now: Time, codec: Codec, pool: Pool,
                            connectError: Option<string>)
    returns (end: ConnectionEnd, ghost credentials: map<string, string>)
    modifies p`sessions
    ensures CredentialsOf(req, credentials)
    ensures end == Refused <==>
              p.cfg.authEnabled && AuthOutcome(false, true, old(p.sessions), sessionId, credentials, codec, pool).Failure?
    ensures end == Refused ==> p.sessions == old(p.sessions)
    ensures end != Refused ==>
              && end == (if connectError.Some? then ConnectFailed(connectError.value) else Closed)
              && p.sessions == old(p.sessions) - {sessionId}
    ensures end != Refused ==> sessionId !in p.sessions
    ensures sessionId !in old(p.sessions) ==> p.sessions == old(p.sessions)
  {
    var outcome;
    outcome, credentials := ServeSseConnect(p, req, sessionId, now, codec, pool);
    if outcome == Unauthorized {
      return Refused, credentials;
    }
    ghost var tracked := p.sessions;
    if connectError.Some? {
      end := ConnectFailed(connectError.value);
    } else {
      end := Closed;
    }
    RemoveSession(p, sessionId);
    if sessionId !in old(p.sessions) {
      ConnectThenDisconnect(old(p.sessions), sessionId, tracked[sessionId]);
    }
  }

  /**
   * The whole stdio connection: the connect step, then the protocol
   * server's `Connect` (whose error, if any, is `connectError`) and the
   * deferred removal of the session, which runs whether or not `Connect` fails.
   */
  method ServeStdioConnection(p: Plugin, sessionId: string, now: Time, codec: Codec, pool: Pool,
                              connectError: Option<string>)
    returns (err: Outcome<StdioError>)
    modifies p`sessions
    ensures (err.Fail? && err.error.StdioAuthFailed?) <==>
              StdioAuthenticates(p.cfg.authEnabled, p.cfg.skipForStdio)
              && AuthOutcome(false, true, old(p.sessions), sessionId, map[], codec, pool).Failure?
    ensures err.Fail? && err.error.StdioAuthFailed? ==>
              && err.error.cause == AuthOutcome(false, true, old(p.sessions), sessionId, map[], codec, pool).error
              && p.sessions == old(p.sessions)
    ensures !(err.Fail? && err.error.StdioAuthFailed?) ==>
              && err == (if connectError.Some? then Fail(StdioConnectFailed(connectError.value)) else Pass)
              && p.sessions == old(p.sessions) - {sessionId}
    ensures !(err.Fail? && err.error.StdioAuthFailed?) ==> sessionId !in p.sessions
    ensures sessionId !in old(p.sessions) ==> p.sessions == old(p.sessions)
  {
    var connect := ServeStdioConnect(p, sessionId, now, codec, pool);
    if connect.Fail? {
      return Fail(StdioAuthFailed(connect.error));
    }
    ghost var tracked := p.sessions;
    if connectError.Some? {
      err := Fail(StdioConnectFailed(connectError.value));
    } else {
      err := Pass;
    }
    RemoveSession(p, sessionId);
    if sessionId !in old(p.sessions) {
      ConnectThenDisconnect(old(p.sessions), sessionId, tracked[sessionId]);
    }
  }

  /** Tracking a fresh id and removing it when the connection ends restores the registry. */
  lemma ConnectThenDisconnect(sessions: map<string, SessionInfo>, id: string, info: SessionInfo)
    requires id !in sessions
    ensures sessions[id := info] - {id} == sessions
  {
    assert (sessions[id := info] - {id}).Keys == sessions.Keys;
  }
}
