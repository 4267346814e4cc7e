/**
 * Plugin configuration (config.go): defaulting of zero-valued fields and the
 * range checks that follow it. Durations are nanoseconds.
 */
module Config {
  import opened Wrappers

  const Second: int := 1_000_000_000

  const DefaultTransport: string := "sse"
  const DefaultAddress: string := "127.0.0.1:9333"
  const DefaultMaxConnections: int := 100
  const DefaultReadTimeout: int := 60 * Second
  const DefaultWriteTimeout: int := 10 * Second
  const DefaultPingInterval: int := 30 * Second

  /** The value of a configuration: every field the bridge reads. */
  datatype Settings = Settings(
    transport: string,
    address: string,
    maxConnections: int,
    readTimeout: int,
    writeTimeout: int,
    pingInterval: int,
    notifyClientsOnChange: bool,
    authEnabled: bool,
    skipForStdio: bool,
    debug: bool)

  /** The configuration of an empty YAML section: Go's zero values. */
  const Zero: Settings := Settings("", "", 0, 0, 0, 0, false, false, false, false)

  datatype ConfigError =
    | BadTransport
    | MissingAddress
    | TooFewConnections
    | ReadTimeoutTooShort
    | WriteTimeoutTooShort
    | PingIntervalTooShort

  /** The transport and address checks pass. */
  predicate AddressChecked(c: Settings) {
    (c.transport == "sse" || c.transport == "stdio") && (c.transport == "sse" ==> c.address != "")
  }

  /** Every range check passes. */
  predicate Acceptable(c: Settings) {
    && AddressChecked(c)
    && c.maxConnections >= 1
    && c.readTimeout >= Second
    && c.writeTimeout >= Second
    && c.pingInterval >= Second
  }

  /** The checks in order; the first one that fails is reported. */
  function Validate(c: Settings): (r: Outcome<ConfigError>)
    ensures r.Pass? <==> Acceptable(c)
    ensures r == Fail(BadTransport) <==> c.transport != "sse" && c.transport != "stdio"
    ensures r == Fail(MissingAddress) <==> c.transport == "sse" && c.address == ""
    ensures r == Fail(TooFewConnections) <==> AddressChecked(c) && c.maxConnections < 1
    ensures r == Fail(ReadTimeoutTooShort) <==>
              AddressChecked(c) && c.maxConnections >= 1 && c.readTimeout < Second
    ensures r == Fail(WriteTimeoutTooShort) <==>
              AddressChecked(c) && c.maxConnections >= 1 && c.readTimeout >= Second && c.writeTimeout < Second
    ensures r == Fail(PingIntervalTooShort) <==>
              AddressChecked(c) && c.maxConnections >= 1 && c.readTimeout >= Second && c.writeTimeout >= Second
              && c.pingInterval < Second
  {
    if c.transport != "sse" && c.transport != "stdio" then Fail(BadTransport)
    else if c.transport == "sse" && c.address == "" then Fail(MissingAddress)
    else if c.maxConnections < 1 then Fail(TooFewConnections)
    else if c.readTimeout < Second then Fail(ReadTimeoutTooShort)
    else if c.writeTimeout < Second then Fail(WriteTimeoutTooShort)
    else if c.pingInterval < Second then Fail(PingIntervalTooShort)
    else Pass
  }

  /** A configuration, updated in place by `InitDefaults`. */
  class Config {
    var transport: string
    var address: string
    var maxConnections: int
    var readTimeout: int
    var writeTimeout: int
    var pingInterval: int
    var notifyClientsOnChange: bool
    var authEnabled: bool
    var skipForStdio: bool
    var debug: bool

    /** A configuration as read from the plugin's section. */
    constructor (s: Settings)
      ensures Value() == s
    {
      transport, address := s.transport, s.address;
      maxConnections := s.maxConnections;
      readTimeout, writeTimeout, pingInterval := s.readTimeout, s.writeTimeout, s.pingInterval;
      notifyClientsOnChange, authEnabled := s.notifyClientsOnChange, s.authEnabled;
      skipForStdio, debug := s.skipForStdio, s.debug;
    }

    function Value(): Settings
      reads this
    {
      Settings(transport, address, maxConnections, readTimeout, writeTimeout, pingInterval,
               notifyClientsOnChange, authEnabled, skipForStdio, debug)
    }

    /** Fills zero-valued fields, forces two flags on, then validates. */
    method InitDefaults() returns (err: Outcome<ConfigError>)
      modifies this
      ensures Value() == WithDefaults(old(Value()))
      ensures err == Validate(Value())
    {
      if transport == "" {
        transport := DefaultTransport;
      }
      if address == "" {
        address := DefaultAddress;
      }
      if maxConnections == 0 {
        maxConnections := DefaultMaxConnections;
      }
      if readTimeout == 0 {
        readTimeout := DefaultReadTimeout;
      }
      if writeTimeout == 0 {
        writeTimeout := DefaultWriteTimeout;
      }
      if pingInterval == 0 {
        pingInterval := DefaultPingInterval;
      }
      notifyClientsOnChange := true;
      skipForStdio := true;
      err := Validate(Value());
    }
  }

  /** The configuration `InitDefaults` produces from `c`. */
  function WithDefaults(c: Settings): (d: Settings)
    ensures c.transport != "" ==> d.transport == c.transport
    ensures c.address != "" ==> d.address == c.address
    ensures c.maxConnections != 0 ==> d.maxConnections == c.maxConnections
    ensures c.readTimeout != 0 ==> d.readTimeout == c.readTimeout
    ensures c.writeTimeout != 0 ==> d.writeTimeout == c.writeTimeout
    ensures c.pingInterval != 0 ==> d.pingInterval == c.pingInterval
    ensures c.transport == "" ==> d.transport == DefaultTransport
    ensures c.address == "" ==> d.address == DefaultAddress
    ensures c.maxConnections == 0 ==> d.maxConnections == DefaultMaxConnections
    ensures c.readTimeout == 0 ==> d.readTimeout == DefaultReadTimeout
    ensures c.writeTimeout == 0 ==> d.writeTimeout == DefaultWriteTimeout
    ensures c.pingInterval == 0 ==> d.pingInterval == DefaultPingInterval
    ensures d.notifyClientsOnChange && d.skipForStdio
    ensures d.authEnabled == c.authEnabled && d.debug == c.debug
  {
    c.(transport := if c.transport == "" then DefaultTransport else c.transport,
       address := if c.address == "" then DefaultAddress else c.address,
       maxConnections := if c.maxConnections == 0 then DefaultMaxConnections else c.maxConnections,
       readTimeout := if c.readTimeout == 0 then DefaultReadTimeout else c.readTimeout,
       writeTimeout := if c.writeTimeout == 0 then DefaultWriteTimeout else c.writeTimeout,
       pingInterval := if c.pingInterval == 0 then DefaultPingInterval else c.pingInterval,
       notifyClientsOnChange := true,
       skipForStdio := true)
  }

  /** Defaulting twice changes nothing more. */
  lemma DefaultsIdempotent(c: Settings)
    ensures WithDefaults(WithDefaults(c)) == WithDefaults(c)
  {
  }

  /** The defaults themselves pass every check: an empty section is accepted. */
  lemma ZeroConfigAccepted()
    ensures WithDefaults(Zero) == Settings(DefaultTransport, DefaultAddress, DefaultMaxConnections,
                                          DefaultReadTimeout, DefaultWriteTimeout, DefaultPingInterval,
                                          true, false, true, false)
    ensures Validate(WithDefaults(Zero)).Pass?
  {
  }

  /** After defaulting, the SSE address check can never be the one that fails. */
  lemma MissingAddressUnreachable(c: Settings)
    ensures Validate(WithDefaults(c)) != Fail(MissingAddress)
  {
  }

  /** Only zero is replaced: a negative connection limit survives defaulting and is refused. */
  lemma NegativeMaxConnectionsRejected(c: Settings)
    requires c.maxConnections < 0
    requires c.transport == "" || c.transport == "sse" || c.transport == "stdio"
    ensures WithDefaults(c).maxConnections == c.maxConnections
    ensures Validate(WithDefaults(c)) == Fail(TooFewConnections)
  {
  }

  /** A transport other than the two known ones is refused whatever else is set. */
  lemma UnknownTransportRejected(c: Settings)
    requires c.transport != "" && c.transport != "sse" && c.transport != "stdio"
    ensures Validate(WithDefaults(c)) == Fail(BadTransport)
  {
  }
}
