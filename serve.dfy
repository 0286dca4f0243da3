/** The serve package (serve/serve.go): hardening defaults for an http.Server, and a
    coordinator that runs the server until it fails or a stop signal arrives, and then
    shuts it down in two phases (a deregistration delay, then a bounded drain). */
module Serve {
  import opened Wrappers
  import opened Lifecycle

  // tls.VersionTLS12, tls.CurveP256, tls.X25519 and the six cipher suite identifiers,
  // by their registered values; they are only ever compared for equality.
  const VersionTls12: int := 0x0303
  const CurveP256: int := 23
  const X25519: int := 29

  const DefaultCurvePreferences: seq<int> := [CurveP256, X25519]
  const DefaultCipherSuites: seq<int> := [
    0xC02C,  // TLS_ECDHE_ECDSA_WITH_AES_256_GCM_SHA384
    0xC030,  // TLS_ECDHE_RSA_WITH_AES_256_GCM_SHA384
    0xCCA9,  // TLS_ECDHE_ECDSA_WITH_CHACHA20_POLY1305
    0xCCA8,  // TLS_ECDHE_RSA_WITH_CHACHA20_POLY1305
    0xC02B,  // TLS_ECDHE_ECDSA_WITH_AES_128_GCM_SHA256
    0xC02F   // TLS_ECDHE_RSA_WITH_AES_128_GCM_SHA256
  ]
  const DefaultMinVersion: int := VersionTls12
  const DefaultReadTimeout: int := 5 * Second
  const DefaultWriteTimeout: int := 10 * Second
  const DefaultIdleTimeout: int := 120 * Second
  const DefaultReadHeaderTimeout: int := 5 * Second
  const DefaultShutdownDelay: int := 5 * Second
  const DefaultDrainTimeout: int := 10 * Second

  /** A timeout field after defaulting: zero means "unset". */
  function OrDefault(value: int, default: int): int {
    if value == 0 then default else value
  }

  /** A field is replaced exactly when it was zero, and then by the default. */
  lemma OrDefaultReplacesOnlyZero(value: int, default: int)
    requires default != 0
    ensures OrDefault(value, default) != 0
    ensures OrDefault(value, default) != value <==> value == 0
    ensures value == 0 ==> OrDefault(value, default) == default
  {
  }

  /** WithDefaults fills in the four zero timeouts and overwrites the TLS settings, in the
      server it was given, and returns that same server. The TLS settings are written
      unconditionally, so values set beforehand are lost; when the server already had a
      TLS configuration it is that object which is changed (and every server sharing it). */
  method WithDefaults(srv: Server) returns (r: Server)
    modifies srv`tlsConfig, srv.tlsConfig
    modifies srv`readTimeout, srv`readHeaderTimeout, srv`writeTimeout, srv`idleTimeout
    ensures r == srv
    ensures srv.tlsConfig != null
    ensures old(srv.tlsConfig) != null ==> srv.tlsConfig == old(srv.tlsConfig)
    ensures old(srv.tlsConfig) == null ==> fresh(srv.tlsConfig)
    ensures srv.tlsConfig.minVersion == DefaultMinVersion
    ensures srv.tlsConfig.curvePreferences == DefaultCurvePreferences
    ensures srv.tlsConfig.cipherSuites == DefaultCipherSuites
    ensures srv.readTimeout == OrDefault(old(srv.readTimeout), DefaultReadTimeout)
    ensures srv.readHeaderTimeout == OrDefault(old(srv.readHeaderTimeout), DefaultReadHeaderTimeout)
    ensures srv.writeTimeout == OrDefault(old(srv.writeTimeout), DefaultWriteTimeout)
    ensures srv.idleTimeout == OrDefault(old(srv.idleTimeout), DefaultIdleTimeout)
  {
    if srv.tlsConfig == null {
      srv.tlsConfig := new TlsConfig();
    }
    srv.tlsConfig.minVersion := DefaultMinVersion;
    srv.tlsConfig.curvePreferences := DefaultCurvePreferences;
    srv.tlsConfig.cipherSuites := DefaultCipherSuites;

    if srv.readTimeout == 0 {
      srv.readTimeout := DefaultReadTimeout;
    }
    if srv.readHeaderTimeout == 0 {
      srv.readHeaderTimeout := DefaultReadHeaderTimeout;
    }
    if srv.writeTimeout == 0 {
      srv.writeTimeout := DefaultWriteTimeout;
    }
    if srv.idleTimeout == 0 {
      srv.idleTimeout := DefaultIdleTimeout;
    }
    r := srv;
  }

  /** Identity of the *slog.Logger a configuration carries. */
  type LoggerId = nat

  /** serve.Config; `logger` is None for a nil *slog.Logger. */
  datatype Config = Config(shutdownDelay: int, drainTimeout: int, logger: Option<LoggerId>) {

    /** Config.withDefaults (a value receiver: the caller's copy is not changed). */
    function WithDefaults(): (c: Config)
      ensures c.shutdownDelay != 0 && c.drainTimeout != 0
      ensures shutdownDelay == 0 ==> c.shutdownDelay == DefaultShutdownDelay
      ensures shutdownDelay != 0 ==> c.shutdownDelay == shutdownDelay
      ensures drainTimeout == 0 ==> c.drainTimeout == DefaultDrainTimeout
      ensures drainTimeout != 0 ==> c.drainTimeout == drainTimeout
      ensures c.logger == logger
    {
      var delay := if shutdownDelay == 0 then DefaultShutdownDelay else shutdownDelay;
      var drain := if drainTimeout == 0 then DefaultDrainTimeout else drainTimeout;
      Config(delay, drain, logger)
    }
  }

  lemma WithDefaultsIdempotent(c: Config)
    ensures c.WithDefaults().WithDefaults() == c.WithDefaults()
  {
  }

  /** The log line `line`, when the configuration has a logger. */
  function LogIf(c: Config, line: LogLine): seq<Event> {
    if c.logger.Some? then [Debug(line)] else []
  }

  /** The steps after a stop signal, up to (not including) the deferred signal.Stop, for a
      configuration that already has its defaults. */
  function Stopping(c: Config, drain: Option<Error>): seq<Event> {
    var announced := [SetKeepAlives(false)] + LogIf(c, WaitingForDeregistration(c.shutdownDelay));
    var draining := announced + [Sleep(c.shutdownDelay)] + LogIf(c, DrainingConnections);
    var shut := draining + [Event.Shutdown(c.drainTimeout)];
    if drain.Some? then shut else shut + LogIf(c, ShutdownComplete)
  }

  /** What one run of listenAndShutdown does. `first` is the event the select saw first and
      `drain` the outcome of srv.Shutdown, both decided outside the coordinator. The deferred
      signal.Stop runs last on every path. */
  function Run(cfg: Config, call: StartCall, first: FirstEvent, drain: Option<Error>): RunResult {
    var c := cfg.WithDefaults();
    match first
    case ServerReturned(e) =>
      RunResult([Start(call), NotifySignals, StopSignals], e)
    case StopSignal =>
      RunResult([Start(call), NotifySignals] + Stopping(c, drain) + [StopSignals],
                if drain.Some? then Some(ShutdownFailed(drain.value)) else None)
  }

  /** The stop path of listenAndShutdown, from the keep-alive change up to the deferred
      signal.Stop, for a configuration that already has its defaults. */
  method Stop(srv: Server, c: Config, drain: Option<Error>) returns (err: Option<Error>)
    modifies srv`keepAlivesEnabled, srv`shuttingDown, srv`trace
    ensures err == if drain.Some? then Some(ShutdownFailed(drain.value)) else None
    ensures srv.trace == old(srv.trace) + Stopping(c, drain)
    ensures !srv.keepAlivesEnabled && srv.shuttingDown
  {
    ghost var t1 := srv.trace;
    srv.SetKeepAlivesEnabled(false);
    if c.logger.Some? {
      srv.Record(Debug(WaitingForDeregistration(c.shutdownDelay)));
    }
    ghost var announced := [SetKeepAlives(false)] + LogIf(c, WaitingForDeregistration(c.shutdownDelay));
    assert srv.trace == t1 + announced;
    srv.Record(Sleep(c.shutdownDelay));
    if c.logger.Some? {
      srv.Record(Debug(DrainingConnections));
    }
    ghost var draining := announced + [Sleep(c.shutdownDelay)] + LogIf(c, DrainingConnections);
    assert srv.trace == t1 + draining;
    var e := srv.Shutdown(c.drainTimeout, drain);
    ghost var shut := draining + [Event.Shutdown(c.drainTimeout)];
    assert srv.trace == t1 + shut;
    if e.Some? {
      err := Some(ShutdownFailed(e.value));
    } else {
      if c.logger.Some? {
        srv.Record(Debug(ShutdownComplete));
      }
      assert srv.trace == t1 + (shut + LogIf(c, ShutdownComplete));
      err := None;
    }
  }

  /** listenAndShutdown, for one run. */
  method ListenAndShutdown(srv: Server, call: StartCall, cfg: Config, first: FirstEvent, drain: Option<Error>)
    returns (err: Option<Error>)
    modifies srv`keepAlivesEnabled, srv`shuttingDown, srv`trace
    ensures err == Run(cfg, call, first, drain).err
    ensures srv.trace == old(srv.trace) + Run(cfg, call, first, drain).trace
    ensures srv.keepAlivesEnabled == (if first.StopSignal? then false else old(srv.keepAlivesEnabled))
    ensures srv.shuttingDown == (first.StopSignal? || old(srv.shuttingDown))
  {
    var c := cfg.WithDefaults();
    ghost var t0 := srv.trace;
    srv.Record(Start(call));
    srv.Record(NotifySignals);
    ghost var t1 := srv.trace;
    assert t1 == t0 + [Start(call), NotifySignals];
    ghost var stopping: seq<Event> := [];
    match first {
      case ServerReturned(e) =>
        err := e;
      case StopSignal =>
        err := Stop(srv, c, drain);
        stopping := Stopping(c, drain);
    }
    assert srv.trace == t0 + ([Start(call), NotifySignals] + stopping);
    srv.Record(StopSignals);
    assert srv.trace == t0 + ([Start(call), NotifySignals] + stopping + [StopSignals]);
    assert Run(cfg, call, first, drain).trace == [Start(call), NotifySignals] + stopping + [StopSignals];
  }

  /** serve.ListenAndServe */
  method ListenAndServe(srv: Server, cfg: Config, first: FirstEvent, drain: Option<Error>)
    returns (err: Option<Error>)
    modifies srv`keepAlivesEnabled, srv`shuttingDown, srv`trace
    ensures err == Run(cfg, Lifecycle.ListenAndServe, first, drain).err
    ensures srv.trace == old(srv.trace) + Run(cfg, Lifecycle.ListenAndServe, first, drain).trace
    ensures srv.keepAlivesEnabled == (if first.StopSignal? then false else old(srv.keepAlivesEnabled))
    ensures srv.shuttingDown == (first.StopSignal? || old(srv.shuttingDown))
  {
    err := ListenAndShutdown(srv, Lifecycle.ListenAndServe, cfg, first, drain);
  }

  /** serve.ListenAndServeTLS */
  method ListenAndServeTLS(srv: Server, certFile: string, keyFile: string, cfg: Config, first: FirstEvent, drain: Option<Error>)
    returns (err: Option<Error>)
    modifies srv`keepAlivesEnabled, srv`shuttingDown, srv`trace
    ensures err == Run(cfg, Lifecycle.ListenAndServeTLS(certFile, keyFile), first, drain).err
    ensures srv.trace == old(srv.trace) + Run(cfg, Lifecycle.ListenAndServeTLS(certFile, keyFile), first, drain).trace
    ensures srv.keepAlivesEnabled == (if first.StopSignal? then false else old(srv.keepAlivesEnabled))
    ensures srv.shuttingDown == (first.StopSignal? || old(srv.shuttingDown))
  {
    err := ListenAndShutdown(srv, Lifecycle.ListenAndServeTLS(certFile, keyFile), cfg, first, drain);
  }

  // ---- Properties of a run ----

  /** The server returned before any signal: its error comes back verbatim and none of
      the shutdown steps happens (no keep-alive change, no sleep, no Shutdown call). */
  lemma {:induction false} ServerFirstPassesErrorThrough(cfg: Config, call: StartCall, e: Option<Error>, drain: Option<Error>)
    ensures Run(cfg, call, ServerReturned(e), drain).err == e
    ensures Filter(Run(cfg, call, ServerReturned(e), drain).trace, IsStep) == []
  {
    var t := Run(cfg, call, ServerReturned(e), drain).trace;
    FilterNone(t, IsStep);
  }

  /** A log line is never a shutdown step. */
  lemma FilterLogIf(c: Config, line: LogLine)
    ensures Filter(LogIf(c, line), IsStep) == []
  {
    FilterNone(LogIf(c, line), IsStep);
  }

  lemma {:induction false} StoppingSteps(c: Config, drain: Option<Error>)
    ensures Filter(Stopping(c, drain), IsStep) == [SetKeepAlives(false), Sleep(c.shutdownDelay), Event.Shutdown(c.drainTimeout)]
  {
    var l1, l2, l3 := LogIf(c, WaitingForDeregistration(c.shutdownDelay)), LogIf(c, DrainingConnections), LogIf(c, ShutdownComplete);
    FilterLogIf(c, WaitingForDeregistration(c.shutdownDelay));
    FilterLogIf(c, DrainingConnections);
    FilterLogIf(c, ShutdownComplete);
    var announced := [SetKeepAlives(false)] + l1;
    FilterConcat([SetKeepAlives(false)], l1, IsStep);
    FilterConcat(announced, [Sleep(c.shutdownDelay)], IsStep);
    var draining := announced + [Sleep(c.shutdownDelay)] + l2;
    FilterConcat(announced + [Sleep(c.shutdownDelay)], l2, IsStep);
    var shut := draining + [Event.Shutdown(c.drainTimeout)];
    FilterConcat(draining, [Event.Shutdown(c.drainTimeout)], IsStep);
    FilterConcat(shut, l3, IsStep);
  }

  /** On a stop signal the shutdown steps are, in this order and each exactly once:
      keep-alives off, a sleep of the defaulted delay, Shutdown with the defaulted drain
      timeout. */
  lemma {:induction false} StopSignalSteps(cfg: Config, call: StartCall, drain: Option<Error>)
    ensures Filter(Run(cfg, call, StopSignal, drain).trace, IsStep)
         == [SetKeepAlives(false), Sleep(cfg.WithDefaults().shutdownDelay), Event.Shutdown(cfg.WithDefaults().drainTimeout)]
  {
    var c := cfg.WithDefaults();
    var setup, s := [Start(call), NotifySignals], Stopping(c, drain);
    assert Run(cfg, call, StopSignal, drain).trace == setup + s + [StopSignals];
    FilterConcat(setup + s, [StopSignals], IsStep);
    FilterConcat(setup, s, IsStep);
    FilterNone(setup, IsStep);
    FilterNone([StopSignals], IsStep);
    StoppingSteps(c, drain);
  }

  /** On a stop signal the result is the wrapped Shutdown error, or nil when Shutdown
      succeeded; the completion line is logged only after a successful Shutdown. */
  lemma StopSignalResult(cfg: Config, call: StartCall, drain: Option<Error>)
    ensures drain.Some? ==> Run(cfg, call, StopSignal, drain).err == Some(ShutdownFailed(drain.value))
    ensures drain.Some? ==> Message(Run(cfg, call, StopSignal, drain).err.value) == ShutdownFailedPrefix + Message(drain.value)
    ensures drain.None? ==> Run(cfg, call, StopSignal, drain).err == None
    ensures Debug(ShutdownComplete) in Run(cfg, call, StopSignal, drain).trace <==> drain.None? && cfg.logger.Some?
  {
  }

  /** Without a logger no line is logged; with or without one, the shutdown steps and the
      result are the same. */
  lemma {:induction false} LoggerIsObservational(cfg: Config, call: StartCall, first: FirstEvent, drain: Option<Error>)
    ensures cfg.logger.None? ==> forall e | e in Run(cfg, call, first, drain).trace :: !e.Debug?
    ensures Run(cfg, call, first, drain).err == Run(cfg.(logger := None), call, first, drain).err
    ensures Filter(Run(cfg, call, first, drain).trace, IsStep) == Filter(Run(cfg.(logger := None), call, first, drain).trace, IsStep)
  {
    match first
    case ServerReturned(e) =>
      ServerFirstPassesErrorThrough(cfg, call, e, drain);
      ServerFirstPassesErrorThrough(cfg.(logger := None), call, e, drain);
    case StopSignal =>
      StopSignalSteps(cfg, call, drain);
      StopSignalSteps(cfg.(logger := None), call, drain);
  }

  /** The signal subscription is taken right after the start call is launched and released
      by the deferred signal.Stop as the very last step, on every path. */
  lemma SignalsReleasedOnEveryPath(cfg: Config, call: StartCall, first: FirstEvent, drain: Option<Error>)
    ensures |Run(cfg, call, first, drain).trace| >= 3
    ensures Run(cfg, call, first, drain).trace[..2] == [Start(call), NotifySignals]
    ensures Run(cfg, call, first, drain).trace[|Run(cfg, call, first, drain).trace| - 1] == StopSignals
  {
  }

  /** ListenAndServeTLS runs the same coordinator: only the start call differs. */
  lemma TlsLikePlain(cfg: Config, certFile: string, keyFile: string, first: FirstEvent, drain: Option<Error>)
    ensures Run(cfg, Lifecycle.ListenAndServeTLS(certFile, keyFile), first, drain).err == Run(cfg, Lifecycle.ListenAndServe, first, drain).err
    ensures Run(cfg, Lifecycle.ListenAndServeTLS(certFile, keyFile), first, drain).trace[1..] == Run(cfg, Lifecycle.ListenAndServe, first, drain).trace[1..]
  {
  }
}
