/** The slowdown package (slowdown/slowdown.go), the older form of the serve coordinator:
    the same server defaults, and a shutdown sequence driven by two optional callbacks
    instead of log lines, with the delay and drain timeout used exactly as configured. */
module Slowdown {
  import opened Wrappers
  import opened Lifecycle
  import Serve

  // slowdown/slowdown.go:14-34 declares the same defaults as serve/serve.go:15-37 (without
  // the shutdown delay and drain timeout), with the same values.
  const DefaultCurvePreferences: seq<int> := Serve.DefaultCurvePreferences
  const DefaultCipherSuites: seq<int> := Serve.DefaultCipherSuites
  const DefaultMinVersion: int := Serve.DefaultMinVersion
  const DefaultReadTimeout: int := Serve.DefaultReadTimeout
  const DefaultWriteTimeout: int := Serve.DefaultWriteTimeout
  const DefaultIdleTimeout: int := Serve.DefaultIdleTimeout
  const DefaultReadHeaderTimeout: int := Serve.DefaultReadHeaderTimeout

  /** slowdown.WithDefaults: the body is the same as serve.WithDefaults, line for line. A
      MinVersion set beforehand (TLS 1.3, say) is replaced by TLS 1.2. */
  method WithDefaults(srv: Server) returns (r: Server)
    modifies srv`tlsConfig, srv.tlsConfig
    modifies srv`readTimeout, srv`readHeaderTimeout, srv`writeTimeout, srv`idleTimeout
    ensures r == srv
    ensures srv.tlsConfig != null
    ensures old(srv.tlsConfig) != null ==> srv.tlsConfig == old(srv.tlsConfig)
    ensures old(srv.tlsConfig) == null ==> fresh(srv.tlsConfig)
    ensures srv.tlsConfig.minVersion == DefaultMinVersion
    ensures srv.tlsConfig.curvePreferences == DefaultCurvePreferences
    ensures srv.tlsConfig.cipherSuites == DefaultCipherSuites
    ensures srv.readTimeout == Serve.OrDefault(old(srv.readTimeout), DefaultReadTimeout)
    ensures srv.readHeaderTimeout == Serve.OrDefault(old(srv.readHeaderTimeout), DefaultReadHeaderTimeout)
    ensures srv.writeTimeout == Serve.OrDefault(old(srv.writeTimeout), DefaultWriteTimeout)
    ensures srv.idleTimeout == Serve.OrDefault(old(srv.idleTimeout), DefaultIdleTimeout)
  {
    r := Serve.WithDefaults(srv);
  }

  /** slowdown.Config; a hook field is true when the callback is non-nil. */
  datatype Config = Config(signalDelay: int, drainTimeout: int, onSignal: bool, onDrain: bool)

  /** The callback `name`, when it is set. */
  function HookIf(present: bool, name: HookName): seq<Event> {
    if present then [Hook(name)] else []
  }

  /** The steps after a signal. No defaults are applied: a zero delay or timeout is used as is. */
  function Stopping(cfg: Config): seq<Event> {
    var signalled := [SetKeepAlives(false)] + HookIf(cfg.onSignal, OnSignal);
    var draining := signalled + [Sleep(cfg.signalDelay)] + HookIf(cfg.onDrain, OnDrain);
    draining + [Event.Shutdown(cfg.drainTimeout)]
  }

  /** One run of ListenAndServe (or ListenAndServeTLS, with the other start call). The stop
      channel is registered with signal.Notify and never released: there is no signal.Stop. */
  function Run(cfg: Config, call: StartCall, first: FirstEvent, drain: Option<Error>): RunResult {
    match first
    case ServerReturned(e) =>
      RunResult([Start(call), NotifySignals], e)
    case StopSignal =>
      RunResult([Start(call), NotifySignals] + Stopping(cfg),
                if drain.Some? then Some(ShutdownFailed(drain.value)) else None)
  }

  /** The stop path: keep-alives off, the callbacks around the delay, and the drain. */
  method Stop(srv: Server, cfg: Config, drain: Option<Error>) returns (err: Option<Error>)
    modifies srv`keepAlivesEnabled, srv`shuttingDown, srv`trace
    ensures err == if drain.Some? then Some(ShutdownFailed(drain.value)) else None
    ensures srv.trace == old(srv.trace) + Stopping(cfg)
    ensures !srv.keepAlivesEnabled && srv.shuttingDown
  {
    ghost var t1 := srv.trace;
    srv.SetKeepAlivesEnabled(false);
    if cfg.onSignal {
      srv.Record(Hook(OnSignal));
    }
    ghost var signalled := [SetKeepAlives(false)] + HookIf(cfg.onSignal, OnSignal);
    assert srv.trace == t1 + signalled;
    srv.Record(Sleep(cfg.signalDelay));
    if cfg.onDrain {
      srv.Record(Hook(OnDrain));
    }
    ghost var draining := signalled + [Sleep(cfg.signalDelay)] + HookIf(cfg.onDrain, OnDrain);
    assert srv.trace == t1 + draining;
    var e := srv.Shutdown(cfg.drainTimeout, drain);
    if e.Some? {
      err := Some(ShutdownFailed(e.value));
    } else {
      err := None;
    }
  }

  /** The body that slowdown.ListenAndServe and slowdown.ListenAndServeTLS each spell out; they
      differ only in the start call. */
  method ServeUntilSignal(srv: Server, call: StartCall, cfg: Config, first: FirstEvent, drain: Option<Error>)
    returns (err: Option<Error>)
    modifies srv`keepAlivesEnabled, srv`shuttingDown, srv`trace
    ensures err == Run(cfg, call, first, drain).err
    ensures srv.trace == old(srv.trace) + Run(cfg, call, first, drain).trace
    ensures srv.keepAlivesEnabled == (if first.StopSignal? then false else old(srv.keepAlivesEnabled))
    ensures srv.shuttingDown == (first.StopSignal? || old(srv.shuttingDown))
  {
    ghost var t0 := srv.trace;
    srv.Record(Start(call));
    srv.Record(NotifySignals);
    assert srv.trace == t0 + [Start(call), NotifySignals];
    match first
    case ServerReturned(e) =>
      err := e;
    case StopSignal =>
      err := Stop(srv, cfg, drain);
  }

  /** slowdown.ListenAndServe */
  method ListenAndServe(srv: Server, cfg: Config, first: FirstEvent, drain: Option<Error>)
    returns (err: Option<Error>)
    modifies srv`keepAlivesEnabled, srv`shuttingDown, srv`trace
    ensures err == Run(cfg, Lifecycle.ListenAndServe, first, drain).err
    ensures srv.trace == old(srv.trace) + Run(cfg, Lifecycle.ListenAndServe, first, drain).trace
    ensures srv.keepAlivesEnabled == (if first.StopSignal? then false else old(srv.keepAlivesEnabled))
    ensures srv.shuttingDown == (first.StopSignal? || old(srv.shuttingDown))
  {
    err := ServeUntilSignal(srv, Lifecycle.ListenAndServe, cfg, first, drain);
  }

  /** slowdown.ListenAndServeTLS */
  method ListenAndServeTLS(srv: Server, certFile: string, keyFile: string, cfg: Config, first: FirstEvent, drain: Option<Error>)
    returns (err: Option<Error>)
    modifies srv`keepAlivesEnabled, srv`shuttingDown, srv`trace
    ensures err == Run(cfg, Lifecycle.ListenAndServeTLS(certFile, keyFile), first, drain).err
    ensures srv.trace == old(srv.trace) + Run(cfg, Lifecycle.ListenAndServeTLS(certFile, keyFile), first, drain).trace
    ensures srv.keepAlivesEnabled == (if first.StopSignal? then false else old(srv.keepAlivesEnabled))
    ensures srv.shuttingDown == (first.StopSignal? || old(srv.shuttingDown))
  {
    err := ServeUntilSignal(srv, Lifecycle.ListenAndServeTLS(certFile, keyFile), cfg, first, drain);
  }

  // ---- Properties of a run ----

  /** The server returned before any signal: its error comes back verbatim, neither callback
      runs and none of the shutdown steps happens. */
  lemma {:induction false} ServerFirstPassesErrorThrough(cfg: Config, call: StartCall, e: Option<Error>, drain: Option<Error>)
    ensures Run(cfg, call, ServerReturned(e), drain).err == e
    ensures Filter(Run(cfg, call, ServerReturned(e), drain).trace, IsStepOrHook) == []
  {
    FilterNone(Run(cfg, call, ServerReturned(e), drain).trace, IsStepOrHook);
  }

  lemma FilterHookIf(present: bool, name: HookName)
    ensures Filter(HookIf(present, name), IsStepOrHook) == HookIf(present, name)
    ensures Filter(HookIf(present, name), IsStep) == []
  {
    FilterNone(HookIf(present, name), IsStep);
  }

  /** The steps and callbacks after a signal, in order: keep-alives off, OnSignal (if set),
      the sleep, OnDrain (if set), Shutdown. */
  lemma {:induction false} StoppingOrder(cfg: Config)
    ensures Filter(Stopping(cfg), IsStepOrHook)
         == [SetKeepAlives(false)] + HookIf(cfg.onSignal, OnSignal) + [Sleep(cfg.signalDelay)]
            + HookIf(cfg.onDrain, OnDrain) + [Event.Shutdown(cfg.drainTimeout)]
  {
    var h1, h2 := HookIf(cfg.onSignal, OnSignal), HookIf(cfg.onDrain, OnDrain);
    FilterHookIf(cfg.onSignal, OnSignal);
    FilterHookIf(cfg.onDrain, OnDrain);
    var signalled := [SetKeepAlives(false)] + h1;
    var slept := signalled + [Sleep(cfg.signalDelay)];
    var draining := slept + h2;
    FilterConcat([SetKeepAlives(false)], h1, IsStepOrHook);
    assert Filter(signalled, IsStepOrHook) == signalled;
    FilterConcat(signalled, [Sleep(cfg.signalDelay)], IsStepOrHook);
    assert Filter(slept, IsStepOrHook) == slept;
    FilterConcat(slept, h2, IsStepOrHook);
    assert Filter(draining, IsStepOrHook) == draining;
    FilterConcat(draining, [Event.Shutdown(cfg.drainTimeout)], IsStepOrHook);
  }

  /** The shutdown steps alone use the configured delay and timeout unchanged, zero included. */
  lemma {:induction false} StoppingSteps(cfg: Config)
    ensures Filter(Stopping(cfg), IsStep) == [SetKeepAlives(false), Sleep(cfg.signalDelay), Event.Shutdown(cfg.drainTimeout)]
  {
    var h1, h2 := HookIf(cfg.onSignal, OnSignal), HookIf(cfg.onDrain, OnDrain);
    FilterHookIf(cfg.onSignal, OnSignal);
    FilterHookIf(cfg.onDrain, OnDrain);
    var signalled := [SetKeepAlives(false)] + h1;
    var slept := signalled + [Sleep(cfg.signalDelay)];
    var draining := slept + h2;
    FilterConcat([SetKeepAlives(false)], h1, IsStep);
    assert Filter(signalled, IsStep) == [SetKeepAlives(false)];
    FilterConcat(signalled, [Sleep(cfg.signalDelay)], IsStep);
    FilterConcat(slept, h2, IsStep);
    assert Filter(draining, IsStep) == [SetKeepAlives(false), Sleep(cfg.signalDelay)];
    FilterConcat(draining, [Event.Shutdown(cfg.drainTimeout)], IsStep);
  }

  /** On a signal: the ordered steps and callbacks above, then the wrapped Shutdown error or nil. */
  lemma {:induction false} StopSignalSequence(cfg: Config, call: StartCall, drain: Option<Error>)
    ensures Filter(Run(cfg, call, StopSignal, drain).trace, IsStepOrHook)
         == [SetKeepAlives(false)] + HookIf(cfg.onSignal, OnSignal) + [Sleep(cfg.signalDelay)]
            + HookIf(cfg.onDrain, OnDrain) + [Event.Shutdown(cfg.drainTimeout)]
    ensures Filter(Run(cfg, call, StopSignal, drain).trace, IsStep)
         == [SetKeepAlives(false), Sleep(cfg.signalDelay), Event.Shutdown(cfg.drainTimeout)]
    ensures Run(cfg, call, StopSignal, drain).err == if drain.Some? then Some(ShutdownFailed(drain.value)) else None
  {
    var setup := [Start(call), NotifySignals];
    FilterNone(setup, IsStepOrHook);
    FilterNone(setup, IsStep);
    FilterConcat(setup, Stopping(cfg), IsStepOrHook);
    FilterConcat(setup, Stopping(cfg), IsStep);
    StoppingOrder(cfg);
    StoppingSteps(cfg);
  }

  /** The signal subscription is never released, on either path (slowdown/slowdown.go has no
      signal.Stop, unlike serve/serve.go:99). */
  lemma SignalsNeverReleased(cfg: Config, call: StartCall, first: FirstEvent, drain: Option<Error>)
    ensures NotifySignals in Run(cfg, call, first, drain).trace
    ensures StopSignals !in Run(cfg, call, first, drain).trace
  {
  }

  /** ListenAndServeTLS behaves as ListenAndServe, up to the start call. */
  lemma TlsLikePlain(cfg: Config, certFile: string, keyFile: string, first: FirstEvent, drain: Option<Error>)
    ensures Run(cfg, Lifecycle.ListenAndServeTLS(certFile, keyFile), first, drain).err == Run(cfg, Lifecycle.ListenAndServe, first, drain).err
    ensures Run(cfg, Lifecycle.ListenAndServeTLS(certFile, keyFile), first, drain).trace[1..] == Run(cfg, Lifecycle.ListenAndServe, first, drain).trace[1..]
  {
  }
}
