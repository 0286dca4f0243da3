/** What the two shutdown coordinators (serve and slowdown) touch outside themselves:
    the parts of net/http.Server and crypto/tls.Config that they read and write, the
    error values they return, and a trace of the observable steps of one run.

    The server handle records every call made on it on a ghost trace. Process-wide
    effects that have no object of their own (time.Sleep, signal.Notify, signal.Stop,
    a hook or a log line) are recorded on the same trace, so that their order relative
    to the server's own calls is visible. */
module Lifecycle {
  import opened Wrappers

  /** time.Second, in nanoseconds (time.Duration counts nanoseconds). */
  const Second: int := 1_000_000_000

  /** An error value. `ShutdownFailed(cause)` is what `fmt.Errorf("shutdown failed: %w", cause)`
      builds: its text is the prefix followed by the cause's text, and it unwraps to the cause. */
  datatype Error = Error(text: string) | ShutdownFailed(cause: Error)

  const ShutdownFailedPrefix: string := "shutdown failed: "

  /** err.Error() */
  function Message(e: Error): (m: string)
    ensures e.ShutdownFailed? ==> m == ShutdownFailedPrefix + Message(e.cause)
    ensures e.Error? ==> m == e.text
  {
    match e
    case Error(t) => t
    case ShutdownFailed(c) => ShutdownFailedPrefix + Message(c)
  }

  /** errors.Unwrap */
  function Unwrap(e: Error): Option<Error> {
    match e
    case Error(_) => None
    case ShutdownFailed(c) => Some(c)
  }

  /** errors.Is: the error or one it wraps, transitively, is `target`. */
  predicate Is(e: Error, target: Error) {
    e == target || (e.ShutdownFailed? && Is(e.cause, target))
  }

  /** A wrapped shutdown error keeps its cause reachable through Unwrap and errors.Is,
      and its text starts with the prefix. */
  lemma {:induction false} ShutdownFailedWraps(cause: Error)
    ensures Unwrap(ShutdownFailed(cause)) == Some(cause)
    ensures Is(ShutdownFailed(cause), cause)
    ensures forall t :: Is(cause, t) ==> Is(ShutdownFailed(cause), t)
    ensures Message(ShutdownFailed(cause)) == ShutdownFailedPrefix + Message(cause)
    ensures |Message(ShutdownFailed(cause))| > |Message(cause)|
  {
  }

  /** Which blocking start call the coordinator runs in its own goroutine. */
  datatype StartCall = ListenAndServe | ListenAndServeTLS(certFile: string, keyFile: string)

  /** Which of the two raced events the `select` observed first: the start call returned
      (with its error, nil included), or a SIGINT/SIGTERM arrived on the stop channel. */
  datatype FirstEvent = ServerReturned(err: Option<Error>) | StopSignal

  /** The debug lines the serve coordinator logs (the waiting line carries the delay it prints). */
  datatype LogLine = WaitingForDeregistration(delay: int) | DrainingConnections | ShutdownComplete

  /** The two optional callbacks of the slowdown coordinator. */
  datatype HookName = OnSignal | OnDrain

  /** One observable step of a run. */
  datatype Event =
    | Start(call: StartCall)          // `go func() { serverErrors <- startFn() }()`
    | NotifySignals                   // signal.Notify(stop, SIGINT, SIGTERM)
    | StopSignals                     // signal.Stop(stop)
    | SetKeepAlives(enabled: bool)    // srv.SetKeepAlivesEnabled(enabled)
    | Sleep(duration: int)            // time.Sleep(duration)
    | Shutdown(timeout: int)          // srv.Shutdown(ctx) with ctx from context.WithTimeout(timeout)
    | Debug(line: LogLine)            // cfg.Logger.Debug(...)
    | Hook(name: HookName)            // cfg.OnSignal() / cfg.OnDrain()

  /** What one run of a coordinator does: the events it appends, in order, and what it returns. */
  datatype RunResult = RunResult(trace: seq<Event>, err: Option<Error>)

  /** The shutdown steps proper: disabling keep-alives, the delay and the drain. */
  predicate IsStep(e: Event) {
    e.SetKeepAlives? || e.Sleep? || e.Shutdown?
  }

  /** The shutdown steps together with the callbacks run between them. */
  predicate IsStepOrHook(e: Event) {
    IsStep(e) || e.Hook?
  }

  /** The events of `t` that satisfy `p`, in their order. */
  function Filter(t: seq<Event>, p: Event -> bool): seq<Event> {
    if t == [] then []
    else (if p(t[0]) then [t[0]] else []) + Filter(t[1..], p)
  }

  lemma {:induction false} FilterConcat(a: seq<Event>, b: seq<Event>, p: Event -> bool)
    ensures Filter(a + b, p) == Filter(a, p) + Filter(b, p)
  {
    if a == [] {
      assert a + b == b;
    } else {
      var head := if p(a[0]) then [a[0]] else [];
      assert (a + b)[0] == a[0];
      assert (a + b)[1..] == a[1..] + b;
      assert Filter(a + b, p) == head + Filter(a[1..] + b, p);
      FilterConcat(a[1..], b, p);
      assert Filter(a, p) == head + Filter(a[1..], p);
      assert head + (Filter(a[1..], p) + Filter(b, p)) == (head + Filter(a[1..], p)) + Filter(b, p);
    }
  }

  /** A filter keeps exactly the events that satisfy it: one that keeps none is empty. */
  lemma {:induction false} FilterNone(t: seq<Event>, p: Event -> bool)
    requires forall i | 0 <= i < |t| :: !p(t[i])
    ensures Filter(t, p) == []
  {
    if t != [] {
      FilterNone(t[1..], p);
    }
  }

  /** The handful of crypto/tls.Config fields that WithDefaults writes. */
  class TlsConfig {
    var minVersion: int
    var curvePreferences: seq<int>
    var cipherSuites: seq<int>

    /** &tls.Config{} */
    constructor ()
      ensures minVersion == 0 && curvePreferences == [] && cipherSuites == []
    {
      minVersion, curvePreferences, cipherSuites := 0, [], [];
    }
  }

  /** The fields and calls of net/http.Server that the coordinators use. */
  class Server {
    var readTimeout: int
    var readHeaderTimeout: int
    var writeTimeout: int
    var idleTimeout: int
    var tlsConfig: TlsConfig?
    var keepAlivesEnabled: bool
    var shuttingDown: bool
    ghost var trace: seq<Event>

    /** &http.Server{ReadTimeout: ..., ..., TLSConfig: ...}; keep-alives start enabled. */
    constructor (readTimeout: int, readHeaderTimeout: int, writeTimeout: int, idleTimeout: int, tlsConfig: TlsConfig?)
      ensures this.readTimeout == readTimeout && this.readHeaderTimeout == readHeaderTimeout
      ensures this.writeTimeout == writeTimeout && this.idleTimeout == idleTimeout
      ensures this.tlsConfig == tlsConfig
      ensures keepAlivesEnabled && !shuttingDown && trace == []
    {
      this.readTimeout, this.readHeaderTimeout := readTimeout, readHeaderTimeout;
      this.writeTimeout, this.idleTimeout := writeTimeout, idleTimeout;
      this.tlsConfig := tlsConfig;
      keepAlivesEnabled, shuttingDown := true, false;
      trace := [];
    }

    method SetKeepAlivesEnabled(enabled: bool)
      modifies this`keepAlivesEnabled, this`trace
      ensures keepAlivesEnabled == enabled
      ensures trace == old(trace) + [SetKeepAlives(enabled)]
    {
      keepAlivesEnabled := enabled;
      trace := trace + [SetKeepAlives(enabled)];
    }

    /** srv.Shutdown(ctx) with a context that expires after `timeout`. Whether the in-flight
        requests finish in time is decided outside the model: `outcome` is what the call returns. */
    method Shutdown(timeout: int, outcome: Option<Error>) returns (err: Option<Error>)
      modifies this`shuttingDown, this`trace
      ensures shuttingDown && err == outcome
      ensures trace == old(trace) + [Event.Shutdown(timeout)]
    {
      shuttingDown := true;
      trace := trace + [Event.Shutdown(timeout)];
      err := outcome;
    }

    /** A process-wide effect that happens during the run (sleep, signal registration, hook, log). */
    ghost method Record(e: Event)
      modifies this`trace
      ensures trace == old(trace) + [e]
    {
      trace := trace + [e];
    }
  }
}
