/** The forward-auth handler of the http/ directory (http/forward_auth_handler.go), an older
    variant with a fixed next handler. It differs from the forwardauth package in what it sends
    and in how it answers:
    - the proto check reads the headers of the freshly created auth request, which are empty,
      so X-Forwarded-Proto is always "https";
    - X-Forwarded-Uri is copied from the incoming X-Forwarded-Uri header;
    - no Basic credential is synthesised from the URL;
    - after a failed body read it logs and renders the 500 but does not return, so the relay
      render of the upstream status follows;
    - on 200 the incoming request is passed on untouched (no Remote-User).
    Both findings are modelled as written, with the evidently intended behaviour beside them. */
module CegoHttp {
  import opened Wrappers
  import opened Headers
  import opened Encoding
  import opened NetHttp
  import Forwardauth

  /** cego.ForwardAuthHandler; the next handler, logger and renderer are not modelled. */
  class ForwardAuthHandler {
    const forwardAuthUrl: string
    const forwardAuthHost: string
    const forwardAuthTimeout: int
    const httpClient: Client

    /** cego.NewForwardAuthHandler: the timeout is stored, but the client it builds is
        &http.Client{}, which has no timeout. */
    constructor (forwardAuthUrl: string, forwardAuthHost: string, forwardAuthTimeout: int)
      ensures this.forwardAuthUrl == forwardAuthUrl && this.forwardAuthHost == forwardAuthHost
      ensures this.forwardAuthTimeout == forwardAuthTimeout
      ensures fresh(httpClient) && httpClient.timeout == 0
    {
      this.forwardAuthUrl, this.forwardAuthHost := forwardAuthUrl, forwardAuthHost;
      this.forwardAuthTimeout := forwardAuthTimeout;
      httpClient := new Client(0);
    }

    /** ServeHTTP for one request `r`. It has no modifies clause: `r` reaches the next handler
        exactly as it came in. */
    method ServeHTTP(r: Request, newRequestError: Option<string>, upstream: Upstream)
      returns (sent: Option<Outgoing>, effects: seq<Effect>)
      ensures newRequestError.Some? ==> sent.None?
      ensures newRequestError.None? ==> sent == Some(Outgoing("GET", forwardAuthUrl, AuthHeaders(r.httpMethod, r.header, forwardAuthHost)))
      ensures effects == Outcome(newRequestError, upstream)
    {
      if newRequestError.Some? {
        sent := None;
        effects := [Text(StatusInternalServerError, newRequestError.value), LogError(newRequestError.value)];
        return;
      }
      var h := BuildAuthHeaders(r.httpMethod, r.header, forwardAuthHost);
      sent := Some(Outgoing("GET", forwardAuthUrl, h));
      match upstream
      case TransportError(msg) =>
        effects := [Text(StatusInternalServerError, msg), LogError(msg)];
      case Response(status, header, body) =>
        if status != StatusOK {
          effects := [];
          if body.Failed? {
            effects := [Text(StatusInternalServerError, body.message), LogError(body.message)];
          }
          var bytes := if body.Failed? then body.partial else body.bytes;
          effects := effects + [Data(status, bytes, Get(header, ContentType))];
        } else {
          effects := [ServeNext];
        }
    }
  }

  /** The header map of the auth request, as written: the proto comes from the (empty) header
      map of the new request, the URI from the incoming X-Forwarded-Uri header. */
  function AuthHeaders(httpMethod: string, incoming: Header, host: string): (h: Header)
    ensures h.Keys == Forwardauth.AuthHeaderNames
    ensures forall k | k in h :: |h[k]| == 1
    ensures Get(h, XForwardedMethod) == httpMethod
    ensures Get(h, XForwardedProto) == Forwardauth.DefaultProto
    ensures Get(h, XForwardedHost) == host
    ensures Get(h, XForwardedUri) == Get(incoming, XForwardedUri)
    ensures Get(h, UserAgent) == Get(incoming, UserAgent)
    ensures Get(h, Cookie) == Get(incoming, Cookie)
    ensures Get(h, Authorization) == Get(incoming, Authorization)
  {
    var created: Header := map[];
    var proto := if Get(created, XForwardedProto) != "" then Get(created, XForwardedProto) else Forwardauth.DefaultProto;
    map[XForwardedMethod := [httpMethod], XForwardedProto := [proto], XForwardedHost := [host],
        XForwardedUri := [Get(incoming, XForwardedUri)], UserAgent := [Get(incoming, UserAgent)],
        Cookie := [Get(incoming, Cookie)], Authorization := [Get(incoming, Authorization)]]
  }

  /** The successive Header.Set calls of ServeHTTP on the new request's header map. */
  method BuildAuthHeaders(httpMethod: string, incoming: Header, host: string) returns (h: Header)
    ensures h == AuthHeaders(httpMethod, incoming, host)
  {
    h := map[];
    var proto := Forwardauth.DefaultProto;
    if Get(h, XForwardedProto) != "" {
      proto := Get(h, XForwardedProto);
    }
    h := Set(h, XForwardedMethod, httpMethod);
    h := Set(h, XForwardedProto, proto);
    h := Set(h, XForwardedHost, host);
    h := Set(h, XForwardedUri, Get(incoming, XForwardedUri));
    assert h == map[XForwardedMethod := [httpMethod], XForwardedProto := [proto], XForwardedHost := [host],
                    XForwardedUri := [Get(incoming, XForwardedUri)]];
    h := Set(h, UserAgent, Get(incoming, UserAgent));
    h := Set(h, Cookie, Get(incoming, Cookie));
    h := Set(h, Authorization, Get(incoming, Authorization));
  }

  /** The effects of ServeHTTP after the auth request is built, as written. */
  function Outcome(newRequestError: Option<string>, up: Upstream): (effects: seq<Effect>)
    ensures ServeNext in effects <==> Forwardauth.Approved(newRequestError, up)
    ensures Forwardauth.Approved(newRequestError, up) ==> effects == [ServeNext]
    ensures newRequestError.Some? || up.TransportError? ==>
      effects == [Text(StatusInternalServerError, Forwardauth.Failure(newRequestError, up).value),
                  LogError(Forwardauth.Failure(newRequestError, up).value)]
    ensures newRequestError.None? && up.Response? && up.status != StatusOK && up.body.Complete? ==>
      effects == [Data(up.status, up.body.bytes, Get(up.header, ContentType))]
    ensures newRequestError.None? && up.Response? && up.status != StatusOK && up.body.Failed? ==>
      effects == [Text(StatusInternalServerError, up.body.message), LogError(up.body.message),
                  Data(up.status, up.body.partial, Get(up.header, ContentType))]
  {
    if newRequestError.Some? then
      [Text(StatusInternalServerError, newRequestError.value), LogError(newRequestError.value)]
    else match up
      case TransportError(msg) => [Text(StatusInternalServerError, msg), LogError(msg)]
      case Response(status, header, body) =>
        if status != StatusOK then
          match body
          case Failed(partial, msg) =>
            [Text(StatusInternalServerError, msg), LogError(msg), Data(status, partial, Get(header, ContentType))]
          case Complete(bytes) => [Data(status, bytes, Get(header, ContentType))]
        else [ServeNext]
  }

  // ---- Findings ----

  /** As written, a failed body read renders twice. The client gets the 500 status and the
      text/plain content type of the first render (net/http ignores the second WriteHeader and
      the header set after it), followed by a body that is the error text with the partial
      upstream body appended. */
  lemma {:induction false} BodyErrorRendersTwice(status: int, header: Header, partial: seq<byte>, msg: string)
    requires status != StatusOK
    ensures Renders(Outcome(None, Response(status, header, Failed(partial, msg)))) == 2
    ensures Receive(Outcome(None, Response(status, header, Failed(partial, msg))))
         == Some(Delivered(StatusInternalServerError, TextPlain, Utf8(msg) + partial))
  {
    var e := Outcome(None, Response(status, header, Failed(partial, msg)));
    var tail := [Data(status, partial, Get(header, ContentType))];
    ReceiveOne(status, Get(header, ContentType), partial, []);
    assert e[1..] == [LogError(msg)] + tail;
    assert e[1..][1..] == tail;
    assert tail == [Render(status, Get(header, ContentType), partial)] + [];
    assert tail[1..] == [];
  }

  /** As written, an incoming X-Forwarded-Proto of "http" is not passed on. */
  lemma IncomingProtoIgnored(httpMethod: string, host: string)
    ensures Get(AuthHeaders(httpMethod, map[XForwardedProto := ["http"]], host), XForwardedProto) == "https"
    ensures Forwardauth.Proto(map[XForwardedProto := ["http"]]) == "http"
  {
  }

  /** The evidently intended answer: return after logging a failed body read. */
  function IntendedOutcome(newRequestError: Option<string>, up: Upstream): (effects: seq<Effect>)
    ensures NextCalls(effects) == 1 <==> Forwardauth.Approved(newRequestError, up)
  {
    if Forwardauth.Failure(newRequestError, up).Some? then
      [Text(StatusInternalServerError, Forwardauth.Failure(newRequestError, up).value), LogError(Forwardauth.Failure(newRequestError, up).value)]
    else if Forwardauth.Approved(newRequestError, up) then [ServeNext]
    else [Data(up.status, up.body.bytes, Get(up.header, ContentType))]
  }

  /** With the return, every request is answered once, a failure is delivered as exactly the
      500 error text, and nothing else changes. */
  lemma {:induction false} IntendedAnsweredOnce(newRequestError: Option<string>, up: Upstream)
    ensures Renders(IntendedOutcome(newRequestError, up)) + NextCalls(IntendedOutcome(newRequestError, up)) == 1
    ensures Forwardauth.Failure(newRequestError, up).Some? ==>
      Receive(IntendedOutcome(newRequestError, up))
        == Some(Delivered(StatusInternalServerError, TextPlain, Utf8(Forwardauth.Failure(newRequestError, up).value)))
    ensures !(newRequestError.None? && up.Response? && up.status != StatusOK && up.body.Failed?) ==>
      IntendedOutcome(newRequestError, up) == Outcome(newRequestError, up)
  {
    var e := IntendedOutcome(newRequestError, up);
    if Forwardauth.Failure(newRequestError, up).Some? {
      var m := Forwardauth.Failure(newRequestError, up).value;
      ReceiveOne(StatusInternalServerError, TextPlain, Utf8(m), [LogError(m)]);
      assert e == [Render(StatusInternalServerError, TextPlain, Utf8(m))] + [LogError(m)];
      assert e[1..][1..] == [];
    } else {
      assert e[1..] == [];
    }
  }

  /** The evidently intended auth headers: the proto read from the incoming request. */
  function IntendedAuthHeaders(httpMethod: string, incoming: Header, host: string): (h: Header)
    ensures h.Keys == Forwardauth.AuthHeaderNames
    ensures Get(h, XForwardedProto) == Forwardauth.Proto(incoming)
    ensures Get(incoming, XForwardedProto) != "" ==> Get(h, XForwardedProto) == Get(incoming, XForwardedProto)
  {
    AuthHeaders(httpMethod, incoming, host)[XForwardedProto := [Forwardauth.Proto(incoming)]]
  }

  /** The intended headers differ from those sent only in X-Forwarded-Proto, and only when the
      incoming request names a proto other than "https". */
  lemma IntendedHeadersDifferOnlyInProto(httpMethod: string, incoming: Header, host: string)
    ensures IntendedAuthHeaders(httpMethod, incoming, host) == AuthHeaders(httpMethod, incoming, host)
        <==> Forwardauth.Proto(incoming) == Forwardauth.DefaultProto
  {
    var sentHeaders := AuthHeaders(httpMethod, incoming, host);
    if IntendedAuthHeaders(httpMethod, incoming, host) == sentHeaders {
      assert Get(IntendedAuthHeaders(httpMethod, incoming, host), XForwardedProto) == Get(sentHeaders, XForwardedProto);
    } else {
      assert sentHeaders[XForwardedProto] == [Forwardauth.DefaultProto];
    }
  }
}
