/** The forwardauth package (forwardauth/forwardauth.go): an HTTP middleware that asks an auth
    service, with a GET carrying the X-Forwarded-* description of the incoming request, whether
    the request may pass. On 200 the auth service's Remote-User is put on the request and the
    wrapped handler answers; any other status is relayed to the client as the answer; an error
    on the way is answered with a 500 text response and logged.

    The upstream result and the outcome of http.NewRequest are inputs: what the auth service
    answers is outside the model. */
module Forwardauth {
  import opened Wrappers
  import opened Headers
  import opened Encoding
  import opened NetHttp
  import Lifecycle

  /** The timeout of the client that New creates when no option replaces it. */
  const DefaultClientTimeout: int := 10 * Lifecycle.Second

  /** The proto sent when the incoming request does not say. */
  const DefaultProto: string := "https"

  /** forwardauth.OptionFunc; WithHTTPClient is the only one the package defines. */
  datatype OptionFunc = WithHTTPClient(httpClient: Client)

  /** The header names the auth request carries. */
  const AuthHeaderNames: set<string> :=
    {XForwardedMethod, XForwardedProto, XForwardedHost, XForwardedUri, UserAgent, Cookie, Authorization}

  /** The X-Forwarded-Proto sent: the incoming one when it is non-empty, otherwise "https". */
  function Proto(incoming: Header): (p: string)
    ensures p != ""
    ensures Get(incoming, XForwardedProto) != "" ==> p == Get(incoming, XForwardedProto)
    ensures Get(incoming, XForwardedProto) == "" ==> p == DefaultProto
  {
    if Get(incoming, XForwardedProto) != "" then Get(incoming, XForwardedProto) else DefaultProto
  }

  /** The Authorization sent: the incoming one when it is non-empty; otherwise a Basic credential
      built from the URL's userinfo when the URL carries a password; otherwise "". */
  function Credential(incoming: Header, user: Option<Userinfo>): (a: string)
    ensures Get(incoming, Authorization) != "" ==> a == Get(incoming, Authorization)
    ensures Get(incoming, Authorization) == "" && user.Some? && user.value.password.Some? ==>
      a == BasicAuthorization(user.value.username, user.value.password.value)
    ensures Get(incoming, Authorization) == "" && !(user.Some? && user.value.password.Some?) ==> a == ""
  {
    var (password, ok) := Password(user);
    if Get(incoming, Authorization) == "" && ok then BasicAuthorization(Username(user), password)
    else Get(incoming, Authorization)
  }

  /** The header map of the auth request, for an incoming request with method `httpMethod`,
      userinfo `user` and headers `incoming`, whose URI is reported as `uri`. */
  function AuthHeaders(httpMethod: string, uri: string, user: Option<Userinfo>, incoming: Header, host: string): (h: Header)
    ensures h.Keys == AuthHeaderNames
    ensures forall k | k in h :: |h[k]| == 1
    ensures Get(h, XForwardedMethod) == httpMethod
    ensures Get(h, XForwardedProto) == Proto(incoming)
    ensures Get(h, XForwardedHost) == host
    ensures Get(h, XForwardedUri) == uri
    ensures Get(h, UserAgent) == Get(incoming, UserAgent)
    ensures Get(h, Cookie) == Get(incoming, Cookie)
    ensures Get(h, Authorization) == Credential(incoming, user)
  {
    map[XForwardedMethod := [httpMethod], XForwardedProto := [Proto(incoming)], XForwardedHost := [host],
        XForwardedUri := [uri], UserAgent := [Get(incoming, UserAgent)], Cookie := [Get(incoming, Cookie)],
        Authorization := [Credential(incoming, user)]]
  }

  /** The header construction of the handler, one Header.Set after another on the empty header
      map of a fresh request, then the Basic credential when no Authorization was copied. */
  method BuildAuthHeaders(httpMethod: string, uri: string, user: Option<Userinfo>, incoming: Header, host: string)
    returns (h: Header)
    ensures h == AuthHeaders(httpMethod, uri, user, incoming, host)
  {
    var proto := DefaultProto;
    if Get(incoming, XForwardedProto) != "" {
      proto := Get(incoming, XForwardedProto);
    }
    h := map[];
    h := Set(h, XForwardedMethod, httpMethod);
    h := Set(h, XForwardedProto, proto);
    h := Set(h, XForwardedHost, host);
    h := Set(h, XForwardedUri, uri);
    assert h == map[XForwardedMethod := [httpMethod], XForwardedProto := [proto], XForwardedHost := [host],
                    XForwardedUri := [uri]];
    h := Set(h, UserAgent, Get(incoming, UserAgent));
    h := Set(h, Cookie, Get(incoming, Cookie));
    h := Set(h, Authorization, Get(incoming, Authorization));
    ghost var copied := h;
    var (password, ok) := Password(user);
    if Get(h, Authorization) == "" && ok {
      h := Set(h, Authorization, BasicAuthorization(Username(user), password));
      assert h == copied[Authorization := [Credential(incoming, user)]];
    } else {
      assert h == copied[Authorization := [Credential(incoming, user)]];
    }
  }

  /** Why the handler answers with a 500: the request could not be built, the round trip failed,
      or the body of a non-200 answer could not be read. None when nothing failed. */
  function Failure(newRequestError: Option<string>, up: Upstream): (m: Option<string>)
    ensures m.None? <==> newRequestError.None? && up.Response? && (up.status == StatusOK || up.body.Complete?)
    ensures newRequestError.Some? ==> m == newRequestError
    ensures newRequestError.None? && up.TransportError? ==> m == Some(up.message)
    ensures newRequestError.None? && up.Response? && up.status != StatusOK && up.body.Failed? ==>
      m == Some(up.body.message)
  {
    if newRequestError.Some? then newRequestError
    else match up
      case TransportError(msg) => Some(msg)
      case Response(status, _, body) =>
        if status != StatusOK && body.Failed? then Some(body.message) else None
  }

  /** The auth service let the request through. */
  predicate Approved(newRequestError: Option<string>, up: Upstream) {
    newRequestError.None? && up.Response? && up.status == StatusOK
  }

  /** What the handler does after building the auth request: its effects on the response and the
      logger, in order, and the Remote-User it puts on the incoming request (None: untouched). */
  datatype Decision = Decision(effects: seq<Effect>, remoteUser: Option<string>)

  function Outcome(newRequestError: Option<string>, up: Upstream): (d: Decision)
    ensures d.remoteUser.Some? <==> Approved(newRequestError, up)
    ensures Approved(newRequestError, up) ==>
      d.effects == [ServeNext] && d.remoteUser == Some(Get(up.header, RemoteUser))
    ensures Failure(newRequestError, up).Some? ==>
      d.effects == [Text(StatusInternalServerError, Failure(newRequestError, up).value), LogError(Failure(newRequestError, up).value)]
    ensures Failure(newRequestError, up).None? && !Approved(newRequestError, up) ==>
      d.effects == [Data(up.status, up.body.bytes, Get(up.header, ContentType))]
  {
    if newRequestError.Some? then
      Decision([Text(StatusInternalServerError, newRequestError.value), LogError(newRequestError.value)], None)
    else match up
      case TransportError(msg) => Decision([Text(StatusInternalServerError, msg), LogError(msg)], None)
      case Response(status, header, body) =>
        if status != StatusOK then
          match body
          case Failed(_, msg) => Decision([Text(StatusInternalServerError, msg), LogError(msg)], None)
          case Complete(bytes) => Decision([Data(status, bytes, Get(header, ContentType))], None)
        else Decision([ServeNext], Some(Get(header, RemoteUser)))
  }

  /** forwardauth.ForwardAuth; the logger and renderer fields are not modelled (their calls are
      the LogError and Render effects). */
  class ForwardAuth {
    const url: string
    const xForwardedHost: string
    var httpClient: Client

    /** forwardauth.New: a client with a 10 s timeout, then each option in order, so the last
        WithHTTPClient wins. */
    constructor (url: string, xForwardedHost: string, opts: seq<OptionFunc>)
      ensures this.url == url && this.xForwardedHost == xForwardedHost
      ensures opts == [] ==> fresh(httpClient) && httpClient.timeout == DefaultClientTimeout
      ensures opts != [] ==> httpClient == opts[|opts| - 1].httpClient
    {
      this.url, this.xForwardedHost := url, xForwardedHost;
      httpClient := new Client(DefaultClientTimeout);
      new;
      ghost var initial := httpClient;
      for i := 0 to |opts|
        invariant i == 0 ==> httpClient == initial
        invariant i > 0 ==> httpClient == opts[i - 1].httpClient
      {
        httpClient := opts[i].httpClient;
      }
    }

    /** The handler returned by Handler(next), serving one request `r`. `sent` is the auth
        request handed to the client (None when http.NewRequest failed); `upstream` is what
        the client returned for it. */
    method Handler(r: Request, newRequestError: Option<string>, upstream: Upstream)
      returns (sent: Option<Outgoing>, effects: seq<Effect>)
      modifies r`header
      ensures newRequestError.Some? ==> sent.None?
      ensures newRequestError.None? ==>
        sent == Some(Outgoing("GET", url, AuthHeaders(r.httpMethod, RequestUri(r.url), r.url.user, old(r.header), xForwardedHost)))
      ensures effects == Outcome(newRequestError, upstream).effects
      ensures Outcome(newRequestError, upstream).remoteUser.Some? ==>
        r.header == Set(old(r.header), RemoteUser, Outcome(newRequestError, upstream).remoteUser.value)
      ensures Outcome(newRequestError, upstream).remoteUser.None? ==> r.header == old(r.header)
    {
      if newRequestError.Some? {
        sent := None;
        effects := [Text(StatusInternalServerError, newRequestError.value), LogError(newRequestError.value)];
        return;
      }
      var h := BuildAuthHeaders(r.httpMethod, RequestUri(r.url), r.url.user, r.header, xForwardedHost);
      sent := Some(Outgoing("GET", url, h));
      match upstream
      case TransportError(msg) =>
        effects := [Text(StatusInternalServerError, msg), LogError(msg)];
      case Response(status, header, body) =>
        if status != StatusOK {
          match body
          case Failed(_, msg) =>
            effects := [Text(StatusInternalServerError, msg), LogError(msg)];
          case Complete(bytes) =>
            effects := [Data(status, bytes, Get(header, ContentType))];
        } else {
          r.SetHeader(RemoteUser, Get(header, RemoteUser));
          effects := [ServeNext];
        }
    }
  }

  // ---- Properties of the handler ----

  /** Every request is answered exactly once: by one render or by the wrapped handler, never
      both; an error is logged exactly when the answer is the 500. */
  lemma {:induction false} AnsweredOnce(newRequestError: Option<string>, up: Upstream)
    ensures Renders(Outcome(newRequestError, up).effects) + NextCalls(Outcome(newRequestError, up).effects) == 1
    ensures NextCalls(Outcome(newRequestError, up).effects) == 1 <==> Approved(newRequestError, up)
    ensures (exists i | 0 <= i < |Outcome(newRequestError, up).effects| :: Outcome(newRequestError, up).effects[i].LogError?)
        <==> Failure(newRequestError, up).Some?
  {
    var e := Outcome(newRequestError, up).effects;
    assert |e| == 1 || |e| == 2;
    if |e| == 2 {
      assert e[1..][1..] == [];
    } else {
      assert e[1..] == [];
    }
  }

  /** What the client receives: the wrapped handler's answer on approval, the relayed upstream
      answer on another status, the error text with status 500 on a failure. */
  lemma {:induction false} ClientReceives(newRequestError: Option<string>, up: Upstream)
    ensures Approved(newRequestError, up) ==> Receive(Outcome(newRequestError, up).effects).None?
    ensures Failure(newRequestError, up).Some? ==>
      Receive(Outcome(newRequestError, up).effects)
        == Some(Delivered(StatusInternalServerError, TextPlain, Utf8(Failure(newRequestError, up).value)))
    ensures Failure(newRequestError, up).None? && !Approved(newRequestError, up) ==>
      Receive(Outcome(newRequestError, up).effects)
        == Some(Delivered(up.status, Get(up.header, ContentType), up.body.bytes))
  {
    var e := Outcome(newRequestError, up).effects;
    if Failure(newRequestError, up).Some? {
      var m := Failure(newRequestError, up).value;
      ReceiveOne(StatusInternalServerError, TextPlain, Utf8(m), [LogError(m)]);
      assert e == [Render(StatusInternalServerError, TextPlain, Utf8(m))] + [LogError(m)];
    } else if !Approved(newRequestError, up) {
      ReceiveOne(up.status, Get(up.header, ContentType), up.body.bytes, []);
      assert e == [Render(up.status, Get(up.header, ContentType), up.body.bytes)] + [];
    }
  }

  /** A Basic credential synthesised from the URL decodes to the URL's user-id and password. */
  lemma SynthesisedCredentialDecodes(httpMethod: string, uri: string, u: Userinfo, incoming: Header, host: string)
    requires Get(incoming, Authorization) == "" && u.password.Some?
    requires ':' !in u.username
    ensures var a := Get(AuthHeaders(httpMethod, uri, Some(u), incoming, host), Authorization);
      |a| > |BasicPrefix| && a[..|BasicPrefix|] == BasicPrefix &&
      match Unbase64(a[|BasicPrefix|..])
      case Some(bytes) => SplitAtColon(bytes) == Some((Utf8(u.username), Utf8(u.password.value)))
      case None => false
  {
    BasicAuthorizationRoundTrip(u.username, u.password.value);
  }
}
