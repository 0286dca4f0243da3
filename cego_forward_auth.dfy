/** The root package's forward-auth middleware (forward_auth.go). It is the forwardauth package's
    handler with one difference: X-Forwarded-Uri carries the URL path alone, without the query
    that RequestURI would add. The header construction and the decision are shared with the
    Forwardauth module. */
module CegoForwardAuth {
  import opened Wrappers
  import opened Headers
  import opened NetHttp
  import Forwardauth

  /** cego.OptionsForwardAuthFunc; WithHTTPClient is the only one the file defines. */
  datatype OptionsForwardAuthFunc = WithHTTPClient(httpClient: Client)

  /** cego.ForwardAuth; logger and renderer are not modelled. */
  class ForwardAuth {
    const forwardAuthUrl: string
    const forwardAuthXForwardedHost: string
    var httpClient: Client

    /** cego.NewForwardAuth: a client with a 10 s timeout, then each option in order. */
    constructor (forwardAuthUrl: string, forwardAuthXForwardedHost: string, opts: seq<OptionsForwardAuthFunc>)
      ensures this.forwardAuthUrl == forwardAuthUrl && this.forwardAuthXForwardedHost == forwardAuthXForwardedHost
      ensures opts == [] ==> fresh(httpClient) && httpClient.timeout == Forwardauth.DefaultClientTimeout
      ensures opts != [] ==> httpClient == opts[|opts| - 1].httpClient
    {
      this.forwardAuthUrl, this.forwardAuthXForwardedHost := forwardAuthUrl, forwardAuthXForwardedHost;
      httpClient := new Client(Forwardauth.DefaultClientTimeout);
      new;
      ghost var initial := httpClient;
      for i := 0 to |opts|
        invariant i == 0 ==> httpClient == initial
        invariant i > 0 ==> httpClient == opts[i - 1].httpClient
      {
        httpClient := opts[i].httpClient;
      }
    }

    /** The handler returned by Handler(next), serving one request `r`. */
    method Handler(r: Request, newRequestError: Option<string>, upstream: Upstream)
      returns (sent: Option<Outgoing>, effects: seq<Effect>)
      modifies r`header
      ensures newRequestError.Some? ==> sent.None?
      ensures newRequestError.None? ==>
        sent == Some(Outgoing("GET", forwardAuthUrl,
          Forwardauth.AuthHeaders(r.httpMethod, r.url.path, r.url.user, old(r.header), forwardAuthXForwardedHost)))
      ensures effects == Forwardauth.Outcome(newRequestError, upstream).effects
      ensures Forwardauth.Outcome(newRequestError, upstream).remoteUser.Some? ==>
        r.header == Set(old(r.header), RemoteUser, Forwardauth.Outcome(newRequestError, upstream).remoteUser.value)
      ensures Forwardauth.Outcome(newRequestError, upstream).remoteUser.None? ==> r.header == old(r.header)
    {
      if newRequestError.Some? {
        sent := None;
        effects := [Text(StatusInternalServerError, newRequestError.value), LogError(newRequestError.value)];
        return;
      }
      var h := Forwardauth.BuildAuthHeaders(r.httpMethod, r.url.path, r.url.user, r.header, forwardAuthXForwardedHost);
      sent := Some(Outgoing("GET", forwardAuthUrl, h));
      match upstream
      case TransportError(msg) =>
        effects := [Text(StatusInternalServerError, msg), LogError(msg)];
      case Response(status, header, body) =>
        if status != StatusOK {
          match body
          case Failed(_, msg) =>
            effects := [Text(StatusInternalServerError, msg), LogError(msg)];
          case Complete(bytes) =>
            effects := [Data(status, bytes, Get(header, ContentType))];
        } else {
          r.SetHeader(RemoteUser, Get(header, RemoteUser));
          effects := [ServeNext];
        }
    }
  }

  /** The auth request of this handler and that of the forwardauth package differ in
      X-Forwarded-Uri alone: this one sends the decoded path, the other RequestURI, built on
      the escaped path. They coincide exactly when the path is non-empty, needs no escaping,
      and the URL has no query. */
  lemma {:induction false} UriIsPathNotRequestUri(httpMethod: string, url: Url, incoming: Header, host: string)
    requires EscapedForm(url)
    ensures Forwardauth.AuthHeaders(httpMethod, url.path, url.user, incoming, host)
         == Forwardauth.AuthHeaders(httpMethod, RequestUri(url), url.user, incoming, host)[XForwardedUri := [url.path]]
    ensures Forwardauth.AuthHeaders(httpMethod, url.path, url.user, incoming, host)
            == Forwardauth.AuthHeaders(httpMethod, RequestUri(url), url.user, incoming, host)
        <==> url.path != "" && url.rawQuery == "" && url.escapedPath == url.path
  {
    var viaPath := Forwardauth.AuthHeaders(httpMethod, url.path, url.user, incoming, host);
    var viaUri := Forwardauth.AuthHeaders(httpMethod, RequestUri(url), url.user, incoming, host);
    RequestUriIsDecodedPath(url);
    if viaPath == viaUri {
      assert Get(viaPath, XForwardedUri) == Get(viaUri, XForwardedUri);
    }
  }

  /** A request for "/a%20b": this handler sends the decoded "/a b", the forwardauth package
      sends "/a%20b". */
  lemma PercentEncodedPathDiffers(httpMethod: string, incoming: Header, host: string)
    ensures var url := Url("/a b", "/a%20b", "", None);
      Get(Forwardauth.AuthHeaders(httpMethod, url.path, url.user, incoming, host), XForwardedUri) == "/a b"
      && Get(Forwardauth.AuthHeaders(httpMethod, RequestUri(url), url.user, incoming, host), XForwardedUri) == "/a%20b"
  {
  }
}
