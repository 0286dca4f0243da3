/** The parts of net/http and net/url that the forward-auth handlers use: the incoming request
    (a class, since a handler updates its header map in place), its URL, the HTTP client, what
    the auth round trip yields, and what a handler does to the response, together with what the
    client then receives. */
module NetHttp {
  import opened Wrappers
  import opened Headers
  import opened Encoding

  const StatusOK: int := 200
  const StatusInternalServerError: int := 500
  const TextPlain: string := "text/plain; charset=utf-8"

  /** url.Userinfo: a user name and an optional password. */
  datatype Userinfo = Userinfo(username: string, password: Option<string>)

  /** url.URL, reduced to what the handlers read. `path` is url.URL.Path, which net/url keeps
      decoded ("/a b"); `escapedPath` is what (*url.URL).EscapedPath returns ("/a%20b"): RawPath
      when it is a valid encoding of the path, the path escaped otherwise. A URL without
      userinfo has `user == None` (a nil *Userinfo). */
  datatype Url = Url(path: string, escapedPath: string, rawQuery: string, user: Option<Userinfo>)

  /** What net/url guarantees of the two forms of a path without modelling the escaping
      itself: they are empty together, and escaping never makes a path shorter (every
      character of the path stands for itself or for a `%XX` triple in the escaped form). */
  predicate EscapedForm(u: Url) {
    (u.path == "" <==> u.escapedPath == "") && |u.path| <= |u.escapedPath|
  }

  /** (*url.Userinfo).Password, which is also defined on a nil receiver. */
  function Password(u: Option<Userinfo>): (r: (string, bool))
    ensures r.1 <==> u.Some? && u.value.password.Some?
    ensures r.1 ==> r.0 == u.value.password.value
  {
    if u.Some? && u.value.password.Some? then (u.value.password.value, true) else ("", false)
  }

  /** (*url.Userinfo).Username, "" on a nil receiver. */
  function Username(u: Option<Userinfo>): string {
    if u.Some? then u.value.username else ""
  }

  /** (*url.URL).RequestURI for a URL that is not opaque: the escaped path ("/" when empty),
      then "?" and the query when there is one. */
  function RequestUri(u: Url): (r: string)
    ensures |r| > 0 && r[0] == (if u.escapedPath == "" then '/' else u.escapedPath[0])
    ensures u.rawQuery == "" ==> r == (if u.escapedPath == "" then "/" else u.escapedPath)
    ensures u.rawQuery != "" ==> |r| > |u.rawQuery| + 1 && r[|r| - |u.rawQuery| - 1..] == "?" + u.rawQuery
    ensures u.rawQuery != "" ==> r == (if u.escapedPath == "" then "/" else u.escapedPath) + "?" + u.rawQuery
    ensures |r| >= |u.escapedPath| && (u.rawQuery != "" ==> |r| > |u.escapedPath|)
  {
    (if u.escapedPath == "" then "/" else u.escapedPath) + (if u.rawQuery == "" then "" else "?" + u.rawQuery)
  }

  /** RequestURI differs from the bare escaped path exactly when that path is empty or a
      query is present. */
  lemma RequestUriIsPath(u: Url)
    ensures RequestUri(u) == u.escapedPath <==> u.escapedPath != "" && u.rawQuery == ""
  {
  }

  /** RequestURI equals the decoded path exactly when the path is non-empty, needs no
      escaping, and there is no query. */
  lemma RequestUriIsDecodedPath(u: Url)
    requires EscapedForm(u)
    ensures RequestUri(u) == u.path <==> u.path != "" && u.rawQuery == "" && u.escapedPath == u.path
  {
    if u.rawQuery != "" {
      assert |RequestUri(u)| > |u.escapedPath| >= |u.path|;
    }
  }

  /** An incoming *http.Request; the handler may update its header map. */
  class Request {
    const httpMethod: string
    const url: Url
    const remoteAddr: string
    var header: Header

    constructor (httpMethod: string, url: Url, remoteAddr: string, header: Header)
      ensures this.httpMethod == httpMethod && this.url == url && this.remoteAddr == remoteAddr
      ensures this.header == header
    {
      this.httpMethod, this.url, this.remoteAddr := httpMethod, url, remoteAddr;
      this.header := header;
    }

    /** r.Header.Set(key, v) */
    method SetHeader(key: string, v: string)
      modifies this`header
      ensures header == Set(old(header), key, v)
    {
      header := Set(header, key, v);
    }
  }

  /** An *http.Client; its timeout (in nanoseconds, 0 for none) bounds each round trip. */
  class Client {
    const timeout: int

    constructor (timeout: int)
      ensures this.timeout == timeout
    {
      this.timeout := timeout;
    }
  }

  /** The auth request the handler sends: method, target URL and header map. */
  datatype Outgoing = Outgoing(httpMethod: string, url: string, header: Header)

  /** The body of the auth response as io.ReadAll sees it: all of it, or the bytes read before
      the error that stopped it. */
  datatype Body = Complete(bytes: seq<byte>) | Failed(partial: seq<byte>, message: string)

  /** What http.Client.Do returns for the auth request: a transport error, or a response. */
  datatype Upstream = TransportError(message: string) | Response(status: int, header: Header, body: Body)

  /** What a handler does to the response writer and the logger, in order. `Render` is one
      renderer call (Text or Data): set Content-Type, WriteHeader(status), Write(body). */
  datatype Effect =
    | Render(status: int, contentType: string, body: seq<byte>)
    | LogError(message: string)
    | ServeNext            // handler.ServeHTTP(w, r): the wrapped handler answers

  /** renderer.Text(w, status, text) */
  function Text(status: int, text: string): Effect {
    Render(status, TextPlain, Utf8(text))
  }

  /** renderer.Data(w, status, bytes, contentType) */
  function Data(status: int, bytes: seq<byte>, contentType: string): Effect {
    Render(status, contentType, bytes)
  }

  /** How many renders and how many next-handler calls a sequence of effects holds. */
  function Renders(effects: seq<Effect>): (n: nat)
    ensures n <= |effects|
  {
    if effects == [] then 0 else (if effects[0].Render? then 1 else 0) + Renders(effects[1..])
  }

  function NextCalls(effects: seq<Effect>): (n: nat)
    ensures n <= |effects|
  {
    if effects == [] then 0 else (if effects[0].ServeNext? then 1 else 0) + NextCalls(effects[1..])
  }

  /** What the client receives from the renders: status and Content-Type of the first, and every
      body, concatenated. */
  datatype Delivered = Delivered(status: int, contentType: string, body: seq<byte>)

  /** The renders among the effects, in order. */
  function Rendered(effects: seq<Effect>): (r: seq<Effect>)
    ensures |r| == Renders(effects)
    ensures forall i | 0 <= i < |r| :: r[i].Render?
  {
    if effects == [] then [] else (if effects[0].Render? then [effects[0]] else []) + Rendered(effects[1..])
  }

  /** The bodies of all renders, one after the other. */
  function Bodies(effects: seq<Effect>): (b: seq<byte>)
    ensures Renders(effects) == 0 ==> b == []
  {
    if effects == [] then [] else (if effects[0].Render? then effects[0].body else []) + Bodies(effects[1..])
  }

  /** The response the client sees when the handler itself answered (None when it rendered
      nothing). net/http keeps the first WriteHeader and ignores later ones, a header set after
      WriteHeader is not sent, and every Write appends to the body. */
  function Receive(effects: seq<Effect>): (d: Option<Delivered>)
    ensures d.None? <==> Renders(effects) == 0
    ensures d.Some? ==> d.value.status == Rendered(effects)[0].status
    ensures d.Some? ==> d.value.contentType == Rendered(effects)[0].contentType
    ensures d.Some? ==> d.value.body == Bodies(effects)
    ensures effects != [] && effects[0].Render? ==>
      d.Some? && d.value.status == effects[0].status && d.value.contentType == effects[0].contentType
  {
    if effects == [] then None
    else
      var rest := Receive(effects[1..]);
      match effects[0]
      case Render(s, ct, b) => Some(Delivered(s, ct, b + (if rest.Some? then rest.value.body else [])))
      case _ => rest
  }

  /** A single render is delivered as it was made. */
  lemma ReceiveOne(status: int, contentType: string, body: seq<byte>, tail: seq<Effect>)
    requires Renders(tail) == 0
    ensures Receive([Render(status, contentType, body)] + tail) == Some(Delivered(status, contentType, body))
  {
    assert ([Render(status, contentType, body)] + tail)[1..] == tail;
    assert Receive(tail) == None;
    assert body + [] == body;
  }
}
