/** The logger package (logger/logger.go): the attribute renaming of its JSON handler, and the
    two attribute builders, for an error and for an incoming request. The request builder logs
    a clone of the request headers with the Cookie and Authorization values masked. */
module Logger {
  import opened Wrappers
  import opened Headers
  import opened NetHttp
  import opened Slog

  const MessageName: string := "message"
  const LevelName: string := "log.level"
  const TimestampName: string := "@timestamp"

  const ClientIpKey: string := "client.ip"
  const ClientAddressKey: string := "client.address"
  const UserAgentKey: string := "user_agent.original"
  const HeadersRawKey: string := "http.request.headers.raw"
  const MaskedValue: string := "<masked>"

  // ---- ReplaceAttr ----

  /** The key ReplaceAttr gives an attribute with key `k`: the three built-in keys are renamed,
      every other key is kept. */
  function RenameKey(k: string): (r: string)
    ensures k == MessageKey ==> r == MessageName
    ensures k == LevelKey ==> r == LevelName
    ensures k == TimeKey ==> r == TimestampName
    ensures k != MessageKey && k != LevelKey && k != TimeKey ==> r == k
  {
    if k == MessageKey then MessageName
    else if k == LevelKey then LevelName
    else if k == TimeKey then TimestampName
    else k
  }

  /** The ReplaceAttr closure of newSlogger, as its three `if`s run one after the other (the
      group path is not consulted). None stands for the panic of a.Value.Time() on a "time"
      attribute whose value is not a time. */
  function ReplaceAttr(groups: seq<string>, a: Attr): (r: Option<Attr>)
    ensures a.key != TimeKey ==> r == Some(Attr(RenameKey(a.key), a.value))
    ensures a.key == TimeKey && a.value.TimeValue? ==> r == Some(Attr(TimestampName, TimestampString(a.value.instant)))
    ensures a.key == TimeKey && !a.value.TimeValue? ==> r.None?
  {
    var k1 := if a.key == MessageKey then MessageName else a.key;
    var k2 := if k1 == LevelKey then LevelName else k1;
    if k2 == TimeKey then
      if a.value.TimeValue? then Some(Attr(TimestampName, TimestampString(a.value.instant))) else None
    else Some(Attr(k2, a.value))
  }

  /** Renaming is idempotent: no renamed key is one of the built-in keys again. */
  lemma RenameKeyIdempotent(k: string)
    ensures RenameKey(RenameKey(k)) == RenameKey(k)
    ensures RenameKey(k) != MessageKey && RenameKey(k) != LevelKey && RenameKey(k) != TimeKey
  {
  }

  /** A built-in attribute renamed once is left alone by a second pass. */
  lemma {:induction false} ReplaceAttrTwice(groups: seq<string>, a: Attr)
    requires ReplaceAttr(groups, a).Some?
    ensures ReplaceAttr(groups, ReplaceAttr(groups, a).value) == ReplaceAttr(groups, a)
  {
    RenameKeyIdempotent(a.key);
  }

  // ---- GetSlogAttrFromError ----

  /** GetSlogAttrFromError for an error whose text is `message`, with `stack` the text of
      debug.Stack() at the call. */
  function GetSlogAttrFromError(message: string, stack: string): (a: Attr)
    ensures a.key == "error" && a.value.GroupValue?
    ensures Keys(a.value.attrs) == ["message", "stack_trace"]
    ensures Find(a.value.attrs, "message") == Some(StringValue(message))
    ensures Find(a.value.attrs, "stack_trace") == Some(StringValue(stack))
  {
    Attr("error", GroupValue([Attr("message", StringValue(message)), Attr("stack_trace", StringValue(stack))]))
  }

  // ---- GetSlogAttrFromRequest ----

  /** The clone of the request headers that is logged: a Cookie or an Authorization whose first
      value is non-empty becomes the single value "<masked>"; everything else is as it was. */
  function Mask(h: Header): (m: Header)
    ensures m.Keys == h.Keys
    ensures forall k | k in h && k != Cookie && k != Authorization :: m[k] == h[k]
    ensures Get(h, Cookie) != "" ==> m[Cookie] == [MaskedValue]
    ensures Get(h, Cookie) == "" && Cookie in h ==> m[Cookie] == h[Cookie]
    ensures Get(h, Authorization) != "" ==> m[Authorization] == [MaskedValue]
    ensures Get(h, Authorization) == "" && Authorization in h ==> m[Authorization] == h[Authorization]
  {
    map k | k in h :: if (k == Cookie || k == Authorization) && Get(h, k) != "" then [MaskedValue] else h[k]
  }

  /** Where each attribute of the request group stands in the group. */
  function Rank(key: string): int {
    if key == ClientIpKey then 0
    else if key == ClientAddressKey then 1
    else if key == UserAgentKey then 2
    else if key == HeadersRawKey then 3
    else 4
  }

  /** The attribute `a` when `present`, nothing otherwise. */
  function AttrIf(present: bool, a: Attr): seq<Attr> {
    if present then [a] else []
  }

  /** The attributes of the request group, for request headers `h` and the host part
      `clientIp` of the remote address. */
  function RequestAttrs(h: Header, clientIp: string): (attrs: seq<Attr>)
    ensures 1 <= |attrs| <= 4 && attrs[0] == Attr(ClientIpKey, StringValue(clientIp))
  {
    [Attr(ClientIpKey, StringValue(clientIp))]
    + AttrIf(Get(h, XForwardedFor) != "", Attr(ClientAddressKey, StringValue(Get(h, XForwardedFor))))
    + AttrIf(Get(h, UserAgent) != "", Attr(UserAgentKey, StringValue(Get(h, UserAgent))))
    + AttrIf(|h| > 0, Attr(HeadersRawKey, HeadersJson(Mask(h))))
  }

  lemma {:induction false} FindConcat(a: seq<Attr>, b: seq<Attr>, key: string)
    ensures Find(a + b, key) == if Find(a, key).Some? then Find(a, key) else Find(b, key)
  {
    if a != [] {
      assert (a + b)[0] == a[0];
      assert (a + b)[1..] == a[1..] + b;
      FindConcat(a[1..], b, key);
    } else {
      assert a + b == b;
    }
  }

  /** Each optional attribute of the request group is present exactly when its source is
      non-empty, and then carries that value; the raw headers are the masked clone. */
  lemma {:induction false} RequestAttrsPresence(h: Header, clientIp: string)
    ensures Find(RequestAttrs(h, clientIp), ClientIpKey) == Some(StringValue(clientIp))
    ensures Find(RequestAttrs(h, clientIp), ClientAddressKey)
         == if Get(h, XForwardedFor) != "" then Some(StringValue(Get(h, XForwardedFor))) else None
    ensures Find(RequestAttrs(h, clientIp), UserAgentKey)
         == if Get(h, UserAgent) != "" then Some(StringValue(Get(h, UserAgent))) else None
    ensures Find(RequestAttrs(h, clientIp), HeadersRawKey) == if |h| > 0 then Some(HeadersJson(Mask(h))) else None
  {
    var ip := [Attr(ClientIpKey, StringValue(clientIp))];
    var address := AttrIf(Get(h, XForwardedFor) != "", Attr(ClientAddressKey, StringValue(Get(h, XForwardedFor))));
    var agent := AttrIf(Get(h, UserAgent) != "", Attr(UserAgentKey, StringValue(Get(h, UserAgent))));
    var raw := AttrIf(|h| > 0, Attr(HeadersRawKey, HeadersJson(Mask(h))));
    FindConcat(ip + address + agent, raw, ClientIpKey);
    FindConcat(ip + address + agent, raw, ClientAddressKey);
    FindConcat(ip + address + agent, raw, UserAgentKey);
    FindConcat(ip + address + agent, raw, HeadersRawKey);
    FindConcat(ip + address, agent, ClientIpKey);
    FindConcat(ip + address, agent, ClientAddressKey);
    FindConcat(ip + address, agent, UserAgentKey);
    FindConcat(ip + address, agent, HeadersRawKey);
    FindConcat(ip, address, ClientIpKey);
    FindConcat(ip, address, ClientAddressKey);
    FindConcat(ip, address, UserAgentKey);
    FindConcat(ip, address, HeadersRawKey);
  }

  /** The request group lists its attributes in the order client.ip, client.address,
      user_agent.original, http.request.headers.raw, each at most once. */
  lemma RequestAttrsOrder(h: Header, clientIp: string)
    ensures forall i, j | 0 <= i < j < |RequestAttrs(h, clientIp)| ::
      Rank(RequestAttrs(h, clientIp)[i].key) < Rank(RequestAttrs(h, clientIp)[j].key)
  {
  }

  /** The clone of the request headers with Cookie and Authorization masked by Header.Set. */
  method MaskedClone(reqHeaders: Header) returns (h: Header)
    ensures h == Mask(reqHeaders)
  {
    h := reqHeaders;
    if Get(h, Cookie) != "" {
      h := Set(h, Cookie, MaskedValue);
    }
    if Get(h, Authorization) != "" {
      h := Set(h, Authorization, MaskedValue);
    }
  }

  /** GetSlogAttrFromRequest: the attributes appended one after another; `clientIp` is the host
      that net.SplitHostPort returns for req.RemoteAddr ("" when it fails). The request itself
      is not changed (no modifies). */
  method GetSlogAttrFromRequest(req: Request, clientIp: string) returns (a: Attr)
    ensures a == Attr("", GroupValue(RequestAttrs(req.header, clientIp)))
  {
    var attrs: seq<Attr> := [];
    var reqHeaders := req.header;
    attrs := attrs + [Attr(ClientIpKey, StringValue(clientIp))];
    if Get(reqHeaders, XForwardedFor) != "" {
      attrs := attrs + [Attr(ClientAddressKey, StringValue(Get(reqHeaders, XForwardedFor)))];
    }
    if Get(reqHeaders, UserAgent) != "" {
      attrs := attrs + [Attr(UserAgentKey, StringValue(Get(reqHeaders, UserAgent)))];
    }
    ghost var described := attrs;
    assert described == [Attr(ClientIpKey, StringValue(clientIp))]
      + AttrIf(Get(reqHeaders, XForwardedFor) != "", Attr(ClientAddressKey, StringValue(Get(reqHeaders, XForwardedFor))))
      + AttrIf(Get(reqHeaders, UserAgent) != "", Attr(UserAgentKey, StringValue(Get(reqHeaders, UserAgent))));
    var h := MaskedClone(reqHeaders);
    if |h| > 0 {
      attrs := attrs + [Attr(HeadersRawKey, HeadersJson(h))];
    }
    assert attrs == described + AttrIf(|reqHeaders| > 0, Attr(HeadersRawKey, HeadersJson(Mask(reqHeaders))));
    a := Attr("", GroupValue(attrs));
  }

  // ---- Finding: only the first Cookie / Authorization value is checked ----

  /** As written, a Cookie whose first value is empty is logged in full, later values
      included. */
  lemma MaskKeepsCookieAfterEmptyFirst()
    ensures Mask(map[Cookie := ["", "secret"]])[Cookie] == ["", "secret"]
  {
  }

  /** The evidently intended masking: a Cookie or Authorization with any non-empty value is
      masked. */
  function MaskAll(h: Header): (m: Header)
    ensures m.Keys == h.Keys
    ensures forall k | k in h && k != Cookie && k != Authorization :: m[k] == h[k]
  {
    map k | k in h :: if (k == Cookie || k == Authorization) && (exists i | 0 <= i < |h[k]| :: h[k][i] != "") then [MaskedValue] else h[k]
  }

  /** With MaskAll no non-empty Cookie or Authorization value survives, and it agrees with the
      masking as written whenever the first value is non-empty or there are no values at all. */
  lemma {:induction false} MaskAllHidesEveryValue(h: Header, k: string)
    requires k == Cookie || k == Authorization
    requires k in h
    ensures forall i | 0 <= i < |MaskAll(h)[k]| :: MaskAll(h)[k][i] == "" || MaskAll(h)[k][i] == MaskedValue
    ensures Get(h, k) != "" || h[k] == [] ==> MaskAll(h)[k] == Mask(h)[k]
  {
    if Get(h, k) != "" {
      assert h[k][0] != "";
    }
  }
}
