/** The header names of headers/consts.go and the two net/http.Header operations the core uses.
    Keys are taken to be in canonical form already, so Get and Set do no canonicalisation. */
module Headers {
  const XForwardedProto: string := "X-Forwarded-Proto"
  const XForwardedMethod: string := "X-Forwarded-Method"
  const XForwardedHost: string := "X-Forwarded-Host"
  const XForwardedUri: string := "X-Forwarded-Uri"
  const Accept: string := "Accept"
  const UserAgent: string := "User-Agent"
  const Cookie: string := "Cookie"
  const Authorization: string := "Authorization"
  const RemoteUser: string := "Remote-User"
  const ContentType: string := "Content-Type"
  /** Used by both loggers; it is not among the constants of headers/consts.go. */
  const XForwardedFor: string := "X-Forwarded-For"

  /** http.Header: each key maps to its list of values. */
  type Header = map<string, seq<string>>

  /** True when `h` has a value list for `key` with at least one value. */
  predicate HasValue(h: Header, key: string) {
    key in h && |h[key]| > 0
  }

  /** Header.Get: the first value for `key`, or "" when there is none. */
  function Get(h: Header, key: string): (v: string)
    ensures HasValue(h, key) ==> v == h[key][0]
    ensures !HasValue(h, key) ==> v == ""
  {
    if HasValue(h, key) then h[key][0] else ""
  }

  /** Header.Set: the value list for `key` becomes the single value `v`; nothing else changes. */
  function Set(h: Header, key: string, v: string): (r: Header)
    ensures key in r && r[key] == [v]
  {
    h[key := [v]]
  }

  /** Set leaves every other key as it was, and adds `key` to the keys. */
  lemma SetOnlyTouchesKey(h: Header, key: string, v: string)
    ensures Set(h, key, v).Keys == h.Keys + {key}
    ensures forall k | k in h && k != key :: Set(h, key, v)[k] == h[k]
  {
  }

  /** Get after Set sees the value just set, and only that key is affected. */
  lemma GetAfterSet(h: Header, key: string, v: string, other: string)
    ensures Get(Set(h, key, v), key) == v
    ensures other != key ==> Get(Set(h, key, v), other) == Get(h, other)
  {
  }

  /** Setting a key twice keeps only the second value; setting it to its current single value
      changes nothing. */
  lemma SetTwice(h: Header, key: string, v: string, w: string)
    ensures Set(Set(h, key, v), key, w) == Set(h, key, w)
    ensures key in h && h[key] == [v] ==> Set(h, key, v) == h
  {
  }
}
