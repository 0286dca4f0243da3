/** The byte encodings behind a synthesised Basic credential: the UTF-8 bytes of a Go string
    conversion `[]byte(s)`, the padded standard Base64 alphabet of section 4 of RFC 4648
    (base64.StdEncoding), and the `user-id ":" password` layout of section 2 of RFC 7617. */
module Encoding {
  import opened Wrappers

  type byte = x: int | 0 <= x < 256

  // ---- UTF-8 ----

  /** The UTF-8 bytes of one Unicode scalar value. */
  function EncodeRune(c: char): (r: seq<byte>)
    ensures 1 <= |r| <= 4
    ensures |r| == 1 <==> (c as int) < 0x80
    ensures |r| == 1 ==> r[0] == c as int
    ensures |r| > 1 ==> forall i | 0 <= i < |r| :: r[i] >= 0x80
  {
    var n := c as int;
    if n < 0x80 then [n]
    else if n < 0x800 then [0xC0 + n / 64, 0x80 + n % 64]
    else if n < 0x10000 then [0xE0 + n / 4096, 0x80 + (n / 64) % 64, 0x80 + n % 64]
    else [0xF0 + (n / 262144) % 8, 0x80 + (n / 4096) % 64, 0x80 + (n / 64) % 64, 0x80 + n % 64]
  }

  /** []byte(s) */
  function Utf8(s: string): (r: seq<byte>)
    ensures |r| >= |s|
    ensures s == [] <==> r == []
  {
    if s == [] then [] else EncodeRune(s[0]) + Utf8(s[1..])
  }

  lemma {:induction false} Utf8Concat(a: string, b: string)
    ensures Utf8(a + b) == Utf8(a) + Utf8(b)
  {
    if a == [] {
      assert a + b == b;
    } else {
      assert (a + b)[0] == a[0];
      assert (a + b)[1..] == a[1..] + b;
      Utf8Concat(a[1..], b);
    }
  }

  /** A byte below 0x80 occurs in the encoding only where the same character occurs in the
      string: in particular a string without ':' has no 0x3A byte. */
  lemma {:induction false} Utf8AsciiByte(s: string, c: char)
    requires (c as int) < 0x80
    requires c !in s
    ensures (c as int) !in Utf8(s)
  {
    if s != [] {
      Utf8AsciiByte(s[1..], c);
      var r := EncodeRune(s[0]);
      if |r| == 1 {
        assert r == [s[0] as int];
      } else {
        assert forall i | 0 <= i < |r| :: r[i] != c as int;
      }
      assert Utf8(s) == r + Utf8(s[1..]);
    }
  }

  // ---- Base64 (section 4 of RFC 4648, with padding) ----

  /** The character of the standard alphabet for the 6-bit value `v`. */
  function Symbol(v: int): (c: char)
    requires 0 <= v < 64
  {
    if v < 26 then (v + 65) as char           // 'A'..'Z'
    else if v < 52 then (v - 26 + 97) as char // 'a'..'z'
    else if v < 62 then (v - 52 + 48) as char // '0'..'9'
    else if v == 62 then '+'
    else '/'
  }

  /** The 6-bit value of a character of the standard alphabet; None for any other character,
      the padding character '=' included. */
  function SymbolValue(c: char): (v: Option<int>)
    ensures v.Some? ==> 0 <= v.value < 64 && Symbol(v.value) == c
  {
    if 'A' <= c <= 'Z' then Some(c as int - 65)
    else if 'a' <= c <= 'z' then Some(c as int - 97 + 26)
    else if '0' <= c <= '9' then Some(c as int - 48 + 52)
    else if c == '+' then Some(62)
    else if c == '/' then Some(63)
    else None
  }

  lemma SymbolRoundTrip(v: int)
    requires 0 <= v < 64
    ensures SymbolValue(Symbol(v)) == Some(v)
    ensures Symbol(v) != '='
  {
  }

  const Pad: char := '='

  /** Three bytes as four symbols. */
  function EncodeBlock(b0: byte, b1: byte, b2: byte): string {
    [Symbol(b0 / 4), Symbol((b0 % 4) * 16 + b1 / 16), Symbol((b1 % 16) * 4 + b2 / 64), Symbol(b2 % 64)]
  }

  /** base64.StdEncoding.EncodeToString: every three bytes become four symbols; a final one or
      two bytes become two or three symbols padded with '=' to four. */
  function Base64(b: seq<byte>): (s: string)
    ensures |b| > 0 <==> |s| > 0
  {
    if |b| == 0 then ""
    else if |b| == 1 then [Symbol(b[0] / 4), Symbol((b[0] % 4) * 16), Pad, Pad]
    else if |b| == 2 then [Symbol(b[0] / 4), Symbol((b[0] % 4) * 16 + b[1] / 16), Symbol((b[1] % 16) * 4), Pad]
    else EncodeBlock(b[0], b[1], b[2]) + Base64(b[3..])
  }

  /** The encoding is a whole number of quartets. */
  lemma {:induction false} Base64Length(b: seq<byte>)
    ensures |Base64(b)| % 4 == 0
    decreases |b|
  {
    if |b| >= 3 {
      Base64Length(b[3..]);
      assert |Base64(b)| == 4 + |Base64(b[3..])|;
    }
  }

  /** Four symbols without padding as three bytes. */
  function DecodeBlock(q: string): Option<seq<byte>>
    requires |q| == 4
  {
    match (SymbolValue(q[0]), SymbolValue(q[1]), SymbolValue(q[2]), SymbolValue(q[3]))
    case (Some(c0), Some(c1), Some(c2), Some(c3)) =>
      Some([c0 * 4 + c1 / 16, (c1 % 16) * 16 + c2 / 4, (c2 % 4) * 64 + c3])
    case _ => None
  }

  /** The last quartet, which may end in one or two padding characters. */
  function DecodeLast(q: string): Option<seq<byte>>
    requires |q| == 4
  {
    if q[2] == Pad && q[3] == Pad then
      match (SymbolValue(q[0]), SymbolValue(q[1]))
      case (Some(c0), Some(c1)) => Some([c0 * 4 + c1 / 16])
      case _ => None
    else if q[3] == Pad then
      match (SymbolValue(q[0]), SymbolValue(q[1]), SymbolValue(q[2]))
      case (Some(c0), Some(c1), Some(c2)) => Some([c0 * 4 + c1 / 16, (c1 % 16) * 16 + c2 / 4])
      case _ => None
    else DecodeBlock(q)
  }

  /** The inverse of Base64, used to state what the encoding preserves. Padding is accepted only
      in the last quartet. */
  function Unbase64(s: string): Option<seq<byte>>
  {
    if |s| == 0 then Some([])
    else if |s| < 4 then None
    else if |s| == 4 then DecodeLast(s)
    else match (DecodeBlock(s[..4]), Unbase64(s[4..]))
      case (Some(b), Some(rest)) => Some(b + rest)
      case _ => None
  }

  /** Splitting `x * k + y` back into its quotient and remainder, for the three divisors used. */
  lemma DivMod(x: int, y: int)
    requires 0 <= x && 0 <= y
    ensures y < 4 ==> (x * 4 + y) / 4 == x && (x * 4 + y) % 4 == y
    ensures y < 16 ==> (x * 16 + y) / 16 == x && (x * 16 + y) % 16 == y
    ensures y < 64 ==> (x * 64 + y) / 64 == x && (x * 64 + y) % 64 == y
  {
  }

  lemma BlockRoundTrip(b0: byte, b1: byte, b2: byte)
    ensures DecodeBlock(EncodeBlock(b0, b1, b2)) == Some([b0, b1, b2])
    ensures DecodeLast(EncodeBlock(b0, b1, b2)) == Some([b0, b1, b2])
  {
    var c0, c1, c2, c3 := b0 / 4, (b0 % 4) * 16 + b1 / 16, (b1 % 16) * 4 + b2 / 64, b2 % 64;
    SymbolRoundTrip(c0);
    SymbolRoundTrip(c1);
    SymbolRoundTrip(c2);
    SymbolRoundTrip(c3);
    DivMod(b0 % 4, b1 / 16);
    DivMod(b1 % 16, b2 / 64);
    assert c0 * 4 + c1 / 16 == b0;
    assert (c1 % 16) * 16 + c2 / 4 == b1;
    assert (c2 % 4) * 64 + c3 == b2;
  }

  lemma OneByteRoundTrip(b0: byte)
    ensures DecodeLast(Base64([b0])) == Some([b0])
  {
    var c0, c1 := b0 / 4, (b0 % 4) * 16;
    SymbolRoundTrip(c0);
    SymbolRoundTrip(c1);
    DivMod(b0 % 4, 0);
    assert c0 * 4 + c1 / 16 == b0;
  }

  lemma TwoBytesRoundTrip(b0: byte, b1: byte)
    ensures DecodeLast(Base64([b0, b1])) == Some([b0, b1])
  {
    var c0, c1, c2 := b0 / 4, (b0 % 4) * 16 + b1 / 16, (b1 % 16) * 4;
    SymbolRoundTrip(c0);
    SymbolRoundTrip(c1);
    SymbolRoundTrip(c2);
    DivMod(b0 % 4, b1 / 16);
    DivMod(b1 % 16, 0);
    assert c0 * 4 + c1 / 16 == b0;
    assert (c1 % 16) * 16 + c2 / 4 == b1;
  }

  /** Base64 loses nothing: decoding the encoding gives the bytes back. */
  lemma {:induction false} Base64RoundTrip(b: seq<byte>)
    ensures Unbase64(Base64(b)) == Some(b)
    decreases |b|
  {
    if 0 < |b| <= 3 {
      LastRoundTrip(b);
    } else if |b| > 3 {
      Base64RoundTrip(b[3..]);
      BlockThenRest(b);
    }
  }

  lemma FirstThree(b: seq<byte>)
    requires |b| >= 3
    ensures b == [b[0], b[1], b[2]] + b[3..]
    ensures |b| == 3 ==> b == [b[0], b[1], b[2]]
  {
  }

  lemma Short(b: seq<byte>)
    ensures |b| == 1 ==> b == [b[0]]
    ensures |b| == 2 ==> b == [b[0], b[1]]
  {
  }

  /** The last one, two or three bytes come back from the final quartet. */
  lemma LastRoundTrip(b: seq<byte>)
    requires 0 < |b| <= 3
    ensures Unbase64(Base64(b)) == Some(b)
  {
    Short(b);
    if |b| == 1 {
      OneByteRoundTrip(b[0]);
    } else if |b| == 2 {
      TwoBytesRoundTrip(b[0], b[1]);
    } else {
      LastBlockRoundTrip(b);
    }
  }

  lemma LastBlockRoundTrip(b: seq<byte>)
    requires |b| == 3
    ensures Unbase64(Base64(b)) == Some(b)
  {
    var q := EncodeBlock(b[0], b[1], b[2]);
    BlockRoundTrip(b[0], b[1], b[2]);
    assert Base64(b[3..]) == [];
    assert Base64(b) == q + [];
    assert Base64(b) == q;
    assert Unbase64(q) == DecodeLast(q);
    FirstThree(b);
  }

  /** A leading full block decodes in front of whatever the rest decodes to. */
  lemma BlockThenRest(b: seq<byte>)
    requires |b| > 3
    requires Unbase64(Base64(b[3..])) == Some(b[3..])
    ensures Unbase64(Base64(b)) == Some(b)
  {
    var q, rest := EncodeBlock(b[0], b[1], b[2]), Base64(b[3..]);
    BlockRoundTrip(b[0], b[1], b[2]);
    assert Base64(b) == q + rest;
    assert |rest| > 0;
    Unbase64Cons(q, rest);
    assert Unbase64(q + rest) == Some([b[0], b[1], b[2]] + b[3..]);
    FirstThree(b);
  }

  lemma Unbase64Cons(q: string, rest: string)
    requires |q| == 4 && |rest| > 0
    ensures Unbase64(q + rest) == match (DecodeBlock(q), Unbase64(rest))
      case (Some(b), Some(r)) => Some(b + r)
      case _ => None
  {
    assert (q + rest)[..4] == q;
    assert (q + rest)[4..] == rest;
  }

  // ---- Basic credentials (section 2 of RFC 7617) ----

  const BasicPrefix: string := "Basic "

  /** "Basic " + base64.StdEncoding.EncodeToString([]byte(user + ":" + password)) */
  function BasicAuthorization(user: string, password: string): string {
    BasicPrefix + Base64(Utf8(user + ":" + password))
  }

  /** The credential bytes split at their first ':' byte (0x3A), as a server reads them. */
  function SplitAtColon(b: seq<byte>): (r: Option<(seq<byte>, seq<byte>)>)
    ensures r.Some? ==> r.value.0 + [0x3A] + r.value.1 == b && 0x3A !in r.value.0
    ensures r.None? ==> 0x3A !in b
  {
    if b == [] then None
    else if b[0] == 0x3A then Some(([], b[1..]))
    else match SplitAtColon(b[1..])
      case None => None
      case Some((u, p)) => Some(([b[0]] + u, p))
  }

  /** The split at the first colon of `u + [0x3A] + p` is `(u, p)` when `u` has no colon. */
  lemma {:induction false} SplitAtColonOf(u: seq<byte>, p: seq<byte>)
    requires 0x3A !in u
    ensures SplitAtColon(u + [0x3A] + p) == Some((u, p))
  {
    if u == [] {
      assert u + [0x3A] + p == [0x3A] + p;
    } else {
      assert (u + [0x3A] + p)[0] == u[0] && u[0] != 0x3A;
      assert (u + [0x3A] + p)[1..] == u[1..] + [0x3A] + p;
      SplitAtColonOf(u[1..], p);
      assert [u[0]] + u[1..] == u;
    }
  }

  /** A synthesised Basic credential carries the user-id and password back out: after the
      "Basic " prefix, base64-decoding and splitting at the first colon give the UTF-8 bytes of
      the user-id and of the password, provided the user-id has no colon (section 2 of RFC 7617
      forbids one). */
  lemma BasicAuthorizationRoundTrip(user: string, password: string)
    requires ':' !in user
    ensures |BasicAuthorization(user, password)| > |BasicPrefix|
    ensures BasicAuthorization(user, password)[..|BasicPrefix|] == BasicPrefix
    ensures match Unbase64(BasicAuthorization(user, password)[|BasicPrefix|..])
            case Some(bytes) => SplitAtColon(bytes) == Some((Utf8(user), Utf8(password)))
            case None => false
  {
    var bytes := Utf8(user + ":" + password);
    Utf8Concat(user + ":", password);
    Utf8Concat(user, ":");
    assert Utf8(":") == [0x3A];
    Utf8AsciiByte(user, ':');
    Base64RoundTrip(bytes);
    var s := BasicAuthorization(user, password);
    assert s[|BasicPrefix|..] == Base64(bytes);
    SplitAtColonOf(Utf8(user), Utf8(password));
  }
}
