/** `middleware/auth.js`: the `X-API-Key` check in front of the routes. */
module Auth {
  import opened Wrappers
  import opened Js

  newtype byte = x: int | 0 <= x < 256

  /** The number of bytes of the UTF-8 sequence a lead byte starts. */
  function LeadLength(b: byte): nat {
    if b < 0x80 then 1 else if b < 0xE0 then 2 else if b < 0xF0 then 3 else 4
  }

  /** The UTF-8 encoding of one code point. */
  function EncodeChar(c: char): (b: seq<byte>)
    ensures 1 <= |b| <= 4 && |b| == LeadLength(b[0])
  {
    var n := c as int;
    if n < 0x80 then [n as byte]
    else if n < 0x800 then [(0xC0 + n / 64) as byte, (0x80 + n % 64) as byte]
    else if n < 0x10000 then
      [(0xE0 + n / 64 / 64) as byte, (0x80 + n / 64 % 64) as byte, (0x80 + n % 64) as byte]
    else
      [(0xF0 + n / 64 / 64 / 64) as byte, (0x80 + n / 64 / 64 % 64) as byte,
       (0x80 + n / 64 % 64) as byte, (0x80 + n % 64) as byte]
  }

  /** The code point a complete UTF-8 sequence of one to four bytes encodes. */
  function DecodeChar(b: seq<byte>): int
    requires 1 <= |b| <= 4
  {
    if |b| == 1 then b[0] as int
    else if |b| == 2 then (b[0] as int - 0xC0) * 64 + (b[1] as int - 0x80)
    else if |b| == 3 then
      (b[0] as int - 0xE0) * 4096 + (b[1] as int - 0x80) * 64 + (b[2] as int - 0x80)
    else
      (b[0] as int - 0xF0) * 262144 + (b[1] as int - 0x80) * 4096
      + (b[2] as int - 0x80) * 64 + (b[3] as int - 0x80)
  }

  lemma DecodeEncodeTwo(c: char)
    requires 0x80 <= c as int < 0x800
    ensures DecodeChar(EncodeChar(c)) == c as int
  {
    var n := c as int;
    var b := EncodeChar(c);
    assert b[0] as int - 0xC0 == n / 64 && b[1] as int - 0x80 == n % 64;
  }

  lemma DecodeEncodeThree(c: char)
    requires 0x800 <= c as int < 0x10000
    ensures DecodeChar(EncodeChar(c)) == c as int
  {
    var n := c as int;
    var b := EncodeChar(c);
    var m1 := n / 64;
    var m2 := m1 / 64;
    assert n == m1 * 64 + n % 64 && m1 == m2 * 64 + m1 % 64;
    assert b[0] as int - 0xE0 == m2 && b[1] as int - 0x80 == m1 % 64 && b[2] as int - 0x80 == n % 64;
  }

  lemma DecodeEncodeFour(c: char)
    requires 0x10000 <= c as int
    ensures DecodeChar(EncodeChar(c)) == c as int
  {
    var n := c as int;
    var b := EncodeChar(c);
    var m1 := n / 64;
    var m2 := m1 / 64;
    var m3 := m2 / 64;
    assert n == m1 * 64 + n % 64 && m1 == m2 * 64 + m1 % 64 && m2 == m3 * 64 + m2 % 64;
    assert b[0] as int - 0xF0 == m3 && b[1] as int - 0x80 == m2 % 64;
    assert b[2] as int - 0x80 == m1 % 64 && b[3] as int - 0x80 == n % 64;
  }

  /** Decoding the encoding of a character gives back its code point. */
  lemma DecodeEncodeChar(c: char)
    ensures DecodeChar(EncodeChar(c)) == c as int
  {
    var n := c as int;
    if n < 0x80 {
    } else if n < 0x800 {
      DecodeEncodeTwo(c);
    } else if n < 0x10000 {
      DecodeEncodeThree(c);
    } else {
      DecodeEncodeFour(c);
    }
  }

  /** `Buffer.from(s)`: the UTF-8 bytes of a string. */
  function Utf8(s: string): (b: seq<byte>)
    ensures |s| <= |b| <= 4 * |s|
  {
    if s == [] then [] else EncodeChar(s[0]) + Utf8(s[1..])
  }

  /** Different strings have different encodings. */
  lemma {:induction false} Utf8Injective(s: string, t: string)
    requires Utf8(s) == Utf8(t)
    ensures s == t
  {
    if s != [] {
      assert t != [];
      var e, f := EncodeChar(s[0]), EncodeChar(t[0]);
      assert Utf8(s) == e + Utf8(s[1..]);
      assert Utf8(t) == f + Utf8(t[1..]);
      assert e[0] == Utf8(s)[0] == f[0];
      assert e == Utf8(s)[..|e|] == f;
      DecodeEncodeChar(s[0]);
      DecodeEncodeChar(t[0]);
      assert Utf8(s[1..]) == Utf8(s)[|e|..] == Utf8(t[1..]);
      Utf8Injective(s[1..], t[1..]);
    }
  }

  /** `Buffer.from(v)`, which throws for `undefined`. */
  function BufferFrom(v: Option<string>): Option<seq<byte>> {
    match v
    case None => None
    case Some(s) => Some(Utf8(s))
  }

  /** `crypto.timingSafeEqual(a, b)`: byte equality, throwing (`None`) when
      the lengths differ. Its constant running time is not modelled. */
  function TimingSafeEqual(a: seq<byte>, b: seq<byte>): (r: Option<bool>)
    ensures r.None? <==> |a| != |b|
    ensures r.Some? ==> (r.value <==> a == b)
  {
    if |a| != |b| then None
    else Some(forall i :: 0 <= i < |a| ==> a[i] == b[i])
  }

  const KEY_REQUIRED := "API key is required in X-API-Key header"
  const KEY_INVALID := "Invalid API key"
  const KEY_CONFIG_ERROR := "API key configuration error"

  /** The middleware either sends one error response or calls `next`. */
  datatype AuthResult = Respond(status: int, error: string) | Next

  /** `authenticateApiKey` for the `X-API-Key` header value and `API_KEY`.
      A key is accepted exactly when it is non-empty and equal to the
      configured one; a configured key that is unset, or whose encoding has a
      different length, makes the comparison throw and gives 500. */
  function AuthenticateApiKey(providedKey: Option<string>, apiKey: Option<string>): (r: AuthResult)
    ensures !Truthy(providedKey) ==> r == Respond(401, KEY_REQUIRED)
    ensures r == Next <==> Truthy(providedKey) && apiKey == providedKey
    ensures r == Respond(500, KEY_CONFIG_ERROR) <==>
              Truthy(providedKey) && (apiKey.None? || |Utf8(providedKey.value)| != |Utf8(apiKey.value)|)
    ensures r == Respond(401, KEY_INVALID) <==>
              && Truthy(providedKey) && apiKey.Some? && apiKey != providedKey
              && |Utf8(providedKey.value)| == |Utf8(apiKey.value)|
  {
    if !Truthy(providedKey) then Respond(401, KEY_REQUIRED)
    else
      var a := BufferFrom(providedKey);
      var b := BufferFrom(apiKey);
      if b.None? then Respond(500, KEY_CONFIG_ERROR)
      else match TimingSafeEqual(a.value, b.value)
        case None => Respond(500, KEY_CONFIG_ERROR)
        case Some(valid) =>
          if valid then
            assert a.value == b.value;
            Utf8Injective(providedKey.value, apiKey.value);
            Next
          else
            assert apiKey != providedKey;
            Respond(401, KEY_INVALID)
  }

  /** A matching key passes whatever its characters; keys that differ in
      one multi-byte character but encode to the same length are refused. */
  lemma AcceptsOnlyTheKey(key: string, other: string)
    requires key != [] && other != key
    ensures AuthenticateApiKey(Some(key), Some(key)) == Next
    ensures AuthenticateApiKey(Some(other), Some(key)) != Next
  {
  }

  /** Equal encodings mean equal keys, so the byte comparison accepts only
      the configured key itself. */
  lemma SameBytesSameKey(providedKey: string, apiKey: string)
    requires TimingSafeEqual(Utf8(providedKey), Utf8(apiKey)) == Some(true)
    ensures providedKey == apiKey
  {
    Utf8Injective(providedKey, apiKey);
  }
}
