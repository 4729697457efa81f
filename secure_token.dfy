/**
 * `generateSecureToken`: 32 random bytes rendered as lower-case hex. The random source is an
 * oracle (`RandomBytes`); the encoding is a function with a decoder that undoes it, so distinct
 * draws give distinct tokens.
 */
module SecureToken {

  type Byte = x: int | 0 <= x < 256

  /** Node's `Buffer.toString("hex")` alphabet. */
  predicate IsHexChar(c: char)
  {
    ('0' <= c <= '9') || ('a' <= c <= 'f')
  }

  function HexDigit(n: int): (c: char)
    requires 0 <= n < 16
    ensures IsHexChar(c)
  {
    if n < 10 then ('0' as int + n) as char else ('a' as int + n - 10) as char
  }

  /** The value of one hex digit (0 for any other character). */
  function HexValue(c: char): (n: int)
    ensures 0 <= n < 16
  {
    if '0' <= c <= '9' then c as int - '0' as int
    else if 'a' <= c <= 'f' then c as int - 'a' as int + 10
    else 0
  }

  function HexEncode(bytes: seq<Byte>): (r: string)
    ensures |r| == 2 * |bytes|
    ensures forall i :: 0 <= i < |r| ==> IsHexChar(r[i])
  {
    if bytes == [] then []
    else [HexDigit(bytes[0] / 16), HexDigit(bytes[0] % 16)] + HexEncode(bytes[1..])
  }

  function HexDecode(s: string): (r: seq<Byte>)
    decreases |s|
  {
    if |s| < 2 then []
    else [HexValue(s[0]) * 16 + HexValue(s[1])] + HexDecode(s[2..])
  }

  /** Decoding a token gives back the bytes it was drawn from. */
  lemma {:induction false} HexRoundTrip(bytes: seq<Byte>)
    ensures HexDecode(HexEncode(bytes)) == bytes
  {
    if bytes != [] {
      var b := bytes[0];
      var e := HexEncode(bytes);
      assert e[2..] == HexEncode(bytes[1..]);
      assert HexValue(e[0]) == b / 16 && HexValue(e[1]) == b % 16;
      HexRoundTrip(bytes[1..]);
    }
  }

  /** Distinct random draws never collide as tokens. */
  lemma HexEncodeInjective(a: seq<Byte>, b: seq<Byte>)
    requires HexEncode(a) == HexEncode(b)
    ensures a == b
  {
    HexRoundTrip(a);
    HexRoundTrip(b);
  }

  /** What a minted token looks like: 256 bits as 64 hex characters. */
  predicate IsSecureToken(t: string)
  {
    |t| == 64 && forall i :: 0 <= i < |t| ==> IsHexChar(t[i])
  }

  /** `randomBytes(n)`: the operating system's random source, an oracle here. */
  method RandomBytes(n: nat) returns (bytes: seq<Byte>)
    ensures |bytes| == n
  {
    bytes := [];
    while |bytes| < n
      invariant |bytes| <= n
    {
      var b: Byte := *;
      bytes := bytes + [b];
    }
  }

  method GenerateSecureToken() returns (token: string)
    ensures IsSecureToken(token)
    ensures exists bytes: seq<Byte> :: |bytes| == 32 && token == HexEncode(bytes)
  {
    var bytes := RandomBytes(32);
    token := HexEncode(bytes);
  }
}
