/** Stand-ins for the cryptographic libraries the server calls: bcrypt password hashing,
    JSON Web Token signing and verification, and `crypto.randomBytes(n).toString('hex')`. */
module Crypto {
  import opened Wrappers
  import opened Docs
  import opened JsNumber

  /** A password path: either the text assigned to it, or the bcrypt digest of a text.
      The digest is abstract: it determines its text for `compare` and is never the text. */
  datatype Secret = Plain(text: string) | Digest(of: string)

  /** `bcrypt.hash(p, 10)`. */
  function Hash(p: string): (h: Secret)
    ensures h.Digest? && h != Plain(p)
  {
    Digest(p)
  }

  /** `bcrypt.compare(p, h)`: true exactly when `h` is a digest of `p`. */
  predicate Compare(p: string, h: Secret) {
    h == Hash(p)
  }

  /** A digest matches the text it was made from and no other. */
  lemma CompareHash(p: string, q: string)
    ensures Compare(p, Hash(q)) <==> p == q
  {
  }

  newtype byte = x: int | 0 <= x < 256

  predicate IsHexChar(c: char) {
    '0' <= c <= '9' || 'a' <= c <= 'f'
  }

  function HexChar(v: nat): (c: char)
    requires v < 16
    ensures IsHexChar(c)
  {
    if v < 10 then ('0' as int + v) as char else ('a' as int + v - 10) as char
  }

  function HexValue(c: char): (v: nat)
    requires IsHexChar(c)
    ensures v < 16 && HexChar(v) == c
  {
    if '0' <= c <= '9' then c as int - '0' as int else c as int - 'a' as int + 10
  }

  /** `buffer.toString('hex')`: two lower-case hex digits per byte. */
  function HexEncode(bytes: seq<byte>): (r: string)
    ensures |r| == 2 * |bytes|
    ensures forall i :: 0 <= i < |r| ==> IsHexChar(r[i])
  {
    if |bytes| == 0 then ""
    else [HexChar(bytes[0] as int / 16), HexChar(bytes[0] as int % 16)] + HexEncode(bytes[1..])
  }

  /** `Buffer.from(s, 'hex')` for well-formed input; None when `s` is not pairs of hex digits. */
  function HexDecode(s: string): Option<seq<byte>>
    decreases |s|
  {
    if |s| == 0 then Some([])
    else if |s| == 1 || !IsHexChar(s[0]) || !IsHexChar(s[1]) then None
    else match HexDecode(s[2..])
      case None => None
      case Some(rest) => Some([(HexValue(s[0]) * 16 + HexValue(s[1])) as byte] + rest)
  }

  /** Hex encoding loses nothing: decoding gives the bytes back, so distinct byte
      strings give distinct tokens. */
  lemma {:induction false} HexRoundTrip(bytes: seq<byte>)
    ensures HexDecode(HexEncode(bytes)) == Some(bytes)
    decreases |bytes|
  {
    if |bytes| > 0 {
      var s := HexEncode(bytes);
      assert s[2..] == HexEncode(bytes[1..]);
      HexRoundTrip(bytes[1..]);
      var b := bytes[0] as int;
      assert HexValue(s[0]) == b / 16 && HexValue(s[1]) == b % 16;
      assert [bytes[0]] + bytes[1..] == bytes;
    }
  }

  /** The payload of a JSON Web Token as `jwt.verify` decodes it. */
  datatype Claims = Claims(id: Option<Id>, role: Option<string>)

  /** `jwt.sign({ id }, secret, { expiresIn: "1d" })` as text. The signature, the secret and the
      expiry are abstract; what matters here is that the payload carries the id and nothing else. */
  function Sign(id: Id): (token: string)
    ensures ' ' !in token && |token| > 4
  {
    var digits := NatToString(id);
    assert forall i :: 0 <= i < |digits| ==> digits[i] != ' ';
    "jwt." + digits
  }

  /** `jwt.verify(token, secret)` for a token signed with the server's secret that has not
      expired: it accepts exactly the tokens `Sign` produces and returns their payload. */
  function Verify(token: string): (r: Option<Claims>)
    ensures r.Some? ==> r.value.id.Some? && r.value.role.None? && token == Sign(r.value.id.value)
  {
    if |token| > 4 && token[..4] == "jwt." && AllDigits(token[4..])
       && token[4..] == NatToString(DigitsValue(token[4..]))
    then
      assert token == "jwt." + token[4..];
      Some(Claims(Some(DigitsValue(token[4..])), None))
    else None
  }

  /** A signed token verifies to a payload holding its id and no role. */
  lemma VerifySign(id: Id)
    ensures Verify(Sign(id)) == Some(Claims(Some(id), None))
  {
    var t := Sign(id);
    assert t[..4] == "jwt." && t[4..] == NatToString(id);
  }
}
