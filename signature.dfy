/**
 * Webhook signature verification: the expected signature is the lower-case
 * hexadecimal rendering of the HMAC-SHA256 of the raw body under the shared
 * secret, compared in constant time with the signature sent. The HMAC itself
 * is a parameter: nothing is assumed of it.
 */
module Signature {
  import opened Common

  newtype Byte = x: int | 0 <= x < 256

  /** What makes the check raise instead of answering. */
  datatype SignatureError =
    | SecretUnset         // the secret is not configured, so it has no `.encode`
    | NonAsciiSignature   // `compare_digest` refuses strings with non-ASCII characters

  const HexDigits: string := "0123456789abcdef"

  /** `hexdigest()` of one byte: two lower-case hexadecimal digits. */
  function HexByte(b: Byte): (s: string)
    ensures |s| == 2 && s[0] in HexDigits && s[1] in HexDigits
  {
    [HexDigits[b as int / 16], HexDigits[b as int % 16]]
  }

  /** `hexdigest()`: the bytes in order, two digits each. */
  function Hex(bytes: seq<Byte>): (s: string)
    ensures |s| == 2 * |bytes|
    ensures forall i :: 0 <= i < |s| ==> s[i] in HexDigits
  {
    if bytes == [] then [] else HexByte(bytes[0]) + Hex(bytes[1..])
  }

  /** Distinct digests have distinct renderings. */
  lemma {:induction false} HexInjective(a: seq<Byte>, b: seq<Byte>)
    requires Hex(a) == Hex(b)
    ensures a == b
    decreases |a|
  {
    if a != [] {
      assert |b| == |a|;
      HexCons(a);
      HexCons(b);
      HexByteInjective(a[0], b[0]);
      HexInjective(a[1..], b[1..]);
      assert a == [a[0]] + a[1..] && b == [b[0]] + b[1..];
    }
  }

  /** The first two digits render the first byte, the rest render the other bytes. */
  lemma HexCons(a: seq<Byte>)
    requires a != []
    ensures Hex(a)[..2] == HexByte(a[0]) && Hex(a)[2..] == Hex(a[1..])
  {
    var h, t := HexByte(a[0]), Hex(a[1..]);
    assert Hex(a) == h + t;
    assert (h + t)[..2] == h;
    assert (h + t)[2..] == t;
  }

  /** Distinct bytes have distinct digit pairs. */
  lemma HexByteInjective(x: Byte, y: Byte)
    requires HexByte(x) == HexByte(y)
    ensures x == y
  {
    HexDigitIndex(x as int / 16, y as int / 16);
    HexDigitIndex(x as int % 16, y as int % 16);
  }

  /** The sixteen digits are distinct. */
  lemma HexDigitIndex(i: int, j: int)
    requires 0 <= i < 16 && 0 <= j < 16 && HexDigits[i] == HexDigits[j]
    ensures i == j
  {
  }

  predicate IsAscii(s: string) {
    forall i :: 0 <= i < |s| ==> s[i] as int < 128
  }

  /**
   * `verify_webhook_signature`: accepts exactly the signature that renders
   * the HMAC of the body under the secret; raises when the secret is unset or
   * the signature holds a non-ASCII character.
   */
  function VerifySignature(hmac: (seq<Byte>, seq<Byte>) -> seq<Byte>, secret: Option<seq<Byte>>,
                           payload: seq<Byte>, signature: string): (r: Result<bool, SignatureError>)
    ensures secret.None? ==> r == Err(SecretUnset)
    ensures secret.Some? && !IsAscii(signature) ==> r == Err(NonAsciiSignature)
    ensures r.Err? <==> secret.None? || !IsAscii(signature)
    ensures r == Ok(true) <==> secret.Some? && signature == Hex(hmac(secret.value, payload))
  {
    if secret.None? then Err(SecretUnset)
    else
      var expected := Hex(hmac(secret.value, payload));
      if !IsAscii(signature) then Err(NonAsciiSignature)
      else
        assert signature == expected ==> IsAscii(expected);
        Ok(signature == expected)
  }

  /**
   * A signature accepted for two bodies proves that the HMAC collides on
   * them: one signature cannot be carried over to a different digest.
   */
  lemma SignatureBindsDigest(hmac: (seq<Byte>, seq<Byte>) -> seq<Byte>, secret: Option<seq<Byte>>,
                             p1: seq<Byte>, p2: seq<Byte>, signature: string)
    requires VerifySignature(hmac, secret, p1, signature) == Ok(true)
    requires VerifySignature(hmac, secret, p2, signature) == Ok(true)
    ensures hmac(secret.value, p1) == hmac(secret.value, p2)
  {
    HexInjective(hmac(secret.value, p1), hmac(secret.value, p2));
  }

  /** A signature of the wrong length or with a character outside `0-9a-f` is never accepted. */
  lemma MalformedRejected(hmac: (seq<Byte>, seq<Byte>) -> seq<Byte>, secret: Option<seq<Byte>>,
                          payload: seq<Byte>, signature: string)
    requires secret.Some?
    requires |signature| != 2 * |hmac(secret.value, payload)|
             || exists i :: 0 <= i < |signature| && signature[i] !in HexDigits
    ensures VerifySignature(hmac, secret, payload, signature) != Ok(true)
  {
  }
}
