/** The gate in front of the webhook: GitHub signs each delivery with
    HMAC-SHA1 under the shared secret and sends `sha1=<hex digest>` in the
    `X-Hub-Signature` header. */
module Signature {
  import opened Text
  import opened Json

  const Sha1Tag := "sha1="

  /** Python's `hmac.compare_digest(a, b)` on two `str` values: it refuses
      text with a non-ASCII character, and otherwise says whether the two are
      equal (the constant-time behaviour is not modelled). */
  function CompareDigest(a: string, b: string): (r: Result<bool>)
    ensures r.Raised? <==> !IsAscii(a) || !IsAscii(b)
    ensures r.Raised? ==> r.error == TypeError
    ensures r.Ok? ==> (r.value <==> a == b)
  {
    if !IsAscii(a) || !IsAscii(b) then Raised(TypeError) else Ok(a == b)
  }

  /** The signature GitHub sends for `body`: `mac` is HMAC-SHA1 keyed with
      the UTF-8 encoding of the secret. */
  function ExpectedSignature(secret: string, body: seq<Byte>, mac: (string, seq<Byte>) -> seq<Byte>): (r: string)
    ensures IsAscii(r)
    ensures |r| == |Sha1Tag| + 2 * |mac(secret, body)| && r[..|Sha1Tag|] == Sha1Tag
  {
    HexIsAscii(mac(secret, body));
    Sha1Tag + Hex(mac(secret, body))
  }

  /** The header text pins down the digest: two deliveries with the same
      expected signature have the same HMAC. */
  lemma ExpectedSignatureDeterminesDigest(secret1: string, body1: seq<Byte>, secret2: string, body2: seq<Byte>,
                                          mac: (string, seq<Byte>) -> seq<Byte>)
    requires ExpectedSignature(secret1, body1, mac) == ExpectedSignature(secret2, body2, mac)
    ensures mac(secret1, body1) == mac(secret2, body2)
  {
    var h1, h2 := Hex(mac(secret1, body1)), Hex(mac(secret2, body2));
    assert (Sha1Tag + h1)[|Sha1Tag|..] == h1 && (Sha1Tag + h2)[|Sha1Tag|..] == h2;
    HexInjective(mac(secret1, body1), mac(secret2, body2));
  }

  /** `verify_github_signature`: fails closed on an empty secret or an absent
      or empty header, and otherwise accepts exactly the expected signature.
      A header holding a non-ASCII character makes the comparison raise. */
  function VerifySignature(secret: string, body: seq<Byte>, header: Option<string>,
                           mac: (string, seq<Byte>) -> seq<Byte>): (r: Result<bool>)
    ensures secret == "" || header == None || header == Some("") ==> r == Ok(false)
    ensures r == Ok(true) <==> secret != "" && header == Some(ExpectedSignature(secret, body, mac))
    ensures r.Raised? <==> secret != "" && header.Some? && header.value != "" && !IsAscii(header.value)
  {
    if secret == "" || header.None? || header.value == "" then Ok(false)
    else
      HexIsAscii(mac(secret, body));
      CompareDigest(ExpectedSignature(secret, body, mac), header.value)
  }
}
