/** URL signatures: the MD5 digest (RFC 1321) of the decimal expiry time,
    the request path and the shared secret, written as unpadded base64url.
    MD5 itself is a parameter: any function yielding 16 octets. */
module Signer {
  import opened Bytes
  import opened Wrappers
  import Numbers
  import Text
  import Utf8
  import Base64Url

  type Digest = d: seq<byte> | |d| == 16 witness seq(16, _ => 0)

  /** The text that is hashed: `%d%s%s` of expiry, path and secret. */
  function RawMessage(expires: int, path: string, secret: string): string
  {
    Numbers.Decimal(expires) + path + secret
  }

  /** md5Hex / md5hex: the digest of `data`, base64url without '='. */
  function DigestText(md5: seq<byte> -> Digest, data: seq<byte>): (sig: string)
    ensures |sig| == 22
    ensures forall i :: 0 <= i < |sig| ==> Base64Url.IsUrlSafe(sig[i])
  {
    Base64Url.DigestLength(md5(data));
    Base64Url.Encode(md5(data))
  }

  /** signURI (Go) and sign_uri (Python, with the secret already formatted). */
  function SignUri(md5: seq<byte> -> Digest, path: string, expires: int, secret: string): (sig: string)
    ensures |sig| == 22
    ensures forall i :: 0 <= i < |sig| ==> Base64Url.IsUrlSafe(sig[i])
  {
    DigestText(md5, Utf8.Encode(RawMessage(expires, path, secret)))
  }

  /** The signature loses nothing: the digest of the UTF-8 raw message can be
      read back from it. */
  lemma SignatureDecodes(md5: seq<byte> -> Digest, path: string, expires: int, secret: string)
    ensures Base64Url.Decode(SignUri(md5, path, expires, secret)) == Some(md5(Utf8.Encode(RawMessage(expires, path, secret))))
  {
    Base64Url.DecodeEncode(md5(Utf8.Encode(RawMessage(expires, path, secret))));
  }

  /** Python formats an unset URI_SIGNATURE_SECRET (None) as "None". */
  function PySecretText(secret: Option<string>): string
  {
    match secret
    case Some(s) => s
    case None => "None"
  }

  function PySignUri(md5: seq<byte> -> Digest, path: string, expires: int, secret: Option<string>): string
  {
    SignUri(md5, path, expires, PySecretText(secret))
  }

  /** With the secret configured, the Python signer agrees with the Go signer. */
  lemma PySignAgrees(md5: seq<byte> -> Digest, path: string, expires: int, secret: string)
    ensures PySignUri(md5, path, expires, Some(secret)) == SignUri(md5, path, expires, secret)
  {
  }

  /** With the secret unset, Python signs with the public text "None": its
      signatures are the Go signatures under the secret "None", and setting
      the secret to "None" changes nothing. */
  lemma PyUnsetSecret(md5: seq<byte> -> Digest, path: string, expires: int)
    ensures PySignUri(md5, path, expires, None) == SignUri(md5, path, expires, "None")
    ensures PySignUri(md5, path, expires, None) == PySignUri(md5, path, expires, Some("None"))
  {
  }

  /** The raw message determines expiry and path when paths start with '/':
      the decimal expiry holds no '/', so the first '/' ends it. */
  lemma RawMessageInjective(e1: int, p1: string, e2: int, p2: string, secret: string)
    requires |p1| > 0 && p1[0] == '/'
    requires |p2| > 0 && p2[0] == '/'
    requires RawMessage(e1, p1, secret) == RawMessage(e2, p2, secret)
    ensures e1 == e2 && p1 == p2
  {
    var d1, d2 := Numbers.Decimal(e1), Numbers.Decimal(e2);
    var r := RawMessage(e1, p1, secret);
    SlashEndsDecimal(d1, p1, secret);
    SlashEndsDecimal(d2, p2, secret);
    assert d1 == r[..|d1|] == d2;
    Numbers.DecimalInjective(e1, e2);
    assert p1 + secret == r[|d1|..] == p2 + secret;
    assert p1 == (p1 + secret)[..|p1|];
    assert p2 == (p2 + secret)[..|p2|];
  }

  /** In `d + p + secret`, with no '/' in `d` and `p` starting with one,
      the first '/' ends `d`. */
  lemma SlashEndsDecimal(d: string, p: string, secret: string)
    requires '/' !in d && |p| > 0 && p[0] == '/'
    ensures Text.IndexOf(d + p + secret, '/') == |d|
    ensures (d + p + secret)[..|d|] == d && (d + p + secret)[|d|..] == p + secret
  {
    assert d + p + secret == d + ['/'] + (p[1..] + secret);
    Text.IndexOfAfterPrefix(d, '/', p[1..] + secret);
  }

  /** Equal inputs give equal signatures; by RawMessageInjective, for paths
      starting with '/', the signature covers the expiry and the path. */
  lemma SignatureCovers(md5: seq<byte> -> Digest, e1: int, p1: string, e2: int, p2: string, secret: string)
    requires |p1| > 0 && p1[0] == '/' && |p2| > 0 && p2[0] == '/'
    requires (e1, p1) != (e2, p2)
    ensures RawMessage(e1, p1, secret) != RawMessage(e2, p2, secret)
    ensures Utf8.Encode(RawMessage(e1, p1, secret)) != Utf8.Encode(RawMessage(e2, p2, secret))
  {
    if RawMessage(e1, p1, secret) == RawMessage(e2, p2, secret) {
      RawMessageInjective(e1, p1, e2, p2, secret);
    }
    if Utf8.Encode(RawMessage(e1, p1, secret)) == Utf8.Encode(RawMessage(e2, p2, secret)) {
      Utf8.EncodeInjective(RawMessage(e1, p1, secret), RawMessage(e2, p2, secret));
      RawMessageInjective(e1, p1, e2, p2, secret);
    }
  }
}
