/** The signed message sent in the second request of the handshake: the
    challenge code framed as an OpenPGP cleartext-signed message (section 7
    of RFC 4880, the Cleartext Signature Framework) followed by the armored
    detached signature. The cleartext is not dash-escaped (section 7.1). */
module Envelope {
  import opened Wrappers

  /** The armor header line, the hash header and the empty line before the cleartext. */
  const Header: string := "-----BEGIN PGP SIGNED MESSAGE-----\nHash: SHA256\n\n"

  /** The message GetActiveToken posts: header, challenge code, newline,
      signature, newline. */
  function SignedMessage(tokenCode: string, signature: string): (m: string)
    ensures |m| == |Header| + |tokenCode| + |signature| + 2
    ensures m[..|Header|] == Header
    ensures m[|Header|..|Header| + |tokenCode|] == tokenCode
    ensures m[|Header| + |tokenCode|] == '\n'
    ensures m[|Header| + |tokenCode| + 1..|m| - 1] == signature
    ensures m[|m| - 1] == '\n'
  {
    Header + tokenCode + "\n" + signature + "\n"
  }

  /** The position of the first line break of `s`, or `|s|` when there is none. */
  function NewlineIndex(s: string): (i: nat)
    ensures i <= |s|
    ensures i < |s| ==> s[i] == '\n'
    ensures forall j :: 0 <= j < i ==> s[j] != '\n'
  {
    if s == [] || s[0] == '\n' then 0 else 1 + NewlineIndex(s[1..])
  }

  /** The receiving side: recover the challenge code (the single cleartext
      line) and the signature from a signed message. */
  function ParseSignedMessage(m: string): (r: Option<(string, string)>)
    ensures r.Some? ==> '\n' !in r.value.0 && SignedMessage(r.value.0, r.value.1) == m
  {
    if |m| < |Header| + 1 || m[..|Header|] != Header || m[|m| - 1] != '\n' then None
    else
      var rest := m[|Header|..|m| - 1];
      var i := NewlineIndex(rest);
      if i == |rest| then None
      else
        var code, signature := rest[..i], rest[i + 1..];
        assert rest == code + "\n" + signature;
        assert m == m[..|Header|] + rest + "\n";
        Some((code, signature))
  }

  /** A challenge code without line breaks and the signature are recovered
      exactly from the message built from them. */
  lemma SignedMessageRoundTrip(tokenCode: string, signature: string)
    requires '\n' !in tokenCode
    ensures ParseSignedMessage(SignedMessage(tokenCode, signature)) == Some((tokenCode, signature))
  {
  }
}
