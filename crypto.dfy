/** The cryptographic collaborators the chat calls through OpenSSL, kept
    abstract: RSA signing with SHA-256 (section 8.2 of RFC 8017), PEM text of
    public keys (RFC 7468) and SHA-1. The chat only ever uses them through a
    `Suite`; what it relies on them for is stated as predicates that the
    lemmas take as hypotheses. */
module Crypto {
  import opened Basics

  /** RSA private key material. */
  datatype PrivateKey = PrivateKey(material: seq<byte>)

  /** RSA public key material. */
  datatype PublicKey = PublicKey(material: seq<byte>)

  /** A SHA-1 digest: `Sha1::finish` returns exactly 20 bytes. */
  type Digest = d: seq<byte> | |d| == 20 witness seq(20, _ => 0)

  datatype Suite = Suite(
    /** The public half of a key pair. */
    publicOf: PrivateKey -> PublicKey,
    /** `Signer::new(sha256, key)`, `update(text)`, `sign_to_vec()`: the raw signature. */
    sign: (PrivateKey, string) -> seq<byte>,
    /** Whether `Verifier::new(sha256, key)` succeeds for a key. */
    verifierFor: PublicKey -> bool,
    /** `Verifier::verify`: `Some(valid)`, or `None` when verification itself errs. */
    verify: (PublicKey, string, seq<byte>) -> Option<bool>,
    /** `public_key_to_pem`, which can fail. */
    publicKeyToPem: PublicKey -> Option<string>,
    /** `PKey::public_key_from_pem`, which fails on text that is not a public key. */
    publicKeyFromPem: string -> Option<PublicKey>,
    /** SHA-1 over the bytes of a text. */
    sha1: string -> Digest,
    /** `private_key_to_pem`, as a UTF-8 text. */
    privateKeyToPem: PrivateKey -> string)

  /** A signature made with a private key verifies under its public key. */
  ghost predicate Sound(c: Suite)
  {
    forall sk: PrivateKey, text: string {:trigger c.sign(sk, text)} ::
      c.verifierFor(c.publicOf(sk)) && c.verify(c.publicOf(sk), text, c.sign(sk, text)) == Some(true)
  }

  /** A signature made over one text does not verify for another text under
      the signer's key (no forgery by re-use). */
  ghost predicate Binding(c: Suite)
  {
    forall sk: PrivateKey, signed: string, claimed: string {:trigger c.verify(c.publicOf(sk), claimed, c.sign(sk, signed))} ::
      c.verify(c.publicOf(sk), claimed, c.sign(sk, signed)) == Some(true) ==> signed == claimed
  }

  /** A signature verifies only under the public key of the private key that
      made it, whatever texts are signed and checked (no other key holder can
      claim it). */
  ghost predicate KeyBound(c: Suite)
  {
    forall pk: PublicKey, sk: PrivateKey, checked: string, signed: string
      {:trigger c.verify(pk, checked, c.sign(sk, signed))} ::
      c.verify(pk, checked, c.sign(sk, signed)) == Some(true) ==> pk == c.publicOf(sk)
  }

  /** The PEM text of a public key parses back to that key. */
  ghost predicate PemRoundTrip(c: Suite)
  {
    forall pk: PublicKey {:trigger c.publicKeyToPem(pk)} ::
      c.publicKeyToPem(pk).Some? ==> c.publicKeyFromPem(c.publicKeyToPem(pk).value) == Some(pk)
  }
}
