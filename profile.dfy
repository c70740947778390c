/** The local identity (src/data_client.rs): the key pair and alias of the
    profile, and the signing and verification of chat messages. Both sides
    sign and verify the same canonical text, `"{message};{timestamp}"`, and
    the raw signature travels as standard base64. */
module Profile {
  import opened Basics
  import opened Crypto
  import opened Utils
  import Base64
  import Decimal

  /** The text `signature` signs and `try_verify` checks: the message, a
      `;`, then the timestamp in decimal. */
  function Canonical(message: string, timestamp: u64): (r: string)
    ensures |r| > |message| + 1 && r[..|message|] == message && r[|message|] == ';'
    ensures r[|message| + 1..] == Decimal.Render(timestamp)
  {
    message + ";" + Decimal.Render(timestamp)
  }

  /** Past the message, the canonical text holds no `;` but the separator. */
  lemma NoSeparatorInTimestamp(message: string, timestamp: u64, k: int)
    requires |message| < k < |Canonical(message, timestamp)|
    ensures Canonical(message, timestamp)[k] != ';'
  {
    var d := Decimal.Render(timestamp);
    assert Canonical(message, timestamp)[k] == d[k - |message| - 1];
  }

  /** The canonical text determines message and timestamp: everything after
      the last `;` is the decimal timestamp, which has no `;` of its own. */
  lemma CanonicalInjective(m1: string, t1: u64, m2: string, t2: u64)
    requires Canonical(m1, t1) == Canonical(m2, t2)
    ensures m1 == m2 && t1 == t2
  {
    var s := Canonical(m1, t1);
    var d1, d2 := Decimal.Render(t1), Decimal.Render(t2);
    if |m1| < |m2| {
      NoSeparatorInTimestamp(m1, t1, |m2|);
      assert false;
    } else if |m2| < |m1| {
      NoSeparatorInTimestamp(m2, t2, |m1|);
      assert false;
    }
    assert m1 == s[..|m1|] == m2;
    assert d1 == s[|m1| + 1..] == d2;
    Decimal.RenderInjective(t1, t2);
  }

  /** `signature`: the base64 text of the key holder's signature over the canonical text. */
  function SignatureOf(c: Suite, sk: PrivateKey, message: string, timestamp: u64): (sig: string)
    ensures Base64.Decode(sig) == Some(c.sign(sk, Canonical(message, timestamp)))
  {
    var raw := c.sign(sk, Canonical(message, timestamp));
    Base64.DecodeEncode(raw);
    Base64.Encode(raw)
  }

  /** `try_verify`: returns false, rather than failing, when no verifier can
      be built for the key, when the signature is not base64, and when
      verification errs. */
  function TryVerify(c: Suite, message: string, timestamp: u64, signature: string, pubkey: PublicKey): (ok: bool)
    ensures !c.verifierFor(pubkey) ==> !ok
    ensures Base64.Decode(signature).None? ==> !ok
    ensures Base64.Decode(signature).Some? && c.verify(pubkey, Canonical(message, timestamp), Base64.Decode(signature).value).None? ==> !ok
    ensures ok <==> && c.verifierFor(pubkey) && Base64.Decode(signature).Some?
                    && c.verify(pubkey, Canonical(message, timestamp), Base64.Decode(signature).value) == Some(true)
  {
    if !c.verifierFor(pubkey) then false
    else
      match Base64.Decode(signature)
      case None => false
      case Some(raw) =>
        match c.verify(pubkey, Canonical(message, timestamp), raw)
        case Some(valid) => valid
        case None => false
  }

  /** A message signed by the key holder verifies under the matching public key. */
  lemma SignThenVerify(c: Suite, sk: PrivateKey, message: string, timestamp: u64)
    requires Sound(c)
    ensures TryVerify(c, message, timestamp, SignatureOf(c, sk, message, timestamp), c.publicOf(sk))
  {
    var text := Canonical(message, timestamp);
    var raw := c.sign(sk, text);
    assert c.verifierFor(c.publicOf(sk));
    assert c.verify(c.publicOf(sk), text, raw) == Some(true);
    assert Base64.Decode(SignatureOf(c, sk, message, timestamp)) == Some(raw);
  }

  /** Only the signer's public key verifies its signature, for any claimed
      message and timestamp. */
  lemma VerifyIdentifiesSigner(c: Suite, sk: PrivateKey, message: string, timestamp: u64,
                               claimed: string, claimedTime: u64, pk: PublicKey)
    requires KeyBound(c)
    requires TryVerify(c, claimed, claimedTime, SignatureOf(c, sk, message, timestamp), pk)
    ensures pk == c.publicOf(sk)
  {
    var raw := c.sign(sk, Canonical(message, timestamp));
    assert c.verify(pk, Canonical(claimed, claimedTime), raw) == Some(true);
  }

  /** A signature made over one message and timestamp verifies for no other
      message or timestamp under the signer's key. */
  lemma VerifyBindsMessage(c: Suite, sk: PrivateKey, message: string, timestamp: u64, claimed: string, claimedTime: u64)
    requires Binding(c)
    requires TryVerify(c, claimed, claimedTime, SignatureOf(c, sk, message, timestamp), c.publicOf(sk))
    ensures claimed == message && claimedTime == timestamp
  {
    var signed, checked := Canonical(message, timestamp), Canonical(claimed, claimedTime);
    assert c.verify(c.publicOf(sk), checked, c.sign(sk, signed)) == Some(true);
    CanonicalInjective(message, timestamp, claimed, claimedTime);
  }

  /** What `save_changes` reported: `Ok(())`, or an error shown in its debug form. */
  datatype SaveResult = Saved | SaveFailed(debug: string)

  /** `DataClient`: the profile loaded or created at start-up. */
  class DataClient {
    const settings: ClientSettings
    const rsa: PrivateKey
    var databaseFile: DatabaseFile

    /** `new` when no profile exists: a freshly generated key, stored as its
        PEM text, and the alias "Guest". */
    constructor Create(settings: ClientSettings, suite: Suite, rsa: PrivateKey)
      ensures this.settings == settings && this.rsa == rsa
      ensures databaseFile == DatabaseFile("Guest", suite.privateKeyToPem(rsa), map[])
    {
      this.settings := settings;
      this.rsa := rsa;
      databaseFile := DatabaseFile("Guest", suite.privateKeyToPem(rsa), map[]);
    }

    /** `new` when a profile exists: its record and the key parsed from it. */
    constructor Load(settings: ClientSettings, file: DatabaseFile, rsa: PrivateKey)
      ensures this.settings == settings && this.rsa == rsa && databaseFile == file
    {
      this.settings := settings;
      this.rsa := rsa;
      databaseFile := file;
    }

    /** `change_alias`: the alias is set before saving, so it holds in memory
        whatever the save reports; the key and saved aliases stay. */
    method ChangeAlias(newAlias: string, saved: SaveResult) returns (r: SaveResult)
      modifies this
      ensures databaseFile.alias == newAlias
      ensures databaseFile.privateKey == old(databaseFile.privateKey)
      ensures databaseFile.savedAliases == old(databaseFile.savedAliases)
      ensures r == saved
    {
      databaseFile := databaseFile.(alias := newAlias);
      r := saved;
    }

    /** `pubkey`: the PEM text of the own public key (the source unwraps it). */
    function Pubkey(c: Suite): (pem: string)
      requires c.publicKeyToPem(c.publicOf(rsa)).Some?
      ensures PemRoundTrip(c) ==> c.publicKeyFromPem(pem) == Some(c.publicOf(rsa))
    {
      c.publicKeyToPem(c.publicOf(rsa)).value
    }
  }
}
