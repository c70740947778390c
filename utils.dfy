/** Shared types of the chat (src/utils.rs): a known peer, the messages the
    protocol engine sends to the interface, the actions the interface sends to
    the engine, the profile record and the client settings. */
module Utils {
  import opened Basics
  import opened Crypto
  import Hex

  /** `ChatClient`: a peer learnt from an announcement. */
  datatype ChatClient = ChatClient(alias: string, pubkey: PublicKey)

  /** `UIMessage`: engine to interface. */
  datatype UIMessage =
    | System(text: string)
    | SystemError(text: string)
    | Chat(from: ChatClient, text: string)
    | DM(from: ChatClient, to: ChatClient, text: string)

  /** `UIAction`: interface to engine. */
  datatype UIAction =
    | ChangeAlias(alias: string)
    | ChangeTopic(topic: string)
    | SendMessage(message: string)
    | SendDM(to: string, message: string)

  /** `DatabaseFile`: the stored profile. */
  datatype DatabaseFile = DatabaseFile(alias: string, privateKey: string, savedAliases: map<string, string>)

  /** `ClientSettings`: broker, topic (the chat room) and profile path. */
  datatype ClientSettings = ClientSettings(host: string, port: u16, topic: string, profile: string)

  /** `get_pubkey_hash`: the first six characters of the lower-case hex SHA-1
      digest of the peer key's PEM text, or `None` when the key has no PEM
      text. The slice is in bounds because the 20-byte digest gives 40 characters. */
  function PubkeyHash(c: Suite, client: ChatClient): (r: Option<string>)
    ensures r.None? <==> c.publicKeyToPem(client.pubkey).None?
    ensures r.Some? ==>
      && |r.value| == 6
      && r.value == Hex.Encode(c.sha1(c.publicKeyToPem(client.pubkey).value)[..3])
      && forall i :: 0 <= i < 6 ==> Hex.IsLowerHexDigit(r.value[i])
  {
    match c.publicKeyToPem(client.pubkey)
    case None => None
    case Some(pem) =>
      var digest := c.sha1(pem);
      var text := Hex.Encode(digest);
      Hex.EncodePrefix(digest, 3);
      Hex.EncodeLowerHex(digest);
      Some(text[..6])
  }
}
