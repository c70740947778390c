# pubtrust-chat, modelled in Dafny

pubtrust-chat is a terminal chat over one MQTT topic (a "room"). Every client
has an RSA key pair and an alias. On start-up a client asks the room for
announcements. Every client answers with its alias and the PEM text of its
public key. A chat message carries a signature over `"{message};{timestamp}"`,
encoded as base64. A receiver attributes the message to the first registered
peer whose key verifies it, and drops it when no key does.

This project models the core of that program and proves what it promises:

- the wire format;
- the peer registry and attribution;
- the action dispatcher;
- the signature text;
- the key fingerprint;
- the prompt parser, prompt editing and scroll offset of the terminal interface.

Modules, one per source file plus the pieces they rely on:

- `Basics`: `u8`/`u16`/`u64` as subset types, and `Option`.
- `Crypto`: RSA signing with SHA-256 (section 8.2 of RFC 8017), PEM text (RFC 7468) and SHA-1.
  - They are kept abstract as a record of functions, `Suite`.
  - What the chat relies on is stated as hypotheses that the lemmas take: `Sound`, `Binding`, `KeyBound` and `PemRoundTrip`.
- `Base64`: the standard alphabet with padding (section 4 of RFC 4648), encoded and decoded concretely.
- `Decimal`: how `{}` renders a `u64`.
- `Hex`: how `hex::encode` renders bytes.
- `Packets` (`src/packets.rs`):
  - the packet types and their tag bytes;
  - the payload structs as field lists;
  - framing.
  - MessagePack is an abstract `Codec` with the hypothesis `RoundTrips`.
- `Utils` (`src/utils.rs`): the shared types and `get_pubkey_hash`.
- `Profile` (`src/data_client.rs`):
  - the canonical signed text, `signature` and `try_verify`;
  - the `DataClient` class with `change_alias`.
- `Engine` (`src/mqtt_controller.rs`):
  - Functions over `EngineState` say what every handler does to four things: the alias, the registry, the requests made on the MQTT client, and the messages sent to the interface.
  - The `MqttController` class does the same in place. Each of its methods is proved equal to the matching function.
- `Scenarios`: two engines connected through the room. The lemmas cover the handshake, authenticated delivery, tampering and alias changes.
- `Ui` (`src/ui_controller.rs`):
  - `trim_start` and `split(" ")`;
  - the command parser behind Enter;
  - key handling on the prompt buffer;
  - the history line format and the scroll offset;
  - the `UIController` class.

Two details of the code shape the model:

- `handle_publish_packet` drops payloads under two bytes (src/mqtt_controller.rs:159), so a frame carries at least one payload byte after its tag.
- `UIMessage` has a fourth variant, `DM` (src/utils.rs:34), which the history formats with the label `[ DM ]` and both peers.

## Model

| member | source | states |
|---|---|---|
| Packets.TagByte | src/packets.rs:4-8 | the tag byte of each packet type (1, 2, 3) is read back as that type, so the three tags are distinct |
| Packets.TagOf | src/mqtt_controller.rs:164-189 | a received tag byte selects a packet type exactly when it is 1, 2 or 3 |
| Packets.FromFields | src/packets.rs:10-26 | a field list is accepted as a struct only if it has that struct's fields in declaration order and kinds (one string; two strings; two strings then a u64) |
| Packets.FieldsRoundTrip | src/packets.rs:10-26 | every payload struct is rebuilt from its own field list |
| Packets.Fields | src/packets.rs:10-26 | each struct serializes as its fields in declaration order: one, two or three of them, with a u64 only as the third field of a chat message |
| Packets.Deserialize | src/mqtt_controller.rs:166 | a deserialized struct has the requested type and its fields are what the codec read; conversely, whenever the codec reads the field list of a struct of that type, that struct is the result |
| Packets.EncodePacket | src/mqtt_controller.rs:128-131 | a frame is the tag byte of the packet's type followed by the serialized field list |
| Packets.DecodePacket | src/mqtt_controller.rs:158-191 | a frame is too short exactly when it is under 2 bytes. Its type is unknown exactly when byte 0 is outside {1,2,3}. A decoded packet's tag is byte 0, and its fields are what bytes 1.. deserialize to. A frame is malformed only when bytes 1.. do not deserialize as the struct its tag names |
| Packets.DecodeEncode | src/mqtt_controller.rs:124-139 | given a round-tripping codec, every frame `publish_packet` builds is decoded back as the packet it was built from |
| Packets.EncodeInjective | src/mqtt_controller.rs:128-131 | two packets that frame to the same bytes are equal |
| Packets.FrameSplit | src/mqtt_controller.rs:159-161 | a built frame has at least 2 bytes; byte 0 is the tag and bytes 1.. are exactly the serialized payload |
| Base64.Encode | src/data_client.rs:107 | encoding pads to four characters per started group of three bytes |
| Base64.Decode | src/data_client.rs:115 | accepted text has a length that is a multiple of four, and it decodes to no bytes only when it is empty |
| Base64.DecodeEncode | src/data_client.rs:107-115 | what `signature` encodes, `try_verify` decodes back to the same raw signature |
| Base64.EncodeDecode | src/data_client.rs:115 | decoding accepts only canonical text: whatever decodes re-encodes to the same text |
| Decimal.Render | src/data_client.rs:105 | the timestamp is rendered as at least one digit, digits only, with a leading zero only for 0 |
| Decimal.ParseRender | src/data_client.rs:105 | the rendered digits read back as the number |
| Decimal.RenderInjective | src/data_client.rs:105 | different timestamps render differently |
| Hex.Encode | src/utils.rs:25 | two characters per byte |
| Hex.EncodePrefix | src/utils.rs:25 | the first 2k characters of the text encode the first k bytes |
| Hex.EncodeLowerHex | src/utils.rs:25 | every character is a lower-case hex digit |
| Utils.PubkeyHash | src/utils.rs:16-26 | None exactly when the key has no PEM text. Otherwise exactly 6 lower-case hex characters, namely the hex of the first 3 bytes of the SHA-1 digest of the PEM (so the `[..6]` slice is in bounds) |
| Profile.Canonical | src/data_client.rs:105 | the signed text is the message, then `;`, then the timestamp in decimal |
| Profile.NoSeparatorInTimestamp | src/data_client.rs:105 | the canonical text has no `;` after the separator |
| Profile.CanonicalInjective | src/data_client.rs:105 | the text `"{message};{timestamp}"` determines both the message and the timestamp |
| Profile.SignatureOf | src/data_client.rs:103-108 | the signature text decodes from base64 to the key holder's raw signature over the canonical text |
| Profile.TryVerify | src/data_client.rs:110-123 | false when no verifier can be built for the key, when the signature is not base64, or when verification errs. True exactly when a verifier exists, the signature is base64 and the verifier accepts the canonical text |
| Profile.SignThenVerify | src/data_client.rs:103-123 | given sound crypto, a signature made by the key holder verifies under the matching public key |
| Profile.VerifyBindsMessage | src/data_client.rs:110-123 | given binding signatures, a signature verifies under the signer's key for no message or timestamp other than the signed one |
| Profile.VerifyIdentifiesSigner | src/data_client.rs:103-123 | given key-bound signatures, a key under which a signature verifies, for any claimed message and timestamp, is the signer's public key |
| Profile.DataClient.Create | src/data_client.rs:38-55 | a new profile has the alias "Guest", stores the PEM text of the generated key and has no saved aliases |
| Profile.DataClient.Load | src/data_client.rs:56-71 | a loaded profile keeps the stored record |
| Profile.DataClient.ChangeAlias | src/data_client.rs:92-95 | the alias is set whatever the save reports; the key and the saved aliases are unchanged; the save result is returned |
| Profile.DataClient.Pubkey | src/data_client.rs:97-101 | the PEM text of the own key, which parses back to the own public key |
| Engine.AfterStart | src/mqtt_controller.rs:69-76 | `start` subscribes to the room with QoS AtMostOnce, then publishes a request for announcements with version "1.0.0"; nothing else changes |
| Engine.AfterAnnounce | src/mqtt_controller.rs:193-200 | one announcement is published, carrying the current alias and the own PEM; nothing else changes |
| Engine.AfterDispatch | src/mqtt_controller.rs:91-122 | `SendMessage` publishes one chat frame with the clock's seconds (0 on error) and the signature. `ChangeAlias` sets the alias, shows a SystemError only if saving failed, publishes the new announcement, then shows the restart notice. `ChangeTopic` and `SendDM` show only "unimplemented". The registry never changes |
| Engine.FirstVerifier | src/mqtt_controller.rs:218-228 | the position of the first peer whose key verifies the message; None exactly when no key does |
| Engine.FirstVerifierUnique | src/mqtt_controller.rs:218-228 | the first-match property determines the answer uniquely |
| Engine.AfterPacket | src/mqtt_controller.rs:204-236 | handling a decoded packet never changes the alias |
| Engine.AfterPublish | src/mqtt_controller.rs:158-191 | a frame that is short, has an unknown tag or fails to decode changes nothing. Otherwise the registry, the requests and the shown messages each grow by at most one entry at the end |
| Engine.AfterEvent | src/mqtt_controller.rs:141-156 | an event never changes the alias, and the registry and both queues only grow |
| Engine.Timestamp | src/mqtt_controller.rs:94-97 | the clock's seconds since the epoch, or 0 when the clock is before the epoch |
| Engine.AfterStep | src/mqtt_controller.rs:78-88 | one pass of the loop only grows the registry and both queues |
| Engine.AnswersAnnouncementRequest | src/mqtt_controller.rs:193-206 | every received frame that decodes to a request for announcements, in whatever encoding, appends exactly one announcement of the current alias and the own PEM, and changes nothing else, so repeats are answered repeatedly |
| Engine.RegistersAnnouncement | src/mqtt_controller.rs:193-216 | any frame that decodes to an announcement with a parseable key appends exactly that peer at the end, keeping earlier entries and duplicates. One with an unparseable key changes nothing |
| Engine.AttributesChat | src/mqtt_controller.rs:193-236 | any frame that decodes to a chat message is shown once, as `Chat(first verifying peer, message)`, or dropped when no key verifies it; the registry and the requests never change |
| Engine.SentMessageVerifies | src/mqtt_controller.rs:93-107 | the frame `SendMessage` publishes decodes to the message with the clock's timestamp, and its signature verifies under the own public key |
| Engine.StepKeepsChatsFromPeers | src/mqtt_controller.rs:78-88 | if every shown chat names a registered peer, that stays true after one pass of the loop |
| Engine.AfterRun | src/mqtt_controller.rs:78-88 | any finite number of passes of the loop only grows the registry and both queues |
| Engine.RunKeeps | src/mqtt_controller.rs:78-88 | over any sequence of passes, the registry and the queues only grow, and every shown chat names a registered peer |
| Engine.MqttController.constructor | src/mqtt_controller.rs:56-64 | the controller starts with an empty registry |
| Engine.MqttController.Start | src/mqtt_controller.rs:69-76 | the requests made are those of `AfterStart` |
| Engine.MqttController.Poll | src/mqtt_controller.rs:78-88 | one pass dispatches at most one action, then handles at most one event, as `AfterStep` says; the profile changes only in its alias |
| Engine.MqttController.DispatchAction | src/mqtt_controller.rs:91-122 | the new state is `AfterDispatch` of the old one; the stored key and saved aliases stay |
| Engine.MqttController.PublishPacket | src/mqtt_controller.rs:124-139 | exactly one request is appended: a publish at least once, not retained, on the room topic, of the tag byte followed by the serialized payload |
| Engine.MqttController.HandlePacket | src/mqtt_controller.rs:141-156 | the new state is `AfterEvent` of the old one |
| Engine.MqttController.HandlePublishPacket | src/mqtt_controller.rs:158-191 | the new state is `AfterPublish` of the old one |
| Engine.MqttController.SendAnnouncement | src/mqtt_controller.rs:193-200 | the new state is `AfterAnnounce` of the old one |
| Engine.MqttController.DealReqAnnouncement | src/mqtt_controller.rs:204-206 | a request for announcements is answered with an announcement |
| Engine.MqttController.DealAnnouncement | src/mqtt_controller.rs:208-216 | the registry gains the announced peer exactly when its key parses |
| Engine.MqttController.DealChatMessage | src/mqtt_controller.rs:218-236 | the message is shown from the first verifying peer, or not at all |
| Engine.MqttController.FindSender | src/mqtt_controller.rs:219-227 | the scan stops at the first registered peer whose key verifies the message and returns its position, or None when there is none |
| Scenarios.Handshake | src/mqtt_controller.rs:193-216 | B's start-up request makes A announce itself, and B then registers A's alias with A's public key |
| Scenarios.AuthenticatedChat | src/mqtt_controller.rs:218-236 | when A has registered B's key at position k, a message B sends is shown by A exactly once, with B's text, from a peer at position k or earlier. Given key-bound signatures, that peer holds B's public key |
| Scenarios.TamperedNotAttributedToSigner | src/mqtt_controller.rs:218-236 | any frame, in whatever encoding, that decodes to a chat message reusing a signature with another message or timestamp is never attributed to a peer holding the signer's key |
| Scenarios.ShownChatNamesSignerKey | src/mqtt_controller.rs:218-236 | given key-bound signatures, a chat frame signed by a key is shown, if at all, from a registered peer holding that key, whatever message it claims |
| Scenarios.UnregisteredSignerDropped | src/mqtt_controller.rs:218-236 | given key-bound signatures, a chat frame signed by a key that no registered peer holds changes nothing |
| Scenarios.AliasChangeReachesPeers | src/mqtt_controller.rs:108-118 | after B changes its alias, B's announcement makes A register B's key under the new alias |
| Ui.TrimStart | src/ui_controller.rs:215 | the result is the suffix left after the leading White_Space characters, and it does not start with one |
| Ui.Split | src/ui_controller.rs:219 | at least one piece, and no piece contains the separator |
| Ui.SplitCount | src/ui_controller.rs:219 | there is one piece more than there are separators, so repeated spaces give empty pieces |
| Ui.JoinSplit | src/ui_controller.rs:219 | joining the pieces with the separator gives the text back |
| Ui.SplitWithoutSeparator | src/ui_controller.rs:219 | text without a separator is one piece |
| Ui.SplitAtSeparator | src/ui_controller.rs:219 | the text before the first separator is the first piece |
| Ui.SplitJoin | src/ui_controller.rs:219 | pieces free of the separator are recovered by splitting their join |
| Ui.Interpret | src/ui_controller.rs:214-332 | plain text, with only its leading whitespace removed, is sent as a chat message exactly when the trimmed prompt does not start with `/`. A command is decided by `RunCommand` on the pieces of the trimmed prompt split at single spaces. Only chat messages and alias changes are ever sent, only errors are ever shown, and a sent alias never holds a space |
| Ui.RunCommand | src/ui_controller.rs:221-325 | `/dm`, `/list` and `/topic` show "Not implemented."; `/exit`, `/q` and `/help` do nothing, and they are the only commands that do nothing; `/alias` with any number of pieces other than two shows the usage text; any other first piece shows `Unknown command "<piece>".`. Only `/alias` with exactly one argument sends anything, and it sends that argument as the new alias |
| Ui.AliasCommand | src/ui_controller.rs:246-258 | `/alias <a>` for any space-free a, the empty alias included, sends exactly `ChangeAlias(a)` |
| Ui.AliasWithDoubleSpace | src/ui_controller.rs:219-258 | `/alias  <a>` with two spaces shows the usage error and sends nothing |
| Ui.Fingerprint | src/ui_controller.rs:172 | always 6 characters; the `......` fallback appears exactly when the key has no PEM text, so it never looks like a fingerprint |
| Ui.Label | src/ui_controller.rs:124-212 | every kind of line has a six-character label |
| Ui.FormatUIMessage | src/ui_controller.rs:124-212 | every history line opens with the label of its kind and a space, and ends with the message text |
| Ui.EditPrompt | src/ui_controller.rs:67-83 | a character without Ctrl is appended, Backspace drops the last character if there is one, Enter empties the prompt, and Ctrl+C and other keys leave it alone |
| Ui.TypingAppends | src/ui_controller.rs:68-74 | typing characters without Ctrl appends them to the prompt |
| Ui.BackspacesErase | src/ui_controller.rs:75-77 | each Backspace removes one character, and does nothing on an empty prompt |
| Ui.TypeThenErase | src/ui_controller.rs:68-77 | typing a text and pressing Backspace as many times restores the prompt |
| Ui.EditAllConcat | src/ui_controller.rs:56-89 | editing with two key sequences in turn is editing with their concatenation |
| Ui.AfterEnter | src/ui_controller.rs:214-332 | Enter leaves the prompt to the caller and produces at most one history line or one action, never both |
| Ui.Receive | src/ui_controller.rs:57-62 | a received message is formatted and appended after the existing history; nothing else changes, and with no message nothing changes at all |
| Ui.AfterKey | src/ui_controller.rs:64-88 | only Ctrl+C quits; the prompt is edited as the key says; keys other than Enter leave the history and the actions alone, and Enter carries out the prompt and then empties it |
| Ui.AfterEvents | src/ui_controller.rs:56-89 | a received message enters the history at the end, before the key is handled. Only Ctrl+C quits. Only Enter adds a further line or sends an action, and it empties the prompt |
| Ui.ScrollOffset | src/ui_controller.rs:99-103 | None exactly for frames under 5 rows (a u16 underflow). Otherwise the window from the offset shows the last line of the truncated length and is full once the history overflows it |
| Ui.ScrollOffsetWraps | src/ui_controller.rs:99 | with 65536 lines in a 15-row frame the offset is 0, so the oldest lines are shown, where the full length gives 65526 |
| Ui.IntendedScrollOffset | src/ui_controller.rs:99-103 | the same window property on the full history length |
| Ui.ScrollOffsetAgrees | src/ui_controller.rs:99-103 | below 65536 lines the two offsets agree |
| Ui.UIController.constructor | src/ui_controller.rs:30-35 | empty history and prompt |
| Ui.UIController.HandleEvents | src/ui_controller.rs:56-89 | the new state and the quit flag are those of `AfterEvents` |
| Ui.UIController.PromptEnter | src/ui_controller.rs:214-332 | the history and the actions sent change as `AfterEnter` says |
| Ui.UIController.RunCommandOn | src/ui_controller.rs:221-325 | the history and the actions sent change as `RunCommand` decides for the pieces of the command |

## Left out

- MQTT transport, and the connection thread with its "MQTT Error" message (src/mqtt_controller.rs:28-54).
  - The connection thread and the channels are concurrency.
  - A publish is modelled as a request appended to a list, and a subscription likewise.
  - A publish is assumed to succeed. The source panics when it does not (`expect`/`unwrap` at src/mqtt_controller.rs:76, 106, 199). Panics on a closed channel are not modelled either.
- The endless loop of `start`. It is modelled one pass at a time (`Poll`, `AfterStep`) and as any finite sequence of passes (`AfterRun`).
- The handlers that reach `pubkey()` require the own public key to have PEM text, because the source unwraps it there and would panic. These are an alias change and an answer to a request for announcements (`ActionUsesPem`, `FrameUsesPem`). The functions and methods around them (AfterDispatch, AfterPublish, AfterEvent, AfterStep, AfterRun and their methods) require it only for inputs that lead to one of these handlers.
- The cryptography (RSA, SHA-256, SHA-1, PEM parsing and writing) is not implemented. The lemmas take `Sound`, `Binding`, `KeyBound` and `PemRoundTrip` as hypotheses about it. `KeyBound` says a signature verifies under no key but the signer's.
- MessagePack (`rmp_serde`) is not implemented either. The lemmas take `RoundTrips` as the hypothesis about it.
- Profile persistence:
  - the JSON file creation and reading in `DataClient::new`;
  - key generation;
  - parsing the stored private key;
  - `save_changes`.
  - The key is a parameter of the constructors, and the outcome of a save is a parameter of `ChangeAlias`.
- UTF-8 encoding. Texts are signed and hashed as character sequences.
- The clock, the channel receives and the terminal events are parameters.
- Profile.DataClient.Pubkey: `String::from_utf8(...).unwrap()` of the PEM text is not modelled.
- Profile.SignatureOf and Engine.MqttController.PublishPacket are total. The source unwraps `Signer::new`, `update` and `sign_to_vec` (src/data_client.rs:104-107) and `rmp_serde::to_vec` (src/mqtt_controller.rs:128), and would panic if any of them failed.
- Profile.TryVerify: the `update(...).unwrap()` at src/data_client.rs:114 is assumed to succeed.
- Rendering: terminal setup, drawing, styles and colours.
  - A history line is the plain text of its spans.
  - The DM separator is the text the source holds: the UTF-8 bytes of an arrow read back as Windows-1252, U+00E2 U+2020 U+2019.
- Ui.ScrollOffset:
  - Ratatui's `Rect::new` shrinks frames whose area exceeds 65535 cells. The offset is stated for the frame height as given.
  - The underflow for frames under 5 rows is the panic of a debug build. A release build would wrap.
- `/help` builds a table of commands that it never shows. It is modelled as having no effect.
- `println!` logging of undecodable frames.
- src/app.rs and src/client.rs are not part of this model, because the program does not compile them. src/old_ui_controller.rs is commented out. src/main.rs is argument parsing and thread start-up.
- `DirectMessageShare` and `DirectMessage` are declared as data only, because no code frames or handles them.

## Findings

| source | as written | input that shows it | evidently intended | confidence | as-written member | corrected member |
|---|---|---|---|---|---|---|
| src/ui_controller.rs:99-103 | the offset is computed from `history.len() as u16`, which keeps only the low 16 bits of the length | 65536 history lines in a 15-row frame give offset 0, which shows lines 0 to 9 instead of the last ten | the offset from the full length, so the latest lines stay in view | medium, not executed | Ui.ScrollOffsetWraps | Ui.IntendedScrollOffset |
