/** Two engines in one room, wired together the way the broker wires them:
    what one publishes on the topic, the other receives as the payload of an
    incoming publish. These lemmas follow a frame from the sender's request
    list into the receiver's state. */
module Scenarios {
  import opened Basics
  import opened Crypto
  import opened Packets
  import opened Utils
  import opened Profile
  import opened Engine

  /** Both engines use the same room, the same crypto and the same codec. */
  ghost predicate SameRoom(a: Env, b: Env)
  {
    a.topic == b.topic && a.suite == b.suite && a.codec == b.codec
  }

  /** The payload the broker delivers for the latest request; a subscription delivers nothing. */
  function LastDelivered(s: EngineState): seq<byte>
  {
    if s.requests == [] then []
    else
      match s.requests[|s.requests| - 1]
      case Publish(_, _, _, payload) => payload
      case Subscribe(_, _) => []
  }

  /** On start-up B asks the room for announcements; A answers with its alias
      and key; B registers A under that alias with A's public key. */
  lemma Handshake(envA: Env, envB: Env, sA: EngineState, sB: EngineState)
    requires SameRoom(envA, envB) && RoundTrips(envA.codec) && PemRoundTrip(envA.suite)
    requires OwnPemOk(envA)
    ensures var b1 := AfterStart(envB, sB);
      var a1 := AfterPublish(envA, sA, LastDelivered(b1));
      var b2 := AfterPublish(envB, b1, LastDelivered(a1));
      && a1.requests == sA.requests + [Published(envA, Announcement(sA.alias, OwnPem(envA)))]
      && b2.peers == sB.peers + [ChatClient(sA.alias, envA.suite.publicOf(envA.key))]
  {
    var b1 := AfterStart(envB, sB);
    assert LastDelivered(b1) == EncodePacket(envA.codec, ReqAnnouncement(ProtocolVersion));
    DecodeEncode(envA.codec, ReqAnnouncement(ProtocolVersion));
    AnswersAnnouncementRequest(envA, sA, LastDelivered(b1), ProtocolVersion);
    var a1 := AfterPublish(envA, sA, LastDelivered(b1));
    assert LastDelivered(a1) == EncodePacket(envB.codec, Announcement(sA.alias, OwnPem(envA)));
    DecodeEncode(envB.codec, Announcement(sA.alias, OwnPem(envA)));
    RegistersAnnouncement(envB, b1, LastDelivered(a1), sA.alias, OwnPem(envA));
  }

  /** When A has B's key registered at position k, a message B sends is shown
      by A exactly once, with B's text, attributed to a peer no later than k
      (an earlier entry for the same key, or one whose key also verifies).
      When signatures are bound to their key, that peer holds B's key. */
  lemma AuthenticatedChat(envA: Env, envB: Env, sA: EngineState, sB: EngineState,
                          message: string, clock: Option<u64>, saved: SaveResult, k: nat)
    requires SameRoom(envA, envB) && RoundTrips(envA.codec) && Sound(envA.suite)
    requires k < |sA.peers| && sA.peers[k].pubkey == envB.suite.publicOf(envB.key)
    ensures var b1 := AfterDispatch(envB, sB, SendMessage(message), clock, saved);
      var a1 := AfterPublish(envA, sA, LastDelivered(b1));
      && a1.peers == sA.peers
      && exists j :: 0 <= j <= k && a1.uiOut == sA.uiOut + [Chat(sA.peers[j], message)]
                  && (KeyBound(envA.suite) ==> sA.peers[j].pubkey == envB.suite.publicOf(envB.key))
  {
    var t := Timestamp(clock);
    var sig := SignatureOf(envB.suite, envB.key, message, t);
    var b1 := AfterDispatch(envB, sB, SendMessage(message), clock, saved);
    assert LastDelivered(b1) == EncodePacket(envA.codec, ChatMessage(message, sig, t));
    DecodeEncode(envA.codec, ChatMessage(message, sig, t));
    SignThenVerify(envB.suite, envB.key, message, t);
    assert Verifies(envA.suite, sA.peers[k], message, t, sig);
    AttributesChat(envA, sA, LastDelivered(b1), message, sig, t);
    var first := FirstVerifier(envA.suite, sA.peers, message, t, sig);
    var j := first.value;
    assert j <= k;
    if KeyBound(envA.suite) {
      VerifyIdentifiesSigner(envB.suite, envB.key, message, t, message, t, sA.peers[j].pubkey);
    }
    var a1 := AfterPublish(envA, sA, LastDelivered(b1));
    assert a1.uiOut == sA.uiOut + [Chat(sA.peers[j], message)];
  }

  /** A frame, in whatever encoding, carrying a signature made over one
      message and timestamp but claiming another is never attributed to a
      peer holding the signer's key: if A shows it at all, it names a peer
      with a different key. */
  lemma TamperedNotAttributedToSigner(envA: Env, sA: EngineState, payload: seq<byte>, signer: PrivateKey,
                                      message: string, timestamp: u64, forged: string, forgedTime: u64)
    requires Binding(envA.suite)
    requires forged != message || forgedTime != timestamp
    requires DecodePacket(envA.codec, payload)
          == Decoded(ChatMessage(forged, SignatureOf(envA.suite, signer, message, timestamp), forgedTime))
    ensures var a1 := AfterPublish(envA, sA, payload);
      && a1.peers == sA.peers
      && (a1.uiOut == sA.uiOut
          || (&& |a1.uiOut| == |sA.uiOut| + 1
              && a1.uiOut[|sA.uiOut|].Chat?
              && a1.uiOut[|sA.uiOut|].from.pubkey != envA.suite.publicOf(signer)))
  {
    var sig := SignatureOf(envA.suite, signer, message, timestamp);
    AttributesChat(envA, sA, payload, forged, sig, forgedTime);
    var first := FirstVerifier(envA.suite, sA.peers, forged, forgedTime, sig);
    if first.Some? {
      var p := sA.peers[first.value];
      if p.pubkey == envA.suite.publicOf(signer) {
        VerifyBindsMessage(envA.suite, signer, message, timestamp, forged, forgedTime);
        assert false;
      }
    }
  }

  /** When signatures are bound to their key, a chat frame signed by some key
      is shown, if at all, from a peer holding that key, whatever message and
      timestamp the frame claims. */
  lemma ShownChatNamesSignerKey(envA: Env, sA: EngineState, payload: seq<byte>, signer: PrivateKey,
                                message: string, timestamp: u64, claimed: string, claimedTime: u64)
    requires KeyBound(envA.suite)
    requires DecodePacket(envA.codec, payload)
          == Decoded(ChatMessage(claimed, SignatureOf(envA.suite, signer, message, timestamp), claimedTime))
    ensures var a1 := AfterPublish(envA, sA, payload);
      && a1.peers == sA.peers
      && (a1.uiOut == sA.uiOut
          || (&& a1.uiOut == sA.uiOut + [a1.uiOut[|sA.uiOut|]]
              && a1.uiOut[|sA.uiOut|].Chat?
              && a1.uiOut[|sA.uiOut|].from in sA.peers
              && a1.uiOut[|sA.uiOut|].from.pubkey == envA.suite.publicOf(signer)))
  {
    var sig := SignatureOf(envA.suite, signer, message, timestamp);
    AttributesChat(envA, sA, payload, claimed, sig, claimedTime);
    var first := FirstVerifier(envA.suite, sA.peers, claimed, claimedTime, sig);
    if first.Some? {
      var p := sA.peers[first.value];
      VerifyIdentifiesSigner(envA.suite, signer, message, timestamp, claimed, claimedTime, p.pubkey);
    }
  }

  /** When signatures are bound to their key, a chat frame signed by a key no
      registered peer holds is dropped: nothing is shown. */
  lemma UnregisteredSignerDropped(envA: Env, sA: EngineState, payload: seq<byte>, signer: PrivateKey,
                                  message: string, timestamp: u64, claimed: string, claimedTime: u64)
    requires KeyBound(envA.suite)
    requires forall p :: p in sA.peers ==> p.pubkey != envA.suite.publicOf(signer)
    requires DecodePacket(envA.codec, payload)
          == Decoded(ChatMessage(claimed, SignatureOf(envA.suite, signer, message, timestamp), claimedTime))
    ensures AfterPublish(envA, sA, payload) == sA
  {
    ShownChatNamesSignerKey(envA, sA, payload, signer, message, timestamp, claimed, claimedTime);
  }

  /** After B changes its alias, the announcement it publishes makes A
      register B's key under the new alias. */
  lemma AliasChangeReachesPeers(envA: Env, envB: Env, sA: EngineState, sB: EngineState,
                                alias: string, clock: Option<u64>, saved: SaveResult)
    requires SameRoom(envA, envB) && RoundTrips(envA.codec) && PemRoundTrip(envA.suite)
    requires OwnPemOk(envB)
    ensures var b1 := AfterDispatch(envB, sB, ChangeAlias(alias), clock, saved);
      var a1 := AfterPublish(envA, sA, LastDelivered(b1));
      && b1.alias == alias
      && a1.peers == sA.peers + [ChatClient(alias, envB.suite.publicOf(envB.key))]
      && a1.uiOut == sA.uiOut && a1.requests == sA.requests
  {
    var b1 := AfterDispatch(envB, sB, ChangeAlias(alias), clock, saved);
    assert LastDelivered(b1) == EncodePacket(envA.codec, Announcement(alias, OwnPem(envB)));
    DecodeEncode(envA.codec, Announcement(alias, OwnPem(envB)));
    RegistersAnnouncement(envA, sA, LastDelivered(b1), alias, OwnPem(envB));
  }
}
