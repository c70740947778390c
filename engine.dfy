/** The protocol engine (src/mqtt_controller.rs): it turns interface actions
    into published frames and received frames into registry updates and
    attributed chat messages.

    The MQTT client is modelled as the list of requests handed to it
    (`requests`), the channel to the interface as the list of messages sent on
    it (`uiOut`). The functions over `EngineState` say what each handler does
    to that state; the `MqttController` class below does it in place and is
    proved to agree with them. */
module Engine {
  import opened Basics
  import opened Crypto
  import opened Packets
  import opened Utils
  import opened Profile

  datatype QoS = AtMostOnce | AtLeastOnce | ExactlyOnce

  /** A call made on the MQTT client. */
  datatype MqttRequest =
    | Subscribe(topic: string, qos: QoS)
    | Publish(topic: string, qos: QoS, retain: bool, payload: seq<byte>)

  /** The incoming MQTT packets the engine tells apart. */
  datatype IncomingPacket = IncomingPublish(payload: seq<byte>) | ConnAck | OtherIncoming

  /** A connection event as the background thread forwards it. */
  datatype Event = Incoming(packet: IncomingPacket) | Outgoing

  /** What stays fixed while the engine runs: the room, the collaborators and the own key. */
  datatype Env = Env(topic: string, suite: Suite, codec: Codec, key: PrivateKey)

  /** `pubkey()` unwraps the PEM text of the own key: announcing needs it to exist. */
  predicate OwnPemOk(env: Env)
  {
    env.suite.publicKeyToPem(env.suite.publicOf(env.key)).Some?
  }

  function OwnPem(env: Env): string
    requires OwnPemOk(env)
  {
    env.suite.publicKeyToPem(env.suite.publicOf(env.key)).value
  }

  /** Whether handling an action reaches `pubkey()`: only an alias change announces. */
  predicate ActionUsesPem(action: UIAction)
  {
    action.ChangeAlias?
  }

  /** Whether handling a received frame reaches `pubkey()`: only a request
      for announcements is answered with the own key. */
  predicate FrameUsesPem(c: Codec, payload: seq<byte>)
  {
    var d := DecodePacket(c, payload);
    d.Decoded? && d.packet.ReqAnnouncement?
  }

  predicate EventUsesPem(c: Codec, e: Event)
  {
    e.Incoming? && e.packet.IncomingPublish? && FrameUsesPem(c, e.packet.payload)
  }

  predicate InputUsesPem(c: Codec, i: Input)
  {
    || (i.action.Some? && ActionUsesPem(i.action.value))
    || (i.event.Some? && EventUsesPem(c, i.event.value))
  }

  /** The state the engine changes: the own alias, the peer registry
      (`chat_clients`), the requests made on the MQTT client and the messages
      sent to the interface. */
  datatype EngineState = EngineState(
    alias: string,
    peers: seq<ChatClient>,
    requests: seq<MqttRequest>,
    uiOut: seq<UIMessage>)

  /** `publish_packet`: at-least-once, not retained, on the room topic. */
  function Published(env: Env, p: Packet): MqttRequest
  {
    Publish(env.topic, AtLeastOnce, false, EncodePacket(env.codec, p))
  }

  const ProtocolVersion := "1.0.0"

  const RestartNotice := "Restart client to apply changes"

  const Unimplemented := "unimplemented"

  /** `start` before its loop: subscribe with QoS AtMostOnce, then ask the room for announcements. */
  function AfterStart(env: Env, s: EngineState): (r: EngineState)
    ensures r.requests == s.requests + [Subscribe(env.topic, AtMostOnce), Published(env, ReqAnnouncement(ProtocolVersion))]
    ensures r.(requests := s.requests) == s
  {
    s.(requests := s.requests + [Subscribe(env.topic, AtMostOnce), Published(env, ReqAnnouncement(ProtocolVersion))])
  }

  /** The timestamp of a sent message: seconds since the epoch, or 0 when the clock fails. */
  function Timestamp(clock: Option<u64>): (t: u64)
    ensures clock.Some? ==> t == clock.value
    ensures clock.None? ==> t == 0
  {
    match clock
    case Some(seconds) => seconds
    case None => 0
  }

  /** `send_announcement`: the current alias and the own public key. */
  function AfterAnnounce(env: Env, s: EngineState): (r: EngineState)
    requires OwnPemOk(env)
    ensures r.(requests := s.requests) == s
    ensures r.requests == s.requests + [Published(env, Announcement(s.alias, OwnPem(env)))]
  {
    s.(requests := s.requests + [Published(env, Announcement(s.alias, OwnPem(env)))])
  }

  /** `dispatch_action`. */
  function AfterDispatch(env: Env, s: EngineState, action: UIAction, clock: Option<u64>, saved: SaveResult): (r: EngineState)
    requires ActionUsesPem(action) ==> OwnPemOk(env)
    ensures r.peers == s.peers
    ensures r.alias == (if action.ChangeAlias? then action.alias else s.alias)
    ensures action.SendMessage? ==>
      && r.uiOut == s.uiOut
      && |r.requests| == |s.requests| + 1 && r.requests[..|s.requests|] == s.requests
      && var m := action.message; var t := Timestamp(clock);
         r.requests[|s.requests|] == Published(env, ChatMessage(m, SignatureOf(env.suite, env.key, m, t), t))
    ensures action.ChangeAlias? ==>
      && r.requests == s.requests + [Published(env, Announcement(action.alias, OwnPem(env)))]
      && r.uiOut == s.uiOut + (if saved.SaveFailed? then [SystemError(saved.debug)] else []) + [System(RestartNotice)]
    ensures action.ChangeTopic? || action.SendDM? ==> r == s.(uiOut := s.uiOut + [SystemError(Unimplemented)])
  {
    match action
    case SendMessage(message) =>
      var timestamp := Timestamp(clock);
      var signature := SignatureOf(env.suite, env.key, message, timestamp);
      s.(requests := s.requests + [Published(env, ChatMessage(message, signature, timestamp))])
    case ChangeAlias(alias) =>
      var s1 := s.(alias := alias);
      var s2 := if saved.SaveFailed? then s1.(uiOut := s1.uiOut + [SystemError(saved.debug)]) else s1;
      var s3 := AfterAnnounce(env, s2);
      s3.(uiOut := s3.uiOut + [System(RestartNotice)])
    case _ =>
      s.(uiOut := s.uiOut + [SystemError(Unimplemented)])
  }

  /** Whether a peer's key verifies a chat message. */
  predicate Verifies(suite: Suite, p: ChatClient, message: string, timestamp: u64, signature: string)
  {
    TryVerify(suite, message, timestamp, signature, p.pubkey)
  }

  /** The position of the first registered peer whose key verifies the message. */
  function FirstVerifier(suite: Suite, peers: seq<ChatClient>, message: string, timestamp: u64, signature: string): (r: Option<nat>)
    ensures r.Some? ==>
      && r.value < |peers|
      && Verifies(suite, peers[r.value], message, timestamp, signature)
      && forall j :: 0 <= j < r.value ==> !Verifies(suite, peers[j], message, timestamp, signature)
    ensures r.None? ==> forall j :: 0 <= j < |peers| ==> !Verifies(suite, peers[j], message, timestamp, signature)
    decreases |peers|
  {
    if peers == [] then None
    else if Verifies(suite, peers[0], message, timestamp, signature) then Some(0)
    else
      match FirstVerifier(suite, peers[1..], message, timestamp, signature)
      case None => None
      case Some(k) => Some(k + 1)
  }

  /** `deal_req_announcement`, `deal_announcement` and `deal_chat_message`. */
  function AfterPacket(env: Env, s: EngineState, p: Packet): (r: EngineState)
    requires p.ReqAnnouncement? ==> OwnPemOk(env)
    ensures r.alias == s.alias
  {
    match p
    case ReqAnnouncement(_) => AfterAnnounce(env, s)
    case Announcement(alias, pem) =>
      (match env.suite.publicKeyFromPem(pem)
       case None => s
       case Some(pk) => s.(peers := s.peers + [ChatClient(alias, pk)]))
    case ChatMessage(message, signature, timestamp) =>
      match FirstVerifier(env.suite, s.peers, message, timestamp, signature)
      case None => s
      case Some(i) => s.(uiOut := s.uiOut + [Chat(s.peers[i], message)])
  }

  /** `after` is `before`, or `before` with one more entry at the end. */
  predicate AppendsAtMostOne<T(==)>(before: seq<T>, after: seq<T>)
  {
    after == before || (|after| == |before| + 1 && after[..|before|] == before)
  }

  /** `handle_publish_packet`: undecodable frames change nothing; the registry
      and both queues only ever grow, by at most one entry each. */
  function AfterPublish(env: Env, s: EngineState, payload: seq<byte>): (r: EngineState)
    requires FrameUsesPem(env.codec, payload) ==> OwnPemOk(env)
    ensures !DecodePacket(env.codec, payload).Decoded? ==> r == s
    ensures r.alias == s.alias
    ensures AppendsAtMostOne(s.peers, r.peers)
    ensures AppendsAtMostOne(s.requests, r.requests)
    ensures AppendsAtMostOne(s.uiOut, r.uiOut)
  {
    match DecodePacket(env.codec, payload)
    case Decoded(p) => AfterPacket(env, s, p)
    case _ => s
  }

  function ConnectedNotice(topic: string): string
  {
    "Connected to room \"" + topic + "\""
  }

  /** `handle_packet`: received frames are handled, a connection
      acknowledgement is reported, everything else is ignored. */
  function AfterEvent(env: Env, s: EngineState, e: Event): (r: EngineState)
    requires EventUsesPem(env.codec, e) ==> OwnPemOk(env)
    ensures r.alias == s.alias
    ensures s.peers <= r.peers && s.requests <= r.requests && s.uiOut <= r.uiOut
  {
    match e
    case Incoming(IncomingPublish(payload)) => AfterPublish(env, s, payload)
    case Incoming(ConnAck) => s.(uiOut := s.uiOut + [System(ConnectedNotice(env.topic))])
    case _ => s
  }

  /** One pass of the loop in `start`: at most one action, then at most one event. */
  datatype Input = Input(action: Option<UIAction>, event: Option<Event>, clock: Option<u64>, saved: SaveResult)

  function AfterStep(env: Env, s: EngineState, i: Input): (r: EngineState)
    requires InputUsesPem(env.codec, i) ==> OwnPemOk(env)
    ensures s.peers <= r.peers && s.requests <= r.requests && s.uiOut <= r.uiOut
  {
    var s1 := if i.action.Some? then AfterDispatch(env, s, i.action.value, i.clock, i.saved) else s;
    if i.event.Some? then AfterEvent(env, s1, i.event.value) else s1
  }

  function AfterRun(env: Env, s: EngineState, inputs: seq<Input>): (r: EngineState)
    requires OwnPemOk(env) || forall i :: i in inputs ==> !InputUsesPem(env.codec, i)
    ensures s.peers <= r.peers && s.requests <= r.requests && s.uiOut <= r.uiOut
    decreases |inputs|
  {
    if inputs == [] then s else AfterRun(env, AfterStep(env, s, inputs[0]), inputs[1..])
  }

  /** The first-verifier contract pins its result down. */
  lemma {:induction false} FirstVerifierUnique(suite: Suite, peers: seq<ChatClient>, message: string, timestamp: u64, signature: string, r: Option<nat>)
    requires r.Some? ==>
      && r.value < |peers|
      && Verifies(suite, peers[r.value], message, timestamp, signature)
      && forall j :: 0 <= j < r.value ==> !Verifies(suite, peers[j], message, timestamp, signature)
    requires r.None? ==> forall j :: 0 <= j < |peers| ==> !Verifies(suite, peers[j], message, timestamp, signature)
    ensures r == FirstVerifier(suite, peers, message, timestamp, signature)
    decreases |peers|
  {
    if peers != [] && !Verifies(suite, peers[0], message, timestamp, signature) {
      var tail := peers[1..];
      var r' := if r.Some? then Some(r.value - 1) else None;
      FirstVerifierUnique(suite, tail, message, timestamp, signature, r');
    }
  }

  /** Every received frame that decodes to a request for announcements, in
      whatever encoding, is answered with exactly one announcement of the
      current alias and the own key; nothing else changes, and repeated
      requests are answered repeatedly. */
  lemma AnswersAnnouncementRequest(env: Env, s: EngineState, payload: seq<byte>, version: string)
    requires DecodePacket(env.codec, payload) == Decoded(ReqAnnouncement(version)) && OwnPemOk(env)
    ensures AfterPublish(env, s, payload)
         == s.(requests := s.requests + [Published(env, Announcement(s.alias, OwnPem(env)))])
  {
  }

  /** A received frame that decodes to an announcement whose key parses
      registers one more peer at the end of the registry, earlier entries
      untouched and duplicates kept; one whose key does not parse changes
      nothing. */
  lemma RegistersAnnouncement(env: Env, s: EngineState, payload: seq<byte>, alias: string, pem: string)
    requires DecodePacket(env.codec, payload) == Decoded(Announcement(alias, pem))
    ensures var r := AfterPublish(env, s, payload);
      && r.requests == s.requests && r.uiOut == s.uiOut && r.alias == s.alias
      && match env.suite.publicKeyFromPem(pem)
         case None => r.peers == s.peers
         case Some(pk) => r.peers == s.peers + [ChatClient(alias, pk)]
  {
  }

  /** A received frame that decodes to a chat message is shown once,
      attributed to the first registered peer whose key verifies it, and
      dropped when none does; the registry and the requests never change. */
  lemma AttributesChat(env: Env, s: EngineState, payload: seq<byte>, message: string, signature: string, timestamp: u64)
    requires DecodePacket(env.codec, payload) == Decoded(ChatMessage(message, signature, timestamp))
    ensures var r := AfterPublish(env, s, payload);
      && r.peers == s.peers && r.requests == s.requests && r.alias == s.alias
      && match FirstVerifier(env.suite, s.peers, message, timestamp, signature)
         case None => r.uiOut == s.uiOut
         case Some(i) => i < |s.peers| && r.uiOut == s.uiOut + [Chat(s.peers[i], message)]
  {
  }

  /** The frame `SendMessage` publishes reads back as the chat message, and
      its signature verifies under the own public key. */
  lemma SentMessageVerifies(env: Env, s: EngineState, message: string, clock: Option<u64>, saved: SaveResult)
    requires RoundTrips(env.codec) && Sound(env.suite)
    ensures var r := AfterDispatch(env, s, SendMessage(message), clock, saved);
      var t := Timestamp(clock);
      && r.requests[..|s.requests|] == s.requests
      && |r.requests| == |s.requests| + 1
      && r.requests[|s.requests|].Publish?
      && match DecodePacket(env.codec, r.requests[|s.requests|].payload)
         case Decoded(ChatMessage(m, sig, ts)) =>
           m == message && ts == t && TryVerify(env.suite, m, ts, sig, env.suite.publicOf(env.key))
         case _ => false
  {
    var t := Timestamp(clock);
    var sig := SignatureOf(env.suite, env.key, message, t);
    DecodeEncode(env.codec, ChatMessage(message, sig, t));
    SignThenVerify(env.suite, env.key, message, t);
  }

  /** Every message the interface has shown as a chat names a registered peer. */
  ghost predicate ChatsFromPeers(s: EngineState)
  {
    forall k :: 0 <= k < |s.uiOut| && s.uiOut[k].Chat? ==> s.uiOut[k].from in s.peers
  }

  lemma StepKeepsChatsFromPeers(env: Env, s: EngineState, i: Input)
    requires (InputUsesPem(env.codec, i) ==> OwnPemOk(env)) && ChatsFromPeers(s)
    ensures ChatsFromPeers(AfterStep(env, s, i))
  {
    var s1 := if i.action.Some? then AfterDispatch(env, s, i.action.value, i.clock, i.saved) else s;
    assert ChatsFromPeers(s1) by {
      if i.action.Some? && i.action.value.ChangeAlias? {
        assert forall k :: |s.uiOut| <= k < |s1.uiOut| ==> !s1.uiOut[k].Chat?;
      }
    }
  }

  /** Over any run, the registry, the requests and the shown messages only
      grow, and every shown chat names a registered peer. */
  lemma {:induction false} RunKeeps(env: Env, s: EngineState, inputs: seq<Input>)
    requires OwnPemOk(env) || forall i :: i in inputs ==> !InputUsesPem(env.codec, i)
    requires ChatsFromPeers(s)
    ensures var r := AfterRun(env, s, inputs);
      && s.peers <= r.peers && s.requests <= r.requests && s.uiOut <= r.uiOut
      && ChatsFromPeers(r)
    decreases |inputs|
  {
    if inputs != [] {
      var s1 := AfterStep(env, s, inputs[0]);
      StepKeepsChatsFromPeers(env, s, inputs[0]);
      RunKeeps(env, s1, inputs[1..]);
    }
  }

  /** `MqttController`: the peer registry lives in `chatClients`, the MQTT
      client and the interface channel are the request and message lists the
      methods append to, and the profile is the shared `DataClient`. */
  class MqttController {
    const settings: ClientSettings
    const data: DataClient
    const suite: Suite
    const codec: Codec
    var chatClients: seq<ChatClient>
    var requests: seq<MqttRequest>
    var uiOut: seq<UIMessage>

    function Context(): Env
    {
      Env(settings.topic, suite, codec, data.rsa)
    }

    function State(): EngineState
      reads this, data
    {
      EngineState(data.databaseFile.alias, chatClients, requests, uiOut)
    }

    /** `new`: an empty registry; the connection is opened elsewhere. */
    constructor (settings: ClientSettings, data: DataClient, suite: Suite, codec: Codec)
      ensures this.settings == settings && this.data == data && this.suite == suite && this.codec == codec
      ensures chatClients == [] && requests == [] && uiOut == []
    {
      this.settings := settings;
      this.data := data;
      this.suite := suite;
      this.codec := codec;
      chatClients := [];
      requests := [];
      uiOut := [];
    }

    /** `start` up to its loop. */
    method Start()
      modifies this
      ensures State() == AfterStart(Context(), old(State()))
    {
      requests := requests + [Subscribe(settings.topic, AtMostOnce)];
      PublishPacket(ReqAnnouncement(ProtocolVersion));
    }

    /** One pass of the loop in `start`. */
    method Poll(i: Input)
      requires InputUsesPem(codec, i) ==> OwnPemOk(Context())
      modifies this, data
      ensures State() == AfterStep(Context(), old(State()), i)
      ensures data.databaseFile == old(data.databaseFile).(alias := data.databaseFile.alias)
    {
      if i.action.Some? {
        DispatchAction(i.action.value, i.clock, i.saved);
      }
      if i.event.Some? {
        HandlePacket(i.event.value);
      }
    }

    /** `dispatch_action`; `clock` is what the system clock reported and
        `saved` what saving the profile reported. */
    method DispatchAction(action: UIAction, clock: Option<u64>, saved: SaveResult)
      requires ActionUsesPem(action) ==> OwnPemOk(Context())
      modifies this, data
      ensures State() == AfterDispatch(Context(), old(State()), action, clock, saved)
      ensures data.databaseFile == old(data.databaseFile).(alias := data.databaseFile.alias)
    {
      match action
      case SendMessage(message) =>
        var timestamp := Timestamp(clock);
        var signature := SignatureOf(suite, data.rsa, message, timestamp);
        PublishPacket(ChatMessage(message, signature, timestamp));
      case ChangeAlias(alias) =>
        var res := data.ChangeAlias(alias, saved);
        if res.SaveFailed? {
          uiOut := uiOut + [SystemError(res.debug)];
        }
        SendAnnouncement();
        uiOut := uiOut + [System(RestartNotice)];
      case _ =>
        uiOut := uiOut + [SystemError(Unimplemented)];
    }

    /** `publish_packet`: the tag byte, then the serialized payload. */
    method PublishPacket(p: Packet)
      modifies this`requests
      ensures requests == old(requests) + [Published(Context(), p)]
    {
      var publishData := [TagByte(TypeOf(p))];
      publishData := publishData + codec.serialize(Fields(p));
      requests := requests + [Publish(settings.topic, AtLeastOnce, false, publishData)];
    }

    method HandlePacket(e: Event)
      requires EventUsesPem(codec, e) ==> OwnPemOk(Context())
      modifies this
      ensures State() == AfterEvent(Context(), old(State()), e)
    {
      match e
      case Incoming(IncomingPublish(payload)) => HandlePublishPacket(payload);
      case Incoming(ConnAck) => uiOut := uiOut + [System(ConnectedNotice(settings.topic))];
      case _ =>
    }

    /** `handle_publish_packet`; a frame that does not deserialize is only logged. */
    method HandlePublishPacket(payload: seq<byte>)
      requires FrameUsesPem(codec, payload) ==> OwnPemOk(Context())
      modifies this
      ensures State() == AfterPublish(Context(), old(State()), payload)
    {
      if |payload| < 2 {
        return;
      }
      var packetType := payload[0];
      var packetData := payload[1..];
      if packetType == 1 {
        var packetRes := Deserialize(codec, ReqAnnouncementTag, packetData);
        if packetRes.Some? {
          DealReqAnnouncement(packetRes.value);
        }
      } else if packetType == 2 {
        var packetRes := Deserialize(codec, AnnouncementTag, packetData);
        if packetRes.Some? {
          DealAnnouncement(packetRes.value);
        }
      } else if packetType == 3 {
        var packetRes := Deserialize(codec, ChatMessageTag, packetData);
        if packetRes.Some? {
          DealChatMessage(packetRes.value);
        }
      }
    }

    /** `send_announcement`. */
    method SendAnnouncement()
      requires OwnPemOk(Context())
      modifies this`requests
      ensures State() == AfterAnnounce(Context(), old(State()))
    {
      PublishPacket(Announcement(data.databaseFile.alias, data.Pubkey(suite)));
    }

    method DealReqAnnouncement(p: Packet)
      requires p.ReqAnnouncement? && OwnPemOk(Context())
      modifies this`requests
      ensures State() == AfterPacket(Context(), old(State()), p)
    {
      SendAnnouncement();
    }

    /** `deal_announcement`: a key that does not parse drops the announcement. */
    method DealAnnouncement(p: Packet)
      requires p.Announcement?
      modifies this`chatClients
      ensures State() == AfterPacket(Context(), old(State()), p)
    {
      var pubkey := suite.publicKeyFromPem(p.pubKey);
      if pubkey.None? {
        return;
      }
      chatClients := chatClients + [ChatClient(p.alias, pubkey.value)];
    }

    /** `deal_chat_message`: shown only when a registered key verifies it. */
    method DealChatMessage(p: Packet)
      requires p.ChatMessage?
      modifies this`uiOut
      ensures State() == AfterPacket(Context(), old(State()), p)
    {
      var fromClientRes := FindSender(p.message, p.timestamp, p.signature);
      if fromClientRes.None? {
        return;
      }
      uiOut := uiOut + [Chat(chatClients[fromClientRes.value], p.message)];
    }

    /** The scan in `deal_chat_message`: registered peers in order, stopping
        at the first whose key verifies the message. */
    method FindSender(message: string, timestamp: u64, signature: string) returns (found: Option<nat>)
      ensures found == FirstVerifier(suite, chatClients, message, timestamp, signature)
    {
      found := None;
      var i := 0;
      while i < |chatClients|
        invariant 0 <= i <= |chatClients|
        invariant forall j :: 0 <= j < i ==> !Verifies(suite, chatClients[j], message, timestamp, signature)
      {
        var ok := TryVerify(suite, message, timestamp, signature, chatClients[i].pubkey);
        if ok {
          found := Some(i);
          break;
        }
        i := i + 1;
      }
      FirstVerifierUnique(suite, chatClients, message, timestamp, signature, found);
    }
  }
}
