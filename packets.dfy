/** The wire packets of the chat (src/packets.rs) and their framing: one tag
    byte naming the packet type, followed by the MessagePack serialization of
    the payload struct. The MessagePack codec itself is kept abstract as a
    `Codec` over the list of a struct's field values; serde hands a struct to
    it as the array of its fields in declaration order. */
module Packets {
  import opened Basics

  /** `PacketType`, a `#[repr(u8)]` enum; its discriminants are the tag bytes. */
  datatype PacketType = ReqAnnouncementTag | AnnouncementTag | ChatMessageTag

  function TagByte(t: PacketType): (b: byte)
    ensures TagOf(b) == Some(t)
  {
    match t
    case ReqAnnouncementTag => 1
    case AnnouncementTag => 2
    case ChatMessageTag => 3
  }

  /** The packet type a received tag byte names; `None` for every other byte. */
  function TagOf(b: byte): (r: Option<PacketType>)
    ensures r.Some? <==> b in {1, 2, 3}
  {
    if b == 1 then Some(ReqAnnouncementTag)
    else if b == 2 then Some(AnnouncementTag)
    else if b == 3 then Some(ChatMessageTag)
    else None
  }

  /** The three payload structs that can be framed: `ReqAnnouncement { version }`,
      `Announcement { alias, pub_key }` and
      `ChatMessage { message, signature, timestamp }`. */
  datatype Packet =
    | ReqAnnouncement(version: string)
    | Announcement(alias: string, pubKey: string)
    | ChatMessage(message: string, signature: string, timestamp: u64)

  /** Declared for direct messages, but with no `PacketType` tag: they are
      never framed, sent or dispatched. */
  datatype DirectMessageShare = DirectMessageShare(forHash: string, sharedSecret: string)

  datatype DirectMessage = DirectMessage(toHash: string, message: string, signature: string, timestamp: u64)

  function TypeOf(p: Packet): PacketType
  {
    match p
    case ReqAnnouncement(_) => ReqAnnouncementTag
    case Announcement(_, _) => AnnouncementTag
    case ChatMessage(_, _, _) => ChatMessageTag
  }

  /** A field value as the serializer sees it. */
  datatype Value = Str(text: string) | U64(number: u64)

  /** The fields of a payload struct, in declaration order. */
  function Fields(p: Packet): (r: seq<Value>)
    ensures |r| == (match TypeOf(p) case ReqAnnouncementTag => 1 case AnnouncementTag => 2 case ChatMessageTag => 3)
    ensures forall i :: 0 <= i < |r| ==> (r[i].U64? <==> p.ChatMessage? && i == 2)
  {
    match p
    case ReqAnnouncement(v) => [Str(v)]
    case Announcement(a, k) => [Str(a), Str(k)]
    case ChatMessage(m, s, t) => [Str(m), Str(s), U64(t)]
  }

  /** The struct of the given type that a field list describes, if it has
      that struct's fields (count, order and kinds). */
  function FromFields(t: PacketType, f: seq<Value>): (r: Option<Packet>)
    ensures r.Some? ==> TypeOf(r.value) == t && Fields(r.value) == f
  {
    match t
    case ReqAnnouncementTag =>
      if |f| == 1 && f[0].Str? then Some(ReqAnnouncement(f[0].text)) else None
    case AnnouncementTag =>
      if |f| == 2 && f[0].Str? && f[1].Str? then Some(Announcement(f[0].text, f[1].text)) else None
    case ChatMessageTag =>
      if |f| == 3 && f[0].Str? && f[1].Str? && f[2].U64? then
        Some(ChatMessage(f[0].text, f[1].text, f[2].number))
      else None
  }

  lemma FieldsRoundTrip(p: Packet)
    ensures FromFields(TypeOf(p), Fields(p)) == Some(p)
  {
  }

  /** `rmp_serde::to_vec` and `rmp_serde::from_slice`, abstracted. */
  datatype Codec = Codec(serialize: seq<Value> -> seq<byte>, deserialize: seq<byte> -> Option<seq<Value>>)

  /** What the chat relies on the codec for: deserialization inverts
      serialization, and a serialized struct is never empty (MessagePack
      writes at least an array header). */
  ghost predicate RoundTrips(c: Codec)
  {
    forall f: seq<Value> {:trigger c.serialize(f)} ::
      c.deserialize(c.serialize(f)) == Some(f) && |c.serialize(f)| >= 1
  }

  /** `rmp_serde::from_slice` into the struct of the given type. */
  function Deserialize(c: Codec, t: PacketType, bytes: seq<byte>): (r: Option<Packet>)
    ensures r.Some? ==> TypeOf(r.value) == t && c.deserialize(bytes) == Some(Fields(r.value))
    ensures forall p :: TypeOf(p) == t && c.deserialize(bytes) == Some(Fields(p)) ==> r == Some(p)
  {
    match c.deserialize(bytes)
    case None => None
    case Some(f) =>
      assert forall p :: TypeOf(p) == t && f == Fields(p) ==> FromFields(t, f) == Some(p) by {
        forall p | TypeOf(p) == t && f == Fields(p) {
          FieldsRoundTrip(p);
        }
      }
      FromFields(t, f)
  }

  /** The bytes `publish_packet` publishes: the tag byte, then the serialized payload. */
  function EncodePacket(c: Codec, p: Packet): (r: seq<byte>)
    ensures |r| >= 1 && TagOf(r[0]) == Some(TypeOf(p))
    ensures r[1..] == c.serialize(Fields(p))
  {
    [TagByte(TypeOf(p))] + c.serialize(Fields(p))
  }

  /** What `handle_publish_packet` makes of a received payload. */
  datatype Received =
    | TooShort
    | UnknownType(tag: byte)
    | Malformed(packetType: PacketType)
    | Decoded(packet: Packet)

  /** Frames under two bytes are ignored; byte 0 selects the schema; bytes 1..
      are deserialized as that struct. */
  function DecodePacket(c: Codec, payload: seq<byte>): (r: Received)
    ensures r.TooShort? <==> |payload| < 2
    ensures r.UnknownType? <==> |payload| >= 2 && payload[0] !in {1, 2, 3}
    ensures r.Malformed? ==> |payload| >= 2 && TagOf(payload[0]) == Some(r.packetType)
    ensures r.Malformed? ==> Deserialize(c, r.packetType, payload[1..]).None?
    ensures r.Decoded? ==>
      && payload[0] == TagByte(TypeOf(r.packet))
      && c.deserialize(payload[1..]) == Some(Fields(r.packet))
  {
    if |payload| < 2 then TooShort
    else
      match TagOf(payload[0])
      case None => UnknownType(payload[0])
      case Some(t) =>
        match Deserialize(c, t, payload[1..])
        case None => Malformed(t)
        case Some(p) => Decoded(p)
  }

  /** Every frame the chat builds is read back as the packet it was built from. */
  lemma DecodeEncode(c: Codec, p: Packet)
    requires RoundTrips(c)
    ensures DecodePacket(c, EncodePacket(c, p)) == Decoded(p)
  {
    var body := c.serialize(Fields(p));
    var frame := EncodePacket(c, p);
    assert c.deserialize(body) == Some(Fields(p)) && |body| >= 1;
    assert frame[0] == TagByte(TypeOf(p)) && frame[1..] == body;
    FieldsRoundTrip(p);
  }

  /** Two packets that frame to the same bytes are the same packet. */
  lemma EncodeInjective(c: Codec, p: Packet, q: Packet)
    requires RoundTrips(c)
    requires EncodePacket(c, p) == EncodePacket(c, q)
    ensures p == q
  {
    DecodeEncode(c, p);
    DecodeEncode(c, q);
  }

  /** Splitting a built frame at byte 0 recovers the tag and the serialized payload. */
  lemma FrameSplit(c: Codec, p: Packet)
    requires RoundTrips(c)
    ensures var frame := EncodePacket(c, p);
      |frame| >= 2 && frame[0] == TagByte(TypeOf(p)) && frame[1..] == c.serialize(Fields(p))
  {
    assert |c.serialize(Fields(p))| >= 1;
  }
}
