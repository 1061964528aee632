/** PUBLISH (section 3.3 of MQTT 3.1.1). */
module PublishWire {
  import opened Basics
  import opened Bits
  import opened Reader
  import opened Packets
  import opened Validation
  import Utf8
  import Varint

  // ----- meaning -----

  predicate WellFormed(m: Publish) {
    && m.qos <= 2
    && (m.dup ==> m.qos > 0)
    && (m.qos > 0 <==> m.identifier != 0)
    && PublishTopicValid(m.topic)
    && Utf8.Valid(m.topic)
  }

  function Flags(m: Publish): nat {
    (if m.dup then 8 else 0) + 2 * m.qos + (if m.retain then 1 else 0)
  }

  function Body(m: Publish): seq<Byte> {
    PutPrefixed(m.topic) + ((if m.qos > 0 then PutU16(m.identifier) else []) + m.message)
  }

  // ----- parsing -----

  function Parse(buf: seq<Byte>): Result<Publish, ParseError> {
    var (fixed, rest) :- TakeU8(buf);
    var dup, qos, retain := Field(fixed, 8, 2) == 1, Field(fixed, 2, 4), Field(fixed, 1, 2) == 1;
    if qos > 2 then Err(InvalidQos)
    else if dup && qos == 0 then Err(DupWithQos0)
    else
      var ((len, _), rest) :- TakeVarint(rest);
      var (topic, rest) :- TakePrefixed(rest);
      if !PublishTopicValid(topic) then Err(InvalidTopic)
      else if !Utf8.Valid(topic) then Err(InvalidUtf8)
      else
        var (identifier, message) :- ParseContent(rest, qos, len, |topic|);
        Ok(Publish(identifier, topic, message, retain, dup, qos))
  }

  /** Identifier and payload, which must fill the announced length and the buffer. */
  function ParseContent(bs: seq<Byte>, qos: nat, len: nat, topicLen: nat)
    : Result<(U16, seq<Byte>), ParseError>
  {
    var (identifier, rest) :- if qos > 0 then TakeU16(bs) else Ok((0, bs));
    var idSize := if qos > 0 then 2 else 0;
    if qos > 0 && identifier == 0 then Err(ZeroIdentifier)
    else if len < topicLen + idSize + 2 then Err(LengthUnderflow)
    else
      var (message, rest) :- TakeBytes(rest, len - (topicLen + idSize + 2));
      if rest == [] then Ok((identifier, message)) else Err(LengthIncorrect)
  }

  /** Content with an identifier, and content without. */
  lemma NumberedExact(bs: seq<Byte>, qos: nat, len: nat, topicLen: nat, identifier: U16, message: seq<Byte>)
    requires qos > 0
    ensures ParseContent(bs, qos, len, topicLen) == Ok((identifier, message)) <==>
            identifier != 0 && bs == PutU16(identifier) + message && len == topicLen + 2 + |bs|
  {
    hide PutU16;
    U16Exact(bs, identifier, message);
    if |bs| >= 2 {
      var (n, rest) := TakeU16(bs).value;
      U16Exact(bs, n, rest);
      assert rest[..|rest|] == rest;
    }
  }

  lemma PlainExact(bs: seq<Byte>, len: nat, topicLen: nat, identifier: U16, message: seq<Byte>)
    ensures ParseContent(bs, 0, len, topicLen) == Ok((identifier, message)) <==>
            identifier == 0 && bs == message && len == topicLen + 2 + |bs|
  {
    assert bs[..|bs|] == bs;
  }

  lemma ParseSound(buf: seq<Byte>, m: Publish)
    requires Parse(buf) == Ok(m)
    ensures WellFormed(m) && IsPacket(buf, Flags(m), Body(m))
  {
    hide Utf8.Valid, PublishTopicValid, Varint.Decode, ParseContent, PutPrefixed, Field, Flags, PutU16;
    FieldRange(buf[0]);
    FlagsExact(buf[0], m);
    var len, k := Varint.Decode(buf[1..], 4).value, Varint.Decode(buf[1..], 4).size;
    var bs := buf[1..][k..];
    var (topic, rest) := TakePrefixed(bs).value;
    assert m.qos == Field(buf[0], 2, 4);
    assert m.topic == topic;
    var content := ParseContent(rest, m.qos, len, |topic|);
    assert content == Ok((content.value.0, content.value.1));
    assert content == Ok((m.identifier, m.message));
    if m.qos > 0 {
      NumberedExact(rest, m.qos, len, |topic|, m.identifier, m.message);
    } else {
      PlainExact(rest, len, |topic|, m.identifier, m.message);
    }
    PrefixedExact(bs, topic, rest);
    PutPrefixedSize(topic);
    assert Body(m) == PutPrefixed(topic) + rest == bs;
  }

  lemma ParseComplete(buf: seq<Byte>, m: Publish)
    requires WellFormed(m) && IsPacket(buf, Flags(m), Body(m))
    ensures Parse(buf) == Ok(m)
  {
    hide Utf8.Valid, PublishTopicValid, Varint.Decode, ParseContent, PutPrefixed, Field, Flags, PutU16;
    FlagsExact(buf[0], m);
    var len, k := Varint.Decode(buf[1..], 4).value, Varint.Decode(buf[1..], 4).size;
    var bs := buf[1..][k..];
    var content := (if m.qos > 0 then PutU16(m.identifier) else []) + m.message;
    TopicFits(m.topic);
    PrefixedExact(bs, m.topic, content);
    PutPrefixedSize(m.topic);
    if m.qos > 0 {
      NumberedExact(content, m.qos, len, |m.topic|, m.identifier, m.message);
    } else {
      PlainExact(content, len, |m.topic|, m.identifier, m.message);
    }
  }

  /** Exactly the well-formed messages are accepted, each from its own encodings only. */
  lemma ParseExact(buf: seq<Byte>, m: Publish)
    ensures Parse(buf) == Ok(m) <==> WellFormed(m) && IsPacket(buf, Flags(m), Body(m))
  {
    hide Parse, WellFormed, IsPacket, Flags, Body;
    if Parse(buf) == Ok(m) {
      ParseSound(buf, m);
    }
    if WellFormed(m) && IsPacket(buf, Flags(m), Body(m)) {
      ParseComplete(buf, m);
    }
  }

  lemma FlagsExact(b: Byte, m: Publish)
    requires m.qos <= 2
    ensures b % 16 == Flags(m) <==>
            m.dup == (Field(b, 8, 2) == 1) && m.qos == Field(b, 2, 4) && m.retain == (Field(b, 1, 2) == 1)
  {
    Nibble(b);
    hide Field;
  }

  /** Bit 3 is dup, bits 2 and 1 are the QoS, bit 0 is retain (section 3.3.1). */
  lemma FlagBits(b: Byte, m: Publish)
    requires m.qos <= 2
    ensures b % 16 == Flags(m) <==>
            && (m.dup <==> And(b, 0x8) != 0) && m.qos == Shr(And(b, 0x6), 1) && (m.retain <==> And(b, 0x1) != 0)
  {
    hide And, Shr, Flags;
    FlagsExact(b, m);
    FlagMasks(b);
    Nibble(b);
  }

  lemma Nibble(b: Byte)
    ensures b % 16 == 8 * Field(b, 8, 2) + 2 * Field(b, 2, 4) + Field(b, 1, 2)
    ensures Field(b, 8, 2) <= 1 && Field(b, 2, 4) <= 3 && Field(b, 1, 2) <= 1
  {
    var h1 := b / 2;
    var h3 := h1 / 4;
    assert b / 8 == h3;
    assert b / 16 == h3 / 2;
  }

  lemma TopicFits(topic: Str)
    ensures PublishTopicValid(topic) ==> |topic| < 0x1_0000
  {}

  /** In a buffer cut to the announced length, only the bytes within can be at fault. */
  lemma CutFrameLength(buf: seq<Byte>)
    requires buf != [] && Varint.Decode(buf[1..], 4).Complete?
    requires |buf| == 1 + Varint.Decode(buf[1..], 4).size + Varint.Decode(buf[1..], 4).value
    ensures Parse(buf) != Err(LengthUnderflow) && Parse(buf) != Err(LengthIncorrect)
  {
    hide Utf8.Valid, PublishTopicValid, Varint.Decode;
    var bs := buf[1..][Varint.Decode(buf[1..], 4).size..];
    if TakePrefixed(bs).Ok? {
      var (topic, rest) := TakePrefixed(bs).value;
      PrefixedExact(bs, topic, rest);
    }
  }

  method FromBytes(buf: seq<Byte>) returns (r: Result<Publish, ParseError>)
    ensures r == Parse(buf)
  {
    hide And, Shr, Field, Utf8.Valid, PublishTopicValid, TakeVarint, TakeU16, TakeBytes;
    var reader := new Reader(buf);
    var fixed :- reader.ReadU8();
    FlagMasks(fixed);
    var dup := And(fixed, 0x8) == 0x8;
    var qos := Shr(And(fixed, 0x6), 1);
    FieldRange(fixed);
    if !QosValid(qos) {
      return Err(InvalidQos);
    }
    if dup && qos == 0 {
      return Err(DupWithQos0);
    }
    var retain := And(fixed, 1) == 1;
    var len: (nat, nat) :- reader.ReadVarint();
    var topicLen: U16 :- reader.ReadU16();
    ghost var before := reader.Rest();
    var topic :- reader.ReadBytes(topicLen);
    assert |topic| == topicLen by { TakenSize(before, topicLen); }
    var valid := CheckPublishTopic(topic);
    if !valid {
      return Err(InvalidTopic);
    }
    if !Utf8.Valid(topic) {
      return Err(InvalidUtf8);
    }
    var identifier: U16 := 0;
    var idSize: nat := 0;
    if qos > 0 {
      var id :- reader.ReadU16();
      idSize := 2;
      if id == 0 {
        return Err(ZeroIdentifier);
      }
      identifier := id;
    }
    if len.0 < topicLen + idSize + 2 {
      return Err(LengthUnderflow);
    }
    var message :- reader.ReadBytes(len.0 - (topicLen + idSize + 2));
    var _ :- reader.ExpectEnd();
    return Ok(Publish(identifier, topic, message, retain, dup, qos));
  }

  // ----- printing -----

  /** What is written: dup never is, and a QoS is shifted as a byte. */
  function Header(m: Publish): Byte {
    Powers();
    OrBound(48 + (if m.retain then 1 else 0), if m.qos > 0 then Shl(m.qos, 1) % 0x100 else 0, 8);
    Or(48 + (if m.retain then 1 else 0), if m.qos > 0 then Shl(m.qos, 1) % 0x100 else 0)
  }

  function Bytes(m: Publish): seq<Byte> {
    [Header(m)] + (Varint.Encode(|Body(m)|) + Body(m))
  }

  lemma HeaderValue(m: Publish)
    requires m.qos <= 2
    ensures Header(m) == 48 + Flags(m.(dup := false))
    ensures Header(m) == 0x30 + 2 * m.qos + if m.retain then 1 else 0
  {
    var r := if m.retain then 1 else 0;
    Powers();
    assert Shl(m.qos, 1) == 2 * m.qos;
    if m.qos > 0 {
      assert Or(48 + r, 2 * m.qos) == r + 2 * Or(24, m.qos);
      hide Or;
      OrAdds(m.qos, 3, 3);
      assert Shl(3, 3) == 24;
      OrCommutes(m.qos, 24);
    }
  }

  /** A well-formed message is printed as its own encoding, without dup. */
  lemma PrintedFrame(m: Publish)
    requires WellFormed(m)
    ensures var sent := m.(dup := false);
            WellFormed(sent) && Flags(sent) < 16 && Body(sent) == Body(m) && Bytes(m) == Frame(3, Flags(sent), Body(sent))
  {
    DupFree(m);
    hide WellFormed, Flags, Header;
    var sent := m.(dup := false);
    HeaderValue(m);
    FlagsBelow(sent);
    assert Body(sent) == Body(m);
  }

  lemma DupFree(m: Publish)
    requires WellFormed(m)
    ensures WellFormed(m.(dup := false)) && m.qos <= 2
  {}

  lemma FlagsBelow(m: Publish)
    ensures m.qos <= 2 ==> Flags(m) < 16
  {}

  method ToBytes(m: Publish) returns (encoded: seq<Byte>)
    ensures encoded == Bytes(m)
  {
    hide Or, And, Shl, Shr, Varint.Encode;
    encoded := [];
    PublishBits(m);
    var flags: Byte := Shl(3, 4);
    if m.retain {
      flags := Or(flags, 1);
    }
    var idSize := 0;
    if m.qos > 0 {
      flags := Or(flags, Shl(m.qos, 1) % 0x100);
      idSize := 2;
    }
    encoded := encoded + [flags];

    var topicLen := |m.topic|;
    var len := topicLen + |m.message| + idSize + 2;
    var size := Varint.EncodeLength(len);
    encoded := encoded + size;

    U16Masks(topicLen);
    encoded := encoded + [Shr(topicLen, 8) % 0x100];
    encoded := encoded + [And(topicLen, 0xff)];

    encoded := encoded + m.topic;

    if m.qos > 0 {
      U16Masks(m.identifier);
      encoded := encoded + [Shr(m.identifier, 8) % 0x100];
      encoded := encoded + [And(m.identifier, 0xff)];
    }

    encoded := encoded + m.message;
    assert |Body(m)| == len;
  }

  lemma PublishBits(m: Publish)
    ensures Shl(3, 4) == 48 && Or(48, 1) == 49
    ensures Or(48, Shl(m.qos, 1) % 0x100) < 0x100 && Or(49, Shl(m.qos, 1) % 0x100) < 0x100
    ensures Or(48, 0) == 48 && Or(49, 0) == 49
  {
    Powers();
    OrBound(48, Shl(m.qos, 1) % 0x100, 8);
    OrBound(49, Shl(m.qos, 1) % 0x100, 8);
  }
}
