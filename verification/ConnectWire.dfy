/** CONNECT (section 3.1 of MQTT 3.1.1). The protocol name is skipped unread. */
module ConnectWire {
  import opened Basics
  import opened Bits
  import opened Messages
  import opened Reader
  import opened Packets
  import opened Validation
  import Utf8
  import Varint

  // ----- meaning -----

  predicate WillOk(will: Will) {
    will.qos <= 2 && PublishTopicValid(will.topic) && Utf8.Valid(will.topic) && |will.message| < 0x1_0000
  }

  predicate StringOk(s: Str) {
    Utf8.Valid(s) && |s| < 0x1_0000
  }

  predicate WellFormed(c: ConnectPacket) {
    && ClientIdValid(c.client) && Utf8.Valid(c.client)
    && (c.will.Some? ==> WillOk(c.will.value))
    && (c.username.Some? ==> StringOk(c.username.value))
    && (c.password.Some? ==> StringOk(c.password.value))
  }

  function WillFlags(will: Option<Will>): nat {
    match will
    case None => 0
    case Some(w) => 4 + 8 * w.qos + (if w.retain then 0x20 else 0)
  }

  function Flags(c: ConnectPacket): nat {
    (if c.cleanSession then 2 else 0) + WillFlags(c.will)
    + (if c.password.Some? then 0x40 else 0) + (if c.username.Some? then 0x80 else 0)
  }

  function PutWill(will: Option<Will>): seq<Byte> {
    match will
    case None => []
    case Some(w) => PutPrefixed(w.topic) + PutPrefixed(w.message)
  }

  function PutOptional(s: Option<Str>): seq<Byte> {
    match s
    case None => []
    case Some(text) => PutPrefixed(text)
  }

  function Payload(c: ConnectPacket): seq<Byte> {
    PutPrefixed(c.client) + (PutWill(c.will) + (PutOptional(c.username) + PutOptional(c.password)))
  }

  /** What follows the protocol name. */
  function Body(c: ConnectPacket): seq<Byte>
    requires c.will.Some? ==> c.will.value.qos <= 2
  {
    [c.version, Flags(c)] + (PutU16(c.keepAlive) + Payload(c))
  }

  // ----- the parts of the payload -----

  function TakeClient(bs: seq<Byte>): Taken<Str> {
    var (client, rest) :- TakePrefixed(bs);
    if !ClientIdValid(client) then Err(InvalidClientId)
    else if !Utf8.Valid(client) then Err(InvalidUtf8)
    else Ok((client, rest))
  }

  lemma ClientExact(bs: seq<Byte>, client: Str, rest: seq<Byte>)
    ensures TakeClient(bs) == Ok((client, rest)) <==>
            ClientIdValid(client) && Utf8.Valid(client) && bs == PutPrefixed(client) + rest
  {
    PrefixedExact(bs, client, rest);
    assert ClientIdValid(client) ==> |client| < 0x1_0000;
    hide ClientIdValid, Utf8.Valid, PutPrefixed;
    if TakePrefixed(bs).Ok? {
      var got := TakePrefixed(bs).value;
      assert got == (got.0, got.1);
    }
  }

  function TakeWill(bs: seq<Byte>, flags: Byte): Taken<Option<Will>> {
    var retain, qos := Field(flags, 0x20, 2) == 1, Field(flags, 8, 4);
    if Field(flags, 4, 2) == 1 then
      if qos > 2 then Err(InvalidQos)
      else
        var (topic, rest) :- TakePrefixed(bs);
        if !PublishTopicValid(topic) then Err(InvalidTopic)
        else if !Utf8.Valid(topic) then Err(InvalidUtf8)
        else
          var (message, rest) :- TakePrefixed(rest);
          Ok((Some(Will(topic, message, qos, retain)), rest))
    else if qos != 0 || retain then Err(InvalidWillFlags)
    else Ok((None, bs))
  }

  /** The flags are those of the will. */
  predicate WillFlagged(flags: Byte, will: Option<Will>) {
    match will
    case None => Field(flags, 4, 2) == 0 && Field(flags, 8, 4) == 0 && Field(flags, 0x20, 2) == 0
    case Some(w) => Field(flags, 4, 2) == 1 && Field(flags, 8, 4) == w.qos && (Field(flags, 0x20, 2) == 1) == w.retain
  }

  lemma TakeTwo(bs: seq<Byte>, x: seq<Byte>, y: seq<Byte>, rest: seq<Byte>)
    ensures (TakePrefixed(bs).Ok? && TakePrefixed(bs).value.0 == x
             && TakePrefixed(TakePrefixed(bs).value.1) == Ok((y, rest)))
            <==> |x| < 0x1_0000 && |y| < 0x1_0000 && bs == PutPrefixed(x) + PutPrefixed(y) + rest
  {
    hide TakePrefixed, PutPrefixed;
    var after := PutPrefixed(y) + rest;
    assert PutPrefixed(x) + PutPrefixed(y) + rest == PutPrefixed(x) + after;
    PrefixedExact(bs, x, after);
    PrefixedExact(after, y, rest);
    if TakePrefixed(bs).Ok? {
      var got := TakePrefixed(bs).value;
      assert got == (got.0, got.1);
      PrefixedExact(bs, got.0, got.1);
      PrefixedExact(got.1, y, rest);
    }
  }

  lemma WillExact(bs: seq<Byte>, flags: Byte, will: Option<Will>, rest: seq<Byte>)
    ensures TakeWill(bs, flags) == Ok((will, rest)) <==>
            WillFlagged(flags, will) && (will.Some? ==> WillOk(will.value)) && bs == PutWill(will) + rest
  {
    FieldBits(flags);
    hide Field, Utf8.Valid, PublishTopicValid, PutPrefixed, TakePrefixed;
    match will {
      case None =>
        assert [] + rest == rest;
      case Some(w) =>
        TopicFits(w.topic);
        TakeTwo(bs, w.topic, w.message, rest);
        if TakePrefixed(bs).Ok? && TakePrefixed(TakePrefixed(bs).value.1).Ok? {
          var last := TakePrefixed(TakePrefixed(bs).value.1).value;
          assert last == (last.0, last.1);
        }
    }
  }

  lemma TopicFits(topic: Str)
    ensures PublishTopicValid(topic) ==> |topic| < 0x1_0000
  {}

  lemma FieldBits(b: Byte)
    ensures Field(b, 2, 2) <= 1 && Field(b, 4, 2) <= 1 && Field(b, 8, 4) <= 3
    ensures Field(b, 0x20, 2) <= 1 && Field(b, 0x40, 2) <= 1 && Field(b, 0x80, 2) <= 1
    ensures b == b % 2 + 2 * Field(b, 2, 2) + 4 * Field(b, 4, 2) + 8 * Field(b, 8, 4)
               + 0x20 * Field(b, 0x20, 2) + 0x40 * Field(b, 0x40, 2) + 0x80 * Field(b, 0x80, 2)
  {
    var h1 := b / 2;
    var h2 := h1 / 2;
    var h3 := h2 / 2;
    var h5 := h3 / 4;
    var h6 := h5 / 2;
    var h7 := h6 / 2;
    assert b / 4 == h2;
    assert b / 8 == h3;
    assert b / 0x20 == h5;
    assert b / 0x40 == h6;
    assert b / 0x80 == h7 <= 1;
  }

  function TakeOptional(bs: seq<Byte>, present: bool): Taken<Option<Str>> {
    if present then
      var (s, rest) :- TakeString(bs);
      Ok((Some(s), rest))
    else Ok((None, bs))
  }

  lemma OptionalExact(bs: seq<Byte>, present: bool, s: Option<Str>, rest: seq<Byte>)
    ensures TakeOptional(bs, present) == Ok((s, rest)) <==>
            present == s.Some? && (s.Some? ==> StringOk(s.value)) && bs == PutOptional(s) + rest
  {
    hide Utf8.Valid, PutPrefixed;
    if s.Some? {
      PrefixedExact(bs, s.value, rest);
      if TakePrefixed(bs).Ok? {
        var got := TakePrefixed(bs).value;
        assert got == (got.0, got.1);
      }
    } else {
      assert [] + rest == rest;
    }
  }

  // ----- the whole -----

  function ParsePayload(bs: seq<Byte>, flags: Byte): Result<(Str, Option<Will>, Option<Str>, Option<Str>), ParseError> {
    var (client, rest) :- TakeClient(bs);
    var (will, rest) :- TakeWill(rest, flags);
    var (username, rest) :- TakeOptional(rest, Field(flags, 0x80, 2) == 1);
    var (password, rest) :- TakeOptional(rest, Field(flags, 0x40, 2) == 1);
    if rest == [] then Ok((client, will, username, password)) else Err(LengthIncorrect)
  }

  function ParseBody(bs: seq<Byte>): Result<ConnectPacket, ParseError> {
    var (version, rest) :- TakeU8(bs);
    var (flags, rest) :- TakeU8(rest);
    if flags % 2 == 1 then Err(InvalidFlags)
    else
      var (keepAlive, rest) :- TakeU16(rest);
      var (client, will, username, password) :- ParsePayload(rest, flags);
      Ok(ConnectPacket(version, Field(flags, 2, 2) == 1, keepAlive, client, will, username, password))
  }

  function Parse(buf: seq<Byte>): Result<ConnectPacket, ParseError> {
    var (fixed, rest) :- TakeU8(buf);
    if fixed % 16 != 0 then Err(InvalidFlags)
    else
      var (_, rest) :- TakeVarint(rest);
      var (_, rest) :- TakeBytes(rest, 6);
      ParseBody(rest)
  }

  lemma PayloadExact(bs: seq<Byte>, flags: Byte, c: ConnectPacket)
    ensures ParsePayload(bs, flags) == Ok((c.client, c.will, c.username, c.password)) <==>
            && WellFormed(c)
            && WillFlagged(flags, c.will)
            && (Field(flags, 0x80, 2) == 1) == c.username.Some?
            && (Field(flags, 0x40, 2) == 1) == c.password.Some?
            && bs == Payload(c)
  {
    hide Field, Utf8.Valid, ClientIdValid, WillOk, StringOk, TakeClient, TakeWill, TakeOptional, PutWill, PutOptional,
         PutPrefixed, WillFlagged;
    var last := PutOptional(c.password);
    var third := PutOptional(c.username) + last;
    var second := PutWill(c.will) + third;
    assert last + [] == last;
    ClientExact(bs, c.client, second);
    WillExact(second, flags, c.will, third);
    OptionalExact(third, Field(flags, 0x80, 2) == 1, c.username, last);
    OptionalExact(last, Field(flags, 0x40, 2) == 1, c.password, []);
    if ParsePayload(bs, flags) == Ok((c.client, c.will, c.username, c.password)) {
      var a := TakeClient(bs).value;
      var b := TakeWill(a.1, flags).value;
      var d := TakeOptional(b.1, Field(flags, 0x80, 2) == 1).value;
      var e := TakeOptional(d.1, Field(flags, 0x40, 2) == 1).value;
      assert a == (a.0, a.1) && b == (b.0, b.1) && d == (d.0, d.1) && e == (e.0, e.1);
      ClientExact(bs, a.0, a.1);
      WillExact(a.1, flags, b.0, b.1);
      OptionalExact(b.1, Field(flags, 0x80, 2) == 1, d.0, d.1);
      OptionalExact(d.1, Field(flags, 0x40, 2) == 1, e.0, e.1);
    }
  }

  /** Which bit says what (section 3.1.2.3). */
  lemma FlagBits(b: Byte, c: ConnectPacket)
    requires (c.will.Some? ==> c.will.value.qos <= 2) && b == Flags(c)
    ensures And(b, 0x1) == 0 && (c.cleanSession <==> And(b, 0x2) != 0) && (c.will.Some? <==> And(b, 0x4) != 0)
    ensures Shr(And(b, 0x18), 3) == (if c.will.Some? then c.will.value.qos else 0)
    ensures And(b, 0x20) != 0 <==> c.will.Some? && c.will.value.retain
    ensures (c.password.Some? <==> And(b, 0x40) != 0) && (c.username.Some? <==> And(b, 0x80) != 0)
  {
    hide And, Shr, Flags;
    FlagsExact(b, c);
    FlagMasks(b);
    FieldBits(b);
  }

  lemma FlagsExact(b: Byte, c: ConnectPacket)
    requires c.will.Some? ==> c.will.value.qos <= 2
    ensures b == Flags(c) <==>
            && b % 2 == 0
            && c.cleanSession == (Field(b, 2, 2) == 1)
            && WillFlagged(b, c.will)
            && (Field(b, 0x80, 2) == 1) == c.username.Some?
            && (Field(b, 0x40, 2) == 1) == c.password.Some?
  {
    var qos := if c.will.Some? then c.will.value.qos else 0;
    var retain := c.will.Some? && c.will.value.retain;
    if b == Flags(c) {
      FlagsFields(if c.cleanSession then 1 else 0, c.will.Some?, qos, if retain then 1 else 0,
                  if c.password.Some? then 1 else 0, if c.username.Some? then 1 else 0);
      hide Field;
    } else {
      FieldBits(b);
      hide Field;
    }
  }

  lemma FlagsFields(clean: nat, will: bool, qos: nat, retain: nat, password: nat, username: nat)
    requires clean <= 1 && qos <= 3 && retain <= 1 && password <= 1 && username <= 1
    ensures var b := 2 * clean + (if will then 4 else 0) + 8 * qos + 0x20 * retain + 0x40 * password + 0x80 * username;
            && b % 2 == 0 && Field(b, 2, 2) == clean
            && Field(b, 4, 2) == (if will then 1 else 0) && Field(b, 8, 4) == qos
            && Field(b, 0x20, 2) == retain && Field(b, 0x40, 2) == password && Field(b, 0x80, 2) == username
  {}

  lemma BodyExact(bs: seq<Byte>, c: ConnectPacket)
    ensures ParseBody(bs) == Ok(c) <==> WellFormed(c) && bs == Body(c)
  {
    hide Field, Payload, ParsePayload, PutU16, Flags, WillFlagged;
    if |bs| >= 2 {
      var rest := bs[2..];
      assert bs == [bs[0], bs[1]] + rest;
      assert bs[1..][1..] == rest;
      WillQos(c);
      U16Exact(rest, c.keepAlive, Payload(c));
      if c.will.Some? ==> c.will.value.qos <= 2 {
        FlagsExact(bs[1], c);
      }
      if |rest| >= 2 {
        var got := TakeU16(rest).value;
        U16Exact(rest, got.0, got.1);
        PayloadExact(got.1, bs[1], c);
        var parts := ParsePayload(got.1, bs[1]);
        if parts.Ok? {
          assert parts.value == (parts.value.0, parts.value.1, parts.value.2, parts.value.3);
        }
      }
    }
  }

  lemma WillQos(c: ConnectPacket)
    ensures WellFormed(c) ==> c.will.Some? ==> c.will.value.qos <= 2
  {}

  /** Exactly the well-formed packets are accepted, each from its own encodings only, after any six bytes of name. */
  lemma ParseExact(buf: seq<Byte>, c: ConnectPacket)
    ensures Parse(buf) == Ok(c) <==>
            WellFormed(c) && exists name: seq<Byte> :: |name| == 6 && HasBody(buf, 0, name + Body(c))
  {
    hide ParseBody, WellFormed, Body, Varint.Decode;
    WillQos(c);
    if buf != [] && Varint.Decode(buf[1..], 4).Complete? {
      var bs := buf[1..][Varint.Decode(buf[1..], 4).size..];
      if |bs| >= 6 {
        BodyExact(bs[6..], c);
        assert bs == bs[..6] + bs[6..];
        forall name: seq<Byte> | WellFormed(c) && |name| == 6 && bs == name + Body(c)
          ensures bs[6..] == Body(c)
        {}
        if Parse(buf) == Ok(c) {
          assert HasBody(buf, 0, bs[..6] + Body(c));
        }
      }
    }
  }

  lemma FieldOne(b: Byte)
    ensures b % 2 == Field(b, 1, 2)
  {}

  method ReadClient(reader: Reader) returns (r: Result<Str, ParseError>)
    requires reader.Valid()
    modifies reader
    ensures reader.Valid() && Tied(TakeClient(old(reader.Rest())), r, reader.Rest())
  {
    hide ClientIdValid, Utf8.Valid, TakeU16, TakeBytes;
    var n: U16 :- reader.ReadU16();
    var client :- reader.ReadBytes(n);
    var valid := CheckClientId(client);
    if !valid {
      return Err(InvalidClientId);
    }
    if !Utf8.Valid(client) {
      return Err(InvalidUtf8);
    }
    return Ok(client);
  }

  method ReadWill(reader: Reader, flags: Byte) returns (r: Result<Option<Will>, ParseError>)
    requires reader.Valid()
    modifies reader
    ensures reader.Valid() && Tied(TakeWill(old(reader.Rest()), flags), r, reader.Rest())
  {
    hide And, Shr, PublishTopicValid, Utf8.Valid, TakeU16, TakeBytes;
    FlagMasks(flags);
    FieldRange(flags);
    var retain := And(flags, 0x20) == 0x20;
    var qos := Shr(And(flags, 0x18), 3);
    if And(flags, 0x04) == 0x04 {
      hide Field;
      if !QosValid(qos) {
        return Err(InvalidQos);
      }
      var topicLen: U16 :- reader.ReadU16();
      var topic :- reader.ReadBytes(topicLen);
      var valid := CheckPublishTopic(topic);
      if !valid {
        return Err(InvalidTopic);
      }
      if !Utf8.Valid(topic) {
        return Err(InvalidUtf8);
      }
      var messageLen: U16 :- reader.ReadU16();
      var message :- reader.ReadBytes(messageLen);
      return Ok(Some(Will(topic, message, qos, retain)));
    } else if qos != 0 || retain {
      return Err(InvalidWillFlags);
    }
    return Ok(None);
  }

  method FromBytes(buf: seq<Byte>) returns (r: Result<ConnectPacket, ParseError>)
    ensures r == Parse(buf)
  {
    hide And, Shr, Field, Utf8.Valid, ClientIdValid, TakeVarint, TakeU16, TakeBytes, TakeClient, TakeWill, TakeString;
    var reader := new Reader(buf);
    var fixed :- reader.ReadU8();
    FlagMasks(fixed);
    if And(fixed, 0xf) != 0 {
      return Err(InvalidFlags);
    }
    var _ :- reader.ReadVarint();
    var _ :- reader.Skip(6);
    var version :- reader.ReadU8();
    var flags: Byte :- reader.ReadU8();
    FlagMasks(flags);
    assert flags % 2 == Field(flags, 1, 2) by { FieldOne(flags); }
    if And(flags, 0x01) == 0x01 {
      return Err(InvalidFlags);
    }
    var cleanSession := And(flags, 0x02) == 0x02;
    var keepAlive :- reader.ReadU16();
    var client :- ReadClient(reader);
    var will :- ReadWill(reader, flags);
    var username := None;
    var password := None;
    if And(flags, 0x80) == 0x80 {
      var s :- reader.ReadMqttStringPrefixed();
      username := Some(s);
    }
    if And(flags, 0x40) == 0x40 {
      var s :- reader.ReadMqttStringPrefixed();
      password := Some(s);
    }
    var _ :- reader.ExpectEnd();
    return Ok(ConnectPacket(version, cleanSession, keepAlive, client, will, username, password));
  }
}
