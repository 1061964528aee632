/** Acknowledgements and pings: PUBACK, PUBREC, PUBREL, PUBCOMP, UNSUBACK, SUBACK, CONNACK, PINGREQ, PINGRESP. */
module AckWire {
  import opened Basics
  import opened Bits
  import opened Messages
  import opened Reader
  import opened Packets
  import Varint

  // ----- acknowledgements -----

  /** PUBACK, PUBREC and PUBCOMP carry the flags 0, PUBREL 2. */
  function ParseAck(buf: seq<Byte>, flags: nat): Result<U16, ParseError> {
    var (fixed, rest) :- TakeU8(buf);
    if fixed % 16 != flags then Err(InvalidFlags)
    else
      var ((len, _), rest) :- TakeVarint(rest);
      if len != 2 then Err(InvalidLength)
      else
        var (id, rest) :- TakeU16(rest);
        if rest == [] then Ok(id) else Err(LengthIncorrect)
  }

  /** Exactly the packets of one identifier are accepted; zero passes. */
  lemma AckExact(buf: seq<Byte>, flags: nat, id: U16)
    ensures ParseAck(buf, flags) == Ok(id) <==> IsPacket(buf, flags, PutU16(id))
  {}

  method AckFromBytes(buf: seq<Byte>, flags: nat) returns (r: Result<U16, ParseError>)
    ensures r == ParseAck(buf, flags)
  {
    hide And, TakeVarint, TakeU16;
    var reader := new Reader(buf);
    var fixed :- reader.ReadU8();
    FlagMasks(fixed);
    if And(fixed, 0xf) != flags {
      return Err(InvalidFlags);
    }
    var len: (nat, nat) :- reader.ReadVarint();
    if len.0 != 2 {
      return Err(InvalidLength);
    }
    var id: U16 :- reader.ReadU16();
    var _ :- reader.ExpectEnd();
    return Ok(id);
  }

  /** Also UNSUBACK. */
  method AckToBytes(kind: nat, flags: nat, id: U16) returns (encoded: seq<Byte>)
    requires kind < 16 && flags < 16
    ensures encoded == Frame(kind, flags, PutU16(id))
  {
    hide Or, And;
    Nibbles(kind, flags);
    U16Masks(id);
    assert Varint.Encode(|PutU16(id)|) == [2];
    encoded := [Or(Shl(kind, 4), flags), 2, Shr(id, 8) % 0x100, And(id, 0xff)];
  }

  lemma Nibbles(kind: nat, flags: nat)
    requires kind < 16 && flags < 16
    ensures Or(Shl(kind, 4), flags) == kind * 16 + flags
  {
    assert Pow2(4) == 16 by { Powers(); }
    OrAdds(flags, kind, 4);
    OrCommutes(Shl(kind, 4), flags);
  }

  // ----- SUBACK and CONNACK -----

  method SubAckToBytes(id: U16, codes: seq<Byte>) returns (encoded: seq<Byte>)
    ensures encoded == Frame(9, 0, PutU16(id) + codes)
  {
    hide And, Shr, Varint.Encode;
    assert Shl(9, 4) == 144 by { Powers(); }
    encoded := [Shl(9, 4)];
    var len := 2 + |codes|;
    var size := Varint.EncodeLength(len);
    encoded := encoded + size;
    U16Masks(id);
    encoded := encoded + [Shr(id, 8) % 0x100];
    encoded := encoded + [And(id, 0xff)];
    ghost var head := encoded;
    for i := 0 to |codes|
      invariant encoded == head + codes[..i]
    {
      encoded := encoded + [codes[i]];
    }
    assert head == [144] + (size + PutU16(id));
    assert |PutU16(id) + codes| == len;
    assert encoded == [144] + (size + (PutU16(id) + codes));
  }

  function CodeByte(code: ReturnCode): Byte {
    match code
    case Accepted => 0
    case UnacceptableVersion => 1
    case IdentifierRejected => 2
    case ServerUnavailable => 3
    case BadUsernameOrPassword => 4
    case NotAuthorized => 5
  }

  method ConnAckToBytes(code: ReturnCode, sessionPresent: bool) returns (encoded: seq<Byte>)
    ensures encoded == Frame(2, 0, [if sessionPresent then 1 else 0, CodeByte(code)])
  {
    assert Shl(2, 4) == 32 by { Powers(); }
    assert Varint.Encode(2) == [2];
    encoded := [Shl(2, 4), 2];
    var flags := 0;
    if sessionPresent {
      flags := Or(flags, 1);
    }
    encoded := encoded + [flags];
    encoded := encoded + [CodeByte(code)];
  }

  /** What a client reads off a CONNACK: the session bit, and the code of table 3.1. */
  lemma ConnAckBytes(code: ReturnCode, sessionPresent: bool)
    ensures var bs := Frame(2, 0, [if sessionPresent then 1 else 0, CodeByte(code)]);
            && |bs| == 4 && bs[0] == 0x20 && bs[1] == 2 && (bs[2] == 1 <==> sessionPresent) && bs[2] <= 1
            && (bs[3] == 0 <==> code == Accepted) && (bs[3] == 1 <==> code == UnacceptableVersion)
            && (bs[3] == 2 <==> code == IdentifierRejected) && (bs[3] == 3 <==> code == ServerUnavailable)
            && (bs[3] == 4 <==> code == BadUsernameOrPassword) && (bs[3] == 5 <==> code == NotAuthorized) && bs[3] <= 5
  {
    assert Varint.Encode(2) == [2];
  }

  /** And off a SUBACK: its length, the identifier, and the codes to the end. */
  lemma SubAckBytes(id: U16, codes: seq<Byte>)
    requires 2 + |codes| <= Varint.MAX_LENGTH
    ensures var bs, size := Frame(9, 0, PutU16(id) + codes), Varint.Encode(2 + |codes|);
            && Varint.Decode(bs[1..], 4) == Varint.Complete(2 + |codes|, |size|)
            && bs == [0x90] + size + [id / 256, id % 256] + codes
  {
    hide Varint.Encode, Varint.Decode;
    var n, body := 2 + |codes|, PutU16(id) + codes;
    var bs, size := Frame(9, 0, body), Varint.Encode(n);
    assert Pow2(28) == 0x1000_0000 by { Powers(); }
    Varint.EncodeDecode(n, body, 4);
    assert bs[1..] == size + body;
    assert bs == [0x90] + size + body;
  }

  /** And off the four bytes of any acknowledgement of one identifier, and the two of a PINGRESP. */
  lemma AckBytes(kind: nat, flags: nat, id: U16)
    requires kind < 16 && flags < 16
    ensures Frame(kind, flags, PutU16(id)) == [16 * kind + flags, 2, id / 256, id % 256]
    ensures Frame(kind, flags, []) == [16 * kind + flags, 0]
  {
    assert Varint.Encode(2) == [2] && Varint.Encode(0) == [0];
  }

  // ----- PINGREQ and PINGRESP -----

  method PingRespToBytes() returns (encoded: seq<Byte>)
    ensures encoded == Frame(13, 0, [])
  {
    assert Shl(13, 4) == 208 by { Powers(); }
    encoded := [Shl(13, 4), 0];
  }

  function ParsePingReq(buf: seq<Byte>): Result<(), ParseError> {
    var (fixed, rest) :- TakeU8(buf);
    if fixed % 16 != 0 then Err(InvalidFlags)
    else
      var (_, rest) :- TakeVarint(rest);
      if rest == [] then Ok(()) else Err(LengthIncorrect)
  }

  lemma PingReqExact(buf: seq<Byte>)
    ensures ParsePingReq(buf) == Ok(()) <==> HasBody(buf, 0, [])
  {}

  method PingReqFromBytes(buf: seq<Byte>) returns (r: Result<(), ParseError>)
    ensures r == ParsePingReq(buf)
  {
    hide And, TakeVarint;
    var reader := new Reader(buf);
    var fixed :- reader.ReadU8();
    FlagMasks(fixed);
    if And(fixed, 0xf) != 0 {
      return Err(InvalidFlags);
    }
    var _ :- reader.ReadVarint();
    r := reader.ExpectEnd();
  }
}
