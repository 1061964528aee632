/** The control packets on the wire (chapter 3 of MQTT 3.1.1): what each parser accepts, exactly. */
module Packets {
  import opened Basics
  import opened Bits
  import opened Messages
  import opened Reader
  import Varint

  // ----- frames -----

  /** A packet with these flags whose bytes after the length field are `body`. */
  predicate HasBody(buf: seq<Byte>, flags: nat, body: seq<Byte>) {
    && buf != []
    && buf[0] % 16 == flags
    && Varint.Decode(buf[1..], 4).Complete?
    && buf[1..][Varint.Decode(buf[1..], 4).size..] == body
  }

  /** As much as the length field says. */
  predicate IsPacket(buf: seq<Byte>, flags: nat, body: seq<Byte>) {
    HasBody(buf, flags, body) && Varint.Decode(buf[1..], 4).value == |body|
  }

  function Frame(kind: nat, flags: nat, body: seq<Byte>): seq<Byte>
    requires kind < 16 && flags < 16
  {
    [kind * 16 + flags] + (Varint.Encode(|body|) + body)
  }

  lemma FrameIsPacket(kind: nat, flags: nat, body: seq<Byte>)
    requires kind < 16 && flags < 16 && |body| <= Varint.MAX_LENGTH
    ensures IsPacket(Frame(kind, flags, body), flags, body)
  {
    var tail := Varint.Encode(|body|) + body;
    assert Pow2(28) == 0x1000_0000 by { Powers(); }
    Varint.EncodeDecode(|body|, body, 4);
    assert Frame(kind, flags, body)[1..] == tail;
  }

  // ----- fields of a flag byte -----

  /** `width` is a power of two. */
  function Field(b: Byte, low: nat, width: nat): nat
    requires low > 0 && width > 0
  {
    b / low % width
  }

  lemma FieldRange(b: Byte)
    ensures Field(b, 2, 4) < 4 && Field(b, 8, 4) < 4
  {}

  lemma FieldMask(b: Byte, k: nat, low: nat, n: nat, width: nat)
    requires low == Pow2(k) && width == Pow2(n)
    ensures Shr(And(b, Shl(width - 1, k)), k) == Field(b, low, width)
    ensures And(b, Shl(width - 1, k)) == Shl(Field(b, low, width), k)
  {
    hide And, Pow2;
    AndShifted(b, width - 1, k);
    AndLow(Shr(b, k), n);
    DivModUnique(Shl(Field(b, low, width), k), low, Field(b, low, width), 0);
  }

  /** The masks the parsers apply. */
  lemma FlagMasks(b: Byte)
    ensures And(b, 0x1) == Field(b, 1, 2)
    ensures And(b, 0x2) == 0x2 * Field(b, 2, 2)
    ensures And(b, 0x4) == 0x4 * Field(b, 4, 2)
    ensures And(b, 0x8) == 0x8 * Field(b, 8, 2)
    ensures And(b, 0x20) == 0x20 * Field(b, 0x20, 2)
    ensures And(b, 0x40) == 0x40 * Field(b, 0x40, 2)
    ensures And(b, 0x80) == 0x80 * Field(b, 0x80, 2)
    ensures Shr(And(b, 0x6), 1) == Field(b, 2, 4)
    ensures Shr(And(b, 0x18), 3) == Field(b, 8, 4)
    ensures And(b, 0xf) == b % 16
  {
    hide And, Pow2;
    Powers();
    assert Pow2(0) == 1 by { PowZero(); }
    FieldMask(b, 0, 1, 1, 2);
    FieldMask(b, 1, 2, 1, 2);
    FieldMask(b, 2, 4, 1, 2);
    FieldMask(b, 3, 8, 1, 2);
    FieldMask(b, 5, 0x20, 1, 2);
    FieldMask(b, 6, 0x40, 1, 2);
    FieldMask(b, 7, 0x80, 1, 2);
    FieldMask(b, 1, 2, 2, 4);
    FieldMask(b, 3, 8, 2, 4);
    AndLow(b, 4);
  }

  /** How the printers write a 16-bit number: its high byte cut to a byte, then its low byte. */
  lemma U16Masks(n: nat)
    ensures And(n, 0xff) == n % 0x100 && Shr(n, 8) == n / 0x100
    ensures [Shr(n, 8) % 0x100, And(n, 0xff)] == PutU16(n)
  {
    Powers();
    AndLow(n, 8);
  }
}
