/** UTF-8 (RFC 3629), which `String::from_utf8` accepts exactly. */
module Utf8 {
  import opened Basics

  /** A Unicode scalar value. */
  type CodePoint = c: int | 0 <= c < 0xD800 || 0xE000 <= c < 0x11_0000

  function EncodeChar(c: CodePoint): (bs: Str)
    ensures 1 <= |bs| <= 4
  {
    if c < 0x80 then [c]
    else if c < 0x800 then [0xC0 + c / 0x40, 0x80 + c % 0x40]
    else if c < 0x1_0000 then [0xE0 + c / 0x1000, 0x80 + c / 0x40 % 0x40, 0x80 + c % 0x40]
    else [0xF0 + c / 0x4_0000, 0x80 + c / 0x1000 % 0x40, 0x80 + c / 0x40 % 0x40, 0x80 + c % 0x40]
  }

  function Encode(text: seq<CodePoint>): Str {
    if text == [] then [] else EncodeChar(text[0]) + Encode(text[1..])
  }

  lemma {:induction false} EncodeSize(text: seq<CodePoint>)
    ensures |text| <= |Encode(text)| <= 4 * |text|
  {
    if text != [] {
      EncodeSize(text[1..]);
    }
  }

  predicate Continues(b: Byte) {
    0x80 <= b < 0xC0
  }

  /** Digits to base 64. */
  function Join3(a: int, b: int, c: int): int {
    a * 0x1000 + b * 0x40 + c
  }

  function Join4(a: int, b: int, c: int, d: int): int {
    a * 0x4_0000 + b * 0x1000 + c * 0x40 + d
  }

  /** The code point at the front, in its shortest form, and its length. */
  function FirstChar(bs: Str): (r: Option<(CodePoint, nat)>)
    ensures r.Some? ==> 1 <= r.value.1 <= |bs|
  {
    if bs == [] then None
    else if bs[0] < 0x80 then Some((bs[0], 1))
    else if 0xC2 <= bs[0] < 0xE0 && |bs| >= 2 && Continues(bs[1]) then
      Some((Join3(0, bs[0] - 0xC0, bs[1] - 0x80), 2))
    else if 0xE0 <= bs[0] < 0xF0 && |bs| >= 3 && Continues(bs[1]) && Continues(bs[2]) then
      var c := Join3(bs[0] - 0xE0, bs[1] - 0x80, bs[2] - 0x80);
      if c >= 0x800 && !(0xD800 <= c < 0xE000) then Some((c, 3)) else None
    else if 0xF0 <= bs[0] < 0xF8 && |bs| >= 4 && Continues(bs[1]) && Continues(bs[2]) && Continues(bs[3]) then
      var c := Join4(bs[0] - 0xF0, bs[1] - 0x80, bs[2] - 0x80, bs[3] - 0x80);
      if 0x1_0000 <= c < 0x11_0000 then Some((c, 4)) else None
    else None
  }

  function Decode(bs: Str): Option<seq<CodePoint>> {
    if bs == [] then Some([])
    else
      match FirstChar(bs)
      case None => None
      case Some((c, k)) =>
        match Decode(bs[k..])
        case None => None
        case Some(rest) => Some([c] + rest)
  }

  predicate Valid(bs: Str) {
    Decode(bs).Some?
  }

  lemma Digits(n: nat)
    ensures n == Join3(n / 0x1000, n / 0x40 % 0x40, n % 0x40)
    ensures n == Join4(n / 0x4_0000, n / 0x1000 % 0x40, n / 0x40 % 0x40, n % 0x40)
  {
    assert n / 0x1000 == n / 0x40 / 0x40;
    assert n / 0x4_0000 == n / 0x1000 / 0x40;
  }

  lemma DigitsUnique(a: nat, b: nat, c: nat, d: nat)
    requires b < 0x40 && c < 0x40 && d < 0x40
    ensures var n := Join4(a, b, c, d);
            n / 0x4_0000 == a && n / 0x1000 % 0x40 == b && n / 0x40 % 0x40 == c && n % 0x40 == d
  {
    var n := Join4(a, b, c, d);
    assert n / 0x40 == a * 0x1000 + b * 0x40 + c;
    assert n / 0x1000 == a * 0x40 + b;
  }

  lemma FirstCharEncode(c: CodePoint, rest: Str)
    ensures FirstChar(EncodeChar(c) + rest) == Some((c, |EncodeChar(c)|))
  {
    Digits(c);
    var bs := EncodeChar(c) + rest;
    assert forall i :: 0 <= i < |EncodeChar(c)| ==> bs[i] == EncodeChar(c)[i];
    if 0x80 <= c < 0x800 {
      assert c / 0x1000 == 0 && c / 0x40 % 0x40 == c / 0x40;
    }
  }

  lemma EncodeFirstChar(bs: Str)
    requires FirstChar(bs).Some?
    ensures bs[..FirstChar(bs).value.1] == EncodeChar(FirstChar(bs).value.0)
  {
    if bs[0] >= 0xF0 {
      DigitsUnique(bs[0] - 0xF0, bs[1] - 0x80, bs[2] - 0x80, bs[3] - 0x80);
    } else if bs[0] >= 0xE0 {
      DigitsUnique(0, bs[0] - 0xE0, bs[1] - 0x80, bs[2] - 0x80);
    } else if bs[0] >= 0xC0 {
      DigitsUnique(0, 0, bs[0] - 0xC0, bs[1] - 0x80);
    }
  }

  lemma {:induction false} DecodeEncode(text: seq<CodePoint>)
    ensures Decode(Encode(text)) == Some(text)
  {
    if text != [] {
      var first, rest := EncodeChar(text[0]), Encode(text[1..]);
      FirstCharEncode(text[0], rest);
      assert (first + rest)[|first|..] == rest;
      DecodeEncode(text[1..]);
      assert [text[0]] + text[1..] == text;
    }
  }

  lemma {:induction false} EncodeDecode(bs: Str)
    requires Valid(bs)
    ensures Encode(Decode(bs).value) == bs
  {
    hide FirstChar, EncodeChar;
    if bs != [] {
      var (c, k) := FirstChar(bs).value;
      EncodeFirstChar(bs);
      EncodeDecode(bs[k..]);
      var rest := Decode(bs[k..]).value;
      assert ([c] + rest)[1..] == rest;
      assert bs == bs[..k] + bs[k..];
    }
  }

  /** The valid byte strings are the encodings of texts, one each. */
  lemma ValidExact(bs: Str)
    ensures Valid(bs) <==> exists text: seq<CodePoint> :: Encode(text) == bs
  {
    if Valid(bs) {
      EncodeDecode(bs);
    }
    forall text: seq<CodePoint> | Encode(text) == bs
      ensures Valid(bs)
    {
      DecodeEncode(text);
    }
  }
}
