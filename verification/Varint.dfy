/** Variable-length integers (section 2.2.3 of MQTT 3.1.1). */
module Varint {
  import opened Basics
  import opened Bits

  const MAX_LENGTH := 268435455

  datatype VarintRead = Complete(value: nat, size: nat) | Incomplete | TooLong

  // ----- meaning -----

  /** The shortest form: seven bits at a time, lowest first. */
  function Encode(n: nat): (bs: seq<Byte>)
    ensures |bs| >= 1
  {
    if n < 128 then [n] else [128 + n % 128] + Encode(n / 128)
  }

  /** The integer at the front of `bs`, of at most `max` bytes. */
  function Decode(bs: seq<Byte>, max: nat): (r: VarintRead)
    requires max >= 1
    ensures r.Complete? ==> 1 <= r.size <= max && r.size <= |bs|
  {
    if bs == [] then Incomplete
    else if bs[0] < 128 then Complete(bs[0], 1)
    else if max == 1 then TooLong
    else
      match Decode(bs[1..], max - 1)
      case Complete(v, k) => Complete(bs[0] % 128 + 128 * v, k + 1)
      case Incomplete => Incomplete
      case TooLong => TooLong
  }

  /** The shortest form of `n` reads back as `n`, whatever follows it. */
  lemma {:induction false} EncodeDecode(n: nat, rest: seq<Byte>, max: nat)
    requires max >= 1 && n < Pow2(7 * max)
    ensures Decode(Encode(n) + rest, max) == Complete(n, |Encode(n)|)
  {
    Grow(max);
    if n < 128 {
      assert (Encode(n) + rest)[0] == n;
    } else {
      var bs := Encode(n) + rest;
      assert bs[1..] == Encode(n / 128) + rest;
      EncodeDecode(n / 128, rest, max - 1);
    }
  }

  lemma Grow(max: nat)
    requires max >= 1
    ensures Pow2(7 * max) == 128 * Pow2(7 * (max - 1))
  {
    PowersAdd(7, 7 * (max - 1));
    Powers();
  }

  /** On a proper prefix of it, more bytes are waited for. */
  lemma {:induction false} EncodePrefix(n: nat, k: nat, max: nat)
    requires max >= 1 && n < Pow2(7 * max) && k < |Encode(n)|
    ensures Decode(Encode(n)[..k], max) == Incomplete
  {
    Grow(max);
    if n >= 128 && k > 0 {
      EncodePrefix(n / 128, k - 1, max - 1);
      assert Encode(n)[..k][1..] == Encode(n / 128)[..k - 1];
    }
  }

  /** No form that reads as `n` is shorter, and a form of `k` bytes reads below 128 to the `k`. */
  lemma {:induction false} EncodeShortest(bs: seq<Byte>, max: nat)
    requires max >= 1 && Decode(bs, max).Complete?
    ensures |Encode(Decode(bs, max).value)| <= Decode(bs, max).size
    ensures Decode(bs, max).value < Pow2(7 * Decode(bs, max).size)
  {
    Powers();
    if bs[0] >= 128 {
      EncodeShortest(bs[1..], max - 1);
      var v := Decode(bs[1..], max - 1).value;
      var n := bs[0] % 128 + 128 * v;
      assert n / 128 == v;
      Grow(Decode(bs, max).size);
    }
  }

  /** One to four bytes for every length the protocol allows, five or more beyond. */
  lemma EncodeSize(n: nat)
    ensures n <= MAX_LENGTH <==> |Encode(n)| <= 4
  {
    Powers();
    if n <= MAX_LENGTH {
      EncodeDecode(n, [], 4);
    } else {
      assert |Encode(n / 128 / 128 / 128)| >= 2;
      assert |Encode(n / 128 / 128)| >= 3;
      assert |Encode(n / 128)| >= 4;
    }
  }

  /** Whatever was decided stays decided when more bytes arrive. */
  lemma {:induction false} DecodeStable(bs: seq<Byte>, more: seq<Byte>, max: nat)
    requires max >= 1 && Decode(bs, max) != Incomplete
    ensures Decode(bs + more, max) == Decode(bs, max)
  {
    assert (bs + more)[0] == bs[0];
    if bs[0] >= 128 && max > 1 {
      assert (bs + more)[1..] == bs[1..] + more;
      DecodeStable(bs[1..], more, max - 1);
    }
  }

  lemma DecodeBound(bs: seq<Byte>)
    ensures Decode(bs, 4).Complete? ==> Decode(bs, 4).value <= MAX_LENGTH
  {
    if Decode(bs, 4).Complete? {
      EncodeShortest(bs, 4);
      EncodeSize(Decode(bs, 4).value);
    }
  }

  /** Only the bytes of the integer matter. */
  lemma {:induction false} DecodeLocal(bs: seq<Byte>, cut: seq<Byte>, max: nat)
    requires max >= 1 && Decode(bs, max).Complete? && cut <= bs && Decode(bs, max).size <= |cut|
    ensures Decode(cut, max) == Decode(bs, max)
  {
    if bs[0] >= 128 {
      assert cut[0] == bs[0] && cut[1..] <= bs[1..];
      DecodeLocal(bs[1..], cut[1..], max - 1);
    }
  }

  // ----- the loops -----

  /** The low seven bits of each byte, lowest byte first. */
  function Value(bs: seq<Byte>): nat {
    if bs == [] then 0 else bs[0] % 128 + 128 * Value(bs[1..])
  }

  lemma ShlSeven(x: nat, n: nat)
    requires n >= 1
    ensures Shl(x, 7 * n) == 128 * Shl(x, 7 * (n - 1))
  {
    Grow(n);
    hide Pow2;
    var p := Pow2(7 * (n - 1));
    assert 128 * (x * p) == x * (128 * p);
  }

  lemma {:induction false} ValueSnoc(bs: seq<Byte>, b: Byte)
    ensures Value(bs) < Pow2(7 * |bs|)
    ensures Value(bs + [b]) == Value(bs) + Shl(b % 128, 7 * |bs|)
  {
    if bs == [] {
      assert [b][1..] == [];
      assert bs + [b] == [b];
    } else {
      assert (bs + [b])[1..] == bs[1..] + [b];
      ValueSnoc(bs[1..], b);
      Grow(|bs|);
      ShlSeven(b % 128, |bs|);
      hide Shl, Pow2;
    }
  }

  predicate AllContinue(bs: seq<Byte>) {
    forall i :: 0 <= i < |bs| ==> bs[i] >= 128
  }

  /** What reading byte by byte amounts to. */
  lemma {:induction false} DecodeEnds(bs: seq<Byte>, k: nat, max: nat)
    requires max >= 1 && k <= |bs| && k <= max && AllContinue(bs[..k])
    ensures k < |bs| && k < max && bs[k] < 128 ==> Decode(bs, max) == Complete(Value(bs[..k + 1]), k + 1)
    ensures k == |bs| && k < max ==> Decode(bs, max) == Incomplete
    ensures k == max ==> Decode(bs, max) == TooLong
  {
    if k == 0 {
      if k < |bs| {
        assert bs[..1][1..] == [];
      }
    } else {
      assert bs[..k][0] == bs[0] >= 128;
      var low := bs[1..][..k - 1];
      forall i | 0 <= i < |low|
        ensures low[i] >= 128
      {
        assert low[i] == bs[..k][i + 1];
      }
      if max > 1 {
        DecodeEnds(bs[1..], k - 1, max - 1);
        if k < |bs| {
          assert bs[..k + 1][1..] == bs[1..][..k];
        }
      }
    }
  }

  lemma ByteMasks(b: Byte)
    ensures And(b, 0x7F) == b % 128
    ensures And(b, 0x80) == 0x80 <==> b >= 128
  {
    Powers();
    AndLow(b, 7);
    AndShifted(b, 1, 7);
    assert Shl(1, 7) == 128 && Shr(b, 7) == b / 128;
  }

  lemma FirstByte(bs: seq<Byte>)
    requires bs != []
    ensures And(bs[0], 0x7F) == Value(bs[..1])
  {
    hide And;
    ByteMasks(bs[0]);
    assert bs[..1][1..] == [];
  }

  /** One more byte: its seven bits are set above those read so far. */
  lemma Accumulate(bs: seq<Byte>, k: nat)
    requires 0 < k < |bs|
    ensures Or(Value(bs[..k]), Shl(And(bs[k], 0x7F), 7 * k)) == Value(bs[..k + 1])
  {
    ByteMasks(bs[k]);
    ValueSnoc(bs[..k], bs[k]);
    assert bs[..k + 1] == bs[..k] + [bs[k]];
    OrAdds(Value(bs[..k]), bs[k] % 128, 7 * k);
  }

  lemma LengthByte(n: nat)
    ensures And(n % 128, 0xff) == n % 128
    ensures And(Or(n % 128, 128), 0xff) == Or(n % 128, 128) == 128 + n % 128
  {
    hide And, Or;
    var b := n % 128;
    assert Pow2(7) == 128 && Pow2(8) == 256 by { Powers(); }
    OrAdds(b, 1, 7);
    assert Shl(1, 7) == 128;
    AndLow(b, 8);
    AndLow(128 + b, 8);
  }

  lemma EncodeStep(n: nat)
    ensures Encode(n) == if n < 128 then [n] else [128 + n % 128] + Encode(n / 128)
  {}

  method EncodeLength(length: nat) returns (encoded: seq<Byte>)
    ensures encoded == Encode(length)
  {
    encoded := [];
    var rest := length;
    assert [] + Encode(length) == Encode(length);
    hide Encode;
    while true
      invariant Encode(length) == encoded + Encode(rest)
      decreases rest
    {
      hide And, Or, Encode;
      LengthByte(rest);
      EncodeStep(rest);
      var b := rest % 128;
      rest := rest / 128;
      if rest > 0 {
        b := Or(b, 128);
      }
      ghost var tail := if rest == 0 then [] else Encode(rest);
      assert encoded + ([And(b, 0xff)] + tail) == (encoded + [And(b, 0xff)]) + tail;
      encoded := encoded + [And(b, 0xff)];
      if rest == 0 {
        break;
      }
    }
  }

  method ReadSizeCheck(buf: seq<Byte>) returns (r: VarintRead)
    ensures r == Decode(buf, 4)
  {
    var idx, lensize := 0, 1;
    if |buf| < idx + 1 {
      return Incomplete;
    }
    FirstByte(buf);
    var len := And(buf[idx], 0x7F);
    while And(buf[idx], 0x80) == 0x80
      invariant idx < |buf| && lensize == idx + 1 && idx <= 3
      invariant AllContinue(buf[..idx]) && len == Value(buf[..idx + 1])
      invariant idx == 3 ==> buf[3] < 128
      decreases 4 - idx
    {
      ByteMasks(buf[idx]);
      ContinueMore(buf, idx);
      idx := idx + 1;
      if |buf| < idx + 1 {
        DecodeEnds(buf, idx, 4);
        return Incomplete;
      }
      Accumulate(buf, idx);
      len := Or(len, Shl(And(buf[idx], 0x7F), 7 * lensize));
      lensize := lensize + 1;
      ByteMasks(buf[idx]);
      if lensize > 4 || (lensize == 4 && And(buf[idx], 0x80) == 0x80) {
        ContinueMore(buf, idx);
        DecodeEnds(buf, idx + 1, 4);
        return TooLong;
      }
    }
    ByteMasks(buf[idx]);
    DecodeEnds(buf, idx, 4);
    r := Complete(len, lensize);
  }

  /** When more bytes are waited for, and when none can help. */
  lemma {:induction false} DecodeOpen(bs: seq<Byte>, max: nat)
    requires max >= 1
    ensures Decode(bs, max) == Incomplete <==> |bs| < max && AllContinue(bs)
    ensures Decode(bs, max) == TooLong <==> |bs| >= max && AllContinue(bs[..max])
  {
    if bs != [] && bs[0] >= 128 {
      var rest := bs[1..];
      if max > 1 {
        DecodeOpen(rest, max - 1);
      }
      assert AllContinue(bs) <==> AllContinue(rest) by { ContinueFirst(bs); }
      if |bs| >= max {
        ContinueFirst(bs[..max]);
        assert bs[..max][1..] == rest[..max - 1];
      }
    } else if bs != [] && |bs| >= max {
      assert bs[..max][0] == bs[0];
    }
  }

  lemma ContinueFirst(bs: seq<Byte>)
    requires bs != []
    ensures AllContinue(bs) <==> bs[0] >= 128 && AllContinue(bs[1..])
  {
    assert bs == [bs[0]] + bs[1..];
  }

  /** The bytes of a number by its digits to the base of 128, lowest first, as in section 2.2.3. */
  lemma EncodeDigits(a: nat, b: nat, c: nat, d: nat)
    requires a < 128 && b < 128 && c < 128 && d < 128
    ensures Encode(a) == [a]
    ensures b > 0 ==> Encode(a + 128 * b) == [128 + a, b]
    ensures c > 0 ==> Encode(a + 128 * b + 16384 * c) == [128 + a, 128 + b, c]
    ensures d > 0 ==> Encode(a + 128 * b + 16384 * c + 2097152 * d) == [128 + a, 128 + b, 128 + c, d]
  {
    if b > 0 {
      EncodeDigit(a, b);
    }
    if c > 0 {
      EncodeDigit(b, c);
      EncodeDigit(a, b + 128 * c);
    }
    if d > 0 {
      EncodeDigit(c, d);
      EncodeDigit(b, c + 128 * d);
      EncodeDigit(a, b + 128 * (c + 128 * d));
    }
  }

  lemma EncodeDigit(a: nat, n: nat)
    requires a < 128 && n > 0
    ensures Encode(a + 128 * n) == [128 + a] + Encode(n)
  {
    var m := a + 128 * n;
    assert m % 128 == a && m / 128 == n;
  }

  lemma ContinueMore(bs: seq<Byte>, k: nat)
    requires k < |bs| && AllContinue(bs[..k]) && bs[k] >= 128
    ensures AllContinue(bs[..k + 1])
  {}

  /** The unchecked form indexes without looking: callers must know that the integer ends. */
  method ReadSize(buf: seq<Byte>) returns (len: nat, lensize: nat)
    requires Decode(buf, 9).Complete?
    ensures Decode(buf, 9) == Complete(len, lensize)
    ensures Decode(buf, 4).Complete? ==> Decode(buf, 4) == Complete(len, lensize)
  {
    var idx := 0;
    lensize := 1;
    FirstByte(buf);
    len := And(buf[idx], 0x7F);
    while And(buf[idx], 0x80) == 0x80
      invariant idx < |buf| && lensize == idx + 1 && idx <= 8
      invariant AllContinue(buf[..idx]) && len == Value(buf[..idx + 1])
      decreases 9 - idx
    {
      ByteMasks(buf[idx]);
      ContinueMore(buf, idx);
      idx := idx + 1;
      DecodeEnds(buf, idx, 9);
      Accumulate(buf, idx);
      len := Or(len, Shl(And(buf[idx], 0x7F), 7 * lensize));
      lensize := lensize + 1;
    }
    ByteMasks(buf[idx]);
    DecodeEnds(buf, idx, 9);
    if idx < 4 {
      DecodeEnds(buf, idx, 4);
    } else {
      assert AllContinue(buf[..4]) by { assert forall i :: 0 <= i < 4 ==> buf[..4][i] == buf[..idx][i]; }
      DecodeEnds(buf, 4, 4);
    }
  }
}
