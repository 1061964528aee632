/** The cursor over a packet, and what its reads mean on the bytes still unread. */
module Reader {
  import opened Basics
  import opened Bits
  import Utf8
  import Varint

  datatype ParseError =
    | UnexpectedEnd | VarintTooLong | InvalidUtf8
    | InvalidFlags | InvalidQos | DupWithQos0 | InvalidTopic | InvalidClientId | InvalidWillFlags
    | ZeroIdentifier | LengthUnderflow | InvalidLength | LengthIncorrect | NoTopics

  // ----- meaning -----

  /** A value and the bytes after it. */
  type Taken<+T> = Result<(T, seq<Byte>), ParseError>

  function TakeBytes(bs: seq<Byte>, n: nat): Taken<seq<Byte>> {
    if |bs| < n then Err(UnexpectedEnd) else Ok((bs[..n], bs[n..]))
  }

  function TakeU8(bs: seq<Byte>): Taken<Byte> {
    if bs == [] then Err(UnexpectedEnd) else Ok((bs[0], bs[1..]))
  }

  function BigEndian(hi: nat, lo: nat): nat {
    hi * 0x100 + lo
  }

  function TakeU16(bs: seq<Byte>): Taken<U16> {
    if |bs| < 2 then Err(UnexpectedEnd) else Ok((BigEndian(bs[0], bs[1]), bs[2..]))
  }

  function PutU16(n: nat): (bs: seq<Byte>)
    ensures |bs| == 2
  {
    [n / 0x100 % 0x100, n % 0x100]
  }

  lemma U16Exact(bs: seq<Byte>, n: U16, rest: seq<Byte>)
    ensures TakeU16(bs) == Ok((n, rest)) <==> bs == PutU16(n) + rest
  {}

  /** The high byte comes first (section 1.5.2). */
  lemma U16Order(hi: Byte, lo: Byte, rest: seq<Byte>)
    ensures PutU16(256 * hi + lo) == [hi, lo]
    ensures TakeU16([hi, lo] + rest) == Ok((256 * hi + lo, rest))
  {}

  /** Bytes behind their 16-bit length. */
  function TakePrefixed(bs: seq<Byte>): Taken<seq<Byte>> {
    var (n, rest) :- TakeU16(bs);
    TakeBytes(rest, n)
  }

  function PutPrefixed(data: seq<Byte>): seq<Byte> {
    PutU16(|data|) + data
  }

  lemma PutPrefixedSize(data: seq<Byte>)
    ensures |PutPrefixed(data)| == 2 + |data|
  {}

  lemma TakenSize(bs: seq<Byte>, n: nat)
    ensures TakeBytes(bs, n).Ok? ==> |TakeBytes(bs, n).value.0| == n
  {}

  lemma PrefixedExact(bs: seq<Byte>, data: seq<Byte>, rest: seq<Byte>)
    ensures TakePrefixed(bs) == Ok((data, rest)) <==> |data| < 0x1_0000 && bs == PutPrefixed(data) + rest
  {
    if |data| < 0x1_0000 && bs == PutPrefixed(data) + rest {
      assert bs == PutU16(|data|) + (data + rest);
      U16Exact(bs, |data|, data + rest);
    }
    if TakePrefixed(bs) == Ok((data, rest)) {
      U16Exact(bs, |data|, bs[2..]);
      assert bs[2..] == data + rest;
    }
  }

  function TakeString(bs: seq<Byte>): Taken<Str> {
    var (s, rest) :- TakePrefixed(bs);
    if Utf8.Valid(s) then Ok((s, rest)) else Err(InvalidUtf8)
  }

  /** The integer with its size; four bytes that all continue fail one way or the other. */
  function TakeVarint(bs: seq<Byte>): Taken<(nat, nat)> {
    match Varint.Decode(bs, 4)
    case Complete(value, size) => Ok(((value, size), bs[size..]))
    case Incomplete => Err(UnexpectedEnd)
    case TooLong => Err(if |bs| <= 4 then UnexpectedEnd else VarintTooLong)
  }

  /** The method returned what the function says, and stands behind it. */
  predicate Tied<T(==)>(taken: Taken<T>, r: Result<T, ParseError>, rest: seq<Byte>) {
    match taken
    case Ok(got) => r == Ok(got.0) && rest == got.1
    case Err(e) => r == Err(e)
  }

  lemma BigEndianBits(hi: Byte, lo: Byte)
    ensures Or(Shl(hi, 8), lo) == BigEndian(hi, lo)
  {
    assert Pow2(8) == 0x100 by { Powers(); }
    OrAdds(lo, hi, 8);
    OrCommutes(Shl(hi, 8), lo);
  }

  // ----- the cursor -----

  class Reader {
    const buf: seq<Byte>
    var pos: nat

    predicate Valid()
      reads this
    {
      pos <= |buf|
    }

    function Rest(): seq<Byte>
      reads this
      requires Valid()
    {
      buf[pos..]
    }

    constructor (bytes: seq<Byte>)
      ensures Valid() && Rest() == bytes
    {
      buf := bytes;
      pos := 0;
    }

    function Remaining(): nat
      reads this
      requires Valid()
    {
      |buf| - pos
    }

    predicate IsEmpty()
      reads this
      requires Valid()
    {
      Remaining() == 0
    }

    function Need(n: nat): Result<(), ParseError>
      reads this
      requires Valid()
    {
      if Remaining() < n then Err(UnexpectedEnd) else Ok(())
    }

    method ReadU8() returns (r: Result<Byte, ParseError>)
      requires Valid()
      modifies this
      ensures Valid() && Tied(TakeU8(old(Rest())), r, Rest())
    {
      var _ :- Need(1);
      var b := buf[pos];
      pos := pos + 1;
      return Ok(b);
    }

    method ReadU16() returns (r: Result<U16, ParseError>)
      requires Valid()
      modifies this
      ensures Valid() && Tied(TakeU16(old(Rest())), r, Rest())
    {
      var _ :- Need(2);
      var hi, lo := buf[pos], buf[pos + 1];
      pos := pos + 2;
      BigEndianBits(hi, lo);
      return Ok(Or(Shl(hi, 8), lo));
    }

    method ReadBytes(n: nat) returns (r: Result<seq<Byte>, ParseError>)
      requires Valid()
      modifies this
      ensures Valid() && Tied(TakeBytes(old(Rest()), n), r, Rest())
    {
      var _ :- Need(n);
      var s := buf[pos..pos + n];
      assert s == Rest()[..n];
      pos := pos + n;
      return Ok(s);
    }

    method ReadMqttString(n: nat) returns (r: Result<Str, ParseError>)
      requires Valid()
      modifies this
      ensures Valid()
      ensures match TakeBytes(old(Rest()), n)
              case Ok(got) => if Utf8.Valid(got.0) then r == Ok(got.0) && Rest() == got.1 else r == Err(InvalidUtf8)
              case Err(e) => r == Err(e)
    {
      var bytes :- ReadBytes(n);
      if !Utf8.Valid(bytes) {
        return Err(InvalidUtf8);
      }
      return Ok(bytes);
    }

    method ReadMqttStringPrefixed() returns (r: Result<Str, ParseError>)
      requires Valid()
      modifies this
      ensures Valid() && Tied(TakeString(old(Rest())), r, Rest())
    {
      var n :- ReadU16();
      r := ReadMqttString(n);
    }

    method ReadVarint() returns (r: Result<(nat, nat), ParseError>)
      requires Valid()
      modifies this
      ensures Valid() && Tied(TakeVarint(old(Rest())), r, Rest())
    {
      hide And, Or;
      var start, lensize := pos, 1;
      ghost var bs := Rest();
      var _ :- Need(1);
      Varint.FirstByte(bs);
      var len := And(buf[pos], 0x7F);
      while And(buf[pos], 0x80) == 0x80
        invariant pos < |buf| && bs == buf[start..] && pos == start + lensize - 1 && 1 <= lensize <= 4
        invariant Varint.AllContinue(bs[..lensize - 1]) && len == Varint.Value(bs[..lensize])
        decreases 4 - lensize
      {
        Varint.ByteMasks(buf[pos]);
        Varint.ContinueMore(bs, lensize - 1);
        pos := pos + 1;
        if pos == |buf| {
          Varint.DecodeEnds(bs, lensize, 4);
        }
        var _ :- Need(1);
        Varint.Accumulate(bs, lensize);
        len := Or(len, Shl(And(buf[pos], 0x7F), 7 * lensize));
        lensize := lensize + 1;
        if lensize > 4 {
          Varint.DecodeEnds(bs, 4, 4);
          return Err(VarintTooLong);
        }
      }
      Varint.ByteMasks(buf[pos]);
      Varint.DecodeEnds(bs, lensize - 1, 4);
      pos := pos + 1;
      return Ok((len, pos - start));
    }

    method Skip(n: nat) returns (r: Result<(), ParseError>)
      requires Valid()
      modifies this
      ensures Valid()
      ensures match TakeBytes(old(Rest()), n)
              case Ok(got) => r == Ok(()) && Rest() == got.1
              case Err(e) => r == Err(e)
    {
      var _ :- Need(n);
      pos := pos + n;
      return Ok(());
    }

    /** The check that ends most parsers. */
    method ExpectEnd() returns (r: Result<(), ParseError>)
      requires Valid()
      ensures r == if Rest() == [] then Ok(()) else Err(LengthIncorrect)
    {
      if Remaining() == 0 {
        return Ok(());
      } else {
        return Err(LengthIncorrect);
      }
    }
  }

  /** On every byte string the cursor and the framing layer read the same integers. */
  lemma VarintReadersAgree(bs: seq<Byte>, value: nat, size: nat)
    ensures (exists rest :: TakeVarint(bs) == Ok(((value, size), rest))) <==> Varint.Decode(bs, 4) == Varint.Complete(value, size)
  {}
}
