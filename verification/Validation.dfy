/**
 * What the program accepts as client identifier, topic name and topic filter.
 * The character iterator drops the bits of a lead byte, so characters beyond
 * ASCII are judged by the low bits their continuation bytes hold.
 */
module Validation {
  import opened Basics
  import opened Bits
  import Utf8

  // ----- the iterator -----

  /** The value and the advance of one step on a non-empty rest. */
  function Step(s: Str): (r: (nat, nat))
    requires s != []
    ensures r.1 <= |s|
    ensures r.0 != 0 ==> r.1 >= 1
  {
    if s[0] < 0x80 then (s[0], 1)
    else if 0xC0 <= s[0] < 0xE0 && |s| >= 2 then
      (if Utf8.Continues(s[1]) then Utf8.Join3(0, 0, s[1] - 0x80) else 0, 2)
    else if 0xE0 <= s[0] < 0xF0 && |s| >= 3 then
      (if Utf8.Continues(s[1]) && Utf8.Continues(s[2]) then Utf8.Join3(0, s[1] - 0x80, s[2] - 0x80) else 0, 3)
    else if 0xF0 <= s[0] < 0xF8 && |s| >= 4 then
      (if Utf8.Continues(s[1]) && Utf8.Continues(s[2]) && Utf8.Continues(s[3])
       then Utf8.Join3(s[1] - 0x80, s[2] - 0x80, s[3] - 0x80) else 0, 4)
    else (0, 0)
  }

  /** The values up to the first zero, where every caller stops. */
  function Yields(s: Str): seq<nat> {
    if s == [] then []
    else if Step(s).0 == 0 then [0]
    else [Step(s).0] + Yields(s[Step(s).1..])
  }

  lemma YieldsNext(s: Str)
    requires s != []
    ensures Step(s).0 == 0 ==> Yields(s) == [0]
    ensures Step(s).0 != 0 ==> Yields(s) == [Step(s).0] + Yields(s[Step(s).1..])
  {}

  lemma LeadMasks(b: Byte)
    ensures And(b, 0x80) == 0 <==> b < 0x80
    ensures And(b, 0xe0) == 0xc0 <==> 0xC0 <= b < 0xE0
    ensures And(b, 0xf0) == 0xe0 <==> 0xE0 <= b < 0xF0
    ensures And(b, 0xf8) == 0xf0 <==> 0xF0 <= b < 0xF8
  {
    hide And, Pow2;
    Powers();
    HighMask(b, 1, 7, 2, 0x80);
    HighMask(b, 3, 5, 8, 0x20);
    HighMask(b, 4, 4, 0x10, 0x10);
    HighMask(b, 5, 3, 0x20, 8);
  }

  lemma ContinuationMask(b: Byte)
    ensures And(b, 0xc0) == 0x80 <==> Utf8.Continues(b)
    ensures Utf8.Continues(b) ==> And(b, 0x3f) == b - 0x80
  {
    hide And, Pow2;
    Powers();
    HighMask(b, 2, 6, 4, 0x40);
    AndLow(b, 6);
  }

  /** A mask of all the bits from `k` up keeps just those. */
  lemma HighMask(b: Byte, n: nat, k: nat, pn: nat, pk: nat)
    requires pn == Pow2(n) && pk == Pow2(k) && b / pk < pn
    ensures And(b, (pn - 1) * pk) == b / pk * pk
  {
    hide And, Pow2;
    AndShifted(b, pn - 1, k);
    AndLow(b / pk, n);
    DivModUnique(b / pk, pn, 0, b / pk);
  }

  /** Since the lead byte's bits are dropped, only the continuation bytes' are left. */
  lemma Combine2(b: Byte)
    requires Utf8.Continues(b)
    ensures Or(Shl(And(0, 0x1f), 6), And(b, 0x3f)) == Utf8.Join3(0, 0, b - 0x80)
  {
    hide And, Or, Pow2;
    ShlZero(6);
    ContinuationMask(b);
  }

  lemma Combine3(b: Byte, c: Byte)
    requires Utf8.Continues(b) && Utf8.Continues(c)
    ensures Or(Or(Shl(And(0, 0x0f), 12), Shl(And(b, 0x3f), 6)), And(c, 0x3f)) == Utf8.Join3(0, b - 0x80, c - 0x80)
  {
    hide And, Or, Pow2;
    ContinuationMask(b);
    ContinuationMask(c);
    ShlZero(12);
    Powers();
    JoinBits(b - 0x80, c - 0x80, 6);
  }

  lemma Combine4(b: Byte, c: Byte, d: Byte)
    requires Utf8.Continues(b) && Utf8.Continues(c) && Utf8.Continues(d)
    ensures Or(Or(Or(Shl(And(0, 0x07), 18), Shl(And(b, 0x3f), 12)), Shl(And(c, 0x3f), 6)), And(d, 0x3f))
         == Utf8.Join3(b - 0x80, c - 0x80, d - 0x80)
  {
    hide And, Or, Pow2, Utf8.Join3;
    ContinuationMask(b);
    ContinuationMask(c);
    ContinuationMask(d);
    assert Shl(And(0, 0x07), 18) == 0 by { ShlZero(18); }
    assert Or(0, Shl(b - 0x80, 12)) == Shl(b - 0x80, 12) by { ShlZero(18); }
    hide Shl;
    JoinDigits(b - 0x80, c - 0x80, d - 0x80);
  }

  lemma JoinDigits(hi: nat, mid: nat, lo: nat)
    requires hi < 0x40 && mid < 0x40 && lo < 0x40
    ensures Or(Or(Shl(hi, 12), Shl(mid, 6)), lo) == Utf8.Join3(hi, mid, lo)
  {
    hide Or, Pow2;
    Powers();
    ShlValue(hi, 12, 0x1000);
    ShlValue(mid, 6, 0x40);
    ShlValue(hi * 0x40 + mid, 6, 0x40);
    hide Shl;
    JoinBits(hi, Shl(mid, 6), 12);
    JoinBits(hi * 0x40 + mid, lo, 6);
  }

  lemma ShlValue(a: nat, k: nat, p: nat)
    requires p == Pow2(k)
    ensures Shl(a, k) == a * p
  {}

  lemma ShlZero(k: nat)
    ensures forall x: nat :: Shl(And(0, x), k) == 0
    ensures forall x: nat :: Or(0, x) == x
  {}

  lemma JoinBits(hi: nat, lo: nat, k: nat)
    requires lo < Pow2(k)
    ensures Or(Shl(hi, k), lo) == Shl(hi, k) + lo
  {
    OrAdds(lo, hi, k);
    OrCommutes(Shl(hi, k), lo);
  }

  class UTF8Iterator {
    const text: Str
    var index: nat

    predicate Valid()
      reads this
    {
      index <= |text|
    }

    function Rest(): Str
      reads this
      requires Valid()
    {
      text[index..]
    }

    constructor (s: Str)
      ensures Valid() && text == s && Rest() == s
    {
      text := s;
      index := 0;
    }

    method Next() returns (r: Option<nat>)
      requires Valid()
      modifies this
      ensures Valid()
      ensures old(Rest()) == [] ==> r == None && Rest() == []
      ensures old(Rest()) != [] ==> r == Some(Step(old(Rest())).0) && Rest() == old(Rest())[Step(old(Rest())).1..]
    {
      hide And, Or, Shl, Pow2, Utf8.Join3, Utf8.Continues;
      if index < |text| {
        LeadMasks(text[index]);
        var value: nat := 0;
        var next := text[index];
        if And(next, 0x80) == 0 {
          value := next;
          index := index + 1;
        } else if And(next, 0xe0) == 0xc0 {
          if index + 1 < |text| {
            var b2 := text[index + 1];
            ContinuationMask(b2);
            if And(b2, 0xc0) == 0x80 {
              Combine2(b2);
              value := Or(Shl(And(value, 0x1f), 6), And(b2, 0x3f));
            }
            index := index + 2;
          }
        } else if And(next, 0xf0) == 0xe0 {
          if index + 2 < |text| {
            var b2, b3 := text[index + 1], text[index + 2];
            ContinuationMask(b2);
            ContinuationMask(b3);
            if And(b2, 0xc0) == 0x80 && And(b3, 0xc0) == 0x80 {
              Combine3(b2, b3);
              value := Or(Or(Shl(And(value, 0x0f), 12), Shl(And(b2, 0x3f), 6)), And(b3, 0x3f));
            }
            index := index + 3;
          }
        } else if And(next, 0xf8) == 0xf0 && index + 3 < |text| {
          var b2, b3, b4 := text[index + 1], text[index + 2], text[index + 3];
          ContinuationMask(b2);
          ContinuationMask(b3);
          ContinuationMask(b4);
          if And(b2, 0xc0) == 0x80 && And(b3, 0xc0) == 0x80 && And(b4, 0xc0) == 0x80 {
            Combine4(b2, b3, b4);
            value := Or(Or(Or(Shl(And(value, 0x07), 18), Shl(And(b2, 0x3f), 12)), Shl(And(b3, 0x3f), 6)), And(b4, 0x3f));
          }
          index := index + 4;
        }
        return Some(value);
      } else {
        return None;
      }
    }
  }

  // ----- what is accepted -----

  function QosValid(qos: Byte): bool {
    qos <= 2
  }

  predicate ClientIdValid(s: Str) {
    |s| <= 65535 && 0 !in Yields(s)
  }

  predicate NameWord(w: seq<nat>) {
    0 !in w && 0x2b !in w && 0x23 !in w
  }

  lemma NameNext(s: Str)
    requires s != []
    ensures NameWord(Yields(s)) <==> (
      Step(s).0 != 0 && Step(s).0 != 0x2b && Step(s).0 != 0x23 && NameWord(Yields(s[Step(s).1..])))
  {}

  predicate PublishTopicValid(s: Str) {
    1 <= |s| <= 65535 && NameWord(Yields(s))
  }

  /** A wildcard stands alone between separators, and nothing follows '#'; `previous` is 0 at the start. */
  predicate FilterWord(previous: nat, w: seq<nat>)
    decreases w
  {
    w == [] || (
      && w[0] != 0
      && previous != 0x23
      && (w[0] == 0x23 || w[0] == 0x2b ==> previous == 0 || previous == 0x2f)
      && (previous == 0x2b ==> w[0] == 0x2f)
      && FilterWord(w[0], w[1..]))
  }

  lemma FilterNext(previous: nat, s: Str)
    requires s != []
    ensures FilterWord(previous, Yields(s)) <==> (
      && Step(s).0 != 0
      && previous != 0x23
      && (Step(s).0 == 0x23 || Step(s).0 == 0x2b ==> previous == 0 || previous == 0x2f)
      && (previous == 0x2b ==> Step(s).0 == 0x2f)
      && FilterWord(Step(s).0, Yields(s[Step(s).1..])))
  {}

  predicate TopicFilterValid(s: Str) {
    1 <= |s| <= 65535 && FilterWord(0, Yields(s))
  }

  method CheckClientId(s: Str) returns (ok: bool)
    ensures ok == ClientIdValid(s)
  {
    if |s| > 65535 {
      return false;
    }
    hide Yields, Step;
    var chars := new UTF8Iterator(s);
    while true
      invariant chars.Valid()
      invariant 0 in Yields(s) <==> 0 in Yields(chars.Rest())
      decreases |chars.Rest()|
    {
      ghost var rest := chars.Rest();
      if rest != [] {
        YieldsNext(rest);
      }
      var c := chars.Next();
      if c == None {
        break;
      }
      if c.value == 0 {
        return false;
      }
    }
    ok := true;
  }

  method CheckPublishTopic(s: Str) returns (ok: bool)
    ensures ok == PublishTopicValid(s)
  {
    if !(1 <= |s| <= 65535) {
      return false;
    }
    assert NameWord(Yields([]));
    hide Yields, Step, NameWord;
    var chars := new UTF8Iterator(s);
    while true
      invariant chars.Valid()
      invariant NameWord(Yields(s)) <==> NameWord(Yields(chars.Rest()))
      decreases |chars.Rest()|
    {
      ghost var rest := chars.Rest();
      if rest != [] {
        NameNext(rest);
      }
      var c := chars.Next();
      if c == None {
        break;
      }
      if c.value == 0 {
        return false;
      }
      if c.value == 0x2b {
        return false;
      }
      if c.value == 0x23 {
        return false;
      }
    }
    ok := true;
  }

  method CheckTopicFilter(s: Str) returns (ok: bool)
    ensures ok == TopicFilterValid(s)
  {
    var previous := 0;
    if !(1 <= |s| <= 65535) {
      return false;
    }
    hide Yields, Step, FilterWord;
    var chars := new UTF8Iterator(s);
    while true
      invariant chars.Valid()
      invariant FilterWord(0, Yields(s)) <==> FilterWord(previous, Yields(chars.Rest()))
      decreases |chars.Rest()|
    {
      ghost var rest := chars.Rest();
      if rest != [] {
        FilterNext(previous, rest);
      }
      var c := chars.Next();
      if c == None {
        break;
      }
      if c.value == 0 {
        return false;
      }
      if previous == 0x23 {
        return false;
      }
      if c.value == 0x23 && previous != 0 && previous != 0x2f {
        return false;
      }
      if previous == 0x2b && c.value != 0x2f {
        return false;
      }
      if c.value == 0x2b && previous != 0 && previous != 0x2f {
        return false;
      }
      previous := c.value;
    }
    ok := true;
  }
}
