/** The accepted topic names and filters, against the grammar of section 4.7 of MQTT 3.1.1. */
module Grammar {
  import opened Basics
  import opened Paths
  import opened Validation
  import Utf8

  // ----- every byte string -----

  /** Where no zero is yielded, no byte below 0x80 is jumped over. */
  lemma {:induction false} AsciiSeen(s: Str, i: nat)
    requires 0 !in Yields(s) && i < |s| && s[i] < 0x80
    ensures s[i] in Yields(s)
  {
    var (v, k) := Step(s);
    YieldsNext(s);
    if i >= k {
      assert s[i] == s[k..][i - k];
      AsciiSeen(s[k..], i - k);
    }
  }

  lemma {:induction false} LevelBytes(s: Str, i: nat, b: Byte)
    requires i < |Split(s)| && b in Split(s)[i]
    ensures b in s
  {
    if s != [] {
      var rest := Split(s[1..]);
      if s[0] == SLASH {
        assert Split(s)[i] == rest[i - 1];
        LevelBytes(s[1..], i - 1, b);
      } else if i > 0 {
        assert Split(s)[i] == rest[i];
        LevelBytes(s[1..], i, b);
      } else if b != s[0] {
        assert Split(s)[0] == [s[0]] + rest[0];
        LevelBytes(s[1..], 0, b);
      }
    }
  }

  /** Whatever the bytes: an accepted topic name holds no NUL, '+' or '#', and so no wildcard level. */
  lemma AcceptedNamePlain(s: Str)
    requires PublishTopicValid(s)
    ensures 0 !in s && 0x2b !in s && 0x23 !in s
    ensures Plain(Split(s))
  {
    forall i | 0 <= i < |s|
      ensures s[i] != 0 && s[i] != 0x2b && s[i] != 0x23
    {
      if s[i] < 0x80 {
        AsciiSeen(s, i);
      }
    }
    forall i | 0 <= i < |Split(s)|
      ensures Split(s)[i] != PLUS && Split(s)[i] != HASH
    {
      if Split(s)[i] == PLUS {
        LevelBytes(s, i, 0x2b);
      }
      if Split(s)[i] == HASH {
        LevelBytes(s, i, 0x23);
      }
    }
  }

  // ----- ASCII -----

  predicate Ascii(s: Str) {
    forall i :: 0 <= i < |s| ==> s[i] < 0x80
  }

  lemma {:induction false} AsciiYields(s: Str)
    requires Ascii(s)
    ensures 0 !in s ==> Yields(s) == s
    ensures 0 in s ==> 0 in Yields(s)
  {
    if s != [] {
      assert s == [s[0]] + s[1..];
      AsciiYields(s[1..]);
    }
  }

  /** Over ASCII the accepted names are those of section 4.7.3. */
  lemma NameAscii(s: Str)
    requires Ascii(s)
    ensures PublishTopicValid(s) <==> 1 <= |s| <= 65535 && 0 !in s && 0x2b !in s && 0x23 !in s
  {
    AsciiYields(s);
  }

  /** A level is '+', a final '#', or free of both characters. */
  predicate LevelOk(level: Str, last: bool) {
    level == PLUS || (level == HASH && last) || (0x2b !in level && 0x23 !in level)
  }

  predicate LevelsOk(t: Path) {
    forall i :: 0 <= i < |t| ==> LevelOk(t[i], i == |t| - 1)
  }

  lemma LevelsCons(level: Str, t: Path)
    ensures LevelsOk([level] + t) <==> LevelOk(level, t == []) && LevelsOk(t)
  {
    var all := [level] + t;
    if LevelsOk(all) {
      assert LevelOk(all[0], t == []);
      forall i | 0 <= i < |t|
        ensures LevelOk(t[i], i == |t| - 1)
      {
        assert all[i + 1] == t[i];
      }
    }
  }

  /** What the scan accepts after each kind of character. */
  lemma {:induction false} ScanLevels(previous: nat, s: Str)
    requires 0 !in s
    ensures previous == 0 || previous == 0x2f ==> (FilterWord(previous, s) <==> LevelsOk(Split(s)))
    ensures previous == 0x23 ==> (FilterWord(previous, s) <==> s == [])
    ensures previous == 0x2b ==> (FilterWord(previous, s) <==> Split(s)[0] == [] && LevelsOk(Split(s)[1..]))
    ensures previous !in [0, 0x2f, 0x23, 0x2b]
      ==> (FilterWord(previous, s) <==>
           0x2b !in Split(s)[0] && 0x23 !in Split(s)[0] && LevelsOk(Split(s)[1..]))
    decreases s
  {
    if s == [] {
      assert LevelOk([], true);
    } else {
      var c, rest := s[0], Split(s[1..]);
      assert 0 !in s[1..];
      ScanLevels(c, s[1..]);
      assert rest == [rest[0]] + rest[1..];
      LevelsCons(rest[0], rest[1..]);
      if c == 0x2f {
        LevelsCons([], rest);
        assert Split(s)[1..] == rest;
      } else {
        var level := [c] + rest[0];
        LevelsCons(level, rest[1..]);
        assert Split(s) == [level] + rest[1..];
        assert Split(s)[1..] == rest[1..];
        SplitEmpty(s[1..]);
        assert level[0] == c && level[1..] == rest[0];
        assert level == PLUS <==> c == 0x2b && rest[0] == [];
        assert level == HASH <==> c == 0x23 && rest[0] == [];
        assert forall b :: b in level <==> b == c || b in rest[0];
      }
    }
  }

  lemma SplitEmpty(s: Str)
    ensures s == [] <==> |Split(s)| == 1 && Split(s)[0] == []
  {}

  /** Over ASCII the accepted filters are those of sections 4.7.1 and 4.7.3. */
  lemma FilterAscii(s: Str)
    requires Ascii(s)
    ensures TopicFilterValid(s) <==> 1 <= |s| <= 65535 && 0 !in s && LevelsOk(Split(s))
  {
    AsciiYields(s);
    if 0 in s {
      FilterZero(0, Yields(s));
    } else {
      ScanLevels(0, s);
    }
  }

  lemma {:induction false} FilterZero(previous: nat, w: seq<nat>)
    requires 0 in w
    ensures !FilterWord(previous, w)
    decreases w
  {
    if w[0] != 0 {
      FilterZero(w[0], w[1..]);
    }
  }

  // ----- every text -----

  /** The character the iterator takes `c` for. */
  function Seen(c: Utf8.CodePoint): nat {
    if c < 0x80 then c
    else if c < 0x800 then c % 0x40
    else if c < 0x1_0000 then c % 0x1000
    else c % 0x4_0000
  }

  function SeenAll(text: seq<Utf8.CodePoint>): (w: seq<nat>)
    ensures |w| == |text| && forall i :: 0 <= i < |w| ==> w[i] == Seen(text[i])
  {
    if text == [] then [] else [Seen(text[0])] + SeenAll(text[1..])
  }

  lemma StepChar(c: Utf8.CodePoint, rest: Str)
    ensures Step(Utf8.EncodeChar(c) + rest) == (Seen(c), |Utf8.EncodeChar(c)|)
  {
    Utf8.Digits(c);
    var bs := Utf8.EncodeChar(c);
    assert forall i :: 0 <= i < |bs| ==> (bs + rest)[i] == bs[i];
    assert c % 0x1000 == c / 0x40 % 0x40 * 0x40 + c % 0x40;
    assert c % 0x4_0000 == c / 0x1000 % 0x40 * 0x1000 + c / 0x40 % 0x40 * 0x40 + c % 0x40;
  }

  lemma {:induction false} TextYields(text: seq<Utf8.CodePoint>)
    ensures 0 !in SeenAll(text) ==> Yields(Utf8.Encode(text)) == SeenAll(text)
    ensures 0 in SeenAll(text) ==> 0 in Yields(Utf8.Encode(text))
  {
    if text != [] {
      var first, rest := Utf8.EncodeChar(text[0]), Utf8.Encode(text[1..]);
      StepChar(text[0], rest);
      assert (first + rest)[|first|..] == rest;
      YieldsNext(first + rest);
      TextYields(text[1..]);
    }
  }

  predicate FitsString(bs: Str) {
    1 <= |bs| <= 65535
  }

  /** A character beyond ASCII that the iterator takes for NUL or for one of `others`. */
  predicate Confused(text: seq<Utf8.CodePoint>, others: set<nat>) {
    exists i :: 0 <= i < |text| && text[i] >= 0x80 && (Seen(text[i]) == 0 || Seen(text[i]) in others)
  }

  /** Exactly which of the standard's topic names are accepted. */
  lemma NameText(text: seq<Utf8.CodePoint>)
    ensures PublishTopicValid(Utf8.Encode(text)) <==>
            && FitsString(Utf8.Encode(text))
            && 0 !in text && 0x2b !in text && 0x23 !in text
            && !Confused(text, {0x2b, 0x23})
  {
    TextYields(text);
    var w := SeenAll(text);
    assert NameWord(w) <==> 0 !in text && 0x2b !in text && 0x23 !in text && !Confused(text, {0x2b, 0x23}) by {
      forall i | 0 <= i < |w|
        ensures text[i] < 0x80 ==> w[i] == text[i]
      {}
      if NameWord(w) {
        assert forall i :: 0 <= i < |w| ==> w[i] != 0 && w[i] != 0x2b && w[i] != 0x23;
      }
    }
  }

  /** Exactly which of the standard's client identifiers are accepted. */
  lemma ClientText(text: seq<Utf8.CodePoint>)
    ensures ClientIdValid(Utf8.Encode(text)) <==>
            |Utf8.Encode(text)| <= 65535 && 0 !in text && !Confused(text, {})
  {
    TextYields(text);
    var w := SeenAll(text);
    if 0 !in w {
      assert forall i :: 0 <= i < |w| ==> w[i] != 0;
    }
  }

  /** Filters are judged as if every character were the one it is taken for. */
  lemma FilterText(text: seq<Utf8.CodePoint>)
    ensures TopicFilterValid(Utf8.Encode(text)) <==> FitsString(Utf8.Encode(text)) && FilterWord(0, SeenAll(text))
    ensures !Confused(text, {0x2b, 0x23, 0x2f})
      ==> (TopicFilterValid(Utf8.Encode(text)) <==> FitsString(Utf8.Encode(text)) && FilterWord(0, text))
  {
    TextYields(text);
    if 0 in SeenAll(text) {
      FilterZero(0, SeenAll(text));
      FilterZero(0, Yields(Utf8.Encode(text)));
    }
    if !Confused(text, {0x2b, 0x23, 0x2f}) {
      SameScan(0, 0, text);
    }
  }

  predicate Wild(c: nat) {
    c == 0 || c == 0x2b || c == 0x23 || c == 0x2f
  }

  /** The scan tells apart only NUL, '+', '#' and '/'. */
  lemma OtherBefore(p: nat, q: nat, w: seq<nat>)
    requires !Wild(p) && !Wild(q)
    ensures FilterWord(p, w) <==> FilterWord(q, w)
  {}

  /** A character of several bytes is scanned like each of them. */
  lemma {:induction false} ScanBytes(p: nat, bs: Str, rest: Str)
    requires bs != [] && forall i :: 0 <= i < |bs| ==> bs[i] >= 0x80
    ensures FilterWord(p, bs + rest) <==> p != 0x23 && p != 0x2b && FilterWord(0x80, rest)
    decreases bs
  {
    assert (bs + rest)[0] == bs[0] && (bs + rest)[1..] == bs[1..] + rest;
    if |bs| == 1 {
      assert bs[1..] + rest == rest;
      OtherBefore(bs[0], 0x80, rest);
    } else {
      ScanBytes(bs[0], bs[1..], rest);
    }
  }

  /** Scanning the characters of a text is scanning the bytes of its encoding. */
  lemma {:induction false} ScanEncoded(p: nat, text: seq<Utf8.CodePoint>)
    ensures FilterWord(p, text) <==> FilterWord(p, Utf8.Encode(text))
    decreases text
  {
    if text != [] {
      var c, first, rest := text[0], Utf8.EncodeChar(text[0]), Utf8.Encode(text[1..]);
      if c < 0x80 {
        assert (first + rest)[0] == c && (first + rest)[1..] == rest;
        ScanEncoded(c, text[1..]);
      } else {
        ScanBytes(p, first, rest);
        OtherBefore(c, 0x80, text[1..]);
        ScanEncoded(0x80, text[1..]);
      }
    }
  }

  lemma {:induction false} ZeroEncoded(text: seq<Utf8.CodePoint>)
    ensures 0 in Utf8.Encode(text) <==> 0 in text
  {
    if text != [] {
      ZeroEncoded(text[1..]);
      assert forall b :: b in Utf8.Encode(text) <==> b in Utf8.EncodeChar(text[0]) || b in Utf8.Encode(text[1..]);
      assert text == [text[0]] + text[1..];
    }
  }

  /** A text passes the scan exactly if it is a filter by sections 4.7.1 and 4.7.3: no NUL, and level by level, each '+'
      alone, '#' alone and last. */
  lemma ScanText(text: seq<Utf8.CodePoint>)
    ensures FilterWord(0, text) <==> 0 !in text && LevelsOk(Split(Utf8.Encode(text)))
  {
    var bs := Utf8.Encode(text);
    ScanEncoded(0, text);
    ZeroEncoded(text);
    if 0 in bs {
      FilterZero(0, bs);
    } else {
      ScanLevels(0, bs);
    }
  }

  /** A text with no character taken for another is judged as these sections say. */
  lemma FilterLevels(text: seq<Utf8.CodePoint>)
    requires !Confused(text, {0x2b, 0x23, 0x2f})
    ensures TopicFilterValid(Utf8.Encode(text)) <==>
            FitsString(Utf8.Encode(text)) && 0 !in text && LevelsOk(Split(Utf8.Encode(text)))
  {
    FilterText(text);
    ScanText(text);
  }

  /** Any text is judged as they say exactly if it is too long, or passes the scan as it is seen exactly if it passes
      the scan as it is. */
  lemma FilterJudged(text: seq<Utf8.CodePoint>)
    ensures (TopicFilterValid(Utf8.Encode(text)) <==>
               FitsString(Utf8.Encode(text)) && 0 !in text && LevelsOk(Split(Utf8.Encode(text))))
            <==> (FitsString(Utf8.Encode(text)) ==> (FilterWord(0, SeenAll(text)) <==> FilterWord(0, text)))
  {
    FilterText(text);
    ScanText(text);
  }

  lemma {:induction false} SameScan(previous: nat, seen: nat, text: seq<Utf8.CodePoint>)
    requires !Confused(text, {0x2b, 0x23, 0x2f})
    requires previous == seen || (previous !in [0, 0x2b, 0x23, 0x2f] && seen !in [0, 0x2b, 0x23, 0x2f])
    ensures FilterWord(previous, text) <==> FilterWord(seen, SeenAll(text))
    decreases text
  {
    if text != [] {
      forall i | 0 <= i < |text[1..]|
        ensures !(text[1..][i] >= 0x80 && (Seen(text[1..][i]) == 0 || Seen(text[1..][i]) in {0x2b, 0x23, 0x2f}))
      {
        assert text[1..][i] == text[i + 1];
      }
      assert SeenAll(text)[1..] == SeenAll(text[1..]);
      SameScan(text[0], Seen(text[0]), text[1..]);
    }
  }

  /** U+00AB, a lawful topic name, is refused. */
  lemma LawfulNameRefused(text: seq<Utf8.CodePoint>)
    requires text == [0xAB]
    ensures !PublishTopicValid(Utf8.Encode(text))
  {}

  /** In an unlawful filter, U+00AF before '+' passes for the separator. */
  lemma UnlawfulFilterAccepted(text: seq<Utf8.CodePoint>)
    requires text == [0xAF, 0x2b]
    ensures TopicFilterValid(Utf8.Encode(text)) && !FilterWord(0, text)
  {
    hide Yields, Step, Utf8.Encode, TopicFilterValid, Confused;
    Utf8.EncodeSize(text);
    FilterText(text);
    var seen := SeenAll(text);
    assert seen[0] == 0x2f && seen[1] == 0x2b;
    hide SeenAll, Seen;
    assert |seen[1..]| == 1 && seen[1..][0] == 0x2b;
    assert FilterWord(0x2f, seen[1..]);
    assert !FilterWord(0xAF, text[1..]);
  }
}
