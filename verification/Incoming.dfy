/** The publishes received from the client and passed on, as a history over all starts of a session. */
module Incoming {
  import opened Basics

  /** `Passed` is a QoS 2 publish handed to the router, `Missed` the failure to put that on record, `Released` its
      PUBREL, `Reset` a clean session; `Relayed` is a publish of another QoS handed to the router. */
  datatype Receipt =
    Passed(message: Publish) | Missed(mid: U16) | Released(mid: U16) | Reset | Relayed(message: Publish)

  predicate Passes(r: Receipt, mid: U16) {
    r.Passed? && r.message.identifier == mid
  }

  /** The identifiers on record: passed on, not missed, and not released since. */
  function Open(h: seq<Receipt>): set<U16> {
    if h == [] then {} else OpenAfter(Open(h[..|h| - 1]), h[|h| - 1])
  }

  function OpenAfter(o: set<U16>, r: Receipt): set<U16> {
    match r
    case Passed(m) => o + {m.identifier}
    case Missed(mid) => o - {mid}
    case Released(mid) => o - {mid}
    case Reset => {}
    case Relayed(_) => o
  }

  /** The program passes on only what is not on record; a miss follows its pass at once. */
  predicate Regular(g: seq<Receipt>, r: Receipt) {
    match r
    case Passed(m) => m.qos == 2 && m.identifier !in Open(g)
    case Missed(mid) => g != [] && Passes(g[|g| - 1], mid)
    case Relayed(m) => m.qos != 2
    case _ => true
  }

  ghost predicate Orderly(h: seq<Receipt>) {
    forall k :: 0 <= k < |h| ==> Regular(h[..k], h[k])
  }

  /** Between two passes of one identifier there is a release of it or a clean session. */
  ghost predicate ExactlyOnce(h: seq<Receipt>) {
    forall i, j :: 0 <= i < j < |h| && h[i].Passed? && Passes(h[j], h[i].message.identifier) ==>
      Closed(h, h[i].message.identifier, i, j)
  }

  ghost predicate Closed(h: seq<Receipt>, mid: U16, i: int, j: int)
    requires 0 <= i < j <= |h|
  {
    exists k :: i < k < j && (h[k] == Released(mid) || h[k] == Reset)
  }

  lemma OpenStep(h: seq<Receipt>, r: Receipt)
    ensures Open(h + [r]) == OpenAfter(Open(h), r)
  {}

  lemma OrderlyStep(h: seq<Receipt>, r: Receipt)
    requires Orderly(h) && Regular(h, r)
    ensures Orderly(h + [r])
  {
    var g := h + [r];
    forall k | 0 <= k < |g| ensures Regular(g[..k], g[k]) {
      assert g[..k] == h[..k];
      assert k == |h| ==> h[..k] == h;
    }
  }

  // ----- what the router gets -----

  function Forward(r: Receipt): seq<Publish> {
    if r.Passed? || r.Relayed? then [r.message] else []
  }

  /** The publishes handed to the router, in order. */
  function Forwards(h: seq<Receipt>): seq<Publish> {
    if h == [] then [] else Forwards(h[..|h| - 1]) + Forward(h[|h| - 1])
  }

  lemma ForwardsStep(h: seq<Receipt>, r: Receipt)
    ensures Forwards(h + [r]) == Forwards(h) + Forward(r)
  {}

  /** How often the router got a QoS 2 publish under the identifier. */
  function Times(ms: seq<Publish>, mid: U16): nat {
    if ms == [] then 0
    else Times(ms[..|ms| - 1], mid) + if ms[|ms| - 1].qos == 2 && ms[|ms| - 1].identifier == mid then 1 else 0
  }

  /** How often it was released, reset, or missed on record. */
  function Closings(h: seq<Receipt>, mid: U16): nat {
    if h == [] then 0
    else
      var r := h[|h| - 1];
      Closings(h[..|h| - 1], mid) + if r == Released(mid) || r == Reset || r == Missed(mid) then 1 else 0
  }

  /** The router gets a QoS 2 publish under an identifier at most once more often than that is released, reset or missed;
      not even that where the identifier is not on record. */
  lemma {:induction false} ForwardsBound(h: seq<Receipt>, mid: U16)
    requires Orderly(h)
    ensures Times(Forwards(h), mid) <= Closings(h, mid) + if mid in Open(h) then 1 else 0
  {
    if h != [] {
      var g, r := h[..|h| - 1], h[|h| - 1];
      assert h == g + [r] && Regular(g, r);
      OrderlyPrefix(h, |g|);
      ForwardsBound(g, mid);
      TimesStep(Forwards(g), r, mid);
    }
  }

  /** Every forward is of one receipt, in the order of the receipts. */
  lemma {:induction false} ForwardOf(h: seq<Receipt>, i: nat) returns (j: nat)
    requires i < |Forwards(h)|
    ensures j < |h| && |Forwards(h[..j])| == i && Forward(h[j]) == [Forwards(h)[i]]
  {
    var g := h[..|h| - 1];
    if i < |Forwards(g)| {
      j := ForwardOf(g, i);
      assert g[..j] == h[..j];
    } else {
      j := |g|;
    }
  }

  /** Where delivery is exactly once, two QoS 2 messages of one identifier reach the router only with its release or a
      clean session between them. */
  lemma ForwardedOnce(h: seq<Receipt>, x: nat, y: nat) returns (i: nat, j: nat)
    requires Orderly(h) && ExactlyOnce(h) && x < y < |Forwards(h)|
    requires Forwards(h)[x].qos == Forwards(h)[y].qos == 2 && Forwards(h)[x].identifier == Forwards(h)[y].identifier
    ensures i < j < |h| && h[i] == Passed(Forwards(h)[x]) && h[j] == Passed(Forwards(h)[y])
    ensures Closed(h, Forwards(h)[x].identifier, i, j)
  {
    i := ForwardOf(h, x);
    j := ForwardOf(h, y);
    assert Regular(h[..i], h[i]) && Regular(h[..j], h[j]);
    if j <= i {
      ForwardsGrow(h, j, i);
    }
    assert Passes(h[j], h[i].message.identifier);
  }

  lemma {:induction false} ForwardsGrow(h: seq<Receipt>, j: nat, i: nat)
    requires j <= i <= |h|
    ensures |Forwards(h[..j])| <= |Forwards(h[..i])|
    decreases i
  {
    if j < i {
      ForwardsGrow(h, j, i - 1);
      assert h[..i][..i - 1] == h[..i - 1];
    }
  }

  lemma TimesStep(ms: seq<Publish>, r: Receipt, mid: U16)
    requires r.Passed? ==> r.message.qos == 2
    requires r.Relayed? ==> r.message.qos != 2
    ensures Times(ms + Forward(r), mid) == Times(ms, mid) + if Passes(r, mid) then 1 else 0
  {
    assert Forward(r) != [] ==> (ms + Forward(r))[..|ms|] == ms;
    assert ms + [] == ms;
  }

  lemma OrderlyPrefix(h: seq<Receipt>, j: nat)
    requires Orderly(h) && j <= |h|
    ensures Orderly(h[..j])
  {
    forall k | 0 <= k < j ensures Regular(h[..j][..k], h[..j][k]) {
      assert h[..j][..k] == h[..k];
    }
  }

  // ----- exactly once -----

  ghost predicate OpenSince(h: seq<Receipt>, mid: U16, i: int) {
    && 0 <= i < |h| && Passes(h[i], mid)
    && forall k :: i < k < |h| ==> h[k] != Released(mid) && h[k] != Reset && h[k] != Missed(mid)
  }

  lemma SinceStep(g: seq<Receipt>, r: Receipt, mid: U16, i: int)
    ensures OpenSince(g + [r], mid, i) <==>
              if i == |g| then Passes(r, mid)
              else OpenSince(g, mid, i) && r != Released(mid) && r != Reset && r != Missed(mid)
  {
    var h := g + [r];
    if OpenSince(h, mid, i) && i < |g| {
      assert h[|g|] == r;
      assert forall k :: i < k < |g| ==> h[k] == g[k];
    }
  }

  /** What is on record is what was passed without a miss, a release or a reset after it. */
  lemma {:induction false} OpenMeaning(h: seq<Receipt>, mid: U16)
    ensures mid in Open(h) <==> exists i :: OpenSince(h, mid, i)
  {
    if h != [] {
      var g, r := h[..|h| - 1], h[|h| - 1];
      assert h == g + [r];
      OpenMeaning(g, mid);
      OpenStep(g, r);
      hide Open, OpenSince;
      SinceStep(g, r, mid, |g|);
      forall i ensures OpenSince(h, mid, i) <==> (if i == |g| then Passes(r, mid)
                         else OpenSince(g, mid, i) && r != Released(mid) && r != Reset && r != Missed(mid))
      {
        SinceStep(g, r, mid, i);
      }
    }
  }

  /** Passed on and neither released nor reset since, whether that is on record or not. */
  ghost predicate Unreleased(h: seq<Receipt>, mid: U16, i: int) {
    0 <= i < |h| && Passes(h[i], mid) && forall k :: i < k < |h| ==> h[k] != Released(mid) && h[k] != Reset
  }

  /** Passing on only what is released keeps delivery exactly once; passing on anything else breaks it. */
  lemma PassOnce(h: seq<Receipt>, m: Publish)
    requires ExactlyOnce(h)
    ensures ExactlyOnce(h + [Passed(m)]) <==> forall i :: !Unreleased(h, m.identifier, i)
  {
    var mid, g := m.identifier, h + [Passed(m)];
    forall i, j | 0 <= i < j < |h| && h[i].Passed? && Passes(h[j], h[i].message.identifier)
      ensures Closed(g, h[i].message.identifier, i, j)
    {
      assert Closed(h, h[i].message.identifier, i, j);
      var k :| i < k < j && (h[k] == Released(h[i].message.identifier) || h[k] == Reset);
      assert g[k] == h[k];
    }
    if i :| Unreleased(h, mid, i) {
      assert Passes(g[i], mid) && Passes(g[|h|], mid);
      assert forall k :: i < k < |h| ==> g[k] == h[k];
      assert !Closed(g, mid, i, |h|);
    } else {
      forall i | 0 <= i < |h| && Passes(h[i], mid) ensures Closed(g, mid, i, |h|) {
        assert !Unreleased(h, mid, i);
        var k :| i < k < |h| && (h[k] == Released(mid) || h[k] == Reset);
        assert g[k] == h[k];
      }
    }
  }

  lemma OtherReceipt(h: seq<Receipt>, r: Receipt)
    requires ExactlyOnce(h) && !r.Passed?
    ensures ExactlyOnce(h + [r])
  {
    var g := h + [r];
    forall i, j | 0 <= i < j < |g| && g[i].Passed? && Passes(g[j], g[i].message.identifier)
      ensures Closed(g, g[i].message.identifier, i, j)
    {
      assert Closed(h, h[i].message.identifier, i, j);
      var k :| i < k < j && (h[k] == Released(h[i].message.identifier) || h[k] == Reset);
      assert g[k] == h[k];
    }
  }

  /** A message is passed on again after its pass was not recorded, with neither release nor reset between. */
  ghost predicate Repeated(h: seq<Receipt>, i: int, j: int) {
    0 <= i < j < |h| && h[i].Missed? && Passes(h[j], h[i].mid) && !Closed(h, h[i].mid, i, j)
  }

  /** Over all starts, QoS 2 is exactly once unless a message whose record failed is received once more. */
  lemma OnceIff(h: seq<Receipt>)
    requires Orderly(h)
    ensures ExactlyOnce(h) <==> forall i, j :: !Repeated(h, i, j)
  {
    forall i, j | Repeated(h, i, j) ensures !ExactlyOnce(h) {
      assert Regular(h[..i], h[i]);
      assert Passes(h[i - 1], h[i].mid) && Passes(h[j], h[i - 1].message.identifier);
      assert !Closed(h, h[i].mid, i - 1, j);
    }
    forall i, j | 0 <= i < j < |h| && h[i].Passed? && Passes(h[j], h[i].message.identifier) &&
                  !Closed(h, h[i].message.identifier, i, j)
      ensures exists k :: Repeated(h, k, j)
    {
      var k := MissedBetween(h, i, j);
      assert Repeated(h, k, j);
    }
  }

  lemma MissedBetween(h: seq<Receipt>, i: nat, j: nat) returns (k: nat)
    requires Orderly(h) && i < j < |h| && h[i].Passed? && Passes(h[j], h[i].message.identifier)
    requires !Closed(h, h[i].message.identifier, i, j)
    ensures i < k < j && h[k] == Missed(h[i].message.identifier)
  {
    var mid := h[i].message.identifier;
    assert Regular(h[..j], h[j]);
    OpenMeaning(h[..j], mid);
    assert !OpenSince(h[..j], mid, i);
    k :| i < k < j && (h[k] == Released(mid) || h[k] == Reset || h[k] == Missed(mid));
  }

  /** Where every pass was put on record, nothing comes through twice. */
  lemma NoneMissed(h: seq<Receipt>)
    requires Orderly(h) && forall i :: 0 <= i < |h| ==> !h[i].Missed?
    ensures ExactlyOnce(h)
  {
    OnceIff(h);
  }

  /** When the store after the forward fails, the message is forwarded, its identifier is not on record, and the
      next publish under it is forwarded again. */
  lemma MissRepeats(h: seq<Receipt>, m: Publish)
    requires Orderly(h) && ExactlyOnce(h) && m.qos == 2 && m.identifier !in Open(h)
    ensures var g := h + [Passed(m), Missed(m.identifier)];
            && Orderly(g) && m.identifier !in Open(g)
            && Orderly(g + [Passed(m)]) && !ExactlyOnce(g + [Passed(m)])
  {
    var a, mid := h + [Passed(m)], m.identifier;
    var g := h + [Passed(m), Missed(mid)];
    assert g == a + [Missed(mid)];
    OrderlyStep(h, Passed(m));
    OrderlyStep(a, Missed(mid));
    OpenStep(h, Passed(m));
    OpenStep(a, Missed(mid));
    OrderlyStep(g, Passed(m));
    var f := g + [Passed(m)];
    assert f[|h| + 1] == Missed(mid) && Passes(f[|h| + 2], mid);
    assert Repeated(f, |h| + 1, |h| + 2);
    OnceIff(f);
  }
}
